/**
  Dependencies between integrations: the depth-first check of every create and update, and
  why the accepted graph never has a cycle.
 */
module DependencyGraph {
  import opened Ids

  /** Each integration's dependencies, in the order they are listed. */
  type Graph = map<Id, seq<Id>>

  predicate Edge(g: Graph, a: Id, b: Id) {
    a in g && b in g[a]
  }

  predicate IsPath(g: Graph, p: seq<Id>) {
    |p| > 0 && forall k :: 0 <= k < |p| - 1 ==> Edge(g, p[k], p[k + 1])
  }

  ghost predicate Reaches(g: Graph, a: Id, b: Id) {
    exists p :: IsPath(g, p) && p[0] == a && p[|p| - 1] == b
  }

  predicate IsCycle(g: Graph, p: seq<Id>) {
    IsPath(g, p) && |p| > 1 && p[0] == p[|p| - 1]
  }

  ghost predicate Acyclic(g: Graph) {
    forall p :: !IsCycle(g, p)
  }

  // ----- the search -----

  /** Everything found so far has its dependencies found too, except what was already open. */
  ghost predicate Closed(g: Graph, seen: set<Id>, open: set<Id>) {
    forall x, y :: x in seen && x !in open && Edge(g, x, y) ==> y in seen
  }

  lemma {:induction false} ClosedTraps(g: Graph, seen: set<Id>, p: seq<Id>)
    requires Closed(g, seen, {}) && IsPath(g, p) && p[0] in seen
    ensures p[|p| - 1] in seen
    decreases |p|
  {
    if |p| > 1 {
      assert Edge(g, p[0], p[1]);
      assert IsPath(g, p[1..]) by {
        forall k | 0 <= k < |p| - 2 ensures Edge(g, p[1..][k], p[1..][k + 1]) {
          assert Edge(g, p[k + 1], p[k + 2]);
        }
      }
      ClosedTraps(g, seen, p[1..]);
    }
  }

  lemma PathFrom(g: Graph, a: Id, b: Id, c: Id)
    requires Edge(g, a, b) && Reaches(g, b, c)
    ensures Reaches(g, a, c)
  {
    var p :| IsPath(g, p) && p[0] == b && p[|p| - 1] == c;
    var q := [a] + p;
    assert IsPath(g, q) by {
      forall k | 0 <= k < |q| - 1 ensures Edge(g, q[k], q[k + 1]) {
        if k > 0 { assert Edge(g, p[k - 1], p[k]); }
      }
    }
    assert q[0] == a && q[|q| - 1] == c;
  }

  /**
    The recursive search with its set of visited integrations. `open` are the integrations
    whose dependencies are still being walked further up.
   */
  method Visit(g: Graph, target: Id, i: Id, seen: set<Id>, ghost open: set<Id>) returns (found: bool, seen': set<Id>)
    requires target !in seen && open <= seen && Closed(g, seen, open)
    ensures found ==> Reaches(g, i, target)
    ensures !found ==> seen <= seen' && i in seen' && target !in seen' && Closed(g, seen', open)
    decreases |g.Keys - seen|
  {
    if i == target {
      assert IsPath(g, [i]);
      return true, seen;
    }
    if i in seen { return false, seen; }
    seen' := seen + {i};
    if i in g {
      assert g.Keys - seen' < g.Keys - seen;
      Shrinks(g.Keys - seen', g.Keys - seen);
      var k := 0;
      while k < |g[i]|
        invariant k <= |g[i]|
        invariant seen + {i} <= seen' && target !in seen' && Closed(g, seen', open + {i})
        invariant forall j :: 0 <= j < k ==> g[i][j] in seen'
      {
        Shrinks(g.Keys - seen', g.Keys - (seen + {i}));
        var below;
        ghost var before := seen';
        below, seen' := Visit(g, target, g[i][k], seen', open + {i});
        if below {
          PathFrom(g, i, g[i][k], target);
          return true, seen;
        }
        k := k + 1;
      }
      assert forall y :: Edge(g, i, y) ==> y in seen';
    }
    return false, seen';
  }

  lemma Shrinks(a: set<Id>, b: set<Id>)
    requires a <= b
    ensures |a| <= |b| && (a != b ==> |a| < |b|)
  {
    assert b == a + (b - a);
    if a != b {
      var x :| x in b && x !in a;
      assert b - a != {};
    }
  }

  /** Each dependency is searched with a fresh set: a cycle is reported exactly when one of them reaches the target. */
  method ClosesCycle(g: Graph, target: Id, dependencies: seq<Id>) returns (cycle: bool)
    ensures cycle <==> exists k :: 0 <= k < |dependencies| && Reaches(g, dependencies[k], target)
  {
    var k := 0;
    while k < |dependencies|
      invariant k <= |dependencies|
      invariant forall j :: 0 <= j < k ==> !Reaches(g, dependencies[j], target)
    {
      var found, seen := Visit(g, target, dependencies[k], {}, {});
      if found { return true; }
      if Reaches(g, dependencies[k], target) {
        var p :| IsPath(g, p) && p[0] == dependencies[k] && p[|p| - 1] == target;
        ClosedTraps(g, seen, p);
      }
      k := k + 1;
    }
    return false;
  }

  // ----- what an accepted edit keeps -----

  /** The first place at or after `from` where a path meets `id`. */
  function Meets(p: seq<Id>, id: Id, from: nat): (m: nat)
    requires from < |p| && p[|p| - 1] == id
    ensures from <= m < |p| && p[m] == id && forall k :: from <= k < m ==> p[k] != id
    decreases |p| - from
  {
    if p[from] == id then from else Meets(p, id, from + 1)
  }

  lemma SubPath(g: Graph, p: seq<Id>, lo: nat, hi: nat)
    requires IsPath(g, p) && lo < hi <= |p|
    ensures IsPath(g, p[lo..hi])
  {
    forall k | 0 <= k < hi - lo - 1 ensures Edge(g, p[lo..hi][k], p[lo..hi][k + 1]) {
      assert Edge(g, p[lo + k], p[lo + k + 1]);
    }
  }

  /** A path that leaves `id` only at its end is a path whatever `id` depends on. */
  lemma SamePath(g: Graph, g': Graph, id: Id, p: seq<Id>)
    requires IsPath(g, p) && forall k :: 0 <= k < |p| - 1 ==> p[k] != id
    requires forall x :: x != id && x in g ==> x in g' && g'[x] == g[x]
    ensures IsPath(g', p)
  {
    forall k | 0 <= k < |p| - 1 ensures Edge(g', p[k], p[k + 1]) {
      assert Edge(g, p[k], p[k + 1]);
    }
  }

  /** A cycle can be walked from any of its members. */
  lemma Rotates(g: Graph, p: seq<Id>, k: nat) returns (q: seq<Id>)
    requires IsCycle(g, p) && k < |p| - 1
    ensures IsCycle(g, q) && q[0] == p[k]
  {
    q := p[k..] + p[1..k + 1];
    forall j | 0 <= j < |q| - 1 ensures Edge(g, q[j], q[j + 1]) {
      if j < |p| - 1 - k {
        assert Edge(g, p[k + j], p[k + j + 1]);
      } else {
        var i := j - (|p| - 1 - k);
        assert q[j] == p[i] && q[j + 1] == p[i + 1] by { RotatedAt(p, k, q, j); }
        assert Edge(g, p[i], p[i + 1]);
      }
    }
    RotatedAt(p, k, q, |q| - 1);
  }

  lemma RotatedAt(p: seq<Id>, k: nat, q: seq<Id>, j: nat)
    requires |p| > 1 && p[0] == p[|p| - 1] && k < |p| - 1 && q == p[k..] + p[1..k + 1] && |p| - 1 - k <= j < |q|
    ensures j - (|p| - 1 - k) <= k && q[j] == p[j - (|p| - 1 - k)]
  {
    if j >= |p| - k {
      assert q[j] == p[1..k + 1][j - (|p| - k)];
    }
  }

  /** The edit is acyclic exactly when none of the new dependencies reaches the edited integration. */
  lemma EditIsAcyclicIff(g: Graph, id: Id, dependencies: seq<Id>)
    requires Acyclic(g)
    ensures Acyclic(g[id := dependencies])
        <==> !exists k :: 0 <= k < |dependencies| && Reaches(g, dependencies[k], id)
  {
    var g' := g[id := dependencies];
    if k :| 0 <= k < |dependencies| && Reaches(g, dependencies[k], id) {
      ReachedClosesCycle(g, id, dependencies, k);
    }
    if p :| IsCycle(g', p) {
      CycleNeedsReach(g, id, dependencies, p);
    }
  }

  lemma ReachedClosesCycle(g: Graph, id: Id, dependencies: seq<Id>, k: nat)
    requires k < |dependencies| && Reaches(g, dependencies[k], id)
    ensures !Acyclic(g[id := dependencies])
  {
    var g' := g[id := dependencies];
    var p :| IsPath(g, p) && p[0] == dependencies[k] && p[|p| - 1] == id;
    var m := Meets(p, id, 0);
    SubPath(g, p, 0, m + 1);
    SamePath(g, g', id, p[0..m + 1]);
    var cycle := [id] + p[0..m + 1];
    assert IsPath(g', cycle) by {
      forall j | 0 <= j < |cycle| - 1 ensures Edge(g', cycle[j], cycle[j + 1]) {
        if j > 0 { assert Edge(g', p[0..m + 1][j - 1], p[0..m + 1][j]); }
      }
    }
    assert IsCycle(g', cycle);
  }

  lemma CycleNeedsReach(g: Graph, id: Id, dependencies: seq<Id>, p: seq<Id>)
    requires Acyclic(g) && IsCycle(g[id := dependencies], p)
    ensures exists k :: 0 <= k < |dependencies| && Reaches(g, dependencies[k], id)
  {
    var g' := g[id := dependencies];
    assert !IsCycle(g, p);
    if forall k :: 0 <= k < |p| - 1 ==> p[k] != id {
      SamePath(g', g, id, p);
    } else {
      var k :| 0 <= k < |p| - 1 && p[k] == id;
      var q := Rotates(g', p, k);
      assert Edge(g', q[0], q[1]);
      var m := Meets(q, id, 1);
      SubPath(g', q, 1, m + 1);
      var back := q[1..m + 1];
      SamePath(g', g, id, back);
      var d :| 0 <= d < |dependencies| && dependencies[d] == q[1];
      assert back[0] == dependencies[d] && back[|back| - 1] == id;
      assert Reaches(g, dependencies[d], id);
    }
  }

  lemma EmptyIsAcyclic()
    ensures Acyclic(map[])
  {
    var g: Graph := map[];
    forall p ensures !IsCycle(g, p) {
      if |p| > 1 {
        assert !Edge(g, p[0], p[1]);
      }
    }
  }

  // ----- the store -----

  class IntegrationStore {
    var dependencies: Graph

    ghost predicate Valid()
      reads this
    {
      Acyclic(dependencies)
    }

    constructor ()
      ensures Valid() && dependencies == map[]
    {
      dependencies := map[];
      EmptyIsAcyclic();
    }

    /** Creates or edits one integration; it is accepted exactly when the result has no cycle. */
    method Put(id: Id, wanted: seq<Id>) returns (accepted: bool)
      requires Valid()
      modifies this
      ensures Valid()
      ensures accepted <==> Acyclic(old(dependencies)[id := wanted])
      ensures dependencies == if accepted then old(dependencies)[id := wanted] else old(dependencies)
    {
      var cycle := ClosesCycle(dependencies, id, wanted);
      EditIsAcyclicIff(dependencies, id, wanted);
      if cycle { return false; }
      dependencies := dependencies[id := wanted];
      return true;
    }
  }

  // ----- sequences of edits -----

  datatype Edit = Edit(id: Id, dependencies: seq<Id>)

  /** What a store holds after a sequence of commands, refused ones leaving it alone. */
  ghost function After(g: Graph, edits: seq<Edit>): Graph {
    if |edits| == 0 then g
    else
      var before := After(g, edits[..|edits| - 1]);
      var e := edits[|edits| - 1];
      if exists k :: 0 <= k < |e.dependencies| && Reaches(before, e.dependencies[k], e.id)
      then before else before[e.id := e.dependencies]
  }

  /** However many integrations are created and edited, no cycle ever appears. */
  lemma {:induction false} AlwaysAcyclic(edits: seq<Edit>)
    ensures Acyclic(After(map[], edits))
  {
    if |edits| == 0 {
      EmptyIsAcyclic();
    } else {
      AlwaysAcyclic(edits[..|edits| - 1]);
      var e := edits[|edits| - 1];
      EditIsAcyclicIff(After(map[], edits[..|edits| - 1]), e.id, e.dependencies);
    }
  }
}
