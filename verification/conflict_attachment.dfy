/** Attaching verified resolutions to the sources of a composition, and rechecking queued work that carries them. */
module ConflictAttachment {
  import opened Ids
  import E = ConflictEvidence
  import C = ConflictCheck

  /** What a source was planned from, and the resolution it carries (`NO_ID` twice for none). */
  datatype Plan = Plan(base: Id, heads: seq<Id>, resolution: Id, resolvedBy: Id)
  datatype Source = Source(repo: Id, plan: Plan)
  datatype Composition = Composition(id: Id, product: Id)

  /** A recorded conflict: the source it was found on, its proof obligation and the results cited for it. */
  datatype Recorded = Recorded(id: Id, composition: Id, resolved: bool, repo: Id, base: Id, heads: seq<Id>,
                               proof: E.Conflict, cited: seq<Id>)

  // ----- what attaching means -----

  ghost predicate Usable(log: E.Log, comp: Composition, c: Recorded) {
    && c.proof.product == comp.product && c.composition == comp.id && c.resolved && c.proof.commitFull
    && E.Accepts(log, c.proof, c.cited)
  }

  predicate Selects(s: Source, c: Recorded) {
    s.repo == c.repo && s.plan.base == c.base && s.plan.heads == c.heads
  }

  predicate InUse(sources: seq<Source>, repo: Id) {
    exists i :: 0 <= i < |sources| && sources[i].repo == repo
  }

  /** The sources of the conflict's repository: at most one, still selected as when the conflict was found. */
  predicate Fits(sources: seq<Source>, c: Recorded) {
    && (forall i :: 0 <= i < |sources| && sources[i].repo == c.repo ==> Selects(sources[i], c))
    && (forall i, j :: 0 <= i < j < |sources| && sources[i].repo == c.repo ==> sources[j].repo != c.repo)
  }

  /** The conflicts recorded under an identity, in order. */
  function Named(conflicts: seq<Recorded>, id: Id): seq<Recorded> {
    if |conflicts| == 0 then []
    else
      var n := |conflicts| - 1;
      Named(conflicts[..n], id) + (if conflicts[n].id == id then [conflicts[n]] else [])
  }

  /** The conflicts that a list of identities cites, in the order they are visited. */
  function Cited(conflicts: seq<Recorded>, ids: seq<Id>): seq<Recorded> {
    if |ids| == 0 then [] else Cited(conflicts, ids[..|ids| - 1]) + Named(conflicts, ids[|ids| - 1])
  }

  /** Every visited conflict is usable and fits, and no two of them share a repository in use. */
  ghost predicate Clean(log: E.Log, comp: Composition, sources: seq<Source>, visited: seq<Recorded>) {
    && (forall a :: 0 <= a < |visited| ==> Usable(log, comp, visited[a]) && Fits(sources, visited[a]))
    && (forall a, b :: 0 <= a < b < |visited| && visited[a].repo == visited[b].repo ==> !InUse(sources, visited[a].repo))
  }

  /** Some conflict of this identity belongs to a source. */
  predicate Found(sources: seq<Source>, named: seq<Recorded>) {
    exists c :: 0 <= c < |named| && InUse(sources, named[c].repo)
  }

  ghost predicate Attachable(log: E.Log, conflicts: seq<Recorded>, comp: Composition, sources: seq<Source>, ids: seq<Id>) {
    && Clean(log, comp, sources, Cited(conflicts, ids))
    && forall k :: 0 <= k < |ids| ==> Found(sources, Named(conflicts, ids[k]))
  }

  function Put(s: Source, c: Recorded): Source {
    if s.repo == c.repo then s.(plan := s.plan.(resolution := c.proof.commit, resolvedBy := c.id)) else s
  }

  function PutAll(sources: seq<Source>, c: Recorded): seq<Source> {
    seq(|sources|, i requires 0 <= i < |sources| => Put(sources[i], c))
  }

  /** The sources after all visited conflicts are attached. */
  function Attached(sources: seq<Source>, visited: seq<Recorded>): (r: seq<Source>)
    ensures |r| == |sources|
    ensures forall i :: 0 <= i < |r| ==> r[i].repo == sources[i].repo && r[i].plan.base == sources[i].plan.base
                                         && r[i].plan.heads == sources[i].plan.heads
  {
    if |visited| == 0 then sources else PutAll(Attached(sources, visited[..|visited| - 1]), visited[|visited| - 1])
  }

  /** A clean attachment changes exactly the sources of the visited repositories, each to its own conflict's resolution. */
  lemma {:induction false} AttachedIs(log: E.Log, comp: Composition, sources: seq<Source>, visited: seq<Recorded>, i: nat)
    requires i < |sources| && Clean(log, comp, sources, visited)
    ensures (forall a :: 0 <= a < |visited| ==> visited[a].repo != sources[i].repo) ==> Attached(sources, visited)[i] == sources[i]
    ensures forall a :: 0 <= a < |visited| && visited[a].repo == sources[i].repo ==>
              Attached(sources, visited)[i] == Put(sources[i], visited[a])
  {
    hide Usable, Fits;
    if |visited| > 0 {
      var n := |visited| - 1;
      var before := visited[..n];
      assert forall a :: 0 <= a < n ==> before[a] == visited[a];
      assert InUse(sources, sources[i].repo);
      AttachedIs(log, comp, sources, before, i);
      var was := Attached(sources, before);
      assert Attached(sources, visited)[i] == Put(was[i], visited[n]);
    }
  }

  // ----- the attachment as it runs -----

  /** One conflict against every source; `used` holds the repositories resolved so far. */
  method AttachOne(attached: array<Source>, used: set<Id>, c: Recorded) returns (ok: bool, now: set<Id>, found: bool)
    modifies attached
    ensures ok <==> Fits(old(attached[..]), c) && (InUse(old(attached[..]), c.repo) ==> c.repo !in used)
    ensures ok ==> attached[..] == PutAll(old(attached[..]), c)
    ensures ok ==> found == InUse(old(attached[..]), c.repo)
    ensures ok ==> now == if found then used + {c.repo} else used
  {
    now, found := used, false;
    var i := 0;
    while i < attached.Length
      invariant i <= attached.Length
      invariant forall j :: 0 <= j < i ==> attached[j] == Put(old(attached[j]), c)
      invariant forall j :: i <= j < attached.Length ==> attached[j] == old(attached[j])
      invariant forall j :: 0 <= j < i && old(attached[j].repo) == c.repo ==> Selects(old(attached[j]), c)
      invariant forall j, k :: 0 <= j < k < i && old(attached[j].repo) == c.repo ==> old(attached[k].repo) != c.repo
      invariant found <==> exists j :: 0 <= j < i && old(attached[j].repo) == c.repo
      invariant now == if found then used + {c.repo} else used
      invariant found ==> c.repo !in used
    {
      var source := attached[i];
      if source.repo == c.repo {
        if c.repo in now || source.plan.base != c.base || source.plan.heads != c.heads {
          if found {
            ghost var j :| 0 <= j < i && old(attached[j].repo) == c.repo;
            assert old(attached[..])[j].repo == c.repo && old(attached[..])[i].repo == c.repo;
          }
          assert old(attached[..])[i].repo == c.repo;
          return false, now, found;
        }
        now, found := now + {c.repo}, true;
        attached[i] := source.(plan := source.plan.(resolution := c.proof.commit, resolvedBy := c.id));
      }
      i := i + 1;
    }
    assert attached[..] == PutAll(old(attached[..]), c);
    return true, now, found;
  }

  ghost predicate UsedSoFar(sources: seq<Source>, visited: seq<Recorded>, used: set<Id>) {
    forall r :: r in used <==> InUse(sources, r) && exists a :: 0 <= a < |visited| && visited[a].repo == r
  }

  /** The loop's verdict on one more conflict is what cleanliness asks of the longer list. */
  lemma CleanNext(log: E.Log, comp: Composition, sources: seq<Source>, visited: seq<Recorded>, c: Recorded, used: set<Id>)
    requires Clean(log, comp, sources, visited) && UsedSoFar(sources, visited, used)
    ensures var ok := Usable(log, comp, c) && Fits(sources, c) && (InUse(sources, c.repo) ==> c.repo !in used);
            && (ok <==> Clean(log, comp, sources, visited + [c]))
            && UsedSoFar(sources, visited + [c], if InUse(sources, c.repo) then used + {c.repo} else used)
  {
    hide Usable, Fits, InUse;
    var more := visited + [c];
    assert forall a :: 0 <= a < |visited| ==> more[a] == visited[a];
    assert more[|visited|] == c;
    var now := if InUse(sources, c.repo) then used + {c.repo} else used;
    forall r ensures r in now <==> InUse(sources, r) && exists a :: 0 <= a < |more| && more[a].repo == r {
      if a :| 0 <= a < |visited| && visited[a].repo == r { assert more[a].repo == r; }
    }
    if InUse(sources, c.repo) && c.repo in used {
      var a :| 0 <= a < |visited| && visited[a].repo == c.repo;
      assert more[a].repo == more[|visited|].repo;
    }
  }

  lemma AttachedSameShape(sources: seq<Source>, visited: seq<Recorded>, c: Recorded)
    ensures Fits(Attached(sources, visited), c) == Fits(sources, c)
    ensures forall r :: InUse(Attached(sources, visited), r) == InUse(sources, r)
  {
    var r := Attached(sources, visited);
    hide Attached;
    assert forall i :: 0 <= i < |r| ==> Selects(r[i], c) == Selects(sources[i], c);
    forall repo ensures InUse(r, repo) == InUse(sources, repo) {
      if InUse(r, repo) { var i :| 0 <= i < |r| && r[i].repo == repo; assert sources[i].repo == repo; }
      if InUse(sources, repo) { var i :| 0 <= i < |sources| && sources[i].repo == repo; assert r[i].repo == repo; }
    }
  }

  lemma CleanPrefix(log: E.Log, comp: Composition, sources: seq<Source>, visited: seq<Recorded>, all: seq<Recorded>)
    requires visited <= all && Clean(log, comp, sources, all)
    ensures Clean(log, comp, sources, visited)
  {
    hide Usable, Fits, InUse;
    assert forall a :: 0 <= a < |visited| ==> visited[a] == all[a];
  }

  lemma {:induction false} NamedPrefix(conflicts: seq<Recorded>, id: Id, j: nat)
    requires j <= |conflicts|
    ensures Named(conflicts[..j], id) <= Named(conflicts, id)
    decreases |conflicts|
  {
    if j < |conflicts| {
      var n := |conflicts| - 1;
      NamedPrefix(conflicts[..n], id, j);
      assert conflicts[..n][..j] == conflicts[..j];
    } else {
      assert conflicts[..j] == conflicts;
    }
  }

  lemma {:induction false} CitedPrefix(conflicts: seq<Recorded>, ids: seq<Id>, k: nat)
    requires k <= |ids|
    ensures Cited(conflicts, ids[..k]) <= Cited(conflicts, ids)
    decreases |ids|
  {
    if k < |ids| {
      var n := |ids| - 1;
      CitedPrefix(conflicts, ids[..n], k);
      assert ids[..n][..k] == ids[..k];
    } else {
      assert ids[..k] == ids;
    }
  }

  /** One visited conflict: checked for itself, then put on its source. */
  method AttachVisited(log: E.Log, comp: Composition, ghost sources: seq<Source>, ghost visited: seq<Recorded>,
                       attached: array<Source>, used: set<Id>, c: Recorded)
    returns (ok: bool, now: set<Id>, found: bool)
    requires attached[..] == Attached(sources, visited) && Clean(log, comp, sources, visited) && UsedSoFar(sources, visited, used)
    modifies attached
    ensures ok <==> Clean(log, comp, sources, visited + [c])
    ensures ok ==> attached[..] == Attached(sources, visited + [c])
    ensures ok ==> UsedSoFar(sources, visited + [c], now) && found == InUse(sources, c.repo)
  {
    AttachedNext(sources, visited, c);
    hide Usable, Fits, InUse, Clean, UsedSoFar, Attached, PutAll;
    CleanNext(log, comp, sources, visited, c, used);
    AttachedSameShape(sources, visited, c);
    ok := IsUsable(log, comp, c);
    now, found := used, false;
    if ok { ok, now, found := AttachOne(attached, used, c); }
  }

  lemma AttachedNext(sources: seq<Source>, visited: seq<Recorded>, c: Recorded)
    ensures Attached(sources, visited + [c]) == PutAll(Attached(sources, visited), c)
  {
    assert (visited + [c])[..|visited|] == visited;
  }

  lemma NamedNext(conflicts: seq<Recorded>, id: Id, j: nat, before: seq<Recorded>)
    requires j < |conflicts|
    ensures before + Named(conflicts[..j + 1], id)
         == if conflicts[j].id == id then before + Named(conflicts[..j], id) + [conflicts[j]] else before + Named(conflicts[..j], id)
    ensures Named(conflicts[..j + 1], id)
         == if conflicts[j].id == id then Named(conflicts[..j], id) + [conflicts[j]] else Named(conflicts[..j], id)
  {
    assert conflicts[..j + 1][..j] == conflicts[..j];
  }

  /** If everything is clean, so is what has been visited when conflict `j` is done. */
  lemma CleanSoFar(log: E.Log, comp: Composition, sources: seq<Source>, conflicts: seq<Recorded>, id: Id, j: nat, before: seq<Recorded>)
    requires j <= |conflicts|
    ensures Clean(log, comp, sources, before + Named(conflicts, id)) ==> Clean(log, comp, sources, before + Named(conflicts[..j], id))
  {
    hide Clean;
    NamedPrefix(conflicts, id, j);
    if Clean(log, comp, sources, before + Named(conflicts, id)) {
      CleanPrefix(log, comp, sources, before + Named(conflicts[..j], id), before + Named(conflicts, id));
    }
  }

  /** All conflicts recorded under one identity. */
  method AttachNamed(log: E.Log, conflicts: seq<Recorded>, comp: Composition, ghost sources: seq<Source>,
                     ghost before: seq<Recorded>, attached: array<Source>, used: set<Id>, id: Id)
    returns (ok: bool, now: set<Id>, found: bool)
    requires attached[..] == Attached(sources, before) && Clean(log, comp, sources, before) && UsedSoFar(sources, before, used)
    modifies attached
    ensures ok <==> Clean(log, comp, sources, before + Named(conflicts, id))
    ensures ok ==> attached[..] == Attached(sources, before + Named(conflicts, id))
    ensures ok ==> UsedSoFar(sources, before + Named(conflicts, id), now)
    ensures ok ==> found == Found(sources, Named(conflicts, id))
  {
    now, found := used, false;
    var j := 0;
    ghost var visited := before;
    NothingNamed(sources, conflicts, id, before);
    hide InUse, Clean, UsedSoFar, Found, Attached, Named;
    while j < |conflicts|
      invariant j <= |conflicts|
      invariant visited == before + Named(conflicts[..j], id)
      invariant Clean(log, comp, sources, visited) && UsedSoFar(sources, visited, now)
      invariant attached[..] == Attached(sources, visited)
      invariant found == Found(sources, Named(conflicts[..j], id))
    {
      hide *;
      var c := conflicts[j];
      NamedNext(conflicts, id, j, before);
      if c.id == id {
        FoundNext(sources, Named(conflicts[..j], id), c);
        CleanSoFar(log, comp, sources, conflicts, id, j + 1, before);
        var hit;
        ok, now, hit := AttachVisited(log, comp, sources, visited, attached, now, c);
        if !ok { return false, now, found; }
        found, visited := found || hit, visited + [c];
      }
      j := j + 1;
    }
    assert conflicts[..j] == conflicts;
    return true, now, found;
  }

  lemma NothingNamed(sources: seq<Source>, conflicts: seq<Recorded>, id: Id, before: seq<Recorded>)
    ensures before + Named(conflicts[..0], id) == before && !Found(sources, Named(conflicts[..0], id))
  {
  }

  lemma FoundNext(sources: seq<Source>, named: seq<Recorded>, c: Recorded)
    ensures Found(sources, named + [c]) <==> Found(sources, named) || InUse(sources, c.repo)
  {
    hide InUse;
    var more := named + [c];
    assert more[|named|] == c;
    if a :| 0 <= a < |named| && InUse(sources, named[a].repo) { assert InUse(sources, more[a].repo); }
  }

  method IsUsable(log: E.Log, comp: Composition, c: Recorded) returns (ok: bool)
    ensures ok == Usable(log, comp, c)
  {
    if c.proof.product != comp.product || c.composition != comp.id || !c.resolved || !c.proof.commitFull { return false; }
    ok := C.ValidateConflictResolutionEvidence(log, c.proof, c.cited);
  }

  lemma CitedNext(conflicts: seq<Recorded>, ids: seq<Id>, k: nat)
    requires k < |ids|
    ensures Cited(conflicts, ids[..k + 1]) == Cited(conflicts, ids[..k]) + Named(conflicts, ids[k])
    ensures Cited(conflicts, ids[..k + 1]) <= Cited(conflicts, ids)
  {
    assert ids[..k + 1][..k] == ids[..k];
    CitedPrefix(conflicts, ids, k + 1);
  }

  /** What the loop over the identities has established before identity `k`. */
  ghost predicate Progress(log: E.Log, conflicts: seq<Recorded>, comp: Composition, sources: seq<Source>, ids: seq<Id>, k: nat,
                           used: set<Id>)
    requires k <= |ids|
  {
    && Clean(log, comp, sources, Cited(conflicts, ids[..k])) && UsedSoFar(sources, Cited(conflicts, ids[..k]), used)
    && forall n :: 0 <= n < k ==> Found(sources, Named(conflicts, ids[n]))
  }

  lemma ProgressEnds(log: E.Log, conflicts: seq<Recorded>, comp: Composition, sources: seq<Source>, ids: seq<Id>, used: set<Id>)
    requires Progress(log, conflicts, comp, sources, ids, |ids|, used)
    ensures Attachable(log, conflicts, comp, sources, ids)
  {
    hide Clean, UsedSoFar, Found;
    assert ids[..|ids|] == ids;
  }

  lemma Blocked(log: E.Log, conflicts: seq<Recorded>, comp: Composition, sources: seq<Source>, ids: seq<Id>, k: nat)
    requires k < |ids|
    requires !Clean(log, comp, sources, Cited(conflicts, ids[..k + 1])) || !Found(sources, Named(conflicts, ids[k]))
    ensures !Attachable(log, conflicts, comp, sources, ids)
  {
    hide Clean, Found;
    CitedNext(conflicts, ids, k);
    if Clean(log, comp, sources, Cited(conflicts, ids)) {
      CleanPrefix(log, comp, sources, Cited(conflicts, ids[..k + 1]), Cited(conflicts, ids));
    }
  }

  method CopyOf(sources: seq<Source>) returns (a: array<Source>)
    ensures fresh(a) && a[..] == sources
  {
    a := new Source[|sources|](k requires 0 <= k < |sources| => sources[k]);
  }

  method Overwrite(target: array<Source>, from: array<Source>)
    requires target.Length == from.Length && target != from
    modifies target
    ensures target[..] == from[..]
  {
    forall i | 0 <= i < target.Length { target[i] := from[i]; }
  }

  /** All cited identities, on the copy. */
  method AttachAll(log: E.Log, conflicts: seq<Recorded>, comp: Composition, attached: array<Source>, ids: seq<Id>) returns (ok: bool)
    modifies attached
    ensures ok <==> Attachable(log, conflicts, comp, old(attached[..]), ids)
    ensures ok ==> attached[..] == Attached(old(attached[..]), Cited(conflicts, ids))
  {
    ghost var was := attached[..];
    var used: set<Id> := {};
    var k := 0;
    assert Cited(conflicts, ids[..0]) == [];
    hide Clean, UsedSoFar, Found, Attachable;
    assert Progress(log, conflicts, comp, was, ids, 0, used) by { NothingVisited(log, comp, was); }
    hide Progress;
    while k < |ids|
      invariant k <= |ids|
      invariant attached[..] == Attached(was, Cited(conflicts, ids[..k]))
      invariant Progress(log, conflicts, comp, was, ids, k, used)
    {
      hide Attached, Cited;
      ProgressHas(log, conflicts, comp, was, ids, k, used);
      CitedNext(conflicts, ids, k);
      var fine, now, found := AttachNamed(log, conflicts, comp, was, Cited(conflicts, ids[..k]), attached, used, ids[k]);
      if !fine || !found {
        Blocked(log, conflicts, comp, was, ids, k);
        return false;
      }
      ProgressNext(log, conflicts, comp, was, ids, k, used, now);
      used := now;
      k := k + 1;
    }
    ProgressEnds(log, conflicts, comp, was, ids, used);
    assert ids[..k] == ids;
    return true;
  }

  lemma NothingVisited(log: E.Log, comp: Composition, sources: seq<Source>)
    ensures Clean(log, comp, sources, []) && UsedSoFar(sources, [], {})
  {
  }

  lemma ProgressHas(log: E.Log, conflicts: seq<Recorded>, comp: Composition, sources: seq<Source>, ids: seq<Id>, k: nat, used: set<Id>)
    requires k <= |ids| && Progress(log, conflicts, comp, sources, ids, k, used)
    ensures Clean(log, comp, sources, Cited(conflicts, ids[..k])) && UsedSoFar(sources, Cited(conflicts, ids[..k]), used)
  {
    hide Clean, UsedSoFar, Found;
  }

  lemma ProgressNext(log: E.Log, conflicts: seq<Recorded>, comp: Composition, sources: seq<Source>, ids: seq<Id>, k: nat,
                     used: set<Id>, now: set<Id>)
    requires k < |ids| && Progress(log, conflicts, comp, sources, ids, k, used) && Found(sources, Named(conflicts, ids[k]))
    requires Clean(log, comp, sources, Cited(conflicts, ids[..k]) + Named(conflicts, ids[k]))
    requires UsedSoFar(sources, Cited(conflicts, ids[..k]) + Named(conflicts, ids[k]), now)
    ensures Progress(log, conflicts, comp, sources, ids, k + 1, now)
  {
    hide Clean, UsedSoFar, Found, Cited, Named;
    CitedNext(conflicts, ids, k);
  }

  /** Attaches the cited resolutions, or leaves the sources as they were. */
  method AttachConflictResolutions(log: E.Log, conflicts: seq<Recorded>, comp: Composition, sources: array<Source>, ids: seq<Id>)
    returns (ok: bool)
    modifies sources
    ensures ok <==> Attachable(log, conflicts, comp, old(sources[..]), ids)
    ensures sources[..] == if ok then Attached(old(sources[..]), Cited(conflicts, ids)) else old(sources[..])
  {
    hide *;
    var attached := CopyOf(sources[..]);
    ok := AttachAll(log, conflicts, comp, attached, ids);
    if ok { Overwrite(sources, attached); }
  }

  // ----- rechecking queued work -----

  predicate Carries(s: Source) {
    s.plan.resolvedBy != NO_ID || s.plan.resolution != NO_ID
  }

  predicate Half(s: Source) {
    Carries(s) && (s.plan.resolvedBy == NO_ID || s.plan.resolution == NO_ID)
  }

  /** The conflicts that the sources name, in source order. */
  function CarriedIds(sources: seq<Source>): seq<Id> {
    if |sources| == 0 then []
    else
      var n := |sources| - 1;
      CarriedIds(sources[..n]) + (if Carries(sources[n]) then [sources[n].plan.resolvedBy] else [])
  }

  /** The resolutions are whole, still attachable, and attaching them again gives the same sources back. */
  ghost predicate StillValid(log: E.Log, conflicts: seq<Recorded>, product: Id, comp: Option<Composition>, sources: seq<Source>) {
    && (forall i :: 0 <= i < |sources| ==> !Half(sources[i]))
    && var ids := CarriedIds(sources);
       ids == [] ||
       (&& comp.Some? && comp.value.product == product
        && Attachable(log, conflicts, comp.value, sources, ids)
        && Attached(sources, Cited(conflicts, ids)) == sources)
  }

  method CollectCarried(sources: seq<Source>) returns (ids: Option<seq<Id>>)
    ensures ids.Some? <==> forall i :: 0 <= i < |sources| ==> !Half(sources[i])
    ensures ids.Some? ==> ids.value == CarriedIds(sources)
  {
    var found: seq<Id> := [];
    var i := 0;
    while i < |sources|
      invariant i <= |sources| && found == CarriedIds(sources[..i])
      invariant forall k :: 0 <= k < i ==> !Half(sources[k])
    {
      assert sources[..i + 1][..i] == sources[..i];
      var plan := sources[i].plan;
      if plan.resolvedBy != NO_ID || plan.resolution != NO_ID {
        if plan.resolvedBy == NO_ID || plan.resolution == NO_ID {
          assert Half(sources[i]);
          return None;
        }
        found := found + [plan.resolvedBy];
      }
      i := i + 1;
    }
    assert sources[..i] == sources;
    return Some(found);
  }

  method SameResolutions(checked: seq<Source>, sources: seq<Source>) returns (same: bool)
    requires |checked| == |sources|
    ensures same <==> forall i :: 0 <= i < |sources| ==>
              checked[i].plan.resolution == sources[i].plan.resolution && checked[i].plan.resolvedBy == sources[i].plan.resolvedBy
  {
    var i := 0;
    while i < |sources|
      invariant i <= |sources|
      invariant forall k :: 0 <= k < i ==>
                  checked[k].plan.resolution == sources[k].plan.resolution && checked[k].plan.resolvedBy == sources[k].plan.resolvedBy
    {
      if checked[i].plan.resolution != sources[i].plan.resolution || checked[i].plan.resolvedBy != sources[i].plan.resolvedBy {
        return false;
      }
      i := i + 1;
    }
    return true;
  }

  /** Attaching changes nothing but the resolution, so equal resolutions mean equal sources. */
  lemma SameIff(sources: seq<Source>, visited: seq<Recorded>)
    ensures Attached(sources, visited) == sources
       <==> forall i :: 0 <= i < |sources| ==>
              && Attached(sources, visited)[i].plan.resolution == sources[i].plan.resolution
              && Attached(sources, visited)[i].plan.resolvedBy == sources[i].plan.resolvedBy
  {
    var after := Attached(sources, visited);
    hide Attached;
    if forall i :: 0 <= i < |sources| ==> after[i].plan.resolution == sources[i].plan.resolution && after[i].plan.resolvedBy == sources[i].plan.resolvedBy {
      forall i | 0 <= i < |sources| ensures after[i] == sources[i] { assert after[i].plan == sources[i].plan; }
    }
  }

  method ValidateFlowConflictResolutions(log: E.Log, conflicts: seq<Recorded>, product: Id, comp: Option<Composition>,
                                         sources: seq<Source>) returns (ok: bool)
    ensures ok <==> StillValid(log, conflicts, product, comp, sources)
  {
    hide Attachable, Attached, Cited, CarriedIds, Half;
    var ids := CollectCarried(sources);
    if ids.None? { return false; }
    if |ids.value| == 0 { return true; }
    if comp.None? || comp.value.product != product { return false; }
    var checked := CopyOf(sources);
    var attached := AttachConflictResolutions(log, conflicts, comp.value, checked, ids.value);
    if !attached { return false; }
    SameIff(sources, Cited(conflicts, ids.value));
    ok := SameResolutions(checked[..], sources);
  }

  // ----- what was attached is accepted again -----

  predicate DistinctConflicts(conflicts: seq<Recorded>) {
    && (forall c :: 0 <= c < |conflicts| ==> conflicts[c].id != NO_ID)
    && (forall c, d :: 0 <= c < d < |conflicts| ==> conflicts[c].id != conflicts[d].id)
  }

  lemma {:induction false} NamedNone(conflicts: seq<Recorded>, id: Id)
    requires forall c :: 0 <= c < |conflicts| ==> conflicts[c].id != id
    ensures Named(conflicts, id) == []
  {
    if |conflicts| > 0 {
      NamedNone(conflicts[..|conflicts| - 1], id);
    }
  }

  lemma {:induction false} NamedOne(conflicts: seq<Recorded>, c: nat)
    requires c < |conflicts| && DistinctConflicts(conflicts)
    ensures Named(conflicts, conflicts[c].id) == [conflicts[c]]
    decreases |conflicts|
  {
    var n := |conflicts| - 1;
    if c < n { NamedOne(conflicts[..n], c); } else { NamedNone(conflicts[..n], conflicts[c].id); }
  }

  lemma {:induction false} NamedMembers(conflicts: seq<Recorded>, id: Id, x: Recorded)
    requires x in Named(conflicts, id)
    ensures x in conflicts && x.id == id
  {
    if |conflicts| > 0 {
      var n := |conflicts| - 1;
      if x in Named(conflicts[..n], id) { NamedMembers(conflicts[..n], id, x); }
    }
  }

  lemma {:induction false} CitedMembers(conflicts: seq<Recorded>, ids: seq<Id>, x: Recorded)
    requires x in Cited(conflicts, ids)
    ensures x in conflicts
  {
    var n := |ids| - 1;
    if x in Cited(conflicts, ids[..n]) { CitedMembers(conflicts, ids[..n], x); } else { NamedMembers(conflicts, ids[n], x); }
  }

  /** The visited conflict of a repository in use, as the first `n` sources carry them. */
  ghost predicate Carried(visited: seq<Recorded>, sources: seq<Source>, n: nat, c: Recorded)
    requires n <= |sources|
  {
    c in visited && exists i :: 0 <= i < n && sources[i].repo == c.repo
  }

  /** The sources before attaching: nothing attached yet, and every conflict a whole resolution. */
  ghost predicate Fresh(log: E.Log, conflicts: seq<Recorded>, comp: Composition, sources: seq<Source>, ids: seq<Id>) {
    && DistinctConflicts(conflicts)
    && (forall c :: 0 <= c < |conflicts| && conflicts[c].proof.commitFull ==> conflicts[c].proof.commit != NO_ID)
    && (forall i :: 0 <= i < |sources| ==> !Carries(sources[i]))
    && Attachable(log, conflicts, comp, sources, ids)
  }

  /** The source carries exactly the visited conflict of its repository, if there is one. */
  lemma CarriesIff(log: E.Log, conflicts: seq<Recorded>, comp: Composition, sources: seq<Source>, ids: seq<Id>, i: nat)
    requires i < |sources| && Fresh(log, conflicts, comp, sources, ids)
    ensures var visited := Cited(conflicts, ids); var s := Attached(sources, visited)[i];
            && !Half(s)
            && (Carries(s) ==> exists a :: 0 <= a < |visited| && visited[a].repo == s.repo && s == Put(sources[i], visited[a]) && s.plan.resolvedBy == visited[a].id)
            && (forall a :: 0 <= a < |visited| && visited[a].repo == s.repo ==> Carries(s) && s.plan.resolvedBy == visited[a].id)
  {
    var visited := Cited(conflicts, ids);
    AttachedIs(log, comp, sources, visited, i);
    forall a | 0 <= a < |visited| ensures visited[a].id != NO_ID && visited[a].proof.commit != NO_ID {
      CitedMembers(conflicts, ids, visited[a]);
      assert Usable(log, comp, visited[a]);
    }
  }

  /** What the first `n` sources carry, looked up again: the visited conflicts of their repositories, once each. */
  lemma {:induction false} CitedAgain(log: E.Log, conflicts: seq<Recorded>, comp: Composition, sources: seq<Source>, ids: seq<Id>, n: nat)
    requires n <= |sources| && Fresh(log, conflicts, comp, sources, ids)
    ensures var visited := Cited(conflicts, ids); var again := Cited(conflicts, CarriedIds(Attached(sources, visited)[..n]));
            && (forall c :: c in again <==> Carried(visited, sources, n, c))
            && (forall a, b :: 0 <= a < b < |again| ==> again[a].repo != again[b].repo)
    decreases n
  {
    hide Usable, Attachable;
    var visited := Cited(conflicts, ids);
    var after := Attached(sources, visited);
    var now := CarriedIds(after[..n]);
    if n == 0 {
      assert Cited(conflicts, now) == [];
    } else {
      CitedAgain(log, conflicts, comp, sources, ids, n - 1);
      assert after[..n][..n - 1] == after[..n - 1];
      var before := CarriedIds(after[..n - 1]);
      var s := after[n - 1];
      CarriesIff(log, conflicts, comp, sources, ids, n - 1);
      if Carries(s) {
        var a :| 0 <= a < |visited| && visited[a].repo == s.repo && s.plan.resolvedBy == visited[a].id;
        var c := visited[a];
        CitedMembers(conflicts, ids, c);
        var at :| 0 <= at < |conflicts| && conflicts[at] == c;
        NamedOne(conflicts, at);
        assert now == before + [c.id] && now[..|before|] == before;
        assert Cited(conflicts, now) == Cited(conflicts, before) + [c];
        OneMore(log, conflicts, comp, sources, ids, n, c);
      } else {
        assert now == before;
        NothingMore(visited, sources, n);
      }
    }
  }

  lemma CitedAgainAll(log: E.Log, conflicts: seq<Recorded>, comp: Composition, sources: seq<Source>, ids: seq<Id>)
    returns (again: seq<Recorded>)
    requires Fresh(log, conflicts, comp, sources, ids)
    ensures again == Cited(conflicts, CarriedIds(Attached(sources, Cited(conflicts, ids))))
    ensures forall c :: c in again <==> Carried(Cited(conflicts, ids), sources, |sources|, c)
    ensures forall a, b :: 0 <= a < b < |again| ==> again[a].repo != again[b].repo
  {
    hide Fresh, Attached, Cited, CarriedIds, Carried;
    var after := Attached(sources, Cited(conflicts, ids));
    CitedAgain(log, conflicts, comp, sources, ids, |sources|);
    assert after[..|sources|] == after;
    again := Cited(conflicts, CarriedIds(after));
  }

  lemma OneMore(log: E.Log, conflicts: seq<Recorded>, comp: Composition, sources: seq<Source>, ids: seq<Id>, n: nat, c: Recorded)
    requires 0 < n <= |sources| && Fresh(log, conflicts, comp, sources, ids)
    requires c in Cited(conflicts, ids) && c.repo == sources[n - 1].repo
    ensures forall d :: Carried(Cited(conflicts, ids), sources, n, d) <==> Carried(Cited(conflicts, ids), sources, n - 1, d) || d == c
    ensures forall d :: Carried(Cited(conflicts, ids), sources, n - 1, d) ==> d.repo != c.repo
  {
    hide Usable;
    var visited := Cited(conflicts, ids);
    var a :| 0 <= a < |visited| && visited[a] == c;
    assert Fits(sources, c);
    assert InUse(sources, c.repo);
    forall d | Carried(visited, sources, n, d) && d != c ensures Carried(visited, sources, n - 1, d) {
      var b :| 0 <= b < |visited| && visited[b] == d;
      var i :| 0 <= i < n && sources[i].repo == d.repo;
    }
    forall d | Carried(visited, sources, n - 1, d) ensures d.repo != c.repo {
      var i :| 0 <= i < n - 1 && sources[i].repo == d.repo;
    }
  }

  lemma NothingMore(visited: seq<Recorded>, sources: seq<Source>, n: nat)
    requires 0 < n <= |sources|
    requires forall a :: 0 <= a < |visited| ==> visited[a].repo != sources[n - 1].repo
    ensures forall d :: Carried(visited, sources, n, d) <==> Carried(visited, sources, n - 1, d)
  {
    forall d | Carried(visited, sources, n, d) ensures Carried(visited, sources, n - 1, d) {
      var i :| 0 <= i < n && sources[i].repo == d.repo;
    }
  }

  /** In an unchanged state, what attaching produced passes the recheck. */
  lemma AttachedIsAccepted(log: E.Log, conflicts: seq<Recorded>, comp: Composition, sources: seq<Source>, ids: seq<Id>)
    requires Fresh(log, conflicts, comp, sources, ids)
    ensures StillValid(log, conflicts, comp.product, Some(comp), Attached(sources, Cited(conflicts, ids)))
  {
    hide Usable, Fits, InUse, Cited, CarriedIds, Attached, Carried, Half, Found, Named;
    var visited := Cited(conflicts, ids);
    var after := Attached(sources, visited);
    var again := CitedAgainAll(log, conflicts, comp, sources, ids);
    AgainClean(log, comp, sources, visited, again);
    forall i | 0 <= i < |after| ensures !Half(after[i]) { CarriesIff(log, conflicts, comp, sources, ids, i); }
    forall k | 0 <= k < |CarriedIds(after)| ensures Found(after, Named(conflicts, CarriedIds(after)[k])) {
      FoundAgain(log, conflicts, comp, sources, ids, k);
    }
    assert Attached(after, again) == after by {
      forall i | 0 <= i < |after| ensures Attached(after, again)[i] == after[i] {
        SameAgain(log, conflicts, comp, sources, ids, again, i);
      }
    }
  }

  lemma AgainClean(log: E.Log, comp: Composition, sources: seq<Source>, visited: seq<Recorded>, again: seq<Recorded>)
    requires Clean(log, comp, sources, visited)
    requires forall c :: c in again ==> Carried(visited, sources, |sources|, c)
    requires forall a, b :: 0 <= a < b < |again| ==> again[a].repo != again[b].repo
    ensures Clean(log, comp, Attached(sources, visited), again)
  {
    hide Usable, Fits, InUse, Attached;
    forall a | 0 <= a < |again| ensures Usable(log, comp, again[a]) && Fits(Attached(sources, visited), again[a]) {
      assert again[a] in again;
      var b :| 0 <= b < |visited| && visited[b] == again[a];
      assert Usable(log, comp, visited[b]) && Fits(sources, visited[b]);
      AttachedSameShape(sources, visited, again[a]);
    }
  }

  lemma {:induction false} CarriedFrom(sources: seq<Source>, k: nat)
    requires k < |CarriedIds(sources)|
    ensures exists i :: 0 <= i < |sources| && Carries(sources[i]) && sources[i].plan.resolvedBy == CarriedIds(sources)[k]
  {
    var n := |sources| - 1;
    if k < |CarriedIds(sources[..n])| {
      CarriedFrom(sources[..n], k);
      var i :| 0 <= i < n && Carries(sources[..n][i]) && sources[..n][i].plan.resolvedBy == CarriedIds(sources)[k];
      assert sources[i] == sources[..n][i];
    } else {
      assert Carries(sources[n]);
    }
  }

  lemma FoundAgain(log: E.Log, conflicts: seq<Recorded>, comp: Composition, sources: seq<Source>, ids: seq<Id>, k: nat)
    requires Fresh(log, conflicts, comp, sources, ids)
    requires k < |CarriedIds(Attached(sources, Cited(conflicts, ids)))|
    ensures var after := Attached(sources, Cited(conflicts, ids)); Found(after, Named(conflicts, CarriedIds(after)[k]))
  {
    hide Usable, Attachable;
    var visited := Cited(conflicts, ids);
    var after := Attached(sources, visited);
    CarriedFrom(after, k);
    var i :| 0 <= i < |after| && Carries(after[i]) && after[i].plan.resolvedBy == CarriedIds(after)[k];
    CarriesIff(log, conflicts, comp, sources, ids, i);
    var a :| 0 <= a < |visited| && visited[a].repo == after[i].repo && after[i].plan.resolvedBy == visited[a].id;
    CitedMembers(conflicts, ids, visited[a]);
    var at :| 0 <= at < |conflicts| && conflicts[at] == visited[a];
    NamedOne(conflicts, at);
    assert InUse(after, [visited[a]][0].repo);
  }

  lemma SameAgain(log: E.Log, conflicts: seq<Recorded>, comp: Composition, sources: seq<Source>, ids: seq<Id>, again: seq<Recorded>, i: nat)
    requires i < |sources| && Fresh(log, conflicts, comp, sources, ids)
    requires forall c :: c in again <==> Carried(Cited(conflicts, ids), sources, |sources|, c)
    requires Clean(log, comp, Attached(sources, Cited(conflicts, ids)), again)
    ensures Attached(Attached(sources, Cited(conflicts, ids)), again)[i] == Attached(sources, Cited(conflicts, ids))[i]
  {
    hide Usable, Fits;
    var visited := Cited(conflicts, ids);
    var after := Attached(sources, visited);
    AttachedIs(log, comp, after, again, i);
    if a :| 0 <= a < |again| && again[a].repo == after[i].repo {
      assert again[a] in again;
      AttachedIs(log, comp, sources, visited, i);
    }
  }

  /** Any later result of a check that a carried resolution relies on makes the recheck refuse. */
  lemma StaleIsRefused(log: E.Log, conflicts: seq<Recorded>, product: Id, comp: Option<Composition>, sources: seq<Source>,
                       r: E.CheckResult, s: nat, c: nat, k: nat, i: nat)
    requires s < |sources| && c < |conflicts| && k < |conflicts[c].cited| && i < |log.results|
    requires sources[s].plan.resolvedBy == conflicts[c].id != NO_ID
    requires E.IsOnlyResult(log.results, conflicts[c].cited[k], i) && r.check == log.results[i].check
    ensures !StillValid(log.(results := log.results + [r]), conflicts, product, comp, sources)
  {
    hide Fits, InUse, Found;
    var later := log.(results := log.results + [r]);
    E.AppendInvalidates(log, conflicts[c].proof, conflicts[c].cited, k, i, r);
    hide E.Accepts;
    var ids := CarriedIds(sources);
    CarriedHas(sources, s);
    NamedHas(conflicts, c);
    CitedHas(conflicts, ids, conflicts[c].id, conflicts[c]);
    var visited := Cited(conflicts, ids);
    var a :| 0 <= a < |visited| && visited[a] == conflicts[c];
    assert forall x :: !Usable(later, x, visited[a]);
  }

  lemma {:induction false} CarriedHas(sources: seq<Source>, s: nat)
    requires s < |sources| && Carries(sources[s])
    ensures sources[s].plan.resolvedBy in CarriedIds(sources)
    decreases |sources|
  {
    var n := |sources| - 1;
    if s < n { CarriedHas(sources[..n], s); }
  }

  lemma {:induction false} NamedHas(conflicts: seq<Recorded>, c: nat)
    requires c < |conflicts|
    ensures conflicts[c] in Named(conflicts, conflicts[c].id)
    decreases |conflicts|
  {
    var n := |conflicts| - 1;
    if c < n { NamedHas(conflicts[..n], c); }
  }

  lemma {:induction false} CitedHas(conflicts: seq<Recorded>, ids: seq<Id>, id: Id, x: Recorded)
    requires id in ids && x in Named(conflicts, id)
    ensures x in Cited(conflicts, ids)
  {
    var n := |ids| - 1;
    if ids[n] != id { CitedHas(conflicts, ids[..n], id, x); }
  }
}
