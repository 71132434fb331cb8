/**
  Grouping of an activation's members by physical GitOps target: the freezing pass, the
  validator that re-checks it, and why an accepted grouping is a partition.
 */
module ActivationGroups {
  import opened Ids

  const MAX_MEMBERS := 16

  /** `key` is the physical target: authority, repository and ref. */
  datatype Component = Component(child: Id, key: Id, connection: Id)

  /** A group is identified by the fingerprint of its key, which is the key itself. */
  datatype Group = Group(key: Id, connection: Id, members: seq<Id>, leader: Id)

  // ----- sorting -----

  predicate Sorted(s: seq<Id>) {
    forall i, j :: 0 <= i < j < |s| ==> s[i] <= s[j]
  }

  function Insert(s: seq<Id>, x: Id): (r: seq<Id>)
    requires Sorted(s)
    ensures Sorted(r) && |r| == |s| + 1
    ensures forall k :: 0 <= k < |r| ==> r[k] == x || r[k] in s
    ensures multiset(r) == multiset(s) + multiset{x}
  {
    if |s| == 0 then [x]
    else if s[|s| - 1] <= x then s + [x]
    else
      var n := |s| - 1;
      var rest := Insert(s[..n], x);
      assert s == s[..n] + [s[n]];
      rest + [s[n]]
  }

  function Sort(s: seq<Id>): (r: seq<Id>)
    ensures Sorted(r) && multiset(r) == multiset(s) && |r| == |s|
  {
    if |s| == 0 then []
    else
      var n := |s| - 1;
      assert s == s[..n] + [s[n]];
      var r := Insert(Sort(s[..n]), s[n]);
      assert |multiset(r)| == |r| && |multiset(s)| == |s|;
      r
  }

  lemma SameMembers(a: seq<Id>, b: seq<Id>)
    requires multiset(a) == multiset(b)
    ensures forall x :: x in a <==> x in b
    ensures Distinct(a) ==> Distinct(b)
  {
    assert forall x :: x in a <==> x in multiset(a);
    assert forall x :: x in b <==> x in multiset(b);
    if Distinct(a) {
      DistinctCounts(a);
      CountsDistinct(b);
    }
  }

  predicate Distinct(s: seq<Id>) {
    forall i, j :: 0 <= i < j < |s| ==> s[i] != s[j]
  }

  lemma {:induction false} DistinctCounts(s: seq<Id>)
    requires Distinct(s)
    ensures forall x :: multiset(s)[x] <= 1
  {
    if |s| > 0 {
      assert s == [s[0]] + s[1..];
      DistinctCounts(s[1..]);
      assert s[0] !in s[1..];
    }
  }

  lemma CountsDistinct(s: seq<Id>)
    requires forall x :: multiset(s)[x] <= 1
    ensures Distinct(s)
  {
    forall i, j | 0 <= i < j < |s| ensures s[i] != s[j] {
      var rest := s[i + 1..];
      assert s == s[..i] + [s[i]] + rest;
      assert multiset(s)[s[i]] >= 1 + multiset(rest)[s[i]];
      assert rest[j - i - 1] == s[j] && s[j] in multiset(rest);
    }
  }

  // ----- what a grouping means -----

  predicate Covers(g: Group, c: Component) {
    g.key == c.key && g.connection == c.connection
  }

  predicate Covered(groups: seq<Group>, c: Component) {
    exists g :: 0 <= g < |groups| && Covers(groups[g], c)
  }

  predicate IsChild(c: Component, key: Id, child: Id) {
    c.key == key && c.child == child
  }

  /** The children with one key, in component order. */
  function ChildrenOf(components: seq<Component>, key: Id): (r: seq<Id>)
    ensures forall x :: x in r <==> exists i :: 0 <= i < |components| && IsChild(components[i], key, x)
  {
    if |components| == 0 then []
    else
      var n := |components| - 1;
      var rest := ChildrenOf(components[..n], key);
      if components[n].key == key then rest + [components[n].child] else rest
  }

  predicate SameConnections(components: seq<Component>) {
    forall i, j :: 0 <= i < j < |components| && components[i].key == components[j].key ==>
      components[i].connection == components[j].connection
  }

  function Children(components: seq<Component>): seq<Id> {
    seq(|components|, i requires 0 <= i < |components| => components[i].child)
  }

  /** One group per key, with exactly the children of that key and the connection they share. */
  predicate Groups(components: seq<Component>, groups: seq<Group>) {
    && (forall g, h :: 0 <= g < h < |groups| ==> groups[g].key != groups[h].key)
    && (forall i :: 0 <= i < |components| ==>
          Covered(groups, components[i]))
    && (forall g :: 0 <= g < |groups| ==> groups[g].members == ChildrenOf(components, groups[g].key) && groups[g].members != [])
  }

  function Finish(g: Group): Group
    requires g.members != []
  {
    g.(members := Sort(g.members), leader := Sort(g.members)[0])
  }

  /** What freezing produces: groups in order of first appearance, members sorted, least member leading. */
  predicate Frozen(components: seq<Component>, groups: seq<Group>) {
    && (forall g, h :: 0 <= g < h < |groups| ==> groups[g].key != groups[h].key)
    && (forall i :: 0 <= i < |components| ==>
          Covered(groups, components[i]))
    && (forall g :: 0 <= g < |groups| ==>
          && groups[g].members != [] && Sorted(groups[g].members) && groups[g].leader == groups[g].members[0]
          && multiset(groups[g].members) == multiset(ChildrenOf(components, groups[g].key)))
  }

  lemma ChildrenExtend(components: seq<Component>, n: nat, key: Id)
    requires n < |components|
    ensures ChildrenOf(components[..n + 1], key)
         == ChildrenOf(components[..n], key) + (if components[n].key == key then [components[n].child] else [])
  {
    assert components[..n + 1][..n] == components[..n];
  }

  /** The step of the freezing pass for component `n`, which joins group `g` or opens a new one. */
  lemma GroupsExtend(components: seq<Component>, n: nat, groups: seq<Group>, groups': seq<Group>, g: nat)
    requires n < |components| && Groups(components[..n], groups) && g <= |groups|
    requires forall h :: 0 <= h < |groups| && h != g ==> groups[h].key != components[n].key
    requires g < |groups| ==> groups[g].key == components[n].key && groups[g].connection == components[n].connection
    requires g < |groups| ==> groups' == groups[g := groups[g].(members := groups[g].members + [components[n].child])]
    requires g == |groups| ==>
               groups' == groups + [Group(components[n].key, components[n].connection, [components[n].child], NO_ID)]
    ensures Groups(components[..n + 1], groups')
  {
    var before, after := components[..n], components[..n + 1];
    forall h | 0 <= h < |groups'|
      ensures groups'[h].members == ChildrenOf(after, groups'[h].key) && groups'[h].members != []
    {
      ChildrenExtend(components, n, groups'[h].key);
      if h == |groups| {
        forall i | 0 <= i < n ensures before[i].key != components[n].key {
          assert Covered(groups, before[i]);
          var k :| 0 <= k < |groups| && Covers(groups[k], before[i]);
        }
        NoChildren(before, components[n].key);
      }
    }
    forall i | 0 <= i < |after|
      ensures Covered(groups', after[i])
    {
      if i < n {
        assert after[i] == before[i];
        assert Covered(groups, before[i]);
        var h :| 0 <= h < |groups| && Covers(groups[h], before[i]);
        assert Covers(groups'[h], after[i]);
      } else {
        assert Covers(groups'[g], after[i]);
      }
    }
  }

  lemma {:induction false} NoChildren(components: seq<Component>, key: Id)
    requires forall i :: 0 <= i < |components| ==> components[i].key != key
    ensures ChildrenOf(components, key) == []
  {
    if |components| > 0 {
      NoChildren(components[..|components| - 1], key);
    }
  }

  /** The map from key to group, as the pass keeps it. */
  predicate Indexes(keys: map<Id, nat>, groups: seq<Group>) {
    && (forall k :: k in keys ==> keys[k] < |groups| && groups[keys[k]].key == k)
    && (forall g :: 0 <= g < |groups| ==> groups[g].key in keys && keys[groups[g].key] == g)
  }

  /** One component joins the group of its key, or opens one; aliases must agree on the connection. */
  method Join(ghost components: seq<Component>, ghost i: nat, c: Component, keys: map<Id, nat>, groups: seq<Group>)
    returns (keys': map<Id, nat>, joined: Option<seq<Group>>)
    requires i < |components| && c == components[i]
    requires Groups(components[..i], groups) && Indexes(keys, groups)
    ensures joined.Some? ==> Groups(components[..i + 1], joined.value) && Indexes(keys', joined.value)
    ensures joined.None? ==> !SameConnections(components)
  {
    hide Groups, SameConnections, ChildrenOf;
    keys' := keys;
    if c.key in keys {
      var n := keys[c.key];
      if groups[n].connection != c.connection {
        Disagrees(components, i, groups, n);
        return keys', None;
      }
      var next := groups[n := groups[n].(members := groups[n].members + [c.child])];
      GroupsExtend(components, i, groups, next, n);
      return keys', Some(next);
    }
    var next := groups + [Group(c.key, c.connection, [c.child], NO_ID)];
    keys' := keys[c.key := |groups|];
    GroupsExtend(components, i, groups, next, |groups|);
    return keys', Some(next);
  }

  /** Groups components by key in one pass with a map from key to group, then sorts and elects. */
  method FreezeActivationGroups(components: seq<Component>) returns (groups: Option<seq<Group>>)
    ensures groups.Some? <==> 0 < |components| <= MAX_MEMBERS && SameConnections(components)
    ensures groups.Some? ==> Frozen(components, groups.value)
  {
    if |components| == 0 || |components| > MAX_MEMBERS { return None; }
    var keys: map<Id, nat> := map[];
    var open: seq<Group> := [];
    var i := 0;
    while i < |components|
      invariant i <= |components|
      invariant Groups(components[..i], open) && Indexes(keys, open)
    {
      hide Groups, SameConnections;
      var next;
      keys, next := Join(components, i, components[i], keys, open);
      if next.None? { return None; }
      open := next.value;
      i := i + 1;
    }
    assert components[..i] == components;
    GroupsAgree(components, open);
    var done := SortGroups(components, open);
    return Some(done);
  }

  method SortGroups(ghost components: seq<Component>, open: seq<Group>) returns (done: seq<Group>)
    requires Groups(components, open)
    ensures Frozen(components, done)
  {
    done := [];
    var i := 0;
    while i < |open|
      invariant i <= |open| && |done| == i
      invariant forall g :: 0 <= g < i ==> done[g] == Finish(open[g])
    {
      hide Groups, Frozen, Sort;
      done := done + [Finish(open[i])];
      i := i + 1;
    }
    FinishedFrozen(components, open, done);
  }

  lemma Disagrees(components: seq<Component>, i: nat, groups: seq<Group>, n: nat)
    requires i < |components| && Groups(components[..i], groups) && n < |groups|
    requires groups[n].key == components[i].key && groups[n].connection != components[i].connection
    ensures !SameConnections(components)
  {
    var x := groups[n].members[0];
    assert x in ChildrenOf(components[..i], groups[n].key);
    var k :| 0 <= k < i && IsChild(components[..i][k], groups[n].key, x);
    assert Covered(groups, components[..i][k]);
    var g :| 0 <= g < |groups| && Covers(groups[g], components[..i][k]);
    assert g == n && components[k].connection != components[i].connection;
  }

  lemma GroupsAgree(components: seq<Component>, groups: seq<Group>)
    requires Groups(components, groups)
    ensures SameConnections(components)
  {
    forall i, j | 0 <= i < j < |components| && components[i].key == components[j].key
      ensures components[i].connection == components[j].connection
    {
      assert Covered(groups, components[i]);
      var g :| 0 <= g < |groups| && Covers(groups[g], components[i]);
      assert Covered(groups, components[j]);
      var h :| 0 <= h < |groups| && Covers(groups[h], components[j]);
      assert g == h;
    }
  }

  lemma FinishedFrozen(components: seq<Component>, open: seq<Group>, done: seq<Group>)
    requires Groups(components, open) && |done| == |open|
    requires forall g :: 0 <= g < |open| ==> done[g] == Finish(open[g])
    ensures Frozen(components, done)
  {
    hide Sort, ChildrenOf;
    forall i | 0 <= i < |components| ensures Covered(done, components[i]) {
      assert Covered(open, components[i]);
      var g :| 0 <= g < |open| && Covers(open[g], components[i]);
      assert Covers(done[g], components[i]);
    }
    forall g | 0 <= g < |done|
      ensures done[g].members != [] && Sorted(done[g].members) && done[g].leader == done[g].members[0]
      ensures multiset(done[g].members) == multiset(ChildrenOf(components, done[g].key))
    {
      assert done[g] == Finish(open[g]) && open[g].members != [];
    }
    assert forall g, h :: 0 <= g < h < |done| ==> done[g].key == open[g].key && done[h].key == open[h].key;
  }

  // ----- the validator -----

  /** The first component of a child, as the look-up finds it. */
  predicate IsComponentOf(components: seq<Component>, child: Id, i: int) {
    0 <= i < |components| && components[i].child == child && forall j :: 0 <= j < i ==> components[j].child != child
  }

  ghost predicate MemberOk(components: seq<Component>, g: Group, child: Id) {
    exists i :: IsComponentOf(components, child, i) && components[i].key == g.key && components[i].connection == g.connection
  }

  ghost predicate GroupOk(components: seq<Component>, g: Group) {
    && g.members != [] && Sorted(g.members) && g.leader == g.members[0]
    && forall k :: 0 <= k < |g.members| ==> MemberOk(components, g, g.members[k])
  }

  /** All members of the first `n` groups, in order. */
  function Members(groups: seq<Group>): seq<Id> {
    if |groups| == 0 then []
    else Members(groups[..|groups| - 1]) + groups[|groups| - 1].members
  }

  function SetOf(s: seq<Id>): set<Id> {
    set x | x in s
  }

  /** What the loops of the validator check, down to the final comparison of two counts. */
  ghost predicate Validates(components: seq<Component>, groups: seq<Group>) {
    && 0 < |groups| <= MAX_MEMBERS && |components| <= MAX_MEMBERS
    && (forall g, h :: 0 <= g < h < |groups| ==> groups[g].key != groups[h].key)
    && (forall g :: 0 <= g < |groups| ==> GroupOk(components, groups[g]))
    && Distinct(Members(groups))
    && |SetOf(Members(groups))| == |components|
  }

  method ActivationComponent(components: seq<Component>, child: Id) returns (found: Option<nat>)
    ensures found.Some? ==> IsComponentOf(components, child, found.value)
    ensures found.None? ==> forall i :: 0 <= i < |components| ==> components[i].child != child
  {
    var i := 0;
    while i < |components|
      invariant i <= |components|
      invariant forall j :: 0 <= j < i ==> components[j].child != child
    {
      if components[i].child == child { return Some(i); }
      i := i + 1;
    }
    return None;
  }

  /** One group's members: each unseen, known, and of this group's target. */
  method ValidateMembers(components: seq<Component>, g: Group, ghost done: seq<Id>, seen: set<Id>)
    returns (ok: bool, seen': set<Id>)
    requires seen == SetOf(done) && Distinct(done)
    ensures ok ==> seen' == SetOf(done + g.members) && Distinct(done + g.members)
    ensures ok <==> Distinct(done + g.members) && forall k :: 0 <= k < |g.members| ==> MemberOk(components, g, g.members[k])
  {
    seen' := seen;
    var m := 0;
    assert done + g.members[..0] == done;
    while m < |g.members|
      invariant m <= |g.members|
      invariant forall k :: 0 <= k < m ==> MemberOk(components, g, g.members[k])
      invariant Distinct(done + g.members[..m])
      invariant seen' == SetOf(done + g.members[..m])
    {
      var child := g.members[m];
      if child in seen' {
        Repeats(done, g.members, m);
        return false, seen';
      }
      var c := ActivationComponent(components, child);
      if c.None? || components[c.value].key != g.key || components[c.value].connection != g.connection {
        assert !MemberOk(components, g, child);
        return false, seen';
      }
      assert done + g.members[..m + 1] == (done + g.members[..m]) + [child];
      seen' := seen' + {child};
      m := m + 1;
    }
    assert g.members[..m] == g.members;
    return true, seen';
  }

  /** One group: ordered, led by its least member, and all of its members of its own target. */
  method ValidateGroup(components: seq<Component>, g: Group, ghost done: seq<Id>, seen: set<Id>)
    returns (ok: bool, seen': set<Id>)
    requires seen == SetOf(done) && Distinct(done)
    ensures ok ==> seen' == SetOf(done + g.members)
    ensures ok <==> GroupOk(components, g) && Distinct(done + g.members)
  {
    hide MemberOk, Distinct, SetOf, Sorted;
    seen' := seen;
    if |g.members| == 0 { return false, seen'; }
    var sorted := IsSorted(g.members);
    if !sorted || g.leader != g.members[0] { return false, seen'; }
    ok, seen' := ValidateMembers(components, g, done, seen);
  }

  predicate DistinctKeys(groups: seq<Group>) {
    forall g, h :: 0 <= g < h < |groups| ==> groups[g].key != groups[h].key
  }

  function KeysOf(groups: seq<Group>): set<Id> {
    set g | g in groups :: g.key
  }

  lemma KeysNext(groups: seq<Group>, i: nat)
    requires i < |groups| && DistinctKeys(groups[..i])
    ensures KeysOf(groups[..i + 1]) == KeysOf(groups[..i]) + {groups[i].key}
    ensures DistinctKeys(groups[..i + 1]) <==> groups[i].key !in KeysOf(groups[..i])
    ensures DistinctKeys(groups) ==> DistinctKeys(groups[..i + 1])
  {
    var before, after := groups[..i], groups[..i + 1];
    assert after == before + [groups[i]];
    if groups[i].key in KeysOf(before) {
      var g :| g in before && g.key == groups[i].key;
      var k :| 0 <= k < i && before[k] == g;
      assert after[k].key == after[i].key;
    }
    forall k | 0 <= k < i ensures after[k].key in KeysOf(before) { assert before[k] in before; }
    assert forall k :: 0 <= k < i ==> after[k] == before[k];
  }

  ghost predicate AllGroupsOk(components: seq<Component>, groups: seq<Group>) {
    forall g :: 0 <= g < |groups| ==> GroupOk(components, groups[g])
  }

  lemma GroupsOkNext(components: seq<Component>, groups: seq<Group>, i: nat)
    requires i < |groups| && AllGroupsOk(components, groups[..i])
    ensures AllGroupsOk(components, groups[..i + 1]) <==> GroupOk(components, groups[i])
    ensures AllGroupsOk(components, groups) ==> GroupOk(components, groups[i])
  {
    hide GroupOk;
    var before, after := groups[..i], groups[..i + 1];
    assert forall k :: 0 <= k < i ==> after[k] == before[k];
    assert after[i] == groups[i];
  }

  lemma ValidatesNamed(components: seq<Component>, groups: seq<Group>)
    ensures Validates(components, groups) <==>
            && 0 < |groups| <= MAX_MEMBERS && |components| <= MAX_MEMBERS && DistinctKeys(groups)
            && AllGroupsOk(components, groups) && Distinct(Members(groups)) && |SetOf(Members(groups))| == |components|
  {
    hide GroupOk, Distinct, SetOf, Members;
  }

  method ValidateActivationGroups(components: seq<Component>, groups: seq<Group>) returns (ok: bool)
    ensures ok == Validates(components, groups)
  {
    ValidatesNamed(components, groups);
    if |groups| == 0 || |groups| > MAX_MEMBERS || |components| > MAX_MEMBERS { return false; }
    var seen: set<Id>, physical: set<Id> := {}, {};
    var i := 0;
    while i < |groups|
      invariant i <= |groups|
      invariant DistinctKeys(groups[..i]) && physical == KeysOf(groups[..i])
      invariant AllGroupsOk(components, groups[..i])
      invariant Distinct(Members(groups[..i])) && seen == SetOf(Members(groups[..i]))
    {
      hide GroupOk, Distinct, SetOf, DistinctKeys, KeysOf, AllGroupsOk, Validates;
      var g := groups[i];
      assert groups[..i + 1][..i] == groups[..i];
      KeysNext(groups, i);
      GroupsOkNext(components, groups, i);
      PrefixDistinct(groups, i + 1);
      if g.key in physical { return false; }
      var valid, seen' := ValidateGroup(components, g, Members(groups[..i]), seen);
      if !valid { return false; }
      physical, seen := physical + {g.key}, seen';
      i := i + 1;
    }
    assert groups[..i] == groups;
    return |seen| == |components|;
  }

  lemma Repeats(done: seq<Id>, members: seq<Id>, m: nat)
    requires m < |members| && members[m] in done + members[..m]
    ensures !Distinct(done + members)
  {
    var all, part := done + members, done + members[..m];
    var k :| 0 <= k < |part| && part[k] == members[m];
    assert all[k] == part[k] && all[|done| + m] == members[m];
  }

  lemma {:induction false} PrefixDistinct(groups: seq<Group>, n: nat)
    requires n <= |groups|
    ensures Distinct(Members(groups)) ==> Distinct(Members(groups[..n]))
    decreases |groups| - n
  {
    if n < |groups| {
      PrefixDistinct(groups, n + 1);
      assert groups[..n + 1][..n] == groups[..n];
      var a, b := Members(groups[..n]), Members(groups[..n + 1]);
      assert forall k :: 0 <= k < |a| ==> b[k] == a[k];
    } else {
      assert groups[..n] == groups;
    }
  }

  method IsSorted(s: seq<Id>) returns (r: bool)
    ensures r == Sorted(s)
  {
    var i := 1;
    while i < |s|
      invariant |s| == 0 || i <= |s|
      invariant Sorted(s[..if i <= |s| then i else |s|])
    {
      if s[i] < s[i - 1] { return false; }
      i := i + 1;
    }
    assert s[..if i <= |s| then i else |s|] == s;
    return true;
  }

  // ----- an accepted grouping is a partition -----

  lemma {:induction false} MembersOfGroups(groups: seq<Group>)
    ensures forall x :: x in Members(groups) <==> exists g :: 0 <= g < |groups| && x in groups[g].members
  {
    if |groups| > 0 {
      var n := |groups| - 1;
      MembersOfGroups(groups[..n]);
      forall x
        ensures x in Members(groups) <==> exists g :: 0 <= g < |groups| && x in groups[g].members
      {
        if x in Members(groups[..n]) {
          var g :| 0 <= g < n && x in groups[..n][g].members;
          assert x in groups[g].members;
        }
        if exists g :: 0 <= g < |groups| && x in groups[g].members {
          var g :| 0 <= g < |groups| && x in groups[g].members;
          if g < n { assert groups[..n][g] == groups[g]; }
        }
      }
    }
  }

  lemma {:induction false} SetOfCounts(s: seq<Id>)
    ensures |SetOf(s)| <= |s|
    ensures |SetOf(s)| == |s| ==> Distinct(s)
    ensures Distinct(s) ==> |SetOf(s)| == |s|
  {
    if |s| > 0 {
      var n := |s| - 1;
      SetOfCounts(s[..n]);
      assert s == s[..n] + [s[n]];
      if s[n] in s[..n] {
        assert SetOf(s) == SetOf(s[..n]);
        var k :| 0 <= k < n && s[..n][k] == s[n];
        assert s[k] == s[n];
      } else {
        assert SetOf(s) == SetOf(s[..n]) + {s[n]};
        if Distinct(s[..n]) {
          forall i, j | 0 <= i < j < |s| ensures s[i] != s[j] {
            assert i < n && s[..n][i] == s[i];
            if j < n { assert s[..n][j] == s[j]; }
          }
        }
      }
    }
  }

  lemma SubsetCounts(a: set<Id>, b: set<Id>)
    requires a <= b && |a| >= |b|
    ensures a == b
  {
    if a != b {
      assert a < b;
      var x :| x in b && x !in a;
      assert a + {x} <= b;
      SmallerSubset(a + {x}, b);
    }
  }

  lemma SmallerSubset(a: set<Id>, b: set<Id>)
    requires a <= b
    ensures |a| <= |b|
  {
    assert b == a + (b - a);
  }

  /**
    Two equal counts force a partition: every component is in exactly one group, the one of
    its own target, and no child is listed twice.
   */
  lemma ValidatedIsPartition(components: seq<Component>, groups: seq<Group>, i: nat)
    requires Validates(components, groups) && i < |components|
    ensures Distinct(Children(components))
    ensures exists g :: 0 <= g < |groups| && components[i].child in groups[g].members
                        && Covers(groups[g], components[i])
    ensures forall g, h :: 0 <= g < h < |groups| ==> !(components[i].child in groups[g].members && components[i].child in groups[h].members)
  {
    var children := Children(components);
    MembersOfGroups(groups);
    forall x | x in SetOf(Members(groups)) ensures x in SetOf(children) {
      var g :| 0 <= g < |groups| && x in groups[g].members;
      var k :| 0 <= k < |groups[g].members| && groups[g].members[k] == x;
      assert MemberOk(components, groups[g], groups[g].members[k]);
      var j :| IsComponentOf(components, x, j);
      assert children[j] == x;
    }
    SetOfCounts(children);
    SubsetCounts(SetOf(Members(groups)), SetOf(children));
    assert children[i] in SetOf(children);
    var g :| 0 <= g < |groups| && components[i].child in groups[g].members;
    var k :| 0 <= k < |groups[g].members| && groups[g].members[k] == components[i].child;
    assert MemberOk(components, groups[g], groups[g].members[k]);
    var j :| IsComponentOf(components, components[i].child, j)
             && components[j].key == groups[g].key && components[j].connection == groups[g].connection;
    assert children[j] == children[i] && j == i;
    forall a, b | 0 <= a < b < |groups|
      ensures !(components[i].child in groups[a].members && components[i].child in groups[b].members)
    {
      if components[i].child in groups[a].members && components[i].child in groups[b].members {
        KeyOfMember(components, groups[a], components[i].child);
        KeyOfMember(components, groups[b], components[i].child);
      }
    }
  }

  lemma KeyOfMember(components: seq<Component>, g: Group, child: Id)
    requires GroupOk(components, g) && child in g.members
    ensures exists i :: IsComponentOf(components, child, i) && components[i].key == g.key
  {
    var k :| 0 <= k < |g.members| && g.members[k] == child;
    assert MemberOk(components, g, g.members[k]);
  }

  // ----- freezing produces what the validator accepts -----

  lemma {:induction false} ChildrenOfDistinct(components: seq<Component>, key: Id)
    requires Distinct(Children(components))
    ensures Distinct(ChildrenOf(components, key))
  {
    if |components| > 0 {
      var n := |components| - 1;
      var all := Children(components);
      assert Children(components[..n]) == all[..n];
      ChildrenOfDistinct(components[..n], key);
      var rest := ChildrenOf(components[..n], key);
      if components[n].key == key {
        forall k | 0 <= k < |rest| ensures rest[k] != components[n].child {
          assert rest[k] in rest;
          var i :| 0 <= i < n && IsChild(components[..n][i], key, rest[k]);
          assert all[i] == rest[k] && all[n] == components[n].child;
        }
      }
    }
  }

  lemma UniqueComponent(components: seq<Component>, i: nat)
    requires Distinct(Children(components)) && i < |components|
    ensures IsComponentOf(components, components[i].child, i)
  {
    var all := Children(components);
    forall j | 0 <= j < i ensures components[j].child != components[i].child {
      assert all[j] != all[i];
    }
  }

  lemma FrozenGroupOk(components: seq<Component>, groups: seq<Group>, g: nat)
    requires Frozen(components, groups) && Distinct(Children(components)) && g < |groups|
    ensures GroupOk(components, groups[g]) && Distinct(groups[g].members)
    ensures forall x :: x in groups[g].members ==>
              exists i :: 0 <= i < |components| && IsChild(components[i], groups[g].key, x)
  {
    var group := groups[g];
    SameMembers(ChildrenOf(components, group.key), group.members);
    ChildrenOfDistinct(components, group.key);
    forall k | 0 <= k < |group.members| ensures MemberOk(components, group, group.members[k]) {
      assert group.members[k] in ChildrenOf(components, group.key);
      var i :| 0 <= i < |components| && IsChild(components[i], group.key, group.members[k]);
      UniqueComponent(components, i);
      assert Covered(groups, components[i]);
      var h :| 0 <= h < |groups| && Covers(groups[h], components[i]);
      assert h == g;
    }
  }

  lemma ConcatDistinct(a: seq<Id>, b: seq<Id>)
    requires Distinct(a) && Distinct(b) && forall x :: x in a ==> x !in b
    ensures Distinct(a + b)
  {
    assert forall k :: 0 <= k < |a| ==> a[k] in a;
  }

  lemma FrozenApart(components: seq<Component>, groups: seq<Group>, n: nat)
    requires Frozen(components, groups) && Distinct(Children(components)) && n < |groups|
    ensures forall x :: x in Members(groups[..n]) ==> x !in groups[n].members
  {
    MembersOfGroups(groups[..n]);
    hide Members, Children, Sorted;
    forall x | x in Members(groups[..n]) ensures x !in groups[n].members {
      var h :| 0 <= h < n && x in groups[..n][h].members;
      if x in groups[n].members {
        SharedKey(components, groups, h, n, x);
      }
    }
  }

  /** The first `n` frozen groups list distinct children. */
  lemma {:induction false} FrozenDistinct(components: seq<Component>, groups: seq<Group>, n: nat)
    requires Frozen(components, groups) && Distinct(Children(components)) && n <= |groups|
    ensures Distinct(Members(groups[..n]))
  {
    if n > 0 {
      FrozenDistinct(components, groups, n - 1);
      assert groups[..n][..n - 1] == groups[..n - 1];
      FrozenGroupOk(components, groups, n - 1);
      var done, last := Members(groups[..n - 1]), groups[n - 1].members;
      assert Members(groups[..n]) == done + last;
      FrozenApart(components, groups, n - 1);
      hide Frozen, Members, Children, GroupOk;
      ConcatDistinct(done, last);
    }
  }

  lemma SharedKey(components: seq<Component>, groups: seq<Group>, a: nat, b: nat, x: Id)
    requires Frozen(components, groups) && Distinct(Children(components)) && a < |groups| && b < |groups|
    requires x in groups[a].members && x in groups[b].members
    ensures groups[a].key == groups[b].key
  {
    FrozenGroupOk(components, groups, a);
    FrozenGroupOk(components, groups, b);
    var i :| 0 <= i < |components| && IsChild(components[i], groups[a].key, x);
    var j :| 0 <= j < |components| && IsChild(components[j], groups[b].key, x);
    assert Children(components)[i] == Children(components)[j];
  }

  lemma {:induction false} GroupCount(components: seq<Component>, groups: seq<Group>)
    requires Distinct(Members(groups)) && forall g :: 0 <= g < |groups| ==> groups[g].members != []
    ensures |groups| <= |Members(groups)|
  {
    if |groups| > 0 {
      var n := |groups| - 1;
      PrefixDistinct(groups, n);
      GroupCount(components, groups[..n]);
    }
  }

  /** A frozen grouping passes the validator exactly when no child is selected twice. */
  lemma FrozenValidatesIff(components: seq<Component>, groups: seq<Group>)
    requires Frozen(components, groups) && 0 < |components| <= MAX_MEMBERS
    ensures Validates(components, groups) <==> Distinct(Children(components))
  {
    if Distinct(Children(components)) {
      FrozenValidates(components, groups);
    } else if Validates(components, groups) {
      ValidatedIsPartition(components, groups, 0);
    }
  }

  lemma FrozenValidates(components: seq<Component>, groups: seq<Group>)
    requires Frozen(components, groups) && 0 < |components| <= MAX_MEMBERS && Distinct(Children(components))
    ensures Validates(components, groups)
  {
    FrozenDistinct(components, groups, |groups|);
    assert groups[..|groups|] == groups;
    FrozenCounts(components, groups);
    FrozenGroupsOk(components, groups);
    ValidatesNamed(components, groups);
    hide *;
  }

  lemma FrozenGroupsOk(components: seq<Component>, groups: seq<Group>)
    requires Frozen(components, groups) && Distinct(Children(components))
    ensures AllGroupsOk(components, groups) && DistinctKeys(groups)
  {
    hide Distinct, Children, ChildrenOf, Covered, GroupOk;
    forall g | 0 <= g < |groups| ensures GroupOk(components, groups[g]) {
      FrozenGroupOk(components, groups, g);
    }
  }

  lemma FrozenCounts(components: seq<Component>, groups: seq<Group>)
    requires Frozen(components, groups) && 0 < |components| && Distinct(Children(components)) && Distinct(Members(groups))
    ensures 0 < |groups| <= |components| == |SetOf(Members(groups))|
  {
    assert Covered(groups, components[0]);
    FrozenCovers(components, groups);
    SetOfCounts(Children(components));
    SetOfCounts(Members(groups));
    assert forall g :: 0 <= g < |groups| ==> groups[g].members != [];
    hide Frozen, SetOf, Distinct, Members, ChildrenOf;
    GroupCount(components, groups);
  }

  lemma FrozenCovers(components: seq<Component>, groups: seq<Group>)
    requires Frozen(components, groups) && Distinct(Children(components))
    ensures SetOf(Members(groups)) == SetOf(Children(components))
  {
    MembersOfGroups(groups);
    hide Members;
    forall x ensures x in SetOf(Members(groups)) <==> x in SetOf(Children(components)) {
      if x in SetOf(Children(components)) {
        var i :| 0 <= i < |components| && Children(components)[i] == x;
        ChildIsMember(components, groups, i);
      }
      if x in SetOf(Members(groups)) {
        var g :| 0 <= g < |groups| && x in groups[g].members;
        MemberIsChild(components, groups, g, x);
      }
    }
  }

  lemma ChildIsMember(components: seq<Component>, groups: seq<Group>, i: nat)
    requires Frozen(components, groups) && i < |components|
    ensures exists g :: 0 <= g < |groups| && components[i].child in groups[g].members
  {
    assert Covered(groups, components[i]);
    var g :| 0 <= g < |groups| && Covers(groups[g], components[i]);
    assert IsChild(components[i], groups[g].key, components[i].child);
    SameMembers(ChildrenOf(components, groups[g].key), groups[g].members);
    assert components[i].child in ChildrenOf(components, groups[g].key);
  }

  lemma MemberIsChild(components: seq<Component>, groups: seq<Group>, g: nat, x: Id)
    requires Frozen(components, groups) && g < |groups| && x in groups[g].members
    ensures x in SetOf(Children(components))
  {
    SameMembers(ChildrenOf(components, groups[g].key), groups[g].members);
    var i :| 0 <= i < |components| && IsChild(components[i], groups[g].key, x);
    assert Children(components)[i] == x;
  }
}
