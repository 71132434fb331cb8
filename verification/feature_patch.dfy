/**
  Patching an environment's selection with the revisions of one feature: each integration
  and repository pair is replaced where it stands or appended, and nothing else moves.
 */
module FeaturePatch {
  import opened Ids

  datatype Revision = Revision(integration: Id, repository: Id)

  type Revisions = map<Id, Revision>

  /** A branch named by a caller, or the one generated for an update and a repository. */
  datatype Branch = Named(name: Id) | Generated(operation: Id, repository: Id)

  datatype Component = Component(application: Id, repository: Id, baseRef: Id, baseCommit: Id, target: Branch, revisions: seq<Id>)

  // ----- lists of revisions -----

  predicate Known(revs: Revisions, list: seq<Id>) {
    forall k :: 0 <= k < |list| ==> list[k] in revs
  }

  /** No two revisions of the list are of the same integration and repository. */
  predicate DistinctPairs(revs: Revisions, list: seq<Id>)
    requires Known(revs, list)
  {
    forall j, k :: 0 <= j < k < |list| ==> revs[list[j]] != revs[list[k]]
  }

  /** The requested revision of a pair, if there is one. */
  function Replacement(revs: Revisions, request: seq<Id>, pair: Revision): (r: Option<Id>)
    requires Known(revs, request)
    ensures r.Some? ==> r.value in request && r.value in revs && revs[r.value] == pair
    ensures r.None? ==> forall k :: 0 <= k < |request| ==> revs[request[k]] != pair
  {
    if |request| == 0 then None
    else
      var n := |request| - 1;
      if revs[request[n]] == pair then Some(request[n]) else Replacement(revs, request[..n], pair)
  }

  function Replace(revs: Revisions, request: seq<Id>, r: Id): Id
    requires Known(revs, request) && r in revs
  {
    var replacement := Replacement(revs, request, revs[r]);
    if replacement.Some? then replacement.value else r
  }

  function Replaced(revs: Revisions, request: seq<Id>, prior: seq<Id>): seq<Id>
    requires Known(revs, request) && Known(revs, prior)
  {
    seq(|prior|, k requires 0 <= k < |prior| => Replace(revs, request, prior[k]))
  }

  predicate HasPair(revs: Revisions, list: seq<Id>, pair: Revision)
    requires Known(revs, list)
  {
    exists k :: 0 <= k < |list| && revs[list[k]] == pair
  }

  predicate IsNew(revs: Revisions, prior: seq<Id>, repository: Id, r: Id)
    requires Known(revs, prior) && r in revs
  {
    revs[r].repository == repository && !HasPair(revs, prior, revs[r])
  }

  /** The requested revisions of the repository whose pair is not there yet, in request order. */
  function Added(revs: Revisions, request: seq<Id>, prior: seq<Id>, repository: Id): (a: seq<Id>)
    requires Known(revs, request) && Known(revs, prior)
    ensures forall k :: 0 <= k < |a| ==> a[k] in request && a[k] in revs && IsNew(revs, prior, repository, a[k])
    ensures forall r :: r in request && IsNew(revs, prior, repository, r) ==> r in a
  {
    if |request| == 0 then []
    else
      var n := |request| - 1;
      var rest := Added(revs, request[..n], prior, repository);
      assert forall r :: r in request ==> r in request[..n] || r == request[n];
      if IsNew(revs, prior, repository, request[n]) then rest + [request[n]] else rest
  }

  function Patched(revs: Revisions, request: seq<Id>, prior: seq<Id>, repository: Id): seq<Id>
    requires Known(revs, request) && Known(revs, prior)
  {
    Replaced(revs, request, prior) + Added(revs, request, prior, repository)
  }

  // ----- compositions -----

  predicate SharedPlan(a: Component, b: Component) {
    a.baseRef == b.baseRef && a.baseCommit == b.baseCommit && a.target == b.target && a.revisions == b.revisions
  }

  predicate ListOk(revs: Revisions, c: Component) {
    && Known(revs, c.revisions) && DistinctPairs(revs, c.revisions)
    && forall k :: 0 <= k < |c.revisions| ==> revs[c.revisions[k]].repository == c.repository
  }

  /** What planning a composition demands of its components, seen as a whole. */
  predicate ValidPlan(revs: Revisions, components: seq<Component>) {
    && (forall i, j :: 0 <= i < j < |components| ==> components[i].application != components[j].application)
    && (forall i, j :: 0 <= i < j < |components| && components[i].repository == components[j].repository ==>
          SharedPlan(components[i], components[j]))
    && (forall i :: 0 <= i < |components| ==> ListOk(revs, components[i]))
  }

  predicate RequestOk(revs: Revisions, request: seq<Id>, components: seq<Component>) {
    && Known(revs, request) && DistinctPairs(revs, request)
    && forall k :: 0 <= k < |request| ==> InCohort(components, revs[request[k]].repository)
  }

  predicate InCohort(components: seq<Component>, repository: Id) {
    exists i :: 0 <= i < |components| && components[i].repository == repository
  }

  function PatchComponent(revs: Revisions, request: seq<Id>, c: Component, operation: Id): Component
    requires Known(revs, request) && Known(revs, c.revisions)
  {
    c.(revisions := Patched(revs, request, c.revisions, c.repository), target := Generated(operation, c.repository))
  }

  predicate AllKnown(revs: Revisions, components: seq<Component>) {
    forall i :: 0 <= i < |components| ==> Known(revs, components[i].revisions)
  }

  function Patch(revs: Revisions, request: seq<Id>, components: seq<Component>, operation: Id): seq<Component>
    requires Known(revs, request) && AllKnown(revs, components)
  {
    seq(|components|, i requires 0 <= i < |components| => PatchComponent(revs, request, components[i], operation))
  }

  predicate ChangesLists(revs: Revisions, request: seq<Id>, components: seq<Component>)
    requires Known(revs, request) && AllKnown(revs, components)
  {
    exists i :: 0 <= i < |components|
                && Patched(revs, request, components[i].revisions, components[i].repository) != components[i].revisions
  }

  // ----- what a patch does to one list -----

  lemma ReplaceKeepsPair(revs: Revisions, request: seq<Id>, r: Id)
    requires Known(revs, request) && r in revs
    ensures Replace(revs, request, r) in revs && revs[Replace(revs, request, r)] == revs[r]
  {
  }

  /** Pairs that are not requested keep their revision and their position. */
  lemma UntouchedStays(revs: Revisions, request: seq<Id>, prior: seq<Id>, repository: Id, k: nat)
    requires Known(revs, request) && Known(revs, prior) && k < |prior|
    requires !HasPair(revs, request, revs[prior[k]])
    ensures |Patched(revs, request, prior, repository)| >= |prior| && Patched(revs, request, prior, repository)[k] == prior[k]
  {
    NoReplacement(revs, request, revs[prior[k]]);
  }

  /** Requested pairs that were there are replaced where they stood. */
  lemma RequestedIsReplaced(revs: Revisions, request: seq<Id>, prior: seq<Id>, repository: Id, k: nat, j: nat)
    requires Known(revs, request) && Known(revs, prior) && DistinctPairs(revs, request)
    requires k < |prior| && j < |request| && revs[request[j]] == revs[prior[k]]
    ensures |Patched(revs, request, prior, repository)| >= |prior| && Patched(revs, request, prior, repository)[k] == request[j]
  {
    ReplacementIsUnique(revs, request, j);
  }

  lemma {:induction false} ReplacementIsUnique(revs: Revisions, request: seq<Id>, j: nat)
    requires Known(revs, request) && DistinctPairs(revs, request) && j < |request|
    ensures Replacement(revs, request, revs[request[j]]) == Some(request[j])
  {
    var n := |request| - 1;
    if j < n {
      assert revs[request[j]] != revs[request[n]];
      ReplacementIsUnique(revs, request[..n], j);
    }
  }

  lemma PatchedKnown(revs: Revisions, request: seq<Id>, prior: seq<Id>, repository: Id)
    requires Known(revs, request) && Known(revs, prior)
    requires forall k :: 0 <= k < |prior| ==> revs[prior[k]].repository == repository
    ensures Known(revs, Patched(revs, request, prior, repository))
    ensures forall r :: r in Patched(revs, request, prior, repository) ==> revs[r].repository == repository
  {
    forall r | r in Patched(revs, request, prior, repository) ensures r in revs && revs[r].repository == repository {
      if r in Replaced(revs, request, prior) {
        var k :| 0 <= k < |prior| && Replaced(revs, request, prior)[k] == r;
        ReplaceKeepsPair(revs, request, prior[k]);
      } else {
        assert r in Added(revs, request, prior, repository);
      }
    }
  }

  lemma {:induction false} AddedDistinct(revs: Revisions, request: seq<Id>, prior: seq<Id>, repository: Id)
    requires Known(revs, request) && Known(revs, prior) && DistinctPairs(revs, request)
    ensures Known(revs, Added(revs, request, prior, repository))
    ensures DistinctPairs(revs, Added(revs, request, prior, repository))
  {
    if |request| > 0 {
      var n := |request| - 1;
      AddedDistinct(revs, request[..n], prior, repository);
      var rest := Added(revs, request[..n], prior, repository);
      forall k | 0 <= k < |rest| ensures revs[rest[k]] != revs[request[n]] {
        assert rest[k] in request[..n];
        var j :| 0 <= j < n && request[..n][j] == rest[k];
        assert revs[request[j]] != revs[request[n]];
      }
    }
  }

  lemma PatchedDistinct(revs: Revisions, request: seq<Id>, prior: seq<Id>, repository: Id)
    requires Known(revs, request) && Known(revs, prior) && DistinctPairs(revs, request) && DistinctPairs(revs, prior)
    requires Known(revs, Patched(revs, request, prior, repository))
    ensures DistinctPairs(revs, Patched(revs, request, prior, repository))
  {
    var replaced, added := Replaced(revs, request, prior), Added(revs, request, prior, repository);
    AddedDistinct(revs, request, prior, repository);
    var all := Patched(revs, request, prior, repository);
    forall j, k | 0 <= j < k < |all| ensures revs[all[j]] != revs[all[k]] {
      if j < |prior| {
        ReplaceKeepsPair(revs, request, prior[j]);
        assert all[j] == replaced[j] && revs[all[j]] == revs[prior[j]];
        if k < |prior| {
          ReplaceKeepsPair(revs, request, prior[k]);
          assert all[k] == replaced[k] && revs[all[k]] == revs[prior[k]];
        } else {
          assert all[k] == added[k - |prior|] && !HasPair(revs, prior, revs[all[k]]);
        }
      } else {
        assert all[j] == added[j - |prior|] && all[k] == added[k - |prior|];
      }
    }
  }

  /** Every requested revision of the repository is in the patched list. */
  lemma RequestedIsSelected(revs: Revisions, request: seq<Id>, prior: seq<Id>, repository: Id, j: nat)
    requires Known(revs, request) && Known(revs, prior) && DistinctPairs(revs, request)
    requires j < |request| && revs[request[j]].repository == repository
    ensures request[j] in Patched(revs, request, prior, repository)
  {
    var all := Patched(revs, request, prior, repository);
    if HasPair(revs, prior, revs[request[j]]) {
      var k :| 0 <= k < |prior| && revs[prior[k]] == revs[request[j]];
      RequestedIsReplaced(revs, request, prior, repository, k, j);
      assert all[k] == request[j];
    } else {
      assert request[j] in Added(revs, request, prior, repository);
    }
  }

  /** Patching again with the same request changes nothing. */
  lemma PatchedTwice(revs: Revisions, request: seq<Id>, prior: seq<Id>, repository: Id)
    requires Known(revs, request) && Known(revs, prior) && DistinctPairs(revs, request)
    requires Known(revs, Patched(revs, request, prior, repository))
    ensures Patched(revs, request, Patched(revs, request, prior, repository), repository)
         == Patched(revs, request, prior, repository)
  {
    var once := Patched(revs, request, prior, repository);
    forall k | 0 <= k < |once| ensures Replace(revs, request, once[k]) == once[k] {
      if k < |prior| {
        ReplaceKeepsPair(revs, request, prior[k]);
        assert once[k] == Replace(revs, request, prior[k]) && revs[once[k]] == revs[prior[k]];
      } else {
        assert once[k] == Added(revs, request, prior, repository)[k - |prior|];
        var j :| 0 <= j < |request| && request[j] == once[k];
        ReplacementIsUnique(revs, request, j);
      }
    }
    assert Replaced(revs, request, once) == once;
    NothingToAdd(revs, request, prior, repository);
  }

  lemma NothingToAdd(revs: Revisions, request: seq<Id>, prior: seq<Id>, repository: Id)
    requires Known(revs, request) && Known(revs, prior) && DistinctPairs(revs, request)
    requires Known(revs, Patched(revs, request, prior, repository))
    ensures Added(revs, request, Patched(revs, request, prior, repository), repository) == []
  {
    var once := Patched(revs, request, prior, repository);
    forall j | 0 <= j < |request| && revs[request[j]].repository == repository
      ensures HasPair(revs, once, revs[request[j]])
    {
      RequestedIsSelected(revs, request, prior, repository, j);
      var k :| 0 <= k < |once| && once[k] == request[j];
    }
    NoneAdded(revs, request, once, repository);
  }

  lemma {:induction false} NoneAdded(revs: Revisions, request: seq<Id>, prior: seq<Id>, repository: Id)
    requires Known(revs, request) && Known(revs, prior)
    requires forall j :: 0 <= j < |request| ==> !IsNew(revs, prior, repository, request[j])
    ensures Added(revs, request, prior, repository) == []
  {
    if |request| > 0 {
      NoneAdded(revs, request[..|request| - 1], prior, repository);
    }
  }

  lemma AddedIsRequested(revs: Revisions, request: seq<Id>, prior: seq<Id>, repository: Id, r: Id)
    requires Known(revs, request) && Known(revs, prior) && r in Added(revs, request, prior, repository)
    ensures r in revs && HasPair(revs, request, revs[r])
  {
    var j :| 0 <= j < |request| && request[j] == r;
  }

  // ----- what a patch does to a composition -----

  /** A patched valid plan is a valid plan again. */
  lemma PatchKeepsPlanValid(revs: Revisions, request: seq<Id>, components: seq<Component>, operation: Id)
    requires ValidPlan(revs, components) && Known(revs, request) && DistinctPairs(revs, request)
    ensures AllKnown(revs, components) && ValidPlan(revs, Patch(revs, request, components, operation))
  {
    assert AllKnown(revs, components) by {
      assert forall i :: 0 <= i < |components| ==> ListOk(revs, components[i]);
    }
    var patched := Patch(revs, request, components, operation);
    forall i | 0 <= i < |patched| ensures ListOk(revs, patched[i]) {
      var c := components[i];
      assert ListOk(revs, c);
      PatchedKnown(revs, request, c.revisions, c.repository);
      PatchedDistinct(revs, request, c.revisions, c.repository);
    }
    forall i, j | 0 <= i < j < |patched| && patched[i].repository == patched[j].repository
      ensures SharedPlan(patched[i], patched[j])
    {
      assert SharedPlan(components[i], components[j]);
    }
  }

  /** Every requested revision is selected in every component of its repository, and in one at least. */
  lemma PatchSelectsRequest(revs: Revisions, request: seq<Id>, components: seq<Component>, operation: Id, j: nat)
    requires AllKnown(revs, components) && RequestOk(revs, request, components) && j < |request|
    ensures forall i :: 0 <= i < |components| && components[i].repository == revs[request[j]].repository ==>
              request[j] in Patch(revs, request, components, operation)[i].revisions
    ensures exists i :: 0 <= i < |components| && request[j] in Patch(revs, request, components, operation)[i].revisions
  {
    forall i | 0 <= i < |components| && components[i].repository == revs[request[j]].repository
      ensures request[j] in Patch(revs, request, components, operation)[i].revisions
    {
      RequestedIsSelected(revs, request, components[i].revisions, components[i].repository, j);
    }
  }

  /** An update that has taken effect is refused when it is asked for again: it would change nothing. */
  lemma AppliedPatchIsRefused(revs: Revisions, request: seq<Id>, components: seq<Component>, operation: Id)
    requires ValidPlan(revs, components) && Known(revs, request) && DistinctPairs(revs, request)
    ensures AllKnown(revs, components) && AllKnown(revs, Patch(revs, request, components, operation))
    ensures !ChangesLists(revs, request, Patch(revs, request, components, operation))
  {
    PatchKeepsPlanValid(revs, request, components, operation);
    var patched := Patch(revs, request, components, operation);
    forall i | 0 <= i < |patched|
      ensures Known(revs, patched[i].revisions)
      ensures Patched(revs, request, patched[i].revisions, patched[i].repository) == patched[i].revisions
    {
      assert ListOk(revs, patched[i]);
      PatchedTwice(revs, request, components[i].revisions, components[i].repository);
    }
  }

  /** Only the request's own pairs can gain, lose or change a revision. */
  lemma PatchIsLocal(revs: Revisions, request: seq<Id>, components: seq<Component>, operation: Id, i: nat, r: Id)
    requires AllKnown(revs, components) && Known(revs, request) && i < |components| && r in revs
    requires !HasPair(revs, request, revs[r])
    ensures r in Patch(revs, request, components, operation)[i].revisions <==> r in components[i].revisions
  {
    var prior, repository := components[i].revisions, components[i].repository;
    var all := Patched(revs, request, prior, repository);
    if r in prior {
      var k :| 0 <= k < |prior| && prior[k] == r;
      UntouchedStays(revs, request, prior, repository, k);
      assert all[k] == r;
    }
    if r in all {
      if r in Replaced(revs, request, prior) {
        var k :| 0 <= k < |prior| && Replaced(revs, request, prior)[k] == r;
        ReplaceKeepsPair(revs, request, prior[k]);
        UntouchedStays(revs, request, prior, repository, k);
        assert all[k] == r;
      } else {
        AddedIsRequested(revs, request, prior, repository, r);
      }
    }
  }

  // ----- the passes as they run -----

  /** The applications met so far, and the last component of each repository, as the validator's maps hold them. */
  function Applications(components: seq<Component>): set<Id> {
    if |components| == 0 then {}
    else Applications(components[..|components| - 1]) + {components[|components| - 1].application}
  }

  function LastOf(components: seq<Component>): map<Id, nat> {
    if |components| == 0 then map[]
    else
      var n := |components| - 1;
      LastOf(components[..n])[components[n].repository := n]
  }

  lemma {:induction false} ApplicationMet(components: seq<Component>, a: Id)
    ensures a in Applications(components) <==> exists j :: 0 <= j < |components| && components[j].application == a
  {
    if |components| > 0 {
      var n := |components| - 1;
      ApplicationMet(components[..n], a);
      if exists j :: 0 <= j < n && components[..n][j].application == a {
        var j :| 0 <= j < n && components[..n][j].application == a;
        assert components[j].application == a;
      }
    }
  }

  lemma {:induction false} LastMet(components: seq<Component>, j: nat)
    requires j < |components|
    ensures components[j].repository in LastOf(components)
    ensures var k := LastOf(components)[components[j].repository];
            k < |components| && components[k].repository == components[j].repository
  {
    var n := |components| - 1;
    if j < n && components[j].repository != components[n].repository {
      LastMet(components[..n], j);
    }
  }

  lemma {:induction false} LastIsMember(components: seq<Component>, r: Id)
    requires r in LastOf(components)
    ensures LastOf(components)[r] < |components| && components[LastOf(components)[r]].repository == r
  {
    var n := |components| - 1;
    if r != components[n].repository {
      LastIsMember(components[..n], r);
    }
  }

  /** The validator of a planned composition, with its maps. */
  method ValidatePlan(revs: Revisions, components: seq<Component>) returns (ok: bool)
    ensures ok == ValidPlan(revs, components)
  {
    var applications: set<Id> := {};
    var plans: map<Id, nat> := map[];
    var i := 0;
    while i < |components|
      invariant i <= |components|
      invariant ValidPlan(revs, components[..i])
      invariant applications == Applications(components[..i]) && plans == LastOf(components[..i])
    {
      hide ListOk, SharedPlan, ValidPlan, Applications, LastOf;
      var c := components[i];
      MapsGrow(components, i);
      if c.application in applications {
        RepeatedApplication(revs, components, i);
        return false;
      }
      if c.repository in plans {
        LastIsMember(components[..i], c.repository);
        if !SharedPlan(components[plans[c.repository]], c) {
          DisagreeingPlans(revs, components, plans[c.repository], i);
          return false;
        }
      }
      var valid := ValidateList(revs, c);
      if !valid {
        BadList(revs, components, i);
        return false;
      }
      ExtendsPlan(revs, components, i);
      applications := applications + {c.application};
      plans := plans[c.repository := i];
      i := i + 1;
    }
    assert components[..i] == components;
    return true;
  }

  lemma MapsGrow(components: seq<Component>, i: nat)
    requires i < |components|
    ensures Applications(components[..i + 1]) == Applications(components[..i]) + {components[i].application}
    ensures LastOf(components[..i + 1]) == LastOf(components[..i])[components[i].repository := i]
  {
    assert components[..i + 1][..i] == components[..i];
  }

  lemma RepeatedApplication(revs: Revisions, components: seq<Component>, i: nat)
    requires i < |components| && components[i].application in Applications(components[..i])
    ensures !ValidPlan(revs, components)
  {
    hide ListOk, SharedPlan;
    ApplicationMet(components[..i], components[i].application);
    var j :| 0 <= j < i && components[..i][j].application == components[i].application;
    assert components[j].application == components[i].application;
  }

  lemma DisagreeingPlans(revs: Revisions, components: seq<Component>, k: nat, i: nat)
    requires k < i < |components| && components[k].repository == components[i].repository
    requires !SharedPlan(components[k], components[i])
    ensures !ValidPlan(revs, components)
  {
    hide ListOk, SharedPlan;
  }

  lemma BadList(revs: Revisions, components: seq<Component>, i: nat)
    requires i < |components| && !ListOk(revs, components[i])
    ensures !ValidPlan(revs, components)
  {
    hide ListOk, SharedPlan;
  }

  lemma ExtendsPlan(revs: Revisions, components: seq<Component>, i: nat)
    requires i < |components| && ValidPlan(revs, components[..i])
    requires components[i].application !in Applications(components[..i]) && ListOk(revs, components[i])
    requires components[i].repository in LastOf(components[..i]) ==>
               LastOf(components[..i])[components[i].repository] < i
               && SharedPlan(components[LastOf(components[..i])[components[i].repository]], components[i])
    ensures ValidPlan(revs, components[..i + 1])
  {
    var before, after := components[..i], components[..i + 1];
    forall j | 0 <= j < i
      ensures after[j].application != after[i].application
      ensures after[j].repository == after[i].repository ==> SharedPlan(after[j], after[i])
    {
      assert before[j] == after[j] && after[i] == components[i];
      ApplicationMet(before, components[i].application);
      if after[j].repository == after[i].repository {
        SharesWithLast(revs, components, i, j);
      }
    }
    hide ListOk, SharedPlan, Applications, LastOf;
    assert forall j :: 0 <= j < i ==> after[j] == before[j];
  }

  lemma SharesWithLast(revs: Revisions, components: seq<Component>, i: nat, j: nat)
    requires j < i < |components| && ValidPlan(revs, components[..i]) && components[j].repository == components[i].repository
    requires components[i].repository in LastOf(components[..i]) ==>
               LastOf(components[..i])[components[i].repository] < i
               && SharedPlan(components[LastOf(components[..i])[components[i].repository]], components[i])
    ensures SharedPlan(components[j], components[i])
  {
    hide ListOk, Applications;
    var before := components[..i];
    assert before[j] == components[j];
    LastMet(before, j);
    var k := LastOf(before)[components[i].repository];
    assert before[k] == components[k];
    if j < k {
      assert SharedPlan(before[j], before[k]);
    } else if k < j {
      assert SharedPlan(before[k], before[j]);
    }
  }

  method ValidateList(revs: Revisions, c: Component) returns (ok: bool)
    ensures ok == ListOk(revs, c)
  {
    var pairs: set<Revision> := {};
    var k := 0;
    while k < |c.revisions|
      invariant k <= |c.revisions| && Known(revs, c.revisions[..k]) && DistinctPairs(revs, c.revisions[..k])
      invariant forall j :: 0 <= j < k ==> revs[c.revisions[j]].repository == c.repository
      invariant forall p :: p in pairs <==> HasPair(revs, c.revisions[..k], p)
    {
      var r := c.revisions[k];
      if r !in revs || revs[r].repository != c.repository { return false; }
      PairsAfter(revs, c.revisions, k);
      if revs[r] in pairs {
        RepeatedPair(revs, c.revisions, k);
        return false;
      }
      pairs := pairs + {revs[r]};
      assert c.revisions[..k + 1] == c.revisions[..k] + [r];
      k := k + 1;
    }
    assert c.revisions[..k] == c.revisions;
    return true;
  }

  lemma RepeatedPair(revs: Revisions, list: seq<Id>, k: nat)
    requires k < |list| && Known(revs, list[..k]) && list[k] in revs && HasPair(revs, list[..k], revs[list[k]])
    ensures Known(revs, list) ==> !DistinctPairs(revs, list)
  {
    var j :| 0 <= j < k && revs[list[..k][j]] == revs[list[k]];
    assert list[j] == list[..k][j];
  }

  /** The map of requested pairs, as the passes below use it. */
  ghost predicate Requested(revs: Revisions, request: seq<Id>, patches: map<Revision, Id>)
    requires Known(revs, request)
  {
    && (forall p :: p in patches <==> HasPair(revs, request, p))
    && (forall p :: p in patches ==> Replacement(revs, request, p) == Some(patches[p]))
  }

  /** Replaces requested pairs in place and records every pair it meets. */
  method ReplaceInList(revs: Revisions, ghost request: seq<Id>, patches: map<Revision, Id>, prior: seq<Id>)
    returns (list: seq<Id>, included: set<Revision>, changed: bool)
    requires Known(revs, request) && Known(revs, prior) && Requested(revs, request, patches)
    ensures list == Replaced(revs, request, prior) && changed == (list != prior)
    ensures forall p :: p in included <==> HasPair(revs, prior, p)
  {
    list, changed, included := prior, false, {};
    var k := 0;
    while k < |prior|
      invariant k <= |prior| == |list|
      invariant forall j :: 0 <= j < k ==> list[j] == Replace(revs, request, prior[j]) && revs[prior[j]] in included
      invariant forall j :: k <= j < |prior| ==> list[j] == prior[j]
      invariant forall p :: p in included ==> HasPair(revs, prior, p)
      invariant changed ==> exists j :: 0 <= j < k && list[j] != prior[j]
      invariant !changed ==> list == prior
    {
      var pair := revs[prior[k]];
      included := included + {pair};
      NoReplacement(revs, request, pair);
      if pair in patches {
        list := list[k := patches[pair]];
        changed := changed || patches[pair] != prior[k];
      }
      k := k + 1;
    }
  }

  /** One component: replace in place while recording the pairs met, then append what was not met. */
  method PatchList(revs: Revisions, request: seq<Id>, patches: map<Revision, Id>, prior: seq<Id>, repository: Id)
    returns (list: seq<Id>, changed: bool)
    requires Known(revs, request) && Known(revs, prior) && DistinctPairs(revs, request) && Requested(revs, request, patches)
    ensures list == Patched(revs, request, prior, repository)
    ensures changed == (list != prior)
  {
    var included;
    list, included, changed := ReplaceInList(revs, request, patches, prior);
    ghost var replaced := list;
    var j := 0;
    while j < |request|
      invariant j <= |request| && |replaced| == |prior|
      invariant list == replaced + Added(revs, request[..j], prior, repository)
      invariant changed == (list != prior)
      invariant forall p :: p in included ==> HasPair(revs, prior, p) || HasPair(revs, request[..j], p)
      invariant forall p :: HasPair(revs, prior, p) ==> p in included
    {
      hide HasPair, Requested, DistinctPairs;
      var r := request[j];
      AddsNext(revs, request, prior, repository, j);
      NotRequestedBefore(revs, request, j);
      PairsGrow(revs, request, j);
      if revs[r].repository == repository && revs[r] !in included {
        list := list + [r];
        included := included + {revs[r]};
        changed := true;
      }
      j := j + 1;
    }
    assert request[..j] == request;
  }

  lemma AddsNext(revs: Revisions, request: seq<Id>, prior: seq<Id>, repository: Id, j: nat)
    requires Known(revs, request) && Known(revs, prior) && j < |request|
    ensures Added(revs, request[..j + 1], prior, repository)
         == Added(revs, request[..j], prior, repository)
            + (if IsNew(revs, prior, repository, request[j]) then [request[j]] else [])
  {
    assert request[..j + 1][..j] == request[..j];
  }

  lemma NoReplacement(revs: Revisions, request: seq<Id>, pair: Revision)
    requires Known(revs, request)
    ensures Replacement(revs, request, pair).Some? <==> HasPair(revs, request, pair)
  {
    var r := Replacement(revs, request, pair);
    if r.Some? {
      var k :| 0 <= k < |request| && request[k] == r.value;
    }
  }

  lemma NotRequestedBefore(revs: Revisions, request: seq<Id>, j: nat)
    requires Known(revs, request) && DistinctPairs(revs, request) && j < |request|
    ensures !HasPair(revs, request[..j], revs[request[j]])
  {
  }

  lemma PairsGrow(revs: Revisions, request: seq<Id>, j: nat)
    requires Known(revs, request) && j < |request|
    ensures HasPair(revs, request[..j + 1], revs[request[j]])
    ensures forall p :: HasPair(revs, request[..j], p) ==> HasPair(revs, request[..j + 1], p)
  {
    assert request[..j + 1][j] == request[j];
    forall p | HasPair(revs, request[..j], p) ensures HasPair(revs, request[..j + 1], p) {
      var k :| 0 <= k < j && revs[request[..j][k]] == p;
      assert request[..j + 1][k] == request[..j][k];
    }
  }

  /** The map of requested pairs; a second revision of one pair, or a repository outside, is refused. */
  method CollectPatches(revs: Revisions, request: seq<Id>, components: seq<Component>) returns (patches: Option<map<Revision, Id>>)
    ensures patches.Some? <==> RequestOk(revs, request, components)
    ensures patches.Some? ==> Requested(revs, request, patches.value)
  {
    var found: map<Revision, Id> := map[];
    var k := 0;
    while k < |request|
      invariant k <= |request| && Known(revs, request[..k]) && DistinctPairs(revs, request[..k])
      invariant forall j :: 0 <= j < k ==> InCohort(components, revs[request[j]].repository)
      invariant forall p :: p in found <==> HasPair(revs, request[..k], p)
      invariant forall p :: p in found ==> Replacement(revs, request[..k], p) == Some(found[p])
    {
      var r := request[k];
      assert request[..k + 1][..k] == request[..k];
      if r !in revs { return None; }
      if !InCohort(components, revs[r].repository) { return None; }
      if revs[r] in found { return None; }
      PairsAfter(revs, request, k);
      found := found[revs[r] := r];
      k := k + 1;
    }
    assert request[..k] == request;
    return Some(found);
  }

  lemma PairsAfter(revs: Revisions, request: seq<Id>, k: nat)
    requires k < |request| && Known(revs, request[..k]) && request[k] in revs
    ensures Known(revs, request[..k + 1])
    ensures forall p :: HasPair(revs, request[..k + 1], p) <==> HasPair(revs, request[..k], p) || revs[request[k]] == p
  {
    var before, after := request[..k], request[..k + 1];
    assert after == before + [request[k]];
    forall p
      ensures HasPair(revs, after, p) <==> HasPair(revs, before, p) || revs[request[k]] == p
    {
      if HasPair(revs, before, p) {
        var j :| 0 <= j < k && revs[before[j]] == p;
        assert after[j] == before[j];
      }
      if revs[request[k]] == p { assert after[k] == request[k]; }
      if HasPair(revs, after, p) {
        var j :| 0 <= j <= k && revs[after[j]] == p;
        if j < k { assert before[j] == after[j]; }
      }
    }
  }

  /** The whole update: refused for a bad request or baseline, or when it would change nothing. */
  method PlanFeatureUpdate(revs: Revisions, request: seq<Id>, components: seq<Component>, operation: Id)
    returns (planned: Option<seq<Component>>)
    ensures planned.Some? <==> RequestOk(revs, request, components) && AllKnown(revs, components) && ChangesLists(revs, request, components)
    ensures planned.Some? ==> planned.value == Patch(revs, request, components, operation)
  {
    var patches := CollectPatches(revs, request, components);
    if patches.None? { return None; }
    var out: seq<Component> := [];
    var changed := false;
    var i := 0;
    while i < |components|
      invariant i <= |components| && |out| == i && AllKnown(revs, components[..i])
      invariant out == Patch(revs, request, components[..i], operation)
      invariant changed == ChangesLists(revs, request, components[..i])
    {
      hide Patched, Requested, InCohort, Known;
      var c := components[i];
      if !Known(revs, c.revisions) { return None; }
      var list, moved := PatchList(revs, request, patches.value, c.revisions, c.repository);
      PatchesNext(revs, request, components, operation, i);
      changed := changed || moved;
      out := out + [c.(revisions := list, target := Generated(operation, c.repository))];
      i := i + 1;
    }
    assert components[..i] == components;
    if !changed { return None; }
    return Some(out);
  }

  lemma PatchesNext(revs: Revisions, request: seq<Id>, components: seq<Component>, operation: Id, i: nat)
    requires Known(revs, request) && i < |components| && AllKnown(revs, components[..i]) && Known(revs, components[i].revisions)
    ensures AllKnown(revs, components[..i + 1])
    ensures Patch(revs, request, components[..i + 1], operation)
         == Patch(revs, request, components[..i], operation) + [PatchComponent(revs, request, components[i], operation)]
    ensures ChangesLists(revs, request, components[..i + 1])
        <==> ChangesLists(revs, request, components[..i])
             || Patched(revs, request, components[i].revisions, components[i].repository) != components[i].revisions
  {
    hide Patched, Known;
    var before, after := components[..i], components[..i + 1];
    assert forall j :: 0 <= j < i ==> after[j] == before[j];
    assert after[i] == components[i];
  }
}
