/**
  One activation group over time: its members are leased one by one, the leader alone
  freezes and sends a single proposal, and the merged result reaches all members at once.
  Members are listed in their frozen order, so the leader is member 0.
 */
module ActivationProposal {
  import opened Ids

  datatype Phase = Inspect | Apply | ApplyUncertain | WaitGitOpsPR
  datatype Status = Running | Failed | Succeeded

  /** `batch` is the frozen proposal intent; `result` is the commit the member was applied at. */
  datatype Member = Member(phase: Phase, status: Status, batch: bool, pr: Option<Id>, result: Option<Id>,
                           leaseOwner: Id, leaseUntil: nat)

  datatype Pc = Claimed | ReadyToPropose | Proposed

  datatype Worker = Worker(index: nat, copy: Member, pc: Pc)

  datatype State = State(members: seq<Member>, workers: map<Id, Worker>, sends: nat, now: nat)

  datatype Step =
    | Elapse(seconds: nat)
    | Claim(token: Id, index: nat)
    | Crash(token: Id)
    | Inspected(token: Id)
    | Retry(token: Id)
    | Fail(token: Id)
    | Freeze(token: Id)
    | Propose(token: Id)
    | Discover(token: Id, pr: Id)
    | ApplyAll(token: Id, commit: Id)

  predicate Live(st: State, t: Id) {
    && t in st.workers && st.workers[t].index < |st.members|
    && st.members[st.workers[t].index].leaseOwner == t && st.members[st.workers[t].index].leaseUntil > st.now
  }

  /** The group's authority ends with the first failed member. */
  predicate NoneFailed(st: State) {
    forall i :: 0 <= i < |st.members| ==> !st.members[i].status.Failed?
  }

  predicate AllReady(st: State) {
    forall i :: 0 <= i < |st.members| ==> st.members[i].phase.Apply? && !st.members[i].status.Failed?
  }

  function Released(m: Member): Member {
    m.(leaseOwner := NO_ID, leaseUntil := 0)
  }

  function Save(st: State, t: Id, m: Member): State
    requires Live(st, t)
  {
    st.(members := st.members[st.workers[t].index := Released(m)], workers := st.workers - {t})
  }

  function Applied(m: Member, pr: Id, commit: Id): Member {
    Released(m).(pr := Some(pr), result := Some(commit), status := Succeeded)
  }

  function Next(st: State, step: Step): Option<State> {
    match step
    case Elapse(seconds) => Some(st.(now := st.now + seconds))
    case Claim(t, i) =>
      if t == NO_ID || t in st.workers || i >= |st.members| || !st.members[i].status.Running? || st.members[i].leaseUntil > st.now
         || (exists j :: 0 <= j < |st.members| && st.members[j].leaseOwner == t) then None
      else
        var leased := st.members[i].(leaseOwner := t, leaseUntil := st.now + 45);
        Some(st.(members := st.members[i := leased], workers := st.workers[t := Worker(i, leased, Claimed)]))
    case Crash(t) => Some(st.(workers := st.workers - {t}))
    case Inspected(t) =>
      if !Live(st, t) || !NoneFailed(st) || !st.workers[t].copy.phase.Inspect? then None
      else Some(Save(st, t, st.workers[t].copy.(phase := Apply)))
    case Retry(t) =>
      if !Live(st, t) || !NoneFailed(st) then None else Some(Save(st, t, st.workers[t].copy))
    case Fail(t) =>
      if !Live(st, t) then None else Some(Save(st, t, st.workers[t].copy.(status := Failed)))
    case Freeze(t) =>
      if !Live(st, t) || !AllReady(st) || st.workers[t].index != 0 || !st.workers[t].copy.phase.Apply? || !st.workers[t].pc.Claimed?
      then None
      else
        var frozen := st.workers[t].copy.(phase := ApplyUncertain, batch := true);
        Some(st.(members := st.members[0 := frozen], workers := st.workers[t := Worker(0, frozen, ReadyToPropose)]))
    case Propose(t) =>
      if t !in st.workers || !st.workers[t].pc.ReadyToPropose? then None
      else Some(st.(sends := st.sends + 1, workers := st.workers[t := st.workers[t].(pc := Proposed)]))
    case Discover(t, pr) =>
      if !Live(st, t) || !NoneFailed(st) || st.workers[t].index != 0 || !st.workers[t].copy.phase.ApplyUncertain?
         || !st.workers[t].copy.batch || st.workers[t].pc.ReadyToPropose? || st.sends == 0 then None
      else Some(Save(st, t, st.workers[t].copy.(phase := WaitGitOpsPR, pr := Some(pr))))
    case ApplyAll(t, commit) =>
      if !Live(st, t) || !NoneFailed(st) || st.workers[t].index != 0 || !st.workers[t].copy.phase.WaitGitOpsPR?
         || !st.workers[t].copy.batch || st.workers[t].copy.pr.None? then None
      else
        Some(st.(workers := st.workers - {t},
                 members := seq(|st.members|, i requires 0 <= i < |st.members| =>
                   Applied(st.members[i], st.workers[t].copy.pr.value, commit))))
  }

  // ----- the invariant -----

  predicate WorkerOk(st: State, t: Id)
    requires t in st.workers
  {
    var w := st.workers[t];
    && w.index < |st.members|
    && (st.members[w.index].leaseOwner == t ==> w.copy == st.members[w.index])
    && (!w.pc.Claimed? ==> w.index == 0 && w.copy.phase.ApplyUncertain? && w.copy.batch && st.members[0].batch)
    && (w.pc.ReadyToPropose? ==> st.sends == 0)
  }

  predicate MemberOk(m: Member, leader: bool) {
    && (m.status.Succeeded? <==> m.result.Some?)
    && (!m.status.Running? ==> m.leaseOwner == NO_ID)
    && (m.batch ==> leader && (m.phase.ApplyUncertain? || m.phase.WaitGitOpsPR?))
    && (leader ==> (m.phase.ApplyUncertain? || m.phase.WaitGitOpsPR? ==> m.batch))
    && (!leader ==> m.phase.Inspect? || m.phase.Apply?)
    && (!leader && m.pr.Some? ==> m.result.Some?)
  }

  predicate SameResult(a: Member, b: Member) {
    a.result == b.result && (a.result.Some? ==> a.pr == b.pr && a.pr.Some?)
  }

  predicate Inv(st: State) {
    && |st.members| > 0 && NO_ID !in st.workers
    && (forall t :: t in st.workers ==> WorkerOk(st, t))
    && (forall t, u :: t in st.workers && u in st.workers && st.workers[t].pc.ReadyToPropose? && st.workers[u].pc.ReadyToPropose? ==> t == u)
    && (forall i :: 0 <= i < |st.members| ==> MemberOk(st.members[i], i == 0))
    && st.sends <= 1 && (st.sends == 1 ==> st.members[0].batch)
    && (forall i :: 0 <= i < |st.members| ==> SameResult(st.members[i], st.members[0]))
  }

  predicate Initial(st: State) {
    && |st.members| > 0 && st.workers == map[] && st.sends == 0
    && forall i :: 0 <= i < |st.members| ==> st.members[i] == Member(Inspect, Running, false, None, None, NO_ID, 0)
  }

  /** A save by the owner that keeps results as they are. */
  lemma SaveInv(st: State, t: Id, m: Member)
    requires Inv(st) && Live(st, t) && MemberOk(Released(m), st.workers[t].index == 0)
    requires m.batch == st.workers[t].copy.batch && m.result == st.workers[t].copy.result
    requires st.workers[t].copy.result.Some? ==> m.pr == st.workers[t].copy.pr
    ensures Inv(Save(st, t, m))
  {
    var st' := Save(st, t, m);
    assert WorkerOk(st, t);
    forall u | u in st'.workers ensures WorkerOk(st', u) {
      assert WorkerOk(st, u);
    }
    var k := st.workers[t].index;
    assert SameResult(st.members[k], st.members[0]);
  }

  lemma FreezeInv(st: State, t: Id)
    requires Inv(st) && Next(st, Freeze(t)).Some?
    ensures Inv(Next(st, Freeze(t)).value)
  {
    var st' := Next(st, Freeze(t)).value;
    assert WorkerOk(st, t) && MemberOk(st.members[0], true);
    forall u | u in st'.workers ensures WorkerOk(st', u) && (u != t ==> !st'.workers[u].pc.ReadyToPropose?) {
      if u != t { assert WorkerOk(st, u); }
    }
    assert SameResult(st.members[0], st.members[0]);
  }

  lemma ApplyAllInv(st: State, t: Id, commit: Id)
    requires Inv(st) && Next(st, ApplyAll(t, commit)).Some?
    ensures Inv(Next(st, ApplyAll(t, commit)).value)
  {
    var st' := Next(st, ApplyAll(t, commit)).value;
    assert WorkerOk(st, t);
    forall i | 0 <= i < |st'.members| ensures MemberOk(st'.members[i], i == 0) {
      assert MemberOk(st.members[i], i == 0);
    }
    forall u | u in st'.workers ensures WorkerOk(st', u) {
      assert WorkerOk(st, u);
    }
  }

  lemma ClaimInv(st: State, t: Id, i: nat)
    requires Inv(st) && Next(st, Claim(t, i)).Some?
    ensures Inv(Next(st, Claim(t, i)).value)
  {
    var st' := Next(st, Claim(t, i)).value;
    assert MemberOk(st.members[i], i == 0) && SameResult(st.members[i], st.members[0]);
    forall u | u in st'.workers ensures WorkerOk(st', u) {
      if u != t { assert WorkerOk(st, u); }
    }
  }

  lemma NextInv(st: State, step: Step, st': State)
    requires Inv(st) && Next(st, step) == Some(st')
    ensures Inv(st')
  {
    match step
    case Claim(t, i) => ClaimInv(st, t, i);
    case Freeze(t) => FreezeInv(st, t);
    case ApplyAll(t, commit) => ApplyAllInv(st, t, commit);
    case Inspected(t) => OwnerOk(st, t); SaveInv(st, t, st.workers[t].copy.(phase := Apply));
    case Retry(t) => OwnerOk(st, t); SaveInv(st, t, st.workers[t].copy);
    case Fail(t) => OwnerOk(st, t); SaveInv(st, t, st.workers[t].copy.(status := Failed));
    case Discover(t, pr) => OwnerOk(st, t); SaveInv(st, t, st.workers[t].copy.(phase := WaitGitOpsPR, pr := Some(pr)));
    case _ => QuietInv(st, step, st');
  }

  lemma OwnerOk(st: State, t: Id)
    requires Inv(st) && Live(st, t)
    ensures st.workers[t].copy == st.members[st.workers[t].index] && st.workers[t].copy.status.Running?
    ensures MemberOk(st.workers[t].copy, st.workers[t].index == 0)
  {
    assert WorkerOk(st, t) && MemberOk(st.members[st.workers[t].index], st.workers[t].index == 0);
  }

  lemma QuietInv(st: State, step: Step, st': State)
    requires Inv(st) && Next(st, step) == Some(st') && (step.Elapse? || step.Crash? || step.Propose?)
    ensures Inv(st')
  {
    if step.Propose? { assert WorkerOk(st, step.token); }
    forall u | u in st'.workers ensures WorkerOk(st', u) {
      assert WorkerOk(st, u);
    }
  }

  // ----- runs -----

  predicate IsRun(states: seq<State>, steps: seq<Step>) {
    && |states| == |steps| + 1 && Initial(states[0])
    && forall i {:trigger steps[i]} :: 0 <= i < |steps| ==> Next(states[i], steps[i]) == Some(states[i + 1])
  }

  lemma {:induction false} RunInv(states: seq<State>, steps: seq<Step>, i: nat)
    requires IsRun(states, steps) && i < |states|
    ensures Inv(states[i])
  {
    if i > 0 {
      hide Inv, Next;
      RunInv(states, steps, i - 1);
      assert Next(states[i - 1], steps[i - 1]) == Some(states[i]);
      NextInv(states[i - 1], steps[i - 1], states[i]);
    } else {
      assert Initial(states[0]);
    }
  }

  /** The group's proposal is sent at most once, and only on behalf of the leader's frozen intent. */
  lemma ProposedOnce(states: seq<State>, steps: seq<Step>, i: nat)
    requires IsRun(states, steps) && i < |states|
    ensures states[i].sends <= 1
    ensures states[i].sends == 1 ==> |states[i].members| > 0 && states[i].members[0].batch
  {
    RunInv(states, steps, i);
  }

  lemma OnlyTheLeaderProposes(states: seq<State>, steps: seq<Step>, i: nat, t: Id)
    requires IsRun(states, steps) && i < |steps| && steps[i] == Propose(t)
    ensures t in states[i].workers && states[i].workers[t].index == 0
    ensures forall k :: 0 < k < |states[i].members| ==> !states[i].members[k].batch
  {
    RunInv(states, steps, i);
    assert Next(states[i], steps[i]) == Some(states[i + 1]);
    assert WorkerOk(states[i], t);
    forall k | 0 < k < |states[i].members| ensures !states[i].members[k].batch {
      assert MemberOk(states[i].members[k], k == 0);
    }
  }

  /** Either no member has a result, or all have it at the same commit and under the same proposal. */
  lemma AllOrNone(states: seq<State>, steps: seq<Step>, i: nat, a: nat, b: nat)
    requires IsRun(states, steps) && i < |states| && a < |states[i].members| && b < |states[i].members|
    ensures states[i].members[a].result == states[i].members[b].result
    ensures states[i].members[a].result.Some? ==>
              states[i].members[a].status.Succeeded? && states[i].members[b].status.Succeeded?
              && states[i].members[a].pr == states[i].members[b].pr
  {
    RunInv(states, steps, i);
    assert SameResult(states[i].members[a], states[i].members[0]) && SameResult(states[i].members[b], states[i].members[0]);
    assert MemberOk(states[i].members[a], a == 0) && MemberOk(states[i].members[b], b == 0);
  }

  /** A failed member stops its group: no result and no proposal can be added any more. */
  lemma FailureStopsTheGroup(st: State, step: Step, st': State, k: nat)
    requires Inv(st) && Next(st, step) == Some(st') && k < |st.members| && st.members[k].status.Failed?
    ensures |st'.members| == |st.members| && st'.members[k] == st.members[k]
    ensures !step.ApplyAll? && !step.Freeze? && !step.Discover?
  {
    assert MemberOk(st.members[k], k == 0);
    if step.Inspected? || step.Retry? || step.Fail? || step.Discover? {
      OwnerOk(st, step.token);
    }
  }
}
