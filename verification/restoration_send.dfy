/**
  One recovery generation: its plan of grouped proposals, the persisted send latch, the
  single confirmation and the external merges, under claims, crashes and lease expiry.
 */
module RestorationSend {
  import opened Ids

  datatype Phase = ReconcileEffects | PrepareProposals | WaitExternalMerge | GitOpsApplied | UnapprovedEffect

  /** `written` says the group has a batch to propose; groups already at the baseline have none. */
  datatype Group = Group(written: bool, sendStarted: bool, proposal: bool, mergedAt: Option<nat>)

  datatype Record = Record(phase: Phase, groups: seq<Group>, leaseOwner: Id, leaseUntil: nat)

  /** A worker's copy of the record and the group whose proposal it is about to send or has sent. */
  datatype Pc = Idle | Latched(group: nat) | Sent(group: nat)

  datatype Worker = Worker(copy: Record, pc: Pc)

  /** What the provider reports of one group's pull request. */
  datatype Proposal = Proposal(sends: nat, open: bool, mergedAt: Option<nat>)

  datatype State = State(record: Record, confirmations: seq<nat>, provider: seq<Proposal>,
                         workers: map<Id, Worker>, now: nat)

  predicate Settled(p: Phase) {
    p.GitOpsApplied? || p.UnapprovedEffect?
  }

  // ----- reading the proposals -----

  datatype Verdict = Stable | Unapproved | Unknown

  /** A merge that the confirmation covers: reported, not in the future, strictly after it. */
  predicate Approved(mergedAt: Option<nat>, confirmedAt: nat, now: nat) {
    mergedAt.Some? && confirmedAt < mergedAt.value <= now
  }

  /** The verdict on one group; `confirmation` is given when merges are awaited. */
  function GroupVerdict(g: Group, p: Proposal, confirmation: Option<nat>, now: nat): Verdict {
    if !g.written then Stable
    else if !g.proposal || !g.sendStarted then Unknown
    else match confirmation
         case Some(at) =>
           if p.mergedAt.None? then Unknown
           else if Approved(p.mergedAt, at, now) then Stable else Unapproved
         case None =>
           if p.mergedAt.Some? then Unapproved else if p.open then Stable else Unknown
  }

  /** The first verdict that is not stable, in group order. */
  function PlanVerdict(groups: seq<Group>, provider: seq<Proposal>, confirmation: Option<nat>, now: nat): (v: Verdict)
    requires |groups| == |provider|
    ensures v.Stable? ==> forall i :: 0 <= i < |groups| ==> GroupVerdict(groups[i], provider[i], confirmation, now).Stable?
    ensures v.Unapproved? ==> MergedEarly(groups, provider, confirmation, now)
  {
    if |groups| == 0 then Stable
    else
      var first := GroupVerdict(groups[0], provider[0], confirmation, now);
      if !first.Stable? then first
      else
        assert MergedEarly(groups[1..], provider[1..], confirmation, now) ==> MergedEarly(groups, provider, confirmation, now) by {
          assert forall i :: 0 <= i < |groups| - 1 ==> groups[1..][i] == groups[i + 1] && provider[1..][i] == provider[i + 1];
        }
        PlanVerdict(groups[1..], provider[1..], confirmation, now)
  }

  predicate MergedEarly(groups: seq<Group>, provider: seq<Proposal>, confirmation: Option<nat>, now: nat)
    requires |groups| == |provider|
  {
    exists i :: 0 <= i < |groups| && GroupVerdict(groups[i], provider[i], confirmation, now).Unapproved?
  }

  /** The next group without a known proposal; its latch decides between looking up and sending. */
  predicate IsPending(groups: seq<Group>, i: nat) {
    && i < |groups| && groups[i].written && !groups[i].proposal
    && forall j :: 0 <= j < i ==> !(groups[j].written && !groups[j].proposal)
  }

  predicate NonePending(groups: seq<Group>) {
    forall j :: 0 <= j < |groups| ==> !(groups[j].written && !groups[j].proposal)
  }

  function Collected(groups: seq<Group>, provider: seq<Proposal>): (r: seq<Group>)
    requires |groups| == |provider|
    ensures |r| == |groups|
    ensures forall i :: 0 <= i < |r| ==>
              r[i] == if groups[i].written then groups[i].(mergedAt := provider[i].mergedAt) else groups[i]
  {
    seq(|groups|, i requires 0 <= i < |groups| =>
      if groups[i].written then groups[i].(mergedAt := provider[i].mergedAt) else groups[i])
  }

  // ----- steps -----

  /** The source authority of a write or a save: lease and recovery authority of this generation. */
  predicate Authorised(st: State, t: Id) {
    && t in st.workers && st.record.leaseOwner == t && st.record.leaseUntil > st.now && !Settled(st.record.phase)
    && |st.workers[t].copy.groups| == |st.provider|
  }

  predicate FreshPlan(groups: seq<Group>) {
    forall i :: 0 <= i < |groups| ==> !groups[i].sendStarted && !groups[i].proposal && groups[i].mergedAt.None?
  }

  function Saved(st: State, t: Id, phase: Phase, groups: seq<Group>): State {
    st.(record := Record(phase, groups, NO_ID, 0), workers := st.workers - {t})
  }

  datatype Step =
    | Elapse(seconds: nat)
    | Claim(token: Id)
    | Crash(token: Id)
    | Retry(token: Id)
    | Plan(token: Id, groups: seq<Group>)
    | Latch(token: Id, group: nat)
    | Send(token: Id)
    | Discover(token: Id, group: nat)
    | AwaitMerge(token: Id)
    | Confirm(observed: Record)
    | Apply(token: Id)
    | Disapprove
    | Merge(group: nat, at: nat)
    | Toggle(group: nat)

  /** One atomic step, or `None` when it is refused; authority other than the lease may refuse anything. */
  function Next(st: State, step: Step): Option<State> {
    match step
    case Elapse(seconds) => Some(st.(now := st.now + seconds))
    case Claim(t) =>
      if t == NO_ID || t in st.workers || st.record.leaseOwner == t || st.record.leaseUntil > st.now || Settled(st.record.phase) then None
      else
        var leased := st.record.(leaseOwner := t, leaseUntil := st.now + 45);
        Some(st.(record := leased, workers := st.workers[t := Worker(leased, Idle)]))
    case Crash(t) => Some(st.(workers := st.workers - {t}))
    case Retry(t) =>
      if !Authorised(st, t) then None
      else Some(st.(record := st.record.(leaseOwner := NO_ID, leaseUntil := 0), workers := st.workers - {t}))
    case Plan(t, groups) =>
      if !Authorised(st, t) || !st.workers[t].pc.Idle? || !st.workers[t].copy.phase.ReconcileEffects? || !FreshPlan(groups) then None
      else Some(Saved(st, t, PrepareProposals, groups).(provider := seq(|groups|, _ => Proposal(0, false, None))))
    case Latch(t, i) => LatchTx(st, t, i)
    case Send(t) => SendTx(st, t)
    case Discover(t, i) => DiscoverTx(st, t, i)
    case AwaitMerge(t) =>
      if !Authorised(st, t) || !st.workers[t].pc.Idle? || !st.workers[t].copy.phase.PrepareProposals?
         || !NonePending(st.workers[t].copy.groups)
         || !PlanVerdict(st.workers[t].copy.groups, st.provider, None, st.now).Stable? then None
      else Some(Saved(st, t, WaitExternalMerge, st.workers[t].copy.groups))
    case Confirm(observed) =>
      if Settled(st.record.phase) || st.record != observed || !observed.phase.WaitExternalMerge? || st.confirmations != [] then None
      else Some(st.(confirmations := st.confirmations + [st.now]))
    case Apply(t) => ApplyTx(st, t)
    case Disapprove => DisapproveTx(st)
    case Merge(i, at) =>
      if i >= |st.provider| || st.provider[i].sends == 0 || st.provider[i].mergedAt.Some? then None
      else Some(st.(provider := st.provider[i := st.provider[i].(mergedAt := Some(at), open := false)]))
    case Toggle(i) =>
      if i >= |st.provider| || st.provider[i].sends == 0 || st.provider[i].mergedAt.Some? then None
      else Some(st.(provider := st.provider[i := st.provider[i].(open := !st.provider[i].open)]))
  }

  /** The send marker is stored, in the same transaction that checks the lease, before the call. */
  function LatchTx(st: State, t: Id, i: nat): Option<State> {
    if !Authorised(st, t) || !st.workers[t].pc.Idle? || !st.workers[t].copy.phase.PrepareProposals?
       || !IsPending(st.workers[t].copy.groups, i) || st.workers[t].copy.groups[i].sendStarted then None
    else
      var copy := st.workers[t].copy;
      var latched := copy.(groups := copy.groups[i := copy.groups[i].(sendStarted := true)]);
      Some(st.(record := st.record.(groups := latched.groups), workers := st.workers[t := Worker(latched, Latched(i))]))
  }

  /** The provider call itself; neither the clock nor the lease can be consulted any more. */
  function SendTx(st: State, t: Id): Option<State> {
    if t !in st.workers || !st.workers[t].pc.Latched? || st.workers[t].pc.group >= |st.provider| then None
    else
      var i := st.workers[t].pc.group;
      var p := st.provider[i];
      Some(st.(provider := st.provider[i := p.(sends := p.sends + 1, open := p.mergedAt.None?)],
               workers := st.workers[t := st.workers[t].(pc := Sent(i))]))
  }

  /** A look-up that finds the proposal, after the send or in a later trip. */
  function DiscoverTx(st: State, t: Id, i: nat): Option<State> {
    if !Authorised(st, t) || !st.workers[t].copy.phase.PrepareProposals? || !IsPending(st.workers[t].copy.groups, i)
       || !st.workers[t].copy.groups[i].sendStarted || st.workers[t].pc.Latched? || st.provider[i].sends == 0 then None
    else
      var groups := st.workers[t].copy.groups;
      Some(Saved(st, t, PrepareProposals, groups[i := groups[i].(proposal := true)]))
  }

  function ApplyTx(st: State, t: Id): Option<State> {
    if !Authorised(st, t) || !st.workers[t].pc.Idle? || !st.workers[t].copy.phase.WaitExternalMerge? || |st.confirmations| != 1
       || !PlanVerdict(st.workers[t].copy.groups, st.provider, Some(st.confirmations[0]), st.now).Stable? then None
    else Some(Saved(st, t, GitOpsApplied, Collected(st.workers[t].copy.groups, st.provider)))
  }

  /** Any observer may classify an early merge; with a confirmation only against that confirmation. */
  function DisapproveTx(st: State): Option<State> {
    var confirmation := if |st.confirmations| == 1 then Some(st.confirmations[0]) else None;
    if Settled(st.record.phase) || |st.record.groups| != |st.provider|
       || !MergedEarly(st.record.groups, st.provider, confirmation, st.now) then None
    else Some(st.(record := Record(UnapprovedEffect, st.record.groups, NO_ID, 0)))
  }

  // ----- the invariant -----

  predicate WorkerOk(st: State, t: Id)
    requires t in st.workers
  {
    var w := st.workers[t];
    && t != NO_ID
    && (st.record.leaseOwner == t ==> w.copy.groups == st.record.groups && w.copy.phase == st.record.phase)
    && (w.pc.Latched? ==>
          w.pc.group < |st.provider| == |st.record.groups| && st.provider[w.pc.group].sends == 0 && st.record.groups[w.pc.group].sendStarted)
    && (w.pc.Latched? || w.pc.Sent? ==> st.record.phase != ReconcileEffects)
  }

  predicate GroupOk(st: State, i: nat)
    requires i < |st.provider| == |st.record.groups|
  {
    && st.provider[i].sends <= 1
    && (st.provider[i].sends == 1 ==> st.record.groups[i].sendStarted)
    && (st.provider[i].mergedAt.Some? ==> st.provider[i].sends == 1)
    && (st.record.groups[i].sendStarted ==> st.record.groups[i].written)
  }

  predicate Inv(st: State) {
    && |st.provider| == |st.record.groups| && |st.confirmations| <= 1
    && (forall t :: t in st.workers ==> WorkerOk(st, t))
    && (forall t, u :: t in st.workers && u in st.workers && st.workers[t].pc.Latched? && st.workers[u].pc == st.workers[t].pc ==> t == u)
    && (forall i :: 0 <= i < |st.provider| ==> GroupOk(st, i))
    && (forall i :: 0 <= i < |st.confirmations| ==> st.confirmations[i] <= st.now)
    && (st.record.phase == ReconcileEffects ==> st.record.groups == [])
    && (st.confirmations != [] ==> st.record.phase in {WaitExternalMerge, GitOpsApplied, UnapprovedEffect})
    && (st.record.phase.GitOpsApplied? ==> |st.confirmations| == 1 && AllApproved(st))
  }

  /** Every written group was merged strictly after the one confirmation. */
  predicate AllApproved(st: State)
    requires |st.confirmations| == 1 && |st.provider| == |st.record.groups|
  {
    forall i :: 0 <= i < |st.record.groups| && st.record.groups[i].written ==>
      && st.record.groups[i].mergedAt == st.provider[i].mergedAt
      && Approved(st.record.groups[i].mergedAt, st.confirmations[0], st.now)
  }

  predicate Initial(st: State) {
    && st.record == Record(ReconcileEffects, [], NO_ID, 0) && st.confirmations == [] && st.provider == []
    && st.workers == map[]
  }

  predicate Enabled(st: State, step: Step, st': State) {
    Inv(st) && Next(st, step) == Some(st')
  }

  lemma LatchKeepsInv(st: State, t: Id, i: nat)
    requires Inv(st) && LatchTx(st, t, i).Some?
    ensures Inv(LatchTx(st, t, i).value)
  {
    var st' := LatchTx(st, t, i).value;
    assert WorkerOk(st, t) && GroupOk(st, i);
    forall u | u in st'.workers ensures WorkerOk(st', u) {
      if u != t { assert WorkerOk(st, u); }
    }
    forall j | 0 <= j < |st'.provider| ensures GroupOk(st', j) {
      assert GroupOk(st, j);
    }
    forall u | u in st.workers ensures st.workers[u].pc != Latched(i) {
      assert WorkerOk(st, u);
    }
  }

  lemma SendKeepsInv(st: State, t: Id)
    requires Inv(st) && SendTx(st, t).Some?
    ensures Inv(SendTx(st, t).value)
  {
    var st' := SendTx(st, t).value;
    assert WorkerOk(st, t);
    forall u | u in st'.workers ensures WorkerOk(st', u) {
      if u != t { assert WorkerOk(st, u); }
    }
    forall j | 0 <= j < |st'.provider| ensures GroupOk(st', j) {
      assert GroupOk(st, j);
    }
  }

  /** Saves store the owner's groups with at most more known about them. */
  lemma SaveKeepsInv(st: State, t: Id, phase: Phase, groups: seq<Group>)
    requires Inv(st) && Authorised(st, t) && |groups| == |st.provider|
    requires forall i :: 0 <= i < |groups| ==>
               groups[i].sendStarted == st.record.groups[i].sendStarted && groups[i].written == st.record.groups[i].written
    requires phase != ReconcileEffects && st.record.phase != ReconcileEffects
    requires st.confirmations != [] ==> phase in {WaitExternalMerge, GitOpsApplied}
    requires phase.GitOpsApplied? ==> |st.confirmations| == 1 && AllApproved(Saved(st, t, phase, groups))
    ensures Inv(Saved(st, t, phase, groups))
  {
    var st' := Saved(st, t, phase, groups);
    forall u | u in st'.workers ensures WorkerOk(st', u) {
      assert WorkerOk(st, u);
    }
    forall j | 0 <= j < |st'.provider| ensures GroupOk(st', j) {
      assert GroupOk(st, j);
    }
  }

  lemma PlanKeepsInv(st: State, t: Id, groups: seq<Group>)
    requires Inv(st) && Next(st, Plan(t, groups)).Some?
    ensures Inv(Next(st, Plan(t, groups)).value)
  {
    var st' := Next(st, Plan(t, groups)).value;
    assert WorkerOk(st, t);
    forall u | u in st'.workers ensures WorkerOk(st', u) {
      assert WorkerOk(st, u);
    }
  }

  lemma ApplyKeepsInv(st: State, t: Id)
    requires Inv(st) && ApplyTx(st, t).Some?
    ensures Inv(ApplyTx(st, t).value)
  {
    assert WorkerOk(st, t);
    var groups := st.workers[t].copy.groups;
    var saved := Saved(st, t, GitOpsApplied, Collected(groups, st.provider));
    forall i | 0 <= i < |groups| && groups[i].written
      ensures Approved(st.provider[i].mergedAt, st.confirmations[0], st.now)
    {
      assert GroupVerdict(groups[i], st.provider[i], Some(st.confirmations[0]), st.now).Stable?;
    }
    SaveKeepsInv(st, t, GitOpsApplied, Collected(groups, st.provider));
  }

  /** Steps of the provider: reports about proposals that were sent. */
  lemma ProviderKeepsInv(st: State, i: nat, p: Proposal)
    requires Inv(st) && i < |st.provider| && st.provider[i].mergedAt.None?
    requires st.provider[i].sends > 0 && p.sends == st.provider[i].sends
    ensures Inv(st.(provider := st.provider[i := p]))
  {
    var st' := st.(provider := st.provider[i := p]);
    forall u | u in st'.workers ensures WorkerOk(st', u) {
      assert WorkerOk(st, u);
    }
    forall j | 0 <= j < |st'.provider| ensures GroupOk(st', j) {
      assert GroupOk(st, j);
    }
  }

  /** Steps that leave the plan, the provider and the confirmations alone. */
  lemma LeaseKeepsInv(st: State, st': State)
    requires Inv(st) && st'.provider == st.provider && st'.record.groups == st.record.groups
    requires st'.record.phase == st.record.phase || st'.record.phase == UnapprovedEffect
    requires st'.now >= st.now && st'.confirmations == st.confirmations
    requires st.record.phase == ReconcileEffects ==> st'.record.phase == ReconcileEffects
    requires forall t :: t in st'.workers ==>
               || (t in st.workers && st'.workers[t] == st.workers[t]
                   && (st'.record.leaseOwner != t || st'.record == st.record))
               || (t != NO_ID && st'.workers[t] == Worker(st'.record, Idle))
    ensures Inv(st')
  {
    forall u | u in st'.workers ensures WorkerOk(st', u) {
      if u in st.workers { assert WorkerOk(st, u); }
    }
    forall j | 0 <= j < |st'.provider| ensures GroupOk(st', j) {
      assert GroupOk(st, j);
    }
  }

  lemma NextInv(st: State, step: Step, st': State)
    requires Enabled(st, step, st')
    ensures Inv(st')
  {
    hide WorkerOk, GroupOk, PlanVerdict, LatchTx, SendTx, ApplyTx, AllApproved;
    match step
    case Plan(t, groups) => PlanKeepsInv(st, t, groups);
    case Latch(t, i) => LatchKeepsInv(st, t, i);
    case Send(t) => SendKeepsInv(st, t);
    case Discover(t, i) => DiscoverKeepsInv(st, t, i);
    case AwaitMerge(t) => AwaitKeepsInv(st, t);
    case Confirm(observed) => ConfirmKeepsInv(st, observed);
    case Apply(t) => ApplyKeepsInv(st, t);
    case Merge(i, at) => ProviderKeepsInv(st, i, st'.provider[i]);
    case Toggle(i) => ProviderKeepsInv(st, i, st'.provider[i]);
    case Claim(t) => LeaseKeepsInv(st, st');
    case Retry(t) => RetryKeepsInv(st, t);
    case _ => RestKeepsInv(st, step, st');
  }

  lemma RetryKeepsInv(st: State, t: Id)
    requires Inv(st) && Next(st, Retry(t)).Some?
    ensures Inv(Next(st, Retry(t)).value)
  {
    forall u | u in st.workers ensures u != NO_ID { assert WorkerOk(st, u); }
    LeaseKeepsInv(st, Next(st, Retry(t)).value);
  }

  lemma RestKeepsInv(st: State, step: Step, st': State)
    requires Enabled(st, step, st') && (step.Elapse? || step.Crash? || step.Disapprove?)
    ensures Inv(st')
  {
    forall u | u in st.workers ensures u != NO_ID { assert WorkerOk(st, u); }
    LeaseKeepsInv(st, st');
  }

  lemma DiscoverKeepsInv(st: State, t: Id, i: nat)
    requires Inv(st) && DiscoverTx(st, t, i).Some?
    ensures Inv(DiscoverTx(st, t, i).value)
  {
    assert WorkerOk(st, t);
    var groups := st.workers[t].copy.groups;
    SaveKeepsInv(st, t, PrepareProposals, groups[i := groups[i].(proposal := true)]);
  }

  lemma AwaitKeepsInv(st: State, t: Id)
    requires Inv(st) && Next(st, AwaitMerge(t)).Some?
    ensures Inv(Next(st, AwaitMerge(t)).value)
  {
    assert WorkerOk(st, t);
    SaveKeepsInv(st, t, WaitExternalMerge, st.workers[t].copy.groups);
  }

  lemma ConfirmKeepsInv(st: State, observed: Record)
    requires Inv(st) && Next(st, Confirm(observed)).Some?
    ensures Inv(Next(st, Confirm(observed)).value)
  {
    var st' := Next(st, Confirm(observed)).value;
    forall u | u in st'.workers ensures WorkerOk(st', u) {
      assert WorkerOk(st, u);
    }
    forall j | 0 <= j < |st'.provider| ensures GroupOk(st', j) {
      assert GroupOk(st, j);
    }
  }

  // ----- runs -----

  predicate IsRun(states: seq<State>, steps: seq<Step>) {
    && |states| == |steps| + 1 && Initial(states[0])
    && forall i {:trigger steps[i]} :: 0 <= i < |steps| ==> Next(states[i], steps[i]) == Some(states[i + 1])
  }

  lemma {:induction false} RunInv(states: seq<State>, steps: seq<Step>, i: nat)
    requires IsRun(states, steps) && i < |states|
    ensures Inv(states[i])
  {
    if i > 0 {
      hide Inv, Next;
      RunInv(states, steps, i - 1);
      assert Next(states[i - 1], steps[i - 1]) == Some(states[i]);
      NextInv(states[i - 1], steps[i - 1], states[i]);
    } else {
      assert Initial(states[0]);
    }
  }

  lemma RunEnabled(states: seq<State>, steps: seq<Step>, i: nat)
    requires IsRun(states, steps) && i < |steps|
    ensures Enabled(states[i], steps[i], states[i + 1])
  {
    hide Inv, Next;
    RunInv(states, steps, i);
    assert Next(states[i], steps[i]) == Some(states[i + 1]);
  }

  /** Every group's proposal is sent at most once in a generation, whoever holds the lease when. */
  lemma SentOnce(states: seq<State>, steps: seq<Step>, i: nat, g: nat)
    requires IsRun(states, steps) && i < |states| && g < |states[i].provider|
    ensures states[i].provider[g].sends <= 1
  {
    RunInv(states, steps, i);
    assert GroupOk(states[i], g);
  }

  /** At most one confirmation, under any number of concurrent requests. */
  lemma ConfirmedOnce(states: seq<State>, steps: seq<Step>, i: nat)
    requires IsRun(states, steps) && i < |states|
    ensures |states[i].confirmations| <= 1
  {
    RunInv(states, steps, i);
  }

  /** A generation counts as applied only if every written group merged strictly after the confirmation. */
  lemma AppliedMeansApproved(states: seq<State>, steps: seq<Step>, i: nat, g: nat)
    requires IsRun(states, steps) && i < |states| && states[i].record.phase.GitOpsApplied?
    requires g < |states[i].record.groups| && states[i].record.groups[g].written
    ensures |states[i].confirmations| == 1 && states[i].record.groups[g].mergedAt.Some?
    ensures states[i].confirmations[0] < states[i].record.groups[g].mergedAt.value <= states[i].now
  {
    RunInv(states, steps, i);
  }

  // ----- what never goes back -----

  predicate LatchesKept(a: State, b: State) {
    && (a.record.phase != ReconcileEffects ==> |b.record.groups| == |a.record.groups| && b.record.phase != ReconcileEffects)
    && (a.record.phase != ReconcileEffects ==>
          forall g :: 0 <= g < |a.record.groups| ==>
            && b.record.groups[g].written == a.record.groups[g].written
            && (a.record.groups[g].sendStarted ==> b.record.groups[g].sendStarted)
            && (a.record.groups[g].proposal ==> b.record.groups[g].proposal))
    && a.confirmations <= b.confirmations && a.now <= b.now
    && (Settled(a.record.phase) ==> b.record == a.record && b.confirmations == a.confirmations)
    && |a.provider| <= |b.provider|
    && (forall g :: 0 <= g < |a.provider| && a.provider[g].mergedAt.Some? ==> b.provider[g].mergedAt == a.provider[g].mergedAt)
  }

  lemma StepKeepsLatches(st: State, step: Step, st': State)
    requires Enabled(st, step, st')
    ensures LatchesKept(st, st')
  {
    hide PlanVerdict, GroupOk;
    if step.Latch? || step.Discover? || step.AwaitMerge? || step.Apply? || step.Plan? {
      if step.token in st.workers {
        assert WorkerOk(st, step.token);
      }
    }
  }

  lemma LatchesTransitive(a: State, b: State, c: State)
    requires LatchesKept(a, b) && LatchesKept(b, c)
    ensures LatchesKept(a, c)
  {
  }

  /** The send latch never resets, proposals are never forgotten and settled generations never change. */
  lemma {:induction false} LatchNeverResets(states: seq<State>, steps: seq<Step>, i: nat, j: nat)
    requires IsRun(states, steps) && i <= j < |states|
    ensures LatchesKept(states[i], states[j])
    decreases j - i
  {
    if i < j {
      hide Inv, Next;
      LatchNeverResets(states, steps, i, j - 1);
      RunEnabled(states, steps, j - 1);
      StepKeepsLatches(states[j - 1], steps[j - 1], states[j]);
      hide LatchesKept;
      LatchesTransitive(states[i], states[j - 1], states[j]);
    }
  }

  /**
    An external merge reported while no confirmation exists can never be adopted: the
    generation is not applied in that state nor in any later one.
   */
  lemma EarlyMergeNeverApplied(states: seq<State>, steps: seq<Step>, i: nat, j: nat, g: nat)
    requires IsRun(states, steps) && i <= j < |states|
    requires states[i].confirmations == [] && g < |states[i].provider|
    requires states[i].provider[g].mergedAt.Some? && states[i].provider[g].mergedAt.value <= states[i].now
    ensures !states[j].record.phase.GitOpsApplied?
  {
    hide Next;
    RunInv(states, steps, i);
    RunInv(states, steps, j);
    LatchNeverResets(states, steps, i, j);
    assert GroupOk(states[i], g);
    ConfirmedLater(states, steps, i, j);
  }

  /** A confirmation that a state lacks can only be dated from that state's time on. */
  lemma {:induction false} ConfirmedLater(states: seq<State>, steps: seq<Step>, i: nat, j: nat)
    requires IsRun(states, steps) && i <= j < |states| && states[i].confirmations == []
    ensures forall k :: 0 <= k < |states[j].confirmations| ==> states[i].now <= states[j].confirmations[k]
    decreases j - i
  {
    if i < j {
      hide Inv;
      ConfirmedLater(states, steps, i, j - 1);
      LatchNeverResets(states, steps, i, j - 1);
      assert Next(states[j - 1], steps[j - 1]) == Some(states[j]);
      ConfirmsNow(states[j - 1], steps[j - 1], states[j]);
    }
  }

  lemma ConfirmsNow(st: State, step: Step, st': State)
    requires Next(st, step) == Some(st')
    ensures st'.confirmations == st.confirmations || st'.confirmations == st.confirmations + [st.now]
  {
    hide PlanVerdict;
  }

  /** Group `g` was merged and, at time `now`, the merge was not covered by the confirmation, if there is one. */
  predicate Uncovered(st: State, g: nat, now: nat) {
    && g < |st.record.groups| && g < |st.provider| && st.record.groups[g].written && st.provider[g].mergedAt.Some?
    && (st.confirmations == [] || !Approved(st.provider[g].mergedAt, st.confirmations[0], now))
  }

  lemma DisapprovesEarly(st: State) returns (g: nat)
    requires Inv(st) && DisapproveTx(st).Some?
    ensures Uncovered(st, g, st.now) && Uncovered(DisapproveTx(st).value, g, st.now)
  {
    var confirmation := if |st.confirmations| == 1 then Some(st.confirmations[0]) else None;
    g :| 0 <= g < |st.record.groups| && GroupVerdict(st.record.groups[g], st.provider[g], confirmation, st.now).Unapproved?;
  }

  lemma OnlyDisapproveMarks(st: State, step: Step, st': State)
    requires Next(st, step) == Some(st') && st'.record.phase.UnapprovedEffect? && !st.record.phase.UnapprovedEffect?
    ensures step.Disapprove? && DisapproveTx(st) == Some(st')
  {
    hide PlanVerdict, MergedEarly, IsPending;
  }

  /** The failure mark has been set by one step of the run. */
  lemma {:induction false} MarkedAt(states: seq<State>, steps: seq<Step>, i: nat) returns (m: nat)
    requires IsRun(states, steps) && i < |states| && states[i].record.phase.UnapprovedEffect?
    ensures m < i && steps[m] == Disapprove && DisapproveTx(states[m]) == Some(states[m + 1])
  {
    hide Next, DisapproveTx, Inv;
    assert Initial(states[0]);
    assert Next(states[i - 1], steps[i - 1]) == Some(states[i]);
    if states[i - 1].record.phase.UnapprovedEffect? {
      m := MarkedAt(states, steps, i - 1);
    } else {
      m := i - 1;
      OnlyDisapproveMarks(states[m], steps[m], states[i]);
    }
  }

  lemma UncoveredStays(a: State, b: State, g: nat, now: nat)
    requires LatchesKept(a, b) && Settled(a.record.phase) && Uncovered(a, g, now)
    ensures Uncovered(b, g, now) && b.record.phase == a.record.phase
  {
  }

  /**
    A failed generation stays failed: it is never applied, and a written group of it carries a
    merge on the provider that its confirmation, which can no longer be given, did not cover when
    the mark was set. So approved and pending merges cannot poison a winner.
   */
  lemma DisapprovedMeansEarly(states: seq<State>, steps: seq<Step>, i: nat, j: nat) returns (m: nat, g: nat)
    requires IsRun(states, steps) && i <= j < |states| && states[i].record.phase.UnapprovedEffect?
    ensures m < i && steps[m] == Disapprove && Uncovered(states[m], g, states[m].now)
    ensures states[j].record.phase.UnapprovedEffect? && Uncovered(states[j], g, states[m].now)
    ensures states[j].confirmations == states[m].confirmations
  {
    m := MarkedAt(states, steps, i);
    RunInv(states, steps, m);
    g := DisapprovesEarly(states[m]);
    LatchNeverResets(states, steps, m + 1, j);
    hide IsRun, Inv, MergedEarly, Approved;
    UncoveredStays(states[m + 1], states[j], g, states[m].now);
  }
}
