/** The recovery worker's transactions as they run, over the stored record of one generation. */
module RestorationStore {
  import opened Ids
  import opened RestorationSend

  method ObservePlan(groups: seq<Group>, provider: seq<Proposal>, confirmation: Option<nat>, now: nat) returns (v: Verdict)
    requires |groups| == |provider|
    ensures v == PlanVerdict(groups, provider, confirmation, now)
  {
    var i := 0;
    assert groups[0..] == groups && provider[0..] == provider;
    while i < |groups|
      invariant i <= |groups|
      invariant PlanVerdict(groups, provider, confirmation, now) == PlanVerdict(groups[i..], provider[i..], confirmation, now)
    {
      assert groups[i..][1..] == groups[i + 1..] && provider[i..][1..] == provider[i + 1..];
      var g, p := groups[i], provider[i];
      if g.written {
        if !g.proposal || !g.sendStarted { return Unknown; }
        if confirmation.Some? {
          if p.mergedAt.None? { return Unknown; }
          if !(confirmation.value < p.mergedAt.value <= now) { return Unapproved; }
        } else if p.mergedAt.Some? {
          return Unapproved;
        } else if !p.open {
          return Unknown;
        }
      }
      i := i + 1;
    }
    return Stable;
  }

  /** Whether some group was merged without a confirmation that covers it. */
  method SeesEarlyMerge(groups: seq<Group>, provider: seq<Proposal>, confirmation: Option<nat>, now: nat) returns (early: bool)
    requires |groups| == |provider|
    ensures early == MergedEarly(groups, provider, confirmation, now)
  {
    var i := 0;
    while i < |groups|
      invariant i <= |groups|
      invariant forall j :: 0 <= j < i ==> !GroupVerdict(groups[j], provider[j], confirmation, now).Unapproved?
    {
      if GroupVerdict(groups[i], provider[i], confirmation, now).Unapproved? { return true; }
      i := i + 1;
    }
    return false;
  }

  class RecoveryRecord {
    var phase: Phase
    var groups: seq<Group>
    var leaseOwner: Id
    var leaseUntil: nat
    var confirmations: seq<nat>

    function View(): Record
      reads this
    {
      Record(phase, groups, leaseOwner, leaseUntil)
    }

    constructor (record: Record, receipts: seq<nat>)
      ensures View() == record && confirmations == receipts
    {
      phase, groups, leaseOwner, leaseUntil := record.phase, record.groups, record.leaseOwner, record.leaseUntil;
      confirmations := receipts;
    }

    /** A state of the run theorems with this record and these confirmations. */
    predicate Shows(st: State, now: nat)
      reads this
    {
      st.record == View() && st.confirmations == confirmations && st.now == now
    }

    predicate LeaseLive(t: Id, now: nat)
      reads this
    {
      leaseOwner == t && leaseUntil > now && !Settled(phase)
    }

    /** The first group without a known proposal. */
    method NextPending(copy: seq<Group>) returns (next: Option<nat>)
      ensures next.Some? ==> IsPending(copy, next.value)
      ensures next.None? ==> NonePending(copy)
    {
      var i := 0;
      while i < |copy|
        invariant i <= |copy|
        invariant forall j :: 0 <= j < i ==> !(copy[j].written && !copy[j].proposal)
      {
        if copy[i].written && !copy[i].proposal { return Some(i); }
        i := i + 1;
      }
      return None;
    }

    /**
      The send marker of the next pending group, if it has none: stored under a live lease, the
      phase and the lease kept. For a worker in its proposal phase that is the latch step of the
      run theorems, and the only one that is enabled.
     */
    method LatchSend(t: Id, copy: seq<Group>, now: nat, ghost st: State) returns (sent: Option<nat>)
      requires Shows(st, now) && t in st.workers && st.workers[t].copy.groups == copy && |copy| == |st.provider|
      requires st.workers[t].pc.Idle? && st.workers[t].copy.phase.PrepareProposals?
      modifies this`groups
      ensures forall i: nat :: Next(st, Latch(t, i)).Some? <==> sent == Some(i)
      ensures View() == if sent.Some? then Next(st, Latch(t, sent.value)).value.record else old(View())
    {
      var next := NextPending(copy);
      if next.None? || copy[next.value].sendStarted { return None; }
      if leaseOwner != t || leaseUntil <= now || Settled(phase) { return None; }
      var i := next.value;
      groups := copy[i := copy[i].(sendStarted := true)];
      return next;
    }

    /** The save that every other trip of a worker ends with; it gives up the lease. */
    method SaveRestoration(t: Id, copy: seq<Group>, next: Phase, now: nat, ghost st: State) returns (saved: bool)
      requires Shows(st, now) && t in st.workers && |st.workers[t].copy.groups| == |st.provider|
      modifies this`phase, this`groups, this`leaseOwner, this`leaseUntil
      ensures saved == Authorised(st, t)
      ensures View() == if saved then Saved(st, t, next, copy).record else old(View())
    {
      if leaseOwner != t || leaseUntil <= now || Settled(phase) { return false; }
      groups, phase := copy, next;
      leaseOwner, leaseUntil := NO_ID, 0;
      return true;
    }

    /** Distinct requests may race; the append admits the first and refuses the rest. */
    method Confirm(observed: Record, now: nat, ghost st: State) returns (confirmed: bool)
      requires Shows(st, now)
      modifies this`confirmations
      ensures confirmed == Next(st, Step.Confirm(observed)).Some?
      ensures confirmations == if confirmed then Next(st, Step.Confirm(observed)).value.confirmations else old(confirmations)
      ensures confirmed ==> confirmations == [now]
    {
      if Settled(phase) || View() != observed || !observed.phase.WaitExternalMerge? { return false; }
      if |confirmations| > 0 { return false; }
      confirmations := confirmations + [now];
      return true;
    }

    /** Merge times are stored group by group, stopping at the first the confirmation does not cover. */
    method CollectResults(copy: seq<Group>, provider: seq<Proposal>, confirmedAt: nat, now: nat)
      returns (result: Option<seq<Group>>)
      requires |copy| == |provider|
      ensures result.Some? <==>
              forall i :: 0 <= i < |copy| && copy[i].written ==> copy[i].proposal && Approved(provider[i].mergedAt, confirmedAt, now)
      ensures result.Some? ==> result.value == Collected(copy, provider)
    {
      var collected := copy;
      var i := 0;
      while i < |copy|
        invariant i <= |copy| == |collected|
        invariant forall j :: 0 <= j < i && copy[j].written ==> copy[j].proposal && Approved(provider[j].mergedAt, confirmedAt, now)
        invariant forall j :: 0 <= j < i ==> collected[j] == Collected(copy, provider)[j]
        invariant forall j :: i <= j < |copy| ==> collected[j] == copy[j]
      {
        if copy[i].written {
          if !copy[i].proposal || !Approved(provider[i].mergedAt, confirmedAt, now) { return None; }
          collected := collected[i := copy[i].(mergedAt := provider[i].mergedAt)];
        }
        i := i + 1;
      }
      return Some(collected);
    }

    /** The failure mark: the record is the one observed, and the merges are classified against the confirmation of now. */
    method MarkUnapproved(observed: Record, provider: seq<Proposal>, now: nat, ghost st: State) returns (marked: bool)
      requires Shows(st, now) && provider == st.provider && |groups| == |provider|
      modifies this`phase, this`leaseOwner, this`leaseUntil
      ensures marked <==> old(View()) == observed && Next(st, Disapprove).Some?
      ensures View() == if marked then Next(st, Disapprove).value.record else old(View())
    {
      if Settled(phase) || View() != observed { return false; }
      var confirmation := None;
      if |confirmations| == 1 { confirmation := Some(confirmations[0]); }
      var early := SeesEarlyMerge(groups, provider, confirmation, now);
      if !early { return false; }
      phase := UnapprovedEffect;
      leaseOwner, leaseUntil := NO_ID, 0;
      return true;
    }
  }
}
