/** The worker's transactions as they run: the claim scan, the guarded save and the intent latch. */
module WorkerStore {
  import opened Ids
  import opened WorkerModel

  /** Loops with a counter: exactly one source changed, and it is the acknowledged one. */
  method ConfirmedSourceMutation(before: seq<Source>, after: seq<Source>, phaseBefore: Phase, phase: Phase, e: Evidence)
    returns (confirmed: bool)
    ensures confirmed == Confirmed(before, after, phaseBefore, phase, e)
  {
    if phaseBefore != phase || |before| != |after| || |before| == 0 {
      return false;
    }
    var acknowledged := 0;
    ghost var at := 0;
    var i := 0;
    while i < |before|
      invariant i <= |before|
      invariant acknowledged == 0 ==> forall j :: 0 <= j < i ==> before[j] == after[j]
      invariant acknowledged > 0 ==> at < i && before[at] != after[at] && Acknowledges(before[at], after[at], phase, e)
      invariant acknowledged == 1 ==> forall j :: 0 <= j < i && j != at ==> before[j] == after[j]
      invariant acknowledged > 1 ==> exists j :: 0 <= j < i && j != at && before[j] != after[j]
    {
      if before[i] != after[i] {
        if !Acknowledges(before[i], after[i], phase, e) {
          return false;
        }
        if acknowledged == 0 { at := i; }
        acknowledged := acknowledged + 1;
      }
      i := i + 1;
    }
    return acknowledged == 1;
  }

  /** The intent a save stores: kept, raised by the phase it enters, cleared by its evidence. */
  method SettleIntent(current: Op, copy: Op, s: Save, verdict: Verdict) returns (intent: Intent)
    requires verdict == Judged(copy, s)
    ensures intent == SavedIntent(current, copy, s)
  {
    hide Confirmed;
    intent := copy.intent;
    if current.intent != NoIntent { intent := current.intent; }
    if s.phase == ApplyUncertain { intent := GitOpsIntent; }
    if s.phase == BuildLookup && !s.release { intent := BuildIntent; }
    if intent == GitOpsIntent
       && (s.applied || (s.pr.PR? && s.pr.number > 0 && (s.phase == WaitGitOpsPR || s.pr.closed))) {
      return NoIntent;
    }
    if intent == BuildIntent && s.run == Completed { return NoIntent; }
    if intent == SourceIntent && !Failing(verdict) {
      var confirmed := ConfirmedSourceMutation(current.sources, s.sources, current.phase, s.phase, s.evidence);
      if confirmed { return NoIntent; }
    }
  }

  method SettleStatus(copy: Op, s: Save, verdict: Verdict) returns (status: Status)
    requires verdict == Judged(copy, s)
    ensures status == SavedStatus(copy, s)
  {
    match verdict {
      case Finishes => status := Succeeded;
      case ArtifactReady =>
        status := Running;
        if copy.buildOnly && s.phase == Apply && s.release { status := Succeeded; }
      case Fails => status := Failed;
      case Blocks => status := Failed;
      case Cancels => status := Cancelled;
      case Continues => status := Running;
    }
  }

  /** A state of the run theorems with this log, these jobs and fences. */
  predicate Shows(st: State, ops: seq<Op>, jobs: seq<Jobs>, fences: map<Id, Fence>, now: nat) {
    && st.ops == ops && st.jobs == jobs && st.fences == fences && st.now == now
    && |st.ledgers| == |ops| == |jobs| && forall t :: t in st.workers ==> st.workers[t].index < |ops|
  }

  class OperationStore {
    var ops: seq<Op>
    var jobs: seq<Jobs>
    var fences: map<Id, Fence>

    constructor (initial: seq<Op>, managed: seq<Jobs>, environments: map<Id, Fence>)
      ensures ops == initial && jobs == managed && fences == environments
    {
      ops, jobs, fences := initial, managed, environments;
    }

    /**
      The scan of one tick: it leases the operation that every other eligible one follows. In any
      state `st` with this log that is the claim step, and no other claim is enabled.
     */
    method Claim(token: Id, now: nat, ghost st: State) returns (claimed: Option<nat>)
      requires forall i, j :: 0 <= i < j < |ops| ==> ops[i].id != ops[j].id
      requires Shows(st, ops, jobs, fences, now)
      requires token != NO_ID && token !in st.workers && forall i :: 0 <= i < |ops| ==> ops[i].leaseOwner != token
      modifies this`ops
      ensures claimed.Some? <==> exists i :: 0 <= i < |old(ops)| && Eligible(old(ops)[i], now)
      ensures forall i: nat :: Next(st, Step.Claim(token, i)).Some? <==> claimed == Some(i)
      ensures ops == if claimed.Some? then Next(st, Step.Claim(token, claimed.value)).value.ops else old(ops)
    {
      claimed := None;
      var i := 0;
      while i < |ops|
        invariant i <= |ops| && ops == old(ops)
        invariant claimed.None? ==> forall j :: 0 <= j < i ==> !Eligible(ops[j], now)
        invariant claimed.Some? ==> claimed.value < i && Eligible(ops[claimed.value], now)
        invariant claimed.Some? ==> forall j :: 0 <= j < i && j != claimed.value && Eligible(ops[j], now) ==>
                    Before(ops[claimed.value], ops[j])
      {
        if Eligible(ops[i], now) && (claimed.None? || Before(ops[i], ops[claimed.value])) {
          claimed := Some(i);
        }
        i := i + 1;
      }
      forall j: nat ensures IsChoice(ops, now, j) <==> claimed == Some(j) {
        if claimed.Some? { OneChoice(ops, now, claimed.value, j); }
      }
      if claimed.Some? {
        ops := ops[claimed.value := Leased(ops[claimed.value], token, now)];
      }
    }

    /** Whether anything in an environment may still be under way. */
    method HasUnresolvedEffects(environment: Id) returns (unresolved: bool)
      requires |jobs| == |ops|
      ensures unresolved
          <==> exists i :: 0 <= i < |ops| && ops[i].environment == environment && Unresolved(ops[i], jobs[i].publication)
    {
      var i := 0;
      while i < |ops|
        invariant i <= |ops|
        invariant forall j :: 0 <= j < i ==> !(ops[j].environment == environment && Unresolved(ops[j], jobs[j].publication))
      {
        if ops[i].environment == environment && Unresolved(ops[i], jobs[i].publication) {
          return true;
        }
        i := i + 1;
      }
      return false;
    }

    predicate Open(op: Op)
      reads this`fences
    {
      Guarded(op.kind) ==>
        op.environment in fences && !fences[op.environment].held && fences[op.environment].epoch == op.epoch
    }

    /**
      Persists the intent of one external source write, once, under a live lease. For a worker in
      one of the writing phases that is exactly the begin step of the run theorems.
     */
    method BeginMutation(i: nat, token: Id, now: nat, flowOk: bool, ghost st: State) returns (begun: bool)
      requires Shows(st, ops, jobs, fences, now) && token in st.workers && st.workers[token].index == i
      requires st.workers[token].pc.Claimed? && IsFlow(st.workers[token].copy.kind)
      requires st.workers[token].copy.intent == NoIntent && st.workers[token].copy.phase in {ComposeSource, AdvanceMain}
      modifies this`ops
      ensures begun <==> Next(st, Begin(token, flowOk)).Some?
      ensures begun ==> old(ops)[i].intent == NoIntent && ops == Next(st, Begin(token, flowOk)).value.ops
      ensures !begun ==> ops == old(ops)
    {
      var current := ops[i];
      if Terminal(current.status) || current.leaseOwner != token || current.leaseUntil <= now { return false; }
      if !Open(current) || !flowOk { return false; }
      if current.intent != NoIntent { return false; }
      ops := ops[i := current.(intent := SourceIntent)];
      return true;
    }

    /**
      The guarded save: every field is settled in order, then the stored record is replaced. What a
      worker's phase machine offers is saved exactly as the commit step of the run theorems does it.
     */
    method Save(i: nat, copy: Op, token: Id, s: Save, now: nat, ghost st: State) returns (saved: bool)
      requires Shows(st, ops, jobs, fences, now) && i < |ops|
      modifies this`ops
      ensures saved == SaveAdmitted(st, old(ops)[i], copy, token, s)
      ensures ops == if saved then old(ops)[i := SavedOp(old(ops)[i], copy, token, s, now)] else old(ops)
      ensures token in st.workers && st.workers[token].index == i && st.workers[token].copy == copy
              && Offers(st.workers[token], s) && copy.phase != NativeBuild ==>
                saved == Next(st, Commit(token, s)).Some? && (saved ==> ops == Next(st, Commit(token, s)).value.ops)
    {
      hide SavedIntent, SavedStatus, Offers, Next;
      if token in st.workers && st.workers[token].index == i && st.workers[token].copy == copy
         && Offers(st.workers[token], s) && copy.phase != NativeBuild {
        SaveIsCommit(st, token, s);
      }
      var current := ops[i];
      if current.leaseOwner != token { return false; }
      var verdict := s.verdict;
      if !Failing(verdict) {
        if !s.admitted || !Open(copy) { return false; }
        if copy.kind.Compose? && (current.leaseUntil <= now || current.sources != s.sources || current.phase != copy.phase) {
          return false;
        }
        if IsFlow(copy.kind) && !s.flowOk { verdict := Blocks; }
      }
      var intent := SettleIntent(current, copy, s, verdict);
      var op := copy.(run := s.run, pr := s.pr, applied := s.applied, sources := s.sources, intent := intent);
      var status := SettleStatus(copy, s, verdict);
      op := op.(phase := s.phase, nextAttempt := now + 2, status := status);
      if s.phase == BuildLookup || s.phase == WaitChildren || s.phase == WaitGitOpsPR {
        op := op.(nextAttempt := now + 10);
      }
      if s.release {
        op := op.(leaseOwner := NO_ID, leaseUntil := 0);
      } else {
        op := op.(leaseOwner := token, leaseUntil := current.leaseUntil);
      }
      ops := ops[i := op];
      return true;
    }
  }

  /** Outside the build turn a commit is its save. */
  lemma SaveIsCommit(st: State, token: Id, s: Save)
    requires Shows(st, st.ops, st.jobs, st.fences, st.now) && token in st.workers
    requires Offers(st.workers[token], s) && st.workers[token].copy.phase != NativeBuild
    ensures var i, w := st.workers[token].index, st.workers[token];
            Next(st, Commit(token, s)).Some? == SaveAdmitted(st, st.ops[i], w.copy, token, s)
            && (SaveAdmitted(st, st.ops[i], w.copy, token, s) ==>
                  Next(st, Commit(token, s)).value.ops == st.ops[i := SavedOp(st.ops[i], w.copy, token, s, st.now)])
  {
    hide Offers, SavedOp, SaveAdmitted;
  }

  /** The order of the scan leaves one choice. */
  lemma OneChoice(ops: seq<Op>, now: nat, i: nat, j: nat)
    requires i < |ops| && Eligible(ops[i], now)
    requires forall m :: 0 <= m < |ops| && m != i && Eligible(ops[m], now) ==> Before(ops[i], ops[m])
    ensures IsChoice(ops, now, j) <==> j == i
  {
  }
}
