/** The check publication as it runs: the desired write filled in step by step, and both transactions. */
module CheckRunStore {
  import opened Ids
  import opened CheckRun

  /** Later rules overwrite earlier ones; the result is the precedence of `Desired`. */
  method DesiredCheck(j: Job, identity: Id, observed: Option<Observation>, now: nat) returns (w: Option<Write>)
    ensures w == Desired(j, identity, observed, now)
  {
    var id := 0;
    if observed.Some? { id := observed.value.id; }
    var status, conclusion, terminal := QueuedRun, NoConclusion, false;
    match j.status {
      case Queued =>
      case ClaimedJob => status := InProgress;
      case RunningJob => status := InProgress;
      case ReconciliationRequired => status := InProgress;
      case SucceededJob =>
        if !j.receipt { return None; }
        terminal, conclusion := true, Success;
      case FailedJob => terminal, conclusion := true, Failure;
      case CancelledJob => terminal, conclusion := true, Cancelled;
      case DeadlineExceeded => terminal, conclusion := true, TimedOut;
    }
    if j.status == FailedJob && now >= j.deadline && j.updatedAt >= j.deadline {
      if j.expired { terminal, conclusion := true, TimedOut; }
    }
    if now >= j.deadline && !terminal { terminal, conclusion := true, TimedOut; }
    if j.cancelRequested { terminal, conclusion := true, Cancelled; }
    if j.sourceProof && (!terminal || conclusion == Success) && !j.managed { terminal, conclusion := true, Cancelled; }
    if observed.Some? && observed.value.status == InProgress && status == QueuedRun { status := InProgress; }
    var startedAt, completedAt := 0, 0;
    if terminal {
      status := Completed;
      completedAt := j.updatedAt;
      if conclusion == TimedOut { completedAt := j.deadline; }
    }
    if status != QueuedRun { startedAt := j.createdAt; }
    return Some(Write(id, identity, status, conclusion, startedAt, completedAt, Output(status, conclusion, j.status)));
  }

  class Publication {
    var op: Op

    constructor (initial: Op)
      ensures op == initial
    {
      op := initial;
    }

    /** Persists what is about to be asked of the provider, and counts it, before it is asked. */
    method PrepareCall(job: Job, now: nat, authority: bool, successAuthority: bool) returns (call: Option<Call>)
      modifies this
      ensures (op, call) == Prepare(old(op), job, now, authority, successAuthority)
    {
      call := None;
      if now >= op.finalizeDeadline || op.observations >= BUDGET { op := Fail(op, BudgetExhausted); return; }
      if !authority { op := Fail(op, AuthorityChanged); return; }
      var desired := DesiredCheck(job, op.identity, op.observed, now);
      if desired.None? { op := Fail(op, ResultInvalid); return; }
      if desired.value.conclusion == Success && !successAuthority { op := Fail(op, AuthorityChanged); return; }
      var action := Create;
      match op.phase {
        case CreateReady =>
          var w := InitialWrite(op.identity);
          op := op.(intent := Some(w), sealed := Some(w), phase := CreateUncertain);
        case CreateUncertain => action := Find;
        case UpdateUncertain => action := Read;
        case Observe =>
          if op.observed.None? { op := Fail(op, ObservationMissing); return; }
          if op.observed.value.status == Completed { op := Fail(op, TerminalMismatch); return; }
          if Matches(op.observed.value, desired.value) { op := Release(op.(status := Running)); return; }
          op := op.(intent := desired, sealed := desired, phase := UpdateUncertain);
          action := Update;
      }
      if op.intent.None? || op.sealed != op.intent { op := Fail(op, IntentInvalid); return; }
      op := op.(observations := op.observations + 1);
      call := Some(Call(op.observations, action, op.intent.value));
    }

    method ConcludeCall(call: Call, answer: Option<Observation>, now: nat, authority: bool) returns (committed: bool)
      modifies this
      ensures committed == Conclude(old(op), call, answer, now, authority).Some?
      ensures op == if committed then Conclude(old(op), call, answer, now, authority).value else old(op)
    {
      if op.sealed != Some(call.intent) || op.observations != call.number || op.intent.None? { return false; }
      if !authority { op := Fail(op, AuthorityChanged); return true; }
      if now >= op.finalizeDeadline { op := Fail(op, FinalizationExpired); return true; }
      if answer.Some? && answer.value.found && answer.value.identity != op.identity {
        op := Fail(op, IdentityMismatch);
        return true;
      }
      if answer.None? || !Matches(answer.value, op.intent.value) {
        op := Release(op.(status := Running));
        return true;
      }
      op := op.(observed := answer, phase := Observe, status := Running);
      if answer.value.status == Completed { op := op.(status := Succeeded); }
      op := Release(op);
      return true;
    }
  }
}
