/**
  Publication of a worker's verdict as a provider check run: one create, persisted update
  intents, exact read-back, a bounded number of provider calls.
 */
module CheckRun {
  import opened Ids

  const BUDGET: nat := 64

  datatype JobStatus = Queued | ClaimedJob | RunningJob | ReconciliationRequired
                     | SucceededJob | FailedJob | CancelledJob | DeadlineExceeded

  /**
    The worker job as the publication sees it. `receipt` says that an accepted, on-time
    typed build receipt exists, `expired` that the current attempt expired unreported, and
    `managed` that the job still has the authority a success needs (`noProof` when none is asked).
   */
  datatype Job = Job(status: JobStatus, receipt: bool, expired: bool, cancelRequested: bool, sourceProof: bool,
                     managed: bool, createdAt: nat, updatedAt: nat, deadline: nat)

  datatype RunStatus = QueuedRun | InProgress | Completed
  datatype Conclusion = NoConclusion | Success | Failure | Cancelled | TimedOut

  datatype Output = Output(status: RunStatus, conclusion: Conclusion, job: JobStatus)

  /** A desired provider state; `id` 0 asks for a new run, times 0 are absent. */
  datatype Write = Write(id: nat, identity: Id, status: RunStatus, conclusion: Conclusion,
                         startedAt: nat, completedAt: nat, output: Output)

  datatype Observation = Observation(found: bool, id: nat, identity: Id, status: RunStatus, conclusion: Conclusion,
                                     startedAt: nat, completedAt: nat, output: Output)

  predicate Matches(o: Observation, w: Write) {
    && o.found && o.id > 0 && (w.id == 0 || o.id == w.id) && o.identity == w.identity && o.status == w.status
    && o.conclusion == w.conclusion && o.startedAt == w.startedAt && o.completedAt == w.completedAt && o.output == w.output
  }

  function Rank(s: RunStatus): nat {
    match s case QueuedRun => 0 case InProgress => 1 case Completed => 2
  }

  // ----- what the run should say -----

  function JobConclusion(j: Job): Conclusion {
    match j.status
    case SucceededJob => Success
    case FailedJob => Failure
    case CancelledJob => Cancelled
    case DeadlineExceeded => TimedOut
    case _ => NoConclusion
  }

  /** The conclusion by precedence: lost authority, cancellation, timeout, then the job's own end. */
  function DesiredConclusion(j: Job, now: nat): Conclusion {
    var own := JobConclusion(j);
    var late := j.status == FailedJob && now >= j.deadline && j.updatedAt >= j.deadline && j.expired;
    var timed := if late || (now >= j.deadline && own == NoConclusion) then TimedOut else own;
    var asked := if j.cancelRequested then Cancelled else timed;
    if j.sourceProof && (asked == NoConclusion || asked == Success) && !j.managed then Cancelled else asked
  }

  function DesiredStatus(j: Job, observed: Option<Observation>, conclusion: Conclusion): RunStatus {
    if conclusion != NoConclusion then Completed
    else if j.status in {ClaimedJob, RunningJob, ReconciliationRequired} then InProgress
    else if observed.Some? && observed.value.status == InProgress then InProgress
    else QueuedRun
  }

  /** The desired write, or none when a success lacks its accepted receipt. */
  function Desired(j: Job, identity: Id, observed: Option<Observation>, now: nat): Option<Write> {
    if j.status == SucceededJob && !j.receipt then None
    else
      var conclusion := DesiredConclusion(j, now);
      var status := DesiredStatus(j, observed, conclusion);
      Some(Write(if observed.Some? then observed.value.id else 0, identity, status, conclusion,
                 if status == QueuedRun then 0 else j.createdAt,
                 if conclusion == NoConclusion then 0 else if conclusion == TimedOut then j.deadline else j.updatedAt,
                 Output(status, conclusion, j.status)))
  }

  /** The initial registration is always queued, whatever the job says by then. */
  function InitialWrite(identity: Id): Write {
    Write(0, identity, QueuedRun, NoConclusion, 0, 0, Output(QueuedRun, NoConclusion, Queued))
  }

  // ----- the publication -----

  datatype Phase = CreateReady | CreateUncertain | UpdateUncertain | Observe
  datatype Status = Pending | Running | Succeeded | Failed
  datatype Failing = NoFailure | BudgetExhausted | AuthorityChanged | ResultInvalid | ObservationMissing
                   | TerminalMismatch | IntentInvalid | FinalizationExpired | IdentityMismatch

  /** `sealed` is the stored fingerprint of the intent, which is the intent itself. */
  datatype Op = Op(identity: Id, phase: Phase, status: Status, failure: Failing, intent: Option<Write>, sealed: Option<Write>,
                   observations: nat, observed: Option<Observation>, finalizeDeadline: nat, leaseOwner: Id, leaseUntil: nat)

  datatype Action = Create | Find | Read | Update

  /** One provider call, numbered by the observation counter under which it was prepared. */
  datatype Call = Call(number: nat, action: Action, intent: Write)

  datatype Worker = Claimed | Prepared(call: Call) | Called(call: Call)

  datatype State = State(op: Op, job: Job, workers: map<Id, Worker>, calls: seq<Call>, now: nat)

  predicate Terminal(s: Status) {
    s == Succeeded || s == Failed
  }

  function Release(op: Op): Op {
    op.(leaseOwner := NO_ID, leaseUntil := 0)
  }

  function Fail(op: Op, why: Failing): Op {
    Release(op.(status := Failed, failure := why))
  }

  /** The first transaction: the record it stores and the provider call it prepares, if any. */
  function Prepare(op: Op, job: Job, now: nat, authority: bool, successAuthority: bool): (Op, Option<Call>) {
    var desired := Desired(job, op.identity, op.observed, now);
    if now >= op.finalizeDeadline || op.observations >= BUDGET then (Fail(op, BudgetExhausted), None)
    else if !authority then (Fail(op, AuthorityChanged), None)
    else if desired.None? then (Fail(op, ResultInvalid), None)
    else if desired.value.conclusion == Success && !successAuthority then (Fail(op, AuthorityChanged), None)
    else match op.phase
         case CreateReady =>
           var w := InitialWrite(op.identity);
           Arm(op.(intent := Some(w), sealed := Some(w), phase := CreateUncertain), Create)
         case CreateUncertain => Arm(op, Find)
         case UpdateUncertain => Arm(op, Read)
         case Observe =>
           if op.observed.None? then (Fail(op, ObservationMissing), None)
           else if op.observed.value.status == Completed then (Fail(op, TerminalMismatch), None)
           else if Matches(op.observed.value, desired.value) then (Release(op.(status := Running)), None)
           else Arm(op.(intent := desired, sealed := desired, phase := UpdateUncertain), Update)
  }

  function Arm(op: Op, action: Action): (Op, Option<Call>) {
    if op.intent.None? || op.sealed != op.intent then (Fail(op, IntentInvalid), None)
    else
      var counted := op.(observations := op.observations + 1);
      (counted, Some(Call(counted.observations, action, op.intent.value)))
  }

  /** The second transaction: only the very intent that was sent may be concluded. */
  function Conclude(op: Op, call: Call, answer: Option<Observation>, now: nat, authority: bool): Option<Op> {
    if op.sealed != Some(call.intent) || op.observations != call.number || op.intent.None? then None
    else if !authority then Some(Fail(op, AuthorityChanged))
    else if now >= op.finalizeDeadline then Some(Fail(op, FinalizationExpired))
    else if answer.Some? && answer.value.found && answer.value.identity != op.identity then Some(Fail(op, IdentityMismatch))
    else if answer.None? || !Matches(answer.value, op.intent.value) then Some(Release(op.(status := Running)))
    else Some(Release(op.(observed := answer, phase := Observe,
                          status := if answer.value.status == Completed then Succeeded else Running)))
  }

  datatype Step =
    | Elapse(seconds: nat)
    | JobMoves(job: Job)
    | Claim(token: Id)
    | Crash(token: Id)
    | First(token: Id, authority: bool, successAuthority: bool)
    | Send(token: Id)
    | Second(token: Id, answer: Option<Observation>, authority: bool)

  predicate Owns(st: State, t: Id) {
    t in st.workers && st.op.leaseOwner == t && st.op.leaseUntil > st.now
  }

  function Next(st: State, step: Step): Option<State> {
    match step
    case Elapse(seconds) => Some(st.(now := st.now + seconds))
    case JobMoves(job) => Some(st.(job := job))
    case Claim(t) =>
      if t == NO_ID || t in st.workers || st.op.leaseOwner == t || st.op.leaseUntil > st.now || Terminal(st.op.status) then None
      else Some(st.(op := st.op.(leaseOwner := t, leaseUntil := st.now + 45, status := Running),
                    workers := st.workers[t := Claimed]))
    case Crash(t) => Some(st.(workers := st.workers - {t}))
    case First(t, authority, successAuthority) =>
      if !Owns(st, t) || !st.workers[t].Claimed? then None
      else
        var r := Prepare(st.op, st.job, st.now, authority, successAuthority);
        Some(st.(op := r.0, workers := if r.1.Some? then st.workers[t := Prepared(r.1.value)] else st.workers - {t}))
    case Send(t) =>
      if t !in st.workers || !st.workers[t].Prepared? then None
      else Some(st.(calls := st.calls + [st.workers[t].call], workers := st.workers[t := Called(st.workers[t].call)]))
    case Second(t, answer, authority) =>
      if !Owns(st, t) || !st.workers[t].Called? then None
      else match Conclude(st.op, st.workers[t].call, answer, st.now, authority)
           case None => None
           case Some(op) => Some(st.(op := op, workers := st.workers - {t}))
  }

  // ----- the invariant -----

  predicate OpOk(op: Op) {
    && op.observations <= BUDGET && op.sealed == op.intent
    && (op.phase.CreateReady? <==> op.intent.None?)
    && (op.phase.CreateReady? <==> op.observations == 0)
    && (op.phase.CreateReady? || op.phase.CreateUncertain? ==> op.observed.None?)
    && (op.phase.CreateUncertain? ==> op.intent == Some(InitialWrite(op.identity)))
    && (op.phase.UpdateUncertain? || op.phase.Observe? ==> op.observed.Some? && op.observed.value.id > 0)
    && (op.phase.UpdateUncertain? ==> IntentFollows(op.observed.value, op.intent.value, op.identity))
    && (op.phase.Observe? ==> Matches(op.observed.value, op.intent.value))
    && (op.phase.UpdateUncertain? ==> op.observed.value.status != Completed)
    && (op.observed.Some? && op.observed.value.status == Completed ==> op.phase.Observe? && op.status == Succeeded)
    && (op.status == Succeeded ==> op.phase.Observe? && op.observed.value.status == Completed)
    && op.failure !in {ObservationMissing, TerminalMismatch, IntentInvalid}
    && (Terminal(op.status) ==> op.leaseOwner == NO_ID)
  }

  /** An update names the observed run and never steps back behind it. */
  predicate IntentFollows(o: Observation, w: Write, identity: Id) {
    w.id == o.id && w.identity == identity && Rank(o.status) <= Rank(w.status)
  }

  predicate CallOk(op: Op, c: Call) {
    1 <= c.number <= op.observations && (c.action.Create? <==> c.number == 1)
  }

  predicate Uncertain(p: Phase) {
    p.CreateUncertain? || p.UpdateUncertain?
  }

  predicate SamePending(a: Worker, b: Worker) {
    a.Prepared? && b.Prepared? && a.call.number == b.call.number
  }

  predicate Inv(st: State) {
    && OpOk(st.op) && NO_ID !in st.workers
    && (forall t :: t in st.workers && !st.workers[t].Claimed? ==> CallOk(st.op, st.workers[t].call))
    && (forall t :: t in st.workers && !st.workers[t].Claimed? && st.op.leaseOwner == t ==> Uncertain(st.op.phase))
    && (forall i :: 0 <= i < |st.calls| ==> CallOk(st.op, st.calls[i]))
    && (forall i, j :: 0 <= i < j < |st.calls| ==> st.calls[i].number != st.calls[j].number)
    && (forall t, i :: t in st.workers && st.workers[t].Prepared? && 0 <= i < |st.calls| ==>
          st.calls[i].number != st.workers[t].call.number)
    && (forall t, u :: t in st.workers && u in st.workers && SamePending(st.workers[t], st.workers[u]) ==> t == u)
  }

  predicate Initial(st: State) {
    && st.op.phase.CreateReady? && st.op.status.Pending? && st.op.failure.NoFailure? && st.op.intent.None? && st.op.sealed.None?
    && st.op.observations == 0 && st.op.observed.None? && st.op.leaseOwner == NO_ID && st.workers == map[] && st.calls == []
  }

  lemma DesiredFollows(j: Job, identity: Id, observed: Option<Observation>, now: nat)
    requires Desired(j, identity, observed, now).Some? && observed.Some? && observed.value.status != Completed
    ensures IntentFollows(observed.value, Desired(j, identity, observed, now).value, identity)
  {
  }

  lemma PrepareOk(op: Op, job: Job, now: nat, authority: bool, successAuthority: bool)
    requires OpOk(op) && !Terminal(op.status)
    ensures var r := Prepare(op, job, now, authority, successAuthority);
            && OpOk(r.0) && op.observations <= r.0.observations
            && (r.1.Some? ==> r.1.value.number == r.0.observations == op.observations + 1
                              && CallOk(r.0, r.1.value) && r.0.leaseOwner == op.leaseOwner && Uncertain(r.0.phase))
            && (r.1.None? ==> r.0.observations == op.observations && r.0.leaseOwner == NO_ID)
  {
    if op.phase.Observe? && Desired(job, op.identity, op.observed, now).Some? && op.observed.value.status != Completed {
      DesiredFollows(job, op.identity, op.observed, now);
    }
  }

  lemma ConcludeOk(op: Op, call: Call, answer: Option<Observation>, now: nat, authority: bool)
    requires OpOk(op) && !Terminal(op.status) && Conclude(op, call, answer, now, authority).Some?
    ensures var op' := Conclude(op, call, answer, now, authority).value;
            OpOk(op') && op'.observations == op.observations && op'.leaseOwner == NO_ID
  {
  }

  lemma FirstInv(st: State, t: Id, authority: bool, successAuthority: bool)
    requires Inv(st) && Next(st, First(t, authority, successAuthority)).Some?
    ensures Inv(Next(st, First(t, authority, successAuthority)).value)
  {
    hide OpOk;
    assert !Terminal(st.op.status) && t != NO_ID by { NotTerminal(st, t); }
    PrepareOk(st.op, st.job, st.now, authority, successAuthority);
    hide Prepare;
  }

  lemma NotTerminal(st: State, t: Id)
    requires Inv(st) && Owns(st, t)
    ensures !Terminal(st.op.status) && t != NO_ID
  {
  }

  lemma SecondInv(st: State, t: Id, answer: Option<Observation>, authority: bool)
    requires Inv(st) && Next(st, Second(t, answer, authority)).Some?
    ensures Inv(Next(st, Second(t, answer, authority)).value)
  {
    hide OpOk;
    NotTerminal(st, t);
    ConcludeOk(st.op, st.workers[t].call, answer, st.now, authority);
    hide Conclude;
  }

  lemma NextInv(st: State, step: Step, st': State)
    requires Inv(st) && Next(st, step) == Some(st')
    ensures Inv(st')
  {
    hide Prepare, Conclude;
    match step
    case First(t, a, s) => FirstInv(st, t, a, s);
    case Second(t, answer, a) => SecondInv(st, t, answer, a);
    case _ =>
  }

  predicate IsRun(states: seq<State>, steps: seq<Step>) {
    && |states| == |steps| + 1 && Initial(states[0])
    && forall i {:trigger steps[i]} :: 0 <= i < |steps| ==> Next(states[i], steps[i]) == Some(states[i + 1])
  }

  lemma {:induction false} RunInv(states: seq<State>, steps: seq<Step>, i: nat)
    requires IsRun(states, steps) && i < |states|
    ensures Inv(states[i])
  {
    if i > 0 {
      hide Inv, Next;
      RunInv(states, steps, i - 1);
      assert Next(states[i - 1], steps[i - 1]) == Some(states[i]);
      NextInv(states[i - 1], steps[i - 1], states[i]);
    } else {
      assert Initial(states[0]);
    }
  }

  // ----- theorems -----

  /** The create call is issued at most once, each numbered intent is sent at most once. */
  lemma CallsAreUnique(states: seq<State>, steps: seq<Step>, i: nat, a: nat, b: nat)
    requires IsRun(states, steps) && i < |states| && a < |states[i].calls| && b < |states[i].calls|
    requires states[i].calls[a].number == states[i].calls[b].number
             || (states[i].calls[a].action.Create? && states[i].calls[b].action.Create?)
    ensures a == b
  {
    RunInv(states, steps, i);
    assert CallOk(states[i].op, states[i].calls[a]) && CallOk(states[i].op, states[i].calls[b]);
  }

  /** Distinct positive numbers up to a bound are at most that many. */
  lemma {:induction false} DistinctBounded(calls: seq<Call>, bound: nat)
    requires forall i :: 0 <= i < |calls| ==> 1 <= calls[i].number <= bound
    requires forall i, j :: 0 <= i < j < |calls| ==> calls[i].number != calls[j].number
    ensures |calls| <= bound
  {
    if |calls| == 0 { return; }
    var first := calls[0].number;
    if exists k :: 0 <= k < |calls| && calls[k].number == bound {
      var k :| 0 <= k < |calls| && calls[k].number == bound;
      DistinctBounded(calls[..k] + calls[k + 1..], bound - 1);
    } else {
      DistinctBounded(calls, bound - 1);
    }
  }

  /** Provider calls never exceed the budget, over all workers, crashes and retries. */
  lemma WithinBudget(states: seq<State>, steps: seq<Step>, i: nat)
    requires IsRun(states, steps) && i < |states|
    ensures |states[i].calls| <= states[i].op.observations <= BUDGET
  {
    RunInv(states, steps, i);
    forall k | 0 <= k < |states[i].calls| ensures 1 <= states[i].calls[k].number <= states[i].op.observations {
      assert CallOk(states[i].op, states[i].calls[k]);
    }
    DistinctBounded(states[i].calls, states[i].op.observations);
  }

  /** Success means that the observed run is completed and is exactly what was asked for. */
  lemma SuccessIsExact(states: seq<State>, steps: seq<Step>, i: nat)
    requires IsRun(states, steps) && i < |states| && states[i].op.status == Succeeded
    ensures var op := states[i].op;
            op.intent.Some? && op.observed.Some? && op.observed.value.status == Completed
            && Matches(op.observed.value, op.intent.value)
  {
    RunInv(states, steps, i);
  }

  /** The three defensive failures of the transaction are never reached. */
  lemma DefensiveFailuresUnreachable(states: seq<State>, steps: seq<Step>, i: nat)
    requires IsRun(states, steps) && i < |states|
    ensures states[i].op.failure !in {ObservationMissing, TerminalMismatch, IntentInvalid}
  {
    RunInv(states, steps, i);
  }

  /** What an observation keeps once made: the run, and its progress. */
  predicate ObservationGrows(a: Op, b: Op) {
    a.observed.Some? ==>
      b.observed.Some? && b.observed.value.id == a.observed.value.id
      && Rank(a.observed.value.status) <= Rank(b.observed.value.status)
  }

  lemma StepGrows(st: State, step: Step, st': State)
    requires Inv(st) && Next(st, step) == Some(st')
    ensures ObservationGrows(st.op, st'.op)
  {
    hide Desired;
    if step.Second? {
      NotTerminal(st, step.token);
    }
  }

  /** The observed run never changes, and its status never moves backwards. */
  lemma {:induction false} ObservedRunIsConstant(states: seq<State>, steps: seq<Step>, i: nat, j: nat)
    requires IsRun(states, steps) && i <= j < |states|
    ensures ObservationGrows(states[i].op, states[j].op)
    decreases j - i
  {
    if i < j {
      hide Inv, Next;
      ObservedRunIsConstant(states, steps, i, j - 1);
      RunInv(states, steps, j - 1);
      assert Next(states[j - 1], steps[j - 1]) == Some(states[j]);
      StepGrows(states[j - 1], steps[j - 1], states[j]);
    }
  }

  /** A success is claimed exactly for a job that succeeded with its receipt, uncancelled and authorised. */
  lemma SuccessConclusion(j: Job, identity: Id, observed: Option<Observation>, now: nat)
    ensures (Desired(j, identity, observed, now).Some? && Desired(j, identity, observed, now).value.conclusion == Success)
        <==> j.status == SucceededJob && j.receipt && !j.cancelRequested && (j.sourceProof ==> j.managed)
  {
  }

  /** A desired run is completed exactly when it has a conclusion, and then carries its completion time. */
  lemma CompletedIffConcluded(j: Job, identity: Id, observed: Option<Observation>, now: nat)
    requires Desired(j, identity, observed, now).Some?
    ensures var w := Desired(j, identity, observed, now).value;
            && (w.status == Completed <==> w.conclusion != NoConclusion)
            && (w.conclusion == NoConclusion ==> w.completedAt == 0 && now < j.deadline)
            && (w.status == QueuedRun ==> w.startedAt == 0)
  {
  }
}
