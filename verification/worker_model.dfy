/**
  The leased worker: claims, guarded saves and persisted mutation intents over one log of
  operations, with crashes, lease expiry, reservations and provider calls in any order.
  An operation is identified by its position in the log, which never changes.
 */
module WorkerModel {
  import opened Ids

  /**
    `OtherKind` stands for the kinds with guards of their own: activation children, captures,
    recoveries, checks and tasks.
   */
  datatype Kind = Deploy | Compose | ReleaseCandidate | ReleasePromotion | Refresh | OtherKind

  datatype Phase =
    | PromotionPreflight | Preflight | NativeBuild | Dispatch | BuildLookup | Inspect
    | Apply | ApplyUncertain | WaitGitOpsPR
    | ComposeSource | AdvanceMain | QueueBuilds | WaitChildren
    | OtherPhase

  datatype Status = Pending | Running | Succeeded | Failed | Cancelled

  /** The persisted record that an external write has begun and its outcome is not yet known. */
  datatype Intent = NoIntent | SourceIntent | GitOpsIntent | BuildIntent

  datatype Run = NoRun | Incomplete | Completed

  datatype PullRequest = NoPR | PR(number: nat, closed: bool, merged: bool)

  datatype Source = Source(repository: Id, retained: nat, result: Option<Id>, advanced: bool, conflict: bool)

  datatype Op = Op(id: Id, kind: Kind, environment: Id, epoch: nat, buildOnly: bool,
                   status: Status, phase: Phase, intent: Intent, run: Run, pr: PullRequest, applied: bool,
                   sources: seq<Source>, leaseOwner: Id, leaseUntil: nat, nextAttempt: nat)

  /** The reservation fence of an environment: its epoch, and whether a hold is active. */
  datatype Fence = Fence(epoch: nat, held: bool)

  /**
    A managed worker job of a delivery: `Queued` until it is started, `Working` while it runs,
    `Unclear` when its outcome needs reconciliation.
   */
  datatype Job = NoJob | Queued | Working | Unclear | Passed | Ended

  /** The build and the publication that a native delivery owns. */
  datatype Jobs = Jobs(build: Job, publication: Job)

  /** What has been asked of the providers on behalf of one operation. */
  datatype Ledger = Ledger(dispatched: nat, proposed: nat, begun: nat, written: nat, acknowledged: nat)

  datatype Pc = Claimed | ReadyToDispatch | Dispatched | ReadyToPropose | Proposed | ReadyToWrite | Wrote

  /** A worker holds the copy it claimed; `last` is the record as this token last wrote it. */
  datatype Worker = Worker(index: nat, copy: Op, pc: Pc, last: Op)

  datatype State = State(ops: seq<Op>, ledgers: seq<Ledger>, jobs: seq<Jobs>, fences: map<Id, Fence>,
                         workers: map<Id, Worker>, now: nat)

  predicate Terminal(s: Status) {
    s == Succeeded || s == Failed || s == Cancelled
  }

  /** The kinds whose managed writes a reservation excludes. */
  predicate Guarded(k: Kind) {
    k.Deploy? || k.Compose? || k.ReleaseCandidate? || k.ReleasePromotion?
  }

  predicate IsFlow(k: Kind) {
    k.Compose? || k.ReleaseCandidate? || k.ReleasePromotion?
  }

  // ----- guards -----

  predicate Allowed(st: State, op: Op) {
    Guarded(op.kind) ==>
      op.environment in st.fences && !st.fences[op.environment].held && st.fences[op.environment].epoch == op.epoch
  }

  /** An effect of the operation may still be under way. */
  predicate Unresolved(op: Op, publication: Job) {
    || op.intent != NoIntent || op.phase == ApplyUncertain
    || (op.pr.PR? && !op.pr.merged && !op.pr.closed)
    || (op.phase == BuildLookup && op.run != Completed)
    || publication.Working? || publication.Unclear?
  }

  // ----- managed jobs -----

  predicate Unfinished(j: Job) {
    j.Queued? || j.Working? || j.Unclear?
  }

  predicate HasUnfinished(jobs: Jobs) {
    Unfinished(jobs.build) || Unfinished(jobs.publication)
  }

  /** Stopping from outside: a job that may be running needs reconciliation, others end. */
  function Interrupted(j: Job): Job {
    if j.Queued? then Ended else if j.Working? then Unclear else j
  }

  /** A turn of the native build phase opens the build, and the publication once that has passed. */
  function Opened(jobs: Jobs): Jobs {
    if jobs.build.NoJob? then jobs.(build := Queued)
    else if jobs.build.Passed? && jobs.publication.NoJob? then jobs.(publication := Queued)
    else jobs
  }

  /** How one job moves: starting and reporting need a `current` delivery, reconciling a publication does not. */
  predicate JobMoves(a: Job, b: Job, publishing: bool, current: bool) {
    || b == a
    || (a.Queued? && (b.Unclear? || b.Ended? || (b.Working? && current)))
    || (a.Working? && (b.Unclear? || b.Ended? || (b.Passed? && current)))
    || (a.Unclear? && (b.Ended? || (b.Passed? && publishing)))
  }

  predicate JobsMove(a: Jobs, b: Jobs, current: bool) {
    JobMoves(a.build, b.build, false, current) && JobMoves(a.publication, b.publication, true, current)
  }

  // ----- claiming -----

  function Priority(k: Kind): nat {
    if k.Refresh? then 10 else 0
  }

  predicate Eligible(op: Op, now: nat) {
    !Terminal(op.status) && op.nextAttempt <= now && op.leaseUntil <= now
  }

  /** `a` is claimed before `b`: by priority, then by due time, then by identity. */
  predicate Before(a: Op, b: Op) {
    || Priority(a.kind) < Priority(b.kind)
    || (Priority(a.kind) == Priority(b.kind)
        && (a.nextAttempt < b.nextAttempt || (a.nextAttempt == b.nextAttempt && a.id < b.id)))
  }

  /** The scan's choice: an eligible operation that no eligible one precedes, the first of equals. */
  predicate IsChoice(ops: seq<Op>, now: nat, i: nat) {
    && i < |ops| && Eligible(ops[i], now)
    && forall j :: 0 <= j < |ops| && Eligible(ops[j], now) ==>
         !Before(ops[j], ops[i]) && (j < i ==> Before(ops[i], ops[j]))
  }

  function Leased(op: Op, token: Id, now: nat): Op {
    op.(leaseOwner := token, leaseUntil := now + 45, status := Running)
  }

  // ----- acknowledging a source write -----

  /** The evidence of one write: the repository and the commit it produced. */
  datatype Evidence = NoEvidence | Evidence(repository: Id, sha: Id)

  predicate Acknowledges(before: Source, after: Source, phase: Phase, e: Evidence) {
    && e.Evidence? && before.repository == e.repository && after.repository == before.repository
    && match phase
       case ComposeSource => before.result.None? && after == before.(result := Some(e.sha)) && !after.conflict
       case AdvanceMain =>
         !before.advanced && after == before.(advanced := true) && after.result == Some(e.sha) && !after.conflict
       case _ => false
  }

  /** Exactly one source changed, and the change is the one the evidence acknowledges. */
  predicate Confirmed(before: seq<Source>, after: seq<Source>, phaseBefore: Phase, phase: Phase, e: Evidence) {
    && phaseBefore == phase && |before| == |after|
    && exists i :: 0 <= i < |before| && before[i] != after[i] && Acknowledges(before[i], after[i], phase, e)
                   && forall j :: 0 <= j < |before| && j != i ==> before[j] == after[j]
  }

  // ----- saving -----

  datatype Verdict = Fails | Blocks | Cancels | Finishes | ArtifactReady | Continues

  predicate Failing(v: Verdict) {
    v == Fails || v == Blocks || v == Cancels
  }

  /** One call of `save`: what the worker learned and where it wants to go. */
  datatype Save = Save(phase: Phase, verdict: Verdict, release: bool, run: Run, pr: PullRequest, applied: bool,
                       sources: seq<Source>, evidence: Evidence, flowOk: bool, admitted: bool)

  /** Flow operations whose own guard fails are blocked instead of saved as asked. */
  function Judged(op: Op, s: Save): Verdict {
    if IsFlow(op.kind) && !Failing(s.verdict) && !s.flowOk then Blocks else s.verdict
  }

  function SavedIntent(current: Op, copy: Op, s: Save): Intent {
    var kept := if current.intent != NoIntent then current.intent else copy.intent;
    var applying := if s.phase == ApplyUncertain then GitOpsIntent else kept;
    var building := if s.phase == BuildLookup && !s.release then BuildIntent else applying;
    match building
    case NoIntent => NoIntent
    case GitOpsIntent =>
      if s.applied || (s.pr.PR? && s.pr.number > 0 && (s.phase == WaitGitOpsPR || s.pr.closed)) then NoIntent else GitOpsIntent
    case BuildIntent => if s.run == Completed then NoIntent else BuildIntent
    case SourceIntent =>
      if !Failing(Judged(copy, s)) && Confirmed(current.sources, s.sources, current.phase, s.phase, s.evidence)
      then NoIntent else SourceIntent
  }

  function SavedStatus(copy: Op, s: Save): Status {
    match Judged(copy, s)
    case Finishes => Succeeded
    case ArtifactReady => if copy.buildOnly && s.phase == Apply && s.release then Succeeded else Running
    case Fails => Failed
    case Blocks => Failed
    case Cancels => Cancelled
    case Continues => Running
  }

  function Delay(p: Phase): nat {
    if p == BuildLookup || p == WaitChildren || p == WaitGitOpsPR then 10 else 2
  }

  /** The record a committed save stores: the worker's copy with the new evidence. */
  function SavedOp(current: Op, copy: Op, token: Id, s: Save, now: nat): Op {
    copy.(phase := s.phase, status := SavedStatus(copy, s), intent := SavedIntent(current, copy, s),
          run := s.run, pr := s.pr, applied := s.applied, sources := s.sources,
          leaseOwner := if s.release then NO_ID else token,
          leaseUntil := if s.release then 0 else current.leaseUntil,
          nextAttempt := now + Delay(s.phase))
  }

  /** The checks of `save` itself; `admitted` stands for the guards whose inputs are not modelled. */
  predicate SaveAdmitted(st: State, current: Op, copy: Op, token: Id, s: Save) {
    && current.leaseOwner == token
    && (!Failing(s.verdict) ==>
          && s.admitted && Allowed(st, copy)
          && (copy.kind.Compose? ==>
                current.leaseUntil > st.now && current.sources == s.sources && current.phase == copy.phase))
  }

  // ----- what the phase machine asks for -----

  predicate SameEvidence(copy: Op, s: Save) {
    s.run == copy.run && s.pr == copy.pr && s.applied == copy.applied && s.sources == copy.sources
  }

  /** `finish` with a refusal, or `retry`: both keep the caller's phase and release the lease. */
  predicate Gives(copy: Op, s: Save) {
    s.phase == copy.phase && s.release && (Failing(s.verdict) || s.verdict == Continues)
  }

  /** Keeps everything but the field each phase may learn. */
  predicate Learns(copy: Op, s: Save, run: bool, pr: bool, applied: bool, sources: bool) {
    && (run || s.run == copy.run) && (pr || s.pr == copy.pr)
    && (applied || s.applied == copy.applied) && (sources || s.sources == copy.sources)
  }

  predicate OffersDeploy(copy: Op, pc: Pc, s: Save) {
    match copy.phase
    case PromotionPreflight =>
      pc.Claimed? && (Gives(copy, s) || (s.phase in {Dispatch, Inspect} && s.verdict.Continues? && s.release))
      && Learns(copy, s, s.phase == Dispatch, false, false, false) && (s.phase == Dispatch ==> s.run == NoRun)
    case Preflight =>
      && pc.Claimed? && SameEvidence(copy, s)
      && (Gives(copy, s) || (s.phase in {Inspect, NativeBuild, Dispatch, Apply} && !Failing(s.verdict) && s.release))
    case NativeBuild =>
      && pc.Claimed? && SameEvidence(copy, s)
      && (Gives(copy, s) || (s.phase == Inspect && s.verdict.Continues? && s.release))
    case Dispatch =>
      if pc.Claimed? then
        (Gives(copy, s) && Failing(s.verdict) && SameEvidence(copy, s))
        || (s.phase == BuildLookup && s.verdict.Continues? && !s.release && SameEvidence(copy, s))
      else
        pc.Dispatched? && s.phase == BuildLookup && s.verdict.Continues? && s.release
        && Learns(copy, s, true, false, false, false)
    case BuildLookup =>
      && pc.Claimed? && Learns(copy, s, true, false, false, false)
      && (Gives(copy, s) || (s.phase == Inspect && s.verdict.Continues? && s.release && s.run == Completed))
    case Inspect =>
      && pc.Claimed? && SameEvidence(copy, s)
      && (Gives(copy, s) || (s.phase == Apply && s.verdict.ArtifactReady? && s.release))
    case Apply => OffersApply(copy, pc, s)
    case ApplyUncertain => OffersApply(copy, pc, s)
    case WaitGitOpsPR =>
      && pc.Claimed? && Learns(copy, s, false, true, s.verdict.Finishes?, false) && s.release && s.pr.PR?
      && (Gives(copy, s) || (s.phase == WaitGitOpsPR && s.verdict.Finishes? && s.applied))
    case _ => false
  }

  /** The delivery is in one of the apply phases, and not one that ends with its artifact. */
  predicate Proposing(op: Op) {
    op.phase == ApplyUncertain || (op.phase == Apply && !op.buildOnly)
  }

  /** Both apply phases: reread, record the intent, then write directly or propose a pull request. */
  predicate OffersApply(copy: Op, pc: Pc, s: Save) {
    if pc.Claimed? then
      && Learns(copy, s, false, false, s.verdict.Finishes?, false)
      && (|| Gives(copy, s)
          || (s.phase == copy.phase && s.release && s.verdict.Finishes? && s.applied)
          || (copy.phase == Apply && s.phase == Apply && s.release && copy.buildOnly && s.verdict.ArtifactReady?)
          || (Proposing(copy) && s.phase == ApplyUncertain && s.verdict.Continues? && !s.release))
    else if pc.ReadyToPropose? then
      Gives(copy, s) && Failing(s.verdict) && SameEvidence(copy, s)
    else
      && pc.Proposed? && s.release
      && (|| (Gives(copy, s) && SameEvidence(copy, s))
          || (s.phase == copy.phase && s.verdict.Finishes? && s.applied && Learns(copy, s, false, false, true, false))
          || (s.phase == ApplyUncertain && s.verdict.Continues? && SameEvidence(copy, s))
          || (s.phase == WaitGitOpsPR && s.verdict.Continues? && s.pr.PR? && s.pr.number > 0
              && Learns(copy, s, false, true, false, false)))
  }

  predicate OffersFlow(copy: Op, pc: Pc, s: Save) {
    && s.release && (pc.Claimed? || pc.Wrote?) && Learns(copy, s, false, false, false, true)
    && match copy.phase
       case ComposeSource => s.phase in {ComposeSource, AdvanceMain, QueueBuilds} && (Failing(s.verdict) ==> s.phase == copy.phase)
       case AdvanceMain => s.phase in {AdvanceMain, QueueBuilds} && (Failing(s.verdict) ==> s.phase == copy.phase)
       case QueueBuilds => s.phase in {QueueBuilds, WaitChildren} && (Failing(s.verdict) ==> s.phase == copy.phase)
       case WaitChildren => s.phase in {QueueBuilds, WaitChildren} && (Failing(s.verdict) ==> s.phase == copy.phase)
       case _ => false
  }

  predicate Offers(w: Worker, s: Save) {
    if w.copy.kind.Deploy? then OffersDeploy(w.copy, w.pc, s)
    else if IsFlow(w.copy.kind) then OffersFlow(w.copy, w.pc, s)
    else w.pc.Claimed? && s.release && SameEvidence(w.copy, s) && s.phase == OtherPhase && w.copy.phase == OtherPhase
  }

  function AfterSave(w: Worker, s: Save): Pc {
    if s.phase == BuildLookup then ReadyToDispatch else ReadyToPropose
  }

  // ----- steps -----

  /** How one acknowledged source write shows in the record of a composition. */
  datatype Acknowledgement = Retained | Composed(sha: Id) | ConflictSeen

  function Acknowledge(s: Source, a: Acknowledgement): Source {
    match a
    case Retained => s.(retained := s.retained + 1)
    case Composed(sha) => s.(result := Some(sha))
    case ConflictSeen => s.(conflict := true)
  }

  datatype Step =
    | Elapse(seconds: nat)
    | Enqueue(op: Op)
    | Claim(token: Id, index: nat)
    | Begin(token: Id, flowOk: bool)
    | CallDispatch(token: Id)
    | CallPropose(token: Id)
    | CallWrite(token: Id)
    | Commit(token: Id, save: Save)
    | Admit(token: Id, source: nat, ack: Acknowledgement, admitted: bool)
    | Crash(token: Id)
    | Stop(index: nat)
    | StopJob(index: nat)
    | OpenJob(index: nat)
    | MoveJob(index: nat, jobs: Jobs)
    | Rewrite(index: nat, op: Op)
    | Reserve(environment: Id)
    | Refence(fences: map<Id, Fence>)

  /** An operation as it enters the log: unleased, without effects, stamped with the current epoch. */
  predicate IsNew(st: State, op: Op) {
    && op.status == Pending && op.intent == NoIntent && op.pr == NoPR && !op.applied && op.leaseOwner == NO_ID
    && op.phase in {PromotionPreflight, Preflight, ComposeSource, AdvanceMain, QueueBuilds, OtherPhase}
    && (op.kind.Deploy? ==> op.phase in {PromotionPreflight, Preflight})
    && (IsFlow(op.kind) ==> op.phase in {ComposeSource, AdvanceMain, QueueBuilds})
    && (!Guarded(op.kind) ==> op.phase == OtherPhase)
    && op.environment in st.fences && op.epoch == st.fences[op.environment].epoch
    && forall i :: 0 <= i < |st.ops| ==> st.ops[i].id != op.id
  }

  /** How a fence may move: reserve and recovery advance the epoch, a release need not. */
  predicate FenceMoves(a: Fence, b: Fence) {
    || b == a
    || (a.held && b.epoch == a.epoch + 1)
    || (a.held && !b.held && b.epoch == a.epoch)
    || (!a.held && b.held && b.epoch == a.epoch + 1)
  }

  /** Without a reservation only held fences move. */
  predicate HeldMoves(a: Fence, b: Fence) {
    FenceMoves(a, b) && (!a.held ==> b == a)
  }

  function Write(st: State, i: nat, op: Op): State
    requires i < |st.ops|
  {
    st.(ops := st.ops[i := op])
  }

  predicate Owns(st: State, token: Id) {
    && token in st.workers && st.workers[token].index < |st.ops| == |st.ledgers| == |st.jobs|
  }

  function BeginTx(st: State, token: Id, flowOk: bool): Option<State>
    requires Owns(st, token)
  {
    var w := st.workers[token];
    var current := st.ops[w.index];
    if !w.pc.Claimed? || w.copy.intent != NoIntent || !IsFlow(w.copy.kind) || w.copy.phase !in {ComposeSource, AdvanceMain} then None
    else if Terminal(current.status) || current.leaseOwner != token || current.leaseUntil <= st.now
            || !Allowed(st, current) || !flowOk || current.intent != NoIntent then None
    else
      var begun := current.(intent := SourceIntent);
      var ledger := st.ledgers[w.index];
      Some(Write(st, w.index, begun).(ledgers := st.ledgers[w.index := ledger.(begun := ledger.begun + 1)],
                                      workers := st.workers[token := w.(pc := ReadyToWrite, last := begun)]))
  }

  function CommitTx(st: State, token: Id, s: Save): Option<State>
    requires Owns(st, token)
  {
    var w := st.workers[token];
    var current := st.ops[w.index];
    if !Offers(w, s) || !SaveAdmitted(st, current, w.copy, token, s) then None
    else if w.copy.phase == NativeBuild && s.phase == Inspect && st.jobs[w.index].publication != Passed then None
    else
      var saved := SavedOp(current, w.copy, token, s, st.now);
      var ledger := st.ledgers[w.index];
      var cleared := current.intent == SourceIntent && saved.intent == NoIntent;
      Some(Write(st, w.index, saved).(
        ledgers := if cleared then st.ledgers[w.index := ledger.(acknowledged := ledger.acknowledged + 1)] else st.ledgers,
        workers := if s.release then st.workers - {token}
                   else st.workers[token := w.(pc := AfterSave(w, s), last := saved)]))
  }

  /** Progress or a conflict of a composition: evidence stored and intent cleared in one transaction. */
  function AdmitTx(st: State, token: Id, k: nat, a: Acknowledgement, admitted: bool): Option<State>
    requires Owns(st, token)
  {
    var w := st.workers[token];
    var current := st.ops[w.index];
    if !w.copy.kind.Compose? || w.copy.phase != ComposeSource || k >= |w.copy.sources|
       || !(w.pc.Wrote? || (w.pc.Claimed? && w.copy.intent == SourceIntent))
       || (!a.Retained? && (w.copy.sources[k].result.Some? || w.copy.sources[k].conflict)) then None
    else if current.leaseOwner != token || current.leaseUntil <= st.now || !admitted || !Allowed(st, current)
            || current.sources != w.copy.sources || current.phase != w.copy.phase then None
    else
      var acked := current.(intent := NoIntent, sources := current.sources[k := Acknowledge(current.sources[k], a)],
                            status := if a.ConflictSeen? then Failed else Running,
                            leaseOwner := NO_ID, leaseUntil := 0, nextAttempt := st.now + 2);
      var ledger := st.ledgers[w.index];
      Some(Write(st, w.index, acked).(
        ledgers := if current.intent == SourceIntent
                   then st.ledgers[w.index := ledger.(acknowledged := ledger.acknowledged + 1)] else st.ledgers,
        workers := st.workers - {token}))
  }

  /** A provider call by a worker whose program counter allows it; the lease is not consulted. */
  function CallTx(st: State, token: Id, from: Pc): Option<State>
    requires Owns(st, token)
  {
    var w := st.workers[token];
    var ledger := st.ledgers[w.index];
    if w.pc != from then None
    else match from
         case ReadyToDispatch =>
           Some(st.(ledgers := st.ledgers[w.index := ledger.(dispatched := ledger.dispatched + 1)],
                    workers := st.workers[token := w.(pc := Dispatched)]))
         case ReadyToPropose =>
           Some(st.(ledgers := st.ledgers[w.index := ledger.(proposed := ledger.proposed + 1)],
                    workers := st.workers[token := w.(pc := Proposed)]))
         case ReadyToWrite =>
           Some(st.(ledgers := st.ledgers[w.index := ledger.(written := ledger.written + 1)],
                    workers := st.workers[token := w.(pc := Wrote)]))
         case _ => None
  }

  function Stopped(op: Op): Op {
    op.(status := Cancelled, leaseOwner := NO_ID, leaseUntil := 0)
  }

  /** Stops a delivery together with its unfinished jobs. */
  function StopTx(st: State, i: nat): State
    requires i < |st.ops| == |st.jobs|
  {
    Write(st, i, Stopped(st.ops[i])).(
      jobs := st.jobs[i := Jobs(Interrupted(st.jobs[i].build), Interrupted(st.jobs[i].publication))])
  }

  /** The delivery may still act for its managed jobs. */
  predicate Current(st: State, op: Op) {
    !Terminal(op.status) && Allowed(st, op)
  }

  /** Transactions of the kinds with guards of their own: anything, as long as the lease is given up. */
  predicate RewritesOther(op: Op, op': Op) {
    && !Guarded(op.kind) && !Terminal(op.status)
    && op'.id == op.id && op'.kind == op.kind && op'.environment == op.environment && op'.epoch == op.epoch
    && op'.buildOnly == op.buildOnly && op'.leaseOwner == NO_ID
  }

  /** One atomic step; `None` when it is not enabled or its transaction refuses. */
  function Next(st: State, step: Step): Option<State>
    requires |st.ledgers| == |st.ops| == |st.jobs|
    requires forall t :: t in st.workers ==> st.workers[t].index < |st.ops|
  {
    match step
    case Elapse(seconds) => Some(st.(now := st.now + seconds))
    case Enqueue(op) =>
      if !IsNew(st, op) then None
      else Some(st.(ops := st.ops + [op], ledgers := st.ledgers + [Ledger(0, 0, 0, 0, 0)],
                    jobs := st.jobs + [Jobs(NoJob, NoJob)]))
    case Claim(token, i) =>
      if token == NO_ID || token in st.workers || (exists j :: 0 <= j < |st.ops| && st.ops[j].leaseOwner == token)
         || !IsChoice(st.ops, st.now, i) then None
      else
        var leased := Leased(st.ops[i], token, st.now);
        Some(Write(st, i, leased).(workers := st.workers[token := Worker(i, leased, Claimed, leased)]))
    case Begin(token, flowOk) => if token in st.workers then BeginTx(st, token, flowOk) else None
    case CallDispatch(token) => if token in st.workers then CallTx(st, token, ReadyToDispatch) else None
    case CallPropose(token) => if token in st.workers then CallTx(st, token, ReadyToPropose) else None
    case CallWrite(token) => if token in st.workers then CallTx(st, token, ReadyToWrite) else None
    case Commit(token, s) => if token in st.workers then CommitTx(st, token, s) else None
    case Admit(token, k, a, admitted) => if token in st.workers then AdmitTx(st, token, k, a, admitted) else None
    case Crash(token) => if token in st.workers then Some(st.(workers := st.workers - {token})) else None
    case Stop(i) =>
      if i < |st.ops| && !Terminal(st.ops[i].status) && st.ops[i].phase !in {ApplyUncertain, WaitGitOpsPR}
         && st.ops[i].pr == NoPR && !st.ops[i].applied
      then Some(StopTx(st, i)) else None
    case StopJob(i) =>
      if i < |st.ops| && HasUnfinished(st.jobs[i]) && st.ops[i].phase != ApplyUncertain
         && st.ops[i].pr == NoPR && !st.ops[i].applied
      then Some(StopTx(st, i)) else None
    case OpenJob(i) =>
      if i < |st.ops| && st.ops[i].kind.Deploy? && st.ops[i].phase == NativeBuild && Current(st, st.ops[i])
      then Some(st.(jobs := st.jobs[i := Opened(st.jobs[i])])) else None
    case MoveJob(i, jobs) =>
      if i < |st.ops| && JobsMove(st.jobs[i], jobs, Current(st, st.ops[i]))
      then Some(st.(jobs := st.jobs[i := jobs])) else None
    case Rewrite(i, op) =>
      if i < |st.ops| && RewritesOther(st.ops[i], op) then Some(Write(st, i, op)) else None
    case Reserve(e) =>
      if e !in st.fences || st.fences[e].held
         || (exists i :: 0 <= i < |st.ops| && st.ops[i].environment == e && Unresolved(st.ops[i], st.jobs[i].publication)) then None
      else Some(st.(fences := st.fences[e := Fence(st.fences[e].epoch + 1, true)]))
    case Refence(fences) =>
      if fences.Keys == st.fences.Keys && forall e :: e in fences ==> HeldMoves(st.fences[e], fences[e])
      then Some(st.(fences := fences)) else None
  }
}
