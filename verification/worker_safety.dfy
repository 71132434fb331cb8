/**
  Safety of the leased worker in every run: no lost update, reservation exclusion, intents
  cleared only with their evidence, and provider calls bounded by what has been recorded.
 */
module WorkerSafety {
  import opened Ids
  import opened WorkerModel

  // ----- records and workers -----

  predicate SameIdentity(a: Op, b: Op) {
    a.id == b.id && a.kind == b.kind && a.environment == b.environment && a.epoch == b.epoch && a.buildOnly == b.buildOnly
  }

  /** How far a delivery has come; the two apply phases are one stage. */
  function Rank(p: Phase): nat {
    match p
    case PromotionPreflight => 0
    case Preflight => 0
    case NativeBuild => 1
    case Dispatch => 1
    case BuildLookup => 2
    case Inspect => 3
    case Apply => 4
    case ApplyUncertain => 4
    case WaitGitOpsPR => 5
    case _ => 0
  }

  /** Nothing is written or proposed for a delivery before its apply phase, or for one that ends with its artifact. */
  predicate Early(op: Op) {
    op.kind.Deploy? ==>
      && (Rank(op.phase) < 4 ==> op.pr == NoPR && !op.applied)
      && (op.buildOnly ==> op.phase != ApplyUncertain && op.phase != WaitGitOpsPR)
  }

  /** Which intent a record of each kind can carry in each phase. */
  predicate IntentFits(op: Op) {
    if op.kind.Deploy? then
      match op.phase
      case BuildLookup => op.intent == NoIntent || op.intent == BuildIntent
      case Apply => op.intent == NoIntent || op.intent == GitOpsIntent
      case ApplyUncertain => op.intent == NoIntent || op.intent == GitOpsIntent
      case WaitGitOpsPR => op.intent == NoIntent || op.intent == GitOpsIntent
      case PromotionPreflight => op.intent == NoIntent
      case Preflight => op.intent == NoIntent
      case NativeBuild => op.intent == NoIntent
      case Dispatch => op.intent == NoIntent
      case Inspect => op.intent == NoIntent
      case _ => false
    else if IsFlow(op.kind) then
      && (op.phase == ComposeSource || op.phase == AdvanceMain || op.phase == QueueBuilds || op.phase == WaitChildren)
      && (op.intent == NoIntent || op.intent == SourceIntent)
    else true
  }

  predicate RecordOk(op: Op) {
    IntentFits(op) && Early(op)
    && (Terminal(op.status) ==> op.leaseOwner == NO_ID && (Guarded(op.kind) ==> op.leaseUntil == 0))
  }

  /** How a worker's copy, its program counter and what it last wrote hang together. */
  predicate Progress(w: Worker) {
    && SameIdentity(w.copy, w.last) && IntentFits(w.copy) && IntentFits(w.last) && Early(w.copy) && Early(w.last)
    && match w.pc
       case Claimed => w.last == w.copy
       case ReadyToDispatch => w.copy.kind.Deploy? && w.copy.phase == Dispatch && w.last.phase == BuildLookup
       case Dispatched => w.copy.kind.Deploy? && w.copy.phase == Dispatch && w.last.phase == BuildLookup
       case ReadyToPropose =>
         && w.copy.kind.Deploy? && w.copy.phase in {Apply, ApplyUncertain} && w.last.phase == ApplyUncertain
         && w.last.run == w.copy.run
       case Proposed =>
         && w.copy.kind.Deploy? && w.copy.phase in {Apply, ApplyUncertain} && w.last.phase == ApplyUncertain
         && w.last.run == w.copy.run
       case ReadyToWrite => IsFlow(w.copy.kind) && w.copy.intent == NoIntent && w.last == w.copy.(intent := SourceIntent)
       case Wrote => IsFlow(w.copy.kind) && w.copy.intent == NoIntent && w.last == w.copy.(intent := SourceIntent)
  }

  /** A token that still owns the lease finds the record exactly as it last wrote it. */
  predicate WorkerOk(st: State, t: Id)
    requires t in st.workers
  {
    var w := st.workers[t];
    && w.index < |st.ops| && Progress(w) && SameIdentity(st.ops[w.index], w.copy)
    && (st.ops[w.index].leaseOwner == t ==> st.ops[w.index] == w.last)
  }

  predicate Shape(st: State) {
    && |st.ledgers| == |st.ops| == |st.jobs| && NO_ID !in st.workers
    && (forall i :: 0 <= i < |st.ops| ==> RecordOk(st.ops[i]))
    && (forall t :: t in st.workers ==> WorkerOk(st, t))
  }

  predicate Enabled(st: State, step: Step, st': State) {
    Shape(st) && Next(st, step) == Some(st')
  }

  /** One record changes, on behalf of token `t` or with the lease given up. */
  predicate OneWrite(st: State, st': State, i: nat, t: Id) {
    && i < |st.ops| && |st'.ops| == |st.ops| && st'.ops == st.ops[i := st'.ops[i]]
    && SameIdentity(st.ops[i], st'.ops[i]) && RecordOk(st'.ops[i])
    && |st'.ledgers| == |st.ledgers| && |st'.jobs| == |st.jobs| && NO_ID !in st'.workers
    && (st'.ops[i].leaseOwner == NO_ID || st'.ops[i].leaseOwner == t)
    && (forall u :: u in st'.workers && u != t ==> u in st.workers && st'.workers[u] == st.workers[u])
    && (t in st'.workers ==> WorkerOk(st', t))
  }

  lemma OneWriteShape(st: State, st': State, i: nat, t: Id)
    requires Shape(st) && OneWrite(st, st', i, t)
    ensures Shape(st')
  {
    forall u | u in st'.workers ensures WorkerOk(st', u) {
      if u != t {
        assert WorkerOk(st, u);
      }
    }
  }

  lemma SavedFits(current: Op, w: Worker, token: Id, s: Save, now: nat)
    requires Progress(w) && Offers(w, s) && current == w.last
    ensures IntentFits(SavedOp(current, w.copy, token, s, now))
  {
    hide Confirmed, Early;
  }

  lemma SavedEarly(current: Op, w: Worker, token: Id, s: Save, now: nat)
    requires Progress(w) && Offers(w, s) && current == w.last
    ensures Early(SavedOp(current, w.copy, token, s, now))
  {
    hide SavedIntent, SavedStatus, IntentFits;
  }

  lemma SavedEnds(current: Op, w: Worker, token: Id, s: Save, now: nat)
    requires Progress(w) && Offers(w, s)
    ensures var saved := SavedOp(current, w.copy, token, s, now);
            && (Terminal(saved.status) ==> saved.leaseOwner == NO_ID && saved.leaseUntil == 0)
            && (!s.release ==> w.copy.kind.Deploy? && s.verdict.Continues?
                               && (s.phase == BuildLookup || s.phase == ApplyUncertain) && w.pc.Claimed?)
            && (!s.release && s.phase == BuildLookup ==> w.copy.phase == Dispatch)
            && (!s.release && s.phase == ApplyUncertain ==> w.copy.phase in {Apply, ApplyUncertain} && s.run == w.copy.run)
  {
    hide Confirmed;
  }

  lemma CommitWrites(st: State, token: Id, s: Save)
    requires Shape(st) && token in st.workers && CommitTx(st, token, s).Some?
    ensures OneWrite(st, CommitTx(st, token, s).value, st.workers[token].index, token)
  {
    hide Offers, SavedIntent, IntentFits, Early;
    assert WorkerOk(st, token);
    var w := st.workers[token];
    var current := st.ops[w.index];
    assert current == w.last;
    SavedEarly(current, w, token, s, st.now);
    SavedFits(current, w, token, s, st.now);
    SavedEnds(current, w, token, s, st.now);
  }

  lemma BeginWrites(st: State, token: Id, flowOk: bool)
    requires Shape(st) && token in st.workers && BeginTx(st, token, flowOk).Some?
    ensures OneWrite(st, BeginTx(st, token, flowOk).value, st.workers[token].index, token)
  {
    assert WorkerOk(st, token);
  }

  lemma AdmitWrites(st: State, token: Id, k: nat, a: Acknowledgement, admitted: bool)
    requires Shape(st) && token in st.workers && AdmitTx(st, token, k, a, admitted).Some?
    ensures OneWrite(st, AdmitTx(st, token, k, a, admitted).value, st.workers[token].index, token)
  {
    assert WorkerOk(st, token);
  }

  lemma CallShape(st: State, token: Id, from: Pc)
    requires Shape(st) && token in st.workers && CallTx(st, token, from).Some?
    ensures Shape(CallTx(st, token, from).value)
  {
    var st' := CallTx(st, token, from).value;
    assert WorkerOk(st, token);
    forall u | u in st'.workers ensures WorkerOk(st', u) {
      assert WorkerOk(st, u);
    }
  }

  lemma ClaimWrites(st: State, token: Id, i: nat)
    requires Shape(st) && Next(st, Claim(token, i)).Some?
    ensures OneWrite(st, Next(st, Claim(token, i)).value, i, token)
  {
    assert RecordOk(st.ops[i]);
  }

  lemma EnqueueShape(st: State, op: Op)
    requires Shape(st) && Next(st, Enqueue(op)).Some?
    ensures Shape(Next(st, Enqueue(op)).value)
  {
    var st' := Next(st, Enqueue(op)).value;
    forall u | u in st'.workers ensures WorkerOk(st', u) {
      assert WorkerOk(st, u);
    }
  }

  lemma NextShape(st: State, step: Step, st': State)
    requires Enabled(st, step, st')
    ensures Shape(st')
  {
    hide BeginTx, CommitTx, AdmitTx, CallTx, IsChoice, IsNew, Unresolved, WorkerOk;
    match step
    case Enqueue(op) => EnqueueShape(st, op);
    case Claim(token, i) =>
      ClaimWrites(st, token, i);
      OneWriteShape(st, st', i, token);
    case Begin(token, flowOk) =>
      BeginWrites(st, token, flowOk);
      OneWriteShape(st, st', st.workers[token].index, token);
    case CallDispatch(token) => CallShape(st, token, ReadyToDispatch);
    case CallPropose(token) => CallShape(st, token, ReadyToPropose);
    case CallWrite(token) => CallShape(st, token, ReadyToWrite);
    case Commit(token, s) =>
      CommitWrites(st, token, s);
      OneWriteShape(st, st', st.workers[token].index, token);
    case Admit(token, k, a, admitted) =>
      AdmitWrites(st, token, k, a, admitted);
      OneWriteShape(st, st', st.workers[token].index, token);
    case Stop(i) => StoppedShape(st, st', i);
    case StopJob(i) => StoppedShape(st, st', i);
    case Rewrite(i, op) => OneWriteShape(st, st', i, NO_ID) by { RewriteWrites(st, st', i, op); }
    case _ => SameLogShape(st, st');
  }

  lemma StoppedShape(st: State, st': State, i: nat)
    requires Shape(st) && i < |st.ops| && st' == StopTx(st, i)
    ensures Shape(st')
  {
    assert RecordOk(st.ops[i]);
    OneWriteShape(st, st', i, NO_ID);
  }

  lemma RewriteWrites(st: State, st': State, i: nat, op: Op)
    requires Shape(st) && i < |st.ops| && RewritesOther(st.ops[i], op) && st' == Write(st, i, op)
    ensures OneWrite(st, st', i, NO_ID)
  {
  }

  lemma SameLogShape(st: State, st': State)
    requires Shape(st) && st'.ops == st.ops && st'.ledgers == st.ledgers && |st'.jobs| == |st.jobs|
    requires forall u :: u in st'.workers ==> u in st.workers && st'.workers[u] == st.workers[u]
    ensures Shape(st')
  {
    forall u | u in st'.workers ensures WorkerOk(st', u) {
      assert WorkerOk(st, u);
    }
  }

  // ----- what every step keeps of the log -----

  predicate Keeps(st: State, st': State) {
    && |st.ops| <= |st'.ops|
    && forall i :: 0 <= i < |st.ops| ==> SameIdentity(st.ops[i], st'.ops[i])
  }

  lemma OneWriteKeeps(st: State, st': State, i: nat, t: Id)
    requires OneWrite(st, st', i, t)
    ensures Keeps(st, st') && |st'.ops| == |st.ops|
    ensures forall j :: 0 <= j < |st.ops| && j != i ==> st'.ops[j] == st.ops[j]
  {
  }

  lemma CallKeepsOps(st: State, token: Id, from: Pc)
    requires Shape(st) && token in st.workers && CallTx(st, token, from).Some?
    ensures CallTx(st, token, from).value.ops == st.ops && CallTx(st, token, from).value.fences == st.fences
  {
  }

  /** The record a step may change: the one it names or the one its worker holds. */
  function Subject(st: State, step: Step): int {
    match step
    case Claim(_, i) => i
    case Begin(t, _) => if t in st.workers then st.workers[t].index else -1
    case Commit(t, _) => if t in st.workers then st.workers[t].index else -1
    case Admit(t, _, _, _) => if t in st.workers then st.workers[t].index else -1
    case Stop(i) => i
    case StopJob(i) => i
    case Rewrite(i, _) => i
    case _ => -1
  }

  lemma NextKeeps(st: State, step: Step, st': State)
    requires Enabled(st, step, st')
    ensures Keeps(st, st')
    ensures forall j :: 0 <= j < |st.ops| && j != Subject(st, step) ==> st'.ops[j] == st.ops[j]
    ensures |st'.ops| == |st.ops| || (step.Enqueue? && st'.ops == st.ops + [step.op] && IsNew(st, step.op))
    ensures !step.Reserve? && !step.Refence? ==> st'.fences == st.fences
  {
    hide BeginTx, CommitTx, AdmitTx, CallTx, IsChoice, IsNew, Unresolved, WorkerOk, RecordOk;
    match step
    case Claim(token, i) => ClaimWrites(st, token, i);
    case Begin(token, flowOk) => TxFences(st, step, st'); BeginWrites(st, token, flowOk); OneWriteKeeps(st, st', st.workers[token].index, token);
    case CallDispatch(token) => CallKeepsOps(st, token, ReadyToDispatch);
    case CallPropose(token) => CallKeepsOps(st, token, ReadyToPropose);
    case CallWrite(token) => CallKeepsOps(st, token, ReadyToWrite);
    case Commit(token, s) => TxFences(st, step, st'); CommitWrites(st, token, s); OneWriteKeeps(st, st', st.workers[token].index, token);
    case Admit(token, k, a, admitted) => TxFences(st, step, st'); AdmitWrites(st, token, k, a, admitted); OneWriteKeeps(st, st', st.workers[token].index, token);
    case _ =>
  }

  lemma TxFences(st: State, step: Step, st': State)
    requires Enabled(st, step, st') && (step.Begin? || step.Commit? || step.Admit?)
    ensures st'.fences == st.fences
  {
    hide Offers, SaveAdmitted, SavedOp, Allowed;
  }
}
