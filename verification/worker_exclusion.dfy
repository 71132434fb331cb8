/**
  What a reservation excludes: while an environment is held no delivery, composition or
  release of it persists a mutation intent, and authority from an older epoch never returns.
 */
module WorkerExclusion {
  import opened Ids
  import opened WorkerModel
  import opened WorkerSafety

  predicate Quiet(op: Op) {
    op.intent == NoIntent && op.phase != ApplyUncertain
  }

  predicate IsHeld(st: State, e: Id) {
    e in st.fences && st.fences[e].held
  }

  /** Every managed write of a held environment is settled. */
  predicate HeldIsQuiet(st: State) {
    forall i :: 0 <= i < |st.ops| && Guarded(st.ops[i].kind) && IsHeld(st, st.ops[i].environment) ==> Quiet(st.ops[i])
  }

  lemma CommitKeepsQuiet(st: State, token: Id, s: Save)
    requires Shape(st) && token in st.workers && CommitTx(st, token, s).Some?
    requires var op := st.ops[st.workers[token].index]; Guarded(op.kind) && IsHeld(st, op.environment) && Quiet(op)
    ensures Quiet(CommitTx(st, token, s).value.ops[st.workers[token].index])
  {
    hide Confirmed;
    assert WorkerOk(st, token);
    SavedEnds(st.ops[st.workers[token].index], st.workers[token], token, s, st.now);
  }

  lemma NextQuiet(st: State, step: Step, st': State)
    requires Enabled(st, step, st') && HeldIsQuiet(st)
    ensures HeldIsQuiet(st')
  {
    hide Next, Shape;
    NextKeeps(st, step, st');
    forall i | 0 <= i < |st'.ops| && Guarded(st'.ops[i].kind) && IsHeld(st', st'.ops[i].environment)
      ensures Quiet(st'.ops[i])
    {
      if i < |st.ops| {
        assert SameIdentity(st.ops[i], st'.ops[i]);
        if step.Reserve? || step.Refence? {
          FenceStepQuiet(st, step, st', i);
        } else if i == Subject(st, step) {
          SubjectQuiet(st, step, st');
        }
      }
    }
  }

  lemma FenceStepQuiet(st: State, step: Step, st': State, i: nat)
    requires Enabled(st, step, st') && HeldIsQuiet(st) && (step.Reserve? || step.Refence?)
    requires i < |st.ops| && Guarded(st.ops[i].kind) && IsHeld(st', st.ops[i].environment)
    ensures i < |st'.ops| && st'.ops[i] == st.ops[i] && Quiet(st.ops[i])
  {
    hide WorkerOk, RecordOk;
  }

  /** The record a step writes stays quiet when its environment is held. */
  lemma SubjectQuiet(st: State, step: Step, st': State)
    requires Enabled(st, step, st') && !step.Reserve? && !step.Refence?
    requires 0 <= Subject(st, step) < |st.ops| <= |st'.ops|
    requires var op := st.ops[Subject(st, step)]; Guarded(op.kind) && IsHeld(st, op.environment) && Quiet(op)
    ensures Quiet(st'.ops[Subject(st, step)])
  {
    hide CommitTx, IsChoice;
    match step
    case Commit(token, s) => CommitKeepsQuiet(st, token, s);
    case _ =>
  }

  /** A free environment is reserved exactly when nothing of it is unresolved. */
  lemma ReserveIffResolved(st: State, e: Id)
    requires Shape(st) && e in st.fences && !st.fences[e].held
    ensures Next(st, Reserve(e)).Some?
        <==> forall i :: 0 <= i < |st.ops| && st.ops[i].environment == e ==> !Unresolved(st.ops[i], st.jobs[i].publication)
  {
  }

  // ----- intents and their evidence -----

  /** What must be on record when an intent disappears. */
  predicate Settles(before: Op, after: Op) {
    match before.intent
    case NoIntent => true
    case GitOpsIntent => after.applied || (after.pr.PR? && after.pr.number > 0 && (after.phase == WaitGitOpsPR || after.pr.closed))
    case BuildIntent => after.run == Completed
    case SourceIntent =>
      && |after.sources| == |before.sources|
      && exists k :: 0 <= k < |before.sources| && after.sources[k] != before.sources[k]
           && (forall j :: 0 <= j < |before.sources| && j != k ==> after.sources[j] == before.sources[j])
  }

  /** An intent is cleared only in the transaction that stores its evidence, and never replaced. */
  lemma IntentClearedWithEvidence(st: State, step: Step, st': State, i: nat)
    requires Enabled(st, step, st') && i < |st.ops| && Guarded(st.ops[i].kind)
    requires st.ops[i].intent != NoIntent
    ensures i < |st'.ops|
    ensures st'.ops[i].intent == st.ops[i].intent
            || (st'.ops[i].intent == NoIntent && Settles(st.ops[i], st'.ops[i]))
  {
    NextKeeps(st, step, st');
    if i == Subject(st, step) {
      SubjectClears(st, step, st');
    }
  }

  lemma SubjectClears(st: State, step: Step, st': State)
    requires Enabled(st, step, st')
    requires 0 <= Subject(st, step) < |st.ops| <= |st'.ops|
    requires var op := st.ops[Subject(st, step)]; Guarded(op.kind) && op.intent != NoIntent
    ensures var before, after := st.ops[Subject(st, step)], st'.ops[Subject(st, step)];
            after.intent == before.intent || (after.intent == NoIntent && Settles(before, after))
  {
    hide BeginTx, CommitTx, AdmitTx, IsChoice;
    match step
    case Commit(token, s) =>
      assert WorkerOk(st, token);
      CommitClears(st, token, s);
    case Begin(token, flowOk) => BeginKeepsOthers(st, token, flowOk, st.workers[token].index);
    case Admit(token, k, a, admitted) => AdmitClears(st, token, k, a, admitted, st.workers[token].index);
    case _ =>
  }

  lemma BeginKeepsOthers(st: State, token: Id, flowOk: bool, i: nat)
    requires Shape(st) && token in st.workers && BeginTx(st, token, flowOk).Some? && i < |st.ops|
    requires st.ops[i].intent != NoIntent
    ensures BeginTx(st, token, flowOk).value.ops[i] == st.ops[i]
  {
  }

  lemma AdmitClears(st: State, token: Id, k: nat, a: Acknowledgement, admitted: bool, i: nat)
    requires Shape(st) && token in st.workers && AdmitTx(st, token, k, a, admitted).Some? && i < |st.ops|
    requires Guarded(st.ops[i].kind) && st.ops[i].intent != NoIntent
    ensures var after := AdmitTx(st, token, k, a, admitted).value.ops[i];
            after == st.ops[i] || (after.intent == NoIntent && Settles(st.ops[i], after))
  {
    assert WorkerOk(st, token) && RecordOk(st.ops[i]);
    var after := AdmitTx(st, token, k, a, admitted).value.ops[i];
    if after != st.ops[i] {
      assert st.workers[token].index == i && after.sources[k] != st.ops[i].sources[k];
    }
  }

  lemma CommitClears(st: State, token: Id, s: Save)
    requires Shape(st) && token in st.workers && CommitTx(st, token, s).Some?
    requires Guarded(st.workers[token].copy.kind) && st.ops[st.workers[token].index].intent != NoIntent
    ensures var before, after := st.ops[st.workers[token].index], CommitTx(st, token, s).value.ops[st.workers[token].index];
            after.intent == before.intent || (after.intent == NoIntent && Settles(before, after))
  {
    assert WorkerOk(st, token) && RecordOk(st.ops[st.workers[token].index]);
    assert st.ops[st.workers[token].index] == st.workers[token].last;
    hide SavedOp, Settles, SaveAdmitted, Shape, IntentFits;
    SavedClears(st.workers[token], st.ops[st.workers[token].index], token, s, st.now);
  }

  /** The record a save computes keeps the intent or carries the evidence that settles it. */
  lemma SavedClears(w: Worker, current: Op, token: Id, s: Save, now: nat)
    requires Progress(w) && IntentFits(current) && Offers(w, s) && Guarded(w.copy.kind) && current.intent != NoIntent
    requires current == w.last
    ensures var after := SavedOp(current, w.copy, token, s, now);
            after.intent == current.intent || (after.intent == NoIntent && Settles(current, after))
  {
    if current.intent == SourceIntent && SavedIntent(current, w.copy, s) == NoIntent {
      assert Confirmed(current.sources, s.sources, current.phase, s.phase, s.evidence);
    }
  }

  // ----- epochs -----

  /** The operation was stamped in an epoch its environment has left behind. */
  predicate Stale(st: State, i: nat)
    requires i < |st.ops|
  {
    var op := st.ops[i];
    Guarded(op.kind) && op.environment in st.fences && op.epoch < st.fences[op.environment].epoch
  }

  /** Fences never move back. */
  lemma EpochsGrow(st: State, step: Step, st': State, e: Id)
    requires Enabled(st, step, st') && e in st.fences
    ensures e in st'.fences && st.fences[e].epoch <= st'.fences[e].epoch
  {
    hide WorkerOk, RecordOk, BeginTx, CommitTx, AdmitTx, CallTx;
    NextKeeps(st, step, st');
  }

  /** What an operation from an older epoch can still do: be claimed, fail, or be cancelled. */
  lemma StaleOnlyFails(st: State, step: Step, st': State, i: nat)
    requires Enabled(st, step, st') && i < |st.ops| && Stale(st, i)
    ensures i < |st'.ops| && Stale(st', i)
    ensures Subject(st, step) == i ==>
              && !step.Begin? && !step.Admit?
              && (step.Commit? ==> Failing(step.save.verdict) && Terminal(st'.ops[i].status))
  {
    hide Next, Shape;
    NextKeeps(st, step, st');
    EpochsGrow(st, step, st', st.ops[i].environment);
    assert SameIdentity(st.ops[i], st'.ops[i]);
    if Subject(st, step) == i {
      StaleRefused(st, step, st', i);
    }
  }

  lemma StaleRefused(st: State, step: Step, st': State, i: nat)
    requires Enabled(st, step, st') && i < |st.ops| <= |st'.ops| && Stale(st, i) && Subject(st, step) == i
    ensures !step.Begin? && !step.Admit?
    ensures step.Commit? ==> Failing(step.save.verdict) && Terminal(st'.ops[i].status)
  {
    hide IsChoice, IsNew, CommitTx, BeginTx, AdmitTx;
    match step
    case Commit(token, s) => StaleCommit(st, token, s, i);
    case Begin(token, flowOk) => StaleBegin(st, token, flowOk);
    case Admit(token, k, a, admitted) => StaleAdmit(st, token, k, a, admitted);
    case _ =>
  }

  lemma StaleBegin(st: State, token: Id, flowOk: bool)
    requires Shape(st) && token in st.workers && Stale(st, st.workers[token].index)
    ensures BeginTx(st, token, flowOk).None?
  {
  }

  lemma StaleAdmit(st: State, token: Id, k: nat, a: Acknowledgement, admitted: bool)
    requires Shape(st) && token in st.workers && Stale(st, st.workers[token].index)
    ensures AdmitTx(st, token, k, a, admitted).None?
  {
    assert WorkerOk(st, token);
  }

  lemma StaleCommit(st: State, token: Id, s: Save, i: nat)
    requires Shape(st) && token in st.workers && CommitTx(st, token, s).Some? && i < |st.ops| && Stale(st, i)
    ensures st.workers[token].index == i ==> Failing(s.verdict) && Terminal(CommitTx(st, token, s).value.ops[i].status)
    ensures SameIdentity(st.ops[i], CommitTx(st, token, s).value.ops[i])
  {
    hide Offers, SavedIntent;
    CommitWrites(st, token, s);
    assert WorkerOk(st, token);
  }
}
