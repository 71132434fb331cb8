/**
  What a reservation finds: when an environment is reserved, every write that was ever begun for
  it has its outcome on record.
 */
module WorkerReservation {
  import opened Ids
  import opened WorkerModel
  import opened WorkerSafety
  import opened WorkerExclusion
  import opened WorkerLedger
  import opened WorkerJobs
  import opened WorkerRuns
  import Proposals = WorkerProposals

  // ----- every intent ends with its evidence -----

  /** Step `n` clears this intent of operation `k` together with its evidence. */
  predicate SettlesAt(states: seq<State>, n: nat, k: nat, intent: Intent) {
    && n + 1 < |states| && k < |states[n].ops| && k < |states[n + 1].ops|
    && states[n].ops[k].intent == intent && states[n + 1].ops[k].intent == NoIntent
    && Settles(states[n].ops[k], states[n + 1].ops[k])
  }

  lemma {:induction false} SettledSince(states: seq<State>, steps: seq<Step>, i: nat, m: nat, k: nat) returns (n: nat)
    requires IsRun(states, steps) && i <= m < |states| && k < |states[i].ops| && Guarded(states[i].ops[k].kind)
    requires k < |states[m].ops| && states[i].ops[k].intent != NoIntent && states[m].ops[k].intent == NoIntent
    ensures i <= n < m && SettlesAt(states, n, k, states[i].ops[k].intent)
    decreases m - i
  {
    hide *;
    RunLength(states, steps);
    RunEnabled(states, steps, i);
    IntentClearedWithEvidence(states[i], steps[i], states[i + 1], k);
    KindStays(states, steps, i, i + 1, k);
    if states[i + 1].ops[k].intent == NoIntent {
      n := i;
      SettlesHere(states, n, k);
    } else {
      n := SettledSince(states, steps, i + 1, m, k);
    }
  }

  lemma SettlesHere(states: seq<State>, n: nat, k: nat)
    requires n + 1 < |states| && k < |states[n].ops| && k < |states[n + 1].ops|
    requires states[n + 1].ops[k].intent == NoIntent && Settles(states[n].ops[k], states[n + 1].ops[k])
    ensures SettlesAt(states, n, k, states[n].ops[k].intent)
  {
    hide Settles;
  }

  // ----- every dispatched build has been looked up -----

  /** Builds dispatched, or about to be. */
  function Dispatches(st: State, k: nat): nat
    requires k < |st.ledgers|
  {
    st.ledgers[k].dispatched + |Ready(st.workers, k, ReadyToDispatch)|
  }

  /** A delivery past its build look-up carries the completed run of whatever was dispatched for it. */
  predicate Looked(st: State, k: nat)
    requires k < |st.ops| && k < |st.ledgers|
  {
    st.ops[k].kind.Deploy? && Rank(st.ops[k].phase) >= 3 && Dispatches(st, k) >= 1 ==> st.ops[k].run == Completed
  }

  /** The step stores the look-up phase before a dispatch. */
  predicate Prepares(st: State, step: Step, k: nat) {
    && step.Commit? && step.token in st.workers && st.workers[step.token].index == k
    && step.save.phase == BuildLookup && !step.save.release
  }

  lemma DispatchReady(st: State, step: Step, st': State, t: Id)
    requires Enabled(st, step, st') && t in st'.workers && st'.workers[t].pc == ReadyToDispatch
    ensures (t in st.workers && st.workers[t] == st'.workers[t] && step != CallDispatch(t))
            || (step.Commit? && step.token == t && Prepares(st, step, st'.workers[t].index))
  {
    hide BeginTx, CommitTx, AdmitTx, IsChoice, IsNew, Unresolved, WorkerOk, RecordOk, JobsMove;
    match step
    case Commit(token, s) => Proposals.CommitReady(st, token, s, t);
    case Begin(token, flowOk) => Proposals.BeginReady(st, token, flowOk, t);
    case Admit(token, n, a, admitted) => Proposals.AdmitReady(st, token, n, a, admitted, t);
    case _ =>
  }

  lemma DispatchedStep(st: State, step: Step, st': State, k: nat)
    requires Enabled(st, step, st') && k < |st.ops|
    ensures k < |st.ledgers| && k < |st'.ledgers|
    ensures if step.CallDispatch? && step.token in st.workers && st.workers[step.token].index == k
            then st.workers[step.token].pc == ReadyToDispatch
                 && st'.workers == st.workers[step.token := st.workers[step.token].(pc := Dispatched)]
                 && st'.ledgers[k].dispatched == st.ledgers[k].dispatched + 1
            else st'.ledgers[k].dispatched == st.ledgers[k].dispatched
  {
    hide Offers, SaveAdmitted, SavedOp, Allowed, IsChoice, IsNew, WorkerOk, RecordOk, JobsMove;
    NextKeeps(st, step, st');
    NextShape(st, step, st');
  }

  lemma DispatchCount(st: State, step: Step, st': State, k: nat)
    requires Enabled(st, step, st') && k < |st.ops|
    ensures k < |st.ledgers| && k < |st'.ledgers|
    ensures !Prepares(st, step, k) ==> Dispatches(st', k) <= Dispatches(st, k)
  {
    hide Enabled;
    DispatchedStep(st, step, st', k);
    var before, after := Ready(st.workers, k, ReadyToDispatch), Ready(st'.workers, k, ReadyToDispatch);
    if step.CallDispatch? && step.token in st.workers && st.workers[step.token].index == k {
      assert after == before - {step.token} && step.token in before;
    } else if !Prepares(st, step, k) {
      forall t | t in after ensures t in before {
        DispatchReady(st, step, st', t);
      }
      Proposals.Within(after, before);
    }
  }

  /** What a save does to the look-up: it is left with the completed run, and the run stays. */
  lemma SavedRun(w: Worker, s: Save)
    requires Progress(w) && Offers(w, s) && w.copy.kind.Deploy? && Rank(s.phase) >= 3 && Rank(w.last.phase) >= 2
    ensures s.run == Completed || (Rank(w.last.phase) >= 3 && s.run == w.last.run)
  {
  }

  lemma CommitLooks(st: State, token: Id, s: Save)
    requires Shape(st) && token in st.workers && CommitTx(st, token, s).Some? && st.workers[token].copy.kind.Deploy?
    ensures var i := st.workers[token].index;
            var before, after := st.ops[i], CommitTx(st, token, s).value.ops[i];
            Rank(after.phase) >= 3 && Rank(before.phase) >= 2 ==>
              after.run == Completed || (Rank(before.phase) >= 3 && after.run == before.run)
  {
    CommitOwns(st, token, s);
    var w := st.workers[token];
    if Rank(s.phase) >= 3 && Rank(w.last.phase) >= 2 { SavedRun(w, s); }
    hide Offers, SavedIntent, SavedStatus, SaveAdmitted, IntentFits, Progress;
  }

  lemma SubjectLooks(st: State, step: Step, st': State, k: nat)
    requires Enabled(st, step, st') && k < |st.ops| <= |st'.ops| && Subject(st, step) == k && st.ops[k].kind.Deploy?
    ensures Rank(st'.ops[k].phase) >= 3 && Rank(st.ops[k].phase) >= 2 ==>
              st'.ops[k].run == Completed || (Rank(st.ops[k].phase) >= 3 && st'.ops[k].run == st.ops[k].run)
    ensures Prepares(st, step, k) ==> st'.ops[k].phase == BuildLookup
  {
    hide BeginTx, CommitTx, AdmitTx, IsChoice;
    match step
    case Commit(token, s) =>
      assert WorkerOk(st, token);
      CommitLooks(st, token, s);
      Proposals.CommitPhase(st, token, s);
    case Begin(token, flowOk) => DeliveriesDoNotBegin(st, token, flowOk);
    case Admit(token, n, a, admitted) => DeliveriesDoNotAdmit(st, token, n, a, admitted);
    case _ =>
  }

  lemma LookedStep(st: State, step: Step, st': State, k: nat)
    requires Enabled(st, step, st') && Balanced(st) && k < |st.ops| && k < |st.ledgers| && Looked(st, k)
    ensures k < |st'.ops| && k < |st'.ledgers| && Looked(st', k)
  {
    hide Enabled, Prepares, Ready, Rank;
    NextKeeps(st, step, st');
    DispatchCount(st, step, st', k);
    if st.ops[k].kind.Deploy? {
      DispatchReached(st, k);
      if Subject(st, step) == k {
        SubjectLooks(st, step, st', k);
        LookupRank();
      } else {
        PreparesSubject(st, step, k);
      }
    }
  }

  lemma LookupRank()
    ensures Rank(BuildLookup) == 2
  {
  }

  lemma PreparesSubject(st: State, step: Step, k: nat)
    ensures Prepares(st, step, k) ==> Subject(st, step) == k
  {
  }

  lemma DispatchReached(st: State, k: nat)
    requires Balanced(st) && k < |st.ops| && k < |st.ledgers| && st.ops[k].kind.Deploy?
    ensures Dispatches(st, k) >= 1 ==> Rank(st.ops[k].phase) >= 2
  {
    hide Ready;
    assert LedgerOk(st, k);
  }

  lemma NewIsLooked(st: State, op: Op, st': State)
    requires Enabled(st, Enqueue(op), st')
    ensures var k := |st.ops|; k < |st'.ops| && k < |st'.ledgers| && Looked(st', k)
  {
    hide RecordOk, WorkerOk, Ready;
  }

  lemma {:induction false} RunLooked(states: seq<State>, steps: seq<Step>, i: nat, k: nat)
    requires IsRun(states, steps) && i < |states| && k < |states[i].ops|
    ensures k < |states[i].ledgers| && Looked(states[i], k)
  {
    hide *;
    RunLength(states, steps);
    Proposals.RunLedger(states, steps, i, k);
    if i == 0 {
      assert false by { Proposals.StartsEmpty(states, steps); }
    } else {
      RunEnabled(states, steps, i - 1);
      RunBalanced(states, steps, i - 1);
      NextKeeps(states[i - 1], steps[i - 1], states[i]);
      if k < |states[i - 1].ops| {
        RunLooked(states, steps, i - 1, k);
        LookedStep(states[i - 1], steps[i - 1], states[i], k);
      } else {
        NewIsLooked(states[i - 1], steps[i - 1].op, states[i]);
      }
    }
  }

  lemma RunBalanced(states: seq<State>, steps: seq<Step>, i: nat)
    requires IsRun(states, steps) && i < |states|
    ensures Balanced(states[i])
  {
    hide *;
    RunInvariant(states, steps, i);
  }

  // ----- reservations -----

  lemma ReservesResolved(st: State, e: Id, st': State, k: nat)
    requires Enabled(st, Reserve(e), st') && k < |st.ops| && st.ops[k].environment == e
    ensures k < |st.jobs| && !Unresolved(st.ops[k], st.jobs[k].publication)
  {
    hide WorkerOk, RecordOk, Unresolved;
    ReserveIffResolved(st, e);
  }

  /** What is on record of an operation when its environment is reserved. */
  predicate OnRecord(op: Op, ledger: Ledger, jobs: Jobs) {
    && Quiet(op) && (op.pr.PR? ==> op.pr.merged || op.pr.closed)
    && ledger.written <= ledger.begun == ledger.acknowledged
    && (op.kind.Deploy? && ledger.dispatched == 1 ==> op.run == Completed)
    && !jobs.publication.Working? && !jobs.publication.Unclear?
  }

  lemma ResolvedIsOnRecord(st: State, k: nat)
    requires k < |st.ops| && k < |st.ledgers| && k < |st.jobs| && Balanced(st) && Looked(st, k) && Guarded(st.ops[k].kind)
    requires !Unresolved(st.ops[k], st.jobs[k].publication)
    ensures OnRecord(st.ops[k], st.ledgers[k], st.jobs[k])
  {
    hide Ready;
    assert LedgerOk(st, k);
    if st.ops[k].kind.Deploy? && st.ledgers[k].dispatched == 1 {
      assert Rank(st.ops[k].phase) >= 2;
    }
  }

  /**
    When an environment is reserved, every source write begun for it has been acknowledged, every
    dispatched build has its completed run, every pull request is merged or closed, no publication
    is under way, and every intent that was ever stored was cleared by a step with its evidence.
   */
  lemma ReservedMeansSettled(states: seq<State>, steps: seq<Step>, m: nat, e: Id, k: nat)
    requires IsRun(states, steps) && m < |steps| && steps[m] == Reserve(e)
    requires m < |states| && k < |states[m].ops| && states[m].ops[k].environment == e && Guarded(states[m].ops[k].kind)
    ensures k < |states[m].ledgers| && k < |states[m].jobs|
    ensures OnRecord(states[m].ops[k], states[m].ledgers[k], states[m].jobs[k])
    ensures forall i :: 0 <= i <= m && k < |states[i].ops| && states[i].ops[k].intent != NoIntent ==>
              exists n :: i <= n < m && SettlesAt(states, n, k, states[i].ops[k].intent)
  {
    hide *;
    RunLength(states, steps);
    Proposals.RunLedger(states, steps, m, k);
    RunEnabled(states, steps, m);
    RunBalanced(states, steps, m);
    RunLooked(states, steps, m, k);
    ReservesResolved(states[m], e, states[m + 1], k);
    ResolvedIsOnRecord(states[m], k);
    QuietNow(states[m].ops[k], states[m].ledgers[k], states[m].jobs[k]);
    forall i | 0 <= i <= m && k < |states[i].ops| && states[i].ops[k].intent != NoIntent
      ensures exists n :: i <= n < m && SettlesAt(states, n, k, states[i].ops[k].intent)
    {
      KindStays(states, steps, i, m, k);
      SameGuard(states[i].ops[k].kind, states[m].ops[k].kind);
      var n := SettledSince(states, steps, i, m, k);
    }
  }

  lemma SameGuard(a: Kind, b: Kind)
    requires a == b
    ensures Guarded(a) == Guarded(b)
  {
  }

  lemma QuietNow(op: Op, ledger: Ledger, jobs: Jobs)
    requires OnRecord(op, ledger, jobs)
    ensures op.intent == NoIntent
  {
  }
}
