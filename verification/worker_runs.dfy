/** Theorems about every run of the leased workers, from an empty log and any fences. */
module WorkerRuns {
  import opened Ids
  import opened WorkerModel
  import opened WorkerSafety
  import opened WorkerExclusion
  import opened WorkerLedger
  import opened WorkerJobs

  predicate Initial(st: State) {
    st.ops == [] && st.ledgers == [] && st.jobs == [] && st.workers == map[] && forall e :: e in st.fences ==> !st.fences[e].held
  }

  /** Indices in range, which every reachable state satisfies. */
  predicate Ranged(st: State) {
    |st.ledgers| == |st.ops| == |st.jobs| && forall t :: t in st.workers ==> st.workers[t].index < |st.ops|
  }

  predicate Takes(st: State, step: Step, st': State) {
    Ranged(st) && Next(st, step) == Some(st')
  }

  predicate IsRun(states: seq<State>, steps: seq<Step>) {
    && |states| == |steps| + 1 && Initial(states[0])
    && forall i {:trigger steps[i]} :: 0 <= i < |steps| ==> Takes(states[i], steps[i], states[i + 1])
  }

  lemma {:induction false} RunInvariant(states: seq<State>, steps: seq<Step>, i: nat)
    requires IsRun(states, steps) && i < |states|
    ensures Shape(states[i]) && HeldIsQuiet(states[i]) && Balanced(states[i]) && JobsOk(states[i])
  {
    if i > 0 {
      RunInvariant(states, steps, i - 1);
      hide Next, Shape, HeldIsQuiet, Balanced, JobsOk, Initial;
      assert Takes(states[i - 1], steps[i - 1], states[i]);
      NextShape(states[i - 1], steps[i - 1], states[i]);
      NextQuiet(states[i - 1], steps[i - 1], states[i]);
      NextBalanced(states[i - 1], steps[i - 1], states[i]);
      NextJobs(states[i - 1], steps[i - 1], states[i]);
    }
  }

  lemma RunEnabled(states: seq<State>, steps: seq<Step>, i: nat)
    requires IsRun(states, steps) && i < |steps|
    ensures Enabled(states[i], steps[i], states[i + 1])
  {
    hide Next, Shape;
    RunInvariant(states, steps, i);
    assert Takes(states[i], steps[i], states[i + 1]);
  }

  /**
    While an environment is held, no delivery, composition or release of it carries a
    mutation intent, an uncertain apply or a running publication, whatever workers, crashes and
    expiries do.
   */
  lemma NoManagedWriteWhileHeld(states: seq<State>, steps: seq<Step>, i: nat, k: nat)
    requires IsRun(states, steps) && i < |states| && k < |states[i].ops|
    requires Guarded(states[i].ops[k].kind) && IsHeld(states[i], states[i].ops[k].environment)
    ensures states[i].ops[k].intent == NoIntent && states[i].ops[k].phase != ApplyUncertain
    ensures k < |states[i].jobs| && !states[i].jobs[k].publication.Working?
  {
    hide Shape, Balanced, JobsFit;
    RunInvariant(states, steps, i);
    assert NothingRuns(states[i], k);
  }

  /** A delivery's build is dispatched at most once, across all workers that ever hold its lease. */
  lemma DispatchedOnce(states: seq<State>, steps: seq<Step>, i: nat, k: nat)
    requires IsRun(states, steps) && i < |states| && k < |states[i].ops| && Guarded(states[i].ops[k].kind)
    ensures k < |states[i].ledgers| && states[i].ledgers[k].dispatched <= 1
    ensures states[i].ledgers[k].dispatched == 1 ==> Rank(states[i].ops[k].phase) >= 2
  {
    hide Shape, HeldIsQuiet;
    RunInvariant(states, steps, i);
    assert LedgerOk(states[i], k);
  }

  /**
    Every source write begun is either acknowledged with its evidence or still on record as
    an intent, so a write is never issued while the outcome of an earlier one is unknown.
   */
  lemma SourceWritesAccounted(states: seq<State>, steps: seq<Step>, i: nat, k: nat)
    requires IsRun(states, steps) && i < |states| && k < |states[i].ops| && Guarded(states[i].ops[k].kind)
    ensures k < |states[i].ledgers|
    ensures states[i].ledgers[k].begun == states[i].ledgers[k].acknowledged + Open(states[i].ops[k])
    ensures states[i].ledgers[k].written <= states[i].ledgers[k].acknowledged + Open(states[i].ops[k])
  {
    hide Shape, HeldIsQuiet;
    RunInvariant(states, steps, i);
    assert LedgerOk(states[i], k);
  }

  // ----- progress of one record -----

  lemma {:induction false} RunKeeps(states: seq<State>, steps: seq<Step>, i: nat, j: nat, k: nat)
    requires IsRun(states, steps) && i <= j < |states| && k < |states[i].ops|
    ensures k < |states[j].ops| && SameIdentity(states[i].ops[k], states[j].ops[k])
    decreases j - i
  {
    if i < j {
      hide Next, Shape, Initial;
      RunKeeps(states, steps, i, j - 1, k);
      RunEnabled(states, steps, j - 1);
      NextKeeps(states[j - 1], steps[j - 1], states[j]);
    }
  }

  lemma StoppedIsTerminal(op: Op)
    ensures Terminal(Stopped(op).status) && Stopped(op).status != Failed
  {
  }

  /**
    Settled records are absorbing: a success or a cancellation never changes again, and a failure
    can only be relabelled cancelled, by cancelling a worker job of it.
   */
  lemma {:induction false} TerminalForEver(states: seq<State>, steps: seq<Step>, i: nat, j: nat, k: nat)
    requires IsRun(states, steps) && i <= j < |states| && k < |states[i].ops| && Terminal(states[i].ops[k].status)
    ensures k < |states[j].ops| && Terminal(states[j].ops[k].status)
    ensures states[j].ops[k] != states[i].ops[k] ==>
              states[i].ops[k].status == Failed && states[j].ops[k] == Stopped(states[i].ops[k])
              && exists m :: i <= m < j && steps[m] == StopJob(k)
    decreases j - i
  {
    hide *;
    if i < j {
      RunLength(states, steps);
      TerminalForEver(states, steps, i, j - 1, k);
      RunEnabled(states, steps, j - 1);
      RunJobs(states, steps, j - 1);
      TerminalStep(states[j - 1], steps[j - 1], states[j], k);
      StoppedIsTerminal(states[i].ops[k]);
    }
  }

  lemma RunJobs(states: seq<State>, steps: seq<Step>, i: nat)
    requires IsRun(states, steps) && i < |states|
    ensures Shape(states[i]) && JobsOk(states[i])
  {
    hide *;
    RunInvariant(states, steps, i);
  }

  /** Exactly the failures that still own an unfinished worker job are open to that. */
  lemma RelabelledInRunIff(states: seq<State>, steps: seq<Step>, i: nat, k: nat)
    requires IsRun(states, steps) && i < |states| && k < |states[i].ops| && Terminal(states[i].ops[k].status)
    ensures k < |states[i].jobs|
    ensures (exists step, st' :: Enabled(states[i], step, st') && k < |st'.ops| && st'.ops[k] != states[i].ops[k])
        <==> states[i].ops[k].status == Failed && HasUnfinished(states[i].jobs[k])
  {
    hide *;
    RunJobs(states, steps, i);
    FitsAt(states[i], k);
    RelabelledIff(states[i], k);
  }

  /** The stage of a delivery never falls back; both apply phases count as one stage. */
  lemma StageStep(st: State, step: Step, st': State, k: nat)
    requires Enabled(st, step, st') && k < |st.ops| && st.ops[k].kind.Deploy?
    ensures k < |st'.ops| && Rank(st.ops[k].phase) <= Rank(st'.ops[k].phase)
  {
    hide BeginTx, CommitTx, AdmitTx, IsChoice;
    NextKeeps(st, step, st');
    if Subject(st, step) == k {
      match step
      case Commit(token, s) => CommitMoves(st, token, s);
      case Begin(token, flowOk) => DeliveriesDoNotBegin(st, token, flowOk);
      case Admit(token, n, a, admitted) => DeliveriesDoNotAdmit(st, token, n, a, admitted);
      case _ =>
    }
  }

  lemma CommitMoves(st: State, token: Id, s: Save)
    requires Shape(st) && token in st.workers && CommitTx(st, token, s).Some?
    requires st.workers[token].copy.kind.Deploy?
    ensures Rank(st.ops[st.workers[token].index].phase) <= Rank(CommitTx(st, token, s).value.ops[st.workers[token].index].phase)
  {
    CommitOwns(st, token, s);
    SavedRank(st.workers[token], s);
    hide Offers, SavedIntent;
  }

  lemma DeliveriesDoNotBegin(st: State, token: Id, flowOk: bool)
    requires Shape(st) && token in st.workers && BeginTx(st, token, flowOk).Some?
    ensures !st.ops[st.workers[token].index].kind.Deploy?
  {
    assert WorkerOk(st, token);
  }

  lemma DeliveriesDoNotAdmit(st: State, token: Id, k: nat, a: Acknowledgement, admitted: bool)
    requires Shape(st) && token in st.workers && AdmitTx(st, token, k, a, admitted).Some?
    ensures !st.ops[st.workers[token].index].kind.Deploy?
  {
    assert WorkerOk(st, token);
  }

  lemma RunLength(states: seq<State>, steps: seq<Step>)
    requires IsRun(states, steps)
    ensures |states| == |steps| + 1
  {
    hide Takes, Initial;
  }

  lemma KindStays(states: seq<State>, steps: seq<Step>, i: nat, j: nat, k: nat)
    requires IsRun(states, steps) && i <= j < |states| && k < |states[i].ops|
    ensures k < |states[j].ops| && states[j].ops[k].kind == states[i].ops[k].kind
  {
    hide IsRun;
    RunKeeps(states, steps, i, j, k);
  }

  lemma {:induction false} StageNeverFallsBack(states: seq<State>, steps: seq<Step>, i: nat, j: nat, k: nat)
    requires IsRun(states, steps) && i <= j < |states| && k < |states[i].ops| && states[i].ops[k].kind.Deploy?
    ensures k < |states[j].ops| && Rank(states[i].ops[k].phase) <= Rank(states[j].ops[k].phase)
    decreases j - i
  {
    hide *;
    if i < j {
      RunLength(states, steps);
      StageNeverFallsBack(states, steps, i, j - 1, k);
      KindStays(states, steps, i, j - 1, k);
      RunEnabled(states, steps, j - 1);
      StageStep(states[j - 1], steps[j - 1], states[j], k);
    }
  }

  /** Once an operation's epoch has passed, it never writes again: every later commit of it fails it. */
  lemma {:induction false} StaleForEver(states: seq<State>, steps: seq<Step>, i: nat, j: nat, k: nat)
    requires IsRun(states, steps) && i <= j < |states| && k < |states[i].ops| && Stale(states[i], k)
    ensures k < |states[j].ops| && Stale(states[j], k)
    ensures j < |steps| && Subject(states[j], steps[j]) == k && steps[j].Commit? ==> Failing(steps[j].save.verdict)
    ensures j < |steps| && Subject(states[j], steps[j]) == k ==> !steps[j].Begin? && !steps[j].Admit?
    decreases j - i
  {
    hide Next, Shape;
    if i < j {
      StaleForEver(states, steps, i, j - 1, k);
      RunEnabled(states, steps, j - 1);
      StaleOnlyFails(states[j - 1], steps[j - 1], states[j], k);
    }
    if j < |steps| {
      RunEnabled(states, steps, j);
      StaleOnlyFails(states[j], steps[j], states[j + 1], k);
    }
  }

  // ----- no lost update -----

  function TokenOf(step: Step): Id {
    match step
    case Claim(t, _) => t
    case Begin(t, _) => t
    case Commit(t, _) => t
    case Admit(t, _, _, _) => t
    case _ => NO_ID
  }

  /** Whoever changes a record leaves its own token, or none, as the owner of the lease. */
  lemma LeaseFollowsWriter(st: State, step: Step, st': State, k: nat)
    requires Enabled(st, step, st') && k < |st.ops|
    ensures k < |st'.ops|
    ensures st'.ops[k] != st.ops[k] ==> st'.ops[k].leaseOwner == NO_ID || st'.ops[k].leaseOwner == TokenOf(step)
  {
    hide BeginTx, CommitTx, AdmitTx, IsChoice;
    NextKeeps(st, step, st');
    if Subject(st, step) == k {
      match step
      case Commit(token, s) => CommitWrites(st, token, s);
      case Begin(token, flowOk) => BeginWrites(st, token, flowOk);
      case Admit(token, n, a, admitted) => AdmitWrites(st, token, n, a, admitted);
      case _ =>
    }
  }

  /** Only a claim makes a token the owner of a lease. */
  lemma OwnerStays(st: State, step: Step, st': State, k: nat, t: Id)
    requires Enabled(st, step, st') && k < |st.ops| <= |st'.ops| && t != NO_ID && st'.ops[k].leaseOwner == t
    requires !(step.Claim? && step.token == t)
    ensures st.ops[k].leaseOwner == t
  {
    hide Offers, IntentFits, SavedIntent, Allowed, IsChoice;
    NextKeeps(st, step, st');
  }

  lemma {:induction false} OwnerSince(states: seq<State>, steps: seq<Step>, i: nat, j: nat, k: nat, t: Id)
    requires IsRun(states, steps) && i <= j < |states| && k < |states[i].ops| && t != NO_ID
    requires k < |states[j].ops| && states[j].ops[k].leaseOwner == t
    requires forall m :: i <= m < j ==> !(steps[m].Claim? && steps[m].token == t)
    ensures states[i].ops[k].leaseOwner == t
    decreases j - i
  {
    hide Next, Shape;
    if i < j {
      RunKeeps(states, steps, i, j - 1, k);
      RunEnabled(states, steps, j - 1);
      NextKeeps(states[j - 1], steps[j - 1], states[j]);
      OwnerStays(states[j - 1], steps[j - 1], states[j], k, t);
      OwnerSince(states, steps, i, j - 1, k, t);
    }
  }

  /**
    A committed save overwrites nothing of others: between a token's claim (step i) and its
    commit (step j), any step m that changed the record was made under that same token.
   */
  lemma NoLostUpdate(states: seq<State>, steps: seq<Step>, i: nat, m: nat, j: nat, k: nat, t: Id)
    requires IsRun(states, steps) && i < m < j < |steps| && t != NO_ID
    requires steps[i] == Claim(t, k) && steps[j].Commit? && steps[j].token == t && Subject(states[j], steps[j]) == k
    requires forall n :: i < n < j ==> !(steps[n].Claim? && steps[n].token == t)
    ensures k < |states[m].ops| && k < |states[m + 1].ops|
    ensures states[m + 1].ops[k] != states[m].ops[k] ==> TokenOf(steps[m]) == t
  {
    hide Next, Shape, OffersDeploy, SavedOp;
    RunEnabled(states, steps, i);
    NextKeeps(states[i], steps[i], states[i + 1]);
    ClaimInRange(states[i], t, k, states[i + 1]);
    RunKeeps(states, steps, i, m, k);
    RunKeeps(states, steps, i, m + 1, k);
    RunEnabled(states, steps, j);
    CommitOwner(states[j], t, steps[j].save, states[j + 1]);
    OwnerSince(states, steps, m + 1, j, k, t);
    RunEnabled(states, steps, m);
    LeaseFollowsWriter(states[m], steps[m], states[m + 1], k);
  }

  lemma ClaimInRange(st: State, t: Id, k: nat, st': State)
    requires Enabled(st, Claim(t, k), st')
    ensures k < |st.ops|
  {
  }

  lemma CommitOwner(st: State, t: Id, s: Save, st': State)
    requires Enabled(st, Commit(t, s), st')
    ensures t in st.workers && st.workers[t].index < |st.ops| && st.ops[st.workers[t].index].leaseOwner == t
  {
    hide Offers, SavedOp;
  }

  /** What a save stores it stores over the record it claimed or last wrote. */
  lemma CommitOverwritesOwn(st: State, token: Id, s: Save)
    requires Shape(st) && token in st.workers && CommitTx(st, token, s).Some?
    ensures st.ops[st.workers[token].index] == st.workers[token].last
  {
    CommitOwns(st, token, s);
  }
}
