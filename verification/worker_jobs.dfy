/**
  The managed jobs of native deliveries: they belong to the native build phase, a delivery
  leaves it for its artifact only behind a passed publication, and none starts under a hold.
 */
module WorkerJobs {
  import opened Ids
  import opened WorkerModel
  import opened WorkerSafety
  import opened WorkerExclusion

  /** A publication exists behind a passed build only, and unfinished jobs hold their delivery in its phase. */
  predicate JobsFit(op: Op, jobs: Jobs) {
    && (jobs.publication.NoJob? || jobs.build.Passed?)
    && (HasUnfinished(jobs) ==> op.kind.Deploy? && op.phase == NativeBuild && op.status != Succeeded)
  }

  /** No publication of a held environment is running. */
  predicate NothingRuns(st: State, i: nat)
    requires i < |st.ops| == |st.jobs|
  {
    Guarded(st.ops[i].kind) && IsHeld(st, st.ops[i].environment) ==> !st.jobs[i].publication.Working?
  }

  predicate JobsOk(st: State) {
    |st.jobs| == |st.ops| && forall i :: 0 <= i < |st.ops| ==> JobsFit(st.ops[i], st.jobs[i]) && NothingRuns(st, i)
  }

  lemma OpenedFits(op: Op, jobs: Jobs)
    requires JobsFit(op, jobs) && op.kind.Deploy? && op.phase == NativeBuild && op.status != Succeeded
    ensures JobsFit(op, Opened(jobs)) && (Opened(jobs).publication.Working? ==> jobs.publication.Working?)
  {
  }

  lemma MovedFits(op: Op, a: Jobs, b: Jobs, current: bool)
    requires JobsFit(op, a) && JobsMove(a, b, current)
    ensures JobsFit(op, b) && (b.publication.Working? ==> a.publication.Working? || current)
  {
  }

  /** The owner of the lease leaves the native build phase only behind a passed publication. */
  lemma CommitFits(st: State, token: Id, s: Save)
    requires Shape(st) && token in st.workers && CommitTx(st, token, s).Some?
    requires JobsFit(st.ops[st.workers[token].index], st.jobs[st.workers[token].index])
    ensures var st', i := CommitTx(st, token, s).value, st.workers[token].index;
            st'.jobs == st.jobs && JobsFit(st'.ops[i], st'.jobs[i])
  {
    hide SavedIntent, IntentFits, Early, OffersApply, Allowed;
    assert WorkerOk(st, token);
  }

  lemma SubjectFits(st: State, step: Step, st': State, i: nat)
    requires Enabled(st, step, st') && i < |st.ops| <= |st'.ops| && |st'.jobs| == |st'.ops| && Subject(st, step) == i
    requires JobsFit(st.ops[i], st.jobs[i])
    ensures JobsFit(st'.ops[i], st'.jobs[i])
    ensures st'.jobs[i].publication.Working? ==> st.jobs[i].publication.Working?
  {
    hide CommitTx, IsChoice;
    match step
    case Commit(token, s) => CommitFits(st, token, s);
    case _ =>
  }

  /** The job a step moves; `-1` when it moves none on its own. */
  function JobSubject(step: Step): int {
    match step
    case OpenJob(i) => i
    case MoveJob(i, _) => i
    case _ => -1
  }

  lemma JobsStay(st: State, step: Step, st': State, i: nat)
    requires Enabled(st, step, st') && i < |st.ops| && Subject(st, step) != i && JobSubject(step) != i
    ensures i < |st'.jobs| && st'.jobs[i] == st.jobs[i]
  {
    hide Offers, SaveAdmitted, SavedOp, Allowed, IsChoice, IsNew, WorkerOk;
  }

  lemma JobStepFits(st: State, step: Step, st': State, i: nat)
    requires Enabled(st, step, st') && i < |st.ops| && JobSubject(step) == i && JobsOk(st)
    ensures i < |st'.ops| == |st'.jobs| && st'.ops[i] == st.ops[i] && st'.fences == st.fences
    ensures JobsFit(st'.ops[i], st'.jobs[i]) && NothingRuns(st', i)
  {
    assert JobsFit(st.ops[i], st.jobs[i]) && NothingRuns(st, i);
    hide JobsFit, JobsMove, Opened, Shape;
    match step
    case OpenJob(_) => OpenedFits(st.ops[i], st.jobs[i]);
    case MoveJob(_, jobs) => MovedFits(st.ops[i], st.jobs[i], jobs, Current(st, st.ops[i]));
  }

  lemma EnqueuedFits(st: State, op: Op, st': State)
    requires Enabled(st, Enqueue(op), st')
    ensures |st'.ops| == |st'.jobs| == |st.ops| + 1
    ensures JobsFit(st'.ops[|st.ops|], st'.jobs[|st.ops|]) && NothingRuns(st', |st.ops|)
  {
  }

  /** A fence closes only while no publication of its environment is running. */
  lemma FenceStepRuns(st: State, step: Step, st': State, i: nat)
    requires Enabled(st, step, st') && (step.Reserve? || step.Refence?) && i < |st.ops| == |st.jobs| && NothingRuns(st, i)
    ensures i < |st'.ops| == |st'.jobs| && st'.ops[i] == st.ops[i] && st'.jobs[i] == st.jobs[i] && NothingRuns(st', i)
  {
    hide WorkerOk, RecordOk;
  }

  lemma NextJobs(st: State, step: Step, st': State)
    requires Enabled(st, step, st') && JobsOk(st)
    ensures JobsOk(st')
  {
    hide Next, Shape, JobsFit, NothingRuns;
    NextKeeps(st, step, st');
    NextShape(st, step, st');
    ShapeLengths(st');
    forall i | 0 <= i < |st'.ops| ensures JobsFit(st'.ops[i], st'.jobs[i]) && NothingRuns(st', i) {
      if i < |st.ops| {
        assert JobsFit(st.ops[i], st.jobs[i]) && NothingRuns(st, i);
        NextJob(st, step, st', i);
      } else {
        EnqueuedFits(st, step.op, st');
      }
    }
  }

  lemma ShapeLengths(st: State)
    requires Shape(st)
    ensures |st.jobs| == |st.ops|
  {
    hide RecordOk, WorkerOk;
  }

  lemma NextJob(st: State, step: Step, st': State, i: nat)
    requires Enabled(st, step, st') && JobsOk(st) && i < |st.ops| <= |st'.ops| == |st'.jobs|
    requires SameIdentity(st.ops[i], st'.ops[i]) && (i != Subject(st, step) ==> st'.ops[i] == st.ops[i])
    requires !step.Reserve? && !step.Refence? ==> st'.fences == st.fences
    ensures JobsFit(st'.ops[i], st'.jobs[i]) && NothingRuns(st', i)
  {
    hide Next, Shape, JobsFit;
    if step.Reserve? || step.Refence? {
      FenceStepRuns(st, step, st', i);
    } else if JobSubject(step) == i {
      JobStepFits(st, step, st', i);
    } else if Subject(st, step) == i {
      SubjectFits(st, step, st', i);
    } else {
      JobsStay(st, step, st', i);
    }
  }

  // ----- settled records -----

  /** A settled record changes in one way only: a failure with an unfinished job can be relabelled cancelled. */
  lemma TerminalStep(st: State, step: Step, st': State, k: nat)
    requires Enabled(st, step, st') && JobsOk(st) && k < |st.ops| && Terminal(st.ops[k].status)
    ensures k < |st'.ops|
    ensures st'.ops[k] == if step == StopJob(k) && st.ops[k].status == Failed then Stopped(st.ops[k]) else st.ops[k]
    ensures st'.ops[k] != st.ops[k] ==> HasUnfinished(st.jobs[k])
  {
    NextKeeps(st, step, st');
    hide JobsOk, NothingRuns;
    if Subject(st, step) == k {
      assert JobsFit(st.ops[k], st.jobs[k]) by { FitsAt(st, k); }
      TerminalSubject(st, step, st', k);
    }
  }

  lemma FitsAt(st: State, k: nat)
    requires JobsOk(st) && k < |st.ops|
    ensures k < |st.jobs| && JobsFit(st.ops[k], st.jobs[k])
  {
  }

  lemma TerminalSubject(st: State, step: Step, st': State, k: nat)
    requires Enabled(st, step, st') && k < |st.ops| <= |st'.ops| && Terminal(st.ops[k].status) && Subject(st, step) == k
    requires JobsFit(st.ops[k], st.jobs[k])
    ensures step == StopJob(k) && st'.ops[k] == Stopped(st.ops[k]) && HasUnfinished(st.jobs[k])
    ensures st.ops[k].status != Succeeded && (st.ops[k].status == Cancelled ==> st'.ops[k] == st.ops[k])
  {
    hide Offers, SavedOp, IntentFits, Allowed;
    assert RecordOk(st.ops[k]);
    assert step.StopJob?;
  }

  /** Exactly the failures that still own an unfinished job can be relabelled. */
  lemma RelabelledIff(st: State, k: nat)
    requires Shape(st) && JobsOk(st) && k < |st.ops| && Terminal(st.ops[k].status)
    ensures (exists step, st' :: Enabled(st, step, st') && k < |st'.ops| && st'.ops[k] != st.ops[k])
        <==> st.ops[k].status == Failed && HasUnfinished(st.jobs[k])
  {
    FitsAt(st, k);
    if st.ops[k].status == Failed && HasUnfinished(st.jobs[k]) {
      var st' := StopTx(st, k);
      assert RecordOk(st.ops[k]);
      assert Enabled(st, StopJob(k), st') && st'.ops[k] != st.ops[k];
    }
    hide *;
    forall step, st' | Enabled(st, step, st') && k < |st'.ops| && st'.ops[k] != st.ops[k]
      ensures st.ops[k].status == Failed && HasUnfinished(st.jobs[k])
    {
      TerminalStep(st, step, st', k);
    }
  }
}
