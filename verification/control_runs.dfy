/**
  The reservation log and the leased workers in one run. They share the environments: a worker
  sees of each the epoch and whether a hold is active, and a reservation is admitted only while
  nothing of its environment is unresolved among the workers' operations.
 */
module ControlRuns {
  import opened Ids
  import Hold = DevHoldModel
  import HoldSteps = DevHoldSteps
  import HoldSafety = DevHoldSafety
  import HoldRuns = DevHoldRuns
  import Fences = DevHoldFence
  import Work = WorkerModel
  import WorkSafety = WorkerSafety
  import WorkExclusion = WorkerExclusion
  import WorkRuns = WorkerRuns
  import WorkProposals = WorkerProposals
  import Reservations = WorkerReservation

  datatype Control = Control(hold: Hold.State, work: Work.State)

  datatype Step = OnHold(hold: HoldSteps.Step) | OnWork(work: Work.Step)

  /** What the workers see of the environments. */
  function View(st: Hold.State): map<Id, Work.Fence> {
    map e | e in st.environments :: Fences.FenceOf(st, e)
  }

  predicate Reserving(step: HoldSteps.Step) {
    step.Submit? && step.command.request.action == Hold.Reserve
  }

  function Reserved(step: HoldSteps.Step): Id
    requires Reserving(step)
  {
    step.command.request.input.environment
  }

  /** The check that a reservation makes of all operations of its environment. */
  predicate EffectsResolved(work: Work.State, e: Id)
    requires |work.jobs| == |work.ops|
  {
    forall i :: 0 <= i < |work.ops| && work.ops[i].environment == e ==> !Work.Unresolved(work.ops[i], work.jobs[i].publication)
  }

  predicate Next(st: Control, step: Step, st': Control) {
    match step
    case OnHold(s) =>
      && HoldSteps.Next(st.hold, s, st'.hold) && st'.work == st.work.(fences := View(st'.hold))
      && |st.work.jobs| == |st.work.ops|
      && (Reserving(s) ==> s.command.checks.effectsResolved == EffectsResolved(st.work, Reserved(s)))
    case OnWork(s) =>
      && !s.Reserve? && !s.Refence? && st'.hold == st.hold && WorkRuns.Takes(st.work, s, st'.work)
  }

  predicate IsRun(states: seq<Control>, steps: seq<Step>) {
    && |states| == |steps| + 1
    && HoldSteps.Initial(states[0].hold) && WorkRuns.Initial(states[0].work) && states[0].work.fences == View(states[0].hold)
    && forall i {:trigger steps[i]} :: 0 <= i < |steps| ==> Next(states[i], steps[i], states[i + 1])
  }

  // ----- a reservation moves the fence of its own environment only -----

  lemma AppendedLookup(ops: seq<Hold.Operation>, op: Hold.Operation, id: Id)
    ensures Hold.Has(ops, id) ==> Hold.Has(ops + [op], id) && Hold.Get(ops + [op], id) == Hold.Get(ops, id)
    ensures !Hold.Has(ops, id) && Hold.Has(ops + [op], id) ==> Hold.Get(ops + [op], id) == op
  {
    var i, j := Hold.Find(ops, id), Hold.Find(ops + [op], id);
    if i < |ops| {
      assert (ops + [op])[i].id == id;
    }
  }

  lemma AppendedRecovery(ops: seq<Hold.Operation>, op: Hold.Operation, receipt: Hold.Operation, hold: Hold.Operation)
    requires op.kind == Hold.Reservation && receipt.proof.OfSettlement? && Hold.RecoveryLink(ops + [op], receipt, hold)
    ensures Hold.RecoveryLink(ops, receipt, hold)
  {
    AppendedLookup(ops, op, receipt.proof.request.restoration);
    hide Hold.Get, Hold.Has;
    assert forall i :: 0 <= i < |ops| ==> (ops + [op])[i] == ops[i];
  }

  lemma AppendedLinks(ops: seq<Hold.Operation>, op: Hold.Operation, receipt: Hold.Operation, hold: Hold.Operation)
    requires op.kind == Hold.Reservation && receipt.proof.OfSettlement?
    requires Hold.ConfirmationLink(ops + [op], receipt, hold) && Hold.VerificationLink(ops + [op], receipt, hold)
    ensures Hold.ConfirmationLink(ops, receipt, hold) && Hold.VerificationLink(ops, receipt, hold)
  {
    AppendedLookup(ops, op, receipt.proof.confirmation);
    AppendedLookup(ops, op, receipt.proof.request.verification);
    hide Hold.Get, Hold.Has;
    assert forall i :: 0 <= i < |ops| ==> (ops + [op])[i] == ops[i];
  }

  /** A new hold releases no other. */
  lemma NoNewRelease(st: Hold.State, st': Hold.State, op: Hold.Operation, hold: Hold.Operation)
    requires st'.operations == st.operations + [op] && st'.quarantines == st.quarantines && op.kind == Hold.Reservation
    requires Hold.IsReleased(st', hold)
    ensures Hold.IsReleased(st, hold)
  {
    var i :| 0 <= i < |st'.operations| && Hold.Receipt(st', st'.operations[i], hold);
    assert i < |st.operations|;
    var receipt := st.operations[i];
    if !Hold.PlainReceipt(receipt, hold) {
      hide Hold.RecoveryLink, Hold.ConfirmationLink, Hold.VerificationLink;
      AppendedRecovery(st.operations, op, receipt, hold);
      AppendedLinks(st.operations, op, receipt, hold);
    }
    assert Hold.Receipt(st, receipt, hold);
  }

  lemma ReservesOnly(st: Hold.State, step: HoldSteps.Step, st': Hold.State, e: Id)
    requires HoldSafety.Inv(st) && HoldSteps.Next(st, step, st') && Reserving(step)
    requires e in st.environments && e != Reserved(step)
    ensures e in st'.environments && Fences.FenceOf(st', e) == Fences.FenceOf(st, e)
  {
    HoldRuns.NextInv(st, step, st');
    ReserveShape(st, step, st');
    hide HoldSteps.Next, HoldSafety.Inv, Hold.IsReleased, Hold.ActiveFrom;
    Fences.FencesMoveLawfully(st, step, st', e);
    if Hold.Active(st, e).Some? && Hold.Active(st', e).None? {
      var h := HoldSafety.ActiveRecord(st, e);
      var op := HoldSteps.CommandTx(st, step.command).operation;
      if Hold.IsReleased(st', st.operations[h]) {
        NoNewRelease(st, st', op, st.operations[h]);
      }
      ActiveAgain(st', h);
    }
  }

  lemma ActiveAgain(st: Hold.State, h: nat)
    requires HoldSafety.Inv(st) && h < |st.operations| && st.operations[h].kind == Hold.Reservation
    requires !Hold.IsReleased(st, st.operations[h])
    ensures Hold.Active(st, st.operations[h].environment).Some?
  {
    Fences.HoldIsActive(st, h);
  }

  lemma ReserveShape(st: Hold.State, step: HoldSteps.Step, st': Hold.State)
    requires HoldSafety.Inv(st) && HoldSteps.Next(st, step, st') && Reserving(step)
    ensures var op := HoldSteps.CommandTx(st, step.command).operation;
            && st'.operations == st.operations + [op] && st'.quarantines == st.quarantines && op.kind == Hold.Reservation
            && op.environment == Reserved(step) && Reserved(step) in st.environments
            && Hold.Active(st, Reserved(step)).None? && step.command.checks.effectsResolved
            && Reserved(step) in st'.environments
            && st'.environments[Reserved(step)].epoch == st.environments[Reserved(step)].epoch + 1
            && forall e :: e in st.environments && e != Reserved(step) ==>
                 e in st'.environments && st'.environments[e] == st.environments[e]
  {
    HoldSafety.ReserveAccepted(st, step.command);
    hide HoldSafety.Inv, HoldSteps.ReservationReplay, Hold.ActiveFrom;
  }

  /** A hold begins in no other step. */
  lemma OnlyReservingHolds(st: Hold.State, step: HoldSteps.Step, st': Hold.State, e: Id)
    requires HoldSafety.Inv(st) && HoldSteps.Next(st, step, st') && e in st.environments && !Reserving(step)
    requires Hold.Active(st, e).None?
    ensures Hold.Active(st', e).None?
  {
    hide HoldSteps.Next, HoldSafety.Inv, Hold.IsReleased, HoldSafety.ReplayOf, HoldSafety.WellFormed, HoldSteps.CommandTx;
    HoldRuns.NextInv(st, step, st');
    HoldRuns.NextShape(st, step, st');
    if Hold.Active(st', e).Some? {
      var h := HoldSafety.ActiveRecord(st', e);
      if h < |st.operations| {
        Fences.HoldOutlives(st, step, st', e, h);
      }
    }
  }

  // ----- the workers' side of a joint step -----

  /** What a step is for the workers. */
  function WorkerStep(step: Step, st': Control): Work.Step {
    match step
    case OnHold(s) => if Reserving(s) then Work.Reserve(Reserved(s)) else Work.Refence(View(st'.hold))
    case OnWork(s) => s
  }

  predicate Linked(st: Control) {
    HoldSafety.Inv(st.hold) && WorkSafety.Shape(st.work) && st.work.fences == View(st.hold)
  }

  lemma ReservedFence(st: Hold.State, step: HoldSteps.Step, st': Hold.State)
    requires HoldSafety.Inv(st) && HoldSteps.Next(st, step, st') && Reserving(step)
    ensures var e := Reserved(step);
            && st'.environments.Keys == st.environments.Keys && e in st.environments && !Fences.FenceOf(st, e).held
            && Fences.FenceOf(st', e) == Work.Fence(Fences.FenceOf(st, e).epoch + 1, true)
  {
    ReserveShape(st, step, st');
    HoldRuns.NextInv(st, step, st');
    assert HoldSteps.Fresh(st, step.command.id) && HoldSteps.ReserveTx(st, step.command).Accepted?
           && st' == HoldSteps.ReserveTx(st, step.command).state;
    hide HoldSteps.Next, HoldSafety.Inv, HoldSteps.ReserveTx, HoldSteps.CommandTx, HoldSafety.SameRecord, Hold.ActiveFrom;
    Fences.ReserveEpoch(st, step.command, Reserved(step));
  }

  lemma ReservedView(st: Hold.State, step: HoldSteps.Step, st': Hold.State)
    requires HoldSafety.Inv(st) && HoldSteps.Next(st, step, st') && Reserving(step)
    ensures var e := Reserved(step);
            && e in View(st) && !View(st)[e].held && View(st') == View(st)[e := Work.Fence(View(st)[e].epoch + 1, true)]
  {
    hide HoldSteps.Next, HoldSafety.Inv, Reserving, Fences.FenceOf;
    ReservedFence(st, step, st');
    forall a | a in st.environments && a != Reserved(step) ensures Fences.FenceOf(st', a) == Fences.FenceOf(st, a) {
      ReservesOnly(st, step, st', a);
    }
  }

  lemma HeldView(st: Hold.State, step: HoldSteps.Step, st': Hold.State)
    requires HoldSafety.Inv(st) && HoldSteps.Next(st, step, st') && !Reserving(step)
    ensures View(st').Keys == View(st).Keys
    ensures forall e :: e in View(st) ==> Work.HeldMoves(View(st)[e], View(st')[e])
  {
    HoldRuns.NextInv(st, step, st');
    hide HoldSteps.Next, HoldSafety.Inv, Hold.Active, HoldSafety.SameRecord;
    assert View(st').Keys == st'.environments.Keys == st.environments.Keys == View(st).Keys;
    forall e | e in View(st) ensures Work.HeldMoves(View(st)[e], View(st')[e]) {
      Fences.FencesMoveLawfully(st, step, st', e);
      if Hold.Active(st, e).None? {
        OnlyReservingHolds(st, step, st', e);
      }
    }
  }

  lemma ReserveTaken(work: Work.State, e: Id)
    requires WorkSafety.Shape(work) && WorkRuns.Ranged(work) && e in work.fences && !work.fences[e].held
    requires EffectsResolved(work, e)
    ensures WorkRuns.Takes(work, Work.Reserve(e), work.(fences := work.fences[e := Work.Fence(work.fences[e].epoch + 1, true)]))
  {
    hide WorkSafety.Shape, Work.Unresolved;
  }

  lemma RefenceTaken(work: Work.State, fences: map<Id, Work.Fence>)
    requires WorkRuns.Ranged(work) && fences.Keys == work.fences.Keys
    requires forall e :: e in work.fences ==> Work.HeldMoves(work.fences[e], fences[e])
    ensures WorkRuns.Takes(work, Work.Refence(fences), work.(fences := fences))
  {
    hide Work.HeldMoves;
  }

  lemma ShapeIsRanged(work: Work.State)
    requires WorkSafety.Shape(work)
    ensures WorkRuns.Ranged(work)
  {
    hide WorkSafety.RecordOk, WorkSafety.Progress;
    forall t | t in work.workers ensures work.workers[t].index < |work.ops| { assert WorkSafety.WorkerOk(work, t); }
  }

  /** Every joint step is a step of the workers' model, and keeps the two sides linked. */
  lemma StepIsWorkers(st: Control, step: Step, st': Control)
    requires Linked(st) && Next(st, step, st')
    ensures WorkRuns.Takes(st.work, WorkerStep(step, st'), st'.work) && Linked(st')
  {
    hide WorkSafety.Shape, HoldSafety.Inv, HoldSteps.Next, Work.Next, EffectsResolved, View, Work.HeldMoves;
    ShapeIsRanged(st.work);
    match step
    case OnHold(s) =>
      HoldRuns.NextInv(st.hold, s, st'.hold);
      if Reserving(s) {
        ReserveShape(st.hold, s, st'.hold);
        ReservedView(st.hold, s, st'.hold);
        ReserveTaken(st.work, Reserved(s));
      } else {
        HeldView(st.hold, s, st'.hold);
        RefenceTaken(st.work, View(st'.hold));
      }
      WorkSafety.NextShape(st.work, WorkerStep(step, st'), st'.work);
    case OnWork(s) =>
      WorkSafety.NextKeeps(st.work, s, st'.work);
      WorkSafety.NextShape(st.work, s, st'.work);
  }

  // ----- joint runs -----

  lemma StepAt(states: seq<Control>, steps: seq<Step>, i: nat)
    requires IsRun(states, steps) && i < |steps|
    ensures |states| == |steps| + 1 && Next(states[i], steps[i], states[i + 1])
  {
    hide Next;
  }

  lemma StartsLinked(states: seq<Control>, steps: seq<Step>)
    requires IsRun(states, steps)
    ensures |states| == |steps| + 1 && WorkRuns.Initial(states[0].work) && Linked(states[0])
  {
    hide Next;
    HoldSafety.InitialInv(states[0].hold);
    hide HoldSafety.Inv, HoldSteps.Initial;
  }

  lemma {:induction false} RunLinked(states: seq<Control>, steps: seq<Step>, i: nat)
    requires IsRun(states, steps) && i < |states|
    ensures Linked(states[i])
  {
    hide *;
    StartsLinked(states, steps);
    if i > 0 {
      RunLinked(states, steps, i - 1);
      StepAt(states, steps, i - 1);
      StepIsWorkers(states[i - 1], steps[i - 1], states[i]);
    }
  }

  function Works(states: seq<Control>): seq<Work.State> {
    seq(|states|, i requires 0 <= i < |states| => states[i].work)
  }

  function WorkSteps(states: seq<Control>, steps: seq<Step>): seq<Work.Step>
    requires |states| == |steps| + 1
  {
    seq(|steps|, i requires 0 <= i < |steps| => WorkerStep(steps[i], states[i + 1]))
  }

  lemma WorksAt(states: seq<Control>, steps: seq<Step>)
    requires IsRun(states, steps)
    ensures |states| == |steps| + 1 == |Works(states)| && |WorkSteps(states, steps)| == |steps|
    ensures forall i :: 0 <= i < |states| ==> Works(states)[i] == states[i].work
    ensures forall i :: 0 <= i < |steps| && steps[i].OnWork? ==> WorkSteps(states, steps)[i] == steps[i].work
    ensures forall i :: 0 <= i < |steps| && steps[i].OnHold? && Reserving(steps[i].hold) ==>
              WorkSteps(states, steps)[i] == Work.Reserve(Reserved(steps[i].hold))
  {
    hide Next, Reserving;
  }

  /** So all that is proved of runs of the workers holds of joint runs. */
  lemma IsWorkerRun(states: seq<Control>, steps: seq<Step>)
    requires IsRun(states, steps)
    ensures WorkRuns.IsRun(Works(states), WorkSteps(states, steps))
  {
    hide *;
    StartsLinked(states, steps);
    forall i | 0 <= i < |steps|
      ensures WorkRuns.Takes(states[i].work, WorkerStep(steps[i], states[i + 1]), states[i + 1].work)
    {
      RunLinked(states, steps, i);
      StepAt(states, steps, i);
      StepIsWorkers(states[i], steps[i], states[i + 1]);
    }
    Projects(states, steps);
  }

  lemma Projects(states: seq<Control>, steps: seq<Step>)
    requires |states| == |steps| + 1 && WorkRuns.Initial(states[0].work)
    requires forall i :: 0 <= i < |steps| ==> WorkRuns.Takes(states[i].work, WorkerStep(steps[i], states[i + 1]), states[i + 1].work)
    ensures WorkRuns.IsRun(Works(states), WorkSteps(states, steps))
  {
    hide WorkRuns.Takes, WorkRuns.Initial, WorkerStep;
    var works, calls := Works(states), WorkSteps(states, steps);
    forall i | 0 <= i < |calls| ensures WorkRuns.Takes(works[i], calls[i], works[i + 1]) {
      assert works[i] == states[i].work && calls[i] == WorkerStep(steps[i], states[i + 1]);
    }
  }

  lemma HeldIsActive(st: Control, e: Id)
    requires Linked(st) && e in st.hold.environments && Hold.Active(st.hold, e).Some?
    ensures WorkExclusion.IsHeld(st.work, e)
  {
    hide HoldSafety.Inv, WorkSafety.Shape, Hold.Active;
  }

  /** While a hold of its environment is active, no guarded operation has an intent, an uncertain apply or a running publication. */
  lemma NoWriteUnderActiveHold(states: seq<Control>, steps: seq<Step>, i: nat, k: nat)
    requires IsRun(states, steps) && i < |states| && k < |states[i].work.ops| && Work.Guarded(states[i].work.ops[k].kind)
    requires states[i].work.ops[k].environment in states[i].hold.environments
    requires Hold.Active(states[i].hold, states[i].work.ops[k].environment).Some?
    ensures states[i].work.ops[k].intent == Work.NoIntent && states[i].work.ops[k].phase != Work.ApplyUncertain
    ensures k < |states[i].work.jobs| && !states[i].work.jobs[k].publication.Working?
  {
    hide *;
    IsWorkerRun(states, steps);
    WorksAt(states, steps);
    RunLinked(states, steps, i);
    HeldIsActive(states[i], states[i].work.ops[k].environment);
    var works, calls := Works(states), WorkSteps(states, steps);
    WorkRuns.NoManagedWriteWhileHeld(works, calls, i, k);
  }

  /** Every accepted reservation finds every write of its environment with its outcome on record. */
  lemma ReservationFindsSettled(states: seq<Control>, steps: seq<Step>, m: nat, k: nat)
    requires IsRun(states, steps) && m < |steps| && m < |states| && steps[m].OnHold? && Reserving(steps[m].hold)
    requires k < |states[m].work.ops| && Work.Guarded(states[m].work.ops[k].kind)
    requires states[m].work.ops[k].environment == Reserved(steps[m].hold)
    ensures k < |states[m].work.ledgers| && k < |states[m].work.jobs|
    ensures Reservations.OnRecord(states[m].work.ops[k], states[m].work.ledgers[k], states[m].work.jobs[k])
  {
    hide *;
    IsWorkerRun(states, steps);
    WorksAt(states, steps);
    var works, calls := Works(states), WorkSteps(states, steps);
    Reservations.ReservedMeansSettled(works, calls, m, Reserved(steps[m].hold), k);
  }

  // ----- operations from before a reservation -----

  /** Operations are stamped with an epoch that their environment has reached. */
  predicate Stamped(st: Work.State, k: nat)
    requires k < |st.ops|
  {
    var op := st.ops[k];
    Work.Guarded(op.kind) ==> op.environment in st.fences && op.epoch <= st.fences[op.environment].epoch
  }

  lemma {:induction false} RunStamped(states: seq<Work.State>, steps: seq<Work.Step>, i: nat, k: nat)
    requires WorkRuns.IsRun(states, steps) && i < |states| && k < |states[i].ops|
    ensures Stamped(states[i], k)
  {
    hide *;
    WorkRuns.RunLength(states, steps);
    if i == 0 {
      assert false by { WorkProposals.StartsEmpty(states, steps); }
    } else {
      var st, step, st' := states[i - 1], steps[i - 1], states[i];
      WorkRuns.RunEnabled(states, steps, i - 1);
      WorkSafety.NextKeeps(st, step, st');
      if k < |st.ops| {
        RunStamped(states, steps, i - 1, k);
        StampedStep(st, step, st', k);
      } else {
        StampedNew(st, step.op, st', k);
      }
    }
  }

  lemma StampedStep(st: Work.State, step: Work.Step, st': Work.State, k: nat)
    requires WorkSafety.Enabled(st, step, st') && k < |st.ops| && Stamped(st, k)
    ensures k < |st'.ops| && Stamped(st', k)
  {
    hide WorkSafety.Enabled;
    WorkSafety.NextKeeps(st, step, st');
    assert WorkSafety.SameIdentity(st.ops[k], st'.ops[k]);
    if Work.Guarded(st.ops[k].kind) {
      WorkExclusion.EpochsGrow(st, step, st', st.ops[k].environment);
    }
  }

  lemma StampedNew(st: Work.State, op: Work.Op, st': Work.State, k: nat)
    requires Work.IsNew(st, op) && st'.ops == st.ops + [op] && st'.fences == st.fences && k == |st.ops|
    ensures Stamped(st', k)
  {
  }

  /**
    A reservation fences out every operation that existed when it was made: from then on all it
    can store is its failure, under this hold, its recoveries and whatever comes after them.
   */
  lemma FencedOutForEver(states: seq<Control>, steps: seq<Step>, m: nat, j: nat, k: nat)
    requires IsRun(states, steps) && m < j < |states| && m < |steps| && steps[m].OnHold? && Reserving(steps[m].hold)
    requires k < |states[m].work.ops| && Work.Guarded(states[m].work.ops[k].kind)
    requires states[m].work.ops[k].environment == Reserved(steps[m].hold)
    ensures k < |states[j].work.ops| && WorkExclusion.Stale(states[j].work, k)
    ensures j < |steps| && steps[j].OnWork? && WorkSafety.Subject(states[j].work, steps[j].work) == k ==>
              !steps[j].work.Begin? && !steps[j].work.Admit?
              && (steps[j].work.Commit? ==> Work.Failing(steps[j].work.save.verdict))
  {
    hide *;
    IsWorkerRun(states, steps);
    WorksAt(states, steps);
    var works, calls := Works(states), WorkSteps(states, steps);
    RunStamped(works, calls, m, k);
    WorkRuns.RunEnabled(works, calls, m);
    ReservedIsStale(works[m], Reserved(steps[m].hold), works[m + 1], k);
    WorkRuns.StaleForEver(works, calls, m + 1, j, k);
  }

  lemma ReservedIsStale(st: Work.State, e: Id, st': Work.State, k: nat)
    requires WorkSafety.Enabled(st, Work.Reserve(e), st') && k < |st.ops| && Stamped(st, k)
    requires Work.Guarded(st.ops[k].kind) && st.ops[k].environment == e
    ensures k < |st'.ops| && WorkExclusion.Stale(st', k)
  {
    hide WorkSafety.RecordOk, WorkSafety.WorkerOk, Work.Unresolved;
  }
}
