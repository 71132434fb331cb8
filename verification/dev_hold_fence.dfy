/**
  The reservation log as the leased workers see it: each environment is an epoch and a flag
  that says whether a hold is active. Every step of the log moves that fence lawfully, so
  what the workers' model assumes of reservations is what the log provides.
 */
module DevHoldFence {
  import opened Ids
  import opened DevHoldModel
  import opened DevHoldSteps
  import opened DevHoldSafety
  import opened DevHoldRuns
  import Worker = WorkerModel

  function FenceOf(st: State, e: Id): Worker.Fence
    requires e in st.environments
  {
    Worker.Fence(st.environments[e].epoch, Active(st, e).Some?)
  }

  /** A new hold starts unreleased: no receipt in the log can name an identity that is still fresh. */
  lemma NewHoldUnreleased(st: State, st': State, op: Operation)
    requires Inv(st) && AppendsHold(st, st', op)
    ensures !IsReleased(st', op)
  {
    hide ActiveFrom;
    AppendsKeeps(st, st', op);
    HoldAppend(st, st', op);
    forall i | 0 <= i < |st'.operations| ensures !Receipt(st', st'.operations[i], op) {
      if i < |st.operations| {
        var receipt := st.operations[i];
        assert WellFormed(st, receipt) && receipt.id != op.id;
        assert !PlainReceipt(receipt, op);
        if RestorationReceipt(st', receipt, op) {
          RecoveryPredates(st, st', op, receipt);
        }
      }
    }
  }

  lemma RecoveryPredates(st: State, st': State, op: Operation, receipt: Operation)
    requires Inv(st) && AppendsHold(st, st', op) && receipt.proof.OfSettlement?
    ensures !RecoveryLink(st'.operations, receipt, op)
  {
    hide ActiveFrom;
    forall r | 0 <= r < |st.operations| && st.operations[r].kind == Restoration
      ensures st.operations[r].parent != op.id
    {
      assert WellFormed(st, st.operations[r]);
    }
  }

  /** An epoch moves only under an active hold, or with the reservation of a free environment. */
  lemma EpochMoves(st: State, step: Step, st': State, e: Id)
    requires Inv(st) && Next(st, step, st') && e in st.environments && Active(st, e).None?
    ensures e in st'.environments
    ensures st'.environments[e].epoch == st.environments[e].epoch
            || (Active(st', e).Some? && st'.environments[e].epoch == st.environments[e].epoch + 1)
  {
    hide Inv, Active, ReplayOf, WellFormed, CommandTx, FinishReleaseTx;
    NextShape(st, step, st');
    match step
    case Submit(c) => CommandEpoch(st, c, e);
    case Settle(i, now, checks) =>
      var hold := FinishAccepted(st, i, now, checks);
      hide RestorationReceipt;
    case _ => OtherEpoch(st, step, st', e);
  }

  lemma OtherEpoch(st: State, step: Step, st': State, e: Id)
    requires Inv(st) && Next(st, step, st') && e in st.environments && !step.Submit? && !step.Settle?
    ensures e in st'.environments && st'.environments[e].epoch == st.environments[e].epoch
  {
    hide CommandTx, FinishReleaseTx, Active, RestorationAllowed, VerificationAllowed, BaselineExpected;
    NextShape(st, step, st');
  }

  lemma CommandEpoch(st: State, c: Command, e: Id)
    requires Inv(st) && Fresh(st, c.id) && CommandTx(st, c).Accepted? && e in st.environments && Active(st, e).None?
    ensures var st' := CommandTx(st, c).state;
            e in st'.environments
            && (st'.environments[e].epoch == st.environments[e].epoch
                || (Active(st', e).Some? && st'.environments[e].epoch == st.environments[e].epoch + 1))
  {
    hide ReserveTx, ReleaseTx, CaptureTx, DeployTx, RequestRestorationTx, ConfirmTx, VerifyTx, BeginReleaseTx;
    hide Inv, Active, ReplayOf, WellFormed;
    BoundedFences(st);
    CommandAccepts(st, c);
    match c.request.action
    case Reserve => ReserveEpoch(st, c, e);
    case Release => ReleaseAccepted(st, c);
    case Capture => CaptureAccepted(st, c);
    case RequestRestoration => var hold := RequestAccepted(st, c);
    case Verify => var p, a := VerifyAccepted(st, c);
    case _ =>
  }

  lemma ReserveEpoch(st: State, c: Command, e: Id)
    requires Inv(st) && Fresh(st, c.id) && c.request.action == Reserve && ReserveTx(st, c).Accepted?
    requires e in st.environments
    ensures var st' := ReserveTx(st, c).state;
            e in st'.environments
            && (st'.environments[e] == st.environments[e]
                || (Active(st', e).Some? && st'.environments[e].epoch == st.environments[e].epoch + 1))
  {
    ReserveAccepted(st, c);
    hide ReserveTx, IsReleased, Inv, WellFormed;
    var st', op := ReserveTx(st, c).state, ReserveTx(st, c).operation;
    HoldAppend(st, st', op);
    NewHoldUnreleased(st, st', op);
    HoldIsActive(st', |st.operations|);
  }

  lemma HoldIsActive(st: State, h: nat)
    requires Inv(st) && h < |st.operations| && st.operations[h].kind == Reservation && !IsReleased(st, st.operations[h])
    ensures Active(st, st.operations[h].environment).Some?
  {
    UnreleasedIsActive(st, h);
  }

  /** A hold becomes active only by the reservation that moves the epoch. */
  lemma BecomesHeld(st: State, step: Step, st': State, e: Id)
    requires Inv(st) && Next(st, step, st') && e in st.environments
    requires Active(st, e).None? && Active(st', e).Some?
    ensures e in st'.environments && st'.environments[e].epoch == st.environments[e].epoch + 1
  {
    hide Next, Inv, IsReleased, ReplayOf, WellFormed, CommandTx;
    NextInv(st, step, st');
    NextShape(st, step, st');
    var h := ActiveRecord(st', e);
    if h < |st.operations| {
      HoldOutlives(st, step, st', e, h);
    } else {
      AppendedHoldFences(st, step.command, e);
    }
  }

  lemma HoldOutlives(st: State, step: Step, st': State, e: Id, h: nat)
    requires Inv(st) && Next(st, step, st') && h < |st.operations| <= |st'.operations|
    requires IsHoldOf(st'.operations[h], e) && !IsReleased(st', st'.operations[h])
    ensures Active(st, e).Some?
  {
    hide Next, ActiveFrom, Receipt, WellFormed;
    NextInv(st, step, st');
    assert SameRecord(st.operations[h], st'.operations[h]);
    HoldRecordStays(st, st', h);
    if IsReleased(st, st.operations[h]) {
      ReleaseIsFinal(st, step, st', h);
    } else {
      UnreleasedIsActive(st, h);
    }
  }

  lemma AppendedHoldFences(st: State, c: Command, e: Id)
    requires Inv(st) && Fresh(st, c.id) && CommandTx(st, c).Accepted? && e in st.environments
    requires IsHoldOf(CommandTx(st, c).operation, e)
    ensures var st' := CommandTx(st, c).state;
            e in st'.environments && st'.environments[e].epoch == st.environments[e].epoch + 1
  {
    hide ReserveTx, ReleaseTx, CaptureTx, DeployTx, RequestRestorationTx, ConfirmTx, VerifyTx, BeginReleaseTx;
    hide Inv, ReplayOf, WellFormed, Active;
    BoundedFences(st);
    CommandAccepts(st, c);
    ReserveAccepted(st, c);
  }

  /** Every step of the log is a lawful move of every fence. */
  lemma FencesMoveLawfully(st: State, step: Step, st': State, e: Id)
    requires Inv(st) && Next(st, step, st') && e in st.environments
    ensures e in st'.environments && Worker.FenceMoves(FenceOf(st, e), FenceOf(st', e))
  {
    hide Next, Inv, ReplayOf, WellFormed, CommandTx, Active;
    NextShape(st, step, st');
    if Active(st, e).None? {
      EpochMoves(st, step, st', e);
      if Active(st', e).Some? {
        BecomesHeld(st, step, st', e);
      }
    }
  }
}
