/**
  Theorems about whole runs of the reservation log. A run starts from a state without
  reservations and takes any sequence of commands, worker steps and edits, in any order.
 */
module DevHoldRuns {
  import opened Ids
  import opened DevHoldModel
  import opened DevHoldSteps
  import opened DevHoldSafety

  // ----- the invariant holds in every reachable state -----

  /** Activations, confirmations and begun unlocks touch neither the environments nor the holds. */
  lemma PlainCommandStep(st: State, c: Command, st': State, op: Operation)
    requires Inv(st) && Accepts(st, c, st', op) && c.request.action in {Deploy, Confirm, ReleaseAfterRestoration}
    ensures Inv(st')
  {
    hide ReplayOf;
    PlainAppendStep(st, st', op);
  }

  lemma CommandInv(st: State, c: Command)
    requires Inv(st) && Fresh(st, c.id) && CommandTx(st, c).Accepted?
    ensures Inv(CommandTx(st, c).state)
    ensures Keeps(st, CommandTx(st, c).state)
  {
    hide ReserveTx, ReleaseTx, CaptureTx, DeployTx, RequestRestorationTx, ConfirmTx, VerifyTx, BeginReleaseTx;
    hide Inv, ReplayOf;
    BoundedFences(st);
    CommandAccepts(st, c);
    AcceptsKeeps(st, c, CommandTx(st, c).state, CommandTx(st, c).operation);
    match c.request.action
    case Reserve => ReserveStep(st, c);
    case Release => ReleaseStep(st, c);
    case Capture => CaptureStep(st, c);
    case RequestRestoration => RequestRestorationStep(st, c);
    case Verify => VerifyStep(st, c);
    case _ => PlainCommandStep(st, c, CommandTx(st, c).state, CommandTx(st, c).operation);
  }

  lemma BoundedFences(st: State)
    requires Inv(st)
    ensures Bounded(st) && UniqueIds(st.operations)
  {
  }

  lemma AcceptsKeeps(st: State, c: Command, st': State, op: Operation)
    requires Inv(st) && Accepts(st, c, st', op)
    ensures Keeps(st, st')
  {
    hide ReplayOf;
    AppendsKeeps(st, st', op);
  }

  lemma NextInv(st: State, step: Step, st': State)
    requires Inv(st) && Next(st, step, st')
    ensures Inv(st') && Keeps(st, st')
  {
    hide CommandTx, FinishReleaseTx, WorkTx, EditTx, Inv;
    BoundedFences(st);
    match step
    case Submit(c) => CommandInv(st, c);
    case Settle(i, now, checks) => FinishReleaseStep(st, i, now, checks);
    case DoWork(i, w, checks) => WorkStep(st, i, w, checks);
    case DoEdit(environment, e) => EditStep(st, environment, e);
    case AppendOrdinary(op) =>
      AppendsKeeps(st, st', op);
      PlainAppendStep(st, st', op);
  }

  lemma {:induction false} RunInv(states: seq<State>, steps: seq<Step>, i: nat)
    requires IsRun(states, steps) && Initial(states[0]) && i < |states|
    ensures Inv(states[i])
  {
    hide Inv, Next, Initial;
    if i == 0 {
      InitialInv(states[0]);
    } else {
      RunInv(states, steps, i - 1);
      NextInv(states[i - 1], steps[i - 1], states[i]);
    }
  }

  lemma KeepsTransitive(a: State, b: State, c: State)
    requires Keeps(a, b) && Keeps(b, c)
    ensures Keeps(a, c)
  {
    forall i | 0 <= i < |a.operations| ensures SameRecord(a.operations[i], c.operations[i]) {
      assert SameRecord(a.operations[i], b.operations[i]) && SameRecord(b.operations[i], c.operations[i]);
    }
  }

  // ----- what one step may do to the environments and the log -----

  /** An edit replaces the desired state or the target of one free environment, a generation further on. */
  predicate Edits(st: State, st': State, environment: Id) {
    && st'.operations == st.operations && st'.quarantines == st.quarantines
    && st'.environments.Keys == st.environments.Keys && environment in st.environments && Free(st, environment)
    && (forall e :: e in st.environments && e != environment ==> st'.environments[e] == st.environments[e])
    && var a, b := st.environments[environment], st'.environments[environment];
    b == a || (b.product == a.product && b.epoch == a.epoch && b.generation == a.generation + 1 <= MAX_UINT64)
  }

  lemma EditShape(st: State, environment: Id, e: Edit)
    requires Inv(st) && EditTx(st, environment, e).Some?
    ensures Edits(st, EditTx(st, environment, e).value, environment)
  {
  }

  lemma SettleShape(st: State, i: nat, now: nat, checks: Checks)
    requires Inv(st) && i < |st.operations| && FinishReleaseTx(st, i, now, checks).Accepted?
    ensures var st' := FinishReleaseTx(st, i, now, checks).state;
            Preserves(st, st') && |st'.operations| == |st.operations|
  {
    hide FinishReleaseTx, RestorationReceipt, Inv, ActiveFrom, Has, Get;
    BoundedFences(st);
    var hold := FinishAccepted(st, i, now, checks);
  }

  lemma NextShape(st: State, step: Step, st': State)
    requires Inv(st) && Next(st, step, st')
    ensures if step.DoEdit? then Edits(st, st', step.environment) else Preserves(st, st')
    ensures step.Submit? ==> Fresh(st, step.command.id) && CommandTx(st, step.command).Accepted?
                             && st' == CommandTx(st, step.command).state
                             && Accepts(st, step.command, st', CommandTx(st, step.command).operation)
    ensures step.Settle? || step.DoWork? || step.DoEdit? ==> |st'.operations| == |st.operations|
    ensures step.AppendOrdinary? ==> st'.operations == st.operations + [step.operation] && step.operation.kind == Ordinary
  {
    hide CommandTx, FinishReleaseTx, WorkTx, EditTx, Inv, WellFormed, Free, ReplayOf;
    BoundedFences(st);
    match step
    case Submit(c) => CommandAccepts(st, c);
    case Settle(i, now, checks) => SettleShape(st, i, now, checks);
    case DoWork(i, w, checks) => WorkAccepted(st, i, w, checks);
    case DoEdit(environment, e) => EditShape(st, environment, e);
    case AppendOrdinary(op) =>
  }

  /** Records are never removed or reordered, their identity never changes, settled ones not at all. */
  lemma {:induction false} RunKeeps(states: seq<State>, steps: seq<Step>, i: nat, j: nat)
    requires IsRun(states, steps) && Initial(states[0]) && i <= j < |states|
    ensures Keeps(states[i], states[j])
    decreases j - i
  {
    hide Inv, Next, Initial;
    if i < j {
      hide Keeps;
      RunKeeps(states, steps, i, j - 1);
      RunInv(states, steps, j - 1);
      NextInv(states[j - 1], steps[j - 1], states[j]);
      KeepsTransitive(states[i], states[j - 1], states[j]);
    }
  }

  // ----- one hold, and its numbered recoveries -----

  /** At most one hold of an environment is unreleased, and it is the one the guards find. */
  lemma OneHoldPerEnvironment(states: seq<State>, steps: seq<Step>, i: nat, a: nat, b: nat)
    requires IsRun(states, steps) && Initial(states[0]) && i < |states|
    requires a < |states[i].operations| && b < |states[i].operations|
    requires states[i].operations[a].kind == states[i].operations[b].kind == Reservation
    requires states[i].operations[a].environment == states[i].operations[b].environment
    requires !IsReleased(states[i], states[i].operations[a]) && !IsReleased(states[i], states[i].operations[b])
    ensures a == b && Active(states[i], states[i].operations[a].environment) == Some(states[i].operations[a])
  {
    RunInv(states, steps, i);
    UnreleasedIsActive(states[i], a);
  }

  /**
    After k recovery requests their numbers are exactly 1..k in append order; generation g
    carries epoch and selection generation g past the hold's; and while the hold lasts the
    environment stands at exactly k past it, without wrap-around.
   */
  lemma RecoveriesCountUp(states: seq<State>, steps: seq<Step>, i: nat, h: nat)
    requires IsRun(states, steps) && Initial(states[0]) && i < |states|
    requires h < |states[i].operations| && states[i].operations[h].kind == Reservation
    ensures var st, hold := states[i], states[i].operations[h];
            && hold.proof.OfHold? && CountsUp(Recoveries(st, hold))
            && (forall r :: 0 <= r < |st.operations| && IsRestorationOf(st.operations[r], hold.id) ==>
                  && st.operations[r].proof.OfRestoration?
                  && 1 <= st.operations[r].proof.generation <= |Recoveries(st, hold)|
                  && st.operations[r].proof.epoch == hold.epoch + st.operations[r].proof.generation
                  && st.operations[r].proof.selection == Shift(hold.proof.hold.reserved, st.operations[r].proof.generation))
            && (!IsReleased(st, hold) ==>
                  && hold.environment in st.environments
                  && st.environments[hold.environment].epoch == hold.epoch + |Recoveries(st, hold)| <= MAX_UINT64
                  && st.environments[hold.environment].Token() == Shift(hold.proof.hold.reserved, |Recoveries(st, hold)|)
                  && st.environments[hold.environment].generation <= MAX_UINT64)
  {
    RunInv(states, steps, i);
    var st, hold := states[i], states[i].operations[h];
    assert WellFormed(st, hold);
    NumbersMembers(st.operations, Restoration, hold.id);
    FindsItself(st.operations, h);
    forall r | 0 <= r < |st.operations| && IsRestorationOf(st.operations[r], hold.id)
      ensures st.operations[r].proof.OfRestoration?
              && 1 <= st.operations[r].proof.generation <= |Recoveries(st, hold)|
              && st.operations[r].proof.epoch == hold.epoch + st.operations[r].proof.generation
              && st.operations[r].proof.selection == Shift(hold.proof.hold.reserved, st.operations[r].proof.generation)
    {
      assert WellFormed(st, st.operations[r]);
      assert Generation(st.operations[r]) in Recoveries(st, hold);
    }
  }

  /** Append order of recoveries is the order of their numbers. */
  lemma RecoveriesInOrder(ops: seq<Operation>, hold: Id, a: nat, b: nat)
    requires a < b < |ops| && CountsUp(Numbers(ops, Restoration, hold))
    requires Numbered(ops[a], Restoration, hold) && Numbered(ops[b], Restoration, hold)
    ensures Generation(ops[a]) < Generation(ops[b])
  {
    NumbersPrefix(ops, Restoration, hold, b);
    NumbersPrefix(ops, Restoration, hold, b + 1);
    NumbersMembers(ops[..b], Restoration, hold);
    assert ops[..b][a] == ops[a];
    assert ops[..b + 1][..b] == ops[..b];
    var s := Numbers(ops[..b + 1], Restoration, hold);
    assert s[|s| - 1] == Generation(ops[b]);
  }

  lemma {:induction false} NumbersPrefix(ops: seq<Operation>, kind: Kind, parent: Id, n: nat)
    requires n <= |ops|
    ensures Numbers(ops[..n], kind, parent) <= Numbers(ops, kind, parent)
    decreases |ops| - n
  {
    if n < |ops| {
      NumbersPrefix(ops, kind, parent, n + 1);
      assert ops[..n + 1][..n] == ops[..n];
    } else {
      assert ops[..n] == ops;
    }
  }

  /** Damaged or repeated recovery numbers are unreachable: the guard on the history never fires. */
  lemma RecoveryHistoryIntact(st: State, h: nat)
    requires Inv(st) && h < |st.operations| && st.operations[h].kind == Reservation
    ensures HistoryIntact(st.operations, Restoration, st.operations[h].id)
  {
    forall j | 0 <= j < |st.operations| && IsRestorationOf(st.operations[j], st.operations[h].id)
      ensures Numbered(st.operations[j], Restoration, st.operations[h].id)
    {
      assert WellFormed(st, st.operations[j]);
    }
    CountingHistoryIntact(st.operations, st.operations[h].id);
  }

  lemma {:induction false} CountingHistoryIntact(ops: seq<Operation>, hold: Id)
    requires CountsUp(Numbers(ops, Restoration, hold))
    requires forall j :: 0 <= j < |ops| && IsRestorationOf(ops[j], hold) ==> Numbered(ops[j], Restoration, hold)
    ensures HistoryIntact(ops, Restoration, hold)
  {
    if |ops| > 0 {
      var n := |ops| - 1;
      assert CountsUp(Numbers(ops[..n], Restoration, hold)) by {
        NumbersPrefix(ops, Restoration, hold, n);
        assert forall k :: 0 <= k < |Numbers(ops[..n], Restoration, hold)| ==>
            Numbers(ops[..n], Restoration, hold)[k] == Numbers(ops, Restoration, hold)[k];
      }
      CountingHistoryIntact(ops[..n], hold);
      LatestIsCount(ops[..n], Restoration, hold);
      var s := Numbers(ops, Restoration, hold);
      assert Numbered(ops[n], Restoration, hold) ==> s[|s| - 1] == Generation(ops[n]);
    }
  }

  // ----- permanent revocation -----

  lemma {:induction false} RecoveriesGrow(ops: seq<Operation>, ops': seq<Operation>, hold: Id)
    requires |ops| <= |ops'|
    requires forall i :: 0 <= i < |ops| ==> SameRecord(ops[i], ops'[i])
    ensures Numbers(ops, Restoration, hold) <= Numbers(ops', Restoration, hold)
  {
    NumbersIgnoreOthers(ops, ops'[..|ops|], Restoration, hold);
    NumbersPrefix(ops', Restoration, hold, |ops|);
  }

  /** While it is active, a hold with recoveries stands under an epoch past its own. */
  lemma PastItsFence(st: State, h: nat)
    requires Inv(st) && h < |st.operations| && st.operations[h].kind == Reservation
    requires |Recoveries(st, st.operations[h])| > 0
    ensures var hold := st.operations[h];
            Has(st.operations, hold.id) && Get(st.operations, hold.id) == hold && hold.proof.OfHold?
            && hold.epoch == hold.proof.hold.epoch
            && (IsActiveHold(st, hold) && hold.environment in st.environments ==>
                  st.environments[hold.environment].epoch != hold.epoch)
  {
    FindsItself(st.operations, h);
    var hold := st.operations[h];
    assert WellFormed(st, hold);
    if IsActiveHold(st, hold) {
      var a := NamedHoldIsActive(st, hold.id, hold.environment);
    }
  }

  /** A hold that has moved past its own fence cannot be released plainly, captured or activated. */
  lemma RevokedNow(st: State, h: nat, c: Command)
    requires Inv(st) && h < |st.operations| && st.operations[h].kind == Reservation
    requires |Recoveries(st, st.operations[h])| > 0 && c.request.input.reservation == st.operations[h].id
    ensures !ReleaseTx(st, c).Accepted? && !CaptureTx(st, c).Accepted? && !DeployTx(st, c).Accepted?
    ensures !BaselineExpected(st, st.operations[h], c.request.input.expected)
  {
    PastItsFence(st, h);
    hide Inv, Has, Get, IsActiveHold, ActivationAdmitted, ReservationReplay, CaptureReplay, NextCapture, Usable;
    hide HistoryIntact, LatestIndex, CapturedFor, Recoveries;
  }

  /** Nor does an activation that was already admitted under it keep its capability. */
  lemma ActivationRevokedNow(st: State, h: nat, op: Operation)
    requires Inv(st) && h < |st.operations| && st.operations[h].kind == Reservation
    requires |Recoveries(st, st.operations[h])| > 0
    requires op.proof.OfActivation? && op.proof.reservation == st.operations[h].id
    ensures !ActivationGuard(st, op)
  {
    FindsItself(st.operations, h);
    var hold := st.operations[h];
    if Active(st, op.environment).Some? && Active(st, op.environment).value.id == hold.id {
      var a := NamedHoldIsActive(st, hold.id, op.environment);
      assert st.environments[op.environment].epoch != hold.epoch;
    }
  }

  /** Only the newest recovery of a hold can be allowed. */
  lemma OnlyNewestAllowed(st: State, h: nat, r: nat)
    requires Inv(st) && h < |st.operations| && st.operations[h].kind == Reservation
    requires r < |st.operations| && IsRestorationOf(st.operations[r], st.operations[h].id)
    requires st.operations[r].proof.OfRestoration?
    requires st.operations[r].proof.generation < |Recoveries(st, st.operations[h])|
    ensures !RestorationAllowed(st, st.operations[r])
  {
    var hold, op := st.operations[h], st.operations[r];
    FindsItself(st.operations, h);
    if RestorationAllowed(st, op) {
      assert WellFormed(st, op);
      var a := NamedHoldIsActive(st, hold.id, op.environment);
    }
  }

  /**
    Once one recovery has been requested, in every later state the plain release, the
    capture and the activation of that hold are refused for ever, and so is every recovery
    but the newest; an activation admitted before has lost its capability, with its children.
   */
  lemma RevocationIsPermanent(states: seq<State>, steps: seq<Step>, i: nat, j: nat, h: nat, c: Command)
    requires IsRun(states, steps) && Initial(states[0]) && i <= j < |states|
    requires h < |states[i].operations| && states[i].operations[h].kind == Reservation
    requires |Recoveries(states[i], states[i].operations[h])| > 0
    requires c.request.input.reservation == states[i].operations[h].id
    ensures !ReleaseTx(states[j], c).Accepted? && !CaptureTx(states[j], c).Accepted? && !DeployTx(states[j], c).Accepted?
    ensures |states[i].operations| <= |states[j].operations|
    ensures forall r :: 0 <= r < |states[i].operations| && IsRestorationOf(states[i].operations[r], states[i].operations[h].id)
                        && states[i].operations[r].proof.OfRestoration?
                        && states[i].operations[r].proof.generation < |Recoveries(states[j], states[i].operations[h])| ==>
              !RestorationAllowed(states[j], states[j].operations[r])
    ensures forall op: Operation :: op.proof.OfActivation? && op.proof.reservation == states[i].operations[h].id ==>
              !ActivationGuard(states[j], op)
  {
    RunInv(states, steps, j);
    RunKeeps(states, steps, i, j);
    var hold := states[i].operations[h];
    assert SameRecord(hold, states[j].operations[h]);
    RecoveriesGrow(states[i].operations, states[j].operations, hold.id);
    RevokedNow(states[j], h, c);
    forall op: Operation | op.proof.OfActivation? && op.proof.reservation == hold.id
      ensures !ActivationGuard(states[j], op)
    {
      ActivationRevokedNow(states[j], h, op);
    }
    forall r | 0 <= r < |states[i].operations| && IsRestorationOf(states[i].operations[r], hold.id)
               && states[i].operations[r].proof.OfRestoration?
               && states[i].operations[r].proof.generation < |Recoveries(states[j], hold)|
      ensures !RestorationAllowed(states[j], states[j].operations[r])
    {
      assert SameRecord(states[i].operations[r], states[j].operations[r]);
      OnlyNewestAllowed(states[j], h, r);
    }
  }

  /** A released hold stays released: an unlock is final. */
  lemma ReleaseIsFinal(st: State, step: Step, st': State, h: nat)
    requires Inv(st) && Next(st, step, st') && h < |st.operations| && st.operations[h].kind == Reservation
    requires IsReleased(st, st.operations[h])
    ensures IsReleased(st', st.operations[h])
  {
    hide CommandTx, FinishReleaseTx, WorkTx, Receipt;
    NextInv(st, step, st');
    var hold := st.operations[h];
    assert WellFormed(st, hold);
    if step.DoEdit? {
      SameReceipts(st, st', hold);
    } else {
      ChainStaysClosed(st, step, st', h);
      ReleasedStays(st, st', hold);
    }
  }

  lemma ChainStaysClosed(st: State, step: Step, st': State, h: nat)
    requires Inv(st) && Next(st, step, st') && !step.DoEdit?
    requires h < |st.operations| && st.operations[h].kind == Reservation && IsReleased(st, st.operations[h])
    ensures LeavesChain(st, st', st.operations[h])
  {
    hide CommandTx, Next, Inv, IsReleased, ReplayOf, WellFormed;
    NextShape(st, step, st');
    if step.Submit? {
      CommandLeavesChain(st, step.command, h);
    }
  }

  lemma CommandLeavesChain(st: State, c: Command, h: nat)
    requires Inv(st) && Fresh(st, c.id) && CommandTx(st, c).Accepted?
    requires h < |st.operations| && st.operations[h].kind == Reservation && IsReleased(st, st.operations[h])
    ensures LeavesChain(st, CommandTx(st, c).state, st.operations[h])
  {
    hide ReserveTx, ReleaseTx, CaptureTx, DeployTx, RequestRestorationTx, ConfirmTx, VerifyTx, BeginReleaseTx;
    hide Inv, IsReleased, ReplayOf, WellFormed;
    BoundedFences(st);
    CommandAccepts(st, c);
    match c.request.action
    case RequestRestoration => RequestLeavesChain(st, c, h);
    case Verify => VerifyLeavesChain(st, c, h);
    case _ =>
  }

  lemma RequestLeavesChain(st: State, c: Command, h: nat)
    requires Inv(st) && Fresh(st, c.id) && c.request.action == RequestRestoration && RequestRestorationTx(st, c).Accepted?
    requires h < |st.operations| && st.operations[h].kind == Reservation && IsReleased(st, st.operations[h])
    ensures LeavesChain(st, RequestRestorationTx(st, c).state, st.operations[h])
  {
    hide RequestRestorationTx, Inv, IsReleased, WellFormed, Latest;
    BoundedFences(st);
    var named := RequestAccepted(st, c);
    var a := NamedHoldIsActive(st, named.id, named.environment);
    assert a != h;
  }

  lemma VerifyLeavesChain(st: State, c: Command, h: nat)
    requires Inv(st) && Fresh(st, c.id) && c.request.action == Verify && VerifyTx(st, c).Accepted?
    requires h < |st.operations| && st.operations[h].kind == Reservation && IsReleased(st, st.operations[h])
    ensures LeavesChain(st, VerifyTx(st, c).state, st.operations[h])
  {
    hide VerifyTx, Inv, IsReleased, WellFormed, Fresh;
    BoundedFences(st);
    var parent, a := VerifyAccepted(st, c);
    assert a != h;
  }

  lemma HoldHasEnvironment(states: seq<State>, steps: seq<Step>, i: nat, h: nat)
    requires IsRun(states, steps) && Initial(states[0]) && i < |states|
    requires h < |states[i].operations| && states[i].operations[h].kind == Reservation
    ensures states[i].operations[h].environment in states[i].environments
    ensures Terminal(states[i].operations[h].status)
  {
    RunInv(states, steps, i);
    assert WellFormed(states[i], states[i].operations[h]);
  }

  lemma {:induction false} ReleasedForEver(states: seq<State>, steps: seq<Step>, i: nat, j: nat, h: nat)
    requires IsRun(states, steps) && Initial(states[0]) && i <= j < |states|
    requires h < |states[i].operations| && states[i].operations[h].kind == Reservation
    requires IsReleased(states[i], states[i].operations[h])
    ensures IsReleased(states[j], states[i].operations[h])
    decreases j - i
  {
    hide Inv, Next, Initial, IsReleased;
    HoldHasEnvironment(states, steps, i, h);
    if i < j {
      ReleasedForEver(states, steps, i, j - 1, h);
      RunInv(states, steps, j - 1);
      RunKeeps(states, steps, i, j - 1);
      assert SameRecord(states[i].operations[h], states[j - 1].operations[h]);
      ReleaseIsFinal(states[j - 1], steps[j - 1], states[j], h);
    }
  }

  // ----- the desired state is frozen while a hold lasts -----

  /**
    From the reservation to its release, the release step included, the environment keeps
    the composition, the desired operation and the target that it had when it was reserved.
   */
  lemma {:induction false} DesiredStateFrozen(states: seq<State>, steps: seq<Step>, i: nat, j: nat, h: nat)
    requires IsRun(states, steps) && Initial(states[0]) && i <= j < |states|
    requires h < |states[i].operations| && states[i].operations[h].kind == Reservation
    requires i < j ==> !IsReleased(states[j - 1], states[i].operations[h])
    ensures var e := states[i].operations[h].environment;
            && e in states[i].environments && e in states[j].environments
            && states[j].environments[e].composition == states[i].environments[e].composition
            && states[j].environments[e].operation == states[i].environments[e].operation
            && states[j].environments[e].target == states[i].environments[e].target
    decreases j - i
  {
    hide Inv, Next, Initial, IsReleased, Active;
    var hold := states[i].operations[h];
    HoldHasEnvironment(states, steps, i, h);
    if i < j {
      if i < j - 1 {
        RunKeeps(states, steps, i, j - 2);
        assert SameRecord(hold, states[j - 2].operations[h]);
        if IsReleased(states[j - 2], hold) {
          ReleasedForEver(states, steps, j - 2, j - 1, h);
        }
      }
      DesiredStateFrozen(states, steps, i, j - 1, h);
      RunInv(states, steps, j - 1);
      RunKeeps(states, steps, i, j - 1);
      assert SameRecord(hold, states[j - 1].operations[h]);
      HeldStepKeepsDesired(states[j - 1], steps[j - 1], states[j], h);
    }
  }

  lemma HeldStepKeepsDesired(st: State, step: Step, st': State, h: nat)
    requires Inv(st) && Next(st, step, st') && h < |st.operations| && st.operations[h].kind == Reservation
    requires !IsReleased(st, st.operations[h]) && st.operations[h].environment in st.environments
    ensures var e := st.operations[h].environment;
            e in st'.environments && SameDesired(st.environments[e], st'.environments[e])
  {
    hide Next;
    UnreleasedIsActive(st, h);
    NextShape(st, step, st');
  }

  // ----- how long an activation keeps its capability -----

  /** What admission establishes of an activation and its hold. */
  predicate AdmittedUnder(st: State, op: Operation, hold: Operation) {
    && op.kind == Activation && op.proof.OfActivation? && !op.quarantined && hold.proof.OfHold?
    && op.request == Request(Deploy, op.product, op.actor, op.proof.request) && op.key == op.proof.request.key
    && op.proof.request.reservation == op.proof.reservation == hold.id && op.proof.hold == hold.proof.hold
    && op.product == hold.product && op.actor == hold.actor && op.environment == hold.environment
    && op.epoch == hold.epoch && op.proof.request.expected == hold.proof.hold.reserved
    && hold.environment in st.environments
    && st.environments[hold.environment].target == hold.proof.hold.environment.target
  }

  lemma AdmittedNow(st: State, c: Command, h: nat)
    requires Inv(st) && c.request.action == Deploy && DeployTx(st, c).Accepted?
    requires h < |st.operations| && st.operations[h].id == c.request.input.reservation
    ensures var st', op := DeployTx(st, c).state, DeployTx(st, c).operation;
            st'.operations == st.operations + [op] && AdmittedUnder(st', op, st.operations[h])
    ensures st.operations[h].kind == Reservation && !IsReleased(st, st.operations[h])
  {
    FindsItself(st.operations, h);
    assert WellFormed(st, st.operations[h]);
    hide ActivationAdmitted, CapturedFor, HistoryIntact, LatestIndex, Inv;
    var hold := st.operations[h];
    assert BaselineExpected(st, hold, Latest(st.operations, BaselineCapture, hold.id).value.proof.request.expected);
    var a := NamedHoldIsActive(st, hold.id, hold.environment);
  }

  /** Among admitted activations the guard tells exactly those whose hold stands unreleased and unrecovered. */
  lemma GuardIff(st: State, h: nat, op: Operation)
    requires Inv(st) && h < |st.operations| && st.operations[h].kind == Reservation
    requires !IsReleased(st, st.operations[h]) ==> AdmittedUnder(st, op, st.operations[h])
    requires op.proof.OfActivation? && op.proof.reservation == st.operations[h].id
    ensures ActivationGuard(st, op)
        <==> && op.status != Failed && op.status != Cancelled
             && !IsReleased(st, st.operations[h]) && |Recoveries(st, st.operations[h])| == 0
  {
    var hold := st.operations[h];
    FindsItself(st.operations, h);
    assert WellFormed(st, hold);
    if |Recoveries(st, hold)| > 0 {
      ActivationRevokedNow(st, h, op);
    }
    if !IsReleased(st, hold) {
      UnreleasedIsActive(st, h);
    } else if Active(st, op.environment).Some? && Active(st, op.environment).value.id == hold.id {
      var a := NamedHoldIsActive(st, hold.id, op.environment);
    }
  }

  lemma HoldStays(states: seq<State>, steps: seq<Step>, i: nat, j: nat, h: nat)
    requires IsRun(states, steps) && Initial(states[0]) && i <= j < |states|
    requires h < |states[i].operations| && states[i].operations[h].kind == Reservation
    ensures h < |states[j].operations| && states[j].operations[h] == states[i].operations[h]
  {
    hide IsRun, Initial;
    RunInv(states, steps, i);
    RunKeeps(states, steps, i, j);
    assert WellFormed(states[i], states[i].operations[h]);
    assert SameRecord(states[i].operations[h], states[j].operations[h]);
  }

  lemma StillUnreleased(states: seq<State>, steps: seq<Step>, i: nat, m: nat, j: nat, h: nat)
    requires IsRun(states, steps) && Initial(states[0]) && i <= m <= j < |states|
    requires h < |states[i].operations| && states[i].operations[h].kind == Reservation
    requires !IsReleased(states[j], states[i].operations[h])
    ensures !IsReleased(states[m], states[i].operations[h])
  {
    hide *;
    HoldStays(states, steps, i, m, h);
    if IsReleased(states[m], states[i].operations[h]) {
      ReleasedForEver(states, steps, m, j, h);
    }
  }

  /** What admission established still holds while the hold is unreleased. */
  lemma StillAdmitted(states: seq<State>, steps: seq<Step>, i: nat, j: nat, h: nat, n: nat)
    requires IsRun(states, steps) && Initial(states[0]) && i <= j < |states|
    requires h < |states[i].operations| && states[i].operations[h].kind == Reservation && n < |states[i].operations|
    requires AdmittedUnder(states[i], states[i].operations[n], states[i].operations[h])
    requires !IsReleased(states[j], states[i].operations[h])
    ensures h < |states[j].operations| && n < |states[j].operations|
    ensures AdmittedUnder(states[j], states[j].operations[n], states[j].operations[h])
  {
    hide IsRun, Initial, IsReleased;
    HoldStays(states, steps, i, j, h);
    RunKeeps(states, steps, i, j);
    assert SameRecord(states[i].operations[n], states[j].operations[n]);
    if i < j {
      StillUnreleased(states, steps, i, j - 1, j, h);
    }
    DesiredStateFrozen(states, steps, i, j, h);
  }

  /**
    An admitted activation keeps its capability, and gives it to its children, exactly as long as
    it has not failed, its hold is unreleased and no recovery of that hold has been requested.
   */
  lemma ActivationStandsIff(states: seq<State>, steps: seq<Step>, i: nat, j: nat, h: nat)
    requires IsRun(states, steps) && Initial(states[0]) && i < j < |states|
    requires steps[i].Submit? && steps[i].command.request.action == Deploy
    requires h < |states[i].operations| && states[i].operations[h].id == steps[i].command.request.input.reservation
    ensures |states[i].operations| < |states[j].operations| && h < |states[j].operations|
    ensures var op, hold := states[j].operations[|states[i].operations|], states[j].operations[h];
            ActivationGuard(states[j], op)
            <==> && op.status != Failed && op.status != Cancelled
                 && !IsReleased(states[j], hold) && |Recoveries(states[j], hold)| == 0
  {
    var c, n := steps[i].command, |states[i].operations|;
    assert Next(states[i], steps[i], states[i + 1]);
    assert DeployTx(states[i], c).Accepted? && states[i + 1] == DeployTx(states[i], c).state;
    hide *;
    RunInv(states, steps, i);
    RunInv(states, steps, j);
    AdmittedNow(states[i], c, h);
    HoldStays(states, steps, i, i + 1, h);
    HoldStays(states, steps, i + 1, j, h);
    RunKeeps(states, steps, i + 1, j);
    ProofStays(states[i + 1], states[j], n);
    ProofOfAdmitted(states[i + 1], states[i + 1].operations[n], states[i + 1].operations[h]);
    if !IsReleased(states[j], states[j].operations[h]) {
      StillAdmitted(states, steps, i + 1, j, h, n);
    }
    GuardIff(states[j], h, states[j].operations[n]);
  }

  lemma ProofStays(st: State, st': State, n: nat)
    requires Keeps(st, st') && n < |st.operations| && st.operations[n].kind == Activation
    ensures n < |st'.operations| && st'.operations[n].proof == st.operations[n].proof
  {
    assert SameRecord(st.operations[n], st'.operations[n]);
  }

  lemma ProofOfAdmitted(st: State, op: Operation, hold: Operation)
    requires AdmittedUnder(st, op, hold)
    ensures op.kind == Activation && op.proof.OfActivation? && op.proof.reservation == hold.id
  {
  }

  // ----- selection tokens never come back -----

  /** One step leaves an environment alone or moves its generation strictly up. */
  lemma StepMovesGeneration(st: State, step: Step, st': State, e: Id)
    requires Inv(st) && Next(st, step, st') && e in st.environments
    ensures e in st'.environments && st'.environments[e].generation <= MAX_UINT64
    ensures st'.environments[e] == st.environments[e]
            || st.environments[e].generation < st'.environments[e].generation
  {
    hide Next;
    NextShape(st, step, st');
  }

  lemma {:induction false} GenerationGrows(states: seq<State>, steps: seq<Step>, i: nat, j: nat, e: Id)
    requires IsRun(states, steps) && Initial(states[0]) && i <= j < |states| && e in states[i].environments
    ensures e in states[j].environments
    ensures states[j].environments[e] == states[i].environments[e]
            || states[i].environments[e].generation < states[j].environments[e].generation
    decreases j - i
  {
    hide Inv, Next, Initial;
    if i < j {
      GenerationGrows(states, steps, i, j - 1, e);
      RunInv(states, steps, j - 1);
      StepMovesGeneration(states[j - 1], steps[j - 1], states[j], e);
    }
  }

  /** A token seen twice proves that nothing about the environment changed in between. */
  lemma TokenNeverRecurs(states: seq<State>, steps: seq<Step>, i: nat, k: nat, j: nat, e: Id)
    requires IsRun(states, steps) && Initial(states[0]) && i <= k <= j < |states|
    requires e in states[i].environments && e in states[j].environments
    requires states[i].environments[e].Token() == states[j].environments[e].Token()
    ensures e in states[k].environments
    ensures states[k].environments[e] == states[i].environments[e] == states[j].environments[e]
  {
    GenerationGrows(states, steps, i, k, e);
    GenerationGrows(states, steps, k, j, e);
  }

  // ----- one receipt per request key -----

  predicate IsReceipt(op: Operation) {
    !op.kind.Ordinary? && !op.kind.RuntimeCheck?
  }

  predicate SameKey(a: Operation, b: Operation) {
    IsReceipt(a) && IsReceipt(b) && a.product == b.product && a.key == b.key
  }

  predicate UniqueKeys(ops: seq<Operation>) {
    forall i, j :: 0 <= i < j < |ops| ==> !SameKey(ops[i], ops[j])
  }

  /** A request without a replay finds no receipt of its product under its key. */
  lemma {:induction false} NoReplayNoReceipt(ops: seq<Operation>, r: Request, i: nat)
    requires ReplayOf(ops, r) == NoReplay && i < |ops| && IsReceipt(ops[i])
    ensures ops[i].product != r.product || ops[i].key != r.input.key
  {
    if i > 0 {
      assert ReplayOf(ops[1..], r) == NoReplay && ops[1..][i - 1] == ops[i];
      NoReplayNoReceipt(ops[1..], r, i - 1);
    }
  }

  lemma KeysStayUnique(st: State, step: Step, st': State)
    requires Inv(st) && UniqueKeys(st.operations) && Next(st, step, st')
    ensures UniqueKeys(st'.operations)
  {
    hide Next, Inv;
    NextInv(st, step, st');
    NextShape(st, step, st');
    forall i, j | 0 <= i < j < |st'.operations| ensures !SameKey(st'.operations[i], st'.operations[j]) {
      if j < |st.operations| {
        assert SameRecord(st.operations[i], st'.operations[i]) && SameRecord(st.operations[j], st'.operations[j]);
        assert !SameKey(st.operations[i], st.operations[j]);
      } else if step.Submit? {
        if IsReceipt(st'.operations[i]) {
          NoReplayNoReceipt(st.operations, step.command.request, i);
        }
      }
    }
  }

  /** One product and key binds at most one receipt in every reachable state. */
  lemma {:induction false} OneReceiptPerKey(states: seq<State>, steps: seq<Step>, i: nat)
    requires IsRun(states, steps) && Initial(states[0]) && i < |states|
    ensures UniqueKeys(states[i].operations)
  {
    hide Inv, Next;
    if i > 0 {
      OneReceiptPerKey(states, steps, i - 1);
      RunInv(states, steps, i - 1);
      KeysStayUnique(states[i - 1], steps[i - 1], states[i]);
    }
  }

  /** The scan stops at the first receipt of the request, whatever has been appended behind it. */
  lemma {:induction false} ReplayFindsReceipt(before: seq<Operation>, ops: seq<Operation>, r: Request)
    requires ReplayOf(before, r) == NoReplay && |before| < |ops|
    requires forall i :: 0 <= i < |before| ==> SameRecord(before[i], ops[i])
    requires ops[|before|].request == r && ops[|before|].product == r.product && ops[|before|].actor == r.actor
    requires ops[|before|].key == r.input.key && ops[|before|].kind == ReceiptKind(r.action)
    requires ops[|before|].kind in {Reservation, ReservationRelease, Activation} ==> !IsRestorationOperation(ops[|before|])
    ensures ReplayOf(ops, r) == Found(ops[|before|])
  {
    if |before| > 0 {
      assert SameRecord(before[0], ops[0]);
      ReplayFindsReceipt(before[1..], ops[1..], r);
    }
  }

  /**
    Commands take effect exactly once: repeating an accepted request in any later state
    returns the stored receipt and changes nothing, however the checks turn out by then.
   */
  lemma AcceptedOnce(states: seq<State>, steps: seq<Step>, i: nat, j: nat, again: Command)
    requires IsRun(states, steps) && Initial(states[0]) && i < j < |states| && steps[i].Submit?
    requires again.request == steps[i].command.request
    ensures CommandTx(states[j], again).Replayed?
    ensures CommandTx(states[j], again).operation.id == steps[i].command.id
  {
    hide Next, Initial, CommandTx;
    var st, c, n := states[i], steps[i].command, |states[i].operations|;
    RunInv(states, steps, i);
    NextShape(st, steps[i], states[i + 1]);
    RunKeeps(states, steps, i, j);
    RunKeeps(states, steps, i + 1, j);
    RunInv(states, steps, i + 1);
    var op := states[i + 1].operations[n];
    assert SameRecord(op, states[j].operations[n]);
    assert WellFormed(states[i + 1], op);
    hide Inv, WellFormed;
    ReplayFindsReceipt(st.operations, states[j].operations, c.request);
    FoundIsReplayed(states[j], again);
  }

  lemma FoundIsReplayed(st: State, c: Command)
    requires ReplayOf(st.operations, c.request).Found?
    ensures CommandTx(st, c) == Replayed(ReplayOf(st.operations, c.request).operation)
  {
  }
}
