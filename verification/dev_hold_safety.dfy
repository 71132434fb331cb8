/**
  Safety of the reservation log over whole runs: one unreleased hold per environment,
  recovery generations numbered in append order with their fences, permanent revocation of
  everything older than a recovery, and selection tokens that never come back.
 */
module DevHoldSafety {
  import opened Ids
  import opened DevHoldModel
  import opened DevHoldSteps

  // ----- the numbers a history has handed out, in append order -----

  function Numbers(ops: seq<Operation>, kind: Kind, parent: Id): seq<nat> {
    if |ops| == 0 then []
    else
      var n := |ops| - 1;
      Numbers(ops[..n], kind, parent) + (if Numbered(ops[n], kind, parent) then [Generation(ops[n])] else [])
  }

  predicate CountsUp(s: seq<nat>) {
    forall i :: 0 <= i < |s| ==> s[i] == i + 1
  }

  lemma NumbersOfAppend(ops: seq<Operation>, op: Operation, kind: Kind, parent: Id)
    ensures Numbers(ops + [op], kind, parent)
         == Numbers(ops, kind, parent) + (if Numbered(op, kind, parent) then [Generation(op)] else [])
  {
    assert (ops + [op])[..|ops|] == ops;
  }

  lemma {:induction false} NumbersMembers(ops: seq<Operation>, kind: Kind, parent: Id)
    ensures forall i :: 0 <= i < |ops| && Numbered(ops[i], kind, parent) ==> Generation(ops[i]) in Numbers(ops, kind, parent)
    ensures forall g :: g in Numbers(ops, kind, parent) ==>
              exists i :: 0 <= i < |ops| && Numbered(ops[i], kind, parent) && Generation(ops[i]) == g
  {
    if |ops| > 0 {
      var n := |ops| - 1;
      NumbersMembers(ops[..n], kind, parent);
      forall i | 0 <= i < |ops| && Numbered(ops[i], kind, parent)
        ensures Generation(ops[i]) in Numbers(ops, kind, parent)
      {
        if i < n { assert ops[..n][i] == ops[i]; }
      }
      forall g | g in Numbers(ops, kind, parent)
        ensures exists i :: 0 <= i < |ops| && Numbered(ops[i], kind, parent) && Generation(ops[i]) == g
      {
        if g in Numbers(ops[..n], kind, parent) {
          var i :| 0 <= i < n && Numbered(ops[..n][i], kind, parent) && Generation(ops[..n][i]) == g;
          assert ops[i] == ops[..n][i];
        } else {
          assert Numbered(ops[n], kind, parent);
        }
      }
    }
  }

  /** In a history that counts up, the newest record carries the length as its number. */
  lemma LatestIsCount(ops: seq<Operation>, kind: Kind, parent: Id)
    requires CountsUp(Numbers(ops, kind, parent))
    ensures Latest(ops, kind, parent).None? <==> |Numbers(ops, kind, parent)| == 0
    ensures Latest(ops, kind, parent).Some? ==>
              Generation(Latest(ops, kind, parent).value) == |Numbers(ops, kind, parent)|
  {
    NumbersMembers(ops, kind, parent);
    var s := Numbers(ops, kind, parent);
    var i := LatestIndex(ops, kind, parent);
    if |s| > 0 {
      assert s[|s| - 1] in s;
    }
  }

  // ----- the invariant -----

  predicate UniqueIds(ops: seq<Operation>) {
    forall i, j :: 0 <= i < j < |ops| ==> ops[i].id != ops[j].id
  }

  lemma FindsItself(ops: seq<Operation>, i: nat)
    requires UniqueIds(ops) && i < |ops|
    ensures Find(ops, ops[i].id) == i && Has(ops, ops[i].id) && Get(ops, ops[i].id) == ops[i]
  {
  }

  predicate Bounded(st: State) {
    forall e :: e in st.environments ==>
      st.environments[e].epoch <= MAX_UINT64 && st.environments[e].generation <= MAX_UINT64
  }

  predicate WellFormedHold(st: State, op: Operation) {
    && op.proof.OfHold? && op.status == Succeeded && op.phase == Reserved && !op.quarantined
    && HasEnvironment(st, op.environment, op.product)
    && op.epoch == op.proof.hold.epoch
    && op.proof.hold.reserved == op.proof.hold.baseline.(generation := op.proof.hold.baseline.generation + 1)
  }

  /** A recovery generation carries its number, and its fence is the hold's plus that number. */
  predicate WellFormedRecovery(ops: seq<Operation>, op: Operation) {
    && op.proof.OfRestoration? && op.parent == op.proof.reservation && op.proof.generation != 0
    && op.epoch == op.proof.epoch
    && Has(ops, op.parent)
    && var hold := Get(ops, op.parent);
    && hold.kind == Reservation && hold.proof.OfHold? && hold.environment == op.environment
    && op.proof.hold == hold.proof.hold
    && op.proof.epoch == hold.epoch + op.proof.generation
    && op.proof.selection == Shift(hold.proof.hold.reserved, op.proof.generation)
  }

  /** A selection token `k` generations later with the same desired composition and operation. */
  function Shift(s: Selection, k: nat): Selection {
    s.(generation := s.generation + k)
  }

  predicate WellFormed(st: State, op: Operation) {
    match op.kind
    case Reservation => WellFormedHold(st, op)
    case Restoration => WellFormedRecovery(st.operations, op)
    case Verification => op.proof.OfVerification? && op.proof.generation != 0 && op.parent == op.proof.request.restoration
    case BaselineCapture => op.proof.OfCapture? && op.proof.generation != 0
    case Activation => op.proof.OfActivation?
    case ReservationRelease => op.proof.OfRelease? && Has(st.operations, op.proof.reservation)
    case Confirmation => op.proof.OfConfirmation?
    case RestorationRelease => op.proof.NoProof? || op.proof.OfSettlement?
    case _ => op.proof.NoProof?
  }

  function Recoveries(st: State, hold: Operation): seq<nat> {
    Numbers(st.operations, Restoration, hold.id)
  }

  /** How a hold, its recovery generations and its environment's fence hang together. */
  predicate HoldTimeline(st: State, hold: Operation) {
    && CountsUp(Recoveries(st, hold))
    && (!IsReleased(st, hold) ==>
          && hold.environment in st.environments && hold.proof.OfHold?
          && st.environments[hold.environment].epoch == hold.epoch + |Recoveries(st, hold)|
          && st.environments[hold.environment].Token() == Shift(hold.proof.hold.reserved, |Recoveries(st, hold)|))
  }

  predicate SingleHold(st: State) {
    forall i, j :: 0 <= i < j < |st.operations| && st.operations[i].kind == Reservation
                   && st.operations[j].kind == Reservation
                   && st.operations[i].environment == st.operations[j].environment ==>
      IsReleased(st, st.operations[i])
  }

  predicate AllWellFormed(st: State) {
    forall i :: 0 <= i < |st.operations| ==> WellFormed(st, st.operations[i])
  }

  predicate Inv(st: State) {
    && UniqueIds(st.operations)
    && Bounded(st)
    && AllWellFormed(st)
    && SingleHold(st)
    && (forall i :: 0 <= i < |st.operations| && st.operations[i].kind == Reservation ==>
          HoldTimeline(st, st.operations[i]))
  }

  lemma InitialInv(st: State)
    requires Initial(st)
    ensures Inv(st)
  {
  }

  // ----- what every step keeps of the records it does not append -----

  predicate SameRecord(a: Operation, b: Operation) {
    && a.id == b.id && a.kind == b.kind && a.product == b.product && a.actor == b.actor
    && a.environment == b.environment && a.parent == b.parent && a.key == b.key
    && a.request == b.request && a.epoch == b.epoch && a.quarantined == b.quarantined
    && (a.kind != RestorationRelease ==> a.proof == b.proof)
    && (Terminal(a.status) ==> a == b)
  }

  predicate Keeps(st: State, st': State) {
    && |st.operations| <= |st'.operations|
    && st.quarantines == st'.quarantines
    && st.environments.Keys == st'.environments.Keys
    && (forall e :: e in st.environments ==> st.environments[e].product == st'.environments[e].product)
    && (forall i :: 0 <= i < |st.operations| ==> SameRecord(st.operations[i], st'.operations[i]))
  }

  lemma KeepsLookup(st: State, st': State, id: Id)
    requires Keeps(st, st') && UniqueIds(st.operations) && UniqueIds(st'.operations) && Has(st.operations, id)
    ensures Find(st'.operations, id) == Find(st.operations, id)
    ensures Has(st'.operations, id) && SameRecord(Get(st.operations, id), Get(st'.operations, id))
  {
    var i := Find(st.operations, id);
    FindsItself(st.operations, i);
    assert st'.operations[i].id == id;
    FindsItself(st'.operations, i);
  }

  /** The records a step appends do not reopen the settled chain of `hold`. */
  predicate LeavesChain(st: State, st': State, hold: Operation) {
    forall i :: |st.operations| <= i < |st'.operations| ==>
      && !IsRestorationOf(st'.operations[i], hold.id)
      && (st'.operations[i].kind == Verification ==>
            Has(st.operations, st'.operations[i].parent) &&
            !IsRestorationOf(Get(st.operations, st'.operations[i].parent), hold.id))
  }

  lemma ReceiptStays(st: State, st': State, i: nat, hold: Operation)
    requires Keeps(st, st') && UniqueIds(st.operations) && UniqueIds(st'.operations)
    requires LeavesChain(st, st', hold)
    requires i < |st.operations| && Receipt(st, st.operations[i], hold)
    ensures Receipt(st', st'.operations[i], hold)
  {
    var receipt := st.operations[i];
    assert SameRecord(receipt, st'.operations[i]);
    if !PlainReceipt(receipt, hold) {
      var p := receipt.proof;
      KeepsLookup(st, st', p.request.restoration);
      KeepsLookup(st, st', p.confirmation);
      KeepsLookup(st, st', p.request.verification);
      RecoveryLinkStays(st, st', receipt, hold);
      VerificationLinkStays(st, st', receipt, hold);
    }
  }

  lemma RecoveryLinkStays(st: State, st': State, receipt: Operation, hold: Operation)
    requires Keeps(st, st') && UniqueIds(st.operations) && UniqueIds(st'.operations) && LeavesChain(st, st', hold)
    requires receipt.proof.OfSettlement? && RecoveryLink(st.operations, receipt, hold)
    ensures RecoveryLink(st'.operations, receipt, hold)
  {
    var recovery := Get(st.operations, receipt.proof.request.restoration);
    KeepsLookup(st, st', receipt.proof.request.restoration);
    forall k | 0 <= k < |st'.operations| && st'.operations[k].kind == Restoration && st'.operations[k].parent == hold.id
      ensures st'.operations[k].proof.OfRestoration?
              && (st'.operations[k].proof.generation >= recovery.proof.generation ==> st'.operations[k].id == recovery.id)
    {
      if k < |st.operations| {
        assert SameRecord(st.operations[k], st'.operations[k]);
      }
    }
  }

  lemma VerificationLinkStays(st: State, st': State, receipt: Operation, hold: Operation)
    requires Keeps(st, st') && UniqueIds(st.operations) && UniqueIds(st'.operations) && LeavesChain(st, st', hold)
    requires receipt.proof.OfSettlement? && RecoveryLink(st.operations, receipt, hold)
    requires VerificationLink(st.operations, receipt, hold)
    ensures VerificationLink(st'.operations, receipt, hold)
  {
    var p := receipt.proof;
    var v := Get(st.operations, p.request.verification);
    KeepsLookup(st, st', p.request.verification);
    forall k | 0 <= k < |st'.operations| && st'.operations[k].kind == Verification
               && st'.operations[k].parent == p.request.restoration
      ensures st'.operations[k].proof.OfVerification?
              && (st'.operations[k].proof.generation >= v.proof.generation ==> st'.operations[k].id == v.id)
    {
      if k < |st.operations| {
        assert SameRecord(st.operations[k], st'.operations[k]);
      }
    }
  }

  lemma ReleasedStays(st: State, st': State, hold: Operation)
    requires Keeps(st, st') && UniqueIds(st.operations) && UniqueIds(st'.operations)
    requires LeavesChain(st, st', hold) && IsReleased(st, hold)
    ensures IsReleased(st', hold)
  {
    var i :| 0 <= i < |st.operations| && Receipt(st, st.operations[i], hold);
    ReceiptStays(st, st', i, hold);
  }

  // ----- each step, by shape -----

  /** An unreleased hold of an environment is the active one. */
  lemma UnreleasedIsActive(st: State, i: nat)
    requires SingleHold(st) && i < |st.operations| && st.operations[i].kind == Reservation
    requires !IsReleased(st, st.operations[i])
    ensures Active(st, st.operations[i].environment) == Some(st.operations[i])
  {
    var j := ActiveFrom(st, st.operations[i].environment, 0);
    assert IsHoldOf(st.operations[i], st.operations[i].environment);
    assert j <= i;
  }

  lemma ActiveRecord(st: State, environment: Id) returns (i: nat)
    requires Active(st, environment).Some?
    ensures i < |st.operations| && Active(st, environment) == Some(st.operations[i])
    ensures IsHoldOf(st.operations[i], environment) && !IsReleased(st, st.operations[i])
  {
    i := ActiveFrom(st, environment, 0);
  }

  /** The fields of an accepted receipt that no transaction leaves to chance. */
  predicate Appends(st: State, st': State, op: Operation) {
    && st'.operations == st.operations + [op] && Fresh(st, op.id)
    && st'.quarantines == st.quarantines
    && st'.environments.Keys == st.environments.Keys
    && forall e :: e in st.environments ==> st.environments[e].product == st'.environments[e].product
  }

  predicate Updates(st: State, st': State, i: nat, op: Operation) {
    && i < |st.operations| && st'.operations == st.operations[i := op]
    && !Terminal(st.operations[i].status) && SameRecord(st.operations[i], op)
    && st'.quarantines == st.quarantines
    && st'.environments.Keys == st.environments.Keys
    && forall e :: e in st.environments ==> st.environments[e].product == st'.environments[e].product
  }

  lemma AppendsKeeps(st: State, st': State, op: Operation)
    requires UniqueIds(st.operations) && Appends(st, st', op)
    ensures Keeps(st, st') && UniqueIds(st'.operations)
    ensures Has(st'.operations, op.id) && Get(st'.operations, op.id) == op
  {
    assert forall j :: 0 <= j < |st.operations| ==> st.operations[j].id != op.id;
    FindsItself(st'.operations, |st.operations|);
  }

  lemma UpdatesKeeps(st: State, st': State, i: nat, op: Operation)
    requires UniqueIds(st.operations) && Updates(st, st', i, op)
    ensures Keeps(st, st') && UniqueIds(st'.operations)
  {
  }

  /** Records stay well formed when the records and environments they refer to stay. */
  lemma WellFormedStays(st: State, st': State, i: nat)
    requires Keeps(st, st') && UniqueIds(st.operations) && UniqueIds(st'.operations)
    requires i < |st.operations| && WellFormed(st, st.operations[i])
    requires st.operations[i].kind == RestorationRelease ==>
               st'.operations[i].proof.NoProof? || st'.operations[i].proof.OfSettlement?
    ensures WellFormed(st', st'.operations[i])
  {
    var op := st.operations[i];
    assert SameRecord(op, st'.operations[i]);
    if op.kind == Restoration {
      KeepsLookup(st, st', op.parent);
    } else if op.kind == ReservationRelease {
      KeepsLookup(st, st', op.proof.reservation);
    }
  }

  lemma AppendedWellFormed(st: State, st': State, op: Operation)
    requires Inv(st) && Appends(st, st', op) && Keeps(st, st') && UniqueIds(st'.operations) && WellFormed(st', op)
    ensures AllWellFormed(st')
  {
    hide Fresh;
    forall i | 0 <= i < |st.operations| ensures WellFormed(st', st'.operations[i]) {
      assert WellFormed(st, st.operations[i]);
      WellFormedStays(st, st', i);
    }
  }

  lemma UpdatedWellFormed(st: State, st': State, i: nat, op: Operation)
    requires Inv(st) && Updates(st, st', i, op) && Keeps(st, st') && UniqueIds(st'.operations)
    requires op.kind == RestorationRelease ==> op.proof.NoProof? || op.proof.OfSettlement?
    ensures AllWellFormed(st')
  {
    forall j | 0 <= j < |st.operations| ensures WellFormed(st', st'.operations[j]) {
      assert WellFormed(st, st.operations[j]);
      WellFormedStays(st, st', j);
    }
  }

  /**
    Steps that leave the environments, the holds and the recovery numbers alone keep the
    invariant, provided they do not reopen a settled chain.
   */
  lemma QuietStep(st: State, st': State)
    requires Inv(st) && Keeps(st, st') && UniqueIds(st'.operations)
    requires st'.environments == st.environments
    requires AllWellFormed(st')
    requires forall i :: |st.operations| <= i < |st'.operations| ==> st'.operations[i].kind !in {Reservation, Restoration}
    requires |st'.operations| <= |st.operations| + 1
    requires forall h :: 0 <= h < |st.operations| && st.operations[h].kind == Reservation && IsReleased(st, st.operations[h]) ==>
               LeavesChain(st, st', st.operations[h])
    ensures Inv(st')
  {
    forall h | 0 <= h < |st'.operations| && st'.operations[h].kind == Reservation
      ensures h < |st.operations| && st'.operations[h] == st.operations[h]
      ensures IsReleased(st, st.operations[h]) ==> IsReleased(st', st'.operations[h])
      ensures HoldTimeline(st', st'.operations[h])
    {
      assert SameRecord(st.operations[h], st'.operations[h]);
      var hold := st.operations[h];
      if IsReleased(st, hold) {
        ReleasedStays(st, st', hold);
      }
      SameNumbers(st, st', hold.id);
    }
  }

  lemma SameNumbers(st: State, st': State, hold: Id)
    requires Keeps(st, st') && |st'.operations| <= |st.operations| + 1
    requires forall i :: |st.operations| <= i < |st'.operations| ==> !IsRestorationOf(st'.operations[i], hold)
    ensures Numbers(st'.operations, Restoration, hold) == Numbers(st.operations, Restoration, hold)
  {
    var n := |st.operations|;
    var before := st'.operations[..n];
    forall i | 0 <= i < n
      ensures Numbered(st.operations[i], Restoration, hold) == Numbered(before[i], Restoration, hold)
      ensures Numbered(st.operations[i], Restoration, hold) ==> Generation(st.operations[i]) == Generation(before[i])
    {
      assert SameRecord(st.operations[i], st'.operations[i]);
      SameNumbered(st.operations[i], st'.operations[i], hold);
    }
    assert |st'.operations| > n ==> !Numbered(st'.operations[n], Restoration, hold) by {
      if |st'.operations| > n { assert !IsRestorationOf(st'.operations[n], hold); }
    }
    hide *;
    NumbersIgnoreOthers(st.operations, before, Restoration, hold);
    if |st'.operations| == n {
      assert before == st'.operations;
    } else {
      assert st'.operations == before + [st'.operations[n]];
      NumbersOfAppend(before, st'.operations[n], Restoration, hold);
    }
  }

  lemma SameNumbered(a: Operation, b: Operation, hold: Id)
    requires SameRecord(a, b)
    ensures Numbered(a, Restoration, hold) == Numbered(b, Restoration, hold)
    ensures Numbered(a, Restoration, hold) ==> Generation(a) == Generation(b)
  {
  }

  lemma {:induction false} NumbersIgnoreOthers(ops: seq<Operation>, ops': seq<Operation>, kind: Kind, parent: Id)
    requires |ops| == |ops'|
    requires forall i :: 0 <= i < |ops| ==>
               && Numbered(ops[i], kind, parent) == Numbered(ops'[i], kind, parent)
               && (Numbered(ops[i], kind, parent) ==> Generation(ops[i]) == Generation(ops'[i]))
    ensures Numbers(ops, kind, parent) == Numbers(ops', kind, parent)
  {
    if |ops| > 0 {
      var n := |ops| - 1;
      NumbersIgnoreOthers(ops[..n], ops'[..n], kind, parent);
    }
  }

  // ----- what every accepted command does -----

  function ReceiptKind(a: Action): Kind {
    match a
    case Reserve => Reservation
    case Release => ReservationRelease
    case Capture => BaselineCapture
    case Deploy => Activation
    case _ => RestorationKind(a)
  }

  function ReplayOf(ops: seq<Operation>, r: Request): Replay {
    match r.action
    case Capture => CaptureReplay(ops, r)
    case Reserve => ReservationReplay(ops, r)
    case Release => ReservationReplay(ops, r)
    case Deploy => ReservationReplay(ops, r)
    case _ => RestorationReplay(ops, r)
  }

  predicate SameDesired(a: Environment, b: Environment) {
    a.product == b.product && a.composition == b.composition && a.operation == b.operation && a.target == b.target
  }

  /** What one step may do to one environment: nothing, or one generation and at most one epoch. */
  predicate Refences(a: Environment, b: Environment) {
    b == a || (SameDesired(a, b) && b.generation == a.generation + 1 <= MAX_UINT64 && a.epoch <= b.epoch <= a.epoch + 1)
  }

  predicate Preserves(st: State, st': State) {
    && st'.environments.Keys == st.environments.Keys
    && forall e :: e in st.environments ==> Refences(st.environments[e], st'.environments[e])
  }

  /** What every accepted command has in common. */
  predicate Accepts(st: State, c: Command, st': State, op: Operation) {
    && Appends(st, st', op) && Preserves(st, st')
    && ReplayOf(st.operations, c.request) == NoReplay
    && op.id == c.id && op.product == c.request.product && op.actor == c.request.actor
    && op.request == c.request && op.key == c.request.input.key && op.kind == ReceiptKind(c.request.action)
    && (op.kind in {Activation, Confirmation, RestorationRelease} ==>
          st'.environments == st.environments && WellFormed(st', op))
  }

  predicate AcceptsOutcome(st: State, c: Command, o: Outcome) {
    o.Accepted? ==> Accepts(st, c, o.state, o.operation)
  }

  lemma ReserveAccepts(st: State, c: Command)
    requires Bounded(st) && Fresh(st, c.id) && c.request.action == Reserve
    ensures AcceptsOutcome(st, c, ReserveTx(st, c))
  {
    hide ActiveFrom, ReservationReplay;
  }

  lemma ReleaseAccepts(st: State, c: Command)
    requires Bounded(st) && Fresh(st, c.id) && c.request.action == Action.Release
    ensures AcceptsOutcome(st, c, ReleaseTx(st, c))
  {
    hide ActiveFrom, ReservationReplay, ActivationAdmitted, Usable;
  }

  lemma CaptureAccepts(st: State, c: Command)
    requires Bounded(st) && Fresh(st, c.id) && c.request.action == Capture
    ensures AcceptsOutcome(st, c, CaptureTx(st, c))
  {
    hide BaselineExpected, ActivationAdmitted, CaptureReplay, NextCapture;
  }

  lemma DeployAccepts(st: State, c: Command)
    requires Bounded(st) && Fresh(st, c.id) && c.request.action == Deploy
    ensures AcceptsOutcome(st, c, DeployTx(st, c))
  {
    hide CurrentBaseline, ActivationAdmitted, ReservationReplay;
  }

  lemma RequestRestorationAccepts(st: State, c: Command)
    requires Bounded(st) && Fresh(st, c.id) && c.request.action == RequestRestoration
    ensures AcceptsOutcome(st, c, RequestRestorationTx(st, c))
  {
    hide RestorationOriginal, IsActiveHold, HistoryIntact, LatestIndex, RestorationReplay;
  }

  lemma ConfirmAccepts(st: State, c: Command)
    requires Bounded(st) && Fresh(st, c.id) && c.request.action == Confirm
    ensures AcceptsOutcome(st, c, ConfirmTx(st, c))
  {
    hide SuccessorAllowed;
  }

  lemma VerifyAccepts(st: State, c: Command)
    requires Bounded(st) && Fresh(st, c.id) && c.request.action == Verify
    ensures AcceptsOutcome(st, c, VerifyTx(st, c))
  {
    hide SuccessorAllowed, Confirmed, HistoryIntact;
  }

  lemma BeginReleaseAccepts(st: State, c: Command)
    requires Bounded(st) && Fresh(st, c.id) && c.request.action == ReleaseAfterRestoration
    ensures AcceptsOutcome(st, c, BeginReleaseTx(st, c))
  {
    hide SuccessorAllowed, VerificationAllowed;
  }

  lemma CommandAccepts(st: State, c: Command)
    requires Bounded(st) && Fresh(st, c.id)
    ensures AcceptsOutcome(st, c, CommandTx(st, c))
  {
    hide ReserveTx, ReleaseTx, CaptureTx, DeployTx, RequestRestorationTx, ConfirmTx, VerifyTx, BeginReleaseTx;
    match c.request.action
    case Reserve => ReserveAccepts(st, c);
    case Release => ReleaseAccepts(st, c);
    case Capture => CaptureAccepts(st, c);
    case Deploy => DeployAccepts(st, c);
    case RequestRestoration => RequestRestorationAccepts(st, c);
    case Confirm => ConfirmAccepts(st, c);
    case Verify => VerifyAccepts(st, c);
    case ReleaseAfterRestoration => BeginReleaseAccepts(st, c);
  }

  // ----- the invariant is inductive -----

  lemma CaptureStep(st: State, c: Command)
    requires Inv(st) && Fresh(st, c.id) && c.request.action == Capture && CaptureTx(st, c).Accepted?
    ensures Inv(CaptureTx(st, c).state)
  {
    CaptureAccepted(st, c);
    hide CaptureTx;
    PlainAppendStep(st, CaptureTx(st, c).state, CaptureTx(st, c).operation);
  }

  lemma CaptureAccepted(st: State, c: Command)
    requires Fresh(st, c.id) && CaptureTx(st, c).Accepted?
    ensures var st', op := CaptureTx(st, c).state, CaptureTx(st, c).operation;
            && Appends(st, st', op) && st'.environments == st.environments
            && op.kind == BaselineCapture && WellFormed(st', op)
  {
    hide BaselineExpected, ActivationAdmitted;
    NextCapturePositive(st.operations, Get(st.operations, c.request.input.reservation).id);
  }

  lemma NextCapturePositive(ops: seq<Operation>, hold: Id)
    ensures NextCapture(ops, hold).Some? ==> 0 < NextCapture(ops, hold).value
  {
    if NextCapture(ops, hold).Some? && Latest(ops, BaselineCapture, hold).Some? {
      var i := LatestIndex(ops, BaselineCapture, hold);
      assert IsCaptureOf(ops[i], hold);
    }
  }

  lemma PlainAppendStep(st: State, st': State, op: Operation)
    requires Inv(st) && Appends(st, st', op) && st'.environments == st.environments
    requires op.kind !in {Reservation, Restoration, Verification} && WellFormed(st', op)
    ensures Inv(st')
  {
    AppendsKeeps(st, st', op);
    AppendedWellFormed(st, st', op);
    hide IsReleased, WellFormed, Fresh;
    QuietStep(st, st');
  }

  /** What an accepted verification appends, and that its recovery belongs to the active hold. */
  lemma VerifyAccepted(st: State, c: Command) returns (parent: Operation, a: nat)
    requires Inv(st) && Fresh(st, c.id) && c.request.action == Verify && VerifyTx(st, c).Accepted?
    ensures Has(st.operations, c.request.input.restoration)
    ensures parent == Get(st.operations, c.request.input.restoration) && parent.kind == Restoration
    ensures var st', op := VerifyTx(st, c).state, VerifyTx(st, c).operation;
            && Appends(st, st', op) && st'.environments == st.environments
            && op.kind == Verification && op.parent == parent.id && WellFormed(st', op)
    ensures a < |st.operations| && !IsReleased(st, st.operations[a]) && st.operations[a].id == parent.parent
  {
    hide Inv, RestorationOriginal, Confirmed, HistoryIntact, RestorationReplay;
    parent := Get(st.operations, c.request.input.restoration);
    assert RestorationAllowed(st, parent);
    a := ActiveRecord(st, parent.environment);
  }

  lemma VerifyStep(st: State, c: Command)
    requires Inv(st) && Fresh(st, c.id) && c.request.action == Verify && VerifyTx(st, c).Accepted?
    ensures Inv(VerifyTx(st, c).state)
  {
    var parent, a := VerifyAccepted(st, c);
    var st', op := VerifyTx(st, c).state, VerifyTx(st, c).operation;
    VerificationAppend(st, st', op, parent, a);
  }

  lemma VerificationAppend(st: State, st': State, op: Operation, parent: Operation, a: nat)
    requires Inv(st) && Appends(st, st', op) && st'.environments == st.environments
    requires op.kind == Verification && WellFormed(st', op)
    requires Has(st.operations, op.parent) && parent == Get(st.operations, op.parent)
    requires a < |st.operations| && !IsReleased(st, st.operations[a]) && st.operations[a].id == parent.parent
    ensures Inv(st')
  {
    AppendsKeeps(st, st', op);
    AppendedWellFormed(st, st', op);
    assert st'.operations == st.operations + [op];
    forall h | 0 <= h < |st.operations| && st.operations[h].kind == Reservation && IsReleased(st, st.operations[h])
      ensures LeavesChain(st, st', st.operations[h])
    {
      VerificationLeaves(st, st', op, parent, a, h);
    }
    hide *;
    QuietStep(st, st');
  }

  /** A verification of a recovery of the active hold leaves the receipts of a released hold alone. */
  lemma VerificationLeaves(st: State, st': State, op: Operation, parent: Operation, a: nat, h: nat)
    requires UniqueIds(st.operations) && st'.operations == st.operations + [op] && op.kind == Verification
    requires Has(st.operations, op.parent) && parent == Get(st.operations, op.parent)
    requires a < |st.operations| && h < |st.operations| && st.operations[a].id == parent.parent
    requires !IsReleased(st, st.operations[a]) && IsReleased(st, st.operations[h])
    ensures LeavesChain(st, st', st.operations[h])
  {
    hide IsReleased, Has, Get;
    assert h != a;
    assert st.operations[h].id != st.operations[a].id;
  }

  lemma WorkStep(st: State, i: nat, w: Work, checks: Checks)
    requires Inv(st) && i < |st.operations| && WorkTx(st, i, w, checks).Accepted?
    ensures Inv(WorkTx(st, i, w, checks).state)
    ensures Keeps(st, WorkTx(st, i, w, checks).state)
  {
    WorkAccepted(st, i, w, checks);
    hide WorkTx;
    WorkUpdate(st, WorkTx(st, i, w, checks).state, i, WorkTx(st, i, w, checks).operation);
  }

  /** Worker steps rewrite one unfinished record and keep everything that identifies it. */
  lemma WorkAccepted(st: State, i: nat, w: Work, checks: Checks)
    requires i < |st.operations| && WorkTx(st, i, w, checks).Accepted?
    ensures var st', op := WorkTx(st, i, w, checks).state, WorkTx(st, i, w, checks).operation;
            Updates(st, st', i, op) && st'.environments == st.environments && op.proof == st.operations[i].proof
  {
    hide RestorationAllowed, VerificationAllowed, Confirmed, BaselineExpected, ActivationAdmitted, HistoryIntact, Latest, Has, Get, Follows;
  }

  lemma WorkUpdate(st: State, st': State, i: nat, op: Operation)
    requires Inv(st) && Updates(st, st', i, op) && st'.environments == st.environments
    requires op.proof == st.operations[i].proof
    ensures Inv(st') && Keeps(st, st')
  {
    UpdatesKeeps(st, st', i, op);
    assert WellFormed(st, st.operations[i]);
    UpdatedWellFormed(st, st', i, op);
    hide IsReleased, WellFormed;
    QuietStep(st, st');
  }

  lemma EditStep(st: State, environment: Id, e: Edit)
    requires Inv(st) && EditTx(st, environment, e).Some?
    ensures Inv(EditTx(st, environment, e).value)
    ensures Keeps(st, EditTx(st, environment, e).value)
  {
    hide Receipt, ActiveFrom, HoldTimeline;
    var st' := EditTx(st, environment, e).value;
    forall h | 0 <= h < |st.operations| && st.operations[h].kind == Reservation
      ensures IsReleased(st', st.operations[h]) == IsReleased(st, st.operations[h])
      ensures HoldTimeline(st', st.operations[h])
    {
      SameReceipts(st, st', st.operations[h]);
      EditTimeline(st, environment, e, h);
    }
    forall i | 0 <= i < |st.operations| ensures WellFormed(st', st'.operations[i]) {
      assert WellFormed(st, st.operations[i]);
    }
  }

  lemma EditTimeline(st: State, environment: Id, e: Edit, h: nat)
    requires Inv(st) && EditTx(st, environment, e).Some? && h < |st.operations| && st.operations[h].kind == Reservation
    ensures HoldTimeline(EditTx(st, environment, e).value, st.operations[h])
  {
    hide Receipt, ActiveFrom, WellFormed;
    SameReceipts(st, EditTx(st, environment, e).value, st.operations[h]);
    if !IsReleased(st, st.operations[h]) { UnreleasedIsActive(st, h); }
  }

  lemma SameReceipts(st: State, st': State, hold: Operation)
    requires st.operations == st'.operations && st.quarantines == st'.quarantines
    ensures IsReleased(st, hold) == IsReleased(st', hold)
  {
    forall i | 0 <= i < |st.operations|
      ensures Receipt(st, st.operations[i], hold) == Receipt(st', st'.operations[i], hold)
    {
    }
  }

  /** The environments other than the hold's stay as they are, and so do the other holds' histories. */
  predicate MovesOnly(st: State, st': State, hold: Operation) {
    && |st'.operations| <= |st.operations| + 1
    && st'.environments.Keys == st.environments.Keys
    && (forall e :: e in st.environments && e != hold.environment ==> st'.environments[e] == st.environments[e])
    && (forall i :: |st.operations| <= i < |st'.operations| ==>
          && st'.operations[i].kind !in {Reservation, Verification}
          && (st'.operations[i].kind == Restoration ==> st'.operations[i].parent == hold.id))
  }

  predicate OthersReleased(st: State, environment: Id, except: Id) {
    forall h :: 0 <= h < |st.operations| && IsHoldOf(st.operations[h], environment) && st.operations[h].id != except ==>
      IsReleased(st, st.operations[h])
  }

  /** A step may move the fence of the one unreleased hold if that hold's own timeline moves along. */
  lemma FenceStep(st: State, st': State, a: nat)
    requires Inv(st) && Keeps(st, st') && UniqueIds(st'.operations) && Bounded(st') && AllWellFormed(st')
    requires a < |st.operations| && st.operations[a].kind == Reservation && !IsReleased(st, st.operations[a])
    requires MovesOnly(st, st', st.operations[a])
    requires OthersReleased(st, st.operations[a].environment, st.operations[a].id)
    requires HoldTimeline(st', st.operations[a]) && st'.operations[a] == st.operations[a]
    ensures Inv(st')
  {
    forall h | 0 <= h < |st.operations| && st.operations[h].kind == Reservation
      ensures st'.operations[h] == st.operations[h]
      ensures IsReleased(st, st.operations[h]) ==> IsReleased(st', st'.operations[h])
      ensures HoldTimeline(st', st'.operations[h])
    {
      HoldRecordStays(st, st', h);
      if h != a {
        OtherTimelineStays(st, st', a, h);
      }
    }
  }

  lemma HoldRecordStays(st: State, st': State, h: nat)
    requires Inv(st) && Keeps(st, st') && h < |st.operations| && st.operations[h].kind == Reservation
    ensures st'.operations[h] == st.operations[h]
  {
    assert WellFormed(st, st.operations[h]) && SameRecord(st.operations[h], st'.operations[h]);
  }

  lemma OtherTimelineStays(st: State, st': State, a: nat, h: nat)
    requires Inv(st) && Keeps(st, st') && UniqueIds(st'.operations)
    requires a < |st.operations| && MovesOnly(st, st', st.operations[a])
    requires OthersReleased(st, st.operations[a].environment, st.operations[a].id)
    requires h < |st.operations| && h != a && st.operations[h].kind == Reservation && st'.operations[h] == st.operations[h]
    ensures IsReleased(st, st.operations[h]) ==> IsReleased(st', st.operations[h])
    ensures HoldTimeline(st', st.operations[h])
  {
    hide Receipt, WellFormed;
    var hold := st.operations[h];
    assert hold.id != st.operations[a].id;
    SameNumbers(st, st', hold.id);
    if IsReleased(st, hold) {
      ReleasedStays(st, st', hold);
    }
  }

  lemma ReserveStep(st: State, c: Command)
    requires Inv(st) && Fresh(st, c.id) && c.request.action == Reserve && ReserveTx(st, c).Accepted?
    ensures Inv(ReserveTx(st, c).state)
  {
    ReserveAccepted(st, c);
    hide ReserveTx;
    HoldAppend(st, ReserveTx(st, c).state, ReserveTx(st, c).operation);
  }

  /** A new hold of a free environment, at the fence it moves the environment to. */
  predicate AppendsHold(st: State, st': State, op: Operation) {
    && Appends(st, st', op) && op.kind == Reservation && op.proof.OfHold?
    && op.environment in st.environments && Free(st, op.environment) && !Exhausted(st.environments[op.environment])
    && st' == Append(Fence(st, op.environment, 1), op)
    && op.status == Succeeded && op.phase == Reserved && !op.quarantined
    && st.environments[op.environment].product == op.product
    && op.epoch == op.proof.hold.epoch == st'.environments[op.environment].epoch
    && op.proof.hold.baseline == st.environments[op.environment].Token()
    && op.proof.hold.reserved == st'.environments[op.environment].Token()
  }

  lemma ReserveAccepted(st: State, c: Command)
    requires Fresh(st, c.id) && ReserveTx(st, c).Accepted?
    ensures AppendsHold(st, ReserveTx(st, c).state, ReserveTx(st, c).operation)
  {
    hide ActiveFrom, ReservationReplay;
  }

  lemma HoldAppend(st: State, st': State, op: Operation)
    requires Inv(st) && AppendsHold(st, st', op)
    ensures Inv(st')
  {
    AppendsKeeps(st, st', op);
    AppendedWellFormed(st, st', op);
    NewTimeline(st, st', op);
    hide IsReleased, WellFormed, HoldTimeline, AppendsHold;
    assert Bounded(st') && st'.operations == st.operations + [op] && op.kind == Reservation by { NewHoldShape(st, st', op); }
    forall h | 0 <= h < |st.operations| && st.operations[h].kind == Reservation
      ensures st'.operations[h] == st.operations[h]
      ensures IsReleased(st, st.operations[h]) ==> IsReleased(st', st'.operations[h])
      ensures IsHoldOf(st.operations[h], op.environment) ==> IsReleased(st, st.operations[h])
      ensures HoldTimeline(st', st'.operations[h])
    {
      HoldRecordStays(st, st', h);
      EarlierTimelineStays(st, st', op, h);
    }
  }

  lemma NewHoldShape(st: State, st': State, op: Operation)
    requires Inv(st) && AppendsHold(st, st', op)
    ensures Bounded(st') && st'.operations == st.operations + [op] && op.kind == Reservation
  {
    hide WellFormed, ActiveFrom;
  }

  lemma NewTimeline(st: State, st': State, op: Operation)
    requires Inv(st) && AppendsHold(st, st', op)
    ensures HoldTimeline(st', op)
  {
    hide IsReleased;
    NoRecoveriesYet(st, op.id);
    NumbersOfAppend(st.operations, op, Restoration, op.id);
  }

  lemma EarlierTimelineStays(st: State, st': State, op: Operation, h: nat)
    requires Inv(st) && AppendsHold(st, st', op) && Keeps(st, st') && UniqueIds(st'.operations)
    requires h < |st.operations| && st.operations[h].kind == Reservation
    ensures IsReleased(st, st.operations[h]) ==> IsReleased(st', st.operations[h])
    ensures IsHoldOf(st.operations[h], op.environment) ==> IsReleased(st, st.operations[h])
    ensures HoldTimeline(st', st.operations[h])
  {
    hide Receipt, WellFormed;
    var hold := st.operations[h];
    SameNumbers(st, st', hold.id);
    if IsReleased(st, hold) {
      ReleasedStays(st, st', hold);
    } else {
      UnreleasedIsActive(st, h);
    }
  }

  lemma NoRecoveriesYet(st: State, id: Id)
    requires Inv(st) && Fresh(st, id)
    ensures Numbers(st.operations, Restoration, id) == []
  {
    NumbersMembers(st.operations, Restoration, id);
    forall i | 0 <= i < |st.operations| ensures !Numbered(st.operations[i], Restoration, id) {
      assert WellFormed(st, st.operations[i]);
    }
    if |Numbers(st.operations, Restoration, id)| > 0 {
      assert Numbers(st.operations, Restoration, id)[0] in Numbers(st.operations, Restoration, id);
    }
  }

  lemma OthersAreReleased(st: State, a: nat)
    requires Inv(st) && a < |st.operations| && st.operations[a].kind == Reservation && !IsReleased(st, st.operations[a])
    ensures OthersReleased(st, st.operations[a].environment, st.operations[a].id)
  {
    hide Receipt, WellFormed, HoldTimeline;
    UnreleasedIsActive(st, a);
    forall h | 0 <= h < |st.operations| && IsHoldOf(st.operations[h], st.operations[a].environment) && st.operations[h].id != st.operations[a].id
      ensures IsReleased(st, st.operations[h])
    {
      if !IsReleased(st, st.operations[h]) {
        UnreleasedIsActive(st, h);
      }
    }
  }

  /** The hold a command names is the active one when their identities agree. */
  lemma NamedHoldIsActive(st: State, id: Id, environment: Id) returns (a: nat)
    requires Inv(st) && Has(st.operations, id)
    requires Active(st, environment).Some? && Active(st, environment).value.id == id
    ensures a < |st.operations| && st.operations[a] == Get(st.operations, id)
    ensures Active(st, environment) == Some(st.operations[a])
    ensures IsHoldOf(st.operations[a], environment) && !IsReleased(st, st.operations[a])
    ensures WellFormedHold(st, st.operations[a]) && HoldTimeline(st, st.operations[a])
  {
    a := ActiveRecord(st, environment);
    FindsItself(st.operations, a);
    assert WellFormed(st, st.operations[a]);
  }

  lemma ReleaseStep(st: State, c: Command)
    requires Inv(st) && Fresh(st, c.id) && c.request.action == Action.Release && ReleaseTx(st, c).Accepted?
    ensures Inv(ReleaseTx(st, c).state)
    ensures IsReleased(ReleaseTx(st, c).state, Get(st.operations, c.request.input.reservation))
  {
    ReleaseAccepted(st, c);
    hide ReleaseTx;
    ReceiptAppend(st, ReleaseTx(st, c).state, ReleaseTx(st, c).operation, Get(st.operations, c.request.input.reservation));
  }

  /** The receipt of the active hold, one generation further on in the same epoch. */
  predicate AppendsReceipt(st: State, st': State, op: Operation, hold: Operation) {
    && Appends(st, st', op) && op.kind == ReservationRelease
    && Has(st.operations, hold.id) && hold == Get(st.operations, hold.id)
    && Active(st, hold.environment).Some? && Active(st, hold.environment).value.id == hold.id
    && hold.environment in st.environments && st.environments[hold.environment].generation != MAX_UINT64
    && st' == Append(Fence(st, hold.environment, 0), op)
    && PlainReceipt(op, hold)
  }

  lemma ReleaseAccepted(st: State, c: Command)
    requires Fresh(st, c.id) && c.request.action == Action.Release && ReleaseTx(st, c).Accepted?
    ensures Has(st.operations, c.request.input.reservation)
    ensures AppendsReceipt(st, ReleaseTx(st, c).state, ReleaseTx(st, c).operation,
                           Get(st.operations, c.request.input.reservation))
  {
    hide ActiveFrom, ReservationReplay, ActivationAdmitted;
  }

  lemma ReceiptAppend(st: State, st': State, op: Operation, hold: Operation)
    requires Inv(st) && AppendsReceipt(st, st', op, hold)
    ensures Inv(st') && IsReleased(st', hold)
  {
    var a := NamedHoldIsActive(st, hold.id, hold.environment);
    AppendsKeeps(st, st', op);
    KeepsLookup(st, st', hold.id);
    AppendedWellFormed(st, st', op);
    assert Receipt(st', st'.operations[|st.operations|], hold);
    assert IsReleased(st', hold);
    FencedMoves(st, st', op, hold, 0);
    assert st.operations[a] == hold && st'.operations == st.operations + [op];
    hide *;
    SettledFence(st, st', a);
  }

  /** What an accepted request appends: the next generation of the active hold, at its fence. */
  lemma RequestAccepted(st: State, c: Command) returns (hold: Operation)
    requires Inv(st) && Fresh(st, c.id) && c.request.action == RequestRestoration
    requires RequestRestorationTx(st, c).Accepted?
    ensures Has(st.operations, c.request.input.reservation) && hold == Get(st.operations, c.request.input.reservation)
    ensures Active(st, hold.environment).Some? && Active(st, hold.environment).value.id == hold.id
    ensures hold.environment in st.environments && !Exhausted(st.environments[hold.environment]) && hold.proof.OfHold?
    ensures var op := RequestRestorationTx(st, c).operation;
            var prior := Latest(st.operations, Restoration, hold.id);
            var fenced := Fence(st, hold.environment, 1);
            && RequestRestorationTx(st, c).state == Append(fenced, op) && op.id == c.id && op.kind == Restoration
            && op.parent == hold.id && op.environment == hold.environment
            && op.proof.OfRestoration? && op.proof.reservation == hold.id && op.proof.hold == hold.proof.hold
            && op.proof.generation == (if prior.None? then 1 else Generation(prior.value) + 1)
            && op.epoch == op.proof.epoch == fenced.environments[hold.environment].epoch
            && op.proof.selection == fenced.environments[hold.environment].Token()
  {
    hide RestorationOriginal, HistoryIntact, LatestIndex, Inv;
    hold := Get(st.operations, c.request.input.reservation);
  }

  lemma RequestRestorationStep(st: State, c: Command)
    requires Inv(st) && Fresh(st, c.id) && c.request.action == RequestRestoration
    requires RequestRestorationTx(st, c).Accepted?
    ensures Inv(RequestRestorationTx(st, c).state)
  {
    var hold := RequestAccepted(st, c);
    RecoveryAppend(st, RequestRestorationTx(st, c).state, RequestRestorationTx(st, c).operation, hold);
  }

  lemma RecoveryAppend(st: State, st': State, op: Operation, hold: Operation)
    requires Inv(st) && Has(st.operations, hold.id) && hold == Get(st.operations, hold.id) && hold.proof.OfHold?
    requires Active(st, hold.environment).Some? && Active(st, hold.environment).value.id == hold.id
    requires hold.environment in st.environments && !Exhausted(st.environments[hold.environment])
    requires Fresh(st, op.id) && st' == Append(Fence(st, hold.environment, 1), op)
    requires op.kind == Restoration && op.parent == hold.id && op.environment == hold.environment
    requires op.proof.OfRestoration? && op.proof.reservation == hold.id && op.proof.hold == hold.proof.hold
    requires var prior := Latest(st.operations, Restoration, hold.id);
             op.proof.generation == if prior.None? then 1 else Generation(prior.value) + 1
    requires op.epoch == op.proof.epoch == st'.environments[hold.environment].epoch
    requires op.proof.selection == st'.environments[hold.environment].Token()
    ensures Inv(st') && op.proof.generation == |Recoveries(st, hold)| + 1
  {
    var a := NamedHoldIsActive(st, hold.id, hold.environment);
    LatestIsCount(st.operations, Restoration, hold.id);
    AppendsKeeps(st, st', op);
    assert op.proof.generation == |Recoveries(st, hold)| + 1;
    RecoveryTimeline(st, st', op, hold);
    RecoveryWellFormed(st, st', op, hold);
    AppendedWellFormed(st, st', op);
    OthersAreReleased(st, a);
    HoldRecordStays(st, st', a);
    FencedMoves(st, st', op, hold, 1);
    assert st.operations[a] == hold;
    hide *;
    FenceStep(st, st', a);
  }

  /** Appending a record while the fence of one environment moves. */
  lemma FencedMoves(st: State, st': State, op: Operation, hold: Operation, epochs: nat)
    requires Bounded(st) && hold.environment in st.environments && st' == Append(Fence(st, hold.environment, epochs), op)
    requires st.environments[hold.environment].generation != MAX_UINT64
    requires st.environments[hold.environment].epoch + epochs <= MAX_UINT64
    requires op.kind !in {Reservation, Verification} && (op.kind == Restoration ==> op.parent == hold.id)
    ensures Bounded(st') && MovesOnly(st, st', hold)
  {
  }

  /** The appended generation extends the count, and the fence moves along with it. */
  lemma RecoveryTimeline(st: State, st': State, op: Operation, hold: Operation)
    requires CountsUp(Recoveries(st, hold)) && hold.proof.OfHold? && hold.environment in st.environments
    requires st.environments[hold.environment].epoch == hold.epoch + |Recoveries(st, hold)|
    requires st.environments[hold.environment].Token() == Shift(hold.proof.hold.reserved, |Recoveries(st, hold)|)
    requires st' == Append(Fence(st, hold.environment, 1), op)
    requires op.kind == Restoration && op.parent == hold.id && op.proof.OfRestoration?
    requires op.proof.generation == |Recoveries(st, hold)| + 1
    ensures HoldTimeline(st', hold)
  {
    NumbersOfAppend(st.operations, op, Restoration, hold.id);
  }

  lemma RecoveryWellFormed(st: State, st': State, op: Operation, hold: Operation)
    requires Inv(st) && Keeps(st, st') && UniqueIds(st'.operations) && st'.operations == st.operations + [op]
    requires Has(st.operations, hold.id) && hold == Get(st.operations, hold.id)
    requires hold.kind == Reservation && hold.proof.OfHold?
    requires op.kind == Restoration && op.parent == hold.id && op.environment == hold.environment
    requires op.proof.OfRestoration? && op.proof.reservation == hold.id && op.proof.hold == hold.proof.hold
    requires op.epoch == op.proof.epoch == hold.epoch + op.proof.generation && op.proof.generation != 0
    requires op.proof.selection == Shift(hold.proof.hold.reserved, op.proof.generation)
    ensures WellFormed(st', op)
  {
    KeepsLookup(st, st', hold.id);
  }

  /** What an accepted unlock writes: the settled receipt of the active hold, one fence further on. */
  lemma FinishAccepted(st: State, i: nat, now: nat, checks: Checks) returns (hold: Operation)
    requires Inv(st) && i < |st.operations| && FinishReleaseTx(st, i, now, checks).Accepted?
    ensures SettlesHold(st, FinishReleaseTx(st, i, now, checks).state, i, FinishReleaseTx(st, i, now, checks).operation, hold)
  {
    hide RestorationReceipt, VerificationAllowed, HistoryIntact, RestorationOriginal, Latest, Inv;
    assert UnlockAllowed(st, st.operations[i], now);
    var p := Get(st.operations, st.operations[i].request.input.restoration);
    assert RestorationAllowed(st, p);
    var a := NamedHoldIsActive(st, p.proof.reservation, p.environment);
    hold := st.operations[a];
  }

  lemma FinishReleaseStep(st: State, i: nat, now: nat, checks: Checks)
    requires Inv(st) && i < |st.operations| && FinishReleaseTx(st, i, now, checks).Accepted?
    ensures Inv(FinishReleaseTx(st, i, now, checks).state)
    ensures Keeps(st, FinishReleaseTx(st, i, now, checks).state)
  {
    hide FinishReleaseTx, Inv, SettlesHold;
    var hold := FinishAccepted(st, i, now, checks);
    SettledUpdate(st, FinishReleaseTx(st, i, now, checks).state, i, FinishReleaseTx(st, i, now, checks).operation, hold);
  }

  /** A begun unlock becomes the settled receipt of the active hold, one fence further on. */
  predicate SettlesHold(st: State, st': State, i: nat, op: Operation, hold: Operation) {
    && i < |st.operations|
    && Has(st.operations, hold.id) && hold == Get(st.operations, hold.id)
    && Active(st, hold.environment).Some? && Active(st, hold.environment).value.id == hold.id
    && hold.environment in st.environments && !Exhausted(st.environments[hold.environment])
    && st' == Fence(st, hold.environment, 1).(operations := st.operations[i := op])
    && st.operations[i].kind == RestorationRelease && st.operations[i].status == Running
    && SameRecord(st.operations[i], op) && op.proof.OfSettlement?
    && RestorationReceipt(st', op, hold)
  }

  lemma SettledRecords(st: State, st': State, i: nat, op: Operation, hold: Operation)
    requires Inv(st) && SettlesHold(st, st', i, op, hold)
    ensures Keeps(st, st') && UniqueIds(st'.operations) && AllWellFormed(st')
  {
    hide RestorationReceipt, ActiveFrom, Has, Get;
    UpdatesKeeps(st, st', i, op);
    UpdatedWellFormed(st, st', i, op);
  }

  lemma SettledUpdate(st: State, st': State, i: nat, op: Operation, hold: Operation)
    requires Inv(st) && SettlesHold(st, st', i, op, hold)
    ensures Inv(st') && Keeps(st, st') && IsReleased(st', hold)
  {
    hide Inv;
    SettledRecords(st, st', i, op, hold);
    SettledIsReleased(st, st', i, op, hold);
    SettledMoves(st, st', i, op, hold);
    var a := NamedHoldIsActive(st, hold.id, hold.environment);
    hide SettlesHold, MovesOnly, Bounded, Keeps, IsReleased, WellFormedHold, HoldTimeline, Active, Has, Get;
    SettledFence(st, st', a);
  }

  lemma SettledIsReleased(st: State, st': State, i: nat, op: Operation, hold: Operation)
    requires SettlesHold(st, st', i, op, hold)
    ensures IsReleased(st', hold)
  {
    hide RestorationReceipt;
    assert Receipt(st', st'.operations[i], hold);
  }

  lemma SettledMoves(st: State, st': State, i: nat, op: Operation, hold: Operation)
    requires Inv(st) && SettlesHold(st, st', i, op, hold)
    ensures Bounded(st') && MovesOnly(st, st', hold) && |st'.operations| == |st.operations|
  {
    hide RestorationReceipt, AllWellFormed, SingleHold, HoldTimeline;
  }

  /** Once its receipt is settled a hold's timeline asks only for its numbers. */
  lemma SettledFence(st: State, st': State, a: nat)
    requires Inv(st) && Keeps(st, st') && UniqueIds(st'.operations) && Bounded(st') && AllWellFormed(st')
    requires a < |st.operations| && st.operations[a].kind == Reservation
    requires !IsReleased(st, st.operations[a]) && IsReleased(st', st.operations[a])
    requires MovesOnly(st, st', st.operations[a])
    requires forall i :: |st.operations| <= i < |st'.operations| ==> st'.operations[i].kind != Restoration
    ensures Inv(st')
  {
    hide IsReleased, WellFormed;
    SameNumbers(st, st', st.operations[a].id);
    OthersAreReleased(st, a);
    HoldRecordStays(st, st', a);
    FenceStep(st, st', a);
  }
}
