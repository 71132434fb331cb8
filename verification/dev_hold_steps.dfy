/**
  The transactions of the reservation log as functions from a state to an outcome. A refused
  or replayed command leaves the state alone; an accepted one appends one operation or
  settles one, and changes at most the environment of that operation.
 */
module DevHoldSteps {
  import opened Ids
  import opened DevHoldModel

  // ----- request replay -----

  datatype Replay = NoReplay | Conflict | Found(operation: Operation)

  predicate IsRestorationOperation(op: Operation) {
    || op.kind in {Restoration, Confirmation, Verification, RestorationRelease}
    || op.proof.OfRestoration? || op.proof.OfConfirmation? || op.proof.OfVerification? || op.proof.OfSettlement?
  }

  /** The receipt a reserve, release or deploy request replays, scanning in append order. */
  function ReservationReplay(ops: seq<Operation>, r: Request): Replay {
    if |ops| == 0 then NoReplay
    else
      var op := ops[0];
      if op.product == r.product && op.key == r.input.key && IsRestorationOperation(op) then Conflict
      else if op.kind in {BaselineCapture, RuntimeCheck} && op.key == r.input.key then Conflict
      else if op.product == r.product && op.key == r.input.key
              && op.kind in {Reservation, ReservationRelease, Activation} then
        if op.request != r || op.actor != r.actor then Conflict else Found(op)
      else ReservationReplay(ops[1..], r)
  }

  function CaptureReplay(ops: seq<Operation>, r: Request): Replay {
    if |ops| == 0 then NoReplay
    else
      var op := ops[0];
      if op.key != r.input.key then CaptureReplay(ops[1..], r)
      else if op.kind != BaselineCapture || op.product != r.product || op.actor != r.actor || op.request != r then Conflict
      else Found(op)
  }

  function RestorationKind(a: Action): Kind
    requires a in {RequestRestoration, Confirm, Verify, ReleaseAfterRestoration}
  {
    match a
    case RequestRestoration => Restoration
    case Confirm => Confirmation
    case Verify => Verification
    case _ => RestorationRelease
  }

  function RestorationReplay(ops: seq<Operation>, r: Request): Replay
    requires r.action in {RequestRestoration, Confirm, Verify, ReleaseAfterRestoration}
  {
    if |ops| == 0 then NoReplay
    else
      var op := ops[0];
      if op.product != r.product || op.key != r.input.key then RestorationReplay(ops[1..], r)
      else if op.kind != RestorationKind(r.action) || op.actor != r.actor || op.request != r then Conflict
      else Found(op)
  }

  // ----- shared guards -----

  /** An activation was admitted under this hold. */
  predicate ActivationAdmitted(ops: seq<Operation>, hold: Operation) {
    exists i :: 0 <= i < |ops| && ActivationOf(ops[i], hold)
  }

  predicate ActivationOf(op: Operation, hold: Operation) {
    || (op.proof.OfActivation? && op.proof.reservation == hold.id)
    || (op.kind == Activation && op.environment == hold.environment && op.epoch == hold.epoch)
  }

  predicate IsActiveHold(st: State, hold: Operation) {
    Active(st, hold.environment).Some? && Active(st, hold.environment).value.id == hold.id
  }

  predicate Usable(st: State, hold: Operation) {
    && hold.kind == Reservation && hold.proof.OfHold?
    && hold.status == Succeeded && hold.phase == Reserved
    && !hold.quarantined && hold.product !in st.quarantines
  }

  /** The reserved baseline is still exactly in place for a capture that expects `expected`. */
  predicate BaselineExpected(st: State, hold: Operation, expected: Selection) {
    && Usable(st, hold) && IsActiveHold(st, hold)
    && HasEnvironment(st, hold.environment, hold.product)
    && var env := st.environments[hold.environment];
    && env.epoch == hold.epoch && hold.proof.hold.epoch == hold.epoch
    && env.Token() == hold.proof.hold.reserved && env.target == hold.proof.hold.environment.target
    && expected == env.Token()
    && hold.proof.hold.baseline.composition == env.composition
  }

  /** The environment as it was fenced by the hold itself, before any recovery generation. */
  function AsReserved(st: State, hold: Operation): State
    requires hold.proof.OfHold? && hold.environment in st.environments
  {
    var env := st.environments[hold.environment];
    st.(environments := st.environments[hold.environment :=
      env.(epoch := hold.epoch, generation := hold.proof.hold.reserved.generation)])
  }

  predicate CapturedFor(capture: Operation, hold: Operation) {
    && capture.proof.OfCapture? && hold.proof.OfHold?
    && capture.status == Succeeded && capture.phase == BaselineCaptured && !capture.quarantined
    && SameScope(capture, hold) && capture.epoch == hold.epoch && capture.proof.hold == hold.proof.hold
  }

  /** The immutable original baseline that every recovery generation restores. */
  predicate RestorationOriginal(st: State, hold: Operation) {
    && Usable(st, hold) && hold.environment in st.environments
    && HistoryIntact(st.operations, BaselineCapture, hold.id)
    && Latest(st.operations, BaselineCapture, hold.id).Some?
    && var capture := Latest(st.operations, BaselineCapture, hold.id).value;
    && CapturedFor(capture, hold)
    && BaselineExpected(AsReserved(st, hold), hold, capture.proof.request.expected)
  }

  function OriginalCapture(st: State, hold: Operation): Id
    requires RestorationOriginal(st, hold)
    ensures hold.proof.OfHold?
  {
    Latest(st.operations, BaselineCapture, hold.id).value.id
  }

  /** The authority of one recovery generation: newest of the active hold, fence unchanged. */
  predicate RestorationAllowed(st: State, op: Operation) {
    && op.kind == Restoration && op.proof.OfRestoration? && op.parent == op.proof.reservation
    && !op.quarantined && op.status != Failed && op.status != Cancelled
    && op.proof.epoch == op.epoch && op.proof.generation != 0
    && op.request == Request(RequestRestoration, op.product, op.actor, op.proof.request)
    && op.key == op.proof.request.key
    && Active(st, op.environment).Some?
    && var hold := Active(st, op.environment).value;
    && hold.id == op.proof.reservation && hold.product == op.product && hold.actor == op.actor
    && hold.proof.OfHold? && hold.proof.hold == op.proof.hold
    && HistoryIntact(st.operations, Restoration, hold.id)
    && Latest(st.operations, Restoration, hold.id).Some?
    && Latest(st.operations, Restoration, hold.id).value.id == op.id
    && op.environment in st.environments
    && st.environments[op.environment].epoch == op.proof.epoch
    && st.environments[op.environment].Token() == op.proof.selection
    && RestorationOriginal(st, hold) && OriginalCapture(st, hold) == op.proof.capture
  }

  /** The single exact confirmation of a recovery generation. */
  predicate IsConfirmation(op: Operation, parent: Operation) {
    op.kind == Confirmation && op.parent == parent.id
  }

  predicate ConfirmationUsable(op: Operation, parent: Operation) {
    && op.proof.OfConfirmation? && !op.quarantined
    && op.status == Succeeded && op.phase == AttributedConfirmation
    && SameScope(op, parent) && op.epoch == parent.epoch
    && op.proof.plan == parent.plan && parent.plan != NO_ID
    && op.proof.request.restoration == parent.id && op.proof.request.plan == op.proof.plan
    && parent.proof.OfRestoration? && op.proof.request.expected == parent.proof.selection
    && op.key == op.proof.request.key
    && op.request == Request(Confirm, op.product, op.actor, op.proof.request)
  }

  /** The index of the first confirmation of `parent`, or the length when there is none. */
  function ConfirmationIndex(ops: seq<Operation>, parent: Operation): (i: nat)
    ensures i <= |ops|
    ensures i < |ops| ==> IsConfirmation(ops[i], parent)
    ensures forall j :: 0 <= j < i ==> !IsConfirmation(ops[j], parent)
  {
    if |ops| == 0 then 0
    else if IsConfirmation(ops[0], parent) then 0
    else 1 + ConfirmationIndex(ops[1..], parent)
  }

  /** There is exactly one confirmation of `parent`, and it is usable. */
  predicate Confirmed(ops: seq<Operation>, parent: Operation) {
    var i := ConfirmationIndex(ops, parent);
    && i < |ops| && ConfirmationUsable(ops[i], parent)
    && forall j :: 0 <= j < |ops| && IsConfirmation(ops[j], parent) ==> j == i
  }

  predicate VerificationAllowed(st: State, op: Operation) {
    && op.kind == Verification && op.proof.OfVerification? && !op.quarantined
    && op.parent == op.proof.request.restoration && op.key == op.proof.request.key
    && op.request == Request(Verify, op.product, op.actor, op.proof.request)
    && Has(st.operations, op.parent)
    && var parent := Get(st.operations, op.parent);
    && SameScope(op, parent) && op.epoch == parent.epoch
    && RestorationAllowed(st, parent)
    && HistoryIntact(st.operations, Verification, parent.id)
    && Latest(st.operations, Verification, parent.id).Some?
    && Latest(st.operations, Verification, parent.id).value.id == op.id
    && Confirmed(st.operations, parent)
    && st.operations[ConfirmationIndex(st.operations, parent)].id == op.proof.confirmation
    && op.proof.plan == parent.plan
  }

  /** The capability of an admitted activation, and with it of every child deployment of it. */
  predicate ActivationGuard(st: State, op: Operation) {
    && op.kind == Activation && op.proof.OfActivation? && !op.quarantined
    && op.status != Failed && op.status != Cancelled
    && op.request == Request(Deploy, op.product, op.actor, op.proof.request)
    && op.key == op.proof.request.key && op.proof.request.reservation == op.proof.reservation
    && Active(st, op.environment).Some?
    && var hold := Active(st, op.environment).value;
    && hold.id == op.proof.reservation && hold.product == op.product && hold.actor == op.actor
    && hold.status == Succeeded && hold.phase == Reserved && !hold.quarantined
    && hold.proof.OfHold? && hold.proof.hold == op.proof.hold
    && HasEnvironment(st, op.environment, op.product)
    && var env := st.environments[op.environment];
    && env.epoch == op.epoch == hold.proof.hold.epoch
    && env.Token() == hold.proof.hold.reserved == op.proof.request.expected
    && env.target == hold.proof.hold.environment.target
  }

  // ----- state updates -----

  function Append(st: State, op: Operation): State {
    st.(operations := st.operations + [op])
  }

  function Fence(st: State, environment: Id, epochs: nat): State
    requires environment in st.environments
  {
    var env := st.environments[environment];
    st.(environments := st.environments[environment :=
      env.(epoch := env.epoch + epochs, generation := env.generation + 1)])
  }

  function Receive(c: Command, kind: Kind, environment: Id, parent: Id, epoch: nat,
                   status: Status, phase: Phase, proof: Proof): Operation {
    Operation(c.id, kind, c.request.product, c.request.actor, environment, parent, c.request.input.key,
              c.request, epoch, status, phase, NO_ID, 0, false, proof)
  }

  predicate Exhausted(env: Environment) {
    env.epoch == MAX_UINT64 || env.generation == MAX_UINT64
  }

  // ----- transactions -----

  function ReserveTx(st: State, c: Command): Outcome {
    var r := c.request;
    var input := r.input;
    match ReservationReplay(st.operations, r)
    case Conflict => Refused
    case Found(op) => Replayed(op)
    case NoReplay =>
      if !c.checks.candidateEligible || !HasEnvironment(st, input.environment, r.product) then Refused
      else
        var env := st.environments[input.environment];
        if env.Token() != input.expected || !Free(st, input.environment) || !c.checks.effectsResolved
           || !c.checks.targetsAllowed || Exhausted(env) then Refused
        else
          var st' := Fence(st, input.environment, 1);
          var fenced := st'.environments[input.environment];
          var hold := Hold(input, input.candidate, env.Token(), fenced.Token(), fenced.epoch, env);
          var op := Receive(c, Reservation, input.environment, NO_ID, fenced.epoch, Succeeded, Reserved, OfHold(hold));
          Accepted(Append(st', op), op)
  }

  predicate OwnedHold(st: State, r: Request) {
    && Has(st.operations, r.input.reservation)
    && var hold := Get(st.operations, r.input.reservation);
    hold.product == r.product && hold.actor == r.actor
  }

  function ReleaseTx(st: State, c: Command): Outcome {
    var r := c.request;
    var input := r.input;
    match ReservationReplay(st.operations, r)
    case Conflict => Refused
    case Found(op) => Replayed(op)
    case NoReplay =>
      if !OwnedHold(st, r) then Refused
      else
        var hold := Get(st.operations, input.reservation);
        if hold.kind != Reservation || !hold.proof.OfHold? || ActivationAdmitted(st.operations, hold)
           || !HasEnvironment(st, hold.environment, r.product) then Refused
        else
          var env := st.environments[hold.environment];
          if env.Token() != input.expected || !IsActiveHold(st, hold) || !Usable(st, hold)
             || env.epoch != hold.proof.hold.epoch || env.Token() != hold.proof.hold.reserved
             || env.target != hold.proof.hold.environment.target
             || !c.checks.effectsResolved || env.generation == MAX_UINT64 then Refused
          else
            var op := Receive(c, ReservationRelease, hold.environment, NO_ID, env.epoch, Succeeded, Released,
                              OfRelease(input, hold.id, hold.proof.hold));
            Accepted(Append(Fence(st, hold.environment, 0), op), op)
  }

  /** One more than the highest capture number so far; none when a number is unusable or exhausted. */
  function NextCapture(ops: seq<Operation>, hold: Id): Option<nat> {
    if exists i :: 0 <= i < |ops| && IsCaptureOf(ops[i], hold)
                   && (!Numbered(ops[i], BaselineCapture, hold) || Generation(ops[i]) == MAX_UINT64)
    then None
    else match Latest(ops, BaselineCapture, hold)
         case None => Some(1)
         case Some(op) => Some(Generation(op) + 1)
  }

  function CaptureTx(st: State, c: Command): Outcome {
    var r := c.request;
    match CaptureReplay(st.operations, r)
    case Conflict => Refused
    case Found(op) => Replayed(op)
    case NoReplay =>
      if !OwnedHold(st, r) then Refused
      else
        var hold := Get(st.operations, r.input.reservation);
        var next := NextCapture(st.operations, hold.id);
        if ActivationAdmitted(st.operations, hold) || next.None? || !c.checks.effectsResolved
           || !BaselineExpected(st, hold, r.input.expected) || !c.checks.evidenceCurrent || !c.checks.withinBounds
        then Refused
        else
          var op := Receive(c, BaselineCapture, hold.environment, hold.id, hold.epoch, Pending, CaptureGitOps,
                            OfCapture(r.input, hold.id, hold.proof.hold, next.value));
          Accepted(Append(st, op), op)
  }

  /** The newest capture, complete and still expected before the first activation effect. */
  predicate CurrentBaseline(st: State, hold: Operation) {
    && HistoryIntact(st.operations, BaselineCapture, hold.id)
    && Latest(st.operations, BaselineCapture, hold.id).Some?
    && var capture := Latest(st.operations, BaselineCapture, hold.id).value;
    && CapturedFor(capture, hold) && !ActivationAdmitted(st.operations, hold)
    && BaselineExpected(st, hold, capture.proof.request.expected)
  }

  /** The activation parent; its child deployments are the subject of module ActivationGroups. */
  function DeployTx(st: State, c: Command): Outcome {
    var r := c.request;
    match ReservationReplay(st.operations, r)
    case Conflict => Refused
    case Found(op) => Replayed(op)
    case NoReplay =>
      if !OwnedHold(st, r) || !Get(st.operations, r.input.reservation).proof.OfHold? then Refused
      else
        var hold := Get(st.operations, r.input.reservation);
        if ActivationAdmitted(st.operations, hold) || !c.checks.candidateEligible
           || hold.environment !in st.environments
           || st.environments[hold.environment].Token() != r.input.expected
           || !c.checks.effectsResolved || !CurrentBaseline(st, hold) || !c.checks.evidenceCurrent
           || !c.checks.targetsAllowed then Refused
        else
          var capture := Latest(st.operations, BaselineCapture, hold.id).value;
          var op := Receive(c, Activation, hold.environment, NO_ID, hold.epoch, Pending, WaitChildren,
                            OfActivation(r.input, hold.id, hold.proof.hold, capture.id));
          Accepted(Append(st, op), op)
  }

  function RequestRestorationTx(st: State, c: Command): Outcome
    requires c.request.action == RequestRestoration
  {
    var r := c.request;
    match RestorationReplay(st.operations, r)
    case Conflict => Refused
    case Found(op) => Replayed(op)
    case NoReplay =>
      if !OwnedHold(st, r) then Refused
      else
        var hold := Get(st.operations, r.input.reservation);
        if !IsActiveHold(st, hold) || hold.environment !in st.environments
           || st.environments[hold.environment].Token() != r.input.expected
           || !RestorationOriginal(st, hold) || !c.checks.evidenceCurrent
           || !HistoryIntact(st.operations, Restoration, hold.id) then Refused
        else
          var env := st.environments[hold.environment];
          var prior := Latest(st.operations, Restoration, hold.id);
          if prior.Some? && (Generation(prior.value) == MAX_UINT64 || prior.value.leaseUntil > c.now) then Refused
          else if !c.checks.effectsResolved || Exhausted(env) || !c.checks.withinBounds then Refused
          else
            var generation := if prior.None? then 1 else Generation(prior.value) + 1;
            var st' := Fence(st, hold.environment, 1);
            var fenced := st'.environments[hold.environment];
            var op := Receive(c, Restoration, hold.environment, hold.id, fenced.epoch, Pending, ReconcileEffects,
                              OfRestoration(r.input, hold.id, hold.proof.hold, OriginalCapture(st, hold),
                                            generation, fenced.epoch, fenced.Token()));
            Accepted(Append(st', op), op)
  }

  predicate SuccessorAllowed(st: State, r: Request) {
    && Has(st.operations, r.input.restoration)
    && var parent := Get(st.operations, r.input.restoration);
    && parent.product == r.product && parent.actor == r.actor && RestorationAllowed(st, parent)
    && st.environments[parent.environment].Token() == r.input.expected
  }

  function ConfirmTx(st: State, c: Command): Outcome
    requires c.request.action == Confirm
  {
    var r := c.request;
    match RestorationReplay(st.operations, r)
    case Conflict => Refused
    case Found(op) => Replayed(op)
    case NoReplay =>
      if !SuccessorAllowed(st, r) then Refused
      else
        var parent := Get(st.operations, r.input.restoration);
        if parent.phase != WaitExternalMerge || parent.plan == NO_ID || parent.plan != r.input.plan
           || !c.checks.evidenceCurrent || !c.checks.withinBounds
           || (exists i :: 0 <= i < |st.operations| && IsConfirmation(st.operations[i], parent)) then Refused
        else
          var op := Receive(c, Confirmation, parent.environment, parent.id, parent.epoch,
                            Succeeded, AttributedConfirmation, OfConfirmation(r.input, parent.plan));
          Accepted(Append(st, op), op)
  }

  function VerifyTx(st: State, c: Command): Outcome
    requires c.request.action == Verify
  {
    var r := c.request;
    match RestorationReplay(st.operations, r)
    case Conflict => Refused
    case Found(op) => Replayed(op)
    case NoReplay =>
      if !SuccessorAllowed(st, r) then Refused
      else
        var parent := Get(st.operations, r.input.restoration);
        var prior := Latest(st.operations, Verification, parent.id);
        if !Confirmed(st.operations, parent) || !HistoryIntact(st.operations, Verification, parent.id)
           || (prior.Some? && Generation(prior.value) == MAX_UINT64)
           || !c.checks.evidenceCurrent || !c.checks.withinBounds then Refused
        else
          var confirmation := st.operations[ConfirmationIndex(st.operations, parent)].id;
          var generation := if prior.None? then 1 else Generation(prior.value) + 1;
          var op := Receive(c, Verification, parent.environment, parent.id, parent.epoch, Pending, VerifyRestoration,
                            OfVerification(r.input, parent.plan, confirmation, generation));
          Accepted(Append(st, op), op)
  }

  /** First half of the unlock: a leased record that changes no fence. */
  function BeginReleaseTx(st: State, c: Command): Outcome
    requires c.request.action == ReleaseAfterRestoration
  {
    var r := c.request;
    match RestorationReplay(st.operations, r)
    case Conflict => Refused
    case Found(op) => Replayed(op)
    case NoReplay =>
      if !SuccessorAllowed(st, r) || !Has(st.operations, r.input.verification) then Refused
      else
        var parent := Get(st.operations, r.input.restoration);
        var v := Get(st.operations, r.input.verification);
        if v.parent != parent.id || v.status != Succeeded || v.phase != RestorationVerified
           || v.quarantined || !c.checks.evidenceCurrent then Refused
        else
          var op := Receive(c, RestorationRelease, parent.environment, parent.id, parent.epoch,
                            Running, ReleaseReconciliation, NoProof).(leaseUntil := c.now + 45);
          Accepted(Append(st, op), op)
  }

  predicate UnlockAllowed(st: State, cur: Operation, now: nat) {
    var input := cur.request.input;
    && cur.kind == RestorationRelease && cur.status == Running && cur.leaseUntil > now
    && Has(st.operations, input.restoration) && Has(st.operations, input.verification)
    && var p := Get(st.operations, input.restoration);
    && var v := Get(st.operations, input.verification);
    && RestorationAllowed(st, p) && VerificationAllowed(st, v) && v.parent == p.id
    && cur.environment == p.environment
    && st.environments[p.environment].Token() == input.expected
    && !Exhausted(st.environments[p.environment])
    && Has(st.operations, p.proof.reservation)
  }

  /** The records an admitted unlock reads. */
  lemma UnlockReads(st: State, cur: Operation, now: nat)
    requires UnlockAllowed(st, cur, now)
    ensures Has(st.operations, cur.request.input.restoration) && Has(st.operations, cur.request.input.verification)
    ensures var p, v := Get(st.operations, cur.request.input.restoration), Get(st.operations, cur.request.input.verification);
            && p.proof.OfRestoration? && v.proof.OfVerification?
            && p.environment in st.environments && Has(st.operations, p.proof.reservation)
  {
  }

  /** The receipt of an unlock: the recovery fence it settles and the fence it releases to. */
  function SettledReceipt(cur: Operation, p: Operation, v: Operation, env: Environment): Operation
    requires p.proof.OfRestoration? && v.proof.OfVerification?
  {
    cur.(status := Succeeded, phase := Released, leaseUntil := 0,
         proof := OfSettlement(cur.request.input, p.proof.reservation, p.proof.hold, v.proof.confirmation,
                               p.epoch, p.proof.selection, env.epoch + 1,
                               env.Token().(generation := env.generation + 1)))
  }

  /**
    Second half: the fence advances and the receipt is settled in one transaction, which is
    kept only if the receipt then proves the whole chain.
   */
  function FinishReleaseTx(st: State, i: nat, now: nat, checks: Checks): Outcome
    requires i < |st.operations|
  {
    var cur := st.operations[i];
    if !checks.evidenceCurrent || !UnlockAllowed(st, cur, now) then Refused
    else
      var p := Get(st.operations, cur.request.input.restoration);
      var v := Get(st.operations, cur.request.input.verification);
      var settled := SettledReceipt(cur, p, v, st.environments[p.environment]);
      var st' := Fence(st, p.environment, 1).(operations := st.operations[i := settled]);
      if RestorationReceipt(st', settled, Get(st.operations, p.proof.reservation)) then Accepted(st', settled)
      else Refused
  }

  predicate Terminal(s: Status) {
    s == Succeeded || s == Failed || s == Cancelled
  }

  /** What the workers may do to a stored record; none of it touches an environment. */
  datatype Work = Lease(until: nat)
                | FinishCapture(valid: bool)
                | FinishActivation(status: Status)
                | Advance(phase: Phase, plan: Id)
                | Unapprove
                | FinishVerification(valid: bool)
                | AbandonRelease

  /** The phase order of a recovery generation. */
  predicate Follows(before: Phase, after: Phase) {
    || (before == ReconcileEffects && after == PrepareProposals)
    || (before == PrepareProposals && after in {PrepareProposals, WaitExternalMerge})
    || (before == WaitExternalMerge && after == GitOpsApplied)
  }

  function WorkTx(st: State, i: nat, w: Work, checks: Checks): Outcome
    requires i < |st.operations|
  {
    var op := st.operations[i];
    var write := (o: Operation) => Accepted(st.(operations := st.operations[i := o]), o);
    if Terminal(op.status) then Refused
    else
      match w
      case Lease(until) =>
        if op.kind in {Ordinary, RestorationRelease} then Refused
        else write(op.(status := Running, leaseUntil := until))
      case FinishCapture(valid) =>
        if op.kind != BaselineCapture then Refused
        else if valid && op.proof.OfCapture? && Has(st.operations, op.parent)
                && HistoryIntact(st.operations, BaselineCapture, op.parent)
                && Latest(st.operations, BaselineCapture, op.parent) == Some(op)
                && !ActivationAdmitted(st.operations, Get(st.operations, op.parent))
                && BaselineExpected(st, Get(st.operations, op.parent), op.proof.request.expected)
                && checks.effectsResolved
        then write(op.(status := Succeeded, phase := BaselineCaptured, leaseUntil := 0))
        else write(op.(status := Failed, phase := BaselineUnverified, leaseUntil := 0))
      case FinishActivation(status) =>
        if op.kind != Activation then Refused
        else if status != Failed && status != Cancelled && !(ActivationGuard(st, op) && checks.candidateEligible) then Refused
        else write(op.(status := status, leaseUntil := 0))
      case Advance(phase, plan) =>
        if op.kind != Restoration || !RestorationAllowed(st, op)
           || !Follows(op.phase, phase) then Refused
        else if phase == GitOpsApplied && !Confirmed(st.operations, op) then Refused
        else write(op.(phase := phase, plan := if phase == WaitExternalMerge then plan else op.plan, leaseUntil := 0,
                       status := if phase == GitOpsApplied then Succeeded else Running))
      case Unapprove =>
        if op.kind != Restoration || !RestorationAllowed(st, op) then Refused
        else write(op.(status := Failed, phase := UnapprovedEffect, leaseUntil := 0))
      case FinishVerification(valid) =>
        if op.kind != Verification then Refused
        else if valid && VerificationAllowed(st, op) && checks.evidenceCurrent
        then write(op.(status := Succeeded, phase := RestorationVerified, leaseUntil := 0))
        else write(op.(status := Failed, phase := RestorationUnverified, leaseUntil := 0))
      case AbandonRelease =>
        if op.kind != RestorationRelease then Refused
        else write(op.(status := Failed, phase := ReleaseBlocked, leaseUntil := 0))
  }

  /** Every other command that replaces the desired state or the target of an environment. */
  datatype Edit = Select(composition: Id, operation: Id) | Retarget(target: Id)

  function EditTx(st: State, environment: Id, e: Edit): Option<State> {
    if environment !in st.environments || !Free(st, environment) then None
    else
      var env := st.environments[environment];
      if e.Retarget? && e.target == env.target then Some(st)
      else if env.generation == MAX_UINT64 then None
      else
        var next := env.(generation := env.generation + 1);
        Some(st.(environments := st.environments[environment :=
          match e
          case Select(composition, operation) => next.(composition := composition, operation := operation)
          case Retarget(target) => next.(target := target, composition := NO_ID, operation := NO_ID)]))
  }

  // ----- runs -----

  datatype Step =
    | Submit(command: Command)
    | Settle(index: nat, now: nat, checks: Checks)
    | DoWork(index: nat, work: Work, checks: Checks)
    | DoEdit(environment: Id, edit: Edit)
    | AppendOrdinary(operation: Operation)

  function CommandTx(st: State, c: Command): Outcome {
    match c.request.action
    case Reserve => ReserveTx(st, c)
    case Release => ReleaseTx(st, c)
    case Capture => CaptureTx(st, c)
    case Deploy => DeployTx(st, c)
    case RequestRestoration => RequestRestorationTx(st, c)
    case Confirm => ConfirmTx(st, c)
    case Verify => VerifyTx(st, c)
    case ReleaseAfterRestoration => BeginReleaseTx(st, c)
  }

  /** New records carry an identity no record has. */
  predicate Fresh(st: State, id: Id) {
    id != NO_ID && !Has(st.operations, id)
  }

  predicate Next(st: State, step: Step, st': State) {
    match step
    case Submit(c) => Fresh(st, c.id) && CommandTx(st, c).Accepted? && st' == CommandTx(st, c).state
    case Settle(i, now, checks) =>
      i < |st.operations| && FinishReleaseTx(st, i, now, checks).Accepted?
      && st' == FinishReleaseTx(st, i, now, checks).state
    case DoWork(i, w, checks) =>
      i < |st.operations| && WorkTx(st, i, w, checks).Accepted? && st' == WorkTx(st, i, w, checks).state
    case DoEdit(environment, e) => EditTx(st, environment, e) == Some(st')
    case AppendOrdinary(op) =>
      Fresh(st, op.id) && op.kind == Ordinary && op.proof.NoProof? && st' == Append(st, op)
  }

  predicate Initial(st: State) {
    && (forall i :: 0 <= i < |st.operations| ==> st.operations[i].kind == Ordinary && st.operations[i].proof.NoProof?)
    && (forall i, j :: 0 <= i < j < |st.operations| ==> st.operations[i].id != st.operations[j].id)
    && (forall e :: e in st.environments ==>
          st.environments[e].epoch <= MAX_UINT64 && st.environments[e].generation <= MAX_UINT64)
  }

  predicate IsRun(states: seq<State>, steps: seq<Step>) {
    && |states| == |steps| + 1
    && forall i {:trigger steps[i]} :: 0 <= i < |steps| ==> Next(states[i], steps[i], states[i + 1])
  }
}
