/**
  The Dev reservation log: the receipts that reserve, capture, activate, restore and
  release a shared environment, and the transactions that append them.

  A fingerprint is modelled as the value it is taken of, so "same hash" is "same value".
  An operation therefore keeps its whole `request` where the source keeps a request hash.
 */
module DevHoldModel {
  import opened Ids

  /** The compare-and-set token of an environment's desired state. */
  datatype Selection = Selection(composition: Id, operation: Id, generation: nat)

  /** `target` abstracts the cluster and the namespace, which are always compared together. */
  datatype Environment = Environment(product: Id, target: Id, composition: Id, operation: Id,
                                     generation: nat, epoch: nat)
  {
    function Token(): Selection {
      Selection(composition, operation, generation)
    }
  }

  datatype Action = Reserve | Release | Capture | Deploy
                  | RequestRestoration | Confirm | Verify | ReleaseAfterRestoration

  datatype Input = Input(candidate: Id, environment: Id, reservation: Id, restoration: Id,
                         verification: Id, plan: Id, key: Id, expected: Selection)

  datatype Request = Request(action: Action, product: Id, actor: Id, input: Input)

  /** What a reservation freezes: the candidate, the baseline token and the reserved token. */
  datatype Hold = Hold(request: Input, candidate: Id, baseline: Selection, reserved: Selection,
                       epoch: nat, environment: Environment)

  datatype Proof =
    | NoProof
    | OfHold(hold: Hold)
    | OfRelease(request: Input, reservation: Id, hold: Hold)
    | OfCapture(request: Input, reservation: Id, hold: Hold, generation: nat)
    | OfActivation(request: Input, reservation: Id, hold: Hold, capture: Id)
    | OfRestoration(request: Input, reservation: Id, hold: Hold, capture: Id,
                    generation: nat, epoch: nat, selection: Selection)
    | OfConfirmation(request: Input, plan: Id)
    | OfVerification(request: Input, plan: Id, confirmation: Id, generation: nat)
    | OfSettlement(request: Input, reservation: Id, hold: Hold, confirmation: Id,
                   recoveryEpoch: nat, recoverySelection: Selection,
                   releasedEpoch: nat, releasedSelection: Selection)

  datatype Kind = Reservation | ReservationRelease | BaselineCapture | Activation | RuntimeCheck
                | Restoration | Confirmation | Verification | RestorationRelease | Ordinary

  datatype Status = Pending | Running | Succeeded | Failed | Cancelled

  datatype Phase =
    | Reserved | Released
    | CaptureGitOps | BaselineCaptured | BaselineUnverified
    | WaitChildren
    | ReconcileEffects | PrepareProposals | WaitExternalMerge | GitOpsApplied | UnapprovedEffect
    | AttributedConfirmation
    | VerifyRestoration | RestorationVerified | RestorationUnverified
    | ReleaseReconciliation | ReleaseBlocked
    | OtherPhase

  datatype Operation = Operation(id: Id, kind: Kind, product: Id, actor: Id, environment: Id,
                                 parent: Id, key: Id, request: Request, epoch: nat,
                                 status: Status, phase: Phase, plan: Id, leaseUntil: nat,
                                 quarantined: bool, proof: Proof)

  datatype State = State(operations: seq<Operation>, environments: map<Id, Environment>,
                         quarantines: set<Id>)

  /**
    The verdicts of the checks whose inputs are outside this model: candidate eligibility,
    reservation effects, configuration and physical evidence, size bounds.
   */
  datatype Checks = Checks(candidateEligible: bool, effectsResolved: bool, targetsAllowed: bool,
                           evidenceCurrent: bool, withinBounds: bool)

  datatype Command = Command(request: Request, id: Id, now: nat, checks: Checks)

  datatype Outcome = Accepted(state: State, operation: Operation)
                   | Replayed(operation: Operation)
                   | Refused

  // ----- look-ups -----

  /** The index of the first operation with identity `id`, or the length when there is none. */
  function Find(ops: seq<Operation>, id: Id): (i: nat)
    ensures i <= |ops|
    ensures i < |ops| ==> ops[i].id == id
    ensures forall j :: 0 <= j < i ==> ops[j].id != id
  {
    if |ops| == 0 then 0 else if ops[0].id == id then 0 else 1 + Find(ops[1..], id)
  }

  predicate Has(ops: seq<Operation>, id: Id) {
    Find(ops, id) < |ops|
  }

  function Get(ops: seq<Operation>, id: Id): Operation
    requires Has(ops, id)
  {
    ops[Find(ops, id)]
  }

  predicate HasEnvironment(st: State, id: Id, product: Id) {
    id in st.environments && st.environments[id].product == product
  }

  // ----- when a hold is over -----

  /** An exact plain-release receipt of this very hold. */
  predicate PlainReceipt(receipt: Operation, hold: Operation) {
    && receipt.kind == ReservationRelease && receipt.status == Succeeded && receipt.phase == Released
    && receipt.product == hold.product && receipt.environment == hold.environment
    && receipt.actor == hold.actor
    && receipt.proof.OfRelease? && hold.proof.OfHold?
    && receipt.proof.reservation == hold.id && receipt.proof.request.reservation == hold.id
    && receipt.proof.request.key == receipt.key
    && receipt.request == Request(Action.Release, receipt.product, receipt.actor, receipt.proof.request)
    && receipt.proof.request.expected == hold.proof.hold.reserved
    && receipt.epoch == hold.proof.hold.epoch
    && receipt.proof.hold == hold.proof.hold
  }

  predicate SameScope(a: Operation, b: Operation) {
    a.product == b.product && a.environment == b.environment && a.actor == b.actor
  }

  /** A settled link of the recovery chain: unquarantined, in scope, fenced at `epoch`. */
  predicate ChainLink(link: Operation, hold: Operation, epoch: nat) {
    !link.quarantined && SameScope(link, hold) && link.epoch == epoch && link.status == Succeeded
  }

  predicate RecoveryLink(ops: seq<Operation>, receipt: Operation, hold: Operation)
    requires receipt.proof.OfSettlement?
  {
    var p := receipt.proof;
    Has(ops, p.request.restoration) &&
    var recovery := Get(ops, p.request.restoration);
    && ChainLink(recovery, hold, p.recoveryEpoch)
    && recovery.kind == Restoration && recovery.parent == hold.id && recovery.phase == GitOpsApplied
    && recovery.id == receipt.parent
    && recovery.proof.OfRestoration? && recovery.proof.reservation == hold.id
    && recovery.proof.hold == p.hold && recovery.proof.epoch == p.recoveryEpoch
    && recovery.proof.selection == p.recoverySelection && recovery.proof.generation != 0
    // no other generation of this hold is as new
    && forall i :: 0 <= i < |ops| && ops[i].kind == Restoration && ops[i].parent == hold.id ==>
         ops[i].proof.OfRestoration? &&
         (ops[i].proof.generation >= recovery.proof.generation ==> ops[i].id == recovery.id)
  }

  predicate ConfirmationLink(ops: seq<Operation>, receipt: Operation, hold: Operation)
    requires receipt.proof.OfSettlement?
  {
    var p := receipt.proof;
    Has(ops, p.confirmation) &&
    var c := Get(ops, p.confirmation);
    && ChainLink(c, hold, p.recoveryEpoch)
    && c.kind == Confirmation && c.parent == p.request.restoration && c.phase == AttributedConfirmation
    && c.proof.OfConfirmation?
  }

  predicate VerificationLink(ops: seq<Operation>, receipt: Operation, hold: Operation)
    requires receipt.proof.OfSettlement?
  {
    var p := receipt.proof;
    Has(ops, p.request.verification) &&
    var v := Get(ops, p.request.verification);
    && ChainLink(v, hold, p.recoveryEpoch)
    && v.kind == Verification && v.parent == p.request.restoration && v.phase == RestorationVerified
    && v.proof.OfVerification? && v.proof.generation != 0 && v.proof.confirmation == p.confirmation
    && forall i :: 0 <= i < |ops| && ops[i].kind == Verification && ops[i].parent == p.request.restoration ==>
         ops[i].proof.OfVerification? &&
         (ops[i].proof.generation >= v.proof.generation ==> ops[i].id == v.id)
  }

  /** A settled restoration chain: receipt, newest recovery, its confirmation and newest verification. */
  predicate RestorationReceipt(st: State, receipt: Operation, hold: Operation) {
    && hold.product !in st.quarantines
    && receipt.proof.OfSettlement? && hold.proof.OfHold? && !hold.quarantined && !receipt.quarantined
    && receipt.kind == RestorationRelease && receipt.status == Succeeded && receipt.phase == Released
    && SameScope(receipt, hold)
    && var p := receipt.proof;
    && p.reservation == hold.id && p.hold == hold.proof.hold
    && p.request.key == receipt.key && p.request.expected == p.recoverySelection
    && p.recoveryEpoch == receipt.epoch
    && p.releasedEpoch == p.recoveryEpoch + 1 <= MAX_UINT64
    && p.releasedSelection == p.recoverySelection.(generation := p.recoverySelection.generation + 1)
    && p.releasedSelection.generation <= MAX_UINT64
    && receipt.request == Request(Action.ReleaseAfterRestoration, receipt.product, receipt.actor, p.request)
    && RecoveryLink(st.operations, receipt, hold)
    && ConfirmationLink(st.operations, receipt, hold)
    && VerificationLink(st.operations, receipt, hold)
  }

  predicate Receipt(st: State, receipt: Operation, hold: Operation) {
    PlainReceipt(receipt, hold) || RestorationReceipt(st, receipt, hold)
  }

  predicate IsReleased(st: State, hold: Operation) {
    exists i :: 0 <= i < |st.operations| && Receipt(st, st.operations[i], hold)
  }

  predicate IsHoldOf(op: Operation, environment: Id) {
    op.kind == Reservation && op.environment == environment
  }

  /** The first hold of the environment, from index `from`, that no receipt has released. */
  function ActiveFrom(st: State, environment: Id, from: nat): (i: nat)
    requires from <= |st.operations|
    ensures from <= i <= |st.operations|
    ensures i < |st.operations| ==>
              IsHoldOf(st.operations[i], environment) && !IsReleased(st, st.operations[i])
    ensures forall j :: from <= j < i && IsHoldOf(st.operations[j], environment) ==>
              IsReleased(st, st.operations[j])
    decreases |st.operations| - from
  {
    if from == |st.operations| then from
    else if IsHoldOf(st.operations[from], environment) && !IsReleased(st, st.operations[from]) then from
    else ActiveFrom(st, environment, from + 1)
  }

  function Active(st: State, environment: Id): Option<Operation> {
    var i := ActiveFrom(st, environment, 0);
    if i < |st.operations| then Some(st.operations[i]) else None
  }

  predicate Free(st: State, environment: Id) {
    Active(st, environment).None?
  }

  // ----- numbered histories -----

  predicate IsRestorationOf(op: Operation, hold: Id) {
    op.kind == Restoration && op.parent == hold
  }

  predicate IsCaptureOf(op: Operation, hold: Id) {
    op.kind == BaselineCapture && op.parent == hold
  }

  /** A numbered record: the kind and the parent are right, and the number is usable. */
  predicate Numbered(op: Operation, kind: Kind, parent: Id) {
    && op.kind == kind && op.parent == parent
    && (op.proof.OfCapture? || op.proof.OfRestoration? || op.proof.OfVerification?)
    && op.proof.generation != 0
  }

  function Generation(op: Operation): nat {
    if op.proof.OfCapture? || op.proof.OfRestoration? || op.proof.OfVerification? then op.proof.generation else 0
  }

  /** `ops[i]` carries the highest number of the history. */
  predicate IsLatest(ops: seq<Operation>, kind: Kind, parent: Id, i: nat) {
    && i < |ops| && Numbered(ops[i], kind, parent)
    && forall j :: 0 <= j < |ops| && Numbered(ops[j], kind, parent) ==> Generation(ops[j]) <= Generation(ops[i])
  }

  /** The index of the record with the highest number (the first such), or the length. */
  function LatestIndex(ops: seq<Operation>, kind: Kind, parent: Id): (i: nat)
    ensures i <= |ops|
    ensures i < |ops| ==> IsLatest(ops, kind, parent, i)
    ensures i == |ops| ==> forall j :: 0 <= j < |ops| ==> !Numbered(ops[j], kind, parent)
    ensures forall j :: 0 <= j < i < |ops| && Numbered(ops[j], kind, parent) ==> Generation(ops[j]) < Generation(ops[i])
  {
    if |ops| == 0 then 0
    else
      var n := |ops| - 1;
      var i := LatestIndex(ops[..n], kind, parent);
      if Numbered(ops[n], kind, parent) && (i == n || Generation(ops[i]) < Generation(ops[n])) then n
      else if i == n then |ops|
      else i
  }

  function Latest(ops: seq<Operation>, kind: Kind, parent: Id): Option<Operation> {
    var i := LatestIndex(ops, kind, parent);
    if i < |ops| then Some(ops[i]) else None
  }

  /** No damaged record, and none that repeats the highest number before it. */
  predicate HistoryIntact(ops: seq<Operation>, kind: Kind, parent: Id) {
    |ops| == 0 ||
    var n := |ops| - 1;
    && HistoryIntact(ops[..n], kind, parent)
    && (ops[n].kind == kind && ops[n].parent == parent ==>
          && Numbered(ops[n], kind, parent)
          && var highest := Latest(ops[..n], kind, parent);
          (highest.None? || Generation(highest.value) != Generation(ops[n])))
  }
}
