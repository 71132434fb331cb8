/**
  The reservation commands as they run: scans over the operation log and one in-place
  transaction each. Every method is tied to the transaction function of the same name.
 */
module DevHoldStore {
  import opened Ids
  import opened DevHoldModel
  import opened DevHoldSteps

  lemma HistoryIntactExtends(ops: seq<Operation>, op: Operation, kind: Kind, parent: Id)
    ensures HistoryIntact(ops + [op], kind, parent)
        <==> HistoryIntact(ops, kind, parent)
             && (op.kind == kind && op.parent == parent ==>
                   Numbered(op, kind, parent)
                   && (Latest(ops, kind, parent).None? || Generation(Latest(ops, kind, parent).value) != Generation(op)))
  {
    assert (ops + [op])[..|ops|] == ops;
  }

  lemma LatestExtends(ops: seq<Operation>, op: Operation, kind: Kind, parent: Id)
    ensures Latest(ops + [op], kind, parent)
         == if Numbered(op, kind, parent)
               && (Latest(ops, kind, parent).None? || Generation(Latest(ops, kind, parent).value) < Generation(op))
            then Some(op) else Latest(ops, kind, parent)
  {
    assert (ops + [op])[..|ops|] == ops;
  }

  class ControlStore {
    var operations: seq<Operation>
    var environments: map<Id, Environment>
    var quarantines: set<Id>

    function View(): State
      reads this
    {
      State(operations, environments, quarantines)
    }

    constructor (initial: State)
      ensures View() == initial
    {
      operations, environments, quarantines := initial.operations, initial.environments, initial.quarantines;
    }

    method OperationById(id: Id) returns (i: nat)
      ensures i == Find(operations, id)
    {
      i := 0;
      while i < |operations|
        invariant i <= |operations|
        invariant forall j :: 0 <= j < i ==> operations[j].id != id
      {
        if operations[i].id == id { return; }
        i := i + 1;
      }
    }

    /** Two passes over the log: settled restoration chains first, then plain releases. */
    method HoldReleased(hold: Operation) returns (released: bool)
      ensures released == IsReleased(View(), hold)
    {
      hide RestorationReceipt, PlainReceipt;
      var i := 0;
      while i < |operations|
        invariant i <= |operations|
        invariant forall k :: 0 <= k < i ==> !RestorationReceipt(View(), operations[k], hold)
      {
        if RestorationReceipt(View(), operations[i], hold) {
          assert Receipt(View(), View().operations[i], hold);
          return true;
        }
        i := i + 1;
      }
      i := 0;
      while i < |operations|
        invariant i <= |operations|
        invariant forall k :: 0 <= k < i ==> !PlainReceipt(operations[k], hold)
      {
        if PlainReceipt(operations[i], hold) {
          assert Receipt(View(), View().operations[i], hold);
          return true;
        }
        i := i + 1;
      }
      return false;
    }

    /** The hold that fences an environment: the first one that nothing has released. */
    method ActiveDevReservation(environment: Id) returns (active: Option<Operation>)
      ensures active == Active(View(), environment)
    {
      hide IsReleased;
      var i := 0;
      while i < |operations|
        invariant i <= |operations|
        invariant ActiveFrom(View(), environment, 0) == ActiveFrom(View(), environment, i)
      {
        if IsHoldOf(operations[i], environment) {
          var released := HoldReleased(operations[i]);
          if !released {
            return Some(operations[i]);
          }
        }
        i := i + 1;
      }
      return None;
    }

    /** The record with the highest number, and whether the history is undamaged. */
    method LatestNumbered(kind: Kind, parent: Id) returns (out: Option<Operation>, valid: bool)
      ensures out == Latest(operations, kind, parent)
      ensures valid == HistoryIntact(operations, kind, parent)
    {
      out, valid := None, true;
      var i := 0;
      while i < |operations|
        invariant i <= |operations|
        invariant out == Latest(operations[..i], kind, parent)
        invariant valid == HistoryIntact(operations[..i], kind, parent)
      {
        var op := operations[i];
        assert operations[..i + 1] == operations[..i] + [op];
        LatestExtends(operations[..i], op, kind, parent);
        HistoryIntactExtends(operations[..i], op, kind, parent);
        if op.kind == kind && op.parent == parent {
          if !Numbered(op, kind, parent) {
            valid := false;
          } else if out.None? || Generation(op) > Generation(out.value) {
            out := Some(op);
          } else if Generation(op) == Generation(out.value) {
            valid := false;
          }
        }
        i := i + 1;
      }
      assert operations[..i] == operations;
    }

    /** The number the next baseline capture gets, counting from one. */
    method NextCaptureGeneration(hold: Id) returns (next: Option<nat>)
      ensures next == NextCapture(operations, hold)
    {
      var generation := 1;
      var i := 0;
      while i < |operations|
        invariant i <= |operations|
        invariant forall j :: 0 <= j < i && IsCaptureOf(operations[j], hold) ==>
                    Numbered(operations[j], BaselineCapture, hold) && Generation(operations[j]) != MAX_UINT64
        invariant generation == match Latest(operations[..i], BaselineCapture, hold)
                                case None => 1 case Some(op) => Generation(op) + 1
      {
        var op := operations[i];
        assert operations[..i + 1] == operations[..i] + [op];
        LatestExtends(operations[..i], op, BaselineCapture, hold);
        if IsCaptureOf(op, hold) {
          if !Numbered(op, BaselineCapture, hold) || Generation(op) == MAX_UINT64 {
            return None;
          }
          if Generation(op) >= generation {
            generation := Generation(op) + 1;
          }
        }
        i := i + 1;
      }
      assert operations[..i] == operations;
      return Some(generation);
    }

    method BaselineHasActivation(hold: Operation) returns (admitted: bool)
      ensures admitted == ActivationAdmitted(operations, hold)
    {
      var i := 0;
      while i < |operations|
        invariant i <= |operations|
        invariant forall j :: 0 <= j < i ==> !ActivationOf(operations[j], hold)
      {
        if ActivationOf(operations[i], hold) { return true; }
        i := i + 1;
      }
      return false;
    }

    method DevReservationReplay(r: Request) returns (out: Replay)
      ensures out == ReservationReplay(operations, r)
    {
      var i := 0;
      assert operations[0..] == operations;
      while i < |operations|
        invariant i <= |operations|
        invariant ReservationReplay(operations, r) == ReservationReplay(operations[i..], r)
      {
        var op := operations[i];
        assert operations[i..][1..] == operations[i + 1..];
        if op.product == r.product && op.key == r.input.key && IsRestorationOperation(op) { return Conflict; }
        if op.kind == BaselineCapture && op.key == r.input.key { return Conflict; }
        if op.kind == RuntimeCheck && op.key == r.input.key { return Conflict; }
        if op.product == r.product && op.key == r.input.key
           && (op.kind == Reservation || op.kind == ReservationRelease || op.kind == Activation) {
          if op.request != r || op.actor != r.actor { return Conflict; }
          return Found(op);
        }
        i := i + 1;
      }
      return NoReplay;
    }

    method BaselineReplay(r: Request) returns (out: Replay)
      ensures out == CaptureReplay(operations, r)
    {
      var i := 0;
      assert operations[0..] == operations;
      while i < |operations|
        invariant i <= |operations|
        invariant CaptureReplay(operations, r) == CaptureReplay(operations[i..], r)
      {
        var op := operations[i];
        assert operations[i..][1..] == operations[i + 1..];
        if op.key == r.input.key {
          if op.kind != BaselineCapture || op.product != r.product || op.actor != r.actor || op.request != r {
            return Conflict;
          }
          return Found(op);
        }
        i := i + 1;
      }
      return NoReplay;
    }

    method RestorationReplayScan(r: Request) returns (out: Replay)
      requires r.action in {Action.RequestRestoration, Action.Confirm, Verify, ReleaseAfterRestoration}
      ensures out == RestorationReplay(operations, r)
    {
      var i := 0;
      assert operations[0..] == operations;
      while i < |operations|
        invariant i <= |operations|
        invariant RestorationReplay(operations, r) == RestorationReplay(operations[i..], r)
      {
        var op := operations[i];
        assert operations[i..][1..] == operations[i + 1..];
        if op.product == r.product && op.key == r.input.key {
          if op.kind != RestorationKind(r.action) || op.actor != r.actor || op.request != r {
            return Conflict;
          }
          return Found(op);
        }
        i := i + 1;
      }
      return NoReplay;
    }

    /** The single confirmation of a recovery; a second or unusable one voids the first. */
    method RestorationConfirmation(parent: Operation) returns (found: Option<Operation>)
      ensures found.Some? == Confirmed(operations, parent)
      ensures found.Some? ==> found.value == operations[ConfirmationIndex(operations, parent)]
    {
      found := None;
      ghost var at := 0;
      var i := 0;
      while i < |operations|
        invariant i <= |operations|
        invariant found.None? ==> forall j :: 0 <= j < i ==> !IsConfirmation(operations[j], parent)
        invariant found.Some? ==> at < i && found.value == operations[at]
        invariant found.Some? ==> IsConfirmation(operations[at], parent) && ConfirmationUsable(operations[at], parent)
        invariant found.Some? ==> forall j :: 0 <= j < i && IsConfirmation(operations[j], parent) ==> j == at
      {
        var op := operations[i];
        if IsConfirmation(op, parent) {
          if found.Some? || !ConfirmationUsable(op, parent) {
            return None;
          }
          found, at := Some(op), i;
        }
        i := i + 1;
      }
    }

    /** The store after a transaction: exactly what its function says, or nothing. */
    twostate predicate Applied(o: Outcome)
      reads this
    {
      View() == if o.Accepted? then o.state else old(View())
    }

    method Reserve(c: Command) returns (outcome: Outcome)
      requires c.request.action == Action.Reserve
      modifies this
      ensures outcome == ReserveTx(old(View()), c) && Applied(outcome)
    {
      var r := c.request;
      var replay := DevReservationReplay(r);
      match replay {
        case Conflict => return Refused;
        case Found(op) => return Replayed(op);
        case NoReplay =>
      }
      if !c.checks.candidateEligible || !HasEnvironment(View(), r.input.environment, r.product) { return Refused; }
      var env := environments[r.input.environment];
      if env.Token() != r.input.expected { return Refused; }
      var active := ActiveDevReservation(r.input.environment);
      if active.Some? || !c.checks.effectsResolved || !c.checks.targetsAllowed || Exhausted(env) { return Refused; }
      var fenced := env.(epoch := env.epoch + 1, generation := env.generation + 1);
      var hold := Hold(r.input, r.input.candidate, env.Token(), fenced.Token(), fenced.epoch, env);
      var op := Receive(c, Reservation, r.input.environment, NO_ID, fenced.epoch, Succeeded, Reserved, OfHold(hold));
      environments := environments[r.input.environment := fenced];
      operations := operations + [op];
      return Accepted(View(), op);
    }

    method Release(c: Command) returns (outcome: Outcome)
      requires c.request.action == Action.Release
      modifies this
      ensures outcome == ReleaseTx(old(View()), c) && Applied(outcome)
    {
      hide ActiveFrom, Usable, ActivationOf, ReservationReplay;
      var r := c.request;
      var replay := DevReservationReplay(r);
      match replay {
        case Conflict => return Refused;
        case Found(op) => return Replayed(op);
        case NoReplay =>
      }
      var i := OperationById(r.input.reservation);
      if i == |operations| { return Refused; }
      var hold := operations[i];
      if hold.product != r.product || hold.actor != r.actor || hold.kind != Reservation || !hold.proof.OfHold? {
        return Refused;
      }
      var activated := BaselineHasActivation(hold);
      if activated || !HasEnvironment(View(), hold.environment, r.product) { return Refused; }
      var env := environments[hold.environment];
      var active := ActiveDevReservation(hold.environment);
      if env.Token() != r.input.expected || active.None? || active.value.id != hold.id || !Usable(View(), hold)
         || env.epoch != hold.proof.hold.epoch || env.Token() != hold.proof.hold.reserved
         || env.target != hold.proof.hold.environment.target
         || !c.checks.effectsResolved || env.generation == MAX_UINT64 {
        return Refused;
      }
      var op := Receive(c, ReservationRelease, hold.environment, NO_ID, env.epoch, Succeeded, Released,
                        OfRelease(r.input, hold.id, hold.proof.hold));
      environments := environments[hold.environment := env.(generation := env.generation + 1)];
      operations := operations + [op];
      return Accepted(View(), op);
    }

    method Capture(c: Command) returns (outcome: Outcome)
      requires c.request.action == Action.Capture
      modifies this
      ensures outcome == CaptureTx(old(View()), c) && Applied(outcome)
    {
      var r := c.request;
      var replay := BaselineReplay(r);
      match replay {
        case Conflict => return Refused;
        case Found(op) => return Replayed(op);
        case NoReplay =>
      }
      var i := OperationById(r.input.reservation);
      if i == |operations| || operations[i].product != r.product || operations[i].actor != r.actor { return Refused; }
      var hold := operations[i];
      var activated := BaselineHasActivation(hold);
      var next := NextCaptureGeneration(hold.id);
      if activated || next.None? || !c.checks.effectsResolved
         || !BaselineExpected(View(), hold, r.input.expected) || !c.checks.evidenceCurrent || !c.checks.withinBounds {
        return Refused;
      }
      var op := Receive(c, BaselineCapture, hold.environment, hold.id, hold.epoch, Pending, CaptureGitOps,
                        OfCapture(r.input, hold.id, hold.proof.hold, next.value));
      operations := operations + [op];
      return Accepted(View(), op);
    }

    method RequestRestoration(c: Command) returns (outcome: Outcome)
      requires c.request.action == Action.RequestRestoration
      modifies this
      ensures outcome == RequestRestorationTx(old(View()), c) && Applied(outcome)
    {
      hide RestorationOriginal, HistoryIntact, LatestIndex, ActiveFrom, RestorationReplay;
      var r := c.request;
      var replay := RestorationReplayScan(r);
      match replay {
        case Conflict => return Refused;
        case Found(op) => return Replayed(op);
        case NoReplay =>
      }
      var i := OperationById(r.input.reservation);
      if i == |operations| || operations[i].product != r.product || operations[i].actor != r.actor { return Refused; }
      var hold := operations[i];
      var active := ActiveDevReservation(hold.environment);
      if active.None? || active.value.id != hold.id || hold.environment !in environments { return Refused; }
      var env := environments[hold.environment];
      if env.Token() != r.input.expected || !RestorationOriginal(View(), hold) || !c.checks.evidenceCurrent {
        return Refused;
      }
      var prior, intact := LatestNumbered(Restoration, hold.id);
      if !intact { return Refused; }
      var generation := 1;
      if prior.Some? {
        if Generation(prior.value) == MAX_UINT64 || prior.value.leaseUntil > c.now { return Refused; }
        generation := Generation(prior.value) + 1;
      }
      if !c.checks.effectsResolved || Exhausted(env) || !c.checks.withinBounds { return Refused; }
      var capture := OriginalCapture(View(), hold);
      var fenced := env.(epoch := env.epoch + 1, generation := env.generation + 1);
      var op := Receive(c, Restoration, hold.environment, hold.id, fenced.epoch, Pending, ReconcileEffects,
                        OfRestoration(r.input, hold.id, hold.proof.hold, capture, generation, fenced.epoch, fenced.Token()));
      environments := environments[hold.environment := fenced];
      operations := operations + [op];
      return Accepted(View(), op);
    }

    method Confirm(c: Command) returns (outcome: Outcome)
      requires c.request.action == Action.Confirm
      modifies this
      ensures outcome == ConfirmTx(old(View()), c) && Applied(outcome)
    {
      hide RestorationAllowed, RestorationReplay;
      var r := c.request;
      var replay := RestorationReplayScan(r);
      match replay {
        case Conflict => return Refused;
        case Found(op) => return Replayed(op);
        case NoReplay =>
      }
      if !SuccessorAllowed(View(), r) { return Refused; }
      var p := OperationById(r.input.restoration);
      var parent := operations[p];
      if parent.phase != WaitExternalMerge || parent.plan == NO_ID || parent.plan != r.input.plan
         || !c.checks.evidenceCurrent || !c.checks.withinBounds {
        return Refused;
      }
      var i := 0;
      while i < |operations|
        invariant i <= |operations|
        invariant forall j :: 0 <= j < i ==> !IsConfirmation(operations[j], parent)
      {
        if IsConfirmation(operations[i], parent) { return Refused; }
        i := i + 1;
      }
      var op := Receive(c, Confirmation, parent.environment, parent.id, parent.epoch,
                        Succeeded, AttributedConfirmation, OfConfirmation(r.input, parent.plan));
      operations := operations + [op];
      return Accepted(View(), op);
    }

    /** The unlock: fence and receipt change together, or not at all. */
    method FinishRelease(i: nat, now: nat, checks: Checks) returns (outcome: Outcome)
      requires i < |operations|
      modifies this
      ensures outcome == FinishReleaseTx(old(View()), i, now, checks) && Applied(outcome)
    {
      hide RestorationReceipt, UnlockAllowed, Exhausted;
      var cur := operations[i];
      if !checks.evidenceCurrent || !UnlockAllowed(View(), cur, now) { return Refused; }
      UnlockReads(View(), cur, now);
      var p := OperationById(cur.request.input.restoration);
      var v := OperationById(cur.request.input.verification);
      var parent, verification := operations[p], operations[v];
      var h := OperationById(parent.proof.reservation);
      var hold := operations[h];
      var env := environments[parent.environment];
      var settled := SettledReceipt(cur, parent, verification, env);
      var tentative := State(operations[i := settled],
                             environments[parent.environment := env.(epoch := env.epoch + 1, generation := env.generation + 1)],
                             quarantines);
      if !RestorationReceipt(tentative, settled, hold) { return Refused; }
      operations, environments := tentative.operations, tentative.environments;
      return Accepted(tentative, settled);
    }
  }
}
