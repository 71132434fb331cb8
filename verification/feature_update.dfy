/**
  The command that patches an environment's selection: its receipt by idempotency key, the
  compare-and-set on the selection, and the composition it selects. The key is looked up over
  all products and before anything else, so a repetition is a historical read.
 */
module FeatureUpdate {
  import opened Ids
  import opened FeaturePatch

  datatype Token = Token(composition: Id, operation: Id, generation: nat)

  /** The whole payload that the receipt's hash covers. */
  datatype Request = Request(product: Id, feature: Id, actor: Id, id: Id, environment: Id, key: Id,
                             revisions: seq<Id>, expected: Token)

  /** An operation; `update` is set on the receipts of this command only. */
  datatype Operation = Operation(id: Id, product: Id, feature: Id, actor: Id, environment: Id, key: Id, update: Option<Request>)

  datatype Environment = Environment(product: Id, composition: Id, operation: Id, generation: nat)

  datatype Composition = Composition(product: Id, environment: Id, components: seq<Component>)

  datatype State = State(operations: seq<Operation>, environments: map<Id, Environment>,
                         compositions: map<Id, Composition>, revisions: Revisions)

  datatype Outcome = Accepted(state: State, operation: Operation) | Replayed(operation: Operation) | Refused

  datatype Replay = NoReplay | Conflict | Found(operation: Operation)

  function TokenOf(env: Environment): Token {
    Token(env.composition, env.operation, env.generation)
  }

  // ----- the receipt -----

  predicate Binds(op: Operation, key: Id) {
    op.update.Some? && op.key == key
  }

  predicate SameScope(op: Operation, r: Request) {
    && op.update == Some(r) && op.product == r.product && op.feature == r.feature && op.actor == r.actor
    && op.environment == r.environment
  }

  /** The first receipt with the key decides, whatever product it belongs to. */
  function ReplayOf(ops: seq<Operation>, r: Request): Replay {
    if |ops| == 0 then NoReplay
    else if Binds(ops[0], r.key) then (if SameScope(ops[0], r) then Found(ops[0]) else Conflict)
    else ReplayOf(ops[1..], r)
  }

  function ReceiptOf(r: Request, id: Id): Operation {
    Operation(id, r.product, r.feature, r.actor, r.environment, r.key, Some(r))
  }

  // ----- the transaction -----

  /** The selection still is the one the caller saw, and a composition of this environment. */
  predicate Current(st: State, r: Request) {
    && r.environment in st.environments && st.environments[r.environment].product == r.product
    && TokenOf(st.environments[r.environment]) == r.expected
    && var selected := st.environments[r.environment].composition;
    && selected in st.compositions && st.compositions[selected].product == r.product
    && st.compositions[selected].environment == r.environment
  }

  predicate Patches(st: State, r: Request)
    requires Current(st, r)
  {
    var components := st.compositions[st.environments[r.environment].composition].components;
    && RequestOk(st.revisions, r.revisions, components) && AllKnown(st.revisions, components)
    && ChangesLists(st.revisions, r.revisions, components)
  }

  /** `allowed` stands for the checks of feature, targets and configuration that are not modelled. */
  function UpdateTx(st: State, r: Request, id: Id, composition: Id, allowed: bool): Outcome {
    match ReplayOf(st.operations, r)
    case Conflict => Refused
    case Found(op) => Replayed(op)
    case NoReplay =>
      if !Current(st, r) || !Patches(st, r) || !allowed || st.environments[r.environment].generation == MAX_UINT64 then Refused
      else
        var env := st.environments[r.environment];
        var components := st.compositions[env.composition].components;
        var patched := Composition(r.product, r.environment, Patch(st.revisions, r.revisions, components, composition));
        Accepted(st.(operations := st.operations + [ReceiptOf(r, id)],
                     environments := st.environments[r.environment :=
                       env.(composition := composition, operation := id, generation := env.generation + 1)],
                     compositions := st.compositions[composition := patched]),
                 ReceiptOf(r, id))
  }

  // ----- runs -----

  datatype Step =
    | Update(request: Request, id: Id, composition: Id, allowed: bool)
    | Select(environment: Id, id: Id, composition: Id, components: seq<Component>)
    | Retarget(environment: Id)
    | Record(revision: Id, value: Revision)
    | AppendOther(operation: Operation)

  predicate Next(st: State, step: Step, st': State) {
    match step
    case Update(r, id, composition, allowed) =>
      && composition != NO_ID && composition !in st.compositions
      && UpdateTx(st, r, id, composition, allowed).Accepted? && st' == UpdateTx(st, r, id, composition, allowed).state
    case Select(e, id, composition, components) =>
      && composition != NO_ID && composition !in st.compositions && e in st.environments
      && ValidPlan(st.revisions, components) && st.environments[e].generation < MAX_UINT64
      && var env := st.environments[e];
      st' == st.(environments := st.environments[e :=
                   env.(composition := composition, operation := id, generation := env.generation + 1)],
                 compositions := st.compositions[composition := Composition(env.product, e, components)])
    case Retarget(e) =>
      && e in st.environments && st.environments[e].generation < MAX_UINT64
      && var env := st.environments[e];
      st' == st.(environments := st.environments[e :=
                   env.(composition := NO_ID, operation := NO_ID, generation := env.generation + 1)])
    case Record(r, v) => r !in st.revisions && st' == st.(revisions := st.revisions[r := v])
    case AppendOther(op) => op.update.None? && st' == st.(operations := st.operations + [op])
  }

  predicate Initial(st: State) {
    && st.operations == [] && st.compositions == map[]
    && forall e :: e in st.environments ==> st.environments[e].composition == NO_ID && st.environments[e].generation <= MAX_UINT64
  }

  predicate IsRun(states: seq<State>, steps: seq<Step>) {
    && |states| == |steps| + 1 && Initial(states[0])
    && forall i {:trigger steps[i]} :: 0 <= i < |steps| ==> Next(states[i], steps[i], states[i + 1])
  }

  lemma StepAt(states: seq<State>, steps: seq<Step>, i: nat)
    requires IsRun(states, steps) && i < |steps|
    ensures |states| == |steps| + 1 && Next(states[i], steps[i], states[i + 1])
  {
    hide Next;
  }

  // ----- receipts never go away, and each key has one -----

  predicate Grows(st: State, st': State) {
    && st.operations <= st'.operations
    && (forall e :: e in st.environments ==>
          && e in st'.environments
          && (st'.environments[e] == st.environments[e] || st.environments[e].generation < st'.environments[e].generation))
    && (forall r :: r in st.revisions ==> r in st'.revisions && st'.revisions[r] == st.revisions[r])
  }

  lemma StepGrows(st: State, step: Step, st': State)
    requires Next(st, step, st')
    ensures Grows(st, st')
  {
    hide ReplayOf, Patches, Patch, ValidPlan;
  }

  lemma {:induction false} RunGrows(states: seq<State>, steps: seq<Step>, i: nat, j: nat)
    requires IsRun(states, steps) && i <= j < |states|
    ensures Grows(states[i], states[j])
    decreases j - i
  {
    if i < j {
      hide Next, Initial;
      RunGrows(states, steps, i, j - 1);
      StepAt(states, steps, j - 1);
      StepGrows(states[j - 1], steps[j - 1], states[j]);
    }
  }

  lemma {:induction false} ReplayFinds(ops: seq<Operation>, r: Request, n: nat)
    requires n < |ops| && Binds(ops[n], r.key) && forall k :: 0 <= k < n ==> !Binds(ops[k], r.key)
    ensures ReplayOf(ops, r) == if SameScope(ops[n], r) then Found(ops[n]) else Conflict
  {
    if n > 0 { ReplayFinds(ops[1..], r, n - 1); }
  }

  lemma {:induction false} NoReplayIff(ops: seq<Operation>, r: Request)
    ensures ReplayOf(ops, r) == NoReplay <==> forall k :: 0 <= k < |ops| ==> !Binds(ops[k], r.key)
  {
    if |ops| > 0 {
      NoReplayIff(ops[1..], r);
      assert forall k :: 0 < k < |ops| ==> ops[k] == ops[1..][k - 1];
    }
  }

  /**
    Once a request has been accepted, its key is bound for ever and for every product: the same
    request returns the stored receipt and changes nothing, any other is refused, whatever the
    selection and the checks are by then.
   */
  lemma KeyIsBound(states: seq<State>, steps: seq<Step>, i: nat, j: nat, r: Request, id: Id, composition: Id, allowed: bool)
    requires IsRun(states, steps) && i < j < |states| && steps[i].Update? && r.key == steps[i].request.key
    ensures |states[i].operations| < |states[j].operations|
    ensures UpdateTx(states[j], r, id, composition, allowed)
         == if r == steps[i].request then Replayed(states[j].operations[|states[i].operations|]) else Refused
    ensures states[j].operations[|states[i].operations|] == ReceiptOf(steps[i].request, steps[i].id)
  {
    var step, n, ops := steps[i], |states[i].operations|, states[j].operations;
    StepAt(states, steps, i);
    RunGrows(states, steps, i + 1, j);
    NoReplayIff(states[i].operations, step.request);
    hide Next, Initial, ReplayOf, Current, Patches;
    assert states[i + 1].operations == states[i].operations + [ReceiptOf(step.request, step.id)] by { Appends(states[i], step, states[i + 1]); }
    assert states[i + 1].operations <= ops;
    assert ops[n] == ReceiptOf(step.request, step.id);
    forall k | 0 <= k < n ensures !Binds(ops[k], r.key) {
      assert ops[k] == states[i].operations[k];
      NotBound(states[i], step, k);
    }
    ReplayFinds(ops, r, n);
  }

  lemma Appends(st: State, step: Step, st': State)
    requires Next(st, step, st') && step.Update?
    ensures st'.operations == st.operations + [ReceiptOf(step.request, step.id)]
    ensures ReplayOf(st.operations, step.request) == NoReplay
  {
    hide ReplayOf, Patches, Patch;
  }

  lemma NotBound(st: State, step: Step, k: nat)
    requires step.Update? && k < |st.operations| && ReplayOf(st.operations, step.request) == NoReplay
    ensures !Binds(st.operations[k], step.request.key)
  {
    NoReplayIff(st.operations, step.request);
  }

  // ----- the compare-and-set -----

  lemma UpdateMoves(st: State, step: Step, st': State)
    requires Next(st, step, st') && step.Update?
    ensures var e := step.request.environment;
            && e in st.environments && e in st'.environments && TokenOf(st.environments[e]) == step.request.expected
            && st'.environments[e].generation == st.environments[e].generation + 1
            && forall other :: other in st.environments && other != e ==>
                 other in st'.environments && st'.environments[other] == st.environments[other]
  {
    hide ReplayOf, Patches, Patch;
  }

  /** Of all updates that expect the same selection of an environment, at most one is ever accepted. */
  lemma OneWinner(states: seq<State>, steps: seq<Step>, i: nat, j: nat)
    requires IsRun(states, steps) && i < j < |steps| && steps[i].Update? && steps[j].Update?
    requires steps[i].request.environment == steps[j].request.environment
    ensures steps[i].request.expected != steps[j].request.expected
    ensures steps[i].request.expected.generation < steps[j].request.expected.generation
  {
    StepAt(states, steps, i);
    StepAt(states, steps, j);
    UpdateMoves(states[i], steps[i], states[i + 1]);
    UpdateMoves(states[j], steps[j], states[j + 1]);
    RunGrows(states, steps, i + 1, j);
  }

  // ----- what is selected -----

  /** The selected composition of an environment is one of its own, and a valid plan. */
  predicate SelectionOk(st: State, e: Id)
    requires e in st.environments
  {
    var env := st.environments[e];
    && env.generation <= MAX_UINT64
    && (env.composition != NO_ID ==>
          && env.composition in st.compositions && st.compositions[env.composition].environment == e
          && st.compositions[env.composition].product == env.product
          && ValidPlan(st.revisions, st.compositions[env.composition].components))
  }

  lemma ListOkGrows(revs: Revisions, revs': Revisions, c: Component)
    requires ListOk(revs, c) && forall r :: r in revs ==> r in revs' && revs'[r] == revs[r]
    ensures ListOk(revs', c)
  {
  }

  lemma ValidPlanGrows(revs: Revisions, revs': Revisions, components: seq<Component>)
    requires ValidPlan(revs, components) && forall r :: r in revs ==> r in revs' && revs'[r] == revs[r]
    ensures ValidPlan(revs', components)
  {
    hide ListOk, SharedPlan;
    forall i | 0 <= i < |components| ensures ListOk(revs', components[i]) { ListOkGrows(revs, revs', components[i]); }
  }

  predicate Selected(st: State) {
    NO_ID !in st.compositions && forall e :: e in st.environments ==> SelectionOk(st, e)
  }

  lemma UpdateSelects(st: State, step: Step, st': State)
    requires Next(st, step, st') && step.Update? && Selected(st)
    ensures step.request.environment in st'.environments && SelectionOk(st', step.request.environment)
    ensures st'.revisions == st.revisions
  {
    hide ReplayOf, RequestOk, AllKnown, ChangesLists, Patch, ValidPlan;
    var r := step.request;
    assert SelectionOk(st, r.environment);
    assert DistinctAndKnown(st.revisions, r.revisions) by {
      RequestIsDistinct(st.revisions, r.revisions, st.compositions[st.environments[r.environment].composition].components);
    }
    PatchKeepsPlanValid(st.revisions, r.revisions, st.compositions[st.environments[r.environment].composition].components,
                        step.composition);
  }

  predicate DistinctAndKnown(revs: Revisions, request: seq<Id>) {
    Known(revs, request) && DistinctPairs(revs, request)
  }

  lemma RequestIsDistinct(revs: Revisions, request: seq<Id>, components: seq<Component>)
    requires RequestOk(revs, request, components)
    ensures DistinctAndKnown(revs, request)
  {
  }

  lemma StepSelects(st: State, step: Step, st': State)
    requires Next(st, step, st') && Selected(st)
    ensures Selected(st')
  {
    hide UpdateTx, ValidPlan;
    if step.Update? {
      UpdateSelects(st, step, st');
      OthersStay(st, step, st');
    } else if step.Record? {
      RecordSelects(st, step, st');
    } else {
      OtherStepSelects(st, step, st');
    }
  }

  lemma OthersStay(st: State, step: Step, st': State)
    requires Next(st, step, st') && step.Update? && Selected(st)
    ensures st'.environments.Keys == st.environments.Keys && NO_ID !in st'.compositions
    ensures forall e :: e in st.environments && e != step.request.environment ==> SelectionOk(st', e)
  {
    hide ReplayOf, Patches, Patch, ValidPlan;
    forall e | e in st.environments && e != step.request.environment ensures SelectionOk(st', e) {
      assert SelectionOk(st, e);
    }
  }

  lemma RecordSelects(st: State, step: Step, st': State)
    requires Next(st, step, st') && step.Record? && Selected(st)
    ensures Selected(st')
  {
    hide ValidPlan;
    forall e | e in st'.environments ensures SelectionOk(st', e) {
      assert SelectionOk(st, e);
      if st.environments[e].composition != NO_ID {
        ValidPlanGrows(st.revisions, st'.revisions, st.compositions[st.environments[e].composition].components);
      }
    }
  }

  lemma OtherStepSelects(st: State, step: Step, st': State)
    requires Next(st, step, st') && (step.Select? || step.Retarget? || step.AppendOther?) && Selected(st)
    ensures Selected(st')
  {
    hide ValidPlan;
    forall e | e in st'.environments ensures SelectionOk(st', e) {
      assert SelectionOk(st, e);
    }
  }

  /** In every reachable state each environment selects nothing or a valid plan of its own. */
  lemma {:induction false} SelectionStaysValid(states: seq<State>, steps: seq<Step>, i: nat)
    requires IsRun(states, steps) && i < |states|
    ensures Selected(states[i])
  {
    if i > 0 {
      hide Next, Selected, Initial;
      SelectionStaysValid(states, steps, i - 1);
      StepAt(states, steps, i - 1);
      StepSelects(states[i - 1], steps[i - 1], states[i]);
    }
  }

  /**
    An accepted update selects every requested revision in each component of its repository, and at
    least one, and moves no other pair of any component.
   */
  lemma UpdateTakesEffect(states: seq<State>, steps: seq<Step>, i: nat, j: nat)
    requires IsRun(states, steps) && i < |steps| && i + 1 < |states| && steps[i].Update? && j < |steps[i].request.revisions|
    ensures var r, e, st, st' := steps[i].request, steps[i].request.environment, states[i], states[i + 1];
            && e in st.environments && st.environments[e].composition in st.compositions
            && e in st'.environments && st'.environments[e].composition in st'.compositions
            && var before, after := st.compositions[st.environments[e].composition].components,
                                    st'.compositions[st'.environments[e].composition].components;
            && |after| == |before| && Known(st.revisions, r.revisions)
            && (exists c :: 0 <= c < |after| && r.revisions[j] in after[c].revisions)
            && (forall c :: 0 <= c < |after| && before[c].repository == st.revisions[r.revisions[j]].repository ==>
                  r.revisions[j] in after[c].revisions)
            && (forall c, x :: 0 <= c < |after| && x in st.revisions && !HasPair(st.revisions, r.revisions, st.revisions[x]) ==>
                  (x in after[c].revisions <==> x in before[c].revisions))
  {
    StepAt(states, steps, i);
    var st, r, composition := states[i], steps[i].request, steps[i].composition;
    hide ReplayOf, ChangesLists, AllKnown, Patch, HasPair, IsRun;
    var before := st.compositions[st.environments[r.environment].composition].components;
    hide Known, RequestOk;
    PatchedShape(st.revisions, r.revisions, before, composition);
    PatchSelectsRequest(st.revisions, r.revisions, before, composition, j);
    forall c, x | 0 <= c < |before| && x in st.revisions && !HasPair(st.revisions, r.revisions, st.revisions[x])
      ensures x in Patch(st.revisions, r.revisions, before, composition)[c].revisions <==> x in before[c].revisions
    {
      PatchIsLocal(st.revisions, r.revisions, before, composition, c, x);
    }
  }

  lemma PatchedShape(revs: Revisions, request: seq<Id>, components: seq<Component>, composition: Id)
    requires RequestOk(revs, request, components) && AllKnown(revs, components)
    ensures Known(revs, request) && |Patch(revs, request, components, composition)| == |components|
  {
  }

  // ----- the command as it runs -----

  class UpdateStore {
    var operations: seq<Operation>
    var environments: map<Id, Environment>
    var compositions: map<Id, Composition>
    var revisions: Revisions

    function View(): State
      reads this
    {
      State(operations, environments, compositions, revisions)
    }

    constructor (st: State)
      ensures View() == st
    {
      operations, environments, compositions, revisions := st.operations, st.environments, st.compositions, st.revisions;
    }

    method ReplayFeatureUpdate(r: Request) returns (replay: Replay)
      ensures replay == ReplayOf(operations, r)
    {
      var i := 0;
      assert operations[0..] == operations;
      while i < |operations|
        invariant i <= |operations| && ReplayOf(operations, r) == ReplayOf(operations[i..], r)
      {
        var op := operations[i];
        assert operations[i..][1..] == operations[i + 1..];
        if op.update.Some? && op.key == r.key {
          if op.update != Some(r) || op.product != r.product || op.feature != r.feature || op.actor != r.actor
             || op.environment != r.environment {
            return Conflict;
          }
          return Found(op);
        }
        i := i + 1;
      }
      return NoReplay;
    }

    /** Replay before everything else, then the compare-and-set, the patch and the receipt. */
    method UpdateEnvironmentFeature(r: Request, id: Id, composition: Id, allowed: bool) returns (out: Outcome)
      modifies this
      ensures out == UpdateTx(old(View()), r, id, composition, allowed)
      ensures View() == if out.Accepted? then out.state else old(View())
    {
      var replay := ReplayFeatureUpdate(r);
      if replay.Conflict? { return Refused; }
      if replay.Found? { return Replayed(replay.operation); }
      if r.environment !in environments || environments[r.environment].product != r.product { return Refused; }
      var env := environments[r.environment];
      if TokenOf(env) != r.expected || env.composition !in compositions { return Refused; }
      var baseline := compositions[env.composition];
      if baseline.product != r.product || baseline.environment != r.environment { return Refused; }
      hide RequestOk, AllKnown, ChangesLists, Patch, ReplayOf;
      var planned := PlanFeatureUpdate(revisions, r.revisions, baseline.components, composition);
      if planned.None? || !allowed || env.generation == MAX_UINT64 { return Refused; }
      var receipt := ReceiptOf(r, id);
      compositions := compositions[composition := Composition(r.product, r.environment, planned.value)];
      environments := environments[r.environment :=
        env.(composition := composition, operation := id, generation := env.generation + 1)];
      operations := operations + [receipt];
      return Accepted(View(), receipt);
    }
  }
}
