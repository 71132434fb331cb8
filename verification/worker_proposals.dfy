/**
  When the pull-request proposal of an ordinary delivery can be repeated. Each proposal is
  authorised by one save that stores the uncertain apply and keeps the lease, but a delivery can
  come by several of them: after a failed call, and after a crash between the save and its answer.
 */
module WorkerProposals {
  import opened Ids
  import opened WorkerModel
  import opened WorkerSafety
  import opened WorkerExclusion
  import opened WorkerLedger
  import opened WorkerJobs
  import opened WorkerRuns

  /** The record lets its next worker propose: unsettled, in an apply phase, its environment open at its epoch. */
  predicate MayPropose(st: State, k: nat)
    requires k < |st.ops|
  {
    var op := st.ops[k];
    op.kind.Deploy? && !Terminal(op.status) && Proposing(op) && Allowed(st, op)
  }

  /** A worker has stored its authorisation and has not made its call. */
  predicate InFlight(st: State, k: nat) {
    exists t :: t in st.workers && st.workers[t].index == k && st.workers[t].pc == ReadyToPropose
  }

  /** The step stores an uncertain apply and keeps the lease, which is what a proposal needs. */
  predicate Authorises(st: State, step: Step, k: nat) {
    && step.Commit? && step.token in st.workers && st.workers[step.token].index == k
    && step.save.phase == ApplyUncertain && !step.save.release
  }

  function Last(states: seq<State>): State
    requires states != []
  {
    states[|states| - 1]
  }

  // ----- one step -----

  lemma AuthorisesFrom(st: State, step: Step, st': State, k: nat)
    requires Enabled(st, step, st') && Authorises(st, step, k)
    ensures k < |st.ops| && MayPropose(st, k)
  {
    hide Offers, OffersDeploy, SavedIntent, IntentFits, Early;
    CommitOwns(st, step.token, step.save);
    OffersUncertain(st.workers[step.token], step.save);
  }

  lemma OffersUncertain(w: Worker, s: Save)
    requires Progress(w) && Offers(w, s) && s.phase == ApplyUncertain && !s.release
    ensures w.copy.kind.Deploy? && w.pc == Claimed && Proposing(w.copy) && s.verdict.Continues?
  {
  }

  /** Which workers are about to propose, as far as one step changes it. */
  lemma ReadyStep(st: State, step: Step, st': State, t: Id)
    requires Enabled(st, step, st') && t in st'.workers && st'.workers[t].pc == ReadyToPropose
    ensures (t in st.workers && st.workers[t] == st'.workers[t] && !(step == CallPropose(t)))
            || (step.Commit? && step.token == t && Authorises(st, step, st'.workers[t].index))
  {
    hide BeginTx, CommitTx, AdmitTx, IsChoice, IsNew, Unresolved, WorkerOk, RecordOk, JobsMove;
    match step
    case Commit(token, s) => CommitReady(st, token, s, t);
    case Begin(token, flowOk) => BeginReady(st, token, flowOk, t);
    case Admit(token, n, a, admitted) => AdmitReady(st, token, n, a, admitted, t);
    case _ =>
  }

  lemma CommitReady(st: State, token: Id, s: Save, t: Id)
    requires Shape(st) && token in st.workers && CommitTx(st, token, s).Some?
    requires t in CommitTx(st, token, s).value.workers
    ensures var w := CommitTx(st, token, s).value.workers[t];
            if t == token then
              t in st.workers && !s.release && w.index == st.workers[t].index
              && (w.pc == ReadyToPropose ==> s.phase == ApplyUncertain)
              && (w.pc == ReadyToDispatch ==> s.phase == BuildLookup)
            else t in st.workers && w == st.workers[t]
  {
    CommitOwns(st, token, s);
    SavedEnds(st.ops[st.workers[token].index], st.workers[token], token, s, st.now);
    hide Offers, SavedOp, SaveAdmitted, Progress, IntentFits;
  }

  lemma BeginReady(st: State, token: Id, flowOk: bool, t: Id)
    requires Shape(st) && token in st.workers && BeginTx(st, token, flowOk).Some?
    requires t in BeginTx(st, token, flowOk).value.workers
    ensures var w := BeginTx(st, token, flowOk).value.workers[t];
            t in st.workers && (w == st.workers[t] || w.pc == ReadyToWrite)
  {
  }

  lemma AdmitReady(st: State, token: Id, n: nat, a: Acknowledgement, admitted: bool, t: Id)
    requires Shape(st) && token in st.workers && AdmitTx(st, token, n, a, admitted).Some?
    requires t in AdmitTx(st, token, n, a, admitted).value.workers
    ensures t in st.workers && AdmitTx(st, token, n, a, admitted).value.workers[t] == st.workers[t]
  {
  }

  /** Only a call of a worker that is about to propose counts a proposal. */
  lemma ProposedStep(st: State, step: Step, st': State, k: nat)
    requires Enabled(st, step, st') && k < |st.ops|
    ensures k < |st.ledgers| && k < |st'.ledgers|
    ensures if step.CallPropose? && step.token in st.workers && st.workers[step.token].index == k
            then st.workers[step.token].pc == ReadyToPropose
                 && st'.workers == st.workers[step.token := st.workers[step.token].(pc := Proposed)]
                 && st'.ledgers[k].proposed == st.ledgers[k].proposed + 1
            else st'.ledgers[k].proposed == st.ledgers[k].proposed
  {
    hide Offers, SaveAdmitted, SavedOp, Allowed, IsChoice, IsNew, WorkerOk, RecordOk, JobsMove;
    NextKeeps(st, step, st');
    NextShape(st, step, st');
  }

  // ----- epochs of deliveries that have progressed -----

  /** A delivery past its preflight was let through in its own epoch, so its environment is open at it or has moved on. */
  predicate OpenOrStale(st: State, k: nat)
    requires k < |st.ops|
  {
    var op := st.ops[k];
    op.kind.Deploy? && Rank(op.phase) >= 1 ==> Allowed(st, op) || Stale(st, k)
  }

  lemma CommitOpens(st: State, token: Id, s: Save)
    requires Shape(st) && token in st.workers && CommitTx(st, token, s).Some?
    requires st.workers[token].copy.kind.Deploy? && Rank(st.ops[st.workers[token].index].phase) == 0
    ensures Rank(s.phase) == 0 || Allowed(st, st.workers[token].copy)
  {
    CommitOwns(st, token, s);
    hide SavedOp, OffersApply;
  }

  lemma SubjectOpens(st: State, step: Step, st': State, k: nat)
    requires Enabled(st, step, st') && k < |st.ops| <= |st'.ops| && st.ops[k].kind.Deploy? && Subject(st, step) == k
    requires Rank(st.ops[k].phase) == 0 && Rank(st'.ops[k].phase) >= 1
    ensures Allowed(st, st.ops[k])
  {
    hide BeginTx, CommitTx, AdmitTx, IsChoice;
    match step
    case Commit(token, s) =>
      CommitOpens(st, token, s);
      CommitPhase(st, token, s);
    case Begin(token, flowOk) => DeliveriesDoNotBegin(st, token, flowOk);
    case Admit(token, n, a, admitted) => DeliveriesDoNotAdmit(st, token, n, a, admitted);
    case _ =>
  }

  lemma CommitPhase(st: State, token: Id, s: Save)
    requires Shape(st) && token in st.workers && CommitTx(st, token, s).Some?
    ensures var i := st.workers[token].index;
            CommitTx(st, token, s).value.ops[i].phase == s.phase && SameIdentity(st.ops[i], st.workers[token].copy)
  {
    hide Offers, SavedIntent, IntentFits, Early;
    assert WorkerOk(st, token);
  }

  /** Fences open only under a hold, and close only with a new epoch. */
  lemma FenceStepOpens(st: State, step: Step, st': State, k: nat)
    requires Enabled(st, step, st') && (step.Reserve? || step.Refence?) && k < |st.ops|
    requires Guarded(st.ops[k].kind) && (Allowed(st, st.ops[k]) || Stale(st, k))
    ensures k < |st'.ops| && st'.ops[k] == st.ops[k] && (Allowed(st', st'.ops[k]) || Stale(st', k))
  {
    hide WorkerOk, RecordOk;
  }

  lemma NextOpens(st: State, step: Step, st': State, k: nat)
    requires Enabled(st, step, st') && k < |st.ops| && OpenOrStale(st, k)
    ensures k < |st'.ops| && OpenOrStale(st', k)
  {
    hide Next, Shape;
    NextKeeps(st, step, st');
    assert SameIdentity(st.ops[k], st'.ops[k]);
    if st.ops[k].kind.Deploy? && Rank(st'.ops[k].phase) >= 1 {
      if step.Reserve? || step.Refence? {
        assert st'.ops[k] == st.ops[k];
        FenceStepOpens(st, step, st', k);
      } else if Rank(st.ops[k].phase) == 0 {
        SubjectOpens(st, step, st', k);
      }
    }
  }

  lemma EnqueuedOpens(st: State, op: Op)
    requires IsNew(st, op)
    ensures op.kind.Deploy? ==> Rank(op.phase) == 0
  {
  }

  lemma {:induction false} RunOpens(states: seq<State>, steps: seq<Step>, i: nat, k: nat)
    requires IsRun(states, steps) && i < |states| && k < |states[i].ops|
    ensures OpenOrStale(states[i], k)
  {
    hide *;
    RunLength(states, steps);
    if i == 0 {
      assert false by { StartsEmpty(states, steps); }
    } else {
      RunEnabled(states, steps, i - 1);
      NextKeeps(states[i - 1], steps[i - 1], states[i]);
      if k < |states[i - 1].ops| {
        RunOpens(states, steps, i - 1, k);
        NextOpens(states[i - 1], steps[i - 1], states[i], k);
      } else {
        EnqueuedOpens(states[i - 1], steps[i - 1].op);
        NewIsOpen(states[i], k);
      }
    }
  }

  lemma NewIsOpen(st: State, k: nat)
    requires k < |st.ops| && (st.ops[k].kind.Deploy? ==> Rank(st.ops[k].phase) == 0)
    ensures OpenOrStale(st, k)
  {
  }

  lemma StartsEmpty(states: seq<State>, steps: seq<Step>)
    requires IsRun(states, steps)
    ensures states[0].ops == [] && states[0].workers == map[]
  {
    hide Takes;
  }

  // ----- closed deliveries -----

  /** No apply of the delivery is to come: it is settled, waits for its pull request, or its epoch has passed. */
  predicate Closed(st: State, k: nat)
    requires k < |st.ops|
  {
    var op := st.ops[k];
    op.kind.Deploy? && (op.buildOnly || Terminal(op.status) || op.phase == WaitGitOpsPR || Stale(st, k))
  }

  /** From the apply stage on, a delivery either may propose or is closed. */
  lemma ClosedIff(st: State, k: nat)
    requires k < |st.ops| && st.ops[k].kind.Deploy? && RecordOk(st.ops[k]) && OpenOrStale(st, k)
    requires Rank(st.ops[k].phase) >= 4
    ensures MayPropose(st, k) <==> !Closed(st, k)
  {
    hide IntentFits;
  }

  lemma EarlyAt(st: State, k: nat)
    requires Shape(st) && k < |st.ops|
    ensures Early(st.ops[k])
  {
    assert RecordOk(st.ops[k]);
  }

  lemma ClosedStep(st: State, step: Step, st': State, k: nat)
    requires Enabled(st, step, st') && JobsOk(st) && k < |st.ops| && Closed(st, k)
    ensures k < |st'.ops| && Closed(st', k) && !Authorises(st, step, k)
  {
    hide Next, Shape;
    NextKeeps(st, step, st');
    EarlyAt(st, k);
    assert SameIdentity(st.ops[k], st'.ops[k]);
    if Authorises(st, step, k) {
      AuthorisesFrom(st, step, st', k);
    }
    if st.ops[k].buildOnly {
    } else if Terminal(st.ops[k].status) {
      TerminalStep(st, step, st', k);
      StoppedIsTerminal(st.ops[k]);
    } else if st.ops[k].phase == WaitGitOpsPR {
      StageStep(st, step, st', k);
    } else {
      StaleOnlyFails(st, step, st', k);
    }
  }

  // ----- runs -----

  /** A longer run with the same beginning. */
  predicate Extends(states: seq<State>, steps: seq<Step>, states': seq<State>, steps': seq<Step>) {
    && IsRun(states, steps) && IsRun(states', steps') && |states| <= |states'| && |steps| <= |steps'|
    && (forall i :: 0 <= i < |states| ==> states'[i] == states[i])
    && (forall i :: 0 <= i < |steps| ==> steps'[i] == steps[i])
  }

  lemma {:induction false} ClosedForEver(states: seq<State>, steps: seq<Step>, i: nat, j: nat, k: nat)
    requires IsRun(states, steps) && i <= j < |states| && k < |states[i].ops| && Closed(states[i], k)
    ensures k < |states[j].ops| && Closed(states[j], k)
    ensures j < |steps| ==> !Authorises(states[j], steps[j], k)
    decreases j - i
  {
    hide *;
    RunLength(states, steps);
    if i < j {
      ClosedForEver(states, steps, i, j - 1, k);
      RunEnabled(states, steps, j - 1);
      RunJobs(states, steps, j - 1);
      ClosedStep(states[j - 1], steps[j - 1], states[j], k);
    }
    if j < |steps| {
      RunEnabled(states, steps, j);
      RunJobs(states, steps, j);
      ClosedStep(states[j], steps[j], states[j + 1], k);
    }
  }

  lemma RunLedger(states: seq<State>, steps: seq<Step>, i: nat, k: nat)
    requires IsRun(states, steps) && i < |states| && k < |states[i].ops|
    ensures k < |states[i].ledgers| && k < |states[i].jobs|
  {
    hide IsRun, RecordOk, WorkerOk, HeldIsQuiet, Balanced, JobsOk;
    RunInvariant(states, steps, i);
  }

  lemma RunRecord(states: seq<State>, steps: seq<Step>, i: nat, k: nat)
    requires IsRun(states, steps) && i < |states| && k < |states[i].ops|
    ensures RecordOk(states[i].ops[k])
  {
    hide IsRun, RecordOk, WorkerOk, HeldIsQuiet, Balanced, JobsOk;
    RunInvariant(states, steps, i);
  }

  lemma QuietStep(st: State, step: Step, st': State, k: nat)
    requires Enabled(st, step, st') && k < |st.ops| && !InFlight(st, k) && !Authorises(st, step, k)
    ensures k < |st.ledgers| && k < |st'.ledgers| && !InFlight(st', k)
    ensures st'.ledgers[k].proposed == st.ledgers[k].proposed
  {
    hide Enabled, Authorises;
    ProposedStep(st, step, st', k);
    forall t | t in st'.workers && st'.workers[t].index == k && st'.workers[t].pc == ReadyToPropose ensures false {
      ReadyStep(st, step, st', t);
    }
  }

  /** A closed delivery that no worker is about to propose for is never proposed again. */
  lemma {:induction false} QuietForEver(states: seq<State>, steps: seq<Step>, i: nat, j: nat, k: nat)
    requires IsRun(states, steps) && i <= j < |states| && k < |states[i].ops|
    requires Closed(states[i], k) && !InFlight(states[i], k)
    ensures k < |states[i].ledgers| && k < |states[j].ledgers| && !InFlight(states[j], k)
    ensures states[j].ledgers[k].proposed == states[i].ledgers[k].proposed
    decreases j - i
  {
    hide *;
    RunLength(states, steps);
    RunLedger(states, steps, i, k);
    if i < j {
      QuietForEver(states, steps, i, j - 1, k);
      ClosedForEver(states, steps, i, j - 1, k);
      RunEnabled(states, steps, j - 1);
      QuietStep(states[j - 1], steps[j - 1], states[j], k);
    }
  }

  // ----- from the record to another proposal -----

  /** Some token that no worker and no record carries. */
  lemma FreshToken(st: State) returns (t: Id)
    ensures t != NO_ID && t !in st.workers && forall j :: 0 <= j < |st.ops| ==> st.ops[j].leaseOwner != t
  {
    var used := st.workers.Keys + set j | 0 <= j < |st.ops| :: st.ops[j].leaseOwner;
    var m := Above(used);
    t := m + 1;
    forall j | 0 <= j < |st.ops| ensures st.ops[j].leaseOwner != t {
      assert st.ops[j].leaseOwner in used;
    }
  }

  lemma Above(s: set<nat>) returns (m: nat)
    ensures forall x :: x in s ==> x <= m
    decreases |s|
  {
    m := 0;
    if y :| y in s {
      var n := Above(s - {y});
      m := if y > n then y else n;
      forall x | x in s ensures x <= m { assert x == y || x in s - {y}; }
    }
  }

  predicate Due(st: State) {
    forall i :: 0 <= i < |st.ops| ==> st.ops[i].nextAttempt <= st.now && st.ops[i].leaseUntil <= st.now
  }

  lemma AllDueBy(st: State) returns (seconds: nat)
    ensures Due(st.(now := st.now + seconds))
  {
    var times := (set i | 0 <= i < |st.ops| :: st.ops[i].nextAttempt) + (set i | 0 <= i < |st.ops| :: st.ops[i].leaseUntil);
    seconds := Above(times);
    forall i | 0 <= i < |st.ops| ensures st.ops[i].nextAttempt <= seconds && st.ops[i].leaseUntil <= seconds {
      assert st.ops[i].nextAttempt in times && st.ops[i].leaseUntil in times;
    }
  }

  /** The scan finds a choice among the first `n` whenever one of them is eligible. */
  lemma {:induction false} ChoiceAmong(ops: seq<Op>, now: nat, n: nat) returns (i: nat)
    requires n <= |ops| && exists j :: 0 <= j < n && Eligible(ops[j], now)
    ensures i < n && IsChoice(ops[..n], now, i)
  {
    var last := n - 1;
    assert ops[..n] == ops[..last] + [ops[last]];
    if earlier :| 0 <= earlier < last && Eligible(ops[earlier], now) {
      i := ChoiceAmong(ops, now, last);
      assert ops[..last][i] == ops[i];
      if Eligible(ops[last], now) && Before(ops[last], ops[i]) {
        i := last;
      }
    } else {
      i := last;
    }
  }

  lemma Choice(ops: seq<Op>, now: nat, k: nat) returns (i: nat)
    requires k < |ops| && Eligible(ops[k], now)
    ensures IsChoice(ops, now, i)
  {
    i := ChoiceAmong(ops, now, |ops|);
    assert ops[..|ops|] == ops;
  }

  function EligibleSet(st: State): set<nat> {
    set i | 0 <= i < |st.ops| && Eligible(st.ops[i], st.now)
  }

  lemma ExtendsSelf(states: seq<State>, steps: seq<Step>)
    requires IsRun(states, steps)
    ensures Extends(states, steps, states, steps)
  {
    hide IsRun;
  }

  /** One more step at the end of a run. */
  lemma ExtendBy(states0: seq<State>, steps0: seq<Step>, states: seq<State>, steps: seq<Step>, step: Step, st: State)
    returns (states': seq<State>, steps': seq<Step>)
    requires Extends(states0, steps0, states, steps) && Takes(Last(states), step, st)
    ensures Extends(states0, steps0, states', steps') && Last(states') == st
    ensures steps' == steps + [step] && states' == states + [st]
  {
    hide Takes, Initial;
    states', steps' := states + [st], steps + [step];
  }

  lemma RunRanged(states: seq<State>, steps: seq<Step>)
    requires IsRun(states, steps)
    ensures states != [] && Shape(Last(states)) && Ranged(Last(states))
  {
    hide IsRun, RecordOk, Progress, HeldIsQuiet, Balanced, JobsOk;
    RunLength(states, steps);
    RunInvariant(states, steps, |states| - 1);
    forall t | t in Last(states).workers ensures Last(states).workers[t].index < |Last(states).ops| {
      assert WorkerOk(Last(states), t);
    }
  }

  /** What the steps on the way to the next claim leave alone. */
  predicate Untouched(st: State, st': State, k: nat) {
    && k < |st.ops| == |st'.ops| && k < |st.ledgers| == |st'.ledgers| && st'.ops[k] == st.ops[k]
    && st'.ledgers == st.ledgers && st'.fences == st.fences
  }

  lemma Elapsed(st: State, seconds: nat)
    requires Ranged(st)
    ensures Takes(st, Elapse(seconds), st.(now := st.now + seconds))
  {
  }

  /** The state after `t` has claimed `i`. */
  function ClaimedBy(st: State, t: Id, i: nat): State
    requires i < |st.ops|
  {
    var leased := Leased(st.ops[i], t, st.now);
    Write(st, i, leased).(workers := st.workers[t := Worker(i, leased, WorkerModel.Claimed, leased)])
  }

  lemma ClaimTakes(st: State, t: Id, i: nat)
    requires Ranged(st) && t != NO_ID && t !in st.workers && (forall j :: 0 <= j < |st.ops| ==> st.ops[j].leaseOwner != t)
    requires IsChoice(st.ops, st.now, i)
    ensures Takes(st, Claim(t, i), ClaimedBy(st, t, i))
  {
    hide IsChoice;
  }

  lemma ClaimShrinks(st: State, t: Id, i: nat)
    requires i < |st.ops| && Eligible(st.ops[i], st.now)
    ensures |EligibleSet(ClaimedBy(st, t, i))| < |EligibleSet(st)|
  {
    assert EligibleSet(ClaimedBy(st, t, i)) == EligibleSet(st) - {i};
  }

  /** However many operations are due before it, an eligible one is claimed in its turn. */
  lemma {:induction false} ClaimsInTurn(states0: seq<State>, steps0: seq<Step>, states: seq<State>, steps: seq<Step>, k: nat)
    returns (states': seq<State>, steps': seq<Step>, before: State, t: Id)
    requires Extends(states0, steps0, states, steps) && states != []
    requires k < |Last(states).ops| && k < |Last(states).ledgers| && Eligible(Last(states).ops[k], Last(states).now)
    ensures Extends(states0, steps0, states', steps') && states' != [] && t != NO_ID
    ensures Untouched(Last(states), before, k) && Last(states') == ClaimedBy(before, t, k)
    decreases |EligibleSet(Last(states))|
  {
    hide *;
    var st := Last(states);
    RunOf(states0, steps0, states, steps);
    RunRanged(states, steps);
    t := FreshToken(st);
    var i := Choice(st.ops, st.now, k);
    ChoiceEligible(st.ops, st.now, i);
    ClaimTakes(st, t, i);
    states', steps' := ExtendBy(states0, steps0, states, steps, Claim(t, i), ClaimedBy(st, t, i));
    if i == k {
      before := st;
      UntouchedSelf(st, k);
    } else {
      ClaimShrinks(st, t, i);
      ClaimLeaves(st, t, i, k);
      var middle := Last(states');
      states', steps', before, t := ClaimsInTurn(states0, steps0, states', steps', k);
      UntouchedThrough(st, middle, before, k);
    }
  }

  lemma RunOf(states0: seq<State>, steps0: seq<Step>, states: seq<State>, steps: seq<Step>)
    requires Extends(states0, steps0, states, steps)
    ensures IsRun(states, steps) && |states| == |steps| + 1 && |states0| == |steps0| + 1
    ensures |states0| <= |states| && states[|states0| - 1] == Last(states0)
  {
    RunLength(states, steps);
    RunLength(states0, steps0);
    hide IsRun;
  }

  lemma ChoiceEligible(ops: seq<Op>, now: nat, i: nat)
    requires IsChoice(ops, now, i)
    ensures i < |ops| && Eligible(ops[i], now)
  {
  }

  lemma UntouchedSelf(st: State, k: nat)
    requires k < |st.ops| && k < |st.ledgers|
    ensures Untouched(st, st, k)
  {
  }

  lemma UntouchedThrough(a: State, b: State, c: State, k: nat)
    requires Untouched(a, b, k) && Untouched(b, c, k)
    ensures Untouched(a, c, k)
  {
  }

  lemma ClaimLeaves(st: State, t: Id, i: nat, k: nat)
    requires i < |st.ops| && k < |st.ops| && k < |st.ledgers| && i != k && Eligible(st.ops[k], st.now)
    ensures var st' := ClaimedBy(st, t, i); Untouched(st, st', k) && Eligible(st'.ops[k], st'.now)
  {
  }

  /** The save that authorises one more proposal of a claimed delivery. */
  function Again(op: Op): Save {
    Save(ApplyUncertain, Continues, false, op.run, op.pr, op.applied, op.sources, NoEvidence, true, true)
  }

  lemma SavesAgain(st: State, t: Id, k: nat) returns (st': State)
    requires Shape(st) && Ranged(st) && k < |st.ops| && MayPropose(st, k)
    requires t in st.workers && st.workers[t] == Worker(k, st.ops[k], WorkerModel.Claimed, st.ops[k]) && st.ops[k].leaseOwner == t
    ensures Takes(st, Commit(t, Again(st.ops[k])), st') && Authorises(st, Commit(t, Again(st.ops[k])), k)
    ensures t in st'.workers && st'.workers[t].index == k && st'.workers[t].pc == ReadyToPropose
    ensures st'.ledgers == st.ledgers && |st'.ops| == |st.ops|
  {
    hide SavedOp;
    assert RecordOk(st.ops[k]);
    assert Offers(st.workers[t], Again(st.ops[k]));
    st' := CommitTx(st, t, Again(st.ops[k])).value;
  }

  lemma CallsNow(st: State, t: Id, k: nat) returns (st': State)
    requires Ranged(st) && t in st.workers && st.workers[t].index == k && st.workers[t].pc == ReadyToPropose
    ensures Takes(st, CallPropose(t), st') && |st'.ops| == |st.ops|
    ensures k < |st.ledgers| == |st'.ledgers| && st'.ledgers[k].proposed == st.ledgers[k].proposed + 1
  {
    st' := CallTx(st, t, ReadyToPropose).value;
  }

  /** The state in which a claim finds every operation due. */
  lemma WaitsUntilDue(states: seq<State>, steps: seq<Step>, k: nat)
    returns (states': seq<State>, steps': seq<Step>)
    requires IsRun(states, steps) && states != [] && k < |Last(states).ops| && MayPropose(Last(states), k)
    ensures Extends(states, steps, states', steps') && states' != []
    ensures k < |Last(states').ops| && k < |Last(states').ledgers|
    ensures Untouched(Last(states), Last(states'), k) && Eligible(Last(states').ops[k], Last(states').now)
  {
    hide *;
    var st := Last(states);
    RunRanged(states, steps);
    ExtendsSelf(states, steps);
    var seconds := AllDueBy(st);
    Elapsed(st, seconds);
    states', steps' := ExtendBy(states, steps, states, steps, Elapse(seconds), st.(now := st.now + seconds));
    ElapsedLeaves(st, seconds, k);
  }

  lemma ElapsedLeaves(st: State, seconds: nat, k: nat)
    requires Ranged(st) && k < |st.ops| && MayPropose(st, k) && Due(st.(now := st.now + seconds))
    ensures var st' := st.(now := st.now + seconds);
            k < |st'.ops| && k < |st'.ledgers| && Untouched(st, st', k) && Eligible(st'.ops[k], st'.now)
  {
  }

  lemma ClaimedMayPropose(st: State, before: State, t: Id, k: nat)
    requires k < |st.ops| && MayPropose(st, k) && Untouched(st, before, k)
    ensures var st' := ClaimedBy(before, t, k);
            && k < |st'.ops| == |st.ops| && MayPropose(st', k) && st'.ledgers == st.ledgers && st'.ops[k].leaseOwner == t
            && t in st'.workers && st'.workers[t] == Worker(k, st'.ops[k], WorkerModel.Claimed, st'.ops[k])
  {
  }

  /** A record that may propose is claimed in its turn and authorised once more. */
  lemma ReachesAuthorisation(states: seq<State>, steps: seq<Step>, k: nat)
    returns (states': seq<State>, steps': seq<Step>, m: nat, t: Id)
    requires IsRun(states, steps) && states != [] && k < |Last(states).ops| && MayPropose(Last(states), k)
    ensures Extends(states, steps, states', steps') && |steps| <= m < |steps'| && m < |states'|
    ensures Authorises(states'[m], steps'[m], k)
    ensures t in Last(states').workers && Last(states').workers[t].index == k && Last(states').workers[t].pc == ReadyToPropose
    ensures Last(states').ledgers == Last(states).ledgers && |Last(states').ops| == |Last(states).ops|
  {
    hide *;
    var st, before := Last(states), Last(states);
    states', steps' := WaitsUntilDue(states, steps, k);
    var due := Last(states');
    states', steps', before, t := ClaimsInTurn(states, steps, states', steps', k);
    UntouchedThrough(st, due, before, k);
    ClaimedMayPropose(st, before, t, k);
    var claimed := Last(states');
    RunOf(states, steps, states', steps');
    RunRanged(states', steps');
    var saved := SavesAgain(claimed, t, k);
    m := |steps'|;
    LastIs(states', steps');
    states', steps' := ExtendBy(states, steps, states', steps', Commit(t, Again(claimed.ops[k])), saved);
    ExtendsLonger(states, steps, states', steps');
  }

  lemma LastIs(states: seq<State>, steps: seq<Step>)
    requires |states| == |steps| + 1
    ensures states[|steps|] == Last(states)
  {
  }

  lemma ExtendsLonger(states: seq<State>, steps: seq<Step>, states': seq<State>, steps': seq<Step>)
    requires Extends(states, steps, states', steps')
    ensures |steps| <= |steps'| && |states| <= |states'|
  {
  }

  /** Some continuation of the run authorises an apply of the delivery once more. */
  ghost predicate AuthorisedLater(states: seq<State>, steps: seq<Step>, k: nat) {
    exists states', steps', m: nat ::
      Extends(states, steps, states', steps') && |steps| <= m < |steps'| && m < |states'| && Authorises(states'[m], steps'[m], k)
  }

  /** Some continuation of the run proposes the delivery once more. */
  ghost predicate ProposedLater(states: seq<State>, steps: seq<Step>, k: nat)
    requires states != [] && k < |Last(states).ledgers|
  {
    exists states', steps' ::
      Extends(states, steps, states', steps') && states' != [] && k < |Last(states').ledgers|
      && Last(states').ledgers[k].proposed > Last(states).ledgers[k].proposed
  }

  lemma ApplyIsOpenOrClosed(states: seq<State>, steps: seq<Step>, k: nat)
    requires IsRun(states, steps) && states != [] && k < |Last(states).ops| && Last(states).ops[k].kind.Deploy?
    requires Rank(Last(states).ops[k].phase) >= 4
    ensures MayPropose(Last(states), k) <==> !Closed(Last(states), k)
  {
    hide *;
    LastAt(states);
    RunOpens(states, steps, |states| - 1, k);
    RunRecord(states, steps, |states| - 1, k);
    ClosedIff(Last(states), k);
  }

  lemma LastAt(states: seq<State>)
    requires states != []
    ensures states[|states| - 1] == Last(states)
  {
  }

  /**
    From the apply stage on, another apply of a delivery can be authorised exactly when its
    record is unsettled, in an apply phase, and its environment open at its epoch.
   */
  lemma AuthorisedAgainIff(states: seq<State>, steps: seq<Step>, k: nat)
    requires IsRun(states, steps) && states != [] && k < |Last(states).ops| && Last(states).ops[k].kind.Deploy?
    requires Rank(Last(states).ops[k].phase) >= 4
    ensures AuthorisedLater(states, steps, k) <==> MayPropose(Last(states), k)
  {
    hide *;
    ApplyIsOpenOrClosed(states, steps, k);
    if MayPropose(Last(states), k) {
      var states', steps', m, t := ReachesAuthorisation(states, steps, k);
      AuthorisedWitness(states, steps, states', steps', m, k);
    } else if AuthorisedLater(states, steps, k) {
      var states', steps', m := AuthorisedBy(states, steps, k);
      RunOf(states, steps, states', steps');
      ExtendsLonger(states, steps, states', steps');
      ClosedForEver(states', steps', |states| - 1, m, k);
    }
  }

  lemma AuthorisedWitness(states: seq<State>, steps: seq<Step>, states': seq<State>, steps': seq<Step>, m: nat, k: nat)
    requires Extends(states, steps, states', steps') && |steps| <= m < |steps'| && m < |states'|
    requires Authorises(states'[m], steps'[m], k)
    ensures AuthorisedLater(states, steps, k)
  {
    hide Extends, Authorises;
  }

  lemma AuthorisedBy(states: seq<State>, steps: seq<Step>, k: nat)
    returns (states': seq<State>, steps': seq<Step>, m: nat)
    requires AuthorisedLater(states, steps, k)
    ensures Extends(states, steps, states', steps') && |steps| <= m < |steps'| && m < |states'|
    ensures Authorises(states'[m], steps'[m], k)
  {
    hide Extends, Authorises;
    states', steps', m :|
      Extends(states, steps, states', steps') && |steps| <= m < |steps'| && m < |states'| && Authorises(states'[m], steps'[m], k);
  }

  /** One more call, by a worker that already holds its authorisation. */
  lemma ReachesCall(states: seq<State>, steps: seq<Step>, states': seq<State>, steps': seq<Step>, k: nat, t: Id)
    requires Extends(states, steps, states', steps') && states != [] && k < |Last(states).ledgers|
    requires states' != [] && Last(states').ledgers == Last(states).ledgers
    requires t in Last(states').workers && Last(states').workers[t].index == k && Last(states').workers[t].pc == ReadyToPropose
    ensures ProposedLater(states, steps, k)
  {
    hide *;
    RunOf(states, steps, states', steps');
    RunRanged(states', steps');
    var st := CallsNow(Last(states'), t, k);
    var longer, calls := ExtendBy(states, steps, states', steps', CallPropose(t), st);
    ProposedWitness(states, steps, longer, calls, k);
  }

  lemma ProposedWitness(states: seq<State>, steps: seq<Step>, states': seq<State>, steps': seq<Step>, k: nat)
    requires Extends(states, steps, states', steps') && states' != [] && states != [] && k < |Last(states).ledgers|
    requires k < |Last(states').ledgers| && Last(states').ledgers[k].proposed > Last(states).ledgers[k].proposed
    ensures ProposedLater(states, steps, k)
  {
    hide Extends;
  }

  lemma ProposedBy(states: seq<State>, steps: seq<Step>, k: nat) returns (states': seq<State>, steps': seq<Step>)
    requires states != [] && k < |Last(states).ledgers| && ProposedLater(states, steps, k)
    ensures Extends(states, steps, states', steps') && states' != [] && k < |Last(states').ledgers|
    ensures Last(states').ledgers[k].proposed > Last(states).ledgers[k].proposed
  {
    hide Extends;
    states', steps' :|
      Extends(states, steps, states', steps') && states' != [] && k < |Last(states').ledgers|
      && Last(states').ledgers[k].proposed > Last(states).ledgers[k].proposed;
  }

  lemma InFlightBy(st: State, k: nat) returns (t: Id)
    requires InFlight(st, k)
    ensures t in st.workers && st.workers[t].index == k && st.workers[t].pc == ReadyToPropose
  {
    t :| t in st.workers && st.workers[t].index == k && st.workers[t].pc == ReadyToPropose;
  }

  /**
    When an ordinary delivery can be proposed again: exactly when some worker is past its
    authorisation, or the stored record may propose. It can not once the record is settled, waits
    for its pull request, or belongs to an epoch that has passed.
   */
  lemma ProposedAgainIff(states: seq<State>, steps: seq<Step>, k: nat)
    requires IsRun(states, steps) && states != [] && k < |Last(states).ops| && Last(states).ops[k].kind.Deploy?
    requires Rank(Last(states).ops[k].phase) >= 4
    ensures k < |Last(states).ledgers|
    ensures ProposedLater(states, steps, k) <==> InFlight(Last(states), k) || MayPropose(Last(states), k)
  {
    hide *;
    LastAt(states);
    RunLedger(states, steps, |states| - 1, k);
    ApplyIsOpenOrClosed(states, steps, k);
    if InFlight(Last(states), k) {
      var t := InFlightBy(Last(states), k);
      ExtendsSelf(states, steps);
      ReachesCall(states, steps, states, steps, k, t);
    } else if MayPropose(Last(states), k) {
      var states', steps', m, t := ReachesAuthorisation(states, steps, k);
      ReachesCall(states, steps, states', steps', k, t);
    } else if ProposedLater(states, steps, k) {
      var states', steps' := ProposedBy(states, steps, k);
      RunOf(states, steps, states', steps');
      LastAt(states');
      QuietForEver(states', steps', |states| - 1, |states'| - 1, k);
    }
  }

  // ----- counting -----

  /** How many of the first `n` steps authorise an apply of the delivery. */
  function Authorisations(states: seq<State>, steps: seq<Step>, n: nat, k: nat): nat
    requires n <= |steps| && n <= |states|
  {
    if n == 0 then 0
    else Authorisations(states, steps, n - 1, k) + (if Authorises(states[n - 1], steps[n - 1], k) then 1 else 0)
  }

  lemma ReadyCount(st: State, step: Step, st': State, k: nat)
    requires Enabled(st, step, st') && k < |st.ops|
    ensures k < |st.ledgers| && k < |st'.ledgers|
    ensures st'.ledgers[k].proposed + |Ready(st'.workers, k, ReadyToPropose)|
         <= st.ledgers[k].proposed + |Ready(st.workers, k, ReadyToPropose)| + (if Authorises(st, step, k) then 1 else 0)
  {
    hide Enabled;
    ProposedStep(st, step, st', k);
    var before, after := Ready(st.workers, k, ReadyToPropose), Ready(st'.workers, k, ReadyToPropose);
    if step.CallPropose? && step.token in st.workers && st.workers[step.token].index == k {
      assert after == before - {step.token} && step.token in before;
    } else {
      forall t | t in after ensures t in before || (Authorises(st, step, k) && t == step.token) {
        ReadyStep(st, step, st', t);
      }
      if Authorises(st, step, k) {
        Within(after, before + {step.token});
      } else {
        Within(after, before);
      }
    }
  }

  lemma Within<T>(a: set<T>, b: set<T>)
    requires a <= b
    ensures |a| <= |b|
    decreases |a|
  {
    if x :| x in a {
      Within(a - {x}, b - {x});
    }
  }

  lemma NewIsUnproposed(st: State, op: Op, st': State)
    requires Enabled(st, Enqueue(op), st')
    ensures var k := |st.ops|;
            k < |st'.ledgers| && st'.ledgers[k].proposed == 0 && Ready(st'.workers, k, ReadyToPropose) == {}
  {
    hide RecordOk, Progress, IsNew;
    forall t | t in st'.workers ensures st'.workers[t].index < |st.ops| {
      assert WorkerOk(st, t);
    }
  }

  /** In every run a delivery is proposed at most as often as an uncertain apply of it has been stored. */
  lemma {:induction false} ProposalsAuthorised(states: seq<State>, steps: seq<Step>, n: nat, k: nat)
    requires IsRun(states, steps) && n <= |steps| && n < |states| && k < |states[n].ops|
    ensures k < |states[n].ledgers|
    ensures states[n].ledgers[k].proposed + |Ready(states[n].workers, k, ReadyToPropose)| <= Authorisations(states, steps, n, k)
  {
    hide *;
    if n == 0 {
      assert false by { StartsEmpty(states, steps); }
    } else {
      RunEnabled(states, steps, n - 1);
      NextKeeps(states[n - 1], steps[n - 1], states[n]);
      if k < |states[n - 1].ops| {
        ProposalsAuthorised(states, steps, n - 1, k);
        ReadyCount(states[n - 1], steps[n - 1], states[n], k);
        AuthorisationsStep(states, steps, n, k);
      } else {
        NewIsUnproposed(states[n - 1], steps[n - 1].op, states[n]);
      }
    }
  }

  lemma AuthorisationsStep(states: seq<State>, steps: seq<Step>, n: nat, k: nat)
    requires 0 < n <= |steps| && n <= |states|
    ensures Authorisations(states, steps, n, k)
         == Authorisations(states, steps, n - 1, k) + (if Authorises(states[n - 1], steps[n - 1], k) then 1 else 0)
  {
  }

  lemma AuthorisedIsApply(st: State, step: Step, st': State, k: nat)
    requires Enabled(st, step, st') && Authorises(st, step, k)
    ensures k < |st.ops| && k < |st'.ops| && st.ops[k].kind.Deploy? && Rank(st'.ops[k].phase) >= 4
  {
    hide Offers, CommitTx;
    AuthorisesFrom(st, step, st', k);
    CommitPhase(st, step.token, step.save);
    NextKeeps(st, step, st');
  }

  /** Whatever has been authorised once has reached its apply stage. */
  lemma {:induction false} ProposedHasReachedApply(states: seq<State>, steps: seq<Step>, n: nat, k: nat)
    requires IsRun(states, steps) && n <= |steps| && n < |states| && k < |states[n].ops|
    requires Authorisations(states, steps, n, k) >= 1
    ensures states[n].ops[k].kind.Deploy? && Rank(states[n].ops[k].phase) >= 4
  {
    hide *;
    if n == 0 {
      assert false by { StartsEmpty(states, steps); }
    } else {
      RunEnabled(states, steps, n - 1);
      AuthorisationsStep(states, steps, n, k);
      if Authorises(states[n - 1], steps[n - 1], k) {
        AuthorisedIsApply(states[n - 1], steps[n - 1], states[n], k);
        KindStays(states, steps, n - 1, n, k);
      } else {
        AuthorisedExists(states, steps, n - 1, k);
        ProposedHasReachedApply(states, steps, n - 1, k);
        StageNeverFallsBack(states, steps, n - 1, n, k);
        KindStays(states, steps, n - 1, n, k);
      }
    }
  }

  lemma {:induction false} AuthorisedExists(states: seq<State>, steps: seq<Step>, n: nat, k: nat)
    requires IsRun(states, steps) && n <= |steps| && n < |states| && Authorisations(states, steps, n, k) >= 1
    ensures k < |states[n].ops|
  {
    hide *;
    AuthorisationsZero(states, steps, n, k);
    RunEnabled(states, steps, n - 1);
    AuthorisationsStep(states, steps, n, k);
    NextKeeps(states[n - 1], steps[n - 1], states[n]);
    if Authorises(states[n - 1], steps[n - 1], k) {
      AuthorisedIsApply(states[n - 1], steps[n - 1], states[n], k);
    } else {
      AuthorisedExists(states, steps, n - 1, k);
    }
  }

  lemma AuthorisationsZero(states: seq<State>, steps: seq<Step>, n: nat, k: nat)
    requires n <= |steps| && n <= |states| && Authorisations(states, steps, n, k) >= 1
    ensures n >= 1
  {
  }

  /** The same for every delivery that has been proposed: a second proposal can follow exactly then. */
  lemma RepeatsIff(states: seq<State>, steps: seq<Step>, k: nat)
    requires IsRun(states, steps) && states != [] && k < |Last(states).ops| && k < |Last(states).ledgers|
    requires Last(states).ledgers[k].proposed >= 1
    ensures ProposedLater(states, steps, k) <==> InFlight(Last(states), k) || MayPropose(Last(states), k)
  {
    hide *;
    RunLength(states, steps);
    LastAt(states);
    ProposalsAuthorised(states, steps, |steps|, k);
    ProposedHasReachedApply(states, steps, |steps|, k);
    ProposedAgainIff(states, steps, k);
  }

  // ----- one call for each claim -----

  /** The token has used up its call. */
  predicate Spent(st: State, t: Id) {
    t in st.workers ==> st.workers[t].pc == Proposed
  }

  lemma CalledIsSpent(st: State, t: Id, st': State)
    requires Enabled(st, CallPropose(t), st')
    ensures Spent(st', t) && !Spent(st, t)
  {
  }

  lemma SpentStep(st: State, step: Step, st': State, t: Id)
    requires Enabled(st, step, st') && Spent(st, t) && !(step.Claim? && step.token == t)
    ensures Spent(st', t) && step != CallPropose(t)
  {
    hide BeginTx, CommitTx, AdmitTx, IsChoice, IsNew, Unresolved, WorkerOk, RecordOk, JobsMove;
    match step
    case Commit(token, s) => SpentCommit(st, token, s, t);
    case Begin(token, flowOk) => SpentBegin(st, token, flowOk, t);
    case Admit(token, n, a, admitted) => SpentAdmit(st, token, n, a, admitted, t);
    case _ =>
  }

  lemma SpentCommit(st: State, token: Id, s: Save, t: Id)
    requires Shape(st) && token in st.workers && CommitTx(st, token, s).Some? && Spent(st, t)
    ensures Spent(CommitTx(st, token, s).value, t)
  {
    CommitOwns(st, token, s);
    SavedEnds(st.ops[st.workers[token].index], st.workers[token], token, s, st.now);
    hide Offers, SavedOp, SaveAdmitted, Progress, IntentFits;
  }

  lemma SpentBegin(st: State, token: Id, flowOk: bool, t: Id)
    requires Shape(st) && token in st.workers && BeginTx(st, token, flowOk).Some? && Spent(st, t)
    ensures Spent(BeginTx(st, token, flowOk).value, t)
  {
  }

  lemma SpentAdmit(st: State, token: Id, n: nat, a: Acknowledgement, admitted: bool, t: Id)
    requires Shape(st) && token in st.workers && AdmitTx(st, token, n, a, admitted).Some? && Spent(st, t)
    ensures Spent(AdmitTx(st, token, n, a, admitted).value, t)
  {
  }

  predicate Claims(step: Step, t: Id) {
    step.Claim? && step.token == t
  }

  lemma {:induction false} SpentUntilClaim(states: seq<State>, steps: seq<Step>, i: nat, j: nat, t: Id)
    requires IsRun(states, steps) && i < j <= |steps| && j < |states| && steps[i] == CallPropose(t)
    requires forall m :: i < m < j ==> !Claims(steps[m], t)
    ensures Spent(states[j], t)
    decreases j - i
  {
    hide *;
    RunEnabled(states, steps, j - 1);
    if i == j - 1 {
      CalledIsSpent(states[i], t, states[j]);
    } else {
      SpentUntilClaim(states, steps, i, j - 1, t);
      SpentAfter(states[j - 1], steps[j - 1], states[j], t);
    }
  }

  lemma SpentAfter(st: State, step: Step, st': State, t: Id)
    requires Enabled(st, step, st') && Spent(st, t) && !Claims(step, t)
    ensures Spent(st', t) && step != CallPropose(t)
  {
    hide Enabled, Spent;
    SpentStep(st, step, st', t);
  }

  /** Between two proposals of one token lies another claim of it: each claim proposes at most once. */
  lemma OneProposalPerClaim(states: seq<State>, steps: seq<Step>, i: nat, j: nat, t: Id)
    requires IsRun(states, steps) && i < j < |steps| && steps[i] == CallPropose(t) && steps[j] == CallPropose(t)
    ensures exists m :: i < m < j && Claims(steps[m], t)
  {
    hide *;
    RunLength(states, steps);
    if forall m :: i < m < j ==> !Claims(steps[m], t) {
      SpentUntilClaim(states, steps, i, j, t);
      RunEnabled(states, steps, j);
      CalledIsSpent(states[j], t, states[j + 1]);
    }
  }
}
