/** What the leased worker does not promise, each shown by a run, and what holds instead. */
module WorkerLimits {
  import opened Ids
  import opened WorkerModel
  import opened WorkerSafety
  import opened WorkerJobs
  import opened WorkerRuns
  import opened WorkerProposals

  /** The jobs of a single delivery that has none. */
  const UNUSED := [Jobs(NoJob, NoJob)]

  const START := State([], [], [], map[1 := Fence(0, false)], map[], 0)

  function Fresh(phase: Phase): Op {
    Op(7, Deploy, 1, 0, false, Pending, phase, NoIntent, NoRun, NoPR, false, [], NO_ID, 0, 0)
  }

  function Asking(phase: Phase, verdict: Verdict, release: bool): Save {
    Save(phase, verdict, release, NoRun, NoPR, false, [], NoEvidence, true, true)
  }

  /** A delivery that awaits its apply phase at time `at`, after `n` proposals. */
  function Waiting(intent: Intent, n: nat, at: nat): State {
    State([Fresh(Apply).(status := Running, intent := intent, nextAttempt := at + 2)], [Ledger(0, n, 0, 0, 0)], UNUSED,
          map[1 := Fence(0, false)], map[], at)
  }

  lemma Single<T>(a: T, b: T)
    ensures [a][0 := b] == [b]
  {
  }

  lemma SingleKey(t: Id, a: Worker, b: Worker)
    ensures map[t := a][t := b] == map[t := b] && map[t := a] - {t} == map[]
  {
  }

  lemma ReachesApply() returns (states: seq<State>, steps: seq<Step>)
    ensures IsRun(states, steps) && states[|steps|] == Waiting(NoIntent, 0, 0)
  {
    var s1 := State([Fresh(Preflight)], [Ledger(0, 0, 0, 0, 0)], UNUSED, map[1 := Fence(0, false)], map[], 0);
    var op := Leased(Fresh(Preflight), 1, 0);
    var s2 := s1.(ops := [op], workers := map[1 := Worker(0, op, Claimed, op)]);
    assert START.ops + s1.ops == s1.ops && START.ledgers + s1.ledgers == s1.ledgers && START.jobs + s1.jobs == s1.jobs;
    assert Takes(START, Enqueue(Fresh(Preflight)), s1);
    Single(Fresh(Preflight), op);
    assert Takes(s1, Claim(1, 0), s2) by { assert map[][1 := Worker(0, op, Claimed, op)] == map[1 := Worker(0, op, Claimed, op)]; }
    FirstCommit(s2, op);
    hide Takes;
    states, steps := Extend([START], [], Enqueue(Fresh(Preflight)), s1);
    states, steps := Extend(states, steps, Claim(1, 0), s2);
    states, steps := Extend(states, steps, Commit(1, Asking(Apply, ArtifactReady, true)), Waiting(NoIntent, 0, 0));
  }

  lemma FirstCommit(st: State, op: Op)
    requires op == Leased(Fresh(Preflight), 1, 0)
    requires st == State([op], [Ledger(0, 0, 0, 0, 0)], UNUSED, map[1 := Fence(0, false)], map[1 := Worker(0, op, Claimed, op)], 0)
    ensures Takes(st, Commit(1, Asking(Apply, ArtifactReady, true)), Waiting(NoIntent, 0, 0))
  {
    Single(op, Waiting(NoIntent, 0, 0).ops[0]);
    SingleKey(1, Worker(0, op, Claimed, op), Worker(0, op, Claimed, op));
  }

  function Leading(intent: Intent, at: nat, t: Id): Op {
    Leased(Fresh(Apply).(status := Running, intent := intent, nextAttempt := at + 2), t, at + 2)
  }

  /** The same delivery claimed by `t`, and with its uncertain apply stored before the call. */
  function Claiming(intent: Intent, n: nat, at: nat, t: Id): State {
    State([Leading(intent, at, t)], [Ledger(0, n, 0, 0, 0)], UNUSED, map[1 := Fence(0, false)],
          map[t := Worker(0, Leading(intent, at, t), Claimed, Leading(intent, at, t))], at + 2)
  }

  function Uncertain(intent: Intent, at: nat, t: Id): Op {
    Leading(intent, at, t).(phase := ApplyUncertain, intent := GitOpsIntent, nextAttempt := at + 4)
  }

  function Calling(intent: Intent, n: nat, at: nat, t: Id, pc: Pc): State {
    State([Uncertain(intent, at, t)], [Ledger(0, n, 0, 0, 0)], UNUSED, map[1 := Fence(0, false)],
          map[t := Worker(0, Leading(intent, at, t), pc, Uncertain(intent, at, t))], at + 2)
  }

  lemma ClaimsAgain(intent: Intent, n: nat, at: nat, t: Id)
    requires t != NO_ID
    ensures Takes(Waiting(intent, n, at), Elapse(2), Waiting(intent, n, at).(now := at + 2))
    ensures Takes(Waiting(intent, n, at).(now := at + 2), Claim(t, 0), Claiming(intent, n, at, t))
  {
    var op := Leading(intent, at, t);
    Single(Waiting(intent, n, at).ops[0], op);
    assert map[][t := Worker(0, op, Claimed, op)] == map[t := Worker(0, op, Claimed, op)];
  }

  lemma StoresUncertain(intent: Intent, n: nat, at: nat, t: Id)
    requires t != NO_ID && intent in {NoIntent, GitOpsIntent}
    ensures Takes(Claiming(intent, n, at, t), Commit(t, Asking(ApplyUncertain, Continues, false)),
                  Calling(intent, n, at, t, ReadyToPropose))
  {
    var op, saved := Leading(intent, at, t), Uncertain(intent, at, t);
    Single(op, saved);
    SingleKey(t, Worker(0, op, Claimed, op), Worker(0, op, ReadyToPropose, saved));
    assert SavedOp(op, op, t, Asking(ApplyUncertain, Continues, false), at + 2) == saved;
  }

  lemma Proposes(intent: Intent, n: nat, at: nat, t: Id)
    requires t != NO_ID && intent in {NoIntent, GitOpsIntent}
    ensures Takes(Calling(intent, n, at, t, ReadyToPropose), CallPropose(t), Calling(intent, n + 1, at, t, Proposed))
  {
    var op, saved := Leading(intent, at, t), Uncertain(intent, at, t);
    Single(Ledger(0, n, 0, 0, 0), Ledger(0, n + 1, 0, 0, 0));
    SingleKey(t, Worker(0, op, ReadyToPropose, saved), Worker(0, op, Proposed, saved));
  }

  lemma Retries(intent: Intent, n: nat, at: nat, t: Id)
    requires t != NO_ID && intent in {NoIntent, GitOpsIntent}
    ensures Takes(Calling(intent, n, at, t, Proposed), Commit(t, Asking(Apply, Continues, true)),
                  Waiting(GitOpsIntent, n, at + 2))
  {
    var op, saved := Leading(intent, at, t), Uncertain(intent, at, t);
    var w := Worker(0, op, Proposed, saved);
    Single(saved, Waiting(GitOpsIntent, n, at + 2).ops[0]);
    SingleKey(t, w, w);
    assert SavedOp(saved, op, t, Asking(Apply, Continues, true), at + 2) == Waiting(GitOpsIntent, n, at + 2).ops[0];
  }

  /** From the apply phase to a proposal that has been made and not yet answered. */
  lemma TripCalls(states: seq<State>, steps: seq<Step>, intent: Intent, n: nat, at: nat, t: Id)
    returns (states': seq<State>, steps': seq<Step>)
    requires IsRun(states, steps) && states[|steps|] == Waiting(intent, n, at)
    requires t != NO_ID && intent in {NoIntent, GitOpsIntent}
    ensures IsRun(states', steps') && states'[|steps'|] == Calling(intent, n + 1, at, t, Proposed)
  {
    ClaimsAgain(intent, n, at, t);
    StoresUncertain(intent, n, at, t);
    Proposes(intent, n, at, t);
    hide *;
    states', steps' := Extend(states, steps, Elapse(2), Waiting(intent, n, at).(now := at + 2));
    states', steps' := Extend(states', steps', Claim(t, 0), Claiming(intent, n, at, t));
    states', steps' := Extend(states', steps', Commit(t, Asking(ApplyUncertain, Continues, false)),
                              Calling(intent, n, at, t, ReadyToPropose));
    states', steps' := Extend(states', steps', CallPropose(t), Calling(intent, n + 1, at, t, Proposed));
  }

  /** One trip through the apply phase whose proposal fails: the retry stores the caller's old phase. */
  lemma TripProposes(states: seq<State>, steps: seq<Step>, intent: Intent, n: nat, at: nat, t: Id)
    returns (states': seq<State>, steps': seq<Step>)
    requires IsRun(states, steps) && states[|steps|] == Waiting(intent, n, at)
    requires t != NO_ID && intent in {NoIntent, GitOpsIntent}
    ensures IsRun(states', steps') && states'[|steps'|] == Waiting(GitOpsIntent, n + 1, at + 2)
  {
    Retries(intent, n + 1, at, t);
    hide *;
    states', steps' := TripCalls(states, steps, intent, n, at, t);
    states', steps' := Extend(states', steps', Commit(t, Asking(Apply, Continues, true)), Waiting(GitOpsIntent, n + 1, at + 2));
  }

  lemma Extend(states: seq<State>, steps: seq<Step>, step: Step, st: State)
    returns (states': seq<State>, steps': seq<Step>)
    requires IsRun(states, steps) && Takes(states[|steps|], step, st)
    ensures IsRun(states', steps') && states'[|steps'|] == st && states' == states + [st]
  {
    hide Takes;
    states', steps' := states + [st], steps + [step];
  }

  /**
    An ordinary pull-request proposal is not limited to one call: after a failed proposal the
    retry falls back from the uncertain to the plain apply phase and proposes again.
   */
  lemma ProposalCanRepeat() returns (states: seq<State>, steps: seq<Step>)
    ensures IsRun(states, steps)
    ensures |states[|steps|].ledgers| == 1 && states[|steps|].ledgers[0].proposed == 2
  {
    states, steps := ReachesApply();
    hide IsRun;
    states, steps := TripProposes(states, steps, NoIntent, 0, 0, 2);
    states, steps := TripProposes(states, steps, GitOpsIntent, 1, 2, 3);
  }

  /** A delivery whose one proposal has no answer, because its worker crashed. */
  function Crashed(): State {
    State([Uncertain(NoIntent, 0, 2)], [Ledger(0, 1, 0, 0, 0)], UNUSED, map[1 := Fence(0, false)], map[], 2)
  }

  lemma CallerCrashes()
    ensures Takes(Calling(NoIntent, 1, 0, 2, Proposed), Crash(2), Crashed())
  {
    var w := Worker(0, Leading(NoIntent, 0, 2), Proposed, Uncertain(NoIntent, 0, 2));
    SingleKey(2, w, w);
  }

  /** The same repetition straight from the stored uncertain apply: the caller crashes after its call. */
  lemma CrashCanRepeat() returns (states: seq<State>, steps: seq<Step>)
    ensures IsRun(states, steps) && states != [] && Last(states) == Crashed() && ProposedLater(states, steps, 0)
  {
    states, steps := ReachesApply();
    CallerCrashes();
    hide IsRun, Takes, ProposedLater, InFlight;
    states, steps := TripCalls(states, steps, NoIntent, 0, 0, 2);
    states, steps := Extend(states, steps, Crash(2), Crashed());
    RunLength(states, steps);
    RepeatsIff(states, steps, 0);
  }

  /** A native delivery on its own: its record, its jobs, and the worker that holds it. */
  function Building(op: Op, jobs: Jobs, workers: map<Id, Worker>, at: nat): State {
    State([op], [Ledger(0, 0, 0, 0, 0)], [jobs], map[1 := Fence(0, false)], workers, at)
  }

  function Native(status: Status, at: nat): Op {
    Fresh(NativeBuild).(status := status, nextAttempt := at)
  }

  lemma NativeStarts() returns (states: seq<State>, steps: seq<Step>)
    ensures IsRun(states, steps) && states[|steps|] == Building(Native(Running, 2), Jobs(NoJob, NoJob), map[], 0)
  {
    var op := Leased(Fresh(Preflight), 1, 0);
    var w := Worker(0, op, Claimed, op);
    var s1, s2 := Building(Fresh(Preflight), Jobs(NoJob, NoJob), map[], 0), Building(op, Jobs(NoJob, NoJob), map[1 := w], 0);
    var s3 := Building(Native(Running, 2), Jobs(NoJob, NoJob), map[], 0);
    assert START.ops + s1.ops == s1.ops && START.ledgers + s1.ledgers == s1.ledgers && START.jobs + s1.jobs == s1.jobs;
    assert Takes(START, Enqueue(Fresh(Preflight)), s1);
    Single(Fresh(Preflight), op);
    assert Takes(s1, Claim(1, 0), s2) by { assert map[][1 := w] == map[1 := w]; }
    NativeCommit(op, w);
    hide Takes;
    states, steps := Extend([START], [], Enqueue(Fresh(Preflight)), s1);
    states, steps := Extend(states, steps, Claim(1, 0), s2);
    states, steps := Extend(states, steps, Commit(1, Asking(NativeBuild, Continues, true)), s3);
  }

  lemma NativeCommit(op: Op, w: Worker)
    requires op == Leased(Fresh(Preflight), 1, 0) && w == Worker(0, op, Claimed, op)
    ensures Takes(Building(op, Jobs(NoJob, NoJob), map[1 := w], 0), Commit(1, Asking(NativeBuild, Continues, true)),
                  Building(Native(Running, 2), Jobs(NoJob, NoJob), map[], 0))
  {
    Single(op, Native(Running, 2));
    SingleKey(1, w, w);
  }

  /** Its build is opened and runs. */
  lemma NativeRuns(states: seq<State>, steps: seq<Step>) returns (states': seq<State>, steps': seq<Step>)
    requires IsRun(states, steps) && states[|steps|] == Building(Native(Running, 2), Jobs(NoJob, NoJob), map[], 0)
    ensures IsRun(states', steps') && states'[|steps'|] == Building(Native(Running, 2), Jobs(Working, NoJob), map[], 2)
  {
    var op := Native(Running, 2);
    var s0, s1 := Building(op, Jobs(NoJob, NoJob), map[], 0), Building(op, Jobs(Queued, NoJob), map[], 0);
    var s2, s3 := Building(op, Jobs(Working, NoJob), map[], 0), Building(op, Jobs(Working, NoJob), map[], 2);
    Single(Jobs(NoJob, NoJob), Jobs(Queued, NoJob));
    Single(Jobs(Queued, NoJob), Jobs(Working, NoJob));
    assert Takes(s0, OpenJob(0), s1);
    assert Takes(s1, MoveJob(0, Jobs(Working, NoJob)), s2);
    assert Takes(s2, Elapse(2), s3);
    hide *;
    states', steps' := Extend(states, steps, OpenJob(0), s1);
    states', steps' := Extend(states', steps', MoveJob(0, Jobs(Working, NoJob)), s2);
    states', steps' := Extend(states', steps', Elapse(2), s3);
  }

  lemma NativeBlocked(op: Op, leased: Op, w: Worker)
    requires op == Native(Running, 2) && leased == Leased(op, 2, 2) && w == Worker(0, leased, Claimed, leased)
    ensures Takes(Building(op, Jobs(Working, NoJob), map[], 2), Claim(2, 0), Building(leased, Jobs(Working, NoJob), map[2 := w], 2))
    ensures Takes(Building(leased, Jobs(Working, NoJob), map[2 := w], 2), Commit(2, Asking(NativeBuild, Blocks, true)),
                  Building(Native(Failed, 4), Jobs(Working, NoJob), map[], 2))
  {
    Single(op, leased);
    Single(leased, Native(Failed, 4));
    SingleKey(2, w, w);
    assert map[][2 := w] == map[2 := w];
  }

  /** The next turn finds its authority gone and fails the delivery; the build still runs. */
  lemma NativeFails(states: seq<State>, steps: seq<Step>) returns (states': seq<State>, steps': seq<Step>)
    requires IsRun(states, steps) && states[|steps|] == Building(Native(Running, 2), Jobs(Working, NoJob), map[], 2)
    ensures IsRun(states', steps') && states'[|steps'|] == Building(Native(Failed, 4), Jobs(Working, NoJob), map[], 2)
  {
    var leased := Leased(Native(Running, 2), 2, 2);
    var w := Worker(0, leased, Claimed, leased);
    NativeBlocked(Native(Running, 2), leased, w);
    hide *;
    states', steps' := Extend(states, steps, Claim(2, 0), Building(leased, Jobs(Working, NoJob), map[2 := w], 2));
    states', steps' := Extend(states', steps', Commit(2, Asking(NativeBuild, Blocks, true)),
                              Building(Native(Failed, 4), Jobs(Working, NoJob), map[], 2));
  }

  /**
    A failed delivery is not frozen: cancelling its unfinished build relabels it cancelled.
    `WorkerRuns.RelabelledInRunIff` says that no other settled record changes.
   */
  lemma FailureCanBeRelabelled() returns (states: seq<State>, steps: seq<Step>, i: nat)
    ensures IsRun(states, steps) && i + 1 < |states| && |states[i].ops| == |states[i + 1].ops| == 1
    ensures states[i].ops[0].status == Failed && states[i + 1].ops[0].status == Cancelled
  {
    states, steps := NativeStarts();
    states, steps := NativeRuns(states, steps);
    states, steps := NativeFails(states, steps);
    RunLength(states, steps);
    i := |steps|;
    var failed := states[i];
    Single(Native(Failed, 4), Stopped(Native(Failed, 4)));
    Single(Jobs(Working, NoJob), Jobs(Unclear, NoJob));
    assert Takes(failed, StopJob(0), Building(Stopped(Native(Failed, 4)), Jobs(Unclear, NoJob), map[], 2));
    hide Takes, IsRun;
    states, steps := Extend(states, steps, StopJob(0), Building(Stopped(Native(Failed, 4)), Jobs(Unclear, NoJob), map[], 2));
    RunLength(states, steps);
  }

  /** What does hold: a proposal by the lease's owner is always covered by a stored uncertain apply. */
  lemma ProposalIsCovered(states: seq<State>, steps: seq<Step>, i: nat, t: Id)
    requires IsRun(states, steps) && i < |steps| && steps[i] == CallPropose(t)
    ensures t in states[i].workers && states[i].workers[t].index < |states[i].ops|
    ensures var op := states[i].ops[states[i].workers[t].index];
            op.leaseOwner == t ==> op.phase == ApplyUncertain && op.kind.Deploy?
  {
    RunEnabled(states, steps, i);
    assert WorkerOk(states[i], t);
  }
}
