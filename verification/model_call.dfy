/**
  Tasks that ask a paid model provider: the dispatch intent is persisted before the call, so a
  task is never sent twice, and a budget bounds what a product may send in a day.
 */
module ModelCall {
  import opened Ids

  const DAY: nat := 86400
  const LEASE_MARGIN: nat := 10

  datatype Status = Pending | Running | Succeeded | Failed | Cancelled
  datatype Phase = QueuedTask | DispatchIntent | Uncertain | Stale | Exhausted | CallFailed | ReviewRequired | CancelledTask

  /** `intentAt` is when the dispatch intent was persisted, `result` the lease token whose answer was accepted. */
  datatype Task = Task(product: Id, status: Status, phase: Phase, owner: Id, leaseUntil: nat, attempts: nat,
                       startedAt: Option<nat>, intentAt: Option<nat>, result: Option<Id>)

  /** Where the process that holds a lease token stands. */
  datatype Stage = Claimed | Admitted | Answered
  datatype Worker = Worker(task: nat, stage: Stage)

  datatype Sent = Sent(task: nat, token: Id)
  datatype State = State(tasks: seq<Task>, workers: map<Id, Worker>, calls: seq<Sent>, used: set<Id>)

  predicate Terminal(s: Status) {
    s.Succeeded? || s.Failed? || s.Cancelled?
  }

  function NewTask(product: Id): Task {
    Task(product, Pending, QueuedTask, NO_ID, 0, 0, None, None, None)
  }

  function Finish(t: Task, status: Status, phase: Phase): Task {
    t.(status := status, phase := phase, owner := NO_ID, leaseUntil := 0)
  }

  // ----- the daily budget -----

  predicate Recent(at: Option<nat>, now: nat) {
    at.Some? && at.value + DAY > now
  }

  /** The attempts of the product's tasks first claimed within the last day. */
  function Requests(tasks: seq<Task>, product: Id, now: nat): nat {
    if |tasks| == 0 then 0
    else
      var t := tasks[|tasks| - 1];
      Requests(tasks[..|tasks| - 1], product, now) + (if t.product == product && Recent(t.startedAt, now) then t.attempts else 0)
  }

  /** How many of the product's tasks were dispatched within the last day. */
  function Dispatched(tasks: seq<Task>, product: Id, now: nat): nat {
    if |tasks| == 0 then 0
    else
      var t := tasks[|tasks| - 1];
      Dispatched(tasks[..|tasks| - 1], product, now) + (if t.product == product && Recent(t.intentAt, now) then 1 else 0)
  }

  /** Those of them that had been claimed for the first time more than a day ago. */
  function Late(tasks: seq<Task>, product: Id, now: nat): nat {
    if |tasks| == 0 then 0
    else
      var t := tasks[|tasks| - 1];
      Late(tasks[..|tasks| - 1], product, now)
      + (if t.product == product && Recent(t.intentAt, now) && !Recent(t.startedAt, now) then 1 else 0)
  }

  /** The attempts that are counted although they sent nothing within the last day. */
  function Repeats(tasks: seq<Task>, product: Id, now: nat): int {
    if |tasks| == 0 then 0
    else
      var t := tasks[|tasks| - 1];
      Repeats(tasks[..|tasks| - 1], product, now)
      + (if t.product == product && Recent(t.startedAt, now) then t.attempts - (if Recent(t.intentAt, now) then 1 else 0) else 0)
  }

  /** The guard's view of a limit. */
  predicate LetsThrough(tasks: seq<Task>, product: Id, now: nat, max: nat) {
    Requests(tasks, product, now) <= max
  }

  // ----- steps -----

  datatype Step =
    | Submit(product: Id)
    | Claim(x: nat, token: Id, now: nat, timeout: nat)
    | Begin(token: Id, now: nat, inputCurrent: bool, max: nat)
    | CallModel(token: Id)
    | Settle(token: Id, now: nat, inputCurrent: bool, usable: bool)
    | Crash(token: Id)
    | Cancel(x: nat)

  predicate Allowed(st: State, s: Step) {
    match s
    case Claim(_, token, _, _) => token != NO_ID && token !in st.used
    case _ => true
  }

  function Put(st: State, x: nat, t: Task): State
    requires x < |st.tasks|
  {
    st.(tasks := st.tasks[x := t])
  }

  function Without(st: State, token: Id): State {
    st.(workers := st.workers - {token})
  }

  /** The first transaction of a claimed task: an earlier intent is never replayed, otherwise the intent is persisted. */
  function BeginTask(t: Task, tasks: seq<Task>, now: nat, inputCurrent: bool, max: nat): Task {
    if t.phase.DispatchIntent? then Finish(t, Failed, Uncertain)
    else if !inputCurrent then Finish(t, Failed, Stale)
    else if !LetsThrough(tasks, t.product, now, max) then Finish(t, Failed, Exhausted)
    else t.(phase := DispatchIntent, intentAt := Some(now))
  }

  /** The second transaction: the answer counts only under a live lease and unchanged input. */
  function SettleTask(t: Task, token: Id, inputCurrent: bool, usable: bool): Task {
    if !inputCurrent then Finish(t, Failed, Stale)
    else if !usable then Finish(t, Failed, CallFailed)
    else Finish(t, Succeeded, ReviewRequired).(result := Some(token))
  }

  predicate Holds(st: State, token: Id, stage: Stage) {
    && token in st.workers && st.workers[token].stage == stage && st.workers[token].task < |st.tasks|
    && var t := st.tasks[st.workers[token].task];
    && t.owner == token && t.status.Running?
  }

  function Apply(st: State, s: Step): State {
    match s
    case Submit(product) => st.(tasks := st.tasks + [NewTask(product)])
    case Claim(x, token, now, timeout) =>
      if x >= |st.tasks| || Terminal(st.tasks[x].status) || st.tasks[x].leaseUntil > now then st
      else
        var t := st.tasks[x];
        Put(st, x, t.(owner := token, leaseUntil := now + timeout + LEASE_MARGIN, attempts := t.attempts + 1,
                      startedAt := if t.startedAt.None? then Some(now) else t.startedAt, status := Running))
        .(workers := st.workers[token := Worker(x, Claimed)], used := st.used + {token})
    case Begin(token, now, inputCurrent, max) =>
      if !Holds(st, token, Claimed) then Without(st, token)
      else
        var x := st.workers[token].task;
        var t := BeginTask(st.tasks[x], st.tasks, now, inputCurrent, max);
        if t.phase.DispatchIntent? then Put(st, x, t).(workers := st.workers[token := Worker(x, Admitted)])
        else Without(Put(st, x, t), token)
    case CallModel(token) =>
      if token !in st.workers || !st.workers[token].stage.Admitted? then st
      else st.(workers := st.workers[token := st.workers[token].(stage := Answered)],
               calls := st.calls + [Sent(st.workers[token].task, token)])
    case Settle(token, now, inputCurrent, usable) =>
      if !Holds(st, token, Answered) || st.tasks[st.workers[token].task].leaseUntil <= now then Without(st, token)
      else
        var x := st.workers[token].task;
        Without(Put(st, x, SettleTask(st.tasks[x], token, inputCurrent, usable)), token)
    case Crash(token) => Without(st, token)
    case Cancel(x) =>
      if x >= |st.tasks| || Terminal(st.tasks[x].status) then st
      else Put(st, x, Finish(st.tasks[x], Cancelled, CancelledTask))
  }

  // ----- what every step keeps -----

  /** Calls of a task are made by distinct holders: a call, or a worker about to make one, excludes any other. */
  predicate Exclusive(st: State) {
    && (forall i, j :: 0 <= i < j < |st.calls| ==> st.calls[i].task != st.calls[j].task)
    && (forall a, i :: a in st.workers && st.workers[a].stage.Admitted? && 0 <= i < |st.calls| ==> st.workers[a].task != st.calls[i].task)
    && (forall a, b :: a in st.workers && b in st.workers && a != b && st.workers[a].stage.Admitted? && st.workers[b].stage.Admitted? ==>
          st.workers[a].task != st.workers[b].task)
  }

  predicate TaskOk(st: State, t: Task) {
    && (t.owner != NO_ID ==> t.owner in st.used)
    && (t.startedAt.Some? <==> t.attempts > 0)
    && (t.intentAt.Some? ==> t.attempts > 0)
    && (t.status.Running? ==> t.attempts > 0)
    && (t.status.Pending? ==> t.phase.QueuedTask? && t.intentAt.None?)
    && (t.status.Running? ==> (t.phase.QueuedTask? || t.phase.DispatchIntent?) && (t.intentAt.Some? <==> t.phase.DispatchIntent?))
    && (t.status.Succeeded? <==> t.result.Some?)
  }

  /** Whoever is admitted or has called has its task's intent persisted. */
  predicate Intended(st: State, x: nat) {
    x < |st.tasks| && st.tasks[x].intentAt.Some?
  }

  predicate Inv(st: State) {
    && Exclusive(st) && NO_ID !in st.used
    && (forall x :: 0 <= x < |st.tasks| ==> TaskOk(st, st.tasks[x]))
    && (forall a :: a in st.workers ==> a in st.used && st.workers[a].task < |st.tasks|)
    && (forall a :: a in st.workers && !st.workers[a].stage.Claimed? ==> Intended(st, st.workers[a].task))
    && (forall a :: a in st.workers && st.workers[a].stage.Answered? ==> Sent(st.workers[a].task, a) in st.calls)
    && (forall i :: 0 <= i < |st.calls| ==> Intended(st, st.calls[i].task) && st.calls[i].token in st.used)
    && (forall x :: 0 <= x < |st.tasks| && st.tasks[x].result.Some? ==> Sent(x, st.tasks[x].result.value) in st.calls)
  }

  lemma ClaimKeeps(st: State, x: nat, token: Id, now: nat, timeout: nat)
    requires Inv(st) && Allowed(st, Claim(x, token, now, timeout))
    ensures Inv(Apply(st, Claim(x, token, now, timeout)))
  {
    if x < |st.tasks| && !Terminal(st.tasks[x].status) && st.tasks[x].leaseUntil <= now {
      assert TaskOk(st, st.tasks[x]);
      var later := Apply(st, Claim(x, token, now, timeout));
      assert TaskOk(later, later.tasks[x]);
      forall y | 0 <= y < |later.tasks| && y != x ensures TaskOk(later, later.tasks[y]) { SameOk(st, later, st.tasks[y]); }
      hide TaskOk;
    }
  }

  lemma PutKeeps(st: State, x: nat, t: Task)
    requires Inv(st) && x < |st.tasks| && TaskOk(st, t) && (t.result.Some? ==> Sent(x, t.result.value) in st.calls)
    requires st.tasks[x].intentAt.Some? ==> t.intentAt.Some?
    ensures Inv(Put(st, x, t))
  {
    hide TaskOk;
    var later := Put(st, x, t);
    forall y | 0 <= y < |later.tasks| ensures TaskOk(later, later.tasks[y]) {
      assert TaskOk(st, if y == x then t else st.tasks[y]);
      SameOk(st, later, later.tasks[y]);
    }
  }

  lemma SameOk(st: State, later: State, t: Task)
    requires TaskOk(st, t) && st.used <= later.used
    ensures TaskOk(later, t)
  {
  }

  lemma WithoutKeeps(st: State, token: Id)
    requires Inv(st)
    ensures Inv(Without(st, token))
  {
  }

  /** A claimed worker of a task without an intent is admitted: nobody else is, and nobody has called. */
  lemma AdmitKeeps(st: State, token: Id, x: nat)
    requires Inv(st) && x < |st.tasks| && token in st.workers && st.workers[token] == Worker(x, Claimed)
    requires Intended(st, x)
    requires forall a :: a in st.workers && !st.workers[a].stage.Claimed? ==> st.workers[a].task != x
    requires forall i :: 0 <= i < |st.calls| ==> st.calls[i].task != x
    ensures Inv(st.(workers := st.workers[token := Worker(x, Admitted)]))
  {
    hide TaskOk;
    var later := st.(workers := st.workers[token := Worker(x, Admitted)]);
    forall y | 0 <= y < |later.tasks| ensures TaskOk(later, later.tasks[y]) {
      SameOk(st, later, later.tasks[y]);
    }
  }

  lemma BeginKeeps(st: State, token: Id, now: nat, inputCurrent: bool, max: nat)
    requires Inv(st)
    ensures Inv(Apply(st, Begin(token, now, inputCurrent, max)))
  {
    WithoutKeeps(st, token);
    if Holds(st, token, Claimed) {
      var x := st.workers[token].task;
      assert TaskOk(st, st.tasks[x]);
      var t := BeginTask(st.tasks[x], st.tasks, now, inputCurrent, max);
      hide Requests, Exclusive;
      PutKeeps(st, x, t);
      WithoutKeeps(Put(st, x, t), token);
      if t.phase.DispatchIntent? {
        assert !Intended(st, x);
        AdmitKeeps(Put(st, x, t), token, x);
      }
    }
  }

  lemma CalledExclusive(st: State, token: Id, x: nat)
    requires Exclusive(st) && token in st.workers && st.workers[token] == Worker(x, Admitted)
    ensures Exclusive(st.(workers := st.workers[token := Worker(x, Answered)], calls := st.calls + [Sent(x, token)]))
  {
  }

  lemma CallKeeps(st: State, token: Id)
    requires Inv(st)
    ensures Inv(Apply(st, CallModel(token)))
  {
    if token in st.workers && st.workers[token].stage.Admitted? {
      var x := st.workers[token].task;
      CalledExclusive(st, token, x);
      hide TaskOk, Exclusive;
      var later := Apply(st, CallModel(token));
      assert later.calls[|st.calls|] == Sent(x, token);
      forall c | c in st.calls ensures c in later.calls {}
      forall y | 0 <= y < |later.tasks| ensures TaskOk(later, later.tasks[y]) { SameOk(st, later, later.tasks[y]); }
    }
  }

  lemma SettleKeeps(st: State, token: Id, now: nat, inputCurrent: bool, usable: bool)
    requires Inv(st)
    ensures Inv(Apply(st, Settle(token, now, inputCurrent, usable)))
  {
    WithoutKeeps(st, token);
    if Holds(st, token, Answered) && st.tasks[st.workers[token].task].leaseUntil > now {
      var x := st.workers[token].task;
      assert TaskOk(st, st.tasks[x]);
      var t := SettleTask(st.tasks[x], token, inputCurrent, usable);
      hide Exclusive;
      PutKeeps(st, x, t);
      WithoutKeeps(Put(st, x, t), token);
    }
  }

  lemma SubmitKeeps(st: State, product: Id)
    requires Inv(st)
    ensures Inv(st.(tasks := st.tasks + [NewTask(product)]))
  {
    var later := st.(tasks := st.tasks + [NewTask(product)]);
    forall y | 0 <= y < |later.tasks| ensures TaskOk(later, later.tasks[y]) {
      if y < |st.tasks| { SameOk(st, later, st.tasks[y]); }
    }
    hide TaskOk, Exclusive;
  }

  lemma StepKeeps(st: State, s: Step)
    requires Inv(st) && Allowed(st, s)
    ensures Inv(Apply(st, s))
  {
    match s
    case Submit(product) => SubmitKeeps(st, product);
    case Claim(x, token, now, timeout) => ClaimKeeps(st, x, token, now, timeout);
    case Begin(token, now, inputCurrent, max) => BeginKeeps(st, token, now, inputCurrent, max);
    case CallModel(token) => CallKeeps(st, token);
    case Settle(token, now, inputCurrent, usable) => SettleKeeps(st, token, now, inputCurrent, usable);
    case Crash(token) => WithoutKeeps(st, token);
    case Cancel(x) =>
      if x < |st.tasks| && !Terminal(st.tasks[x].status) {
        assert TaskOk(st, st.tasks[x]);
        hide Inv;
        PutKeeps(st, x, Finish(st.tasks[x], Cancelled, CancelledTask));
      }
  }

  // ----- runs -----

  predicate IsRun(states: seq<State>, steps: seq<Step>) {
    && |states| == |steps| + 1 && states[0] == State([], map[], [], {})
    && forall i {:trigger steps[i]} :: 0 <= i < |steps| ==> Allowed(states[i], steps[i]) && states[i + 1] == Apply(states[i], steps[i])
  }

  lemma {:induction false} RunInv(states: seq<State>, steps: seq<Step>, i: nat)
    requires IsRun(states, steps) && i < |states|
    ensures Inv(states[i])
  {
    if i > 0 {
      RunInv(states, steps, i - 1);
      assert states[i] == Apply(states[i - 1], steps[i - 1]);
      hide Inv, Apply, Allowed;
      StepKeeps(states[i - 1], steps[i - 1]);
    }
  }

  /** Under any interleaving of claims, crashes and expired leases the model is called at most once for a task. */
  lemma CalledOnce(states: seq<State>, steps: seq<Step>, i: nat, a: nat, b: nat)
    requires IsRun(states, steps) && i < |states| && a < |states[i].calls| && b < |states[i].calls|
    requires states[i].calls[a].task == states[i].calls[b].task
    ensures a == b
  {
    RunInv(states, steps, i);
  }

  /** An accepted result is the answer to that one call. */
  lemma ResultAnswersTheCall(states: seq<State>, steps: seq<Step>, i: nat, x: nat)
    requires IsRun(states, steps) && i < |states| && x < |states[i].tasks| && states[i].tasks[x].status.Succeeded?
    ensures states[i].tasks[x].result.Some?
    ensures exists k :: && 0 <= k < |states[i].calls| && states[i].calls[k] == Sent(x, states[i].tasks[x].result.value)
                        && forall j :: 0 <= j < |states[i].calls| && states[i].calls[j].task == x ==> j == k
  {
    RunInv(states, steps, i);
    var st := states[i];
    assert TaskOk(st, st.tasks[x]);
    var k :| 0 <= k < |st.calls| && st.calls[k] == Sent(x, st.tasks[x].result.value);
  }

  /** A finished task never changes again, so a late answer cannot replace a cancellation or a failure. */
  lemma {:induction false} FinishedForEver(states: seq<State>, steps: seq<Step>, i: nat, k: nat, x: nat)
    requires IsRun(states, steps) && i <= k < |states| && x < |states[i].tasks| && Terminal(states[i].tasks[x].status)
    ensures x < |states[k].tasks| && states[k].tasks[x] == states[i].tasks[x]
    decreases k
  {
    if i < k {
      FinishedForEver(states, steps, i, k - 1, x);
      assert states[k] == Apply(states[k - 1], steps[k - 1]);
      hide Requests;
    }
  }

  // ----- the budget -----

  /** What was sent and what was only attempted is what is counted and what is not. */
  lemma {:induction false} Conserved(tasks: seq<Task>, product: Id, now: nat)
    ensures Dispatched(tasks, product, now) + Repeats(tasks, product, now)
         == Requests(tasks, product, now) + Late(tasks, product, now)
  {
    if |tasks| > 0 {
      Conserved(tasks[..|tasks| - 1], product, now);
    }
  }

  lemma {:induction false} RepeatsNotNegative(tasks: seq<Task>, product: Id, now: nat)
    requires forall x :: 0 <= x < |tasks| ==> (tasks[x].intentAt.Some? ==> tasks[x].attempts > 0)
    ensures Repeats(tasks, product, now) >= 0
  {
    if |tasks| > 0 {
      RepeatsNotNegative(tasks[..|tasks| - 1], product, now);
    }
  }

  /** A task that had sent nothing is sent: one more dispatch of its product. */
  lemma {:induction false} OneMoreDispatched(tasks: seq<Task>, x: nat, t: Task, now: nat)
    requires x < |tasks| && t.product == tasks[x].product && tasks[x].intentAt.None? && t.intentAt == Some(now)
    ensures Dispatched(tasks[x := t], t.product, now) == Dispatched(tasks, t.product, now) + 1
    decreases |tasks|
  {
    var n := |tasks| - 1;
    if x < n {
      assert tasks[x := t][..n] == tasks[..n][x := t];
      OneMoreDispatched(tasks[..n], x, t, now);
    } else {
      assert tasks[x := t][..n] == tasks[..n];
    }
  }

  lemma {:induction false} SameRequests(tasks: seq<Task>, x: nat, t: Task, product: Id, now: nat)
    requires x < |tasks| && t.product == tasks[x].product && t.startedAt == tasks[x].startedAt && t.attempts == tasks[x].attempts
    ensures Requests(tasks[x := t], product, now) == Requests(tasks, product, now)
    decreases |tasks|
  {
    var n := |tasks| - 1;
    if x < n {
      assert tasks[x := t][..n] == tasks[..n][x := t];
      SameRequests(tasks[..n], x, t, product, now);
    } else {
      assert tasks[x := t][..n] == tasks[..n];
    }
  }

  lemma AttemptsCounted(st: State)
    requires Inv(st)
    ensures forall x :: 0 <= x < |st.tasks| ==> (st.tasks[x].intentAt.Some? ==> st.tasks[x].attempts > 0)
  {
    forall x | 0 <= x < |st.tasks| ensures st.tasks[x].intentAt.Some? ==> st.tasks[x].attempts > 0 { assert TaskOk(st, st.tasks[x]); }
  }

  /** The step persists a dispatch intent. */
  predicate Dispatches(st: State, s: Step) {
    s.Begin? && Holds(st, s.token, Claimed)
    && BeginTask(st.tasks[st.workers[s.token].task], st.tasks, s.now, s.inputCurrent, s.max).phase.DispatchIntent?
  }

  /** The product for which a step dispatches. */
  function ProductOf(st: State, s: Step): Id
    requires Dispatches(st, s)
  {
    st.tasks[st.workers[s.token].task].product
  }

  lemma DispatchStep(st: State, s: Step)
    requires Inv(st) && Dispatches(st, s)
    ensures var after, product := Apply(st, s).tasks, ProductOf(st, s);
            && Requests(st.tasks, product, s.now) <= s.max
            && Dispatched(after, product, s.now) == Dispatched(st.tasks, product, s.now) + 1
            && Requests(after, product, s.now) == Requests(st.tasks, product, s.now)
  {
    var x := st.workers[s.token].task;
    var t := BeginTask(st.tasks[x], st.tasks, s.now, s.inputCurrent, s.max);
    assert TaskOk(st, st.tasks[x]);
    hide Inv, Requests, Dispatched;
    SameRequests(st.tasks, x, t, t.product, s.now);
    OneMoreDispatched(st.tasks, x, t, s.now);
  }

  /**
    When the documented limit holds. A dispatch leaves its product within the limit for the last
    day exactly when the store it read counts more idle attempts, up to the limit's slack, than it
    misses dispatches; and some limit that lets the dispatch through is broken by it exactly when
    the tasks the count misses are at least as many as its idle attempts.
   */
  lemma LimitKeptIff(states: seq<State>, steps: seq<Step>, i: nat)
    requires IsRun(states, steps) && i < |steps| && Dispatches(states[i], steps[i])
    ensures var s, product := steps[i], ProductOf(states[i], steps[i]);
            var before, after := states[i].tasks, states[i + 1].tasks;
            && (Dispatched(after, product, s.now) <= s.max <==>
                  Requests(before, product, s.now) + Late(before, product, s.now) < s.max + Repeats(before, product, s.now))
            && ((exists max: nat :: LetsThrough(before, product, s.now, max) && Dispatched(after, product, s.now) > max) <==>
                  Late(before, product, s.now) >= Repeats(before, product, s.now))
  {
    RunInv(states, steps, i);
    assert states[i + 1] == Apply(states[i], steps[i]);
    DispatchStep(states[i], steps[i]);
    var s, product := steps[i], ProductOf(states[i], steps[i]);
    hide *;
    Conserved(states[i].tasks, product, s.now);
    SomeLimitBroken(states[i].tasks, product, s.now, Dispatched(states[i + 1].tasks, product, s.now));
  }

  lemma SomeLimitBroken(tasks: seq<Task>, product: Id, now: nat, sent: nat)
    ensures (exists max: nat :: LetsThrough(tasks, product, now, max) && sent > max) <==> Requests(tasks, product, now) < sent
  {
    if Requests(tasks, product, now) < sent {
      assert LetsThrough(tasks, product, now, Requests(tasks, product, now));
    }
  }

  /** Hence in every run a product stays within the limit up to the tasks that were claimed first before the last day. */
  lemma WithinDailyBudget(states: seq<State>, steps: seq<Step>, i: nat)
    requires IsRun(states, steps) && i < |steps| && Dispatches(states[i], steps[i])
    ensures var s, product := steps[i], ProductOf(states[i], steps[i]);
            Dispatched(states[i + 1].tasks, product, s.now) <= s.max + Late(states[i + 1].tasks, product, s.now)
  {
    RunInv(states, steps, i);
    RunInv(states, steps, i + 1);
    assert states[i + 1] == Apply(states[i], steps[i]);
    DispatchStep(states[i], steps[i]);
    AttemptsCounted(states[i + 1]);
    var s, product := steps[i], ProductOf(states[i], steps[i]);
    hide *;
    Conserved(states[i + 1].tasks, product, s.now);
    RepeatsNotNegative(states[i + 1].tasks, product, s.now);
  }

  // ----- where the code exceeds the documented limit -----

  /** A task first claimed at time 0 and again two days later; and one claimed only then. */
  function Aged(phase: Phase): Task {
    Task(1, Running, phase, 12, 2 * DAY + 70, 2, Some(0), if phase.DispatchIntent? then Some(2 * DAY) else None, None)
  }

  function Young(phase: Phase): Task {
    Task(1, Running, phase, 13, 2 * DAY + 70, 1, Some(2 * DAY), if phase.DispatchIntent? then Some(2 * DAY) else None, None)
  }

  function Workers(first: Stage): map<Id, Worker> {
    map[11 := Worker(0, Claimed), 12 := Worker(0, first)]
  }

  function FirstStates(): seq<State> {
    [State([], map[], [], {}),
     State([NewTask(1)], map[], [], {}),
     State([NewTask(1).(owner := 11, leaseUntil := 70, attempts := 1, startedAt := Some(0), status := Running)],
           map[11 := Worker(0, Claimed)], [], {11}),
     State([Aged(QueuedTask)], Workers(Claimed), [], {11, 12}),
     State([Aged(DispatchIntent)], Workers(Admitted), [], {11, 12}),
     State([Aged(DispatchIntent)], Workers(Answered), [Sent(0, 12)], {11, 12})]
  }

  function SecondStates(): seq<State> {
    [State([Aged(DispatchIntent), NewTask(1)], Workers(Answered), [Sent(0, 12)], {11, 12}),
     State([Aged(DispatchIntent), Young(QueuedTask)], Workers(Answered)[13 := Worker(1, Claimed)], [Sent(0, 12)], {11, 12, 13}),
     State([Aged(DispatchIntent), Young(DispatchIntent)], Workers(Answered)[13 := Worker(1, Admitted)], [Sent(0, 12)], {11, 12, 13}),
     State([Aged(DispatchIntent), Young(DispatchIntent)], Workers(Answered)[13 := Worker(1, Answered)],
           [Sent(0, 12), Sent(1, 13)], {11, 12, 13})]
  }

  function FirstSteps(): seq<Step> {
    [Submit(1), Claim(0, 11, 0, 60), Claim(0, 12, 2 * DAY, 60), Begin(12, 2 * DAY, true, 1), CallModel(12)]
  }

  function SecondSteps(): seq<Step> {
    [Submit(1), Claim(1, 13, 2 * DAY, 60), Begin(13, 2 * DAY, true, 1), CallModel(13)]
  }

  lemma AgedNotCounted(p: Phase)
    ensures Requests([Aged(p)], 1, 2 * DAY) == 0
    ensures Requests([Aged(p), Young(QueuedTask)], 1, 2 * DAY) == 1
    ensures Dispatched([Aged(DispatchIntent), Young(DispatchIntent)], 1, 2 * DAY) == 2
  {
    assert [Aged(p)][..0] == [] && [Aged(p), Young(QueuedTask)][..1] == [Aged(p)];
    assert [Aged(DispatchIntent), Young(DispatchIntent)][..1] == [Aged(DispatchIntent)];
    assert [Aged(DispatchIntent)][..0] == [];
    assert Dispatched([Aged(DispatchIntent)], 1, 2 * DAY) == 1;
  }

  lemma FirstHalf(i: nat)
    requires i < 3
    ensures Allowed(FirstStates()[i], FirstSteps()[i]) && FirstStates()[i + 1] == Apply(FirstStates()[i], FirstSteps()[i])
  {
    hide Requests;
  }

  lemma AgedIsSent(i: nat)
    requires 3 <= i < 5
    ensures Allowed(FirstStates()[i], FirstSteps()[i]) && FirstStates()[i + 1] == Apply(FirstStates()[i], FirstSteps()[i])
  {
    AgedNotCounted(QueuedTask);
    hide Requests;
  }

  lemma Joint()
    ensures Allowed(FirstStates()[5], SecondSteps()[0]) && SecondStates()[0] == Apply(FirstStates()[5], SecondSteps()[0])
  {
  }

  lemma SecondHalf(i: nat)
    requires i < 3
    ensures Allowed(SecondStates()[i], SecondSteps()[i + 1]) && SecondStates()[i + 1] == Apply(SecondStates()[i], SecondSteps()[i + 1])
  {
    AgedNotCounted(DispatchIntent);
    hide Requests;
  }

  /**
    One request a day allowed: a worker claims a task and dies. Two days later the task is claimed
    and sent, and a new task of the same product is sent at the same moment: the first one's
    attempts are no longer counted.
   */
  lemma LimitCanBeExceeded()
    ensures var states, steps := FirstStates() + SecondStates(), FirstSteps() + SecondSteps();
            && IsRun(states, steps)
            && |states[9].calls| == 2 && Dispatched(states[9].tasks, 1, 2 * DAY) == 2
            && forall i :: 0 <= i < |steps| && steps[i].Begin? ==> steps[i].max == 1 && steps[i].now == 2 * DAY
  {
    AgedNotCounted(DispatchIntent);
    var states, steps := FirstStates() + SecondStates(), FirstSteps() + SecondSteps();
    Joint();
    hide Apply, Allowed, Requests, Dispatched;
    forall i | 0 <= i < |steps| ensures Allowed(states[i], steps[i]) && states[i + 1] == Apply(states[i], steps[i]) {
      if i < 3 { FirstHalf(i); } else if i < 5 { AgedIsSent(i); } else if i > 5 { SecondHalf(i - 6); }
    }
  }
}
