/** Publication over whole runs: one job of each kind per delivery, one winner per publication, one valid artifact. */
module PublicationRuns {
  import opened Ids
  import opened PublicationModel
  import opened PublicationSafety

  // ----- consequences in one state -----

  /** A delivery has at most one build job and at most one publication job. */
  lemma OneJobOfEachKind(st: State, x: Id, y: Id)
    requires Inv(st) && x in st.jobs && y in st.jobs
    requires st.jobs[x].inputs.delivery == st.jobs[y].inputs.delivery != NO_ID && st.jobs[x].capability == st.jobs[y].capability
    ensures x == y
  {
    assert JobInv(st, x, st.jobs[x]) && JobInv(st, y, st.jobs[y]);
  }

  /** A linked publication carries the receipt that the delivery's own build was accepted with. */
  lemma PublicationCarriesReceipt(st: State, d: Id)
    requires Inv(st) && d in st.deliveries && st.deliveries[d].publication != NO_ID
    ensures var v := st.deliveries[d];
            && v.build in st.jobs && v.publication in st.jobs && st.jobs[v.build].status.Succeeded?
            && st.jobs[v.publication].inputs.publication.Some?
            && AcceptedReceipt(st.jobs[v.build]) == Some(st.jobs[v.publication].inputs.publication.value.receipt)
            && st.jobs[v.publication].inputs.sha == st.jobs[v.build].inputs.sha == v.sha
  {
    var v := st.deliveries[d];
    assert Owns(st, d, v);
    assert JobInv(st, v.publication, st.jobs[v.publication]);
    PublicationHasBuild(st, d);
    assert JobInv(st, v.build, st.jobs[v.build]);
  }

  /** The provenance of a queued publication never stops holding, so it never refuses a report or a reconciliation. */
  lemma ProvenanceHolds(st: State, x: Id)
    requires Inv(st) && x in st.jobs && st.jobs[x].capability.Publish?
    ensures ProvenBy(st, st.jobs[x]) && Origin(st, x, st.jobs[x])
  {
    assert JobInv(st, x, st.jobs[x]);
  }

  /** A publication has succeeded if and only if exactly one artifact is admitted for it; otherwise there is none. */
  lemma SucceededIffAdmitted(st: State, x: Id)
    requires Inv(st) && x in st.jobs && st.jobs[x].capability.Publish?
    ensures st.jobs[x].status.Succeeded? <==> OneArtifact(st.artifacts, x)
    ensures st.jobs[x].status.Succeeded? <==> HasArtifact(st.artifacts, x)
  {
    assert JobInv(st, x, st.jobs[x]);
    if OneArtifact(st.artifacts, x) {
      var i: nat :| OnlyArtifact(st.artifacts, x, i);
      assert IsFor(st.artifacts[i], x);
    }
  }

  lemma {:induction false} FirstIsOnly(artifacts: seq<Artifact>, i: nat)
    requires i < |artifacts| && DistinctArtifacts(artifacts)
    ensures FirstArtifact(artifacts, artifacts[i].id) == Some(artifacts[i])
    decreases |artifacts|
  {
    var n := |artifacts| - 1;
    if i < n { FirstIsOnly(artifacts[..n], i); } else { FirstAbsent(artifacts[..n], artifacts[i].id); }
  }

  lemma {:induction false} FirstAbsent(artifacts: seq<Artifact>, id: Id)
    requires forall k :: 0 <= k < |artifacts| ==> artifacts[k].id != id
    ensures FirstArtifact(artifacts, id).None?
  {
    if |artifacts| > 0 { FirstAbsent(artifacts[..|artifacts| - 1], id); }
  }

  /** The admitted artifact passes the validation for exactly its job's product, component, repository, revision and image. */
  lemma AdmittedIsValid(st: State, x: Id, i: nat)
    requires Inv(st) && x in st.jobs && i < |st.artifacts| && IsFor(st.artifacts[i], x)
    ensures st.jobs[x].inputs.publication.Some?
    ensures var j := st.jobs[x]; var t := j.inputs.publication.value.target;
            Validated(st, st.artifacts[i].id, j.product, t.component, j.inputs.repo, j.inputs.sha, t.image) == Some(st.artifacts[i])
    ensures st.jobs[x].status.Succeeded? && st.artifacts[i].digest == st.jobs[x].inputs.publication.value.receipt.manifest
  {
    assert JobInv(st, x, st.jobs[x]);
    assert HasArtifact(st.artifacts, x);
    assert Proves(st.artifacts[i], x, st.jobs[x]);
    FirstIsOnly(st.artifacts, i);
  }

  lemma {:induction false} ArtifactForIs(artifacts: seq<Artifact>, x: Id)
    ensures ArtifactFor(artifacts, x).Some? <==> HasArtifact(artifacts, x)
    ensures ArtifactFor(artifacts, x).Some? ==> exists i :: 0 <= i < |artifacts| && IsFor(artifacts[i], x) && ArtifactFor(artifacts, x) == Some(artifacts[i])
  {
    if |artifacts| > 0 {
      var n := |artifacts| - 1;
      ArtifactForIs(artifacts[..n], x);
      if HasArtifact(artifacts[..n], x) {
        var k :| 0 <= k < n && artifacts[..n][k].native.Some? && artifacts[..n][k].native.value.job == x;
        assert artifacts[k].native.value.job == x;
        var i :| 0 <= i < n && IsFor(artifacts[..n][i], x) && ArtifactFor(artifacts[..n], x) == Some(artifacts[..n][i]);
        assert IsFor(artifacts[i], x);
      } else if HasArtifact(artifacts, x) {
        var k :| 0 <= k < |artifacts| && artifacts[k].native.Some? && artifacts[k].native.value.job == x;
        assert forall m :: 0 <= m < n ==> artifacts[..n][m] == artifacts[m];
        assert k == n;
      }
    }
  }

  /** Once its publication has succeeded, the delivery's next allowed turn takes the admitted artifact. */
  lemma DeliveryTakes(st: State, d: Id, t: Tick)
    requires Inv(st) && Allowed(st, Turn(d, t)) && t.allowed && t.checkPassed
    requires var v := st.deliveries[d]; v.active && v.existing.None? && v.publication in st.jobs && st.jobs[v.publication].status.Succeeded?
    ensures var v := st.deliveries[d]; var w := TickDelivery(st, d, t).deliveries[d];
            && w.existing.Some? && w.existing.value in st.artifacts && IsFor(w.existing.value, v.publication)
            && w.existing.value.digest == st.jobs[v.publication].inputs.publication.value.receipt.manifest
            && w == v.(existing := w.existing)
    ensures TickDelivery(st, d, t).jobs == st.jobs && TickDelivery(st, d, t).artifacts == st.artifacts
  {
    var v := st.deliveries[d];
    assert Owns(st, d, v);
    assert v.publication != NO_ID;
    PublicationHasBuild(st, d);
    PublicationCarriesReceipt(st, d);
    var p := v.publication;
    assert JobInv(st, p, st.jobs[p]);
    SucceededIffAdmitted(st, p);
    ArtifactForIs(st.artifacts, p);
    var i :| 0 <= i < |st.artifacts| && IsFor(st.artifacts[i], p) && ArtifactFor(st.artifacts, p) == Some(st.artifacts[i]);
    AdmittedIsValid(st, p, i);
    assert Set(st, v.build, st.jobs[v.build]) == st && Set(st, p, st.jobs[p]) == st;
    hide Inv, Validated, ArtifactFor, Stop, Owns, JobInv;
    assert TickDelivery(st, d, t) == TickPublication(st, d, t, AcceptedReceipt(st.jobs[v.build]).value);
  }

  // ----- runs -----

  ghost predicate Start(st: State) {
    st.jobs == map[] && st.deliveries == map[] && st.artifacts == []
  }

  ghost predicate IsRun(states: seq<State>, steps: seq<Step>) {
    && |states| == |steps| + 1 && Start(states[0])
    && forall i {:trigger steps[i]} :: 0 <= i < |steps| ==> Allowed(states[i], steps[i]) && states[i + 1] == Apply(states[i], steps[i])
  }

  lemma {:induction false} RunInv(states: seq<State>, steps: seq<Step>, i: nat)
    requires IsRun(states, steps) && i < |states|
    ensures Inv(states[i])
  {
    if i > 0 {
      RunInv(states, steps, i - 1);
      assert states[i] == Apply(states[i - 1], steps[i - 1]);
      hide Inv, Apply, Allowed;
      StepKeeps(states[i - 1], steps[i - 1]);
    }
  }

  /** What no step takes back: finished jobs, the identity and the links of deliveries, admitted artifacts. */
  predicate Grows(st: State, later: State) {
    && (forall x :: x in st.jobs ==> x in later.jobs && later.jobs[x].inputs == st.jobs[x].inputs
                                     && later.jobs[x].capability == st.jobs[x].capability
                                     && (Terminal(st.jobs[x].status) ==> later.jobs[x] == st.jobs[x]))
    && (forall d :: d in st.deliveries ==> d in later.deliveries && SameOwner(st.deliveries[d], later.deliveries[d]))
    && st.artifacts <= later.artifacts
  }

  lemma MoveGrows(st: State, x: Id, k: Job)
    requires x in st.jobs && Moves(x, st.jobs[x], k)
    ensures Grows(st, Set(st, x, k))
  {
    hide Shape;
  }

  lemma GrowsOn(a: State, b: State, c: State)
    requires Grows(a, b) && Grows(b, c)
    ensures Grows(a, c)
  {
    hide Terminal;
  }

  lemma InterruptGrows(st: State, x: Id)
    requires Inv(st)
    ensures Grows(st, InterruptAt(st, x))
  {
    if x in st.jobs {
      ShapeOf(st, x);
      InterruptMoves(x, st.jobs[x]);
      hide Inv, Moves, Interrupt;
      MoveGrows(st, x, Interrupt(st.jobs[x]));
    }
  }

  lemma StopGrows(st: State, d: Id)
    requires Inv(st) && d in st.deliveries
    ensures Grows(st, Stop(st, d))
  {
    hide Inv, InterruptAt;
    var v := st.deliveries[d];
    var s := st.(deliveries := st.deliveries[d := v.(active := false)]);
    DeliveryKeeps(st, d, v.(active := false));
    InterruptKeeps(s, v.build);
    InterruptGrows(s, v.build);
    InterruptGrows(InterruptAt(s, v.build), v.publication);
    assert Grows(st, s);
    hide Grows;
    GrowsOn(st, s, InterruptAt(s, v.build));
    GrowsOn(st, InterruptAt(s, v.build), InterruptAt(InterruptAt(s, v.build), v.publication));
  }

  lemma RecoverGrows(st: State, x: Id, now: nat)
    requires Inv(st) && x in st.jobs
    ensures Grows(st, Set(st, x, Recover(st.jobs[x], now)))
  {
    ShapeOf(st, x);
    RecoverMoves(x, st.jobs[x], now);
    hide Inv, Moves, Recover;
    MoveGrows(st, x, Recover(st.jobs[x], now));
  }

  lemma TickPublicationGrows(st: State, d: Id, t: Tick, receipt: Receipt)
    requires Inv(st) && d in st.deliveries && FreshJob(st, t.job)
    ensures Grows(st, TickPublication(st, d, t, receipt))
  {
    hide Inv, Recover, Stop, Validated, ArtifactFor, Grows;
    var v := st.deliveries[d];
    StaysGrows(st);
    StopGrows(st, d);
    QueueGrows(st, d, v.(publication := t.job), t.job, NewJob(v, d, t, Publish, Some(Publication(t.target, receipt))));
    if v.publication in st.jobs {
      var s := Set(st, v.publication, Recover(st.jobs[v.publication], t.now));
      RecoverKeeps(st, v.publication, t.now);
      RecoverGrows(st, v.publication, t.now);
      StopGrows(s, d);
      GrowsOn(st, s, Stop(s, d));
      TakeGrows(st, s, d, v);
    }
  }

  lemma StaysGrows(st: State)
    ensures Grows(st, st)
  {
  }

  lemma QueueGrows(st: State, d: Id, w: Delivery, x: Id, j: Job)
    requires x !in st.jobs && d in st.deliveries
    ensures SameOwner(st.deliveries[d], w) ==> Grows(st, Set(st.(deliveries := st.deliveries[d := w]), x, j))
  {
    hide Terminal;
  }

  lemma NewWorkGrows(st: State, x: Id, j: Job)
    requires x !in st.jobs
    ensures Grows(st, Set(st, x, j))
  {
    hide Terminal;
  }

  lemma TakeGrows(st: State, s: State, d: Id, v: Delivery)
    requires Grows(st, s) && s.deliveries == st.deliveries && d in st.deliveries && v == st.deliveries[d]
    ensures forall a: Option<Artifact> :: Grows(st, s.(deliveries := s.deliveries[d := v.(existing := a)]))
  {
  }

  lemma TickGrows(st: State, d: Id, t: Tick)
    requires Inv(st) && Allowed(st, Turn(d, t))
    ensures Grows(st, TickDelivery(st, d, t))
  {
    hide Inv, Recover, Stop, TickPublication, Terminal;
    var v := st.deliveries[d];
    StopGrows(st, d);
    if v.build in st.jobs {
      RecoverKeeps(st, v.build, t.now);
      RecoverGrows(st, v.build, t.now);
      RecoveredTickGrows(st, Set(st, v.build, Recover(st.jobs[v.build], t.now)), d, t, AcceptedReceipt(Recover(st.jobs[v.build], t.now)));
    }
  }

  lemma RecoveredTickGrows(st: State, s: State, d: Id, t: Tick, receipt: Option<Receipt>)
    requires Inv(s) && Grows(st, s) && d in s.deliveries && FreshJob(s, t.job)
    ensures Grows(st, Stop(s, d))
    ensures receipt.Some? ==> Grows(st, TickPublication(s, d, t, receipt.value))
  {
    hide Inv, Stop, TickPublication, Grows;
    StopGrows(s, d);
    GrowsOn(st, s, Stop(s, d));
    if receipt.Some? {
      TickPublicationGrows(s, d, t, receipt.value);
      GrowsOn(st, s, TickPublication(s, d, t, receipt.value));
    }
  }

  lemma PublishedGrows(st: State, x: Id, fence: nat, attempt: Id, report: Report, now: nat, current: bool, artifact: Id, o: Observation)
    ensures Grows(st, ReportPublication(st, x, fence, attempt, report, now, current, artifact, o))
  {
    hide Eligible, HasArtifact;
  }

  lemma ReconciledGrows(st: State, x: Id, fence: nat, now: nat, current: bool, actor: Id, artifact: Id, o: Observation)
    ensures Grows(st, ReconcilePublication(st, x, fence, now, current, actor, artifact, o))
  {
    hide Eligible, HasArtifact;
  }

  lemma StepGrows(st: State, s: Step)
    requires Inv(st) && Allowed(st, s)
    ensures Grows(st, Apply(st, s))
  {
    hide Inv, TickDelivery, Claim, Act, Recover, ReportPublication, ReconcilePublication, Interrupt, Settled, Stop, Grows, ProvenBy;
    StaysGrows(st);
    match s
    case NewDelivery(d, v) => DeliveryGrows(st, d, v);
    case NewWork(x, j) => NewWorkGrows(st, x, j);
    case NewPublication(x, j) => NewWorkGrows(st, x, j);
    case Observed(a) => ObservedGrows(st, a);
    case Turn(d, t) => TickGrows(st, d, t);
    case Take(x, now, current, ready, lease, attempt) =>
      if x in st.jobs { TakeJobGrows(st, x, now, st.jobs[x].product in st.quarantined, current, ready, lease, attempt); }
    case Call(x, call, fence, attempt, now, current, valid) =>
      if x in st.jobs { CallGrows(st, x, call, fence, attempt, now, st.jobs[x].product in st.quarantined, current, valid); }
    case Expire(x, now) => if x in st.jobs { RecoverGrows(st, x, now); }
    case Published(x, fence, attempt, report, now, current, artifact, o) =>
      PublishedGrows(st, x, fence, attempt, report, now, current, artifact, o);
    case Reconciled(x, fence, now, current, actor, artifact, o) => ReconciledGrows(st, x, fence, now, current, actor, artifact, o);
    case CancelJob(x) =>
      if x in st.jobs {
        InterruptGrows(st, x);
        if st.jobs[x].inputs.delivery in st.deliveries { StopGrows(st, st.jobs[x].inputs.delivery); }
      }
    case SettleJob(x, outcome) =>
      if x in st.jobs && st.jobs[x].status.ReconciliationRequired? { SettleGrows(st, x, outcome); }
    case Abandon(d) => StopGrows(st, d);
  }

  lemma DeliveryGrows(st: State, d: Id, v: Delivery)
    requires d !in st.deliveries
    ensures Grows(st, st.(deliveries := st.deliveries[d := v]))
  {
    hide Terminal;
  }

  lemma ObservedGrows(st: State, a: Artifact)
    ensures Grows(st, st.(artifacts := st.artifacts + [a]))
  {
    hide Terminal;
  }

  lemma SettleGrows(st: State, x: Id, outcome: Status)
    requires Inv(st) && x in st.jobs && st.jobs[x].status.ReconciliationRequired? && (outcome.Failed? || outcome.Cancelled?)
    ensures Grows(st, Set(st, x, Settled(st.jobs[x], outcome, outcome)))
  {
    hide Inv, Moves, Grows;
    ShapeOf(st, x);
    SettleMoves(x, st.jobs[x], outcome);
    MoveGrows(st, x, Settled(st.jobs[x], outcome, outcome));
  }

  lemma TakeJobGrows(st: State, x: Id, now: nat, quarantined: bool, current: bool, ready: bool, lease: nat, attempt: Id)
    requires Inv(st) && x in st.jobs
    ensures Grows(st, Set(st, x, Claim(st.jobs[x], now, quarantined, current, ready, lease, attempt)))
  {
    ShapeOf(st, x);
    ClaimMoves(x, st.jobs[x], now, quarantined, current, ready, lease, attempt);
    hide Inv, Moves, Claim;
    MoveGrows(st, x, Claim(st.jobs[x], now, quarantined, current, ready, lease, attempt));
  }

  lemma CallGrows(st: State, x: Id, call: WorkerCall, fence: nat, attempt: Id, now: nat, quarantined: bool, current: bool, valid: bool)
    requires Inv(st) && x in st.jobs
    ensures var r := Act(x, st.jobs[x], call, fence, attempt, now, quarantined, current, valid); r.Some? ==> Grows(st, Set(st, x, r.value))
  {
    ShapeOf(st, x);
    ActMoves(x, st.jobs[x], call, fence, attempt, now, quarantined, current, valid);
    hide Inv, Moves, Act;
    var r := Act(x, st.jobs[x], call, fence, attempt, now, quarantined, current, valid);
    if r.Some? { MoveGrows(st, x, r.value); }
  }

  /** Between any two states of a run nothing finished, linked or admitted is taken back. */
  lemma {:induction false} RunGrows(states: seq<State>, steps: seq<Step>, i: nat, k: nat)
    requires IsRun(states, steps) && i <= k < |states|
    ensures Grows(states[i], states[k])
    decreases k
  {
    if i < k {
      RunGrows(states, steps, i, k - 1);
      RunInv(states, steps, k - 1);
      assert states[k] == Apply(states[k - 1], steps[k - 1]);
      hide Inv, Apply, Allowed, Grows;
      StepGrows(states[k - 1], steps[k - 1]);
      GrowsOn(states[i], states[k - 1], states[k]);
    } else {
      hide Inv, Apply, Allowed;
    }
  }

  /** The step admits an artifact for publication `x`: a worker's report or an operator's reconciliation takes effect. */
  predicate Wins(st: State, s: Step, x: Id)
    requires Allowed(st, s)
  {
    (s.Published? || s.Reconciled?) && s.x == x && Apply(st, s) != st
  }

  lemma WinnerSucceeds(st: State, s: Step, x: Id)
    requires Allowed(st, s) && Wins(st, s, x)
    ensures x in st.jobs && !st.jobs[x].status.Succeeded?
    ensures x in Apply(st, s).jobs && Apply(st, s).jobs[x].status.Succeeded?
  {
    hide Eligible, HasArtifact;
  }

  /** In a whole run at most one step wins a publication, so a report and a reconciliation never both do. */
  lemma OneWinner(states: seq<State>, steps: seq<Step>, x: Id, i: nat, k: nat)
    requires IsRun(states, steps) && i < |steps| && k < |steps|
    requires Wins(states[i], steps[i], x) && Wins(states[k], steps[k], x)
    ensures i == k
  {
    assert states[i + 1] == Apply(states[i], steps[i]) && states[k + 1] == Apply(states[k], steps[k]);
    WinnerSucceeds(states[i], steps[i], x);
    WinnerSucceeds(states[k], steps[k], x);
    if i < k { RunGrows(states, steps, i + 1, k); }
    if k < i { RunGrows(states, steps, k + 1, i); }
    hide Apply, Allowed, Wins;
  }

  /** Every admitted artifact stays, alone for its job, and passes the validation in every later state of the run. */
  lemma AdmissionIsFinal(states: seq<State>, steps: seq<Step>, i: nat, k: nat, a: nat, x: Id)
    requires IsRun(states, steps) && i <= k < |states| && a < |states[i].artifacts| && IsFor(states[i].artifacts[a], x)
    ensures a < |states[k].artifacts| && states[k].artifacts[a] == states[i].artifacts[a] && OnlyArtifact(states[k].artifacts, x, a)
    ensures x in states[k].jobs && states[k].jobs[x].inputs.publication.Some?
    ensures var j := states[k].jobs[x]; var t := j.inputs.publication.value.target;
            Validated(states[k], states[k].artifacts[a].id, j.product, t.component, j.inputs.repo, j.inputs.sha, t.image)
            == Some(states[i].artifacts[a])
  {
    RunInv(states, steps, k);
    RunGrows(states, steps, i, k);
    var st := states[k];
    assert st.artifacts[a] == states[i].artifacts[a];
    hide IsRun;
    assert ArtifactShape(st, st.artifacts[a]);
    AdmittedIsValid(st, x, a);
    assert JobInv(st, x, st.jobs[x]);
    var o: nat :| OnlyArtifact(st.artifacts, x, o);
  }

  /** The links of a delivery never change once set: one build job and one publication job in its whole life. */
  lemma LinksForEver(states: seq<State>, steps: seq<Step>, i: nat, k: nat, d: Id)
    requires IsRun(states, steps) && i <= k < |states| && d in states[i].deliveries
    ensures d in states[k].deliveries
    ensures states[i].deliveries[d].build != NO_ID ==> states[k].deliveries[d].build == states[i].deliveries[d].build
    ensures states[i].deliveries[d].publication != NO_ID ==> states[k].deliveries[d].publication == states[i].deliveries[d].publication
  {
    hide IsRun;
    RunGrows(states, steps, i, k);
  }
}
