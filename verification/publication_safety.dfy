/** What every step of the publication protocol keeps. */
module PublicationSafety {
  import opened Ids
  import opened PublicationModel

  /** Status of a job against its attempts: live work has a live, unreported attempt; an accepted build has its receipt. */
  predicate Shape(x: Id, j: Job) {
    && x != NO_ID && j.inputs.sha != NO_ID && !j.status.Expired?
    && (j.capability.Publish? <==> j.inputs.publication.Some?)
    && (j.status.Running? || j.status.Claimed? || j.status.Succeeded? ==> j.attempts != [])
    && (j.status.Running? ==> Last(j).status.Running?)
    && (j.attempts != [] && Last(j).report.Some? ==> Terminal(j.status))
    && (j.capability.Build? && j.status.Succeeded? ==>
          && Last(j).status.Succeeded? && AcceptedReceipt(j).Some?
          && AcceptedReceipt(j).value.job == x && AcceptedReceipt(j).value.attempt == Last(j).id)
  }

  predicate Linked(st: State, x: Id, j: Job) {
    Origin(st, x, j) && (j.inputs.delivery != NO_ID ==> !j.capability.Other?)
  }

  /** What a delivery names is its own job; the publication carries the receipt of its own build and its own target. */
  predicate Owns(st: State, d: Id, v: Delivery) {
    && d != NO_ID && v.sha != NO_ID
    && (v.build != NO_ID ==> v.build in st.jobs && st.jobs[v.build].capability.Build? && st.jobs[v.build].inputs.delivery == d)
    && (v.publication != NO_ID ==>
          && v.publication in st.jobs
          && var p := st.jobs[v.publication];
          && p.capability.Publish? && p.inputs.delivery == d && p.inputs.publication.Some?
          && p.inputs.publication.value.receipt.job == v.build
          && p.inputs.publication.value.target.component == v.app && p.inputs.publication.value.target.image == v.image)
  }

  predicate IsFor(a: Artifact, x: Id) {
    a.native.Some? && a.native.value.job == x
  }

  ghost predicate OnlyArtifact(artifacts: seq<Artifact>, x: Id, i: nat) {
    i < |artifacts| && IsFor(artifacts[i], x) && forall k :: 0 <= k < |artifacts| && k != i ==> !IsFor(artifacts[k], x)
  }

  ghost predicate OneArtifact(artifacts: seq<Artifact>, x: Id) {
    exists i: nat :: OnlyArtifact(artifacts, x, i)
  }

  /** The admitted artifact repeats the job, and either its worker reported it or an operator reconciled it, never both. */
  predicate Proves(a: Artifact, x: Id, j: Job) {
    && j.attempts != [] && j.inputs.publication.Some? && IsFor(a, x)
    && a == NativeArtifact(x, j, a.id, a.native.value.observation, a.native.value.reconciliation)
    && var r := j.inputs.publication.value.receipt; var o := a.native.value.observation;
    && o.manifest == r.manifest && o.platform == r.platform && o.at != 0
    && match a.native.value.reconciliation
       case Some(c) => Last(j).status.Expired? && Last(j).report.None? && c.actor != NO_ID && c.at != 0
       case None => Last(j).status.Succeeded? && Last(j).report.Some? && Last(j).report.value.verdict.Passed?
                    && Last(j).report.value.published == Some(r.manifest)
  }

  /** A publication has succeeded exactly when an artifact is admitted for it, and then there is only that one. */
  ghost predicate Admitted(st: State, x: Id, j: Job) {
    if j.capability.Publish? && j.status.Succeeded? then
      && j.product !in st.quarantined && OneArtifact(st.artifacts, x)
      && forall k :: 0 <= k < |st.artifacts| && IsFor(st.artifacts[k], x) ==> Proves(st.artifacts[k], x, j)
    else !HasArtifact(st.artifacts, x)
  }

  ghost predicate JobInv(st: State, x: Id, j: Job) {
    Shape(x, j) && Linked(st, x, j) && (j.capability.Publish? ==> ProvenBy(st, j)) && Admitted(st, x, j)
  }

  predicate DistinctArtifacts(artifacts: seq<Artifact>) {
    forall i, k :: 0 <= i < k < |artifacts| ==> artifacts[i].id != artifacts[k].id
  }

  ghost predicate Inv(st: State) {
    && NO_ID !in st.jobs
    && (forall x :: x in st.jobs ==> JobInv(st, x, st.jobs[x]))
    && (forall d :: d in st.deliveries ==> Owns(st, d, st.deliveries[d]))
    && DistinctArtifacts(st.artifacts)
    && (forall k :: 0 <= k < |st.artifacts| ==> ArtifactShape(st, st.artifacts[k]))
  }

  predicate ArtifactShape(st: State, a: Artifact) {
    a.id != NO_ID && (a.provenance.NativeWorker? <==> a.native.Some?) && (a.native.Some? ==> a.native.value.job in st.jobs)
  }

  // ----- one job replaced -----

  /** A job may move on: same identity, terminal jobs unchanged, and a publication does not succeed this way. */
  predicate Moves(x: Id, j: Job, k: Job) {
    && k.product == j.product && k.operation == j.operation && k.capability == j.capability && k.inputs == j.inputs
    && Shape(x, k) && (Terminal(j.status) ==> k == j)
    && (k.capability.Publish? && k.status.Succeeded? ==> k == j)
  }

  lemma ProvenStays(st: State, later: State, j: Job)
    requires ProvenBy(st, j) && NO_ID !in st.jobs
    requires var r := j.inputs.publication.value.receipt; r.job in later.jobs && later.jobs[r.job] == st.jobs[r.job]
    requires forall d :: d in st.deliveries ==> d in later.deliveries && SameOwner(st.deliveries[d], later.deliveries[d])
    ensures ProvenBy(later, j)
  {
  }

  /** Only the activity, the taken artifact, and links not yet set may change in a delivery. */
  predicate SameOwner(v: Delivery, w: Delivery) {
    && w.product == v.product && w.app == v.app && w.repo == v.repo && w.sha == v.sha && w.image == v.image
    && (v.build != NO_ID ==> w.build == v.build) && (v.publication != NO_ID ==> w.publication == v.publication)
  }

  lemma MoveKeeps(st: State, x: Id, k: Job)
    requires Inv(st) && x in st.jobs && Moves(x, st.jobs[x], k)
    ensures Inv(Set(st, x, k))
  {
    hide Shape, Proves, OneArtifact, Terminal;
    var later := Set(st, x, k);
    forall y | y in later.jobs ensures JobInv(later, y, later.jobs[y]) {
      assert JobInv(st, y, st.jobs[y]);
      if later.jobs[y].capability.Publish? {
        var r := later.jobs[y].inputs.publication.value.receipt;
        SucceededIsTerminal(st.jobs[r.job]);
        ProvenStays(st, later, later.jobs[y]);
      }
    }
    forall d | d in later.deliveries ensures Owns(later, d, later.deliveries[d]) { assert Owns(st, d, st.deliveries[d]); }
    forall i | 0 <= i < |st.artifacts| ensures ArtifactShape(later, st.artifacts[i]) { assert ArtifactShape(st, st.artifacts[i]); }
  }

  lemma SucceededIsTerminal(j: Job)
    ensures j.status.Succeeded? ==> Terminal(j.status)
  {
  }

  lemma RecoverMoves(x: Id, j: Job, now: nat)
    requires Shape(x, j)
    ensures Moves(x, j, Recover(j, now))
  {
  }

  lemma ClaimMoves(x: Id, j: Job, now: nat, quarantined: bool, current: bool, ready: bool, lease: nat, attempt: Id)
    requires Shape(x, j)
    ensures Moves(x, j, Claim(j, now, quarantined, current, ready, lease, attempt))
  {
    RecoverMoves(x, j, now);
    hide Recover;
  }

  lemma ActMoves(x: Id, j: Job, call: WorkerCall, fence: nat, attempt: Id, now: nat, quarantined: bool, current: bool, valid: bool)
    requires Shape(x, j)
    ensures var r := Act(x, j, call, fence, attempt, now, quarantined, current, valid); r.Some? ==> Moves(x, j, r.value)
  {
    RecoverMoves(x, j, now);
    hide Recover;
  }

  lemma InterruptMoves(x: Id, j: Job)
    requires Shape(x, j)
    ensures Moves(x, j, Interrupt(j))
  {
  }

  lemma SettleMoves(x: Id, j: Job, outcome: Status)
    requires Shape(x, j) && j.status.ReconciliationRequired? && (outcome.Failed? || outcome.Cancelled?)
    ensures Moves(x, j, Settled(j, outcome, outcome))
  {
  }

  // ----- deliveries -----

  /** A delivery changed without new links. */
  lemma DeliveryKeeps(st: State, d: Id, w: Delivery)
    requires Inv(st) && d in st.deliveries
    requires w == st.deliveries[d].(active := w.active, existing := w.existing)
    ensures Inv(st.(deliveries := st.deliveries[d := w]))
  {
    hide Shape, Proves, OneArtifact;
    var later := st.(deliveries := st.deliveries[d := w]);
    forall y | y in later.jobs ensures JobInv(later, y, later.jobs[y]) {
      assert JobInv(st, y, st.jobs[y]);
      if later.jobs[y].capability.Publish? { ProvenStays(st, later, later.jobs[y]); }
    }
    forall e | e in later.deliveries ensures Owns(later, e, later.deliveries[e]) { assert Owns(st, e, st.deliveries[e]); }
    forall i | 0 <= i < |st.artifacts| ensures ArtifactShape(later, st.artifacts[i]) { assert ArtifactShape(st, st.artifacts[i]); }
  }

  lemma InterruptKeeps(st: State, x: Id)
    requires Inv(st)
    ensures Inv(InterruptAt(st, x))
  {
    hide Inv, Interrupt, Moves;
    if x in st.jobs {
      ShapeOf(st, x);
      InterruptMoves(x, st.jobs[x]);
      MoveKeeps(st, x, Interrupt(st.jobs[x]));
    }
  }

  lemma ShapeOf(st: State, x: Id)
    requires Inv(st) && x in st.jobs
    ensures Shape(x, st.jobs[x]) && JobInv(st, x, st.jobs[x])
  {
  }

  lemma StopKeeps(st: State, d: Id)
    requires Inv(st) && d in st.deliveries
    ensures Inv(Stop(st, d))
  {
    hide Inv, InterruptAt;
    var v := st.deliveries[d];
    var s := st.(deliveries := st.deliveries[d := v.(active := false)]);
    DeliveryKeeps(st, d, v.(active := false));
    InterruptKeeps(s, v.build);
    InterruptKeeps(InterruptAt(s, v.build), v.publication);
  }

  lemma RecoverKeeps(st: State, x: Id, now: nat)
    requires Inv(st) && x in st.jobs
    ensures Inv(Set(st, x, Recover(st.jobs[x], now)))
  {
    hide Inv, Recover, Moves;
    ShapeOf(st, x);
    RecoverMoves(x, st.jobs[x], now);
    MoveKeeps(st, x, Recover(st.jobs[x], now));
  }

  // ----- new jobs -----

  lemma NoArtifactYet(st: State, x: Id)
    requires Inv(st) && x !in st.jobs
    ensures !HasArtifact(st.artifacts, x)
  {
    hide JobInv, Owns;
    forall k | 0 <= k < |st.artifacts| ensures !IsFor(st.artifacts[k], x) { assert ArtifactShape(st, st.artifacts[k]); }
  }

  /** A queued job is added, at most together with the link of its delivery to it. */
  lemma NewJobKeeps(st: State, x: Id, j: Job, deliveries: map<Id, Delivery>)
    requires Inv(st) && FreshJob(st, x) && Shape(x, j) && j.status.Queued?
    requires var later := st.(deliveries := deliveries, jobs := st.jobs[x := j]);
             && (forall d :: d in st.deliveries ==> d in deliveries && SameOwner(st.deliveries[d], deliveries[d]))
             && (forall d :: d in deliveries ==> Owns(later, d, deliveries[d]))
             && Linked(later, x, j) && (j.capability.Publish? ==> ProvenBy(later, j))
    ensures Inv(st.(deliveries := deliveries, jobs := st.jobs[x := j]))
  {
    hide Shape, Proves, OneArtifact;
    var later := st.(deliveries := deliveries, jobs := st.jobs[x := j]);
    NoArtifactYet(st, x);
    forall y | y in later.jobs ensures JobInv(later, y, later.jobs[y]) {
      if y != x {
        assert JobInv(st, y, st.jobs[y]);
        if later.jobs[y].capability.Publish? { ProvenStays(st, later, later.jobs[y]); }
      }
    }
    forall i | 0 <= i < |st.artifacts| ensures ArtifactShape(later, st.artifacts[i]) { assert ArtifactShape(st, st.artifacts[i]); }
  }

  lemma QueueBuildKeeps(st: State, d: Id, t: Tick)
    requires Inv(st) && d in st.deliveries && FreshJob(st, t.job) && st.deliveries[d].build == NO_ID
    ensures var v := st.deliveries[d];
            Inv(Set(st.(deliveries := st.deliveries[d := v.(build := t.job)]), t.job, NewJob(v, d, t, Build, None)))
  {
    hide JobInv;
    var v := st.deliveries[d];
    var j := NewJob(v, d, t, Build, None);
    var deliveries := st.deliveries[d := v.(build := t.job)];
    var later := st.(deliveries := deliveries, jobs := st.jobs[t.job := j]);
    assert Owns(st, d, v);
    if v.publication != NO_ID { PublicationHasBuild(st, d); }
    forall e | e in deliveries ensures Owns(later, e, deliveries[e]) {
      assert Owns(st, e, st.deliveries[e]);
    }
    NewJobKeeps(st, t.job, j, deliveries);
    assert later == Set(st.(deliveries := deliveries), t.job, j);
  }

  /** A publication is only ever linked after its build. */
  lemma PublicationHasBuild(st: State, d: Id)
    requires Inv(st) && d in st.deliveries && st.deliveries[d].publication != NO_ID
    ensures st.deliveries[d].build != NO_ID
  {
    var v := st.deliveries[d];
    assert Owns(st, d, v);
    ShapeOf(st, v.publication);
    ShapeOf(st, v.build);
  }

  lemma QueuePublicationKeeps(st: State, d: Id, t: Tick, receipt: Receipt)
    requires Inv(st) && d in st.deliveries && FreshJob(st, t.job) && st.deliveries[d].publication == NO_ID
    requires t.target.component == st.deliveries[d].app && t.target.image == st.deliveries[d].image
    requires var b := st.deliveries[d].build;
             b != NO_ID && b in st.jobs && st.jobs[b].status.Succeeded? && AcceptedReceipt(st.jobs[b]) == Some(receipt)
    ensures var v := st.deliveries[d];
            Inv(Set(st.(deliveries := st.deliveries[d := v.(publication := t.job)]), t.job,
                    NewJob(v, d, t, Publish, Some(Publication(t.target, receipt)))))
  {
    var v := st.deliveries[d];
    var j := NewJob(v, d, t, Publish, Some(Publication(t.target, receipt)));
    var deliveries := st.deliveries[d := v.(publication := t.job)];
    var later := st.(deliveries := deliveries, jobs := st.jobs[t.job := j]);
    ShapeOf(st, v.build);
    assert Owns(st, d, v);
    assert Origin(st, v.build, st.jobs[v.build]);
    hide JobInv, Admitted, Proves;
    forall e | e in deliveries ensures Owns(later, e, deliveries[e]) { assert Owns(st, e, st.deliveries[e]); }
    NewJobKeeps(st, t.job, j, deliveries);
    assert later == Set(st.(deliveries := deliveries), t.job, j);
  }

  lemma TickPublicationKeeps(st: State, d: Id, t: Tick, receipt: Receipt)
    requires Inv(st) && d in st.deliveries && FreshJob(st, t.job)
    requires t.target.component == st.deliveries[d].app && t.target.image == st.deliveries[d].image
    requires var b := st.deliveries[d].build;
             b != NO_ID && b in st.jobs && st.jobs[b].status.Succeeded? && AcceptedReceipt(st.jobs[b]) == Some(receipt)
    ensures Inv(TickPublication(st, d, t, receipt))
  {
    hide Inv, Recover, Stop, Validated, ArtifactFor;
    var v := st.deliveries[d];
    if v.publication == NO_ID {
      if receipt.archive > t.maxBytes { StopKeeps(st, d); } else { QueuePublicationKeeps(st, d, t, receipt); }
    } else if v.publication in st.jobs {
      var s := Set(st, v.publication, Recover(st.jobs[v.publication], t.now));
      RecoverKeeps(st, v.publication, t.now);
      StopKeeps(s, d);
      var a := ArtifactFor(st.artifacts, v.publication);
      if a.Some? {
        DeliveryKeeps(s, d, v.(existing := Validated(s, a.value.id, v.product, v.app, v.repo, v.sha, v.image)));
      }
    }
  }

  lemma TickKeeps(st: State, d: Id, t: Tick)
    requires Inv(st) && Allowed(st, Turn(d, t))
    ensures Inv(TickDelivery(st, d, t))
  {
    hide Inv, Recover, Stop, TickPublication;
    var v := st.deliveries[d];
    StopKeeps(st, d);
    if v.build == NO_ID {
      QueueBuildKeeps(st, d, t);
    } else if v.build in st.jobs {
      var b := Recover(st.jobs[v.build], t.now);
      var s := Set(st, v.build, b);
      RecoverKeeps(st, v.build, t.now);
      StopKeeps(s, d);
      if t.allowed && b.status.Succeeded? && AcceptedReceipt(b).Some? {
        TickPublicationKeeps(s, d, t, AcceptedReceipt(b).value);
      }
    }
  }

  // ----- admission -----

  /** A publication succeeds together with its only artifact. */
  lemma AdmitKeeps(st: State, x: Id, k: Job, artifact: Id, o: Observation, c: Option<Reconciliation>)
    requires Inv(st) && x in st.jobs && FreshArtifact(st, artifact) && ReadBack(st, x, o)
    requires var j := st.jobs[x];
             && j.capability.Publish? && !j.status.Succeeded? && j.product !in st.quarantined
             && k.product == j.product && k.operation == j.operation && k.capability == j.capability && k.inputs == j.inputs
             && k.status.Succeeded? && Shape(x, k)
    requires k.inputs.publication.Some? && k.attempts != [] && Proves(NativeArtifact(x, k, artifact, o, c), x, k)
    ensures !HasArtifact(st.artifacts, x)
    ensures Inv(st.(jobs := st.jobs[x := k], artifacts := st.artifacts + [NativeArtifact(x, k, artifact, o, c)]))
  {
    hide Shape, Proves;
    var a := NativeArtifact(x, k, artifact, o, c);
    var later := st.(jobs := st.jobs[x := k], artifacts := st.artifacts + [a]);
    ShapeOf(st, x);
    forall i | 0 <= i < |st.artifacts| ensures !IsFor(st.artifacts[i], x) {}
    assert later.artifacts[|st.artifacts|] == a && IsFor(a, x);
    assert OnlyArtifact(later.artifacts, x, |st.artifacts|);
    forall y | y in later.jobs ensures JobInv(later, y, later.jobs[y]) {
      assert JobInv(st, y, st.jobs[y]);
      if later.jobs[y].capability.Publish? { ProvenStays(st, later, later.jobs[y]); }
      if y != x { OtherAdmission(st, y, st.jobs[y], a); }
    }
    forall d | d in later.deliveries ensures Owns(later, d, later.deliveries[d]) { assert Owns(st, d, st.deliveries[d]); }
    forall i | 0 <= i < |later.artifacts| ensures ArtifactShape(later, later.artifacts[i]) {
      if i < |st.artifacts| { assert ArtifactShape(st, st.artifacts[i]); }
    }
  }

  /** An artifact of another job, or of none, does not touch a job's admission. */
  lemma OtherAdmission(st: State, y: Id, j: Job, a: Artifact)
    requires Admitted(st, y, j) && !IsFor(a, y)
    ensures forall later: State :: later.artifacts == st.artifacts + [a] && later.quarantined == st.quarantined ==> Admitted(later, y, j)
  {
    hide Proves;
    var more := st.artifacts + [a];
    assert forall k :: 0 <= k < |st.artifacts| ==> more[k] == st.artifacts[k];
    assert more[|st.artifacts|] == a;
    if j.capability.Publish? && j.status.Succeeded? {
      var i: nat :| OnlyArtifact(st.artifacts, y, i);
      assert OnlyArtifact(more, y, i);
    }
  }

  lemma ObservedKeeps(st: State, a: Artifact)
    requires Inv(st) && FreshArtifact(st, a.id) && a.native.None? && !a.provenance.NativeWorker?
    ensures Inv(st.(artifacts := st.artifacts + [a]))
  {
    hide Shape, Proves;
    var later := st.(artifacts := st.artifacts + [a]);
    forall y | y in later.jobs ensures JobInv(later, y, later.jobs[y]) {
      assert JobInv(st, y, st.jobs[y]);
      OtherAdmission(st, y, st.jobs[y], a);
      assert later.artifacts == st.artifacts + [a] && later.quarantined == st.quarantined;
      if later.jobs[y].capability.Publish? { ProvenStays(st, later, later.jobs[y]); }
    }
    forall d | d in later.deliveries ensures Owns(later, d, later.deliveries[d]) { assert Owns(st, d, st.deliveries[d]); }
    forall i | 0 <= i < |later.artifacts| ensures ArtifactShape(later, later.artifacts[i]) {
      if i < |st.artifacts| { assert ArtifactShape(st, st.artifacts[i]); }
    }
  }

  lemma PublishedKeeps(st: State, x: Id, fence: nat, attempt: Id, report: Report, now: nat, current: bool, artifact: Id, o: Observation)
    requires Inv(st) && FreshArtifact(st, artifact) && ReadBack(st, x, o)
    ensures Inv(ReportPublication(st, x, fence, attempt, report, now, current, artifact, o))
  {
    hide Inv, ProvenBy, Origin;
    var later := ReportPublication(st, x, fence, attempt, report, now, current, artifact, o);
    if later != st {
      var j := st.jobs[x];
      ShapeOf(st, x);
      var done := Settled(j, Succeeded, Succeeded);
      var k := WithLast(done, Last(done).(report := Some(report)));
      AdmitKeeps(st, x, k, artifact, o, None);
      assert later == st.(jobs := st.jobs[x := k], artifacts := st.artifacts + [NativeArtifact(x, k, artifact, o, None)]);
    }
  }

  lemma ReconciledKeeps(st: State, x: Id, fence: nat, now: nat, current: bool, actor: Id, artifact: Id, o: Observation)
    requires Inv(st) && FreshArtifact(st, artifact) && ReadBack(st, x, o) && actor != NO_ID && now != 0
    ensures Inv(ReconcilePublication(st, x, fence, now, current, actor, artifact, o))
  {
    hide Inv, ProvenBy, Origin;
    var later := ReconcilePublication(st, x, fence, now, current, actor, artifact, o);
    if later != st {
      var j := st.jobs[x];
      ShapeOf(st, x);
      var c := Some(Reconciliation(actor, now));
      var k := j.(status := Succeeded);
      assert NativeArtifact(x, k, artifact, o, c) == NativeArtifact(x, j, artifact, o, c);
      AdmitKeeps(st, x, k, artifact, o, c);
      assert later == st.(jobs := st.jobs[x := k], artifacts := st.artifacts + [NativeArtifact(x, k, artifact, o, c)]);
    }
  }

  // ----- every step -----

  lemma NewDeliveryKeeps(st: State, d: Id, v: Delivery)
    requires Inv(st) && Allowed(st, NewDelivery(d, v))
    ensures Inv(st.(deliveries := st.deliveries[d := v]))
  {
    hide Shape, Proves, OneArtifact;
    var later := st.(deliveries := st.deliveries[d := v]);
    forall y | y in later.jobs ensures JobInv(later, y, later.jobs[y]) {
      assert JobInv(st, y, st.jobs[y]);
      if later.jobs[y].capability.Publish? { ProvenStays(st, later, later.jobs[y]); }
    }
    forall e | e in later.deliveries ensures Owns(later, e, later.deliveries[e]) { if e != d { assert Owns(st, e, st.deliveries[e]); } }
    forall i | 0 <= i < |st.artifacts| ensures ArtifactShape(later, st.artifacts[i]) { assert ArtifactShape(st, st.artifacts[i]); }
  }

  lemma NewWorkKeeps(st: State, x: Id, j: Job)
    requires Inv(st) && FreshJob(st, x) && QueuedWork(j) && (j.capability.Publish? <==> j.inputs.publication.Some?)
    requires j.capability.Publish? ==> ProvenBy(st, j)
    ensures Inv(Set(st, x, j))
  {
    hide JobInv;
    var later := Set(st, x, j);
    forall d | d in st.deliveries ensures Owns(later, d, st.deliveries[d]) { assert Owns(st, d, st.deliveries[d]); }
    if j.capability.Publish? { ProvenStays(st, later, j); }
    NewJobKeeps(st, x, j, st.deliveries);
  }

  lemma TakeKeeps(st: State, x: Id, now: nat, quarantined: bool, current: bool, ready: bool, lease: nat, attempt: Id)
    requires Inv(st) && x in st.jobs
    ensures Inv(Set(st, x, Claim(st.jobs[x], now, quarantined, current, ready, lease, attempt)))
  {
    hide Inv, Claim, Moves;
    ShapeOf(st, x);
    ClaimMoves(x, st.jobs[x], now, quarantined, current, ready, lease, attempt);
    MoveKeeps(st, x, Claim(st.jobs[x], now, quarantined, current, ready, lease, attempt));
  }

  lemma CallKeeps(st: State, x: Id, call: WorkerCall, fence: nat, attempt: Id, now: nat, quarantined: bool, current: bool, valid: bool)
    requires Inv(st) && x in st.jobs
    ensures var r := Act(x, st.jobs[x], call, fence, attempt, now, quarantined, current, valid); r.Some? ==> Inv(Set(st, x, r.value))
  {
    hide Inv, Act, Moves;
    ShapeOf(st, x);
    ActMoves(x, st.jobs[x], call, fence, attempt, now, quarantined, current, valid);
    var r := Act(x, st.jobs[x], call, fence, attempt, now, quarantined, current, valid);
    if r.Some? { MoveKeeps(st, x, r.value); }
  }

  lemma SettleKeeps(st: State, x: Id, outcome: Status)
    requires Inv(st) && x in st.jobs && st.jobs[x].status.ReconciliationRequired? && (outcome.Failed? || outcome.Cancelled?)
    ensures Inv(Set(st, x, Settled(st.jobs[x], outcome, outcome)))
  {
    hide Inv, Moves;
    ShapeOf(st, x);
    SettleMoves(x, st.jobs[x], outcome);
    MoveKeeps(st, x, Settled(st.jobs[x], outcome, outcome));
  }

  lemma StepKeeps(st: State, s: Step)
    requires Inv(st) && Allowed(st, s)
    ensures Inv(Apply(st, s))
  {
    hide Inv, TickDelivery, Claim, Act, Recover, ReportPublication, ReconcilePublication, Interrupt, Settled, Stop;
    match s
    case NewDelivery(d, v) => NewDeliveryKeeps(st, d, v);
    case NewWork(x, j) => NewWorkKeeps(st, x, j);
    case NewPublication(x, j) => NewWorkKeeps(st, x, j);
    case Observed(a) => ObservedKeeps(st, a);
    case Turn(d, t) => TickKeeps(st, d, t);
    case Take(x, now, current, ready, lease, attempt) =>
      if x in st.jobs { TakeKeeps(st, x, now, st.jobs[x].product in st.quarantined, current, ready, lease, attempt); }
    case Call(x, call, fence, attempt, now, current, valid) =>
      if x in st.jobs { CallKeeps(st, x, call, fence, attempt, now, st.jobs[x].product in st.quarantined, current, valid); }
    case Expire(x, now) => if x in st.jobs { RecoverKeeps(st, x, now); }
    case Published(x, fence, attempt, report, now, current, artifact, o) =>
      PublishedKeeps(st, x, fence, attempt, report, now, current, artifact, o);
    case Reconciled(x, fence, now, current, actor, artifact, o) => ReconciledKeeps(st, x, fence, now, current, actor, artifact, o);
    case CancelJob(x) =>
      if x in st.jobs {
        InterruptKeeps(st, x);
        if st.jobs[x].inputs.delivery in st.deliveries { StopKeeps(st, st.jobs[x].inputs.delivery); }
      }
    case SettleJob(x, outcome) =>
      if x in st.jobs && st.jobs[x].status.ReconciliationRequired? { SettleKeeps(st, x, outcome); }
    case Abandon(d) => StopKeeps(st, d);
  }
}
