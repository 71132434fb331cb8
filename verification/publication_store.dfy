/** The publication transactions as they update the store. */
module PublicationStore {
  import opened Ids
  import opened PublicationModel
  import opened PublicationSafety

  class DeliveryStore {
    var jobs: map<Id, Job>
    var deliveries: map<Id, Delivery>
    var artifacts: seq<Artifact>
    const runs: seq<BuildRun>
    const quarantined: set<Id>

    function Contents(): State
      reads this
    {
      State(jobs, deliveries, artifacts, runs, quarantined)
    }

    constructor (runs: seq<BuildRun>, quarantined: set<Id>)
      ensures Contents() == State(map[], map[], [], runs, quarantined)
    {
      jobs, deliveries, artifacts := map[], map[], [];
      this.runs, this.quarantined := runs, quarantined;
    }

    // ----- reading -----

    method FindFor(x: Id) returns (found: Option<Artifact>)
      ensures found == ArtifactFor(artifacts, x)
    {
      var i := 0;
      while i < |artifacts|
        invariant i <= |artifacts| && ArtifactFor(artifacts[..i], x).None?
      {
        assert artifacts[..i + 1][..i] == artifacts[..i];
        if artifacts[i].native.Some? && artifacts[i].native.value.job == x {
          ArtifactForPrefix(artifacts, x, i + 1);
          return Some(artifacts[i]);
        }
        i := i + 1;
      }
      assert artifacts[..i] == artifacts;
      return None;
    }

    method ObservedRun(a: Artifact, product: Id, app: Id, sha: Id, image: Id) returns (found: bool)
      ensures found <==> exists k :: 0 <= k < |runs| && ObservedBy(runs[k], a, product, app, sha, image)
    {
      var i := 0;
      while i < |runs|
        invariant i <= |runs| && forall k :: 0 <= k < i ==> !ObservedBy(runs[k], a, product, app, sha, image)
      {
        if ObservedBy(runs[i], a, product, app, sha, image) { return true; }
        i := i + 1;
      }
      return false;
    }

    /** The search for one artifact, and whether it proves exactly what the caller names. */
    method ValidatedExistingArtifact(id: Id, product: Id, app: Id, repo: Id, sha: Id, image: Id) returns (known: Option<Artifact>)
      ensures known == Validated(Contents(), id, product, app, repo, sha, image)
    {
      var i := 0;
      while i < |artifacts|
        invariant i <= |artifacts| && FirstArtifact(artifacts[..i], id).None?
      {
        assert artifacts[..i + 1][..i] == artifacts[..i];
        var a := artifacts[i];
        if a.id == id {
          FirstPrefix(artifacts, id, i + 1);
          if sha == NO_ID || a.product != product || a.app != app || a.repo != repo || a.sha != sha || a.image != image || !a.present {
            return None;
          }
          if a.provenance.NativeWorker? {
            return if NativeOk(Contents(), a, product, app, repo, sha) then Some(a) else None;
          }
          if a.native.Some? || !(a.provenance.Unset? || a.provenance.Actions?) || a.run <= 0 { return None; }
          var matched := ObservedRun(a, product, app, sha, image);
          return if matched then Some(a) else None;
        }
        i := i + 1;
      }
      assert artifacts[..i] == artifacts;
      return None;
    }

    // ----- writing -----

    method StopJob(x: Id)
      modifies this`jobs
      ensures Contents() == InterruptAt(old(Contents()), x)
    {
      if x !in jobs || Terminal(jobs[x].status) {
        if x in jobs { assert jobs[x := jobs[x]] == jobs; }
        return;
      }
      var j := jobs[x].(cancelled := true);
      j := j.(status := if j.status.Running? || j.status.ReconciliationRequired? then ReconciliationRequired else Cancelled);
      if j.attempts != [] { j := WithLast(j, Last(j).(status := j.status)); }
      jobs := jobs[x := j];
    }

    method StopNativeDelivery(d: Id)
      requires d in deliveries
      modifies this`jobs, this`deliveries
      ensures Contents() == Stop(old(Contents()), d)
    {
      var v := deliveries[d];
      deliveries := deliveries[d := v.(active := false)];
      StopJob(v.build);
      StopJob(v.publication);
    }

    method RecoverJob(x: Id, now: nat)
      requires x in jobs
      modifies this`jobs
      ensures Contents() == Set(old(Contents()), x, Recover(old(jobs[x]), now))
    {
      var j := jobs[x];
      if Terminal(j.status) || j.status.ReconciliationRequired? {
        assert jobs[x := j] == jobs;
        return;
      }
      var expired := (j.status.Claimed? || j.status.Running?) && j.attempts != [] && now >= Last(j).leaseUntil;
      if now < j.deadline && !expired {
        assert jobs[x := j] == jobs;
        return;
      }
      match j.status {
        case Running => j := j.(status := ReconciliationRequired);
        case Claimed => j := j.(status := if now < j.deadline && |j.attempts| < j.maxAttempts then Queued else Failed);
        case Queued => j := j.(status := DeadlineExceeded);
        case _ =>
      }
      if j.attempts != [] { j := WithLast(j, Last(j).(status := Expired)); }
      jobs := jobs[x := j];
    }

    /** Appends the artifact unless one is already admitted for the job. */
    method AdmitNative(x: Id, j: Job, artifact: Id, o: Observation, reconciliation: Option<Reconciliation>)
      requires j.inputs.publication.Some? && j.attempts != []
      modifies this`artifacts
      ensures Contents() == Admit(old(Contents()), x, j, artifact, o, reconciliation)
    {
      var i := 0;
      while i < |artifacts|
        invariant i <= |artifacts| && forall k :: 0 <= k < i ==> !IsFor(artifacts[k], x)
      {
        if IsFor(artifacts[i], x) {
          assert HasArtifact(artifacts, x);
          return;
        }
        i := i + 1;
      }
      artifacts := artifacts + [NativeArtifact(x, j, artifact, o, reconciliation)];
    }

    /** The second transaction of a worker's publication report. */
    method Report(x: Id, fence: nat, attempt: Id, report: PublicationModel.Report, now: nat, current: bool, artifact: Id, o: Observation)
      modifies this`jobs, this`artifacts
      ensures Contents() == ReportPublication(old(Contents()), x, fence, attempt, report, now, current, artifact, o)
    {
      if x !in jobs || jobs[x].attempts == [] { return; }
      var j := jobs[x];
      var a := Last(j);
      if fence != |j.attempts| || attempt != a.id || !Eligible(Contents(), x, j, current) { return; }
      if !report.verdict.Passed? || report.receipt.Some? || report.published != Some(j.inputs.publication.value.receipt.manifest) { return; }
      if a.report.Some? || !j.status.Running? || !a.status.Running? || now >= a.leaseUntil || now >= j.deadline { return; }
      j := WithLast(j.(status := Succeeded), a.(report := Some(report), status := Succeeded));
      assert j == (var done := Settled(jobs[x], Succeeded, Succeeded); WithLast(done, Last(done).(report := Some(report)))) by {
        assert j.attempts == WithLast(Settled(jobs[x], Succeeded, Succeeded), Last(j)).attempts;
      }
      jobs := jobs[x := j];
      AdmitNative(x, j, artifact, o, None);
    }

    /** The second transaction of an operator's reconciliation; `fence` is the one frozen by the first. */
    method Reconcile(x: Id, fence: nat, now: nat, current: bool, actor: Id, artifact: Id, o: Observation)
      modifies this`jobs, this`artifacts
      ensures Contents() == ReconcilePublication(old(Contents()), x, fence, now, current, actor, artifact, o)
    {
      if x !in jobs || jobs[x].attempts == [] { return; }
      var j := jobs[x];
      var a := Last(j);
      if fence != |j.attempts| || !Eligible(Contents(), x, j, current) { return; }
      if !j.status.ReconciliationRequired? || !a.status.Expired? || a.report.Some? || now >= j.deadline { return; }
      AdmitNative(x, j, artifact, o, Some(Reconciliation(actor, now)));
      jobs := jobs[x := j.(status := Succeeded)];
    }

    /** One turn of a managed delivery. */
    method TickNativeDelivery(d: Id, t: Tick)
      requires Inv(Contents()) && Allowed(Contents(), Turn(d, t))
      modifies this
      ensures Contents() == TickDelivery(old(Contents()), d, t) && Inv(Contents())
    {
      TickKeeps(Contents(), d, t);
      hide Inv, Stop, Recover, Validated, ArtifactFor;
      var v := deliveries[d];
      if !v.active || v.existing.Some? { return; }
      if !t.allowed {
        StopNativeDelivery(d);
      } else if v.build == NO_ID {
        jobs := jobs[t.job := NewJob(v, d, t, Build, None)];
        deliveries := deliveries[d := v.(build := t.job)];
      } else if v.build in jobs {
        RecoverJob(v.build, t.now);
        var b := jobs[v.build];
        if b.status.Succeeded? {
          if !t.checkPassed {
            if t.checkEnded { StopNativeDelivery(d); }
          } else if AcceptedReceipt(b).None? {
            StopNativeDelivery(d);
          } else {
            Publication(d, t, AcceptedReceipt(b).value);
          }
        } else if Terminal(b.status) {
          StopNativeDelivery(d);
        }
      }
    }

    method Publication(d: Id, t: Tick, receipt: Receipt)
      requires d in deliveries
      modifies this
      ensures Contents() == TickPublication(old(Contents()), d, t, receipt)
    {
      hide Stop, Recover, Validated, ArtifactFor;
      var v := deliveries[d];
      if v.publication == NO_ID {
        if receipt.archive > t.maxBytes {
          StopNativeDelivery(d);
        } else {
          jobs := jobs[t.job := NewJob(v, d, t, Publish, Some(PublicationModel.Publication(t.target, receipt)))];
          deliveries := deliveries[d := v.(publication := t.job)];
        }
      } else if v.publication in jobs {
        RecoverJob(v.publication, t.now);
        var p := jobs[v.publication];
        if p.status.Succeeded? {
          var a := FindFor(v.publication);
          if a.Some? {
            var known := ValidatedExistingArtifact(a.value.id, v.product, v.app, v.repo, v.sha, v.image);
            if known.Some? { deliveries := deliveries[d := v.(existing := known)]; }
          }
        } else if Terminal(p.status) {
          StopNativeDelivery(d);
        }
      }
    }
  }

  lemma {:induction false} ArtifactForPrefix(artifacts: seq<Artifact>, x: Id, n: nat)
    requires n <= |artifacts| && ArtifactFor(artifacts[..n], x).Some?
    ensures ArtifactFor(artifacts, x) == ArtifactFor(artifacts[..n], x)
    decreases |artifacts|
  {
    if n < |artifacts| {
      assert artifacts[..|artifacts| - 1][..n] == artifacts[..n];
      ArtifactForPrefix(artifacts[..|artifacts| - 1], x, n);
    } else {
      assert artifacts[..n] == artifacts;
    }
  }

  lemma {:induction false} FirstPrefix(artifacts: seq<Artifact>, id: Id, n: nat)
    requires n <= |artifacts| && FirstArtifact(artifacts[..n], id).Some?
    ensures FirstArtifact(artifacts, id) == FirstArtifact(artifacts[..n], id)
    decreases |artifacts|
  {
    if n < |artifacts| {
      assert artifacts[..|artifacts| - 1][..n] == artifacts[..n];
      FirstPrefix(artifacts[..|artifacts| - 1], id, n);
    } else {
      assert artifacts[..n] == artifacts;
    }
  }
}
