/**
  Native builds and publications: worker jobs, their attempts, the deliveries that own them and
  the artifacts admitted for them. One step is one transaction of the store (or the part of one
  that concerns a single job).
 */
module PublicationModel {
  import opened Ids

  datatype Status = Queued | Claimed | Running | Succeeded | Failed | Cancelled | DeadlineExceeded
                  | ReconciliationRequired | Expired

  datatype Capability = Build | Publish | Other
  datatype Verdict = Passed | CheckFailed | ExecutorFailed

  /** What an accepted build hands to its publication; `content` stands for its remaining hashes. */
  datatype Receipt = Receipt(job: Id, attempt: Id, manifest: Id, platform: Id, archive: nat, content: Id)
  datatype Target = Target(component: Id, profile: Id, image: Id)
  datatype Publication = Publication(target: Target, receipt: Receipt)

  /** The immutable inputs of a job; `delivery` names the owner, `NO_ID` for none. */
  datatype Inputs = Inputs(sha: Id, repo: Id, delivery: Id, publication: Option<Publication>)

  datatype Report = Report(verdict: Verdict, receipt: Option<Receipt>, published: Option<Id>)

  /** The attempt of fence `n` is the job's attempt `n - 1`. */
  datatype Attempt = Attempt(id: Id, status: Status, leaseUntil: nat, report: Option<Report>)

  datatype Job = Job(product: Id, operation: Id, capability: Capability, inputs: Inputs, status: Status,
                     cancelled: bool, deadline: nat, maxAttempts: nat, attempts: seq<Attempt>)

  datatype Delivery = Delivery(product: Id, app: Id, repo: Id, sha: Id, image: Id, active: bool,
                               build: Id, publication: Id, existing: Option<Artifact>)

  datatype Observation = Observation(manifest: Id, platform: Id, at: nat)
  datatype Reconciliation = Reconciliation(actor: Id, at: nat)
  datatype Native = Native(job: Id, attempt: Id, inputs: Inputs, profile: Id, receipt: Receipt,
                           observation: Observation, reconciliation: Option<Reconciliation>)

  datatype Provenance = NativeWorker | Actions | Unset | Unknown
  datatype Artifact = Artifact(id: Id, product: Id, operation: Id, app: Id, repo: Id, sha: Id, image: Id, digest: Id,
                               present: bool, provenance: Provenance, run: int, tag: Id, request: Id, native: Option<Native>)

  /** An observed workflow run; `done` means completed with success. */
  datatype BuildRun = BuildRun(product: Id, app: Id, run: int, done: bool, request: Id, sha: Id, image: Id, digest: Id)

  datatype State = State(jobs: map<Id, Job>, deliveries: map<Id, Delivery>, artifacts: seq<Artifact>,
                         runs: seq<BuildRun>, quarantined: set<Id>)

  predicate Terminal(s: Status) {
    s.Succeeded? || s.Failed? || s.Cancelled? || s.DeadlineExceeded?
  }

  function Last(j: Job): Attempt
    requires j.attempts != []
  {
    j.attempts[|j.attempts| - 1]
  }

  function WithLast(j: Job, a: Attempt): Job
    requires j.attempts != []
  {
    j.(attempts := j.attempts[|j.attempts| - 1 := a])
  }

  function Settled(j: Job, status: Status, attemptStatus: Status): Job {
    var k := j.(status := status);
    if k.attempts == [] then k else WithLast(k, Last(k).(status := attemptStatus))
  }

  function Set(st: State, x: Id, j: Job): State {
    st.(jobs := st.jobs[x := j])
  }

  // ----- one job -----

  /** Deadline and lease expiry: a running job may have acted, so it waits for an operator; others end or queue again. */
  function Recover(j: Job, now: nat): Job {
    if Terminal(j.status) || j.status.ReconciliationRequired? then j
    else
      var expired := (j.status.Claimed? || j.status.Running?) && j.attempts != [] && now >= Last(j).leaseUntil;
      if now < j.deadline && !expired then j
      else
        var status := match j.status
          case Running => ReconciliationRequired
          case Claimed => if now < j.deadline && |j.attempts| < j.maxAttempts then Queued else Failed
          case Queued => DeadlineExceeded
          case _ => j.status;
        Settled(j, status, Expired)
  }

  /** A worker asks for work. `current` says that configuration, owner and checks still allow the job, `ready` that it may start. */
  function Claim(j: Job, now: nat, quarantined: bool, current: bool, ready: bool, lease: nat, attempt: Id): Job {
    if j.capability != Other && quarantined then j
    else
      var r := Recover(j, now);
      if !r.status.Queued? then r
      else if !current then r.(status := ReconciliationRequired)
      else if !ready then r
      else if |r.attempts| >= r.maxAttempts then r.(status := Failed)
      else
        var until := if now + lease > r.deadline then r.deadline else now + lease;
        r.(status := Claimed, attempts := r.attempts + [Attempt(attempt, Claimed, until, None)])
  }

  /** The fenced part of every worker call: the job recovered, and whether the call may act on it. */
  predicate MayAct(j: Job, now: nat, current: bool) {
    current && j.attempts != [] && now < Last(j).leaseUntil && now < j.deadline && !j.cancelled
    && !Terminal(j.status) && !j.status.ReconciliationRequired?
  }

  datatype WorkerCall = Start | Heartbeat(lease: nat) | Finish(report: Report)

  /** What the report of a build must carry (`valid` stands for its remaining comparisons); other reports carry no receipt. */
  predicate ReceiptOk(x: Id, j: Job, r: Report, valid: bool) {
    && r.published.None?
    && if r.verdict.Passed? && j.capability.Build?
       then r.receipt.Some? && valid && r.receipt.value.job == x && j.attempts != [] && r.receipt.value.attempt == Last(j).id
       else r.receipt.None?
  }

  /** A worker call under the current fence; `None` when it is refused and nothing changes. */
  function Act(x: Id, j: Job, call: WorkerCall, fence: nat, attempt: Id, now: nat, quarantined: bool, current: bool, valid: bool)
    : Option<Job> {
    if j.attempts == [] || fence != |j.attempts| || attempt != Last(j).id || (j.capability != Other && quarantined) then None
    else if call.Finish? && Last(j).report.Some? then None
    else if call.Finish? && call.report.verdict.Passed? && j.capability.Publish? then None
    else
      var r := Recover(j, now);
      if !MayAct(r, now, current) then Some(r)
      else
        match call
        case Start =>
          if r.status.Running? && Last(r).status.Running? then Some(r)
          else if !r.status.Claimed? then None
          else Some(Settled(r, Running, Running))
        case Heartbeat(lease) =>
          if !r.status.Claimed? && !r.status.Running? then None
          else Some(WithLast(r, Last(r).(leaseUntil := if now + lease > r.deadline then r.deadline else now + lease)))
        case Finish(report) =>
          if !r.status.Running? || !ReceiptOk(x, r, report, valid) then None
          else
            var status := if report.verdict.Passed? then Succeeded else Failed;
            var done := Settled(r, status, status);
            Some(WithLast(done, Last(done).(report := Some(report))))
  }

  /** Stopping from outside: work that may be under way needs reconciliation, other work is cancelled. */
  function Interrupt(j: Job): Job {
    if Terminal(j.status) then j
    else
      var status := if j.status.Running? || j.status.ReconciliationRequired? then ReconciliationRequired else Cancelled;
      Settled(j.(cancelled := true), status, status)
  }

  // ----- deliveries -----

  function InterruptAt(st: State, x: Id): State {
    if x in st.jobs then Set(st, x, Interrupt(st.jobs[x])) else st
  }

  function Stop(st: State, d: Id): State
    requires d in st.deliveries
  {
    var v := st.deliveries[d];
    InterruptAt(InterruptAt(st.(deliveries := st.deliveries[d := v.(active := false)]), v.build), v.publication)
  }

  /** What the transaction learns outside the modelled state. */
  datatype Tick = Tick(now: nat, allowed: bool, checkPassed: bool, checkEnded: bool, deadline: nat, maxBytes: nat,
                       target: Target, job: Id, operation: Id)

  function NewJob(v: Delivery, d: Id, t: Tick, capability: Capability, publication: Option<Publication>): Job {
    Job(v.product, t.operation, capability, Inputs(v.sha, v.repo, d, publication), Queued, false, t.deadline, 1, [])
  }

  function AcceptedReceipt(j: Job): Option<Receipt> {
    if j.attempts != [] && Last(j).report.Some? then Last(j).report.value.receipt else None
  }

  /** The artifact that the delivery's look-up finds for a publication job. */
  function ArtifactFor(artifacts: seq<Artifact>, x: Id): Option<Artifact> {
    if |artifacts| == 0 then None
    else
      var n := |artifacts| - 1;
      var before := ArtifactFor(artifacts[..n], x);
      if before.None? && artifacts[n].native.Some? && artifacts[n].native.value.job == x then Some(artifacts[n]) else before
  }

  /** One turn of the delivery: queue the build, then the publication with its receipt, then take the admitted artifact. */
  function TickDelivery(st: State, d: Id, t: Tick): State
    requires d in st.deliveries
  {
    var v := st.deliveries[d];
    if !v.active || v.existing.Some? then st
    else if !t.allowed then Stop(st, d)
    else if v.build == NO_ID then
      Set(st.(deliveries := st.deliveries[d := v.(build := t.job)]), t.job, NewJob(v, d, t, Build, None))
    else if v.build !in st.jobs then st
    else
      var b := Recover(st.jobs[v.build], t.now);
      var s := Set(st, v.build, b);
      if b.status.Succeeded? then
        if !t.checkPassed then (if t.checkEnded then Stop(s, d) else s)
        else if AcceptedReceipt(b).None? then Stop(s, d)
        else TickPublication(s, d, t, AcceptedReceipt(b).value)
      else if Terminal(b.status) then Stop(s, d) else s
  }

  function TickPublication(st: State, d: Id, t: Tick, receipt: Receipt): State
    requires d in st.deliveries
  {
    var v := st.deliveries[d];
    if v.publication == NO_ID then
      if receipt.archive > t.maxBytes then Stop(st, d)
      else Set(st.(deliveries := st.deliveries[d := v.(publication := t.job)]), t.job,
               NewJob(v, d, t, Publish, Some(Publication(t.target, receipt))))
    else if v.publication !in st.jobs then st
    else
      var p := Recover(st.jobs[v.publication], t.now);
      var s := Set(st, v.publication, p);
      if p.status.Succeeded? then
        var a := ArtifactFor(st.artifacts, v.publication);
        if a.Some? && Validated(s, a.value.id, v.product, v.app, v.repo, v.sha, v.image).Some?
        then s.(deliveries := s.deliveries[d := v.(existing := Validated(s, a.value.id, v.product, v.app, v.repo, v.sha, v.image))])
        else s
      else if Terminal(p.status) then Stop(s, d) else s
  }

  // ----- publication -----

  /** The job still belongs to its delivery, if it has one. */
  predicate Origin(st: State, x: Id, j: Job) {
    j.inputs.delivery == NO_ID ||
    (&& j.inputs.delivery in st.deliveries
     && var v := st.deliveries[j.inputs.delivery];
     && j.product == v.product && j.inputs.sha == v.sha && j.inputs.repo == v.repo
     && ((j.capability.Build? && v.build == x) || (j.capability.Publish? && v.publication == x)))
  }

  /** The receipt is the one of a successful build of the same product and source. */
  predicate ProvenBy(st: State, j: Job) {
    && j.inputs.publication.Some?
    && var r := j.inputs.publication.value.receipt;
    && r.job in st.jobs
    && var b := st.jobs[r.job];
    && b.product == j.product && b.inputs.sha == j.inputs.sha && b.inputs.repo == j.inputs.repo && b.status.Succeeded?
    && b.attempts != [] && Last(b).id == r.attempt && Last(b).status.Succeeded? && AcceptedReceipt(b) == Some(r)
    && Origin(st, r.job, b)
  }

  /** `current` stands for configuration, recipe and owner checks. */
  predicate Eligible(st: State, x: Id, j: Job, current: bool) {
    j.capability.Publish? && j.product !in st.quarantined && current && !j.cancelled && Origin(st, x, j) && ProvenBy(st, j)
  }

  predicate HasArtifact(artifacts: seq<Artifact>, x: Id) {
    exists k :: 0 <= k < |artifacts| && artifacts[k].native.Some? && artifacts[k].native.value.job == x
  }

  function NativeArtifact(x: Id, j: Job, artifact: Id, o: Observation, reconciliation: Option<Reconciliation>): Artifact
    requires j.inputs.publication.Some? && j.attempts != []
  {
    var p := j.inputs.publication.value;
    Artifact(artifact, j.product, j.operation, p.target.component, j.inputs.repo, j.inputs.sha, p.target.image, p.receipt.manifest,
             true, NativeWorker, 0, NO_ID, NO_ID,
             Some(Native(x, Last(j).id, j.inputs, p.target.profile, p.receipt, o, reconciliation)))
  }

  function Admit(st: State, x: Id, j: Job, artifact: Id, o: Observation, reconciliation: Option<Reconciliation>): State
    requires j.inputs.publication.Some? && j.attempts != []
  {
    if HasArtifact(st.artifacts, x) then st
    else st.(artifacts := st.artifacts + [NativeArtifact(x, j, artifact, o, reconciliation)])
  }

  /** A worker reports a published image whose bytes have been read back as `o`. */
  function ReportPublication(st: State, x: Id, fence: nat, attempt: Id, report: Report, now: nat, current: bool,
                             artifact: Id, o: Observation): State {
    if x !in st.jobs then st
    else
      var j := st.jobs[x];
      if j.attempts == [] || fence != |j.attempts| || attempt != Last(j).id || !Eligible(st, x, j, current) then st
      else if !report.verdict.Passed? || report.receipt.Some? || report.published != Some(j.inputs.publication.value.receipt.manifest) then st
      else if Last(j).report.Some? || !j.status.Running? || !Last(j).status.Running? || now >= Last(j).leaseUntil || now >= j.deadline then st
      else
        var done := Settled(j, Succeeded, Succeeded);
        var k := WithLast(done, Last(done).(report := Some(report)));
        Admit(Set(st, x, k), x, k, artifact, o, None)
  }

  /** An operator reconciles an expired publication whose bytes have been read back as `o`. */
  function ReconcilePublication(st: State, x: Id, fence: nat, now: nat, current: bool, actor: Id, artifact: Id, o: Observation): State {
    if x !in st.jobs then st
    else
      var j := st.jobs[x];
      if j.attempts == [] || fence != |j.attempts| || !Eligible(st, x, j, current) then st
      else if !j.status.ReconciliationRequired? || !Last(j).status.Expired? || Last(j).report.Some? || now >= j.deadline then st
      else Set(Admit(st, x, j, artifact, o, Some(Reconciliation(actor, now))), x, j.(status := Succeeded))
  }

  // ----- what admission must satisfy -----

  predicate NativeOk(st: State, a: Artifact, product: Id, app: Id, repo: Id, sha: Id) {
    && product !in st.quarantined && a.native.Some? && a.run == 0 && a.tag == NO_ID && a.request == NO_ID
    && var n := a.native.value;
    && n.job in st.jobs
    && var j := st.jobs[n.job];
    && j.status.Succeeded? && j.capability.Publish? && a.operation == j.operation && j.product == product && j.inputs == n.inputs
    && j.attempts != [] && Last(j).id == n.attempt
    && j.inputs.publication.Some? && j.inputs.sha == sha && j.inputs.repo == repo
    && var p := j.inputs.publication.value;
    && p.target.component == app && p.target.profile == n.profile && p.receipt == n.receipt
    && n.receipt.manifest == a.digest && n.observation.manifest == a.digest
    && n.observation.platform == n.receipt.platform && n.observation.at != 0
    && Origin(st, n.job, j)
    && match n.reconciliation
       case Some(r) => Last(j).status.Expired? && Last(j).report.None? && r.actor != NO_ID && r.at != 0
       case None => Last(j).status.Succeeded? && Last(j).report.Some? && Last(j).report.value.verdict.Passed?
                    && Last(j).report.value.published == Some(a.digest)
  }

  predicate ObservedBy(b: BuildRun, a: Artifact, product: Id, app: Id, sha: Id, image: Id) {
    b.product == product && b.app == app && b.run == a.run && b.done && b.request == a.request && b.sha == sha
    && b.image == image && b.digest == a.digest
  }

  predicate WorkflowOk(st: State, a: Artifact, product: Id, app: Id, sha: Id, image: Id) {
    && a.native.None? && (a.provenance.Unset? || a.provenance.Actions?) && a.run > 0
    && exists k :: 0 <= k < |st.runs| && ObservedBy(st.runs[k], a, product, app, sha, image)
  }

  function FirstArtifact(artifacts: seq<Artifact>, id: Id): Option<Artifact> {
    if |artifacts| == 0 then None
    else
      var before := FirstArtifact(artifacts[..|artifacts| - 1], id);
      if before.None? && artifacts[|artifacts| - 1].id == id then Some(artifacts[|artifacts| - 1]) else before
  }

  /** The artifact of that identity, if it proves exactly this product, component, repository, revision and image. */
  function Validated(st: State, id: Id, product: Id, app: Id, repo: Id, sha: Id, image: Id): Option<Artifact> {
    var found := FirstArtifact(st.artifacts, id);
    if found.None? then None
    else
      var a := found.value;
      if sha == NO_ID || a.product != product || a.app != app || a.repo != repo || a.sha != sha || a.image != image || !a.present then None
      else if a.provenance.NativeWorker? then (if NativeOk(st, a, product, app, repo, sha) then found else None)
      else if WorkflowOk(st, a, product, app, sha, image) then found else None
  }

  // ----- steps -----

  datatype Step =
    | NewDelivery(d: Id, delivery: Delivery)
    | NewWork(x: Id, job: Job)
    | NewPublication(x: Id, job: Job)
    | Observed(record: Artifact)
    | Turn(d: Id, tick: Tick)
    | Take(x: Id, now: nat, current: bool, ready: bool, lease: nat, attempt: Id)
    | Call(x: Id, call: WorkerCall, fence: nat, attempt: Id, now: nat, current: bool, valid: bool)
    | Expire(x: Id, now: nat)
    | Published(x: Id, fence: nat, attempt: Id, report: Report, now: nat, current: bool, artifact: Id, seen: Observation)
    | Reconciled(x: Id, fence: nat, now: nat, current: bool, actor: Id, artifact: Id, seen: Observation)
    | CancelJob(x: Id)
    | SettleJob(x: Id, outcome: Status)
    | Abandon(d: Id)

  predicate FreshJob(st: State, x: Id) {
    x != NO_ID && x !in st.jobs
  }

  predicate FreshArtifact(st: State, id: Id) {
    id != NO_ID && forall k :: 0 <= k < |st.artifacts| ==> st.artifacts[k].id != id
  }

  /** The registry read-back returns the requested manifest and platform, at a time. */
  predicate ReadBack(st: State, x: Id, o: Observation) {
    x in st.jobs && st.jobs[x].inputs.publication.Some? ==>
      var r := st.jobs[x].inputs.publication.value.receipt;
      o.manifest == r.manifest && o.platform == r.platform && o.at != 0
  }

  predicate QueuedWork(j: Job) {
    j.status.Queued? && !j.cancelled && j.attempts == [] && j.inputs.delivery == NO_ID && j.inputs.sha != NO_ID
  }

  /** Identities are fresh and outside observations are what their providers promise. */
  predicate Allowed(st: State, s: Step) {
    match s
    case NewDelivery(d, v) => d != NO_ID && d !in st.deliveries && v.build == NO_ID && v.publication == NO_ID && v.existing.None? && v.active && v.sha != NO_ID
    case NewWork(x, j) => FreshJob(st, x) && QueuedWork(j) && !j.capability.Publish? && j.inputs.publication.None?
    case NewPublication(x, j) => FreshJob(st, x) && QueuedWork(j) && j.capability.Publish?
                                 && j.inputs.publication.Some? && j.inputs.publication.value.receipt.job in st.jobs
                                 && st.jobs[j.inputs.publication.value.receipt.job].inputs.delivery == NO_ID
                                 && st.jobs[j.inputs.publication.value.receipt.job].capability.Build? && ProvenBy(st, j)
    case Observed(a) => FreshArtifact(st, a.id) && a.native.None? && !a.provenance.NativeWorker?
    case Turn(d, t) => d in st.deliveries && FreshJob(st, t.job)
                       && (t.allowed ==> t.target.component == st.deliveries[d].app && t.target.image == st.deliveries[d].image)
    case Published(x, _, _, _, _, _, artifact, o) => FreshArtifact(st, artifact) && ReadBack(st, x, o)
    case Reconciled(x, _, now, _, actor, artifact, o) => FreshArtifact(st, artifact) && ReadBack(st, x, o) && actor != NO_ID && now != 0
    case SettleJob(_, outcome) => outcome.Failed? || outcome.Cancelled?
    case Abandon(d) => d in st.deliveries
    case _ => true
  }

  function Apply(st: State, s: Step): State
    requires Allowed(st, s)
  {
    match s
    case NewDelivery(d, v) => st.(deliveries := st.deliveries[d := v])
    case NewWork(x, j) => Set(st, x, j)
    case NewPublication(x, j) => if j.product in st.quarantined then st else Set(st, x, j)
    case Observed(a) => st.(artifacts := st.artifacts + [a])
    case Turn(d, t) => TickDelivery(st, d, t)
    case Take(x, now, current, ready, lease, attempt) =>
      if x !in st.jobs then st
      else Set(st, x, Claim(st.jobs[x], now, st.jobs[x].product in st.quarantined, current, ready, lease, attempt))
    case Call(x, call, fence, attempt, now, current, valid) =>
      if x !in st.jobs then st
      else
        var r := Act(x, st.jobs[x], call, fence, attempt, now, st.jobs[x].product in st.quarantined, current, valid);
        if r.Some? then Set(st, x, r.value) else st
    case Expire(x, now) => if x !in st.jobs then st else Set(st, x, Recover(st.jobs[x], now))
    case Published(x, fence, attempt, report, now, current, artifact, o) =>
      ReportPublication(st, x, fence, attempt, report, now, current, artifact, o)
    case Reconciled(x, fence, now, current, actor, artifact, o) =>
      ReconcilePublication(st, x, fence, now, current, actor, artifact, o)
    case CancelJob(x) =>
      if x !in st.jobs || Terminal(st.jobs[x].status) then st
      else if st.jobs[x].inputs.delivery == NO_ID then Set(st, x, Interrupt(st.jobs[x]))
      else if st.jobs[x].inputs.delivery in st.deliveries then Stop(st, st.jobs[x].inputs.delivery) else st
    case SettleJob(x, outcome) =>
      if x !in st.jobs || !st.jobs[x].status.ReconciliationRequired? then st
      else Set(st, x, Settled(st.jobs[x], outcome, outcome))
    case Abandon(d) => Stop(st, d)
  }
}
