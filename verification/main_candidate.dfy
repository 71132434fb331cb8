/**
  Evidence for a main candidate: which check results prove its sources, by append order alone,
  and the guard that recomputes the evidence before every later step.
 */
module MainCandidate {
  import opened Ids

  datatype Gate = Gate(id: Id, product: Id, feature: Id, blocking: bool, integrations: seq<Id>,
                       commit: Id, environment: Id, deployment: Id)
  datatype Check = Check(id: Id, gate: Id, product: Id, feature: Id)
  datatype CheckResult = CheckResult(id: Id, check: Id, product: Id, feature: Id, passed: bool,
                                     commit: Id, environment: Id, deployment: Id, at: nat)
  datatype Integration = Integration(id: Id, product: Id, feature: Id, ready: bool, commits: seq<Id>)
  datatype Revision = Revision(product: Id, feature: Id, repo: Id, integration: Id, head: Id, headFull: bool)
  datatype Application = Application(product: Id, repo: Id)

  /** `settled`: integrations without open blockers or unready dependencies; `clear`: gates with nothing else against them. */
  datatype State = State(gates: seq<Gate>, checks: seq<Check>, results: seq<CheckResult>,
                         revisions: map<Id, Revision>, integrations: map<Id, Integration>, apps: map<Id, Application>,
                         settled: set<Id>, clear: set<Id>)

  datatype Chosen = Chosen(revision: Id, cited: seq<Id>)
  datatype MainSource = MainSource(app: Id, revisions: seq<Chosen>)

  // ----- the newest result of each check, by clock and by append order -----

  type View = map<Id, CheckResult>

  /** As the general look-up finds it: the greatest time stamp, the later record among equals. */
  function ClockView(results: seq<CheckResult>): View {
    if |results| == 0 then map[]
    else
      var r := results[|results| - 1];
      var rest := ClockView(results[..|results| - 1]);
      if r.check in rest && r.at < rest[r.check].at then rest else rest[r.check := r]
  }

  /** By append order: the record appended last. */
  function AppendView(results: seq<CheckResult>): View {
    if |results| == 0 then map[]
    else AppendView(results[..|results| - 1])[results[|results| - 1].check := results[|results| - 1]]
  }

  predicate IsLast(results: seq<CheckResult>, i: nat) {
    i < |results| && forall j :: i < j < |results| ==> results[j].check != results[i].check
  }

  /** The results among the first `n` that no later result of their check replaces. */
  function LastUpto(results: seq<CheckResult>, n: nat): seq<CheckResult>
    requires n <= |results|
  {
    if n == 0 then [] else LastUpto(results, n - 1) + (if IsLast(results, n - 1) then [results[n - 1]] else [])
  }

  /** The candidate-local projection: one result per check, the appended-last one, in order. */
  function Causal(results: seq<CheckResult>): seq<CheckResult> {
    LastUpto(results, |results|)
  }

  lemma {:induction false} AppendViewIs(results: seq<CheckResult>, c: Id)
    ensures c in AppendView(results) ==> exists i: nat :: IsLast(results, i) && results[i].check == c && AppendView(results)[c] == results[i]
    ensures forall i: nat :: IsLast(results, i) && results[i].check == c ==> c in AppendView(results) && AppendView(results)[c] == results[i]
    ensures c !in AppendView(results) ==> forall i :: 0 <= i < |results| ==> results[i].check != c
  {
    if |results| > 0 {
      var n := |results| - 1;
      AppendViewIs(results[..n], c);
      if results[n].check == c {
        assert IsLast(results, n);
      } else if c in AppendView(results) {
        var i: nat :| IsLast(results[..n], i) && results[..n][i].check == c && AppendView(results[..n])[c] == results[..n][i];
        assert IsLast(results, i) && results[i].check == c;
      }
      forall i: nat | IsLast(results, i) && results[i].check == c
        ensures c in AppendView(results) && AppendView(results)[c] == results[i]
      {
        if i < n { assert IsLast(results[..n], i); }
      }
    }
  }

  lemma {:induction false} ClockOfLast(results: seq<CheckResult>, n: nat, c: Id)
    requires n <= |results|
    ensures c in ClockView(LastUpto(results, n)) <==> exists i: nat :: i < n && IsLast(results, i) && results[i].check == c
    ensures forall i: nat :: i < n && IsLast(results, i) && results[i].check == c ==>
              c in ClockView(LastUpto(results, n)) && ClockView(LastUpto(results, n))[c] == results[i]
  {
    if n > 0 {
      ClockOfLast(results, n - 1, c);
      ClockOfLast(results, n - 1, results[n - 1].check);
      var before := LastUpto(results, n - 1);
      if IsLast(results, n - 1) {
        assert (before + [results[n - 1]])[..|before|] == before;
        assert forall i: nat :: i < n - 1 && IsLast(results, i) ==> results[i].check != results[n - 1].check;
      } else {
        assert LastUpto(results, n) == before;
      }
    }
  }

  /** On the projection the clock-based look-up is append order, whatever the time stamps say. */
  lemma CausalAgrees(results: seq<CheckResult>)
    ensures ClockView(Causal(results)) == AppendView(results)
  {
    hide IsLast;
    forall c
      ensures c in ClockView(Causal(results)) <==> c in AppendView(results)
      ensures c in AppendView(results) ==> c in ClockView(Causal(results)) && ClockView(Causal(results))[c] == AppendView(results)[c]
    {
      ClockOfLast(results, |results|, c);
      AppendViewIs(results, c);
      if c in ClockView(Causal(results)) {
        var i: nat :| i < |results| && IsLast(results, i) && results[i].check == c;
      }
      if c in AppendView(results) {
        LastIsInside(results);
      }
    }
  }

  lemma LastIsInside(results: seq<CheckResult>)
    ensures forall i: nat :: IsLast(results, i) ==> i < |results|
  {
  }

  lemma {:induction false} ClockIsGreatest(results: seq<CheckResult>, c: Id)
    ensures c in ClockView(results) <==> c in AppendView(results)
    ensures c in ClockView(results) ==> forall i :: 0 <= i < |results| && results[i].check == c ==> results[i].at <= ClockView(results)[c].at
    ensures c in ClockView(results) && AppendView(results)[c].at == ClockView(results)[c].at ==> ClockView(results)[c] == AppendView(results)[c]
    ensures c in ClockView(results) ==> ClockView(results)[c] in results && ClockView(results)[c].check == c
  {
    if |results| > 0 {
      var n := |results| - 1;
      ClockIsGreatest(results[..n], c);
      AppendViewIs(results[..n], c);
      assert results == results[..n] + [results[n]];
    }
  }

  /** Without the projection the two agree on a check exactly when no result of it is newer by the clock than the last one. */
  lemma ClockAgreesIff(results: seq<CheckResult>, c: Id)
    requires c in AppendView(results)
    ensures c in ClockView(results)
    ensures ClockView(results)[c] == AppendView(results)[c]
       <==> forall i :: 0 <= i < |results| && results[i].check == c ==> results[i].at <= AppendView(results)[c].at
  {
    ClockIsGreatest(results, c);
    AppendViewIs(results, c);
    var k :| 0 <= k < |results| && results[k] == ClockView(results)[c];
  }

  // ----- what the evidence must be -----

  predicate Scoped(result: Id, wanted: Id) {
    wanted == NO_ID || result == wanted
  }

  /** The gate's own restrictions on a result. */
  predicate Fits(g: Gate, r: CheckResult) {
    Scoped(r.commit, g.commit) && Scoped(r.environment, g.environment) && Scoped(r.deployment, g.deployment)
  }

  function ChecksOf(checks: seq<Check>, gate: Id): seq<Check> {
    if |checks| == 0 then []
    else
      var n := |checks| - 1;
      ChecksOf(checks[..n], gate) + (if checks[n].gate == gate then [checks[n]] else [])
  }

  predicate Blocks(g: Gate, v: Integration) {
    g.feature == v.feature && g.blocking && v.id in g.integrations
  }

  predicate GatePasses(st: State, view: View, g: Gate) {
    && g.id in st.clear && ChecksOf(st.checks, g.id) != []
    && forall c :: c in ChecksOf(st.checks, g.id) ==> c.id in view && view[c.id].passed && Fits(g, view[c.id])
  }

  predicate MatchesCommits(st: State, view: View, g: Gate, v: Integration) {
    v.commits != [] ==> forall c :: c in ChecksOf(st.checks, g.id) ==> c.id in view && view[c.id].commit in v.commits
  }

  /** The general readiness rule over a given view of the newest results. */
  predicate Ready(st: State, view: View, v: Integration) {
    && v.id in st.settled
    && forall g :: g in st.gates && Blocks(g, v) ==> GatePasses(st, view, g) && MatchesCommits(st, view, g, v)
  }

  predicate SourceGate(g: Gate, product: Id, v: Integration) {
    g.product == product && Blocks(g, v)
  }

  function SourceGates(gates: seq<Gate>, product: Id, v: Integration): seq<Gate> {
    if |gates| == 0 then []
    else
      var n := |gates| - 1;
      SourceGates(gates[..n], product, v) + (if SourceGate(gates[n], product, v) then [gates[n]] else [])
  }

  /** Some cited result is recorded for a check of the gate. */
  predicate Selected(st: State, g: Gate, cited: set<Id>) {
    exists c :: c in ChecksOf(st.checks, g.id) && CitedFor(st.results, c.id, cited)
  }

  predicate CitedFor(results: seq<CheckResult>, check: Id, cited: set<Id>) {
    exists r :: r in results && r.check == check && r.id in cited
  }

  predicate Proved(view: View, product: Id, g: Gate, c: Check, selected: bool, cited: set<Id>, head: Id) {
    && c.product == product && c.feature == g.feature && c.id in view
    && var r := view[c.id];
    && r.passed && r.product == product && r.feature == g.feature && Fits(g, r)
    && (selected ==> r.id in cited && r.commit == head)
  }

  predicate GateProved(st: State, product: Id, g: Gate, cited: set<Id>, head: Id) {
    && ChecksOf(st.checks, g.id) != []
    && forall c :: c in ChecksOf(st.checks, g.id) ==> Proved(AppendView(st.results), product, g, c, Selected(st, g, cited), cited, head)
  }

  function LastIds(checks: seq<Check>, view: View): set<Id> {
    set c | c in checks && c.id in view :: view[c.id].id
  }

  /** The append-last results of every check of the selected gates. */
  function Demanded(st: State, gates: seq<Gate>, cited: set<Id>): set<Id> {
    if |gates| == 0 then {}
    else
      var n := |gates| - 1;
      Demanded(st, gates[..n], cited)
      + (if Selected(st, gates[n], cited) then LastIds(ChecksOf(st.checks, gates[n].id), AppendView(st.results)) else {})
  }

  function SetOf(s: seq<Id>): set<Id> {
    set x | x in s
  }

  predicate Distinct(s: seq<Id>) {
    forall j, k :: 0 <= j < k < |s| ==> s[j] != s[k]
  }

  /** Every source gate is proved, some gate is selected, and exactly the selected gates' newest results are cited. */
  predicate Admits(st: State, product: Id, rev: Revision, v: Integration, cited: seq<Id>) {
    && Distinct(cited) && NO_ID !in cited
    && var gates := SourceGates(st.gates, product, v); var ids := SetOf(cited);
    && (forall g :: g in gates ==> GateProved(st, product, g, ids, rev.head))
    && (exists g :: g in gates && Selected(st, g, ids))
    && Demanded(st, gates, ids) == ids
  }

  // ----- the frozen evidence -----

  datatype Line = Line(check: Check, result: Option<CheckResult>)
  datatype Evidence = Evidence(revision: Revision, integration: Integration, gates: seq<Gate>, lines: seq<Line>)

  function Get(view: View, c: Id): Option<CheckResult> {
    if c in view then Some(view[c]) else None
  }

  function LinesOf(checks: seq<Check>, view: View): seq<Line> {
    seq(|checks|, i requires 0 <= i < |checks| => Line(checks[i], Get(view, checks[i].id)))
  }

  function Lines(gates: seq<Gate>, checks: seq<Check>, view: View): seq<Line> {
    if |gates| == 0 then []
    else
      var n := |gates| - 1;
      Lines(gates[..n], checks, view) + LinesOf(ChecksOf(checks, gates[n].id), view)
  }

  predicate Known(st: State, chosen: Chosen) {
    chosen.revision in st.revisions && st.revisions[chosen.revision].integration in st.integrations
  }

  function EvidenceOf(st: State, product: Id, chosen: Chosen): Evidence
    requires Known(st, chosen)
  {
    var rev := st.revisions[chosen.revision];
    var v := st.integrations[rev.integration];
    var gates := SourceGates(st.gates, product, v);
    Evidence(rev, v, gates, Lines(gates, st.checks, AppendView(st.results)))
  }

  predicate RevisionOk(st: State, product: Id, repo: Id, chosen: Chosen) {
    && Known(st, chosen)
    && var rev := st.revisions[chosen.revision];
       var v := st.integrations[rev.integration];
    && rev.product == product && rev.repo == repo && rev.headFull
    && v.product == product && v.feature == rev.feature && v.ready
    && Ready(st, ClockView(Causal(st.results)), v)
    && Admits(st, product, rev, v, chosen.cited)
  }

  predicate SourceOk(st: State, product: Id, source: MainSource) {
    && source.app in st.apps && st.apps[source.app].product == product
    && forall k :: 0 <= k < |source.revisions| ==> RevisionOk(st, product, st.apps[source.app].repo, source.revisions[k])
  }

  predicate AuthorityOk(st: State, product: Id, sources: seq<MainSource>) {
    forall s :: 0 <= s < |sources| ==> SourceOk(st, product, sources[s])
  }

  /** The chosen revisions in the order in which evidence is listed. */
  function Picks(sources: seq<MainSource>): seq<Chosen> {
    if |sources| == 0 then [] else Picks(sources[..|sources| - 1]) + sources[|sources| - 1].revisions
  }

  predicate AllKnown(st: State, picks: seq<Chosen>) {
    forall k :: 0 <= k < |picks| ==> Known(st, picks[k])
  }

  function EvidenceList(st: State, product: Id, picks: seq<Chosen>): seq<Evidence>
    requires AllKnown(st, picks)
  {
    seq(|picks|, k requires 0 <= k < |picks| => EvidenceOf(st, product, picks[k]))
  }

  lemma {:induction false} AuthorityKnows(st: State, product: Id, sources: seq<MainSource>)
    requires AuthorityOk(st, product, sources)
    ensures AllKnown(st, Picks(sources))
  {
    hide SourceOk;
    if |sources| > 0 {
      var n := |sources| - 1;
      AuthorityKnows(st, product, sources[..n]);
      SourceKnows(st, product, sources[n]);
    }
  }

  lemma SourceKnows(st: State, product: Id, source: MainSource)
    requires SourceOk(st, product, source)
    ensures AllKnown(st, source.revisions)
  {
    hide Ready, Admits;
  }

  // ----- revocation -----

  /** A prepared candidate: what it was frozen from. `intact` is everything else its guard asks for. */
  datatype Candidate = Candidate(product: Id, sources: seq<MainSource>, frozen: seq<Evidence>)

  ghost predicate Guard(st: State, c: Candidate, intact: bool) {
    intact && AuthorityOk(st, c.product, c.sources) && AllKnown(st, Picks(c.sources))
    && EvidenceList(st, c.product, Picks(c.sources)) == c.frozen
  }

  predicate DistinctResults(results: seq<CheckResult>) {
    forall i, j :: 0 <= i < j < |results| ==> results[i].id != results[j].id
  }

  lemma {:induction false} LinesLookUp(gates: seq<Gate>, checks: seq<Check>, view: View, l: Line)
    requires l in Lines(gates, checks, view)
    ensures l.result == Get(view, l.check.id)
  {
    var n := |gates| - 1;
    if l in Lines(gates[..n], checks, view) { LinesLookUp(gates[..n], checks, view, l); }
  }

  lemma {:induction false} LinesHave(gates: seq<Gate>, checks: seq<Check>, view: View, g: Gate, c: Check)
    requires g in gates && c in ChecksOf(checks, g.id)
    ensures Line(c, Get(view, c.id)) in Lines(gates, checks, view)
  {
    var n := |gates| - 1;
    if gates[n] == g {
      var cs := ChecksOf(checks, g.id);
      var k :| 0 <= k < |cs| && cs[k] == c;
      assert LinesOf(cs, view)[k] == Line(c, Get(view, c.id));
    } else {
      LinesHave(gates[..n], checks, view, g, c);
    }
  }

  /** A result appended since replaces the newest result of its check for good. */
  lemma NewestMoved(before: seq<CheckResult>, after: seq<CheckResult>, m: nat)
    requires before <= after && |before| <= m < |after| && DistinctResults(after)
    ensures Get(AppendView(after), after[m].check) != Get(AppendView(before), after[m].check)
  {
    var c := after[m].check;
    AppendViewIs(after, c);
    AppendViewIs(before, c);
    var i: nat :| IsLast(after, i) && after[i].check == c && AppendView(after)[c] == after[i];
    if c in AppendView(before) {
      var j: nat :| IsLast(before, j) && before[j].check == c && AppendView(before)[c] == before[j];
      assert before[j] == after[j] && j < |before| <= i;
    }
  }

  /** A result appended to any check of a candidate's blocking gates revokes the candidate in every later state. */
  lemma RevokedForEver(st: State, later: State, c: Candidate, k: nat, g: Gate, chk: Check, m: nat, intact: bool)
    requires Guard(st, c, true)
    requires k < |Picks(c.sources)|
    requires g in EvidenceOf(st, c.product, Picks(c.sources)[k]).gates && chk in ChecksOf(st.checks, g.id)
    requires st.results <= later.results && DistinctResults(later.results)
    requires |st.results| <= m < |later.results| && later.results[m].check == chk.id
    ensures !Guard(later, c, intact)
  {
    hide AuthorityOk;
    var chosen := Picks(c.sources)[k];
    if AllKnown(later, Picks(c.sources)) && EvidenceList(later, c.product, Picks(c.sources)) == c.frozen {
      assert c.frozen[k] == EvidenceOf(st, c.product, chosen) == EvidenceOf(later, c.product, chosen);
      var was, now := EvidenceOf(st, c.product, chosen), EvidenceOf(later, c.product, chosen);
      var line := Line(chk, Get(AppendView(st.results), chk.id));
      LinesHave(was.gates, st.checks, AppendView(st.results), g, chk);
      assert line in now.lines;
      LinesLookUp(now.gates, later.checks, AppendView(later.results), line);
      NewestMoved(st.results, later.results, m);
    }
  }

  // ----- unrelated results -----

  /** No check of a blocking gate of the integration is the one named. */
  predicate Apart(st: State, v: Integration, check: Id) {
    forall g :: g in st.gates && Blocks(g, v) ==> forall c :: c in ChecksOf(st.checks, g.id) ==> c.id != check
  }

  lemma {:induction false} SourceGatesMembers(gates: seq<Gate>, product: Id, v: Integration, g: Gate)
    ensures g in SourceGates(gates, product, v) <==> g in gates && SourceGate(g, product, v)
  {
    if |gates| > 0 {
      var n := |gates| - 1;
      SourceGatesMembers(gates[..n], product, v, g);
      assert gates == gates[..n] + [gates[n]];
    }
  }

  lemma ViewGrows(results: seq<CheckResult>, r: CheckResult)
    ensures AppendView(results + [r]) == AppendView(results)[r.check := r]
  {
    assert (results + [r])[..|results|] == results;
  }

  lemma {:induction false} SameLines(gates: seq<Gate>, checks: seq<Check>, view: View, r: CheckResult)
    requires forall g :: g in gates ==> forall c :: c in ChecksOf(checks, g.id) ==> c.id != r.check
    ensures Lines(gates, checks, view[r.check := r]) == Lines(gates, checks, view)
  {
    if |gates| > 0 {
      var n := |gates| - 1;
      SameLines(gates[..n], checks, view, r);
      var cs := ChecksOf(checks, gates[n].id);
      assert forall k :: 0 <= k < |cs| ==> cs[k] in cs;
      assert LinesOf(cs, view[r.check := r]) == LinesOf(cs, view);
    }
  }

  lemma SameSelection(st: State, r: CheckResult, g: Gate, cited: set<Id>)
    requires r.id !in cited
    ensures Selected(st.(results := st.results + [r]), g, cited) == Selected(st, g, cited)
  {
    forall c: Id ensures CitedFor(st.results + [r], c, cited) == CitedFor(st.results, c, cited) {
      if CitedFor(st.results, c, cited) {
        var x :| x in st.results && x.check == c && x.id in cited;
        assert x in st.results + [r];
      }
    }
  }

  lemma {:induction false} SameDemand(st: State, r: CheckResult, gates: seq<Gate>, cited: set<Id>)
    requires r.id !in cited
    requires forall g :: g in gates ==> forall c :: c in ChecksOf(st.checks, g.id) ==> c.id != r.check
    ensures Demanded(st.(results := st.results + [r]), gates, cited) == Demanded(st, gates, cited)
  {
    if |gates| > 0 {
      var n := |gates| - 1;
      SameDemand(st, r, gates[..n], cited);
      SameSelection(st, r, gates[n], cited);
      ViewGrows(st.results, r);
      var cs := ChecksOf(st.checks, gates[n].id);
      assert LastIds(cs, AppendView(st.results + [r])) == LastIds(cs, AppendView(st.results));
    }
  }

  lemma SameGateProof(st: State, r: CheckResult, product: Id, g: Gate, cited: set<Id>, head: Id)
    requires r.id !in cited && GateProved(st, product, g, cited, head)
    requires forall c :: c in ChecksOf(st.checks, g.id) ==> c.id != r.check
    ensures GateProved(st.(results := st.results + [r]), product, g, cited, head)
  {
    SameSelection(st, r, g, cited);
    ViewGrows(st.results, r);
  }

  lemma SameAdmission(st: State, r: CheckResult, product: Id, rev: Revision, v: Integration, cited: seq<Id>)
    requires Apart(st, v, r.check) && r.id !in cited && Admits(st, product, rev, v, cited)
    ensures Admits(st.(results := st.results + [r]), product, rev, v, cited)
  {
    hide Selected, GateProved;
    var later := st.(results := st.results + [r]);
    var gates, ids := SourceGates(st.gates, product, v), SetOf(cited);
    forall g | g in gates ensures Blocks(g, v) && g in st.gates { SourceGatesMembers(st.gates, product, v, g); }
    forall g | g in gates ensures GateProved(later, product, g, ids, rev.head) { SameGateProof(st, r, product, g, ids, rev.head); }
    var g :| g in gates && Selected(st, g, ids);
    SameSelection(st, r, g, ids);
    SameDemand(st, r, gates, ids);
  }

  lemma SameReadiness(st: State, r: CheckResult, v: Integration)
    requires Apart(st, v, r.check) && Ready(st, ClockView(Causal(st.results)), v)
    ensures Ready(st.(results := st.results + [r]), ClockView(Causal(st.results + [r])), v)
  {
    hide Causal, ClockView;
    CausalAgrees(st.results);
    CausalAgrees(st.results + [r]);
    ViewGrows(st.results, r);
  }

  lemma SameRevision(st: State, r: CheckResult, product: Id, repo: Id, chosen: Chosen)
    requires RevisionOk(st, product, repo, chosen) && r.id !in chosen.cited
    requires Apart(st, st.integrations[st.revisions[chosen.revision].integration], r.check)
    ensures RevisionOk(st.(results := st.results + [r]), product, repo, chosen)
    ensures EvidenceOf(st.(results := st.results + [r]), product, chosen) == EvidenceOf(st, product, chosen)
  {
    hide Ready, Admits;
    var rev := st.revisions[chosen.revision];
    var v := st.integrations[rev.integration];
    SameReadiness(st, r, v);
    SameAdmission(st, r, product, rev, v, chosen.cited);
    ViewGrows(st.results, r);
    var gates := SourceGates(st.gates, product, v);
    forall g | g in gates ensures forall c :: c in ChecksOf(st.checks, g.id) ==> c.id != r.check {
      SourceGatesMembers(st.gates, product, v, g);
    }
    SameLines(gates, st.checks, AppendView(st.results), r);
  }

  /** A new result of any other check leaves the candidate accepted. */
  lemma UnrelatedResultKeeps(st: State, c: Candidate, r: CheckResult)
    requires Guard(st, c, true)
    requires forall k :: 0 <= k < |Picks(c.sources)| ==>
               && r.id !in Picks(c.sources)[k].cited
               && Apart(st, st.integrations[st.revisions[Picks(c.sources)[k].revision].integration], r.check)
    ensures Guard(st.(results := st.results + [r]), c, true)
  {
    hide RevisionOk, EvidenceOf, Apart;
    var later := st.(results := st.results + [r]);
    var picks := Picks(c.sources);
    forall s | 0 <= s < |c.sources| ensures SourceOk(later, c.product, c.sources[s]) {
      assert SourceOk(st, c.product, c.sources[s]);
      var repo := st.apps[c.sources[s].app].repo;
      forall k | 0 <= k < |c.sources[s].revisions| ensures RevisionOk(later, c.product, repo, c.sources[s].revisions[k]) {
        PickOf(c.sources, s, k);
        SameRevision(st, r, c.product, repo, c.sources[s].revisions[k]);
      }
    }
    forall k | 0 <= k < |picks| ensures EvidenceOf(later, c.product, picks[k]) == EvidenceOf(st, c.product, picks[k]) {
      var s, n := SourceOfPick(c.sources, k);
      assert SourceOk(st, c.product, c.sources[s]);
      SameRevision(st, r, c.product, st.apps[c.sources[s].app].repo, picks[k]);
    }
  }

  lemma {:induction false} PickOf(sources: seq<MainSource>, s: nat, k: nat)
    requires s < |sources| && k < |sources[s].revisions|
    ensures exists i :: 0 <= i < |Picks(sources)| && Picks(sources)[i] == sources[s].revisions[k]
    decreases |sources|
  {
    var n := |sources| - 1;
    if s < n {
      PickOf(sources[..n], s, k);
      var i :| 0 <= i < |Picks(sources[..n])| && Picks(sources[..n])[i] == sources[s].revisions[k];
      assert Picks(sources)[i] == sources[s].revisions[k];
    } else {
      assert Picks(sources)[|Picks(sources[..n])| + k] == sources[s].revisions[k];
    }
  }

  lemma {:induction false} SourceOfPick(sources: seq<MainSource>, i: nat) returns (s: nat, k: nat)
    requires i < |Picks(sources)|
    ensures s < |sources| && k < |sources[s].revisions| && sources[s].revisions[k] == Picks(sources)[i]
  {
    var n := |sources| - 1;
    if i < |Picks(sources[..n])| {
      s, k := SourceOfPick(sources[..n], i);
    } else {
      s, k := n, i - |Picks(sources[..n])|;
    }
  }
}
