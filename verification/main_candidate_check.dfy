/** The candidate evidence as it is computed: nested scans over gates, checks and results. */
module MainCandidateCheck {
  import opened Ids
  import opened MainCandidate

  // ----- newest results -----

  /** The general look-up: the newest result by the clock, the later record among equals. */
  method Latest(results: seq<CheckResult>, check: Id) returns (r: Option<CheckResult>)
    ensures r == Get(ClockView(results), check)
  {
    r := None;
    var i := 0;
    while i < |results|
      invariant i <= |results| && r == Get(ClockView(results[..i]), check)
    {
      assert results[..i + 1][..i] == results[..i];
      var v := results[i];
      if v.check == check && (r.None? || v.at >= r.value.at) { r := Some(v); }
      i := i + 1;
    }
    assert results[..i] == results;
  }

  method LastResult(results: seq<CheckResult>, check: Id) returns (r: Option<CheckResult>)
    ensures r == Get(AppendView(results), check)
  {
    r := None;
    var i := 0;
    while i < |results|
      invariant i <= |results| && r == Get(AppendView(results[..i]), check)
    {
      assert results[..i + 1][..i] == results[..i];
      if results[i].check == check { r := Some(results[i]); }
      i := i + 1;
    }
    assert results[..i] == results;
  }

  /** The projection in two passes: the last position of every check, then the results that stand there. */
  method CausalResults(results: seq<CheckResult>) returns (out: seq<CheckResult>)
    ensures out == Causal(results)
  {
    var last: map<Id, nat> := map[];
    var i := 0;
    while i < |results|
      invariant i <= |results|
      invariant forall k :: 0 <= k < i ==> results[k].check in last
      invariant forall c :: c in last ==> last[c] < i && results[last[c]].check == c
                                          && forall j :: last[c] < j < i ==> results[j].check != c
    {
      last := last[results[i].check := i];
      i := i + 1;
    }
    out, i := [], 0;
    while i < |results|
      invariant i <= |results| && out == LastUpto(results, i)
    {
      assert IsLast(results, i) <==> last[results[i].check] == i;
      if last[results[i].check] == i { out := out + [results[i]]; }
      i := i + 1;
    }
  }

  // ----- one gate -----

  lemma ChecksNext(checks: seq<Check>, i: nat, gate: Id)
    requires i < |checks|
    ensures ChecksOf(checks[..i + 1], gate) == ChecksOf(checks[..i], gate) + (if checks[i].gate == gate then [checks[i]] else [])
  {
    assert checks[..i + 1][..i] == checks[..i];
  }

  method HasCited(results: seq<CheckResult>, check: Id, cited: set<Id>) returns (found: bool)
    ensures found == CitedFor(results, check, cited)
  {
    var i := 0;
    while i < |results|
      invariant i <= |results| && forall k :: 0 <= k < i ==> !(results[k].check == check && results[k].id in cited)
    {
      if results[i].check == check && results[i].id in cited {
        assert results[i] in results;
        return true;
      }
      i := i + 1;
    }
    return false;
  }

  method IsSelected(st: State, g: Gate, cited: set<Id>) returns (selected: bool)
    ensures selected == Selected(st, g, cited)
  {
    hide CitedFor;
    selected := false;
    var i := 0;
    while i < |st.checks|
      invariant i <= |st.checks|
      invariant selected <==> exists c :: c in ChecksOf(st.checks[..i], g.id) && CitedFor(st.results, c.id, cited)
    {
      ChecksNext(st.checks, i, g.id);
      if st.checks[i].gate == g.id {
        var hit := HasCited(st.results, st.checks[i].id, cited);
        selected := selected || hit;
      }
      i := i + 1;
    }
    assert st.checks[..i] == st.checks;
  }

  predicate AllProved(cs: seq<Check>, view: View, product: Id, g: Gate, selected: bool, cited: set<Id>, head: Id) {
    forall c :: c in cs ==> Proved(view, product, g, c, selected, cited, head)
  }

  lemma {:induction false} ChecksOfPrefix(checks: seq<Check>, i: nat, gate: Id, c: Check)
    requires i <= |checks| && c in ChecksOf(checks[..i], gate)
    ensures c in ChecksOf(checks, gate)
    decreases |checks| - i
  {
    if i < |checks| {
      ChecksNext(checks, i, gate);
      ChecksOfPrefix(checks, i + 1, gate, c);
    } else {
      assert checks[..i] == checks;
    }
  }

  lemma LastIdsNext(cs: seq<Check>, c: Check, view: View)
    ensures LastIds(cs + [c], view) == LastIds(cs, view) + (if c.id in view then {view[c.id].id} else {})
    ensures LinesOf(cs + [c], view) == LinesOf(cs, view) + [Line(c, Get(view, c.id))]
  {
    var all := LastIds(cs + [c], view);
    forall x ensures x in all <==> x in LastIds(cs, view) || (c.id in view && x == view[c.id].id) {
      if x in LastIds(cs, view) {
        var d :| d in cs && d.id in view && view[d.id].id == x;
        assert d in cs + [c];
      }
      if c.id in view && x == view[c.id].id { assert c in cs + [c]; }
    }
    var lines := LinesOf(cs + [c], view);
    assert forall k :: 0 <= k < |cs| ==> lines[k] == LinesOf(cs, view)[k];
  }

  /** Every check of one gate: scoped, and passed by its newest result; the lines of evidence and the results used. */
  method ProveGate(st: State, product: Id, g: Gate, selected: bool, cited: set<Id>, head: Id)
    returns (ok: bool, lines: seq<Line>, used: set<Id>)
    requires selected == Selected(st, g, cited)
    ensures ok <==> GateProved(st, product, g, cited, head)
    ensures ok ==> lines == LinesOf(ChecksOf(st.checks, g.id), AppendView(st.results))
    ensures ok ==> used == if selected then LastIds(ChecksOf(st.checks, g.id), AppendView(st.results)) else {}
    ensures ok ==> used <= cited
  {
    ghost var view := AppendView(st.results);
    var count: nat := 0;
    lines, used := [], {};
    var i := 0;
    while i < |st.checks|
      invariant i <= |st.checks|
      invariant count == |ChecksOf(st.checks[..i], g.id)|
      invariant AllProved(ChecksOf(st.checks[..i], g.id), view, product, g, selected, cited, head)
      invariant lines == LinesOf(ChecksOf(st.checks[..i], g.id), view)
      invariant used == if selected then LastIds(ChecksOf(st.checks[..i], g.id), view) else {}
      invariant used <= cited
    {
      hide Selected, LinesOf, LastIds, AppendView;
      var c := st.checks[i];
      ChecksNext(st.checks, i, g.id);
      if c.gate == g.id {
        assert c in ChecksOf(st.checks[..i + 1], g.id);
        ChecksOfPrefix(st.checks, i + 1, g.id, c);
        count := count + 1;
        if c.product != product || c.feature != g.feature { return false, lines, used; }
        var last := LastResult(st.results, c.id);
        if last.None? || !last.value.passed || last.value.product != product || last.value.feature != g.feature
           || (selected && (last.value.id !in cited || last.value.commit != head)) || !Fits(g, last.value) {
          return false, lines, used;
        }
        LastIdsNext(ChecksOf(st.checks[..i], g.id), c, view);
        lines := lines + [Line(c, last)];
        if selected { used := used + {last.value.id}; }
      }
      i := i + 1;
    }
    assert st.checks[..i] == st.checks;
    return count != 0, lines, used;
  }

  // ----- one revision -----

  method DistinctIds(ids: seq<Id>) returns (ok: bool, seen: set<Id>)
    ensures ok <==> Distinct(ids) && NO_ID !in ids
    ensures ok ==> seen == SetOf(ids)
  {
    seen := {};
    var i := 0;
    while i < |ids|
      invariant i <= |ids| && Distinct(ids[..i]) && NO_ID !in ids[..i] && seen == SetOf(ids[..i])
    {
      assert ids[..i + 1] == ids[..i] + [ids[i]];
      if ids[i] in seen || ids[i] == NO_ID {
        if ids[i] in seen {
          var j :| 0 <= j < i && ids[..i][j] == ids[i];
          assert ids[j] == ids[i];
        }
        return false, seen;
      }
      seen := seen + {ids[i]};
      i := i + 1;
    }
    assert ids[..i] == ids;
    return true, seen;
  }

  lemma SubsetOfEqualSize(a: set<Id>, b: set<Id>)
    requires a <= b
    ensures |a| == |b| <==> a == b
  {
    assert b == a + (b - a);
  }

  lemma GatesNext(gates: seq<Gate>, i: nat, product: Id, v: Integration)
    requires i < |gates|
    ensures SourceGates(gates[..i + 1], product, v)
         == SourceGates(gates[..i], product, v) + (if SourceGate(gates[i], product, v) then [gates[i]] else [])
    ensures SourceGate(gates[i], product, v) ==> gates[i] in SourceGates(gates, product, v)
  {
    assert gates[..i + 1][..i] == gates[..i];
    SourceGatesMembers(gates, product, v, gates[i]);
  }

  lemma EvidenceNext(st: State, gates: seq<Gate>, g: Gate, ids: set<Id>)
    ensures Lines(gates + [g], st.checks, AppendView(st.results))
         == Lines(gates, st.checks, AppendView(st.results)) + LinesOf(ChecksOf(st.checks, g.id), AppendView(st.results))
    ensures Demanded(st, gates + [g], ids)
         == Demanded(st, gates, ids) + (if Selected(st, g, ids) then LastIds(ChecksOf(st.checks, g.id), AppendView(st.results)) else {})
  {
    assert (gates + [g])[..|gates|] == gates;
  }

  /** What the scan of the gates has established after some of the source gates. */
  ghost predicate Scanned(st: State, product: Id, gates: seq<Gate>, ids: set<Id>, head: Id, lines: seq<Line>, used: set<Id>, selections: nat) {
    && (forall g :: g in gates ==> GateProved(st, product, g, ids, head))
    && lines == Lines(gates, st.checks, AppendView(st.results))
    && used == Demanded(st, gates, ids) && used <= ids
    && (selections != 0 <==> exists g :: g in gates && Selected(st, g, ids))
  }

  lemma ScannedNext(st: State, product: Id, gates: seq<Gate>, g: Gate, ids: set<Id>, head: Id, lines: seq<Line>, used: set<Id>, selections: nat)
    requires Scanned(st, product, gates, ids, head, lines, used, selections) && GateProved(st, product, g, ids, head)
    ensures var cs := ChecksOf(st.checks, g.id); var view := AppendView(st.results); var hit := Selected(st, g, ids);
            (hit ==> LastIds(cs, view) <= ids)
            ==> Scanned(st, product, gates + [g], ids, head, lines + LinesOf(cs, view),
                        used + (if hit then LastIds(cs, view) else {}), if hit then selections + 1 else selections)
  {
    hide Selected, GateProved, LinesOf, LastIds, ChecksOf;
    EvidenceNext(st, gates, g, ids);
    if exists x :: x in gates && Selected(st, x, ids) {
      var x :| x in gates && Selected(st, x, ids);
      assert x in gates + [g];
    }
    assert g in gates + [g];
  }

  /** The scan of all gates: every source gate proved, the lines of evidence, and the results used. */
  method ScanGates(st: State, product: Id, v: Integration, ids: set<Id>, head: Id)
    returns (ok: bool, lines: seq<Line>, used: set<Id>, selections: nat)
    ensures !ok ==> exists g :: g in SourceGates(st.gates, product, v) && !GateProved(st, product, g, ids, head)
    ensures ok ==> Scanned(st, product, SourceGates(st.gates, product, v), ids, head, lines, used, selections)
  {
    lines, used, selections := [], {}, 0;
    ghost var gates: seq<Gate> := [];
    var i := 0;
    while i < |st.gates|
      invariant i <= |st.gates| && gates == SourceGates(st.gates[..i], product, v)
      invariant Scanned(st, product, gates, ids, head, lines, used, selections)
    {
      hide GateProved, Selected, Scanned, ChecksOf, LinesOf, LastIds, SourceGates, SourceGate;
      var g := st.gates[i];
      GatesNext(st.gates, i, product, v);
      var relevant := IsSourceGate(g, product, v);
      if relevant {
        var selected := IsSelected(st, g, ids);
        var proved, more, last := ProveGate(st, product, g, selected, ids, head);
        if !proved { return false, lines, used, selections; }
        ScannedNext(st, product, gates, g, ids, head, lines, used, selections);
        gates, lines, used := gates + [g], lines + more, used + last;
        if selected { selections := selections + 1; }
      }
      i := i + 1;
    }
    assert st.gates[..i] == st.gates;
    return true, lines, used, selections;
  }

  /** One chosen revision of a ready integration: admitted with its evidence, or refused. */
  method AdmitRevision(st: State, product: Id, rev: Revision, v: Integration, cited: seq<Id>) returns (e: Option<Evidence>)
    ensures e.Some? <==> Admits(st, product, rev, v, cited)
    ensures e.Some? ==> e.value == Evidence(rev, v, SourceGates(st.gates, product, v),
                                            Lines(SourceGates(st.gates, product, v), st.checks, AppendView(st.results)))
  {
    hide GateProved, Selected, ChecksOf, LinesOf, LastIds, SourceGates, Demanded, Lines, Distinct, SetOf;
    var distinct, supplied := DistinctIds(cited);
    if !distinct { return None; }
    var ok, lines, used, selections := ScanGates(st, product, v, supplied, rev.head);
    if !ok { return None; }
    SubsetOfEqualSize(used, supplied);
    if selections == 0 || |used| != |supplied| { return None; }
    return Some(Evidence(rev, v, SourceGates(st.gates, product, v), lines));
  }

  method IsSourceGate(g: Gate, product: Id, v: Integration) returns (r: bool)
    ensures r == SourceGate(g, product, v)
  {
    r := g.product == product && g.feature == v.feature && g.blocking && v.id in g.integrations;
  }

  // ----- the whole request -----

  method CheckRevision(st: State, product: Id, repo: Id, chosen: Chosen) returns (e: Option<Evidence>)
    ensures e.Some? <==> RevisionOk(st, product, repo, chosen)
    ensures e.Some? ==> e.value == EvidenceOf(st, product, chosen)
  {
    hide Admits, Ready;
    if chosen.revision !in st.revisions { return None; }
    var rev := st.revisions[chosen.revision];
    if rev.product != product || rev.repo != repo || !rev.headFull || rev.integration !in st.integrations { return None; }
    var v := st.integrations[rev.integration];
    if v.product != product || v.feature != rev.feature || !v.ready { return None; }
    var projection := CausalResults(st.results);
    if !Ready(st, ClockView(projection), v) { return None; }
    e := AdmitRevision(st, product, rev, v, chosen.cited);
  }

  method CheckSource(st: State, product: Id, source: MainSource) returns (e: Option<seq<Evidence>>)
    ensures e.Some? <==> SourceOk(st, product, source)
    ensures e.Some? ==> AllKnown(st, source.revisions) && e.value == EvidenceList(st, product, source.revisions)
  {
    hide RevisionOk, EvidenceOf;
    if source.app !in st.apps || st.apps[source.app].product != product { return None; }
    var repo := st.apps[source.app].repo;
    var out: seq<Evidence> := [];
    var k := 0;
    while k < |source.revisions|
      invariant k <= |source.revisions|
      invariant forall j :: 0 <= j < k ==> RevisionOk(st, product, repo, source.revisions[j])
      invariant |out| == k && forall j :: 0 <= j < k ==> Known(st, source.revisions[j]) && out[j] == EvidenceOf(st, product, source.revisions[j])
    {
      var one := CheckRevision(st, product, repo, source.revisions[k]);
      if one.None? { return None; }
      RevisionKnown(st, product, repo, source.revisions[k]);
      out := out + [one.value];
      k := k + 1;
    }
    return Some(out);
  }

  lemma RevisionKnown(st: State, product: Id, repo: Id, chosen: Chosen)
    requires RevisionOk(st, product, repo, chosen)
    ensures Known(st, chosen)
  {
    hide Ready, Admits;
  }

  lemma EvidenceSplits(st: State, product: Id, a: seq<Chosen>, b: seq<Chosen>)
    requires AllKnown(st, a) && AllKnown(st, b)
    ensures AllKnown(st, a + b) && EvidenceList(st, product, a + b) == EvidenceList(st, product, a) + EvidenceList(st, product, b)
  {
    hide EvidenceOf;
  }

  /** The authority of a request: every source accepted, with the evidence to freeze or to compare. */
  method Authority(st: State, product: Id, sources: seq<MainSource>) returns (e: Option<seq<Evidence>>)
    ensures e.Some? <==> AuthorityOk(st, product, sources)
    ensures e.Some? ==> AllKnown(st, Picks(sources)) && e.value == EvidenceList(st, product, Picks(sources))
  {
    var out: seq<Evidence> := [];
    var s := 0;
    while s < |sources|
      invariant s <= |sources| && forall j :: 0 <= j < s ==> SourceOk(st, product, sources[j])
      invariant AllKnown(st, Picks(sources[..s])) && out == EvidenceList(st, product, Picks(sources[..s]))
    {
      hide SourceOk, EvidenceList, AllKnown;
      assert sources[..s + 1][..s] == sources[..s];
      var one := CheckSource(st, product, sources[s]);
      if one.None? { return None; }
      EvidenceSplits(st, product, Picks(sources[..s]), sources[s].revisions);
      out := out + one.value;
      s := s + 1;
    }
    assert sources[..s] == sources;
    return Some(out);
  }

  /** The guard before every later step: the evidence computed now must be the evidence frozen then. */
  method MainCandidateGuard(st: State, c: Candidate, intact: bool) returns (ok: bool)
    ensures ok == Guard(st, c, intact)
  {
    hide AuthorityOk, AllKnown, EvidenceList, Picks;
    if !intact { return false; }
    var now := Authority(st, c.product, c.sources);
    return now == Some(c.frozen);
  }

  /** Freezing: a candidate prepared from an accepted request passes its own guard. */
  method Prepare(st: State, product: Id, sources: seq<MainSource>) returns (c: Option<Candidate>)
    ensures c.Some? <==> AuthorityOk(st, product, sources)
    ensures c.Some? ==> c.value.sources == sources && c.value.product == product && Guard(st, c.value, true)
  {
    hide AuthorityOk, AllKnown, EvidenceList, Picks;
    var e := Authority(st, product, sources);
    if e.None? { return None; }
    return Some(Candidate(product, sources, e.value));
  }
}
