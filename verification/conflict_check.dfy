/** The resolution check as it runs: one pass per table with maps and counters, then the cited results. */
module ConflictCheck {
  import opened Ids
  import opened ConflictEvidence

  // ----- last positions and counts, as the maps hold them -----

  function LastIndex(keys: seq<Id>): map<Id, nat> {
    if |keys| == 0 then map[] else LastIndex(keys[..|keys| - 1])[keys[|keys| - 1] := |keys| - 1]
  }

  function Counts(keys: seq<Id>): map<Id, nat> {
    if |keys| == 0 then map[]
    else
      var rest := Counts(keys[..|keys| - 1]);
      var x := keys[|keys| - 1];
      rest[x := (if x in rest then rest[x] else 0) + 1]
  }

  predicate IsLast(keys: seq<Id>, x: Id, i: nat) {
    i < |keys| && keys[i] == x && forall j :: i < j < |keys| ==> keys[j] != x
  }

  predicate IsOnly(keys: seq<Id>, x: Id, i: nat) {
    i < |keys| && keys[i] == x && forall j :: 0 <= j < |keys| && j != i ==> keys[j] != x
  }

  lemma {:induction false} LastIndexIs(keys: seq<Id>, x: Id)
    ensures x in LastIndex(keys) ==> IsLast(keys, x, LastIndex(keys)[x])
    ensures x !in LastIndex(keys) ==> x !in keys
  {
    if |keys| > 0 {
      LastIndexIs(keys[..|keys| - 1], x);
    }
  }

  lemma {:induction false} CountsAre(keys: seq<Id>, x: Id)
    ensures x in Counts(keys) <==> x in LastIndex(keys)
    ensures x in Counts(keys) && Counts(keys)[x] == 1 ==> IsOnly(keys, x, LastIndex(keys)[x])
    ensures x in Counts(keys) && Counts(keys)[x] > 1 ==> exists j :: 0 <= j < LastIndex(keys)[x] < |keys| && keys[j] == x
    ensures x in Counts(keys) ==> Counts(keys)[x] > 0
  {
    if |keys| > 0 {
      var n := |keys| - 1;
      CountsAre(keys[..n], x);
      LastIndexIs(keys[..n], x);
    }
  }

  /** A key is unique exactly when it is counted once, and then it stands at its last position. */
  lemma UniqueIff(keys: seq<Id>, x: Id)
    ensures (exists i: nat :: IsOnly(keys, x, i)) <==> x in Counts(keys) && Counts(keys)[x] == 1
    ensures forall i: nat :: IsOnly(keys, x, i) ==> x in LastIndex(keys) && LastIndex(keys)[x] == i
  {
    CountsAre(keys, x);
    LastIndexIs(keys, x);
  }

  method Index(keys: seq<Id>) returns (last: map<Id, nat>, counts: map<Id, nat>)
    ensures last == LastIndex(keys) && counts == Counts(keys)
  {
    last, counts := map[], map[];
    var i := 0;
    while i < |keys|
      invariant i <= |keys| && last == LastIndex(keys[..i]) && counts == Counts(keys[..i])
    {
      assert keys[..i + 1][..i] == keys[..i];
      last := last[keys[i] := i];
      counts := counts[keys[i] := (if keys[i] in counts then counts[keys[i]] else 0) + 1];
      i := i + 1;
    }
    assert keys[..i] == keys;
  }

  function ResultIds(results: seq<CheckResult>): seq<Id> {
    seq(|results|, i requires 0 <= i < |results| => results[i].id)
  }

  function ResultChecks(results: seq<CheckResult>): seq<Id> {
    seq(|results|, i requires 0 <= i < |results| => results[i].check)
  }

  function CheckIds(checks: seq<Check>): seq<Id> {
    seq(|checks|, i requires 0 <= i < |checks| => checks[i].id)
  }

  // ----- one pass per table -----

  lemma {:induction false} AffectedMembers(fs: seq<Frozen>, iid: Id)
    ensures iid in Affected(fs) <==> exists k :: 0 <= k < |fs| && fs[k].integration == iid
  {
    if |fs| > 0 {
      var n := |fs| - 1;
      AffectedMembers(fs[..n], iid);
      if exists k :: 0 <= k < n && fs[..n][k].integration == iid {
        var k :| 0 <= k < n && fs[..n][k].integration == iid;
        assert fs[k].integration == iid;
      }
    }
  }

  method CollectAffected(fs: seq<Frozen>) returns (affected: Option<map<Id, Id>>)
    ensures affected.Some? <==> AffectedOk(fs)
    ensures affected.Some? ==> affected.value == Affected(fs)
  {
    if |fs| == 0 { return None; }
    var found: map<Id, Id> := map[];
    var i := 0;
    while i < |fs|
      invariant i <= |fs| && found == Affected(fs[..i])
      invariant forall k :: 0 <= k < i ==> fs[k].integration != NO_ID && fs[k].scoped
      invariant forall j, k :: 0 <= j < k < i ==> fs[j].integration != fs[k].integration
    {
      var f := fs[i];
      assert fs[..i + 1][..i] == fs[..i];
      AffectedMembers(fs[..i], f.integration);
      if f.integration == NO_ID || f.integration in found || !f.scoped {
        if f.integration in found {
          var k :| 0 <= k < i && fs[..i][k].integration == f.integration;
          assert fs[k].integration == fs[i].integration;
        }
        return None;
      }
      assert forall k :: 0 <= k < i ==> fs[..i][k].integration == fs[k].integration;
      found := found[f.integration := f.feature];
      i := i + 1;
    }
    assert fs[..i] == fs;
    return Some(found);
  }

  function Upto(g: Gate, k: nat): Gate
    requires k <= |g.integrations|
  {
    g.(integrations := g.integrations[..k])
  }

  /** One gate: which of its integrations are affected, each once and in scope. */
  method ScanGate(g: Gate, affected: map<Id, Id>, product: Id) returns (ok: bool, relevant: bool)
    ensures ok == GateScoped(g, affected, product)
    ensures ok ==> relevant == Relevant(g, affected)
  {
    var seen: set<Id> := {};
    relevant := false;
    var k := 0;
    while k < |g.integrations|
      invariant k <= |g.integrations| && GateScoped(Upto(g, k), affected, product)
      invariant relevant == Relevant(Upto(g, k), affected)
      invariant forall x :: x in seen <==> x in affected && x in g.integrations[..k]
    {
      hide GateScoped, Relevant;
      var iid := g.integrations[k];
      ScanStep(g, k, affected, product);
      if iid in affected {
        if iid in seen || g.product != product || g.feature != affected[iid] {
          Unscoped(g, k, affected, product);
          return false, relevant;
        }
        seen, relevant := seen + {iid}, true;
      }
      assert g.integrations[..k + 1] == g.integrations[..k] + [iid];
      k := k + 1;
    }
    assert Upto(g, k) == g;
    return true, relevant;
  }

  lemma ScanStep(g: Gate, k: nat, affected: map<Id, Id>, product: Id)
    requires k < |g.integrations| && GateScoped(Upto(g, k), affected, product)
    ensures Relevant(Upto(g, k + 1), affected) <==> Relevant(Upto(g, k), affected) || g.integrations[k] in affected
    ensures (g.integrations[k] in affected ==>
               g.integrations[k] !in g.integrations[..k] && g.product == product && g.feature == affected[g.integrations[k]])
            ==> GateScoped(Upto(g, k + 1), affected, product)
  {
    var before, after := g.integrations[..k], g.integrations[..k + 1];
    assert forall j :: 0 <= j < k ==> after[j] == before[j];
    assert after[k] == g.integrations[k];
    assert forall j :: 0 <= j < k ==> before[j] in before;
  }

  lemma Unscoped(g: Gate, k: nat, affected: map<Id, Id>, product: Id)
    requires k < |g.integrations| && g.integrations[k] in affected
    requires g.integrations[k] in g.integrations[..k] || g.product != product || g.feature != affected[g.integrations[k]]
    ensures !GateScoped(g, affected, product)
  {
    if g.integrations[k] in g.integrations[..k] {
      var j :| 0 <= j < k && g.integrations[..k][j] == g.integrations[k];
      assert g.integrations[j] == g.integrations[k];
    }
  }

  lemma {:induction false} RelevantMembers(gates: seq<Gate>, affected: map<Id, Id>, id: Id)
    ensures id in RelevantGates(gates, affected)
        <==> exists k :: 0 <= k < |gates| && Relevant(gates[k], affected) && gates[k].id == id
    ensures id in RelevantGates(gates, affected) ==> RelevantGates(gates, affected)[id].id == id
  {
    if |gates| > 0 {
      var n := |gates| - 1;
      RelevantMembers(gates[..n], affected, id);
      if exists k :: 0 <= k < n && Relevant(gates[..n][k], affected) && gates[..n][k].id == id {
        var k :| 0 <= k < n && Relevant(gates[..n][k], affected) && gates[..n][k].id == id;
        assert gates[k].id == id && Relevant(gates[k], affected);
      }
    }
  }

  method CollectGates(gates: seq<Gate>, affected: map<Id, Id>, product: Id) returns (found: Option<map<Id, Gate>>)
    ensures found.Some? <==> GatesOk(gates, affected, product)
    ensures found.Some? ==> found.value == RelevantGates(gates, affected)
  {
    var m: map<Id, Gate> := map[];
    var i := 0;
    while i < |gates|
      invariant i <= |gates| && m == RelevantGates(gates[..i], affected)
      invariant GatesOk(gates[..i], affected, product)
    {
      hide GateScoped, Relevant, GatesOk;
      var g := gates[i];
      assert gates[..i + 1][..i] == gates[..i];
      var ok, relevant := ScanGate(g, affected, product);
      if !ok {
        UnscopedGate(gates, i, affected, product);
        return None;
      }
      if relevant {
        if g.id in m || g.id == NO_ID {
          RepeatedGate(gates, i, affected, product);
          return None;
        }
        NewGate(gates, i, affected, product);
        m := m[g.id := g];
      } else {
        OtherGate(gates, i, affected, product);
      }
      i := i + 1;
    }
    assert gates[..i] == gates;
    return Some(m);
  }

  lemma NewGate(gates: seq<Gate>, i: nat, affected: map<Id, Id>, product: Id)
    requires i < |gates| && GatesOk(gates[..i], affected, product) && GateScoped(gates[i], affected, product)
    requires gates[i].id != NO_ID && gates[i].id !in RelevantGates(gates[..i], affected)
    ensures GatesOk(gates[..i + 1], affected, product)
  {
    hide GateScoped, Relevant;
    RelevantMembers(gates[..i], affected, gates[i].id);
    var before, after := gates[..i], gates[..i + 1];
    assert forall k :: 0 <= k < i ==> after[k] == before[k];
  }

  lemma OtherGate(gates: seq<Gate>, i: nat, affected: map<Id, Id>, product: Id)
    requires i < |gates| && GatesOk(gates[..i], affected, product) && !Relevant(gates[i], affected)
    ensures GatesOk(gates[..i + 1], affected, product)
  {
    hide GateScoped, Relevant;
    var before, after := gates[..i], gates[..i + 1];
    assert forall k :: 0 <= k < i ==> after[k] == before[k];
  }

  lemma RepeatedGate(gates: seq<Gate>, i: nat, affected: map<Id, Id>, product: Id)
    requires i < |gates| && Relevant(gates[i], affected)
    requires gates[i].id in RelevantGates(gates[..i], affected) || gates[i].id == NO_ID
    ensures !GatesOk(gates, affected, product)
  {
    hide GateScoped, Relevant;
    RelevantMembers(gates[..i], affected, gates[i].id);
    if gates[i].id != NO_ID {
      var k :| 0 <= k < i && Relevant(gates[..i][k], affected) && gates[..i][k].id == gates[i].id;
      assert gates[k].id == gates[i].id && Relevant(gates[k], affected);
    }
  }

  lemma UnscopedGate(gates: seq<Gate>, i: nat, affected: map<Id, Id>, product: Id)
    requires i < |gates| && !GateScoped(gates[i], affected, product)
    ensures !GatesOk(gates, affected, product)
  {
    UnscopedIsRelevant(gates[i], affected, product);
    hide GateScoped, Relevant;
  }

  lemma UnscopedIsRelevant(g: Gate, affected: map<Id, Id>, product: Id)
    requires !GateScoped(g, affected, product)
    ensures Relevant(g, affected)
  {
  }

  lemma {:induction false} RelevantCheckMembers(checks: seq<Check>, gates: map<Id, Gate>, id: Id)
    ensures id in RelevantChecks(checks, gates) ==>
              RelevantChecks(checks, gates)[id].id == id && RelevantChecks(checks, gates)[id].gate in gates
  {
    if |checks| > 0 {
      RelevantCheckMembers(checks[..|checks| - 1], gates, id);
    }
  }

  /** The checks seen so far: scoped, and the gates they cover. */
  ghost predicate Collected(checks: seq<Check>, gates: map<Id, Gate>, product: Id, counts: map<Id, nat>, covered: set<Id>) {
    && ChecksOk(checks, gates, product) && counts == Counts(CheckIds(checks))
    && forall g :: g in covered <==> g in gates && HasCheck(checks, g)
  }

  lemma CollectedNext(checks: seq<Check>, c: Check, gates: map<Id, Gate>, product: Id, counts: map<Id, nat>, covered: set<Id>)
    requires Collected(checks, gates, product, counts, covered)
    ensures var scoped := c.gate in gates ==> c.id != NO_ID && c.product == product && c.feature == gates[c.gate].feature;
            && (scoped <==> ChecksOk(checks + [c], gates, product))
            && (scoped ==> Collected(checks + [c], gates, product, counts[c.id := (if c.id in counts then counts[c.id] else 0) + 1],
                                     if c.gate in gates then covered + {c.gate} else covered))
  {
    ChecksOkNext(checks, c, gates, product);
    CountsNext(checks, c);
    forall g ensures HasCheck(checks + [c], g) <==> g == c.gate || HasCheck(checks, g) { HasCheckNext(checks, c, g); }
    hide ChecksOk, Counts, HasCheck, CheckIds;
  }

  lemma ChecksOkNext(checks: seq<Check>, c: Check, gates: map<Id, Gate>, product: Id)
    requires ChecksOk(checks, gates, product)
    ensures ChecksOk(checks + [c], gates, product)
       <==> (c.gate in gates ==> c.id != NO_ID && c.product == product && c.feature == gates[c.gate].feature)
  {
    var more := checks + [c];
    assert more[|checks|] == c;
    assert forall k :: 0 <= k < |checks| ==> more[k] == checks[k];
  }

  lemma CountsNext(checks: seq<Check>, c: Check)
    ensures var counts := Counts(CheckIds(checks));
            Counts(CheckIds(checks + [c])) == counts[c.id := (if c.id in counts then counts[c.id] else 0) + 1]
  {
    assert CheckIds(checks + [c]) == CheckIds(checks) + [c.id];
    assert CheckIds(checks + [c])[..|checks|] == CheckIds(checks);
  }

  lemma HasCheckNext(checks: seq<Check>, c: Check, g: Id)
    ensures HasCheck(checks + [c], g) <==> g == c.gate || HasCheck(checks, g)
  {
    var more := checks + [c];
    assert more[|checks|] == c;
    if k :| 0 <= k < |checks| && checks[k].gate == g { assert more[k].gate == g; }
  }

  predicate HasCheck(checks: seq<Check>, g: Id) {
    exists k :: 0 <= k < |checks| && checks[k].gate == g
  }

  lemma ChecksOkPrefix(checks: seq<Check>, n: nat, gates: map<Id, Gate>, product: Id)
    requires n <= |checks| && ChecksOk(checks, gates, product)
    ensures ChecksOk(checks[..n], gates, product)
  {
  }

  /** The relevant checks, how often each identity occurs at all, and which gates have any. */
  method CollectChecks(checks: seq<Check>, gates: map<Id, Gate>, product: Id)
    returns (found: Option<map<Id, Check>>, counts: map<Id, nat>, covered: set<Id>)
    ensures found.Some? <==> ChecksOk(checks, gates, product)
    ensures found.Some? ==> found.value == RelevantChecks(checks, gates) && counts == Counts(CheckIds(checks))
    ensures found.Some? ==> forall g :: g in covered <==> g in gates && exists k :: 0 <= k < |checks| && checks[k].gate == g
  {
    var m: map<Id, Check> := map[];
    counts, covered := map[], {};
    var i := 0;
    while i < |checks|
      invariant i <= |checks| && m == RelevantChecks(checks[..i], gates)
      invariant Collected(checks[..i], gates, product, counts, covered)
    {
      hide Collected, ChecksOk, Counts;
      var c := checks[i];
      assert checks[..i + 1] == checks[..i] + [c] && checks[..i + 1][..i] == checks[..i];
      CollectedNext(checks[..i], c, gates, product, counts, covered);
      if ChecksOk(checks, gates, product) { ChecksOkPrefix(checks, i + 1, gates, product); }
      counts := counts[c.id := (if c.id in counts then counts[c.id] else 0) + 1];
      if c.gate in gates {
        if c.id == NO_ID || c.product != product || c.feature != gates[c.gate].feature { return None, counts, covered; }
        m := m[c.id := c];
        covered := covered + {c.gate};
      }
      i := i + 1;
    }
    assert checks[..i] == checks;
    return Some(m), counts, covered;
  }

  method BlockingGatesCovered(gates: map<Id, Gate>, covered: set<Id>) returns (ok: bool)
    ensures ok <==> forall g :: g in gates && gates[g].blocking ==> g in covered
  {
    var rest := gates.Keys;
    while rest != {}
      invariant rest <= gates.Keys
      invariant forall g :: g in gates && g !in rest && gates[g].blocking ==> g in covered
      decreases |rest|
    {
      var g :| g in rest;
      if gates[g].blocking && g !in covered { return false; }
      rest := rest - {g};
    }
    return true;
  }

  // ----- the cited results -----

  /** What the loop over cited results has established: the checks passed and the integrations covered. */
  ghost predicate Established(log: Log, cited: seq<Id>, affected: map<Id, Id>, gates: map<Id, Gate>, checks: map<Id, Check>,
                              passed: set<Id>, covered: set<Id>) {
    && (forall c :: c in passed <==> Passed(log, cited, c))
    && (forall iid :: iid in covered <==>
          exists c :: c in checks && checks[c].gate in gates && Passed(log, cited, c) && Covers(gates[checks[c].gate], affected, iid))
  }

  lemma PassedGrows(log: Log, cited: seq<Id>, k: nat, i: nat)
    requires k < |cited| && i < |log.results| && IsOnlyResult(log.results, cited[k], i)
    ensures forall c :: Passed(log, cited[..k + 1], c) <==> Passed(log, cited[..k], c) || c == log.results[i].check
  {
    var before, after := cited[..k], cited[..k + 1];
    forall c ensures Passed(log, after, c) <==> Passed(log, before, c) || c == log.results[i].check {
      if Passed(log, before, c) {
        var a, b: nat :| 0 <= a < |before| && b < |log.results| && IsOnlyResult(log.results, before[a], b) && log.results[b].check == c;
        assert after[a] == before[a];
      }
      if c == log.results[i].check { assert after[k] == cited[k]; }
      if Passed(log, after, c) {
        var a, b: nat :| 0 <= a < |after| && b < |log.results| && IsOnlyResult(log.results, after[a], b) && log.results[b].check == c;
        if a < k { assert before[a] == after[a]; }
      }
    }
  }

  /** The positions of one cited result, looked up in the indexes. */
  method Locate(log: Log, v: Conflict, checks: map<Id, Check>, rid: Id, last: map<Id, nat>, counts: map<Id, nat>,
                latest: map<Id, nat>, checkCounts: map<Id, nat>) returns (i: Option<nat>)
    requires last == LastIndex(ResultIds(log.results)) && counts == Counts(ResultIds(log.results))
    requires latest == LastIndex(ResultChecks(log.results)) && checkCounts == Counts(CheckIds(log.checks))
    ensures i.Some? <==> Cites(log, v, checks, rid)
    ensures i.Some? ==> i.value < |log.results| && IsOnlyResult(log.results, rid, i.value) && log.results[i.value].check in checks
  {
    var ids := ResultIds(log.results);
    UniqueIff(ids, rid);
    if rid !in counts || counts[rid] != 1 {
      forall j: nat ensures !IsOnlyResult(log.results, rid, j) {
        if j < |log.results| && IsOnlyResult(log.results, rid, j) { assert IsOnly(ids, rid, j); }
      }
      return None;
    }
    CountsAre(ids, rid);
    var n := last[rid];
    var r := log.results[n];
    assert IsOnlyResult(log.results, rid, n) by { assert forall j :: 0 <= j < |ids| ==> ids[j] == log.results[j].id; }
    LatestIff(log.results, n);
    OneCheckIff(log.checks, r.check);
    if r.check !in checks || r.check !in checkCounts || checkCounts[r.check] != 1 || r.product != v.product
       || r.feature != checks[r.check].feature || !r.passed || r.commit != v.commit || latest[r.check] != n {
      return None;
    }
    return Some(n);
  }

  lemma LatestIff(results: seq<CheckResult>, i: nat)
    requires i < |results|
    ensures results[i].check in LastIndex(ResultChecks(results))
    ensures IsLatest(results, i) <==> LastIndex(ResultChecks(results))[results[i].check] == i
  {
    var keys := ResultChecks(results);
    LastIndexIs(keys, keys[i]);
    assert keys[i] in keys;
    assert forall j :: 0 <= j < |keys| ==> keys[j] == results[j].check;
  }

  lemma OneCheckIff(checks: seq<Check>, id: Id)
    ensures OneCheck(checks, id) <==> id in Counts(CheckIds(checks)) && Counts(CheckIds(checks))[id] == 1
  {
    var keys := CheckIds(checks);
    UniqueIff(keys, id);
    assert forall j :: 0 <= j < |keys| ==> keys[j] == checks[j].id;
    if OneCheck(checks, id) {
      var k :| IsOnlyCheck(checks, id, k);
      assert IsOnly(keys, id, k);
    }
    if exists i: nat :: IsOnly(keys, id, i) {
      var i: nat :| IsOnly(keys, id, i);
      assert IsOnlyCheck(checks, id, i);
    }
  }

  function CoveredBy(g: Gate, affected: map<Id, Id>): set<Id> {
    set iid | iid in affected && Covers(g, affected, iid)
  }

  lemma CoveredGrows(log: Log, cited: seq<Id>, k: nat, i: nat, affected: map<Id, Id>, gates: map<Id, Gate>, checks: map<Id, Check>,
                     passed: set<Id>, covered: set<Id>)
    requires k < |cited| && i < |log.results| && IsOnlyResult(log.results, cited[k], i)
    requires log.results[i].check in checks && checks[log.results[i].check].gate in gates
    requires Established(log, cited[..k], affected, gates, checks, passed, covered)
    ensures Established(log, cited[..k + 1], affected, gates, checks, passed + {log.results[i].check},
                        covered + CoveredBy(gates[checks[log.results[i].check].gate], affected))
  {
    PassedGrows(log, cited, k, i);
    hide Passed, IsOnlyResult, Covers;
    var check := log.results[i].check;
    var after := covered + CoveredBy(gates[checks[check].gate], affected);
    forall iid
      ensures iid in after <==>
              exists c :: c in checks && checks[c].gate in gates && Passed(log, cited[..k + 1], c) && Covers(gates[checks[c].gate], affected, iid)
    {
      if iid in covered {
        var c :| c in checks && checks[c].gate in gates && Passed(log, cited[..k], c) && Covers(gates[checks[c].gate], affected, iid);
        assert Passed(log, cited[..k + 1], c);
      }
      if iid in CoveredBy(gates[checks[check].gate], affected) {
        assert Passed(log, cited[..k + 1], check) && Covers(gates[checks[check].gate], affected, iid);
      }
      if c :| c in checks && checks[c].gate in gates && Passed(log, cited[..k + 1], c) && Covers(gates[checks[c].gate], affected, iid) {
        if c == check {
          CoverIsAffected(gates[checks[check].gate], affected, iid);
        }
      }
    }
  }

  lemma CoverIsAffected(g: Gate, affected: map<Id, Id>, iid: Id)
    requires Covers(g, affected, iid)
    ensures iid in CoveredBy(g, affected)
  {
  }

  ghost predicate AllCite(log: Log, v: Conflict, checks: map<Id, Check>, cited: seq<Id>) {
    Distinct(cited) && forall k :: 0 <= k < |cited| ==> Cites(log, v, checks, cited[k])
  }

  lemma CitesNext(log: Log, v: Conflict, checks: map<Id, Check>, cited: seq<Id>, k: nat)
    requires k < |cited| && AllCite(log, v, checks, cited[..k])
    ensures cited[k] !in cited[..k] && Cites(log, v, checks, cited[k]) ==> AllCite(log, v, checks, cited[..k + 1])
    ensures cited[k] in cited[..k] || !Cites(log, v, checks, cited[k]) ==> !AllCite(log, v, checks, cited)
  {
    hide Cites;
    var before, after := cited[..k], cited[..k + 1];
    assert forall j :: 0 <= j < k ==> after[j] == before[j] && before[j] in before;
    if cited[k] in before {
      var j :| 0 <= j < k && before[j] == cited[k];
      assert cited[j] == cited[k];
    }
  }

  method CheckCited(log: Log, v: Conflict, cited: seq<Id>, affected: map<Id, Id>, gates: map<Id, Gate>, checks: map<Id, Check>,
                    checkCounts: map<Id, nat>)
    returns (ok: bool, passed: set<Id>, covered: set<Id>)
    requires checkCounts == Counts(CheckIds(log.checks))
    requires forall c :: c in checks ==> checks[c].gate in gates
    ensures ok <==> AllCite(log, v, checks, cited)
    ensures ok ==> Established(log, cited, affected, gates, checks, passed, covered)
  {
    var last, counts := Index(ResultIds(log.results));
    var latest, all := Index(ResultChecks(log.results));
    var seen: set<Id> := {};
    passed, covered := {}, {};
    var k := 0;
    while k < |cited|
      invariant k <= |cited|
      invariant forall x :: x in seen <==> x in cited[..k]
      invariant AllCite(log, v, checks, cited[..k])
      invariant Established(log, cited[..k], affected, gates, checks, passed, covered)
    {
      hide Cites, Established, LastIndex, Counts, IsOnlyResult, AllCite, CoveredBy;
      var rid := cited[k];
      assert cited[..k + 1] == cited[..k] + [rid];
      CitesNext(log, v, checks, cited, k);
      if rid in seen { return false, passed, covered; }
      var i := Locate(log, v, checks, rid, last, counts, latest, checkCounts);
      if i.None? { return false, passed, covered; }
      CoveredGrows(log, cited, k, i.value, affected, gates, checks, passed, covered);
      seen := seen + {rid};
      var check := log.results[i.value].check;
      passed := passed + {check};
      covered := covered + CoveredBy(gates[checks[check].gate], affected);
      k := k + 1;
    }
    assert cited[..k] == cited;
    return true, passed, covered;
  }

  method AllBlockingPassed(gates: map<Id, Gate>, checks: map<Id, Check>, passed: set<Id>) returns (ok: bool)
    requires forall c :: c in checks ==> checks[c].gate in gates
    ensures ok <==> forall c :: c in checks && gates[checks[c].gate].blocking ==> c in passed
  {
    var rest := checks.Keys;
    while rest != {}
      invariant rest <= checks.Keys
      invariant forall c :: c in checks && c !in rest && gates[checks[c].gate].blocking ==> c in passed
      decreases |rest|
    {
      var c :| c in rest;
      if gates[checks[c].gate].blocking && c !in passed { return false; }
      rest := rest - {c};
    }
    return true;
  }

  /** The whole check; it accepts exactly what the statement about the log accepts. */
  method ValidateConflictResolutionEvidence(log: Log, v: Conflict, cited: seq<Id>) returns (ok: bool)
    ensures ok == Accepts(log, v, cited)
  {
    if !v.commitFull || |cited| == 0 || |v.integrations| == 0 { return false; }
    var affected := CollectAffected(v.integrations);
    if affected.None? { return false; }
    var gates := CollectGates(log.gates, affected.value, v.product);
    if gates.None? { return false; }
    var checks, checkCounts, gateChecks := CollectChecks(log.checks, gates.value, v.product);
    if checks.None? { return false; }
    var blocking := BlockingGatesCovered(gates.value, gateChecks);
    if !blocking { return false; }
    forall c | c in checks.value ensures checks.value[c].gate in gates.value {
      RelevantCheckMembers(log.checks, gates.value, c);
    }
    var cites, passed, covered := CheckCited(log, v, cited, affected.value, gates.value, checks.value, checkCounts);
    if !cites { return false; }
    var complete := AllBlockingPassed(gates.value, checks.value, passed);
    hide Passed, Cites, AffectedOk, GatesOk, ChecksOk, Affected, RelevantGates, RelevantChecks;
    if !complete { return false; }
    return affected.value.Keys <= covered;
  }
}
