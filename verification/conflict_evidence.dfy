/**
  Evidence for a conflict resolution: which check results prove it, as the map-based check
  decides it and as a statement about the append-only log of results.
 */
module ConflictEvidence {
  import opened Ids

  datatype Gate = Gate(id: Id, product: Id, feature: Id, integrations: seq<Id>, blocking: bool)
  datatype Check = Check(id: Id, gate: Id, product: Id, feature: Id)
  datatype CheckResult = CheckResult(id: Id, check: Id, product: Id, feature: Id, passed: bool, commit: Id)

  /** An affected integration as it was frozen; `scoped` says that its current scope is still the frozen one. */
  datatype Frozen = Frozen(integration: Id, feature: Id, scoped: bool)

  datatype Conflict = Conflict(product: Id, commit: Id, commitFull: bool, integrations: seq<Frozen>)

  datatype Log = Log(gates: seq<Gate>, checks: seq<Check>, results: seq<CheckResult>)

  // ----- what the evidence must be -----

  predicate AffectedOk(fs: seq<Frozen>) {
    && fs != []
    && (forall k :: 0 <= k < |fs| ==> fs[k].integration != NO_ID && fs[k].scoped)
    && (forall j, k :: 0 <= j < k < |fs| ==> fs[j].integration != fs[k].integration)
  }

  /** Each affected integration with its feature. */
  function Affected(fs: seq<Frozen>): map<Id, Id> {
    if |fs| == 0 then map[] else Affected(fs[..|fs| - 1])[fs[|fs| - 1].integration := fs[|fs| - 1].feature]
  }

  predicate Relevant(g: Gate, affected: map<Id, Id>) {
    exists k :: 0 <= k < |g.integrations| && g.integrations[k] in affected
  }

  /** A relevant gate lists no affected integration twice and belongs to their product and feature. */
  predicate GateScoped(g: Gate, affected: map<Id, Id>, product: Id) {
    && (forall k :: 0 <= k < |g.integrations| && g.integrations[k] in affected ==>
          g.product == product && g.feature == affected[g.integrations[k]])
    && (forall j, k :: 0 <= j < k < |g.integrations| && g.integrations[j] in affected ==>
          g.integrations[j] != g.integrations[k])
  }

  predicate GatesOk(gates: seq<Gate>, affected: map<Id, Id>, product: Id) {
    && (forall k :: 0 <= k < |gates| && Relevant(gates[k], affected) ==>
          gates[k].id != NO_ID && GateScoped(gates[k], affected, product))
    && (forall j, k :: 0 <= j < k < |gates| && Relevant(gates[j], affected) && Relevant(gates[k], affected) ==>
          gates[j].id != gates[k].id)
  }

  /** The relevant gates by identity. */
  function RelevantGates(gates: seq<Gate>, affected: map<Id, Id>): map<Id, Gate> {
    if |gates| == 0 then map[]
    else
      var n := |gates| - 1;
      var rest := RelevantGates(gates[..n], affected);
      if Relevant(gates[n], affected) then rest[gates[n].id := gates[n]] else rest
  }

  predicate ChecksOk(checks: seq<Check>, gates: map<Id, Gate>, product: Id) {
    forall k :: 0 <= k < |checks| && checks[k].gate in gates ==>
      checks[k].id != NO_ID && checks[k].product == product && checks[k].feature == gates[checks[k].gate].feature
  }

  /** The checks of relevant gates by identity, the last record of each. */
  function RelevantChecks(checks: seq<Check>, gates: map<Id, Gate>): map<Id, Check> {
    if |checks| == 0 then map[]
    else
      var n := |checks| - 1;
      var rest := RelevantChecks(checks[..n], gates);
      if checks[n].gate in gates then rest[checks[n].id := checks[n]] else rest
  }

  predicate BlockingCovered(checks: seq<Check>, gates: map<Id, Gate>) {
    forall g :: g in gates && gates[g].blocking ==> exists k :: 0 <= k < |checks| && checks[k].gate == g
  }

  ghost predicate OneCheck(checks: seq<Check>, id: Id) {
    exists k :: IsOnlyCheck(checks, id, k)
  }

  predicate IsOnlyCheck(checks: seq<Check>, id: Id, k: int) {
    0 <= k < |checks| && checks[k].id == id && forall j :: 0 <= j < |checks| && j != k ==> checks[j].id != id
  }

  /** Result `i` is the append-last result of its check. */
  predicate IsLatest(results: seq<CheckResult>, i: nat) {
    i < |results| && forall j :: i < j < |results| ==> results[j].check != results[i].check
  }

  predicate IsOnlyResult(results: seq<CheckResult>, rid: Id, i: nat) {
    i < |results| && results[i].id == rid && forall j :: 0 <= j < |results| && j != i ==> results[j].id != rid
  }

  /** Result `i` proves something for the resolution: scoped, passed on the exact commit, and still the latest. */
  ghost predicate Proves(log: Log, v: Conflict, checks: map<Id, Check>, i: nat) {
    && IsLatest(log.results, i)
    && var r := log.results[i];
    && r.check in checks && OneCheck(log.checks, r.check)
    && r.product == v.product && r.feature == checks[r.check].feature && r.passed && r.commit == v.commit
  }

  ghost predicate Cites(log: Log, v: Conflict, checks: map<Id, Check>, rid: Id) {
    exists i: nat :: i < |log.results| && IsOnlyResult(log.results, rid, i) && Proves(log, v, checks, i)
  }

  /** Check `c` is proved by a cited result. */
  ghost predicate Passed(log: Log, cited: seq<Id>, c: Id) {
    exists k, i: nat :: 0 <= k < |cited| && i < |log.results| && IsOnlyResult(log.results, cited[k], i) && log.results[i].check == c
  }

  predicate Distinct(s: seq<Id>) {
    forall j, k :: 0 <= j < k < |s| ==> s[j] != s[k]
  }

  predicate Covers(g: Gate, affected: map<Id, Id>, iid: Id) {
    iid in affected && iid in g.integrations && affected[iid] == g.feature
  }

  /** Every blocking check is passed and every affected integration is covered by some passed check. */
  ghost predicate Complete(log: Log, cited: seq<Id>, affected: map<Id, Id>, gates: map<Id, Gate>, checks: map<Id, Check>) {
    && (forall c :: c in checks && checks[c].gate in gates && gates[checks[c].gate].blocking ==> Passed(log, cited, c))
    && (forall iid :: iid in affected ==>
          exists c :: c in checks && checks[c].gate in gates && Passed(log, cited, c) && Covers(gates[checks[c].gate], affected, iid))
  }

  /** The cited results are distinct current proofs, complete for the conflict. */
  ghost predicate Accepts(log: Log, v: Conflict, cited: seq<Id>) {
    && v.commitFull && cited != [] && AffectedOk(v.integrations)
    && var affected := Affected(v.integrations);
    && GatesOk(log.gates, affected, v.product)
    && var gates := RelevantGates(log.gates, affected);
    && ChecksOk(log.checks, gates, v.product) && BlockingCovered(log.checks, gates)
    && var checks := RelevantChecks(log.checks, gates);
    && Distinct(cited) && (forall k :: 0 <= k < |cited| ==> Cites(log, v, checks, cited[k]))
    && Complete(log, cited, affected, gates, checks)
  }

  // ----- appended results -----

  /** A new result for any cited check, whatever it says, invalidates the evidence. */
  lemma AppendInvalidates(log: Log, v: Conflict, cited: seq<Id>, k: nat, i: nat, r: CheckResult)
    requires k < |cited| && i < |log.results| && IsOnlyResult(log.results, cited[k], i)
    requires r.check == log.results[i].check
    ensures !Accepts(log.(results := log.results + [r]), v, cited)
  {
    var later := log.(results := log.results + [r]);
    var checks := RelevantChecks(log.checks, RelevantGates(log.gates, Affected(v.integrations)));
    forall j: nat | j < |later.results| && IsOnlyResult(later.results, cited[k], j)
      ensures !Proves(later, v, checks, j)
    {
      assert later.results[i] == log.results[i] && later.results[i].id == cited[k];
      assert later.results[|log.results|] == r;
    }
    assert !Cites(later, v, checks, cited[k]);
  }

  /** Results of other checks, under new identities, leave the evidence as it was. */
  lemma UnrelatedAppendKeeps(log: Log, v: Conflict, cited: seq<Id>, r: CheckResult)
    requires Accepts(log, v, cited)
    requires forall i :: 0 <= i < |log.results| ==> log.results[i].id != r.id
    requires r.id !in cited && !Passed(log, cited, r.check)
    ensures Accepts(log.(results := log.results + [r]), v, cited)
  {
    var later := log.(results := log.results + [r]);
    var affected := Affected(v.integrations);
    var gates := RelevantGates(log.gates, affected);
    var checks := RelevantChecks(log.checks, gates);
    forall k | 0 <= k < |cited| ensures Cites(later, v, checks, cited[k]) {
      assert Cites(log, v, checks, cited[k]);
      var i: nat :| i < |log.results| && IsOnlyResult(log.results, cited[k], i) && Proves(log, v, checks, i);
      StillCited(log, v, cited, checks, r, k, i);
    }
    forall c | Passed(log, cited, c) ensures Passed(later, cited, c) {
      var k, i: nat :| 0 <= k < |cited| && i < |log.results| && IsOnlyResult(log.results, cited[k], i) && log.results[i].check == c;
      assert IsOnlyResult(later.results, cited[k], i) && later.results[i].check == c;
    }
    CompleteCarries(log, later, cited, affected, gates, checks);
  }

  lemma StillCited(log: Log, v: Conflict, cited: seq<Id>, checks: map<Id, Check>, r: CheckResult, k: nat, i: nat)
    requires k < |cited| && i < |log.results| && IsOnlyResult(log.results, cited[k], i) && Proves(log, v, checks, i)
    requires r.id != cited[k] && !Passed(log, cited, r.check)
    ensures Cites(log.(results := log.results + [r]), v, checks, cited[k])
  {
    var later := log.(results := log.results + [r]);
    assert later.results[i] == log.results[i];
    assert r.check != log.results[i].check;
    assert IsOnlyResult(later.results, cited[k], i) && Proves(later, v, checks, i);
  }

  lemma CompleteCarries(log: Log, later: Log, cited: seq<Id>, affected: map<Id, Id>, gates: map<Id, Gate>, checks: map<Id, Check>)
    requires Complete(log, cited, affected, gates, checks)
    requires forall c :: Passed(log, cited, c) ==> Passed(later, cited, c)
    ensures Complete(later, cited, affected, gates, checks)
  {
    hide Passed, Covers;
    forall iid | iid in affected
      ensures exists c :: c in checks && checks[c].gate in gates && Passed(later, cited, c) && Covers(gates[checks[c].gate], affected, iid)
    {
      var c :| c in checks && checks[c].gate in gates && Passed(log, cited, c) && Covers(gates[checks[c].gate], affected, iid);
    }
  }
}
