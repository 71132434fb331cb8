/**
  Conservation between what the providers have been asked to do and what the log records:
  one build dispatch per delivery, and no source write while an earlier one is unresolved.
 */
module WorkerLedger {
  import opened Ids
  import opened WorkerModel
  import opened WorkerSafety

  /** The tokens about to make a provider call for operation `i`. */
  function Ready(workers: map<Id, Worker>, i: nat, pc: Pc): set<Id> {
    set t | t in workers && workers[t].index == i && workers[t].pc == pc
  }

  function Open(op: Op): nat {
    if op.intent == SourceIntent then 1 else 0
  }

  /** A build may have been dispatched: the delivery is past its dispatch phase. */
  function Reached(op: Op): nat {
    if Rank(op.phase) >= 2 then 1 else 0
  }

  predicate LedgerOk(st: State, i: nat)
    requires i < |st.ops| == |st.ledgers|
  {
    var op, ledger := st.ops[i], st.ledgers[i];
    Guarded(op.kind) ==>
      && ledger.begun == ledger.acknowledged + Open(op)
      && ledger.written + |Ready(st.workers, i, ReadyToWrite)| <= ledger.begun
      && ledger.dispatched + |Ready(st.workers, i, ReadyToDispatch)| <= Reached(op)
  }

  predicate Balanced(st: State) {
    |st.ledgers| == |st.ops| && forall i :: 0 <= i < |st.ops| ==> LedgerOk(st, i)
  }

  // ----- how one worker's change moves the ready sets -----

  lemma ReadyRemoved(workers: map<Id, Worker>, t: Id, i: nat, pc: Pc)
    requires t in workers
    ensures |Ready(workers - {t}, i, pc)|
         == |Ready(workers, i, pc)| - (if workers[t].index == i && workers[t].pc == pc then 1 else 0)
  {
    var before, after := Ready(workers, i, pc), Ready(workers - {t}, i, pc);
    assert forall u :: u in after <==> u != t && u in before;
    if t in before {
      assert before == after + {t};
    } else {
      assert before == after;
    }
  }

  lemma ReadyUpdated(workers: map<Id, Worker>, t: Id, w: Worker, i: nat, pc: Pc)
    ensures |Ready(workers[t := w], i, pc)|
         == |Ready(workers - {t}, i, pc)| + (if w.index == i && w.pc == pc then 1 else 0)
  {
    var before, after := Ready(workers - {t}, i, pc), Ready(workers[t := w], i, pc);
    assert forall u :: u in before <==> u != t && u in after;
    if t in after {
      assert after == before + {t};
    } else {
      assert after == before;
    }
  }

  lemma ReadyReplaced(workers: map<Id, Worker>, t: Id, w: Worker, i: nat, pc: Pc)
    requires t in workers
    ensures |Ready(workers[t := w], i, pc)|
         == |Ready(workers, i, pc)|
            - (if workers[t].index == i && workers[t].pc == pc then 1 else 0)
            + (if w.index == i && w.pc == pc then 1 else 0)
  {
    ReadyRemoved(workers, t, i, pc);
    ReadyUpdated(workers, t, w, i, pc);
  }

  lemma ReadyAdded(workers: map<Id, Worker>, t: Id, w: Worker, i: nat, pc: Pc)
    requires t !in workers && w.pc != pc
    ensures Ready(workers[t := w], i, pc) == Ready(workers, i, pc)
  {
  }

  // ----- every step keeps the balance -----

  /** Records and ledgers elsewhere, and the ready sets of other operations, are untouched. */
  predicate Elsewhere(st: State, st': State, k: nat) {
    && |st'.ops| == |st.ops| == |st.ledgers| == |st'.ledgers|
    && forall i :: 0 <= i < |st.ops| && i != k ==>
         && st'.ops[i] == st.ops[i] && st'.ledgers[i] == st.ledgers[i]
         && |Ready(st'.workers, i, ReadyToWrite)| <= |Ready(st.workers, i, ReadyToWrite)|
         && |Ready(st'.workers, i, ReadyToDispatch)| <= |Ready(st.workers, i, ReadyToDispatch)|
  }

  lemma BalancedElsewhere(st: State, st': State, k: nat)
    requires Balanced(st) && Elsewhere(st, st', k) && k < |st.ops|
    requires LedgerOk(st', k)
    ensures Balanced(st')
  {
    hide Ready;
    forall i | 0 <= i < |st'.ops| ensures LedgerOk(st', i) {
      if i != k {
        assert LedgerOk(st, i);
      }
    }
  }

  lemma WorkerReplaced(st: State, st': State, t: Id, w: Worker)
    requires t in st.workers && w.index == st.workers[t].index && st'.workers == st.workers[t := w]
    ensures forall i: nat, pc :: i != w.index ==> |Ready(st'.workers, i, pc)| == |Ready(st.workers, i, pc)|
  {
    forall i: nat, pc | i != w.index ensures |Ready(st'.workers, i, pc)| == |Ready(st.workers, i, pc)| {
      ReadyReplaced(st.workers, t, w, i, pc);
    }
  }

  lemma WorkerRemoved(st: State, st': State, t: Id)
    requires t in st.workers && st'.workers == st.workers - {t}
    ensures forall i: nat, pc :: |Ready(st'.workers, i, pc)| <= |Ready(st.workers, i, pc)|
    ensures forall i: nat, pc :: i != st.workers[t].index ==> |Ready(st'.workers, i, pc)| == |Ready(st.workers, i, pc)|
  {
    forall i: nat, pc
      ensures |Ready(st'.workers, i, pc)| <= |Ready(st.workers, i, pc)|
      ensures i != st.workers[t].index ==> |Ready(st'.workers, i, pc)| == |Ready(st.workers, i, pc)|
    {
      ReadyRemoved(st.workers, t, i, pc);
    }
  }

  /** One record, its ledger and one worker of it change, or that worker goes. */
  predicate OneRecord(st: State, st': State, token: Id, i: nat) {
    && token in st.workers && st.workers[token].index == i < |st.ops| == |st.ledgers|
    && |st'.ops| == |st.ops| && |st'.ledgers| == |st.ledgers|
    && st'.ops == st.ops[i := st'.ops[i]] && st'.ledgers == st.ledgers[i := st'.ledgers[i]]
    && (st'.workers == st.workers - {token}
        || (token in st'.workers && st'.workers == st.workers[token := st'.workers[token]] && st'.workers[token].index == i))
  }

  lemma OneRecordBalanced(st: State, st': State, token: Id, i: nat)
    requires Balanced(st) && OneRecord(st, st', token, i) && LedgerOk(st', i)
    ensures Balanced(st')
  {
    hide Ready, LedgerOk, Balanced;
    if token in st'.workers {
      WorkerReplaced(st, st', token, st'.workers[token]);
    } else {
      WorkerRemoved(st, st', token);
    }
    BalancedElsewhere(st, st', i);
  }

  lemma BeginLedger(st: State, token: Id, flowOk: bool)
    requires Shape(st) && Balanced(st) && token in st.workers && BeginTx(st, token, flowOk).Some?
    ensures OneRecord(st, BeginTx(st, token, flowOk).value, token, st.workers[token].index)
    ensures LedgerOk(BeginTx(st, token, flowOk).value, st.workers[token].index)
  {
    var st', w := BeginTx(st, token, flowOk).value, st.workers[token];
    assert WorkerOk(st, token) && LedgerOk(st, w.index);
    hide Ready, Progress, Shape, Balanced, WorkerOk;
    ReadyReplaced(st.workers, token, st'.workers[token], w.index, ReadyToWrite);
    ReadyReplaced(st.workers, token, st'.workers[token], w.index, ReadyToDispatch);
  }

  lemma BeginBalanced(st: State, token: Id, flowOk: bool)
    requires Shape(st) && Balanced(st) && token in st.workers && BeginTx(st, token, flowOk).Some?
    ensures Balanced(BeginTx(st, token, flowOk).value)
  {
    BeginLedger(st, token, flowOk);
    hide *;
    OneRecordBalanced(st, BeginTx(st, token, flowOk).value, token, st.workers[token].index);
  }

  lemma CallBalanced(st: State, token: Id, from: Pc)
    requires Shape(st) && Balanced(st) && token in st.workers && CallTx(st, token, from).Some?
    ensures Balanced(CallTx(st, token, from).value)
  {
    hide Ready, Progress, IntentFits, SameIdentity;
    var st', w := CallTx(st, token, from).value, st.workers[token];
    assert WorkerOk(st, token) && LedgerOk(st, w.index);
    ReadyReplaced(st.workers, token, st'.workers[token], w.index, ReadyToWrite);
    ReadyReplaced(st.workers, token, st'.workers[token], w.index, ReadyToDispatch);
    WorkerReplaced(st, st', token, st'.workers[token]);
    BalancedElsewhere(st, st', w.index);
  }

  lemma AdmitLedger(st: State, token: Id, k: nat, a: Acknowledgement, admitted: bool)
    requires Shape(st) && Balanced(st) && token in st.workers && AdmitTx(st, token, k, a, admitted).Some?
    ensures OneRecord(st, AdmitTx(st, token, k, a, admitted).value, token, st.workers[token].index)
    ensures LedgerOk(AdmitTx(st, token, k, a, admitted).value, st.workers[token].index)
  {
    var st', w := AdmitTx(st, token, k, a, admitted).value, st.workers[token];
    assert WorkerOk(st, token) && LedgerOk(st, w.index) && RecordOk(st.ops[w.index]);
    hide Ready, Progress, Shape, Balanced, WorkerOk;
    WorkerRemoved(st, st', token);
  }

  lemma AdmitBalanced(st: State, token: Id, k: nat, a: Acknowledgement, admitted: bool)
    requires Shape(st) && Balanced(st) && token in st.workers && AdmitTx(st, token, k, a, admitted).Some?
    ensures Balanced(AdmitTx(st, token, k, a, admitted).value)
  {
    AdmitLedger(st, token, k, a, admitted);
    hide *;
    OneRecordBalanced(st, AdmitTx(st, token, k, a, admitted).value, token, st.workers[token].index);
  }

  /** A delivery never falls back behind its dispatch, and only the dispatching save prepares a call. */
  lemma SavedRank(w: Worker, s: Save)
    requires Progress(w) && Offers(w, s) && w.copy.kind.Deploy?
    ensures Rank(w.last.phase) <= Rank(s.phase)
    ensures !s.release && s.phase == BuildLookup ==> Rank(w.last.phase) == 1
  {
  }

  /** A source intent appears only through its own transaction, and goes only with a release. */
  lemma SavedOpen(w: Worker, current: Op, s: Save)
    requires Progress(w) && IntentFits(current) && current == w.last && Offers(w, s)
    ensures SavedIntent(current, w.copy, s) == SourceIntent ==> current.intent == SourceIntent
    ensures current.intent == SourceIntent ==> s.release && SavedIntent(current, w.copy, s) in {SourceIntent, NoIntent}
    ensures w.copy.kind.Deploy? ==> current.intent != SourceIntent
    ensures w.pc == ReadyToWrite ==> !Offers(w, s)
  {
    hide Confirmed;
  }

  /** What a commit does to its own record, ledger and worker, as far as the balance is concerned. */
  predicate CommitMoves(st: State, st': State, token: Id)
    requires token in st.workers
  {
    var i := st.workers[token].index;
    && i < |st.ops| == |st'.ops| == |st.ledgers| == |st'.ledgers|
    && SameIdentity(st.ops[i], st'.ops[i]) && st.workers[token].pc != ReadyToWrite
    && Reached(st.ops[i]) <= Reached(st'.ops[i])
    && st'.ledgers[i].begun == st.ledgers[i].begun && st'.ledgers[i].written == st.ledgers[i].written
    && st'.ledgers[i].dispatched == st.ledgers[i].dispatched
    && st'.ledgers[i].acknowledged + Open(st'.ops[i]) == st.ledgers[i].acknowledged + Open(st.ops[i])
    && (st'.workers == st.workers - {token}
        || (token in st'.workers && st'.workers == st.workers[token := st'.workers[token]]
            && st'.workers[token].index == i && st'.workers[token].pc != ReadyToWrite
            && (st'.workers[token].pc == ReadyToDispatch ==> Reached(st.ops[i]) == 0 && Reached(st'.ops[i]) == 1)))
  }

  /** The same for the record a save computes. */
  predicate SavedMoves(w: Worker, current: Op, saved: Op, s: Save) {
    && SameIdentity(current, saved) && w.pc != ReadyToWrite
    && Reached(current) <= Reached(saved) && Open(saved) <= Open(current)
    && (current.intent == SourceIntent ==> saved.intent == SourceIntent || saved.intent == NoIntent)
    && (!s.release ==> AfterSave(w, s) != ReadyToWrite)
    && (!s.release && AfterSave(w, s) == ReadyToDispatch ==> Reached(current) == 0 && Reached(saved) == 1)
  }

  lemma SavedMoved(w: Worker, current: Op, token: Id, s: Save, now: nat)
    requires Progress(w) && IntentFits(current) && current == w.last && Offers(w, s)
    ensures SavedMoves(w, current, SavedOp(current, w.copy, token, s, now), s)
  {
    SavedEnds(current, w, token, s, now);
    SavedOpen(w, current, s);
    if w.copy.kind.Deploy? { SavedRank(w, s); } else { OtherRank(w, current, s); }
    hide Offers, SavedIntent, IntentFits, SavedStatus;
  }

  lemma CommitMoved(st: State, token: Id, s: Save)
    requires Shape(st) && token in st.workers && CommitTx(st, token, s).Some?
    ensures CommitMoves(st, CommitTx(st, token, s).value, token)
  {
    hide Offers, SavedOp, SaveAdmitted, SameIdentity, IntentFits;
    CommitOwns(st, token, s);
    var w := st.workers[token];
    SavedMoved(w, st.ops[w.index], token, s, st.now);
  }

  lemma CommitOwns(st: State, token: Id, s: Save)
    requires Shape(st) && token in st.workers && CommitTx(st, token, s).Some?
    ensures WorkerOk(st, token) && RecordOk(st.ops[st.workers[token].index])
    ensures st.ops[st.workers[token].index] == st.workers[token].last && Offers(st.workers[token], s)
  {
    hide Offers, SavedIntent, IntentFits;
    assert WorkerOk(st, token);
  }

  lemma CommitLedger(st: State, token: Id, s: Save)
    requires Shape(st) && Balanced(st) && token in st.workers && CommitTx(st, token, s).Some?
    ensures |CommitTx(st, token, s).value.ops| == |CommitTx(st, token, s).value.ledgers| == |st.ops|
    ensures LedgerOk(CommitTx(st, token, s).value, st.workers[token].index)
  {
    hide CommitTx, Ready;
    CommitMoved(st, token, s);
    MovedLedger(st, CommitTx(st, token, s).value, token);
  }

  lemma MovedLedger(st: State, st': State, token: Id)
    requires token in st.workers && CommitMoves(st, st', token) && LedgerOk(st, st.workers[token].index)
    ensures LedgerOk(st', st.workers[token].index)
  {
    hide Ready;
    var i := st.workers[token].index;
    if st'.workers == st.workers - {token} {
      ReadyRemoved(st.workers, token, i, ReadyToWrite);
      ReadyRemoved(st.workers, token, i, ReadyToDispatch);
    } else {
      ReadyReplaced(st.workers, token, st'.workers[token], i, ReadyToWrite);
      ReadyReplaced(st.workers, token, st'.workers[token], i, ReadyToDispatch);
    }
  }

  lemma CommitBalanced(st: State, token: Id, s: Save)
    requires Shape(st) && Balanced(st) && token in st.workers && CommitTx(st, token, s).Some?
    ensures Balanced(CommitTx(st, token, s).value)
  {
    var st', w := CommitTx(st, token, s).value, st.workers[token];
    CommitLedger(st, token, s);
    hide Ready, LedgerOk, Offers, SaveAdmitted, SavedOp;
    CommitMoved(st, token, s);
    if s.release {
      WorkerRemoved(st, st', token);
    } else {
      WorkerReplaced(st, st', token, st'.workers[token]);
    }
    BalancedElsewhere(st, st', w.index);
  }

  lemma OtherRank(w: Worker, current: Op, s: Save)
    requires Progress(w) && IntentFits(current) && current == w.last && Offers(w, s) && !w.copy.kind.Deploy?
    ensures Rank(s.phase) == 0 && s.release && (Guarded(current.kind) ==> Rank(current.phase) == 0)
  {
  }

  lemma ClaimBalanced(st: State, token: Id, i: nat)
    requires Shape(st) && Balanced(st) && Next(st, Claim(token, i)).Some?
    ensures Balanced(Next(st, Claim(token, i)).value)
  {
    hide IsChoice;
    ClaimWrites(st, token, i);
    var st' := Next(st, Claim(token, i)).value;
    forall j | 0 <= j < |st'.ops| ensures LedgerOk(st', j) {
      assert LedgerOk(st, j);
      ReadyAdded(st.workers, token, st'.workers[token], j, ReadyToWrite);
      ReadyAdded(st.workers, token, st'.workers[token], j, ReadyToDispatch);
    }
  }

  lemma EnqueueBalanced(st: State, op: Op)
    requires Shape(st) && Balanced(st) && Next(st, Enqueue(op)).Some?
    ensures Balanced(Next(st, Enqueue(op)).value)
  {
    var st', n := Next(st, Enqueue(op)).value, |st.ops|;
    forall j | 0 <= j < |st'.ops| ensures LedgerOk(st', j) {
      if j < n {
        assert LedgerOk(st, j);
      } else {
        forall t | t in st.workers ensures st.workers[t].index < n { assert WorkerOk(st, t); }
        assert Ready(st'.workers, n, ReadyToWrite) == {} && Ready(st'.workers, n, ReadyToDispatch) == {};
      }
    }
  }

  /** Steps that rewrite no intent, no phase and no ledger of a guarded operation. */
  lemma PlainBalanced(st: State, st': State)
    requires Balanced(st) && |st'.ops| == |st.ops| && st'.ledgers == st.ledgers
    requires forall i :: 0 <= i < |st.ops| ==> SameIdentity(st.ops[i], st'.ops[i])
    requires forall i :: 0 <= i < |st.ops| && Guarded(st.ops[i].kind) ==>
               st'.ops[i].intent == st.ops[i].intent && st'.ops[i].phase == st.ops[i].phase
    requires forall i: nat, pc :: |Ready(st'.workers, i, pc)| <= |Ready(st.workers, i, pc)|
    ensures Balanced(st')
  {
    hide Ready;
    forall i | 0 <= i < |st'.ops| ensures LedgerOk(st', i) {
      assert LedgerOk(st, i);
    }
  }

  lemma NextBalanced(st: State, step: Step, st': State)
    requires Enabled(st, step, st') && Balanced(st)
    ensures Balanced(st')
  {
    hide BeginTx, CommitTx, AdmitTx, CallTx, IsChoice, IsNew, Unresolved, WorkerOk, RecordOk, LedgerOk, Ready;
    match step
    case Claim(token, i) => ClaimBalanced(st, token, i);
    case Enqueue(op) => EnqueueBalanced(st, op);
    case Begin(token, flowOk) => BeginBalanced(st, token, flowOk);
    case CallDispatch(token) => CallBalanced(st, token, ReadyToDispatch);
    case CallPropose(token) => CallBalanced(st, token, ReadyToPropose);
    case CallWrite(token) => CallBalanced(st, token, ReadyToWrite);
    case Commit(token, s) => CommitBalanced(st, token, s);
    case Admit(token, k, a, admitted) => AdmitBalanced(st, token, k, a, admitted);
    case Crash(token) =>
      WorkerRemoved(st, st', token);
      PlainBalanced(st, st');
    case _ => PlainBalanced(st, st');
  }
}
