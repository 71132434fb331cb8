/**
  The lineage of a retained source selection: parents are followed back to an explicit root,
  each link attested by exactly one scoped creation event, in strictly decreasing append
  order, all after the last restore.
 */
module SourceRetention {
  import opened Ids

  /** `sound` says that the operation's own frozen retention intent is valid and its scope consistent. */
  datatype Operation = Operation(id: Id, product: Id, environment: Id, composition: Id, origin: Id, parent: Id,
                                 cancelled: bool, sound: bool)

  datatype Action = Assemble | Reconcile | UpdateFeature | RestoreBackup | OtherAction

  datatype Event = Event(action: Action, entity: Id, product: Id, environment: Id, composition: Id)

  predicate IsCreation(e: Event, id: Id) {
    Creates(e) && e.entity == id
  }

  /** The event names the operation's own product and environment, or its composition when reconciling. */
  predicate Scoped(e: Event, op: Operation) {
    && e.product == op.product
    && (if e.action.Reconcile? then e.composition == op.composition else e.environment == op.environment)
  }

  // ----- what the log says of one operation -----

  /** The number of restores' last position plus one, or zero: everything before it is revoked. */
  function RestoredUpTo(events: seq<Event>): (n: nat)
    ensures n <= |events|
    ensures n > 0 ==> events[n - 1].action.RestoreBackup?
    ensures forall i :: n <= i < |events| ==> !events[i].action.RestoreBackup?
  {
    if |events| == 0 then 0
    else
      var m := |events| - 1;
      if events[m].action.RestoreBackup? then |events| else RestoredUpTo(events[..m])
  }

  /** Event `i` is the one and only creation of `id`. */
  predicate OnlyCreation(events: seq<Event>, id: Id, i: nat) {
    && i < |events| && IsCreation(events[i], id)
    && forall j :: 0 <= j < |events| && j != i ==> !IsCreation(events[j], id)
  }

  predicate OnlyRecord(ops: seq<Operation>, id: Id, k: nat) {
    && k < |ops| && ops[k].id == id
    && forall j :: 0 <= j < |ops| && j != k ==> ops[j].id != id
  }

  predicate InScope(op: Operation, start: Operation) {
    && op.product == start.product && op.environment == start.environment && op.origin == start.origin
    && !op.cancelled && op.sound
  }

  /** One link: a single record in scope, created once, by a scoped event between the last restore and `bound`. */
  predicate Link(ops: seq<Operation>, events: seq<Event>, start: Operation, id: Id, k: nat, i: nat, bound: nat) {
    && OnlyRecord(ops, id, k) && InScope(ops[k], start)
    && OnlyCreation(events, id, i) && Scoped(events[i], ops[k]) && RestoredUpTo(events) <= i < bound
  }

  /** The lineage from `id` back to the explicit root; each parent was created before its child. */
  ghost predicate Lineage(ops: seq<Operation>, events: seq<Event>, start: Operation, id: Id, bound: nat)
    decreases bound
  {
    exists k: nat, i: nat :: Link(ops, events, start, id, k, i, bound)
                   && (if ops[k].parent == NO_ID then id == start.origin
                       else Lineage(ops, events, start, ops[k].parent, i))
  }

  // ----- the walk -----

  /** The indexes built once: the last record of each identity, and the identities recorded twice. */
  function Records(ops: seq<Operation>): map<Id, nat> {
    if |ops| == 0 then map[] else Records(ops[..|ops| - 1])[ops[|ops| - 1].id := |ops| - 1]
  }

  function Duplicates(ops: seq<Operation>): set<Id> {
    if |ops| == 0 then {}
    else
      var before := ops[..|ops| - 1];
      Duplicates(before) + (if ops[|ops| - 1].id in Records(before) then {ops[|ops| - 1].id} else {})
  }

  lemma {:induction false} RecordsIndexed(ops: seq<Operation>, id: Id)
    ensures id in Records(ops) ==> Records(ops)[id] < |ops| && ops[Records(ops)[id]].id == id
    ensures id !in Records(ops) ==> forall j :: 0 <= j < |ops| ==> ops[j].id != id
    ensures id in Records(ops) && id !in Duplicates(ops) ==> OnlyRecord(ops, id, Records(ops)[id])
    ensures id in Duplicates(ops) ==> forall k: nat :: !OnlyRecord(ops, id, k)
  {
    if |ops| > 0 {
      var n := |ops| - 1;
      var before := ops[..n];
      RecordsIndexed(before, id);
      assert forall j :: 0 <= j < n ==> before[j] == ops[j];
      if id in Duplicates(before) {
        forall k: nat ensures !OnlyRecord(ops, id, k) {
          if k < n && OnlyRecord(ops, id, k) { assert OnlyRecord(before, id, k); }
          if k == n { assert id in Records(before) by { DuplicatesRecorded(before, id); } }
        }
      }
    }
  }

  lemma {:induction false} DuplicatesRecorded(ops: seq<Operation>, id: Id)
    requires id in Duplicates(ops)
    ensures id in Records(ops)
  {
    var before := ops[..|ops| - 1];
    if id in Duplicates(before) { DuplicatesRecorded(before, id); }
  }

  method IndexRecords(ops: seq<Operation>) returns (records: map<Id, nat>, duplicates: set<Id>)
    ensures records == Records(ops) && duplicates == Duplicates(ops)
  {
    records, duplicates := map[], {};
    var i := 0;
    while i < |ops|
      invariant i <= |ops| && records == Records(ops[..i]) && duplicates == Duplicates(ops[..i])
    {
      assert ops[..i + 1][..i] == ops[..i];
      if ops[i].id in records {
        duplicates := duplicates + {ops[i].id};
      }
      records := records[ops[i].id := i];
      i := i + 1;
    }
    assert ops[..i] == ops;
  }

  datatype Creation = Creation(index: nat, count: nat)

  function Count(events: seq<Event>, id: Id): nat {
    if |events| == 0 then 0
    else Count(events[..|events| - 1], id) + (if IsCreation(events[|events| - 1], id) then 1 else 0)
  }

  function LastCreation(events: seq<Event>, id: Id): (i: nat)
    ensures Count(events, id) > 0 ==> i < |events| && IsCreation(events[i], id)
    ensures Count(events, id) == 0 ==> forall j :: 0 <= j < |events| ==> !IsCreation(events[j], id)
    ensures Count(events, id) == 1 ==> OnlyCreation(events, id, i)
    ensures Count(events, id) > 1 ==> exists j :: 0 <= j < i && IsCreation(events[j], id)
  {
    if |events| == 0 then 0
    else
      var n := |events| - 1;
      var rest := LastCreation(events[..n], id);
      assert Count(events[..n], id) > 0 ==> IsCreation(events[..n][rest], id) && events[..n][rest] == events[rest];
      if IsCreation(events[n], id) then n else rest
  }

  ghost predicate EventsIndexed(events: seq<Event>, creations: map<Id, Creation>) {
    && (forall id :: id in creations ==> creations[id] == Creation(LastCreation(events, id), Count(events, id)))
    && (forall id :: id !in creations ==> Count(events, id) == 0)
  }

  predicate Creates(e: Event) {
    e.action.Assemble? || e.action.Reconcile? || e.action.UpdateFeature?
  }

  function AddCreation(creations: map<Id, Creation>, e: Event, i: nat): map<Id, Creation> {
    creations[e.entity := Creation(i, (if e.entity in creations then creations[e.entity].count else 0) + 1)]
  }

  lemma EventIndexed(events: seq<Event>, i: nat, creations: map<Id, Creation>)
    requires i < |events| && EventsIndexed(events[..i], creations)
    ensures EventsIndexed(events[..i + 1], if Creates(events[i]) then AddCreation(creations, events[i], i) else creations)
    ensures RestoredUpTo(events[..i + 1]) == if events[i].action.RestoreBackup? then i + 1 else RestoredUpTo(events[..i])
  {
    var before, after := events[..i], events[..i + 1];
    assert after[..i] == before && after[i] == events[i];
    forall id
      ensures Count(after, id) == Count(before, id) + (if IsCreation(events[i], id) then 1 else 0)
      ensures LastCreation(after, id) == if IsCreation(events[i], id) then i else LastCreation(before, id)
    {
    }
  }

  /** One pass over the events: the last restore and, per identity, its creations. */
  method IndexEvents(events: seq<Event>) returns (creations: map<Id, Creation>, restored: nat)
    ensures restored == RestoredUpTo(events)
    ensures EventsIndexed(events, creations)
  {
    creations, restored := map[], 0;
    var i := 0;
    while i < |events|
      invariant i <= |events| && restored == RestoredUpTo(events[..i])
      invariant EventsIndexed(events[..i], creations)
    {
      hide EventsIndexed, RestoredUpTo;
      EventIndexed(events, i, creations);
      if events[i].action.RestoreBackup? { restored := i + 1; }
      if Creates(events[i]) { creations := AddCreation(creations, events[i], i); }
      i := i + 1;
    }
    assert events[..i] == events;
  }

  lemma OneCreation(events: seq<Event>, id: Id, i: nat)
    requires OnlyCreation(events, id, i)
    ensures Count(events, id) == 1 && LastCreation(events, id) == i
  {
    var last := LastCreation(events, id);
  }

  /**
    Follows parents until the root is reached or a link is missing. It accepts exactly when
    the lineage holds, and it always ends: a visited record is never visited again.
   */
  method SourceRetentionProvenance(ops: seq<Operation>, events: seq<Event>, start: Operation) returns (ok: bool)
    ensures ok <==> Lineage(ops, events, start, start.id, |events|)
  {
    var records, duplicates := IndexRecords(ops);
    var creations, restored := IndexEvents(events);
    var seen: set<Id> := {};
    var id := start.id;
    var bound: nat := |events|;
    while id in records
      invariant bound <= |events| && seen <= records.Keys && SeenAfter(events, seen, bound)
      invariant Lineage(ops, events, start, start.id, |events|) <==> Lineage(ops, events, start, id, bound)
      decreases |records.Keys - seen|
    {
      hide Lineage, SeenAfter, Records, Duplicates, Link, EventsIndexed, OnlyRecord, RestoredUpTo;
      if id in seen || id in duplicates || |seen| >= |records| {
        Refused(ops, events, start, id, bound, seen);
        return false;
      }
      RecordsIndexed(ops, id);
      var k := records[id];
      var linked, i := Examine(ops, events, start, id, k, creations, restored, bound);
      if !linked { return false; }
      OnlyLink(ops, events, start, id, k, i, bound);
      if ops[k].parent == NO_ID {
        return id == start.origin;
      }
      SeenShrinks(records.Keys, seen, id);
      SeenGrows(ops, events, start, seen, id, k, i, bound);
      seen := seen + {id};
      id, bound := ops[k].parent, i;
    }
    NoRecord(ops, events, start, id, bound);
    return false;
  }

  /** The checks of one step: the record's scope, then its single creation within bounds. */
  method Examine(ops: seq<Operation>, events: seq<Event>, start: Operation, id: Id, k: nat,
                 creations: map<Id, Creation>, restored: nat, bound: nat)
    returns (linked: bool, i: nat)
    requires OnlyRecord(ops, id, k) && restored == RestoredUpTo(events) && EventsIndexed(events, creations)
    ensures linked ==> Link(ops, events, start, id, k, i, bound)
    ensures !linked ==> !Lineage(ops, events, start, id, bound)
  {
    if !InScope(ops[k], start) {
      OutOfScope(ops, events, start, id, k, bound);
      return false, 0;
    }
    if id !in creations || creations[id].count != 1 || !CreatedWithin(events, creations[id].index, ops[k], restored, bound) {
      NoLink(ops, events, start, id, k, bound);
      return false, 0;
    }
    Linked(ops, events, start, id, k, creations[id].index, bound);
    return true, creations[id].index;
  }

  predicate CreatedWithin(events: seq<Event>, i: nat, op: Operation, restored: nat, bound: nat) {
    i < |events| && Scoped(events[i], op) && restored <= i < bound
  }

  ghost predicate SeenAfter(events: seq<Event>, seen: set<Id>, bound: nat) {
    forall x :: x in seen ==> exists i: nat :: bound <= i && OnlyCreation(events, x, i)
  }

  lemma SeenGrows(ops: seq<Operation>, events: seq<Event>, start: Operation, seen: set<Id>, id: Id, k: nat, i: nat, bound: nat)
    requires SeenAfter(events, seen, bound) && Link(ops, events, start, id, k, i, bound)
    ensures SeenAfter(events, seen + {id}, i)
  {
    forall x | x in seen + {id} ensures exists j: nat :: i <= j && OnlyCreation(events, x, j) {
      if x in seen {
        var j: nat :| bound <= j && OnlyCreation(events, x, j);
        assert i <= j;
      }
    }
  }

  lemma OutOfScope(ops: seq<Operation>, events: seq<Event>, start: Operation, id: Id, k: nat, bound: nat)
    requires OnlyRecord(ops, id, k) && !InScope(ops[k], start)
    ensures !Lineage(ops, events, start, id, bound)
  {
    forall k': nat, i: nat ensures !Link(ops, events, start, id, k', i, bound) {
    }
  }

  lemma Linked(ops: seq<Operation>, events: seq<Event>, start: Operation, id: Id, k: nat, i: nat, bound: nat)
    requires OnlyRecord(ops, id, k) && InScope(ops[k], start) && Count(events, id) == 1 && i == LastCreation(events, id)
    requires CreatedWithin(events, i, ops[k], RestoredUpTo(events), bound)
    ensures Link(ops, events, start, id, k, i, bound)
  {
  }

  lemma NoRecord(ops: seq<Operation>, events: seq<Event>, start: Operation, id: Id, bound: nat)
    requires id !in Records(ops)
    ensures !Lineage(ops, events, start, id, bound)
  {
    RecordsIndexed(ops, id);
  }

  lemma SeenShrinks(all: set<Id>, seen: set<Id>, id: Id)
    requires id in all && id !in seen
    ensures |all - (seen + {id})| < |all - seen|
  {
    assert all - seen == (all - (seen + {id})) + {id};
  }

  lemma OnlyLink(ops: seq<Operation>, events: seq<Event>, start: Operation, id: Id, k: nat, i: nat, bound: nat)
    requires Link(ops, events, start, id, k, i, bound)
    ensures Lineage(ops, events, start, id, bound)
        <==> if ops[k].parent == NO_ID then id == start.origin else Lineage(ops, events, start, ops[k].parent, i)
  {
    forall k': nat, i': nat | Link(ops, events, start, id, k', i', bound) ensures k' == k && i' == i {
    }
  }

  lemma NoLink(ops: seq<Operation>, events: seq<Event>, start: Operation, id: Id, k: nat, bound: nat)
    requires OnlyRecord(ops, id, k)
    requires Count(events, id) != 1 || !CreatedWithin(events, LastCreation(events, id), ops[k], RestoredUpTo(events), bound)
    ensures !Lineage(ops, events, start, id, bound)
  {
    forall k': nat, i: nat ensures !Link(ops, events, start, id, k', i, bound) {
      if OnlyCreation(events, id, i) {
        OneCreation(events, id, i);
      }
    }
  }

  /** A repeated, ambiguous or supernumerary identity has no lineage below the bound reached. */
  lemma Refused(ops: seq<Operation>, events: seq<Event>, start: Operation, id: Id, bound: nat, seen: set<Id>)
    requires id in Records(ops) && seen <= Records(ops).Keys && SeenAfter(events, seen, bound)
    requires id in seen || id in Duplicates(ops) || |seen| >= |Records(ops)|
    ensures !Lineage(ops, events, start, id, bound)
  {
    RecordsIndexed(ops, id);
    if |seen| >= |Records(ops)| {
      FullSet(seen, Records(ops).Keys);
    }
    if id in seen {
      var j: nat :| bound <= j && OnlyCreation(events, id, j);
    }
  }

  lemma FullSet(a: set<Id>, b: set<Id>)
    requires a <= b && |a| >= |b|
    ensures a == b
  {
    assert b == a + (b - a);
  }

  // ----- lineages as chains -----

  /** Link `n` of a chain: its creation lies before that of the link before it. */
  predicate LinkAt(ops: seq<Operation>, events: seq<Event>, start: Operation, records: seq<nat>, created: seq<nat>, bound: nat, n: nat)
    requires n < |records| == |created|
  {
    && records[n] < |ops|
    && Link(ops, events, start, ops[records[n]].id, records[n], created[n], if n == 0 then bound else created[n - 1])
  }

  /** A chain of records and the events that created them, root last. */
  predicate IsChain(ops: seq<Operation>, events: seq<Event>, start: Operation, records: seq<nat>, created: seq<nat>, bound: nat) {
    && |records| == |created| > 0
    && (forall n :: 0 <= n < |records| ==> LinkAt(ops, events, start, records, created, bound, n))
    && (forall n :: 0 <= n < |records| - 1 ==> Continues(ops, records, n))
    && IsRoot(ops, start, records[|records| - 1])
  }

  predicate Continues(ops: seq<Operation>, records: seq<nat>, n: nat)
    requires n < |records| - 1
  {
    && records[n] < |ops| && records[n + 1] < |ops|
    && ops[records[n]].parent != NO_ID && ops[records[n + 1]].id == ops[records[n]].parent
  }

  predicate IsRoot(ops: seq<Operation>, start: Operation, k: nat) {
    k < |ops| && ops[k].parent == NO_ID && ops[k].id == start.origin
  }

  lemma {:induction false} LineageHasChain(ops: seq<Operation>, events: seq<Event>, start: Operation, id: Id, bound: nat)
    returns (records: seq<nat>, created: seq<nat>)
    requires Lineage(ops, events, start, id, bound)
    ensures IsChain(ops, events, start, records, created, bound) && records[0] < |ops| && ops[records[0]].id == id
    decreases bound
  {
    var k: nat, i: nat :| Link(ops, events, start, id, k, i, bound)
                          && (if ops[k].parent == NO_ID then id == start.origin
                              else Lineage(ops, events, start, ops[k].parent, i));
    if ops[k].parent == NO_ID {
      records, created := [k], [i];
      assert LinkAt(ops, events, start, records, created, bound, 0);
    } else {
      var rest, times := LineageHasChain(ops, events, start, ops[k].parent, i);
      records, created := [k] + rest, [i] + times;
      ChainPrepends(ops, events, start, rest, times, k, i, bound);
    }
  }

  lemma ChainPrepends(ops: seq<Operation>, events: seq<Event>, start: Operation, rest: seq<nat>, times: seq<nat>,
                      k: nat, i: nat, bound: nat)
    requires IsChain(ops, events, start, rest, times, i) && k < |ops|
    requires Link(ops, events, start, ops[k].id, k, i, bound)
    requires rest[0] < |ops| && ops[k].parent != NO_ID && ops[rest[0]].id == ops[k].parent
    ensures IsChain(ops, events, start, [k] + rest, [i] + times, bound)
  {
    hide Link, IsRoot;
    var records, created := [k] + rest, [i] + times;
    forall n | 0 <= n < |records| ensures LinkAt(ops, events, start, records, created, bound, n) {
      if n > 0 {
        assert LinkAt(ops, events, start, rest, times, i, n - 1);
        assert records[n] == rest[n - 1] && created[n] == times[n - 1] && created[n - 1] == if n == 1 then i else times[n - 2];
      }
    }
    forall n | 0 <= n < |records| - 1 ensures Continues(ops, records, n) {
      if n > 0 { assert Continues(ops, rest, n - 1); }
    }
  }

  lemma ChainTail(ops: seq<Operation>, events: seq<Event>, start: Operation, records: seq<nat>, created: seq<nat>, bound: nat)
    requires IsChain(ops, events, start, records, created, bound) && |records| > 1
    ensures IsChain(ops, events, start, records[1..], created[1..], created[0])
  {
    hide Link, IsRoot;
    var rest, times := records[1..], created[1..];
    forall n | 0 <= n < |rest| ensures LinkAt(ops, events, start, rest, times, created[0], n) {
      assert LinkAt(ops, events, start, records, created, bound, n + 1);
    }
    forall n | 0 <= n < |rest| - 1 ensures Continues(ops, rest, n) {
      assert Continues(ops, records, n + 1);
    }
  }

  lemma {:induction false} ChainGivesLineage(ops: seq<Operation>, events: seq<Event>, start: Operation,
                                             records: seq<nat>, created: seq<nat>, bound: nat)
    requires IsChain(ops, events, start, records, created, bound)
    ensures records[0] < |ops| && Lineage(ops, events, start, ops[records[0]].id, bound)
    decreases |records|
  {
    assert LinkAt(ops, events, start, records, created, bound, 0);
    hide OnlyRecord, OnlyCreation, InScope, Scoped;
    if |records| > 1 {
      assert Continues(ops, records, 0);
      ChainTail(ops, events, start, records, created, bound);
      ChainGivesLineage(ops, events, start, records[1..], created[1..], created[0]);
    }
    assert Link(ops, events, start, ops[records[0]].id, records[0], created[0], bound);
  }

  /** Along a chain the creations strictly decrease and all come after the last restore, so no record repeats. */
  lemma {:induction false} ChainDecreases(ops: seq<Operation>, events: seq<Event>, start: Operation,
                                          records: seq<nat>, created: seq<nat>, bound: nat, a: nat, b: nat)
    requires IsChain(ops, events, start, records, created, bound) && a < b < |records|
    ensures RestoredUpTo(events) <= created[b] < created[a] && records[a] != records[b]
    decreases b - a
  {
    assert LinkAt(ops, events, start, records, created, bound, b) && LinkAt(ops, events, start, records, created, bound, a);
    if a < b - 1 {
      ChainDecreases(ops, events, start, records, created, bound, a, b - 1);
    }
  }

  // ----- revocation -----

  /**
    A restore revokes for ever: in any later log, with any records, no lineage passes through
    an operation that was created before it, even if that operation is created again.
   */
  lemma RestoreRevokes(ops: seq<Operation>, events: seq<Event>, start: Operation, id: Id, bound: nat, created: nat, restore: nat)
    requires created < restore < |events| && IsCreation(events[created], id) && events[restore].action.RestoreBackup?
    ensures !Lineage(ops, events, start, id, bound)
  {
    forall k: nat, i: nat ensures !Link(ops, events, start, id, k, i, bound) {
      assert restore < RestoredUpTo(events) by { LaterRestore(events, restore); }
    }
  }

  lemma LaterRestore(events: seq<Event>, restore: nat)
    requires restore < |events| && events[restore].action.RestoreBackup?
    ensures restore < RestoredUpTo(events)
  {
  }

  lemma RestoreRevokesChain(ops: seq<Operation>, events: seq<Event>, start: Operation, records: seq<nat>, created: seq<nat>,
                            bound: nat, n: nat, first: nat, restore: nat)
    requires IsChain(ops, events, start, records, created, bound) && n < |records|
    requires records[n] < |ops| && first < |events| && IsCreation(events[first], ops[records[n]].id)
    requires restore < |events| && events[restore].action.RestoreBackup?
    ensures restore < first
  {
    assert LinkAt(ops, events, start, records, created, bound, n);
    LaterRestore(events, restore);
  }

  /** Later events that neither restore nor create again leave every lineage as it was. */
  lemma {:induction false} LineageSurvives(ops: seq<Operation>, events: seq<Event>, later: seq<Event>, start: Operation,
                                           id: Id, bound: nat)
    requires Lineage(ops, events, start, id, bound) && bound <= |events|
    requires forall j :: 0 <= j < |later| ==> later[j].action.OtherAction?
    ensures Lineage(ops, events + later, start, id, bound)
    decreases bound
  {
    var k: nat, i: nat :| Link(ops, events, start, id, k, i, bound)
                          && (if ops[k].parent == NO_ID then id == start.origin
                              else Lineage(ops, events, start, ops[k].parent, i));
    var all := events + later;
    assert forall j :: |events| <= j < |all| ==> all[j] == later[j - |events|];
    var n := RestoredUpTo(all);
    assert OnlyCreation(all, id, i) by {
      forall j | 0 <= j < |all| && j != i ensures !IsCreation(all[j], id) {
        if j >= |events| { assert all[j] == later[j - |events|]; }
      }
    }
    assert n <= i by {
      if n > 0 { assert n - 1 < |events| && all[n - 1] == events[n - 1]; LaterRestore(events, n - 1); }
    }
    assert Link(ops, all, start, id, k, i, bound);
    if ops[k].parent != NO_ID {
      LineageSurvives(ops, events, later, start, ops[k].parent, i);
    }
  }
}
