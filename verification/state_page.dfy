/**
  Keyset navigation with a byte budget: one page, and the traversal that follows its cursors.
  Identities are ordered strings; only their order matters, so they are numbers here.
 */
module StatePage {
  import opened Ids

  const MAX_BYTES: nat := 32768
  const DEFAULT_LIMIT: int := 25
  const MAX_LIMIT: int := 100

  /** A record as the page shows it: `bytes` is its encoded size, `cursorBytes` the size of a cursor that ends at it. */
  datatype Card = Card(id: nat, scoped: bool, valid: bool, bytes: nat, cursorBytes: nat)

  datatype Error = BadLimit | BadCursor | TooManyRecords | InvalidRecord | Unordered | OutOfScope | BudgetExceeded
  datatype Answer = Page(items: seq<Card>, next: Option<nat>) | Refused(error: Error)

  // ----- sizes -----

  function Sum(items: seq<Card>): nat {
    if |items| == 0 then 0 else Sum(items[..|items| - 1]) + items[|items| - 1].bytes
  }

  function Digits(n: nat): nat {
    if n < 10 then 1 else 1 + Digits(n / 10)
  }

  /** The encoded page: envelope, cards with their separators, the count, and the continuation, which is omitted at the end. */
  function PageBytes(fixed: nat, items: seq<Card>, next: Option<nat>): nat {
    fixed + Sum(items) + (if items == [] then 0 else |items| - 1) + Digits(|items|)
    + match next case None => |"false"| case Some(c) => |"true"| + |",\"next_cursor\":\"\""| + c
  }

  /** The first `n` cards fit together with the cursor that would continue after them. */
  predicate Fits(fixed: nat, cards: seq<Card>, n: nat)
    requires 0 < n <= |cards|
  {
    PageBytes(fixed, cards[..n], Some(cards[n - 1].cursorBytes)) <= MAX_BYTES
  }

  predicate FitsAlone(fixed: nat, c: Card) {
    Fits(fixed, [c], 1)
  }

  // ----- one page -----

  /** What is wrong with a card that follows identity `last`. */
  function Flaw(c: Card, last: nat): Option<Error> {
    if !c.valid then Some(InvalidRecord)
    else if c.id <= last then Some(Unordered)
    else if !c.scoped then Some(OutOfScope) else None
  }

  function Before(cards: seq<Card>, k: nat, after: nat): nat
    requires k < |cards|
  {
    if k == 0 then after else cards[k - 1].id
  }

  predicate Sound(cards: seq<Card>, k: nat, after: nat)
    requires k < |cards|
  {
    Flaw(cards[k], Before(cards, k, after)).None?
  }

  /** The first `n` cards are taken: sound, within the limit, and each prefix of them fits with its continuation. */
  predicate Taken(cards: seq<Card>, n: nat, after: nat, limit: nat, fixed: nat) {
    && n <= |cards| && n <= limit
    && forall k :: 0 <= k < n ==> Sound(cards, k, after) && Fits(fixed, cards, k + 1)
  }

  /** No further card can be taken: there is none, the limit is reached, or the next one does not fit. */
  predicate Full(cards: seq<Card>, n: nat, limit: nat, fixed: nat)
    requires n <= |cards|
  {
    n == |cards| || n == limit || !Fits(fixed, cards, n + 1)
  }

  /** What a page must be for the records `cards` read after `after`, at most one more than the limit. */
  ghost predicate Answers(a: Answer, cards: seq<Card>, after: nat, limit: nat, fixed: nat) {
    match a
    case Page(items, next) =>
      && |cards| <= limit + 1
      && Taken(cards, |items|, after, limit, fixed) && items == cards[..|items|] && Full(cards, |items|, limit, fixed)
      && (|items| < |cards| ==> Sound(cards, |items|, after) && items != [] && next == Some(items[|items| - 1].id))
      && (|items| == |cards| ==> next.None?)
    case Refused(e) =>
      if |cards| > limit + 1 then e == TooManyRecords
      else exists n :: TurnsBack(e, cards, n, after, limit, fixed)
  }

  /** After `n` cards the page is refused: the next card is flawed, or not even one card fits. */
  predicate TurnsBack(e: Error, cards: seq<Card>, n: nat, after: nat, limit: nat, fixed: nat) {
    && n < |cards| && Taken(cards, n, after, limit, fixed)
    && (Flaw(cards[n], Before(cards, n, after)) == Some(e)
        || (Sound(cards, n, after) && Full(cards, n, limit, fixed) && n == 0 && e == BudgetExceeded))
  }

  lemma TakenMore(cards: seq<Card>, n: nat, after: nat, limit: nat, fixed: nat)
    requires n < |cards| && n < limit && Taken(cards, n, after, limit, fixed) && Sound(cards, n, after) && Fits(fixed, cards, n + 1)
    ensures Taken(cards, n + 1, after, limit, fixed)
  {
    hide Sound, Fits;
  }

  method StatePage(cards: seq<Card>, after: nat, limit: nat, fixed: nat) returns (a: Answer)
    ensures Answers(a, cards, after, limit, fixed)
  {
    if |cards| > limit + 1 { return Refused(TooManyRecords); }
    var items: seq<Card> := [];
    var last := after;
    var more := false;
    var i := 0;
    while i < |cards| && !more
      decreases |cards| - i, !more
      invariant i == |items| <= |cards| && items == cards[..i] && Taken(cards, i, after, limit, fixed)
      invariant last == if i == 0 then after else cards[i - 1].id
      invariant more ==> i < |cards| && Sound(cards, i, after) && Full(cards, i, limit, fixed)
    {
      hide Taken, Full, Answers;
      var c := cards[i];
      var flaw := Flaw(c, last);
      if flaw.Some? {
        assert TurnsBack(flaw.value, cards, i, after, limit, fixed);
        return Refused(flaw.value);
      }
      if i >= limit {
        more := true;
      } else {
        assert items + [c] == cards[..i + 1];
        if PageBytes(fixed, items + [c], Some(c.cursorBytes)) > MAX_BYTES {
          more := true;
        } else {
          TakenMore(cards, i, after, limit, fixed);
          items, last, i := items + [c], c.id, i + 1;
        }
      }
    }
    if more {
      if |items| == 0 {
        assert TurnsBack(BudgetExceeded, cards, 0, after, limit, fixed);
        return Refused(BudgetExceeded);
      }
      return Page(items, Some(items[|items| - 1].id));
    }
    return Page(items, None);
  }

  lemma TakenNext(cards: seq<Card>, n: nat, m: nat, after: nat, limit: nat, fixed: nat)
    requires n < m && Taken(cards, m, after, limit, fixed)
    ensures n < |cards| && n < limit && Sound(cards, n, after) && Fits(fixed, cards, n + 1)
  {
    hide Fits, Sound;
  }

  /** The requirement leaves no choice: there is one answer for given records. */
  lemma OneAnswer(a: Answer, b: Answer, cards: seq<Card>, after: nat, limit: nat, fixed: nat)
    requires Answers(a, cards, after, limit, fixed) && Answers(b, cards, after, limit, fixed)
    ensures a == b
  {
    hide Fits, Sound;
    if |cards| <= limit + 1 {
      var n := AnswerSize(a, cards, after, limit, fixed);
      var m := AnswerSize(b, cards, after, limit, fixed);
      if n < m { TakenNext(cards, n, m, after, limit, fixed); }
      if m < n { TakenNext(cards, m, n, after, limit, fixed); }
      SoundIff(cards, after);
    }
  }

  lemma SoundIff(cards: seq<Card>, after: nat)
    ensures forall k: nat :: k < |cards| ==> (Sound(cards, k, after) <==> Flaw(cards[k], Before(cards, k, after)).None?)
  {
  }

  lemma AnswerSize(a: Answer, cards: seq<Card>, after: nat, limit: nat, fixed: nat) returns (n: nat)
    requires Answers(a, cards, after, limit, fixed) && |cards| <= limit + 1
    ensures a.Page? ==> n == |a.items|
    ensures a.Refused? ==> TurnsBack(a.error, cards, n, after, limit, fixed)
    ensures Taken(cards, n, after, limit, fixed)
    ensures n < |cards| ==> Full(cards, n, limit, fixed) || !Sound(cards, n, after)
  {
    if a.Page? {
      n := |a.items|;
    } else {
      n :| TurnsBack(a.error, cards, n, after, limit, fixed);
    }
  }

  /** A page keeps the item limit and, as it is finally sent, the byte budget. */
  lemma PageWithinBudget(a: Answer, cards: seq<Card>, after: nat, limit: nat, fixed: nat)
    requires Answers(a, cards, after, limit, fixed) && a.Page? && a.items != []
    ensures |a.items| <= limit
    ensures PageBytes(fixed, a.items, if a.next.Some? then Some(a.items[|a.items| - 1].cursorBytes) else None) <= MAX_BYTES
  {
    var n := |a.items|;
    TakenNext(cards, n - 1, n, after, limit, fixed);
    assert a.items == cards[..n];
  }

  // ----- the bounded reader -----

  predicate Increasing(s: seq<Card>) {
    forall i, j :: 0 <= i < j < |s| ==> s[i].id < s[j].id
  }

  predicate DistinctIds(records: seq<Card>) {
    forall i, j :: 0 <= i < j < |records| ==> records[i].id != records[j].id
  }

  predicate Wanted(c: Card, after: nat) {
    c.scoped && c.id > after
  }

  /** The smallest wanted identities of the first records, in order, at most `limit` of them. */
  ghost predicate Smallest(out: seq<Card>, records: seq<Card>, after: nat, limit: nat) {
    && Increasing(out) && |out| <= limit
    && (forall c :: c in out ==> c in records && Wanted(c, after))
    && (forall c :: c in records && Wanted(c, after) && c !in out ==> |out| == limit && (forall k :: 0 <= k < |out| ==> out[k].id < c.id))
  }

  /** The first position whose identity is not below `id`. */
  method Search(out: seq<Card>, id: nat) returns (i: nat)
    requires Increasing(out)
    ensures i <= |out|
    ensures forall k :: 0 <= k < i ==> out[k].id < id
    ensures forall k :: i <= k < |out| ==> out[k].id >= id
  {
    i := 0;
    var hi := |out|;
    while i < hi
      invariant i <= hi <= |out|
      invariant forall k :: 0 <= k < i ==> out[k].id < id
      invariant forall k :: hi <= k < |out| ==> out[k].id >= id
    {
      var mid := (i + hi) / 2;
      if out[mid].id >= id { hi := mid; } else { i := mid + 1; }
    }
  }

  lemma SmallestSkips(out: seq<Card>, records: seq<Card>, after: nat, limit: nat, c: Card)
    requires Smallest(out, records, after, limit)
    requires Wanted(c, after) ==> |out| == limit && forall k :: 0 <= k < |out| ==> out[k].id < c.id
    ensures Smallest(out, records + [c], after, limit)
  {
  }

  /** A card inserted in order, with the overflow dropped. */
  function Inserted(out: seq<Card>, c: Card, i: nat, limit: nat): (now: seq<Card>)
    requires i <= |out| <= limit && i < limit
    ensures |now| == Min(|out| + 1, limit)
    ensures forall k :: 0 <= k < |now| ==> now[k] == if k < i then out[k] else if k == i then c else out[k - 1]
  {
    var more := out[..i] + [c] + out[i..];
    if |more| > limit then more[..limit] else more
  }

  lemma InsertedIsSmallest(out: seq<Card>, records: seq<Card>, after: nat, limit: nat, c: Card, i: nat)
    requires Smallest(out, records, after, limit) && Wanted(c, after) && i <= |out| && i < limit
    requires forall k :: 0 <= k < i ==> out[k].id < c.id
    requires forall k :: i <= k < |out| ==> out[k].id > c.id
    ensures Smallest(Inserted(out, c, i, limit), records + [c], after, limit)
  {
    var now := Inserted(out, c, i, limit);
    InsertedMembers(out, records, after, limit, c, i);
    hide Inserted, Wanted;
    forall d | d in records + [c] && Wanted(d, after) && d !in now
      ensures |now| == limit && forall k :: 0 <= k < |now| ==> now[k].id < d.id
    {
      assert now[i] == c;
      DroppedIsLarger(out, records, after, limit, c, i, d);
    }
  }

  lemma InsertedMembers(out: seq<Card>, records: seq<Card>, after: nat, limit: nat, c: Card, i: nat)
    requires Smallest(out, records, after, limit) && Wanted(c, after) && i <= |out| && i < limit
    requires forall k :: 0 <= k < i ==> out[k].id < c.id
    requires forall k :: i <= k < |out| ==> out[k].id > c.id
    ensures Increasing(Inserted(out, c, i, limit))
    ensures forall d :: d in Inserted(out, c, i, limit) ==> d in records + [c] && Wanted(d, after)
  {
    var now := Inserted(out, c, i, limit);
    hide Inserted;
    forall d | d in now ensures d in records + [c] && Wanted(d, after) {
      var k :| 0 <= k < |now| && now[k] == d;
      if k != i { assert out[if k < i then k else k - 1] in out; }
    }
  }

  lemma InsertedHas(out: seq<Card>, c: Card, i: nat, limit: nat, k: nat)
    requires i <= |out| <= limit && i < limit && k < |out| && (k < i || k + 1 < limit)
    ensures out[k] in Inserted(out, c, i, limit)
  {
    assert Inserted(out, c, i, limit)[if k < i then k else k + 1] == out[k];
  }

  lemma DroppedIsLarger(out: seq<Card>, records: seq<Card>, after: nat, limit: nat, c: Card, i: nat, d: Card)
    requires Smallest(out, records, after, limit) && i <= |out| && i < limit
    requires forall k :: i <= k < |out| ==> out[k].id > c.id
    requires d in records && Wanted(d, after) && d !in Inserted(out, c, i, limit)
    ensures |out| == limit && forall k :: 0 <= k < limit ==> Inserted(out, c, i, limit)[k].id < d.id
  {
    var now := Inserted(out, c, i, limit);
    hide Inserted;
    if d !in out {
      assert |out| == limit && forall k :: 0 <= k < |out| ==> out[k].id < d.id;
    } else {
      var k :| 0 <= k < |out| && out[k] == d;
      if k < i || k + 1 < limit { InsertedHas(out, c, i, limit, k); }
      assert k >= i && k + 1 >= |now|;
    }
    hide Smallest, Wanted;
    assert c.id < out[i].id;
  }

  /** One walk over the records in stored order keeps the wanted cards with the smallest identities. */
  method ReadStateMetadata(records: seq<Card>, after: nat, limit: nat) returns (out: seq<Card>)
    requires DistinctIds(records)
    ensures Smallest(out, records, after, limit)
  {
    out := [];
    var n := 0;
    while n < |records|
      invariant n <= |records| && Smallest(out, records[..n], after, limit)
    {
      var c := records[n];
      assert records[..n + 1] == records[..n] + [c];
      if Wanted(c, after) {
        var i := Search(out, c.id);
        forall k | i <= k < |out| ensures out[k].id != c.id {
          assert out[k] in records[..n];
          var m :| 0 <= m < n && records[m] == out[k];
        }
        if i >= limit {
          SmallestSkips(out, records[..n], after, limit, c);
        } else {
          InsertedIsSmallest(out, records[..n], after, limit, c, i);
          out := out[..i] + [c] + out[i..];
          if |out| > limit { out := out[..limit]; }
        }
      } else {
        SmallestSkips(out, records[..n], after, limit, c);
      }
      n := n + 1;
    }
    assert records[..n] == records;
  }

  // ----- the traversal -----

  /** The wanted records in order: what a traversal from `after` must return. */
  ghost predicate Ordered(all: seq<Card>, records: seq<Card>, after: nat) {
    Increasing(all) && forall c :: c in all <==> c in records && Wanted(c, after)
  }

  function Min(a: nat, b: nat): nat {
    if a < b then a else b
  }

  /** Nothing wanted below a kept card is missing. */
  lemma BelowIsKept(out: seq<Card>, records: seq<Card>, after: nat, limit: nat, d: Card, k: nat) returns (m: nat)
    requires Smallest(out, records, after, limit) && k < |out| && d in records && Wanted(d, after) && d.id <= out[k].id
    ensures m <= k && out[m] == d
  {
    assert d in out;
    var i :| 0 <= i < |out| && out[i] == d;
    m := i;
  }

  /** The reader's answer is the beginning of that order. */
  lemma {:induction false} SmallestIsPrefix(out: seq<Card>, records: seq<Card>, after: nat, limit: nat, all: seq<Card>, n: nat)
    requires Smallest(out, records, after, limit) && Ordered(all, records, after) && n <= |out|
    ensures n <= |all| && out[..n] == all[..n]
  {
    if n > 0 {
      SmallestIsPrefix(out, records, after, limit, all, n - 1);
      PrefixStep(out, records, after, limit, all, n);
    }
  }

  lemma PrefixStep(out: seq<Card>, records: seq<Card>, after: nat, limit: nat, all: seq<Card>, n: nat)
    requires Smallest(out, records, after, limit) && Ordered(all, records, after) && 0 < n <= |out|
    requires n - 1 <= |all| && out[..n - 1] == all[..n - 1]
    ensures n <= |all| && out[..n] == all[..n]
  {
    forall m | 0 <= m < n - 1 ensures out[m] == all[m] { assert out[..n - 1][m] == all[..n - 1][m]; }
    var c := out[n - 1];
    assert c in out && c in all;
    var k :| 0 <= k < |all| && all[k] == c;
    assert n - 1 <= k;
    var d := all[n - 1];
    assert d in all && d.id <= c.id;
    var m := BelowIsKept(out, records, after, limit, d, n - 1);
    assert m == n - 1;
    hide Smallest, Ordered;
    assert out[..n] == out[..n - 1] + [c] && all[..n] == all[..n - 1] + [d];
  }

  lemma ReaderIsFull(out: seq<Card>, records: seq<Card>, after: nat, limit: nat, all: seq<Card>)
    requires Smallest(out, records, after, limit) && Ordered(all, records, after) && |out| < |all| && out == all[..|out|]
    ensures |out| == limit
  {
    var c := all[|out|];
    assert c in all;
    assert forall m :: 0 <= m < |out| ==> out[m] == all[m];
    assert c !in out;
  }

  lemma ReaderIsWindow(out: seq<Card>, records: seq<Card>, after: nat, limit: nat, all: seq<Card>)
    requires Smallest(out, records, after, limit) && Ordered(all, records, after)
    ensures out == all[..Min(limit, |all|)]
  {
    SmallestIsPrefix(out, records, after, limit, all, |out|);
    assert out[..|out|] == out;
    if |out| < |all| { ReaderIsFull(out, records, after, limit, all); }
  }

  /** Reading again after the card at position `n` leaves exactly what follows it. */
  lemma OrderedRest(all: seq<Card>, records: seq<Card>, after: nat, n: nat)
    requires Ordered(all, records, after) && 0 < n <= |all|
    ensures Ordered(all[n..], records, all[n - 1].id)
  {
    var rest := all[n..];
    assert all[n - 1] in all;
    forall c ensures c in rest <==> c in records && Wanted(c, all[n - 1].id) {
      if c in rest {
        var k :| 0 <= k < |rest| && rest[k] == c;
        assert all[n + k] == c && c in all;
      }
      if c in records && Wanted(c, all[n - 1].id) {
        assert c in all;
        var k :| 0 <= k < |all| && all[k] == c;
        assert rest[k - n] == c;
      }
    }
  }

  /** The page `a` is what the store answers to a request for the records after `after`. */
  ghost predicate Served(a: Answer, records: seq<Card>, after: nat, limit: nat, fixed: nat) {
    exists out :: Smallest(out, records, after, limit + 1) && Answers(a, out, after, limit, fixed)
  }

  /** A client that has followed the cursors from `after` so far, and got these pages. */
  ghost predicate Begins(pages: seq<Answer>, records: seq<Card>, after: nat, limit: nat, fixed: nat)
    decreases |pages|
  {
    pages != [] ==>
      && Served(pages[0], records, after, limit, fixed)
      && (|pages| > 1 ==>
            pages[0].Page? && pages[0].next.Some? && Begins(pages[1..], records, pages[0].next.value, limit, fixed))
  }

  /** A client that follows the cursors from `after` until none is given, and gets these pages. */
  ghost predicate Follows(pages: seq<Answer>, records: seq<Card>, after: nat, limit: nat, fixed: nat)
    decreases |pages|
  {
    && pages != [] && Served(pages[0], records, after, limit, fixed)
    && if pages[0].Page? && pages[0].next.Some? then Follows(pages[1..], records, pages[0].next.value, limit, fixed)
       else |pages| == 1
  }

  /** The cards of the pages, in order. */
  function Items(pages: seq<Answer>): seq<Card> {
    if |pages| == 0 then [] else (if pages[0].Page? then pages[0].items else []) + Items(pages[1..])
  }

  lemma FitsMeansAlone(fixed: nat, cards: seq<Card>, n: nat)
    requires 0 < n <= |cards| && Fits(fixed, cards, n)
    ensures FitsAlone(fixed, cards[n - 1])
  {
    assert [cards[n - 1]][..1] == [cards[n - 1]];
    assert Sum([cards[n - 1]]) == cards[n - 1].bytes;
    DigitsAtLeastOne(n);
  }

  lemma DigitsAtLeastOne(n: nat)
    ensures Digits(n) >= 1 && Digits(1) == 1
  {
  }

  /** One page of a sound store: the next cards of the order, or a refusal of the first of them, which fits no page. */
  lemma PageOfOrder(a: Answer, out: seq<Card>, records: seq<Card>, all: seq<Card>, after: nat, limit: nat, fixed: nat)
    requires Smallest(out, records, after, limit + 1) && Ordered(all, records, after) && Answers(a, out, after, limit, fixed)
    requires 0 < limit && forall c :: c in records ==> c.valid
    ensures a.Page? ==> |a.items| <= |all| && a.items == all[..|a.items|] && forall k :: 0 <= k < |a.items| ==> FitsAlone(fixed, all[k])
    ensures a.Page? && a.next.None? ==> a.items == all
    ensures a.Page? && a.next.Some? ==> a.items != [] && a.next.value == all[|a.items| - 1].id
    ensures a.Refused? ==> a.error == BudgetExceeded && all != [] && !FitsAlone(fixed, all[0])
  {
    ReaderIsWindow(out, records, after, limit + 1, all);
    SmallestIsSound(out, records, after, limit + 1);
    hide Smallest, Ordered;
    if a.Page? { PageTakes(a, out, all, after, limit, fixed); } else { RefusesFirst(a, out, after, limit, fixed); }
  }

  lemma PageTakes(a: Answer, out: seq<Card>, all: seq<Card>, after: nat, limit: nat, fixed: nat)
    requires Answers(a, out, after, limit, fixed) && a.Page? && out == all[..Min(limit + 1, |all|)]
    ensures |a.items| <= |all| && a.items == all[..|a.items|] && forall k :: 0 <= k < |a.items| ==> FitsAlone(fixed, all[k])
    ensures a.next.None? ==> a.items == all
    ensures a.next.Some? ==> a.items != [] && a.next.value == all[|a.items| - 1].id
  {
    hide Fits, Sound, FitsAlone;
    var n := |a.items|;
    assert a.items == out[..n] == all[..n];
    forall k | 0 <= k < n ensures FitsAlone(fixed, all[k]) {
      TakenNext(out, k, n, after, limit, fixed);
      FitsMeansAlone(fixed, out, k + 1);
    }
  }

  lemma RefusesFirst(a: Answer, out: seq<Card>, after: nat, limit: nat, fixed: nat)
    requires Answers(a, out, after, limit, fixed) && a.Refused? && |out| <= limit + 1 && 0 < limit
    requires forall k: nat :: k < |out| ==> Sound(out, k, after)
    ensures a.error == BudgetExceeded && out != [] && !FitsAlone(fixed, out[0])
  {
    hide Fits, FitsAlone;
    var n :| TurnsBack(a.error, out, n, after, limit, fixed);
    assert Sound(out, n, after);
    AloneIffFirst(fixed, out);
  }

  lemma AloneIffFirst(fixed: nat, cards: seq<Card>)
    requires cards != []
    ensures FitsAlone(fixed, cards[0]) <==> Fits(fixed, cards, 1)
  {
    assert cards[..1] == [cards[0]] == [cards[0]][..1];
  }

  lemma SmallestIsSound(out: seq<Card>, records: seq<Card>, after: nat, limit: nat)
    requires Smallest(out, records, after, limit) && forall c :: c in records ==> c.valid
    ensures forall k: nat :: k < |out| ==> Sound(out, k, after)
  {
    forall k: nat | k < |out| ensures Sound(out, k, after) {
      assert out[k] in out;
      if k > 0 { assert out[k - 1].id < out[k].id; }
    }
  }

  /**
    Over an unchanged store the traversal returns every wanted card exactly once, in increasing
    order, if and only if each of them fits a page of its own; otherwise it ends with the
    explicit budget refusal.
   */
  lemma {:induction false} TraversalIsExact(pages: seq<Answer>, records: seq<Card>, all: seq<Card>, after: nat, limit: nat, fixed: nat)
    requires Follows(pages, records, after, limit, fixed) && Ordered(all, records, after)
    requires 0 < limit && forall c :: c in records ==> c.valid
    ensures pages[|pages| - 1].Page? <==> forall k :: 0 <= k < |all| ==> FitsAlone(fixed, all[k])
    ensures pages[|pages| - 1].Page? ==> Items(pages) == all
    ensures pages[|pages| - 1].Refused? ==> pages[|pages| - 1].error == BudgetExceeded && Items(pages) <= all
    decreases |pages|
  {
    hide Served, FitsAlone, Ordered, Items;
    var a := pages[0];
    FirstPage(a, records, all, after, limit, fixed);
    if a.Page? && a.next.Some? {
      var n := |a.items|;
      OrderedRest(all, records, after, n);
      TraversalIsExact(pages[1..], records, all[n..], a.next.value, limit, fixed);
      Joined(pages, all, fixed, n);
    } else {
      OnePage(pages);
    }
  }

  lemma OnePage(pages: seq<Answer>)
    requires |pages| == 1
    ensures Items(pages) == if pages[0].Page? then pages[0].items else []
  {
    assert Items(pages[1..]) == [];
  }

  lemma FirstPage(a: Answer, records: seq<Card>, all: seq<Card>, after: nat, limit: nat, fixed: nat)
    requires Served(a, records, after, limit, fixed) && Ordered(all, records, after)
    requires 0 < limit && forall c :: c in records ==> c.valid
    ensures a.Page? ==> |a.items| <= |all| && a.items == all[..|a.items|] && forall k :: 0 <= k < |a.items| ==> FitsAlone(fixed, all[k])
    ensures a.Page? && a.next.None? ==> a.items == all
    ensures a.Page? && a.next.Some? ==> a.items != [] && a.next.value == all[|a.items| - 1].id
    ensures a.Refused? ==> a.error == BudgetExceeded && all != [] && !FitsAlone(fixed, all[0])
  {
    hide Smallest, Answers, Ordered, FitsAlone;
    var out :| Smallest(out, records, after, limit + 1) && Answers(a, out, after, limit, fixed);
    PageOfOrder(a, out, records, all, after, limit, fixed);
  }

  lemma Joined(pages: seq<Answer>, all: seq<Card>, fixed: nat, n: nat)
    requires |pages| > 1 && pages[0].Page? && n <= |all| && pages[0].items == all[..n]
    requires forall k :: 0 <= k < n ==> FitsAlone(fixed, all[k])
    ensures Items(pages[1..]) == all[n..] ==> Items(pages) == all
    ensures Items(pages[1..]) <= all[n..] ==> Items(pages) <= all
    ensures pages[1..][|pages| - 2] == pages[|pages| - 1]
    ensures (forall k :: 0 <= k < |all[n..]| ==> FitsAlone(fixed, all[n..][k])) <==> forall k :: 0 <= k < |all| ==> FitsAlone(fixed, all[k])
  {
    hide FitsAlone;
    var rest := all[n..];
    assert all == all[..n] + rest;
    assert forall k :: 0 <= k < |rest| ==> rest[k] == all[n + k];
    forall k | n <= k < |all| ensures all[k] == rest[k - n] {}
  }

  /**
    Every page with a cursor carries at least one card, so however far a client follows the
    cursors it gets at most one page more than there are cards.
   */
  lemma {:induction false} TraversalTerminates(pages: seq<Answer>, records: seq<Card>, all: seq<Card>, after: nat, limit: nat, fixed: nat)
    requires Begins(pages, records, after, limit, fixed) && Ordered(all, records, after)
    requires 0 < limit && forall c :: c in records ==> c.valid
    ensures |pages| <= |all| + 1
    decreases |pages|
  {
    hide Served, FitsAlone, Ordered;
    if |pages| > 1 {
      var a := pages[0];
      FirstPage(a, records, all, after, limit, fixed);
      OrderedRest(all, records, after, |a.items|);
      TraversalTerminates(pages[1..], records, all[|a.items|..], a.next.value, limit, fixed);
    }
  }

  /** The reader has something to return: the beginning of the order. */
  lemma WindowIsSmallest(records: seq<Card>, all: seq<Card>, after: nat, limit: nat)
    requires Ordered(all, records, after)
    ensures Smallest(all[..Min(limit, |all|)], records, after, limit)
  {
    var out := all[..Min(limit, |all|)];
    forall c | c in out ensures c in records && Wanted(c, after) { assert c in all; }
    assert forall k :: 0 <= k < |out| ==> all[k] in out by { assert forall k :: 0 <= k < |out| ==> out[k] == all[k]; }
    forall c | c in records && Wanted(c, after) && c !in out
      ensures |out| == limit && forall k :: 0 <= k < |out| ==> out[k].id < c.id
    {
      assert c in all;
      var m :| 0 <= m < |all| && all[m] == c;
    }
  }

  /** From `n` cards taken, a page of sound cards is completed. */
  lemma {:induction false} PageFrom(cards: seq<Card>, n: nat, after: nat, limit: nat, fixed: nat) returns (a: Answer)
    requires |cards| <= limit + 1 && 0 < limit && Taken(cards, n, after, limit, fixed)
    requires forall k: nat :: k < |cards| ==> Sound(cards, k, after)
    ensures Answers(a, cards, after, limit, fixed)
    decreases |cards| - n
  {
    hide Fits, Sound;
    if !Full(cards, n, limit, fixed) {
      TakenMore(cards, n, after, limit, fixed);
      a := PageFrom(cards, n + 1, after, limit, fixed);
    } else if n == |cards| {
      a := Page(cards[..n], None);
    } else if n > 0 {
      a := Page(cards[..n], Some(cards[n - 1].id));
      assert cards[..n][n - 1] == cards[n - 1];
    } else {
      a := Refused(BudgetExceeded);
      assert TurnsBack(BudgetExceeded, cards, 0, after, limit, fixed);
    }
  }

  lemma AlwaysServed(records: seq<Card>, all: seq<Card>, after: nat, limit: nat, fixed: nat) returns (a: Answer)
    requires Ordered(all, records, after) && 0 < limit && forall c :: c in records ==> c.valid
    ensures Served(a, records, after, limit, fixed)
  {
    var out := all[..Min(limit + 1, |all|)];
    WindowIsSmallest(records, all, after, limit + 1);
    SmallestIsSound(out, records, after, limit + 1);
    hide Smallest, Ordered, Sound;
    a := PageFrom(out, 0, after, limit, fixed);
  }

  /** Every traversal that has begun can be completed; in particular a complete one exists. */
  lemma {:induction false} TraversalCompletes(pages: seq<Answer>, records: seq<Card>, all: seq<Card>, after: nat, limit: nat, fixed: nat)
    returns (done: seq<Answer>)
    requires Begins(pages, records, after, limit, fixed) && Ordered(all, records, after)
    requires 0 < limit && forall c :: c in records ==> c.valid
    ensures pages <= done && Follows(done, records, after, limit, fixed)
    decreases |all|
  {
    hide Served, FitsAlone, Ordered;
    var a := AlwaysServed(records, all, after, limit, fixed);
    if pages != [] { a := pages[0]; }
    FirstPage(a, records, all, after, limit, fixed);
    done := [a];
    if a.Page? && a.next.Some? {
      var rest := if |pages| > 1 then pages[1..] else [];
      OrderedRest(all, records, after, |a.items|);
      var more := TraversalCompletes(rest, records, all[|a.items|..], a.next.value, limit, fixed);
      done := [a] + more;
      GoesOn(done, a, more, records, after, limit, fixed);
      StartsAlike(pages, a, rest, more);
    }
  }

  lemma GoesOn(done: seq<Answer>, a: Answer, more: seq<Answer>, records: seq<Card>, after: nat, limit: nat, fixed: nat)
    requires done == [a] + more && Served(a, records, after, limit, fixed) && a.Page? && a.next.Some?
    requires Follows(more, records, a.next.value, limit, fixed)
    ensures Follows(done, records, after, limit, fixed)
  {
    hide Served;
    assert done[1..] == more;
  }

  lemma StartsAlike(pages: seq<Answer>, a: Answer, rest: seq<Answer>, more: seq<Answer>)
    requires (pages == [] || (pages[0] == a && rest == pages[1..])) && rest <= more
    ensures pages <= [a] + more
  {
    assert pages != [] ==> pages == [a] + rest;
  }

  // ----- requests -----

  datatype Collection = Products | Features | Integrations
  datatype Cursor = Cursor(version: nat, collection: Collection, product: Id, feature: Id, last: nat)
  datatype Request = Request(product: Id, feature: Id, limit: int, cursor: Option<Cursor>)
  datatype Response = Response(items: seq<Card>, next: Option<Cursor>) | Rejected(error: Error)

  function CollectionOf(r: Request): Collection {
    if r.feature != NO_ID then Integrations else if r.product != NO_ID then Features else Products
  }

  function EffectiveLimit(r: Request): int {
    if r.limit == 0 then DEFAULT_LIMIT else r.limit
  }

  function AfterOf(r: Request): nat {
    if r.cursor.Some? then r.cursor.value.last else 0
  }

  predicate CursorOk(r: Request, c: Cursor) {
    c.version == 1 && c.collection == CollectionOf(r) && c.product == r.product && c.feature == r.feature && c.last != 0
  }

  /** The page `a` made of the cards that the reader returns for the request. */
  ghost predicate Serves(records: seq<Card>, r: Request, limit: nat, fixed: nat, cards: seq<Card>, a: Answer) {
    Smallest(cards, records, AfterOf(r), limit + 1) && Answers(a, cards, AfterOf(r), limit, fixed)
  }

  /** A page as it is sent: its cursor names the scope it was made for. */
  function Sent(r: Request, a: Answer): Response {
    if a.Refused? then Rejected(a.error)
    else Response(a.items, if a.next.None? then None else Some(Cursor(1, CollectionOf(r), r.product, r.feature, a.next.value)))
  }

  /** One request against the records of its scope. */
  method GetState(records: seq<Card>, r: Request, fixed: nat) returns (out: Response)
    requires DistinctIds(records)
    ensures !(1 <= EffectiveLimit(r) <= MAX_LIMIT) ==> out == Rejected(BadLimit)
    ensures 1 <= EffectiveLimit(r) <= MAX_LIMIT && r.cursor.Some? && !CursorOk(r, r.cursor.value) ==> out == Rejected(BadCursor)
    ensures 1 <= EffectiveLimit(r) <= MAX_LIMIT && (r.cursor.Some? ==> CursorOk(r, r.cursor.value)) ==>
              exists cards, a :: Serves(records, r, EffectiveLimit(r), fixed, cards, a) && out == Sent(r, a)
    ensures out.Response? && out.next.Some? && (forall c :: c in records ==> c.id > 0) ==> CursorOk(r, out.next.value)
  {
    var limit := if r.limit == 0 then DEFAULT_LIMIT else r.limit;
    if limit < 1 || limit > MAX_LIMIT { return Rejected(BadLimit); }
    var after := 0;
    if r.cursor.Some? {
      if !CursorOk(r, r.cursor.value) { return Rejected(BadCursor); }
      after := r.cursor.value.last;
    }
    var cards := ReadStateMetadata(records, after, limit + 1);
    var a := StatePage(cards, after, limit, fixed);
    assert Serves(records, r, limit, fixed, cards, a);
    if a.Refused? { return Rejected(a.error); }
    if a.next.None? { return Response(a.items, None); }
    assert a.items[|a.items| - 1] in cards;
    return Response(a.items, Some(Cursor(1, CollectionOf(r), r.product, r.feature, a.next.value)));
  }
}
