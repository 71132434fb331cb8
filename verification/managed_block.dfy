/** The managed block of a configuration file: stripped from between two marker lines, and appended anew. */
module ManagedBlock {
  import opened Ids

  const CONFIG_START: string := "# BEGIN" + " release-control managed MCP"
  const CONFIG_END: string := "# END" + " release-control managed MCP"
  const AGENTS_START: string := "<!-- BEGIN" + " release-control managed agent instructions -->"
  const AGENTS_END: string := "<!-- END" + " release-control managed agent instructions -->"

  // ----- occurrences -----

  predicate At(s: string, p: string, i: nat) {
    i + |p| <= |s| && forall k :: 0 <= k < |p| ==> s[i + k] == p[k]
  }

  predicate Contains(s: string, p: string) {
    exists i :: 0 <= i <= |s| && At(s, p, i)
  }

  /** The first occurrence at or after `from`. */
  function IndexFrom(s: string, p: string, from: nat): (r: Option<nat>)
    requires from <= |s|
    ensures r.Some? ==> from <= r.value && At(s, p, r.value) && forall k :: from <= k < r.value ==> !At(s, p, k)
    ensures r.None? ==> forall k :: from <= k <= |s| ==> !At(s, p, k)
    decreases |s| - from
  {
    if At(s, p, from) then Some(from) else if from == |s| then None else IndexFrom(s, p, from + 1)
  }

  /** Occurrences counted from the left without overlap. */
  function CountFrom(s: string, p: string, from: nat): nat
    requires from <= |s| && p != []
    decreases |s| - from
  {
    var i := IndexFrom(s, p, from);
    if i.None? then 0 else 1 + CountFrom(s, p, i.value + |p|)
  }

  lemma CountZero(s: string, p: string, from: nat)
    requires from <= |s| && p != []
    ensures CountFrom(s, p, from) == 0 <==> forall k :: from <= k <= |s| ==> !At(s, p, k)
  {
  }

  /** Counted once: an occurrence, nothing before it, and nothing after its end. */
  lemma CountOne(s: string, p: string, from: nat)
    requires from <= |s| && p != []
    ensures CountFrom(s, p, from) == 1 <==>
            exists i :: from <= i <= |s| && At(s, p, i) && (forall k :: from <= k < i ==> !At(s, p, k))
                        && (forall k :: i + |p| <= k <= |s| ==> !At(s, p, k))
  {
    var i := IndexFrom(s, p, from);
    if i.Some? {
      CountZero(s, p, i.value + |p|);
      if CountFrom(s, p, from) != 1 {
        forall j | from <= j <= |s| && At(s, p, j) && (forall k :: from <= k < j ==> !At(s, p, k)) ensures j == i.value {}
      }
    }
  }

  // ----- stripping and appending -----

  /** The position after one line ending, `\n`, `\r\n` or a lone `\r`. */
  function SkipLineEnd(s: string, j: nat): nat
    requires j <= |s|
  {
    var k := if j < |s| && s[j] == '\r' then j + 1 else j;
    if k < |s| && s[k] == '\n' then k + 1 else k
  }

  predicate LineStart(s: string, i: nat)
    requires i <= |s|
  {
    i == 0 || s[i - 1] == '\n'
  }

  predicate LineEnd(s: string, j: nat)
    requires j <= |s|
  {
    j == |s| || s[j] == '\n' || s[j] == '\r'
  }

  /** The text without its managed block; `None` when the markers are ambiguous or out of place. */
  function StripBlock(content: string, start: string, end: string): Option<string>
    requires start != [] && end != []
  {
    var starts, ends := CountFrom(content, start, 0), CountFrom(content, end, 0);
    if starts == 0 && ends == 0 then Some(content)
    else if starts != 1 || ends != 1 then None
    else
      var i, e := IndexFrom(content, start, 0).value, IndexFrom(content, end, 0).value;
      if e < i || !LineStart(content, i) then None
      else
        var j := e + |end|;
        if !LineEnd(content, j) then None else Some(content[..i] + content[SkipLineEnd(content, j)..])
  }

  function TrimRight(s: string): (r: string)
    ensures r <= s && (r == [] || r[|r| - 1] != '\n')
  {
    if s != [] && s[|s| - 1] == '\n' then TrimRight(s[..|s| - 1]) else s
  }

  /** The text with a final newline, unless it is empty. */
  function Terminated(content: string): string {
    if content != [] && content[|content| - 1] != '\n' then content + "\n" else content
  }

  function Block(start: string, end: string, body: string): string {
    start + "\n" + TrimRight(body) + "\n" + end + "\n"
  }

  function AppendBlock(content: string, start: string, end: string, body: string): string {
    Terminated(content) + Block(start, end, body)
  }

  /** One installation: what is outside the block, and the block anew. */
  function Install(content: string, start: string, end: string, body: string): Option<string>
    requires start != [] && end != []
  {
    var outside := StripBlock(content, start, end);
    if outside.None? then None else Some(AppendBlock(outside.value, start, end, body))
  }

  // ----- usable markers and texts -----

  predicate Markers(start: string, end: string) {
    start != [] && end != [] && '\n' !in start && '\n' !in end && !Contains(start, end) && !Contains(end, start)
  }

  predicate Free(s: string, start: string, end: string) {
    !Contains(s, start) && !Contains(s, end)
  }

  // ----- occurrences across a join -----

  lemma NoNewlineAt(p: string, m: nat)
    requires '\n' !in p && m < |p|
    ensures p[m] != '\n'
  {
    assert p[m] in p;
  }

  /** A marker without newlines lies on one side of a newline. */
  lemma JoinSplits(a: string, b: string, p: string, k: nat)
    requires p != [] && '\n' !in p && (a == [] || a[|a| - 1] == '\n') && At(a + b, p, k)
    ensures (k + |p| <= |a| && At(a, p, k)) || (k >= |a| && At(b, p, k - |a|))
  {
    if k < |a| < k + |p| {
      NoNewlineAt(p, |a| - 1 - k);
    }
  }

  lemma JoinKeeps(a: string, b: string, p: string, k: nat)
    ensures At(a, p, k) ==> At(a + b, p, k)
    ensures At(b, p, k) ==> At(a + b, p, |a| + k)
  {
  }

  /** Joined after a line ending, marker-free texts stay marker-free. */
  lemma JoinFree(a: string, b: string, p: string)
    requires p != [] && '\n' !in p && (a == [] || a[|a| - 1] == '\n') && !Contains(a, p) && !Contains(b, p)
    ensures !Contains(a + b, p)
  {
    forall k: nat | At(a + b, p, k) ensures false {
      JoinSplits(a, b, p, k);
    }
  }

  lemma PartFree(s: string, i: nat, j: nat, p: string)
    requires i <= j <= |s| && !Contains(s, p)
    ensures !Contains(s[i..j], p)
  {
    forall k: nat | At(s[i..j], p, k) ensures At(s, p, i + k) {}
  }

  lemma NewlineFree(s: string, p: string)
    requires p != [] && '\n' !in p && !Contains(s, p)
    ensures !Contains(s + "\n", p)
  {
    forall k: nat | At(s + "\n", p, k) ensures At(s, p, k) {
      NoNewlineAt(p, |p| - 1);
    }
  }

  lemma TerminatedFree(s: string, p: string)
    requires p != [] && '\n' !in p && !Contains(s, p)
    ensures !Contains(Terminated(s), p)
  {
    NewlineFree(s, p);
  }

  // ----- the block among its neighbours -----

  /** Nothing of a marker after its occurrence and a newline, when the rest is free of it. */
  lemma NoneAfter(head: string, p: string, c: string, k: nat)
    requires p != [] && '\n' !in p && !Contains(c, p) && |head| + |p| <= k
    ensures !At(head + p + "\n" + c, p, k)
  {
    var before := head + p + "\n";
    NoNewlineAt(p, 0);
    assert (before + c)[|head| + |p|] == '\n';
    if At(before + c, p, k) {
      JoinSplits(before, c, p, k);
    }
  }

  lemma NoneBefore(a: string, b: string, p: string, k: nat)
    requires p != [] && '\n' !in p && (a == [] || a[|a| - 1] == '\n') && !Contains(a, p) && k < |a|
    ensures !At(a + b, p, k)
  {
    hide At;
    if At(a + b, p, k) {
      JoinSplits(a, b, p, k);
    }
  }

  lemma OnceAt(s: string, p: string, i: nat)
    requires p != [] && i <= |s| && At(s, p, i) && (forall k :: 0 <= k < i ==> !At(s, p, k))
    requires forall k :: i + |p| <= k <= |s| ==> !At(s, p, k)
    ensures CountFrom(s, p, 0) == 1 && IndexFrom(s, p, 0) == Some(i)
  {
    hide At;
    CountOne(s, p, 0);
  }

  /** The only occurrence of a marker in `a + p + "\n" + c`, when `a` and `c` are free of it. */
  lemma OnlyBetween(a: string, p: string, c: string)
    requires p != [] && '\n' !in p && (a == [] || a[|a| - 1] == '\n') && !Contains(a, p) && !Contains(c, p)
    ensures var s := a + (p + "\n" + c);
            At(s, p, |a|) && CountFrom(s, p, 0) == 1 && IndexFrom(s, p, 0) == Some(|a|)
  {
    hide At, Contains, CountFrom, IndexFrom;
    var rest := p + "\n" + c;
    var s := a + rest;
    WholeAt(p);
    JoinKeeps(p, "\n" + c, p, 0);
    assert p + ("\n" + c) == rest;
    JoinKeeps(a, rest, p, 0);
    forall k: nat | k < |a| ensures !At(s, p, k) { NoneBefore(a, rest, p, k); }
    assert a + p + "\n" + c == s;
    forall k: nat | |a| + |p| <= k ensures !At(s, p, k) { NoneAfter(a, p, c, k); }
    OnceAt(s, p, |a|);
  }

  lemma WholeAt(p: string)
    ensures At(p, p, 0)
  {
  }

  lemma EmptyFree(p: string)
    requires p != []
    ensures !Contains("", p)
  {
  }

  lemma AppendedStart(content: string, start: string, end: string, body: string)
    requires Markers(start, end) && Free(content, start, end) && Free(body, start, end)
    ensures var s := AppendBlock(content, start, end, body);
            CountFrom(s, start, 0) == 1 && IndexFrom(s, start, 0) == Some(|Terminated(content)|)
  {
    hide At, Contains, CountFrom, IndexFrom, TrimRight;
    var a, t := Terminated(content), TrimRight(body);
    var c := t + "\n" + (end + "\n");
    TerminatedFree(content, start);
    assert t == body[0..|t|];
    PartFree(body, 0, |t|, start);
    NewlineFree(t, start);
    NewlineFree(end, start);
    JoinFree(t + "\n", end + "\n", start);
    OnlyBetween(a, start, c);
    assert AppendBlock(content, start, end, body) == a + (start + "\n" + c);
  }

  lemma AppendedEnd(content: string, start: string, end: string, body: string)
    requires Markers(start, end) && Free(content, start, end) && Free(body, start, end)
    ensures var s := AppendBlock(content, start, end, body);
            CountFrom(s, end, 0) == 1 && IndexFrom(s, end, 0) == Some(|s| - |end| - 1)
  {
    hide At, Contains, CountFrom, IndexFrom, TrimRight;
    var a, t := Terminated(content), TrimRight(body);
    EmptyFree(end);
    TerminatedFree(content, end);
    NewlineFree(start, end);
    JoinFree(a, start + "\n", end);
    assert t == body[0..|t|];
    PartFree(body, 0, |t|, end);
    NewlineFree(t, end);
    var before := a + (start + "\n") + (t + "\n");
    JoinFree(a + (start + "\n"), t + "\n", end);
    OnlyBetween(before, end, "");
    assert AppendBlock(content, start, end, body) == before + (end + "\n" + "");
  }

  lemma AppendedShape(content: string, start: string, end: string, body: string)
    ensures var s, a := AppendBlock(content, start, end, body), Terminated(content);
            && |a| + |start| + |end| + 2 <= |s| && s[..|a|] == a && LineStart(s, |a|) && s[|s| - 1] == '\n'
  {
    var s, a, b := AppendBlock(content, start, end, body), Terminated(content), Block(start, end, body);
    assert |b| == |start| + |end| + |TrimRight(body)| + 3;
    assert b[|b| - 1] == '\n';
    hide Block, TrimRight;
    assert s == a + b;
    if a != [] { assert a[|a| - 1] == '\n'; }
  }

  lemma StripsTo(s: string, start: string, end: string, i: nat, e: nat)
    requires start != [] && end != [] && i <= e && e + |end| <= |s| && LineStart(s, i) && LineEnd(s, e + |end|)
    requires CountFrom(s, start, 0) == CountFrom(s, end, 0) == 1
    requires IndexFrom(s, start, 0) == Some(i) && IndexFrom(s, end, 0) == Some(e)
    ensures StripBlock(s, start, end) == Some(s[..i] + s[SkipLineEnd(s, e + |end|)..])
  {
    hide CountFrom, IndexFrom;
  }

  lemma StripsTail(s: string, a: string, start: string, end: string)
    requires start != [] && end != [] && |a| + |start| + |end| + 2 <= |s| && s[..|a|] == a && LineStart(s, |a|) && s[|s| - 1] == '\n'
    requires CountFrom(s, start, 0) == CountFrom(s, end, 0) == 1
    requires IndexFrom(s, start, 0) == Some(|a|) && IndexFrom(s, end, 0) == Some(|s| - |end| - 1)
    ensures StripBlock(s, start, end) == Some(a)
  {
    hide CountFrom, IndexFrom, StripBlock, LineStart;
    StripsTo(s, start, end, |a|, |s| - |end| - 1);
    assert SkipLineEnd(s, |s| - |end| - 1 + |end|) == |s|;
    assert s[..|a|] + s[|s|..] == a;
  }

  /** Stripping undoes appending, up to the one newline that may have been added. */
  lemma RoundTrip(content: string, start: string, end: string, body: string)
    requires Markers(start, end) && Free(content, start, end) && Free(body, start, end)
    ensures StripBlock(AppendBlock(content, start, end, body), start, end) == Some(Terminated(content))
  {
    MarkersNonempty(start, end);
    var s, a := AppendBlock(content, start, end, body), Terminated(content);
    AppendedStart(content, start, end, body);
    AppendedEnd(content, start, end, body);
    AppendedShape(content, start, end, body);
    hide *;
    StripsTail(s, a, start, end);
  }

  // ----- and only marker-free bodies can be stripped again -----

  lemma CountTwo(s: string, p: string, i: nat, k: nat)
    requires p != [] && At(s, p, i) && i + |p| <= k && At(s, p, k)
    ensures CountFrom(s, p, 0) >= 2
  {
    var first := IndexFrom(s, p, 0);
    assert first.Some? && first.value <= i;
    CountZero(s, p, first.value + |p|);
  }

  /** An occurrence in the body survives the trimming of its final newlines. */
  lemma {:induction false} TrimKeeps(body: string, p: string, k: nat)
    requires p != [] && '\n' !in p && At(body, p, k)
    ensures At(TrimRight(body), p, k)
  {
    if body != [] && body[|body| - 1] == '\n' {
      NoNewlineAt(p, |p| - 1);
      assert k + |p| < |body|;
      TrimKeeps(body[..|body| - 1], p, k);
    }
  }

  /** Where the block's own markers stand, and an occurrence in its body between them. */
  lemma InBlock(a: string, start: string, end: string, body: string, p: string, k: nat) returns (i: nat, m: nat, e: nat)
    requires p != [] && '\n' !in p && At(body, p, k)
    ensures i + |start| <= m && m + |p| <= e
    ensures At(a + Block(start, end, body), start, i)
    ensures At(a + Block(start, end, body), p, m)
    ensures At(a + Block(start, end, body), end, e)
  {
    TrimKeeps(body, p, k);
    hide TrimRight;
    var t := TrimRight(body);
    var s := a + Block(start, end, body);
    i, m, e := |a|, |a| + |start| + 1 + k, |a| + |start| + 1 + |t| + 1;
    forall q | 0 <= q < |start| ensures s[i + q] == start[q] {}
    forall q | 0 <= q < |end| ensures s[e + q] == end[q] {}
    forall q | 0 <= q < |p| ensures s[m + q] == p[q] {
      assert s[|a| + |start| + 1 + (k + q)] == t[k + q];
    }
  }

  /** A marker in the body is a second occurrence of it, which makes the block ambiguous. */
  lemma SecondStart(a: string, start: string, end: string, body: string, k: nat)
    requires start != [] && end != [] && '\n' !in start && At(body, start, k)
    ensures StripBlock(a + Block(start, end, body), start, end).None?
  {
    hide *;
    var i, m, _ := InBlock(a, start, end, body, start, k);
    CountTwo(a + Block(start, end, body), start, i, m);
    TwiceIsNone(a + Block(start, end, body), start, end);
  }

  lemma SecondEnd(a: string, start: string, end: string, body: string, k: nat)
    requires start != [] && end != [] && '\n' !in end && At(body, end, k)
    ensures StripBlock(a + Block(start, end, body), start, end).None?
  {
    hide *;
    var _, m, e := InBlock(a, start, end, body, end, k);
    CountTwo(a + Block(start, end, body), end, m, e);
    TwiceIsNone(a + Block(start, end, body), start, end);
  }

  lemma TwiceIsNone(s: string, start: string, end: string)
    requires start != [] && end != [] && (CountFrom(s, start, 0) >= 2 || CountFrom(s, end, 0) >= 2)
    ensures StripBlock(s, start, end).None?
  {
    hide CountFrom, IndexFrom;
  }

  /** The installed text can be stripped, and so installed over, exactly when the body is free of both markers. */
  lemma StripsIffFree(content: string, start: string, end: string, body: string)
    requires Markers(start, end) && Free(content, start, end)
    ensures StripBlock(AppendBlock(content, start, end, body), start, end).Some? <==> Free(body, start, end)
  {
    hide At, StripBlock, Block, Terminated;
    if Free(body, start, end) {
      RoundTrip(content, start, end, body);
    } else if Contains(body, start) {
      var k :| 0 <= k <= |body| && At(body, start, k);
      SecondStart(Terminated(content), start, end, body, k);
    } else {
      var k :| 0 <= k <= |body| && At(body, end, k);
      SecondEnd(Terminated(content), start, end, body, k);
    }
  }

  // ----- stripping leaves no marker -----

  lemma EndsLater(s: string, start: string, end: string, i: nat, e: nat)
    requires i <= e && At(s, start, i) && At(s, end, e) && !Contains(start, end)
    ensures i + |start| <= e + |end|
  {
    if e + |end| < i + |start| {
      InsideOf(s, start, end, i, e);
    }
  }

  lemma InsideOf(s: string, p: string, q: string, i: nat, e: nat)
    requires i <= e && e + |q| <= i + |p| && At(s, p, i) && At(s, q, e)
    ensures Contains(p, q)
  {
    forall k | 0 <= k < |q| ensures p[e - i + k] == q[k] {
      assert s[i + (e - i + k)] == p[e - i + k];
    }
    assert At(p, q, e - i);
  }

  /** The cut of a stripped block: before its start marker, and at or after the end of its end marker. */
  lemma Cut(content: string, start: string, end: string) returns (i: nat, j: nat)
    requires Markers(start, end) && StripBlock(content, start, end).Some?
    requires CountFrom(content, start, 0) != 0 || CountFrom(content, end, 0) != 0
    ensures i <= j <= |content| && LineStart(content, i) && StripBlock(content, start, end) == Some(content[..i] + content[j..])
    ensures forall k :: 0 <= k < i || j <= k <= |content| ==> !At(content, start, k)
    ensures forall k :: 0 <= k < i || j <= k <= |content| ==> !At(content, end, k)
    ensures At(content, start, i)
  {
    CountOne(content, start, 0);
    CountOne(content, end, 0);
    i := IndexFrom(content, start, 0).value;
    var e := IndexFrom(content, end, 0).value;
    j := SkipLineEnd(content, e + |end|);
    EndsLater(content, start, end, i, e);
  }

  lemma PrefixFree(s: string, i: nat, p: string)
    requires i <= |s| && forall k :: 0 <= k < i ==> !At(s, p, k)
    requires p != []
    ensures !Contains(s[..i], p)
  {
    forall k: nat | At(s[..i], p, k) ensures At(s, p, k) && k < i {}
  }

  lemma SuffixFree(s: string, j: nat, p: string)
    requires j <= |s| && forall k :: j <= k <= |s| ==> !At(s, p, k)
    ensures !Contains(s[j..], p)
  {
    forall k: nat | At(s[j..], p, k) ensures At(s, p, j + k) {}
  }

  /** What is left outside holds no marker: none was there besides the block's, and the join makes none. */
  lemma StrippedIsFree(content: string, start: string, end: string)
    requires Markers(start, end) && StripBlock(content, start, end).Some?
    ensures Free(StripBlock(content, start, end).value, start, end)
  {
    if CountFrom(content, start, 0) == 0 && CountFrom(content, end, 0) == 0 {
      CountZero(content, start, 0);
      CountZero(content, end, 0);
    } else {
      var i, j := Cut(content, start, end);
      PrefixFree(content, i, start);
      PrefixFree(content, i, end);
      SuffixFree(content, j, start);
      SuffixFree(content, j, end);
      JoinFree(content[..i], content[j..], start);
      JoinFree(content[..i], content[j..], end);
    }
  }

  /** Installing twice is installing the second body once, and installing the same body again changes nothing. */
  lemma Reinstall(content: string, start: string, end: string, body: string, newer: string)
    requires Markers(start, end) && Free(body, start, end) && Install(content, start, end, body).Some?
    ensures Install(Install(content, start, end, body).value, start, end, newer) == Install(content, start, end, newer)
    ensures Install(content, start, end, newer).Some?
  {
    hide CountFrom, IndexFrom, Markers, Free;
    MarkersNonempty(start, end);
    var outside := StripBlock(content, start, end).value;
    StrippedIsFree(content, start, end);
    RoundTrip(outside, start, end, body);
    hide StripBlock;
  }

  lemma MarkersNonempty(start: string, end: string)
    requires Markers(start, end)
    ensures start != [] && end != []
  {
  }

  /** Installation succeeds exactly when the text can be stripped, and then keeps everything outside the block, in order. */
  lemma OutsideIsKept(content: string, start: string, end: string, body: string)
    requires Markers(start, end) && Free(body, start, end) && StripBlock(content, start, end).Some?
    ensures Install(content, start, end, body).Some?
    ensures StripBlock(Install(content, start, end, body).value, start, end) == Some(Terminated(StripBlock(content, start, end).value))
  {
    StrippedIsFree(content, start, end);
    RoundTrip(StripBlock(content, start, end).value, start, end, body);
    hide StripBlock, CountFrom, IndexFrom;
  }

  /** A text at most two characters longer than `q` that differs from it where `q` could stand does not contain it. */
  lemma NotInside(p: string, q: string, m: nat)
    requires 2 < |q| && 2 < |p| <= |q| + 2 && m < |p| && m < |q| && p[m] != q[m] && p[1] != q[0] && p[2] != q[0]
    ensures !Contains(p, q)
  {
    forall i: nat ensures !At(p, q, i) {
      if i + |q| <= |p| { assert p[i + 0] != q[0] || p[i + m] != q[m]; }
    }
  }

  /** The two pairs of marker lines that are installed. */
  lemma InstalledMarkers()
    ensures Markers(CONFIG_START, CONFIG_END) && Markers(AGENTS_START, AGENTS_END)
  {
    NotInside(CONFIG_START, CONFIG_END, 2);
    NotInside(CONFIG_END, CONFIG_START, 2);
    NotInside(AGENTS_START, AGENTS_END, 5);
    NotInside(AGENTS_END, AGENTS_START, 5);
  }

  // ----- an input that the guard on the instructions does not cover -----

  /** A text in quotes, for texts without characters that quoting escapes. */
  function Quoted(s: string): string {
    "\"" + s + "\""
  }

  function CommandKey(name: string): string {
    "[mcp_servers." + Quoted(name) + "]\ncommand = "
  }

  function Arguments(endpoint: string, profile: string): string {
    "\nargs = [\"mcp\", \"--url\", " + Quoted(endpoint) + ", \"--profile\", " + Quoted(profile) + "]\n"
  }

  /** The configuration entry of a server that is launched as a process. */
  function LaunchEntry(name: string, executable: string, endpoint: string, profile: string): string {
    CommandKey(name) + Quoted(executable) + Arguments(endpoint, profile)
  }

  lemma QuotedHas(before: string, prefix: string, marker: string, suffix: string, after: string)
    ensures Contains(before + Quoted(prefix + marker + suffix) + after, marker)
  {
    hide At;
    var head, tail := before + "\"" + prefix, suffix + "\"" + after;
    assert before + Quoted(prefix + marker + suffix) + after == head + (marker + tail);
    hide Quoted;
    WholeAt(marker);
    JoinKeeps(marker, tail, marker, 0);
    JoinKeeps(head, marker + tail, marker, 0);
  }

  lemma EntryHasMarker(name: string, prefix: string, marker: string, suffix: string, endpoint: string, profile: string)
    ensures Contains(LaunchEntry(name, prefix + marker + suffix, endpoint, profile), marker)
  {
    hide Contains, Quoted, CommandKey, Arguments;
    QuotedHas(CommandKey(name), prefix, marker, suffix, Arguments(endpoint, profile));
  }

  lemma FreeIsUntouched(content: string, start: string, end: string)
    requires start != [] && end != [] && Free(content, start, end)
    ensures StripBlock(content, start, end) == Some(content)
  {
    CountZero(content, start, 0);
    CountZero(content, end, 0);
  }

  /** A launched executable whose path holds the start marker is installed once, and blocks every later installation. */
  lemma MarkedExecutableBlocks(content: string, name: string, prefix: string, suffix: string, endpoint: string, profile: string, newer: string)
    requires Free(content, CONFIG_START, CONFIG_END)
    ensures var entry := LaunchEntry(name, prefix + CONFIG_START + suffix, endpoint, profile);
            && Install(content, CONFIG_START, CONFIG_END, entry).Some?
            && Install(Install(content, CONFIG_START, CONFIG_END, entry).value, CONFIG_START, CONFIG_END, newer).None?
  {
    InstalledMarkers();
    EntryHasMarker(name, prefix, CONFIG_START, suffix, endpoint, profile);
    hide StripBlock, Contains, LaunchEntry, AppendBlock;
    var entry := LaunchEntry(name, prefix + CONFIG_START + suffix, endpoint, profile);
    FreeIsUntouched(content, CONFIG_START, CONFIG_END);
    StripsIffFree(content, CONFIG_START, CONFIG_END, entry);
  }

  /** For example an empty configuration and an executable under a directory of that name. */
  lemma MarkedDirectoryBlocks()
    ensures var entry := LaunchEntry("rc", "/opt/" + CONFIG_START + "/release-control", "http://localhost:8080", "dev");
            && Install("", CONFIG_START, CONFIG_END, entry).Some?
            && Install(Install("", CONFIG_START, CONFIG_END, entry).value, CONFIG_START, CONFIG_END, entry).None?
  {
    var entry := LaunchEntry("rc", "/opt/" + CONFIG_START + "/release-control", "http://localhost:8080", "dev");
    hide *;
    EmptyConfigFree();
    MarkedExecutableBlocks("", "rc", "/opt/", "/release-control", "http://localhost:8080", "dev", entry);
  }

  lemma EmptyConfigFree()
    ensures Free("", CONFIG_START, CONFIG_END)
  {
    EmptyFree(CONFIG_START);
    EmptyFree(CONFIG_END);
  }
}
