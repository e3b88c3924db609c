/** Inline code spans: stripCodeSpans, matchingBacktickRun and backtickEscaped of
    internal/crq/skipmarker.go, against section 6.1 of CommonMark 0.31.2.

    A text splits into literal characters, escaped backticks, backtick runs
    nothing closes, and spans. Every text splits in exactly one way, and stripping
    replaces each span of that split by one space. */
module CodeSpans {
  import opened Text

  function Backslashes(text: string, at: nat): (n: nat)
    requires at <= |text|
    ensures n <= at && forall i :: at - n <= i < at ==> text[i] == '\\'
    ensures n < at ==> text[at - n - 1] != '\\'
  {
    if at > 0 && text[at - 1] == '\\' then 1 + Backslashes(text, at - 1) else 0
  }

  predicate Escaped(text: string, at: nat)
    requires at <= |text|
  {
    Backslashes(text, at) % 2 == 1
  }

  predicate AllTicks(text: string, from: nat, to: nat)
    requires from <= to <= |text|
  {
    forall i :: from <= i < to ==> text[i] == '`'
  }

  /** The backticks from at are exactly k: the run stops there. */
  predicate Run(text: string, at: nat, k: nat) {
    && 0 < k && at + k <= |text| && AllTicks(text, at, at + k)
    && (at + k < |text| ==> text[at + k] != '`')
  }

  /** A run of exactly k backticks, begun at or after from, ends at end. */
  predicate Closes(text: string, from: nat, k: nat, end: nat) {
    && from + k <= end <= |text| && Run(text, end - k, k)
    && (from < end - k ==> text[end - k - 1] != '`')
  }

  ghost predicate FirstClose(text: string, from: nat, k: nat, end: nat) {
    Closes(text, from, k, end) && forall e :: Closes(text, from, k, e) ==> end <= e
  }

  ghost predicate Unclosed(text: string, from: nat, k: nat) {
    forall e :: !Closes(text, from, k, e)
  }

  datatype Segment =
    | Literal(c: char)
    | EscapedTick
    | Unmatched(run: nat)
    | Span(run: nat, interior: string)
  {
    function Written(): string {
      match this
      case Literal(c) => [c]
      case EscapedTick => "`"
      case Unmatched(k) => Ticks(k)
      case Span(k, interior) => Ticks(k) + interior + Ticks(k)
    }

    /** What the segment leaves behind. */
    function Left(): string {
      if Span? then " " else Written()
    }
  }

  function Ticks(k: nat): string { seq(k, _ => '`') }

  function Written(segments: seq<Segment>): string {
    if segments == [] then "" else segments[0].Written() + Written(segments[1..])
  }

  function Left(segments: seq<Segment>): string {
    if segments == [] then "" else segments[0].Left() + Left(segments[1..])
  }

  /** segment is what CommonMark reads at position at. */
  ghost predicate Reads(text: string, at: nat, segment: Segment) {
    at < |text| &&
    match segment
    case Literal(c) => text[at] == c && c != '`'
    case EscapedTick => text[at] == '`' && Escaped(text, at)
    case Unmatched(k) => Run(text, at, k) && !Escaped(text, at) && Unclosed(text, at + k, k)
    case Span(k, interior) =>
      && Run(text, at, k) && !Escaped(text, at)
      && FirstClose(text, at + k, k, at + k + |interior| + k)
      && interior == text[at + k..at + k + |interior|]
  }

  /** segments split text from position at to its end. */
  ghost predicate Splits(text: string, at: nat, segments: seq<Segment>)
    decreases |segments|
  {
    if segments == [] then at == |text|
    else Reads(text, at, segments[0]) && Splits(text, at + Width(segments[0]), segments[1..])
  }

  lemma SliceJoin(text: string, a: nat, b: nat, c: nat)
    requires a <= b <= c <= |text|
    ensures text[a..b] + text[b..c] == text[a..c]
  {
  }

  lemma RunWritten(text: string, at: nat, k: nat)
    requires Run(text, at, k)
    ensures 0 < k && at + k <= |text| && Ticks(k) == text[at..at + k]
  {
  }

  function Width(segment: Segment): nat {
    match segment
    case Literal(_) => 1
    case EscapedTick => 1
    case Unmatched(k) => k
    case Span(k, interior) => k + |interior| + k
  }

  lemma ReadsWritten(text: string, at: nat, segment: Segment)
    requires Reads(text, at, segment)
    ensures 0 < Width(segment) && at + Width(segment) <= |text|
    ensures segment.Written() == text[at..at + Width(segment)]
    ensures !segment.Span? ==> segment.Left() == text[at..at + Width(segment)]
  {
    hide Run, AllTicks, Closes, FirstClose, Unclosed, Escaped, Ticks;
    match segment
    case Literal(_) =>
    case EscapedTick =>
    case Unmatched(k) => RunWritten(text, at, k);
    case Span(k, interior) => SpanWritten(text, at, k, interior);
  }

  lemma SpanWritten(text: string, at: nat, k: nat, interior: string)
    requires Reads(text, at, Span(k, interior))
    ensures 0 < k && at + k + |interior| + k <= |text|
    ensures Ticks(k) + interior + Ticks(k) == text[at..at + k + |interior| + k]
  {
    hide Run, AllTicks, Closes, FirstClose, Unclosed, Escaped, Ticks;
    var close := at + k + |interior|;
    RunWritten(text, at, k);
    FirstCloseRun(text, at + k, k, close + k);
    RunWritten(text, close, k);
    SliceJoin(text, at, at + k, close);
    SliceJoin(text, at, close, close + k);
  }

  lemma FirstCloseRun(text: string, from: nat, k: nat, end: nat)
    requires FirstClose(text, from, k, end)
    ensures from + k <= end <= |text| && Run(text, end - k, k)
  {
  }

  lemma ReadsUnique(text: string, at: nat, a: Segment, b: Segment)
    requires Reads(text, at, a) && Reads(text, at, b)
    ensures a == b
  {
    if text[at] == '`' && !Escaped(text, at) {
      RunUnique(text, at, a.run, b.run);
    }
  }

  lemma RunUnique(text: string, at: nat, k: nat, m: nat)
    requires Run(text, at, k) && Run(text, at, m)
    ensures k == m
  {
    assert at + k < |text| ==> text[at + k] != '`';
    assert at + m < |text| ==> text[at + m] != '`';
  }

  lemma {:induction false} SplitUnique(text: string, at: nat, a: seq<Segment>, b: seq<Segment>)
    requires Splits(text, at, a) && Splits(text, at, b)
    ensures a == b
    decreases |a|
  {
    if a != [] && b != [] {
      ReadsUnique(text, at, a[0], b[0]);
      SplitUnique(text, at + Width(a[0]), a[1..], b[1..]);
    }
  }

  lemma {:induction false} SplitWritten(text: string, at: nat, segments: seq<Segment>)
    requires Splits(text, at, segments)
    ensures at <= |text| && Written(segments) == text[at..|text|]
    decreases |segments|
  {
    if segments != [] {
      ReadsWritten(text, at, segments[0]);
      var mid := at + Width(segments[0]);
      SplitWritten(text, mid, segments[1..]);
      hide Reads, Splits, Segment.Written;
      SliceJoin(text, at, mid, |text|);
    }
  }

  // ----- the split every text has --------------------------------------------

  function RunLength(text: string, at: nat): (k: nat)
    requires at <= |text|
    ensures at + k <= |text| && AllTicks(text, at, at + k)
    ensures at + k < |text| ==> text[at + k] != '`'
    decreases |text| - at
  {
    if at < |text| && text[at] == '`' then 1 + RunLength(text, at + 1) else 0
  }

  function Close(text: string, from: nat, k: nat, e: nat): (end: Option<nat>)
    ensures end.Some? ==> e <= end.value && Closes(text, from, k, end.value)
    ensures forall x :: e <= x && Closes(text, from, k, x) ==> end.Some? && end.value <= x
    decreases |text| + 1 - e
  {
    if e > |text| then None
    else if Closes(text, from, k, e) then Some(e)
    else Close(text, from, k, e + 1)
  }

  function SegmentAt(text: string, at: nat): (segment: Segment)
    requires at < |text|
    ensures Reads(text, at, segment)
  {
    if text[at] != '`' then Literal(text[at])
    else if Escaped(text, at) then EscapedTick
    else
      var k := RunLength(text, at);
      match Close(text, at + k, k, 0)
      case None => Unmatched(k)
      case Some(end) => Span(k, text[at + k..end - k])
  }

  /** What a position begins: a character that is no backtick stands for itself, and so does a
      backtick after an odd number of backslashes; any other begins a run, which is a span up
      to the first run of its length, and stands for itself when there is none. */
  lemma SegmentExactly(text: string, at: nat, k: nat, from: nat)
    requires at < |text| && 0 < k && from == at + k <= |text|
    ensures text[at] != '`' ==> SegmentAt(text, at) == Literal(text[at])
    ensures text[at] == '`' && OddSlashes(text, at) ==> SegmentAt(text, at) == EscapedTick
    ensures text[at..from] == Ticks(k) && (from < |text| ==> text[from] != '`') && !OddSlashes(text, at) ==>
      && ((forall e: nat :: from + k <= e <= |text| ==> !Alone(text, from, k, e)) ==>
            SegmentAt(text, at) == Unmatched(k))
      && forall e: nat :: FirstAlone(text, from, k, e) ==> SegmentAt(text, at) == Span(k, text[from..e - k])
  {
    OddExactly(text, at);
    forall e: nat | from + k <= e <= |text|
      ensures Alone(text, from, k, e) <==> Closes(text, from, k, e)
    {
      AloneExactly(text, from, k, e);
    }
    hide Alone, OddSlashes, Escaped, Closes;
    if text[at..from] == Ticks(k) && (from < |text| ==> text[from] != '`') {
      RunStarts(text, at, k);
    }
  }

  /** The first run of the length that stands alone. */
  ghost predicate FirstAlone(text: string, from: nat, k: nat, e: nat) {
    && from + k <= e <= |text| && Alone(text, from, k, e)
    && forall d: nat :: from + k <= d < e ==> !Alone(text, from, k, d)
  }

  lemma RunStarts(text: string, at: nat, k: nat)
    requires 0 < k <= |text| - at && text[at..at + k] == Ticks(k) && (at + k < |text| ==> text[at + k] != '`')
    ensures RunLength(text, at) == k
  {
    var run := text[at..at + k];
    forall i | at <= i < at + k ensures text[i] == '`' {
      assert run[i - at] == '`';
    }
    var n := RunLength(text, at);
    assert !(n < k) && !(k < n);
  }

  function Segments(text: string, at: nat): (segments: seq<Segment>)
    requires at <= |text|
    ensures Splits(text, at, segments)
    decreases |text| - at
  {
    if at == |text| then []
    else
      var segment := SegmentAt(text, at);
      ReadsWritten(text, at, segment);
      var rest := Segments(text, at + Width(segment));
      SplitCons(text, at, segment, rest);
      [segment] + rest
  }

  lemma SplitCons(text: string, at: nat, segment: Segment, rest: seq<Segment>)
    requires Reads(text, at, segment) && Splits(text, at + Width(segment), rest)
    ensures Splits(text, at, [segment] + rest)
  {
    assert ([segment] + rest)[1..] == rest;
  }

  /** The text with each code span replaced by one space. */
  function Strip(text: string): string { Left(Segments(text, 0)) }

  // ----- the loops of the source ------------------------------------------------

  /** The backslashes right before a position, all of them, begin at from. */
  ghost predicate SlashesFrom(text: string, from: nat, at: nat) {
    && from <= at <= |text| && (forall i :: from <= i < at ==> text[i] == '\\')
    && (from > 0 ==> text[from - 1] != '\\')
  }

  ghost predicate OddSlashes(text: string, at: nat) {
    exists from: nat :: SlashesFrom(text, from, at) && (at - from) % 2 == 1
  }

  lemma OddExactly(text: string, at: nat)
    requires at <= |text|
    ensures OddSlashes(text, at) <==> Escaped(text, at)
  {
    var first := at - Backslashes(text, at);
    assert SlashesFrom(text, first, at);
    if from: nat :| SlashesFrom(text, from, at) && (at - from) % 2 == 1 {
      assert !(from < first) && !(first < from);
    }
  }

  method BacktickEscaped(text: string, at: nat) returns (escaped: bool)
    requires at <= |text|
    ensures escaped == Escaped(text, at)
    ensures escaped <==> OddSlashes(text, at)
  {
    OddExactly(text, at);
    var backslashes, i := 0, at;
    while i > 0 && text[i - 1] == '\\'
      invariant 0 <= i <= at && backslashes + Backslashes(text, i) == Backslashes(text, at)
    {
      backslashes := backslashes + 1;
      i := i - 1;
    }
    escaped := backslashes % 2 == 1;
  }

  /** Before end stand as many backticks as wanted, and no more on either side. */
  ghost predicate Alone(text: string, start: nat, want: nat, end: nat)
    requires start + want <= end <= |text|
  {
    && text[end - want..end] == Ticks(want) && (end < |text| ==> text[end] != '`')
    && (start < end - want ==> text[end - want - 1] != '`')
  }

  lemma AloneExactly(text: string, start: nat, want: nat, end: nat)
    requires want > 0 && start + want <= end <= |text|
    ensures Alone(text, start, want, end) <==> Closes(text, start, want, end)
  {
    var run := text[end - want..end];
    assert forall i :: 0 <= i < want ==> run[i] == text[end - want + i];
    if Closes(text, start, want, end) {
      assert run == Ticks(want);
    } else if run == Ticks(want) {
      forall i | end - want <= i < end ensures text[i] == '`' {
        assert run[i - (end - want)] == '`';
      }
    }
  }

  method MatchingBacktickRun(text: string, start: nat, want: nat) returns (end: int)
    requires start <= |text| && want > 0
    ensures end < 0 ==> Unclosed(text, start, want)
    ensures end >= 0 ==> start + want <= end <= |text| && FirstClose(text, start, want, end)
    ensures end >= 0 ==> start + want <= end <= |text| && Alone(text, start, want, end)
    ensures forall e: nat :: start + want <= e <= |text| && (end < 0 || e < end) ==> !Alone(text, start, want, e)
  {
    forall e: nat | start + want <= e <= |text|
      ensures Alone(text, start, want, e) <==> Closes(text, start, want, e)
    {
      AloneExactly(text, start, want, e);
    }
    hide Alone;
    var i := start;
    while i < |text|
      invariant start <= i <= |text|
      invariant start < i ==> text[i - 1] != '`' || i == |text| || text[i] != '`'
      invariant forall e :: Closes(text, start, want, e) ==> i < e
    {
      if text[i] != '`' {
        forall e | Closes(text, start, want, e) ensures i + 1 < e {
          assert text[e - 1] == '`';
        }
        i := i + 1;
      } else {
        end := i;
        while end < |text| && text[end] == '`'
          invariant i <= end <= |text| && AllTicks(text, i, end)
        {
          end := end + 1;
        }
        if end - i == want {
          forall e | Closes(text, start, want, e) ensures end <= e {
            RunsDoNotOverlap(text, start, want, e, i, end);
          }
          return;
        }
        forall e | Closes(text, start, want, e) ensures end < e {
          RunsDoNotOverlap(text, start, want, e, i, end);
        }
        i := end;
      }
    }
    end := -1;
  }

  /** No run of the wanted length ends strictly inside the maximal run i..end. */
  lemma RunsDoNotOverlap(text: string, start: nat, want: nat, e: nat, i: nat, end: nat)
    requires Closes(text, start, want, e) && start <= i < end && i < e && Run(text, i, end - i)
    requires start < i ==> text[i - 1] != '`'
    ensures end <= e && (e == end ==> want == end - i)
  {
    assert forall x :: i <= x < end ==> text[x] == '`';
    assert forall x :: e - want <= x < e ==> text[x] == '`';
    assert e < |text| ==> text[e] != '`';
    assert start < e - want ==> text[e - want - 1] != '`';
  }

  method StripCodeSpans(text: string) returns (out: string)
    ensures out == Strip(text)
  {
    hide Strip, Left, Segment.Written, Segments, Closes, FirstClose, Unclosed, Escaped;
    out := "";
    var i := 0;
    StripFrom(text, "");
    while i < |text|
      invariant i <= |text| && out + Left(Segments(text, i)) == Strip(text)
    {
      var escaped := false;
      if text[i] == '`' {
        escaped := BacktickEscaped(text, i);
      }
      if text[i] != '`' || escaped {
        StripsNext(text, i, out, if escaped then EscapedTick else Literal(text[i]));
        assert text[i..i + 1] == [text[i]];
        out := out + [text[i]];
        i := i + 1;
      } else {
        var runEnd := i;
        while runEnd < |text| && text[runEnd] == '`'
          invariant i <= runEnd <= |text| && AllTicks(text, i, runEnd)
        {
          runEnd := runEnd + 1;
        }
        var run := runEnd - i;
        var closeEnd := MatchingBacktickRun(text, runEnd, run);
        if closeEnd < 0 {
          StripsNext(text, i, out, Unmatched(run));
          out := out + text[i..runEnd];
          i := runEnd;
        } else {
          // The space stands in for the span: what is left on its two sides stays apart.
          StripsNext(text, i, out, Span(run, text[runEnd..closeEnd - run]));
          out := out + " ";
          i := closeEnd;
        }
      }
    }
    StripFrom(text, out);
  }

  lemma StripFrom(text: string, out: string)
    ensures "" + Left(Segments(text, 0)) == Strip(text) == Left(Segments(text, 0))
    ensures out + Left(Segments(text, |text|)) == out
  {
  }

  /** One turn of the loop appends what the next segment leaves. */
  lemma StripsNext(text: string, at: nat, out: string, segment: Segment)
    requires at < |text| && Reads(text, at, segment)
    ensures 0 < Width(segment) && at + Width(segment) <= |text|
    ensures var left := if segment.Span? then " " else text[at..at + Width(segment)];
      out + left + Left(Segments(text, at + Width(segment))) == out + Left(Segments(text, at))
  {
    hide Reads, Segments, Segment.Written, Left;
    ReadsUnique(text, at, segment, SegmentAt(text, at));
    ReadsWritten(text, at, segment);
    LeftCons(text, at);
    Assoc(out, segment.Left(), Left(Segments(text, at + Width(segment))));
  }


  lemma LeftCons(text: string, at: nat)
    requires at < |text| && at + Width(SegmentAt(text, at)) <= |text|
    ensures Left(Segments(text, at))
         == SegmentAt(text, at).Left() + Left(Segments(text, at + Width(SegmentAt(text, at))))
  {
    var rest := Segments(text, at + Width(SegmentAt(text, at)));
    assert Segments(text, at) == [SegmentAt(text, at)] + rest;
    assert ([SegmentAt(text, at)] + rest)[1..] == rest;
  }

  lemma Assoc(a: string, b: string, c: string)
    ensures a + b + c == a + (b + c)
  {
  }

  // ----- where a surviving marker came from --------------------------------------

  predicate Occurs(s: string, marker: string, at: nat) {
    at + |marker| <= |s| && s[at..at + |marker|] == marker
  }

  /** Character q of what the segments write lies outside every span. */
  ghost predicate Outside(segments: seq<Segment>, q: nat) {
    segments != [] &&
    var w := |segments[0].Written()|;
    if q < w then !segments[0].Span? else Outside(segments[1..], q - w)
  }

  ghost predicate OutsideFor(segments: seq<Segment>, from: nat, to: nat) {
    forall q :: from <= q < to ==> Outside(segments, q)
  }

  /** Character i of what is left is the space a span left. */
  ghost predicate FromSpan(segments: seq<Segment>, i: nat) {
    segments != [] &&
    var w := |segments[0].Left()|;
    if i < w then segments[0].Span? else FromSpan(segments[1..], i - w)
  }

  ghost predicate NoneFromSpan(segments: seq<Segment>, from: nat, to: nat) {
    forall i :: from <= i < to ==> !FromSpan(segments, i)
  }

  /** The written and left-over text agree up to n. */
  ghost predicate Agree(segments: seq<Segment>, n: nat) {
    && n <= |Written(segments)| && n <= |Left(segments)|
    && forall i :: 0 <= i < n ==> Written(segments)[i] == Left(segments)[i] && Outside(segments, i)
  }

  lemma AgreeCons(segments: seq<Segment>, n: nat)
    requires segments != [] && !segments[0].Span?
    requires n <= |segments[0].Written()| || Agree(segments[1..], n - |segments[0].Written()|)
    ensures Agree(segments, n)
  {
    var w := |segments[0].Written()|;
    forall i | 0 <= i < n ensures Written(segments)[i] == Left(segments)[i] && Outside(segments, i) {
      if w <= i {
        assert Agree(segments[1..], n - w);
        assert Written(segments)[i] == Written(segments[1..])[i - w];
        assert Left(segments)[i] == Left(segments[1..])[i - w];
      }
    }
  }

  lemma SpanLeavesSpace(segments: seq<Segment>)
    requires segments != [] && segments[0].Span?
    ensures Left(segments) != "" && Left(segments)[0] == ' ' && |segments[0].Left()| == 1
  {
  }

  lemma TailSlice(head: string, tail: string, i: nat, j: nat)
    requires i <= j <= |tail|
    ensures (head + tail)[|head| + i..|head| + j] == tail[i..j]
  {
  }

  /** A start of what is left that no span left was written like that, outside every span. */
  lemma {:induction false} KeptStart(segments: seq<Segment>, n: nat)
    requires n <= |Left(segments)| && NoneFromSpan(segments, 0, n)
    ensures Agree(segments, n)
    decreases |segments|
  {
    if n > 0 {
      var w := |segments[0].Left()|;
      if segments[0].Span? {
        SpanLeavesSpace(segments);
      }
      assert !FromSpan(segments, 0);
      if w < n {
        forall i | 0 <= i < n - w ensures !FromSpan(segments[1..], i) {
          assert !FromSpan(segments, w + i);
        }
        KeptStart(segments[1..], n - w);
      }
      AgreeCons(segments, n);
    }
  }

  /** Every span has delimiters, as every span of a split does. */
  ghost predicate Delimited(segments: seq<Segment>) {
    forall i :: 0 <= i < |segments| && segments[i].Span? ==> segments[i].run > 0
  }

  lemma {:induction false} SplitDelimited(text: string, at: nat, segments: seq<Segment>)
    requires Splits(text, at, segments)
    ensures Delimited(segments)
    decreases |segments|
  {
    if segments != [] {
      SplitDelimited(text, at + Width(segments[0]), segments[1..]);
      assert segments == [segments[0]] + segments[1..];
    }
  }

  /** A start that lies outside every span is left as it was written. */
  lemma {:induction false} OutsideStart(segments: seq<Segment>, n: nat)
    requires Delimited(segments) && n <= |Written(segments)| && OutsideFor(segments, 0, n)
    ensures Agree(segments, n)
    decreases |segments|
  {
    if n > 0 {
      var w := |segments[0].Written()|;
      assert Outside(segments, 0);
      if w < n {
        forall i | 0 <= i < n - w ensures Outside(segments[1..], i) {
          assert Outside(segments, w + i);
        }
        OutsideStart(segments[1..], n - w);
      }
      AgreeCons(segments, n);
    }
  }

  lemma AgreeOccurs(segments: seq<Segment>, n: nat, marker: string, at: nat)
    requires Agree(segments, n) && at + |marker| == n
    ensures Occurs(Left(segments), marker, at) <==> Occurs(Written(segments), marker, at)
    ensures OutsideFor(segments, at, n)
  {
    assert Left(segments)[at..n] == Written(segments)[at..n];
  }

  lemma KeptAgrees(segments: seq<Segment>, at: nat, n: nat)
    requires segments != [] && at < |segments[0].Left()| && at < n <= |Left(segments)|
    requires NoneFromSpan(segments, at, n)
    ensures Agree(segments, n) && !segments[0].Span?
  {
    var w := |segments[0].Left()|;
    assert !FromSpan(segments, at);
    if w < n {
      forall i | 0 <= i < n - w ensures !FromSpan(segments[1..], i) {
        assert !FromSpan(segments, w + i);
      }
      KeptStart(segments[1..], n - w);
    }
    AgreeCons(segments, n);
  }

  lemma LeftFromTail(segments: seq<Segment>, marker: string, at: nat)
    requires segments != [] && Occurs(Left(segments), marker, |segments[0].Left()| + at)
    ensures Occurs(Left(segments[1..]), marker, at)
  {
    TailSlice(segments[0].Left(), Left(segments[1..]), at, at + |marker|);
  }

  /** Where in the text a position of what is left stood. */
  function WrittenAt(segments: seq<Segment>, at: nat): nat
    decreases |segments|
  {
    if segments == [] || at < |segments[0].Left()| then at
    else |segments[0].Written()| + WrittenAt(segments[1..], at - |segments[0].Left()|)
  }

  /** A marker none of whose characters a span left stood in the text, contiguous and
      outside every span. */
  lemma {:induction false} CameFrom(segments: seq<Segment>, marker: string, at: nat)
    requires marker != "" && Occurs(Left(segments), marker, at) && NoneFromSpan(segments, at, at + |marker|)
    ensures var q := WrittenAt(segments, at);
      Occurs(Written(segments), marker, q) && OutsideFor(segments, q, q + |marker|)
    decreases |segments|
  {
    var w := |segments[0].Left()|;
    if w <= at {
      LeftFromTail(segments, marker, at - w);
      forall i | at - w <= i < at - w + |marker| ensures !FromSpan(segments[1..], i) {
        assert !FromSpan(segments, w + i);
      }
      CameFrom(segments[1..], marker, at - w);
      var q := OccursLater(segments, marker, WrittenAt(segments[1..], at - w));
    } else {
      KeptAgrees(segments, at, at + |marker|);
      AgreeOccurs(segments, at + |marker|, marker, at);
    }
  }

  lemma {:induction false} SpanLeftSpace(segments: seq<Segment>, i: nat)
    requires FromSpan(segments, i)
    ensures i < |Left(segments)| && Left(segments)[i] == ' '
    decreases |segments|
  {
    var w := |segments[0].Left()|;
    if i >= w {
      SpanLeftSpace(segments[1..], i - w);
    }
  }

  /** A marker without a space has no character a span left. */
  lemma SpaceFreeIsKept(segments: seq<Segment>, marker: string, at: nat)
    requires ' ' !in marker && Occurs(Left(segments), marker, at)
    ensures NoneFromSpan(segments, at, at + |marker|)
  {
    forall i | at <= i < at + |marker| ensures !FromSpan(segments, i) {
      if FromSpan(segments, i) {
        SpanLeftSpace(segments, i);
        OccursAt(Left(segments), marker, at, i - at);
      }
    }
  }

  /** A space-free marker found in the stripped text stood in the text, contiguous
      and outside every span. */
  lemma MarkerCameFrom(segments: seq<Segment>, marker: string, at: nat) returns (q: nat)
    requires marker != "" && ' ' !in marker && Occurs(Left(segments), marker, at)
    ensures Occurs(Written(segments), marker, q) && OutsideFor(segments, q, q + |marker|)
  {
    SpaceFreeIsKept(segments, marker, at);
    CameFrom(segments, marker, at);
    q := WrittenAt(segments, at);
  }

  lemma OccursLater(segments: seq<Segment>, marker: string, q: nat) returns (r: nat)
    requires segments != []
    requires Occurs(Written(segments[1..]), marker, q) && OutsideFor(segments[1..], q, q + |marker|)
    ensures r == |segments[0].Written()| + q
    ensures Occurs(Written(segments), marker, r) && OutsideFor(segments, r, r + |marker|)
  {
    r := |segments[0].Written()| + q;
    WrittenInTail(segments, marker, q);
    hide Occurs, Written, Segment.Written;
    forall i | r <= i < r + |marker| ensures Outside(segments, i) {
      assert Outside(segments[1..], i - |segments[0].Written()|);
    }
  }

  lemma WrittenInTail(segments: seq<Segment>, marker: string, at: nat)
    requires segments != [] && Occurs(Written(segments[1..]), marker, at)
    ensures Occurs(Written(segments), marker, |segments[0].Written()| + at)
  {
    TailSlice(segments[0].Written(), Written(segments[1..]), at, at + |marker|);
  }

  lemma OutsideLater(segments: seq<Segment>, from: nat, to: nat)
    requires segments != [] && OutsideFor(segments, |segments[0].Written()| + from, |segments[0].Written()| + to)
    ensures OutsideFor(segments[1..], from, to)
  {
    var w := |segments[0].Written()|;
    forall i | from <= i < to ensures Outside(segments[1..], i) {
      assert Outside(segments, w + i);
    }
  }

  lemma OccursInTail(segments: seq<Segment>, marker: string, q: nat)
    requires segments != [] && Occurs(Written(segments), marker, |segments[0].Written()| + q)
    ensures Occurs(Written(segments[1..]), marker, q)
  {
    TailSlice(segments[0].Written(), Written(segments[1..]), q, q + |marker|);
  }

  lemma LeftInTail(segments: seq<Segment>, marker: string, at: nat)
    requires segments != [] && Occurs(Left(segments[1..]), marker, at)
    ensures Occurs(Left(segments), marker, |segments[0].Left()| + at)
  {
    TailSlice(segments[0].Left(), Left(segments[1..]), at, at + |marker|);
  }

  lemma OutsideAgrees(segments: seq<Segment>, q: nat, n: nat)
    requires Delimited(segments) && segments != [] && q < |segments[0].Written()| && q < n <= |Written(segments)|
    requires OutsideFor(segments, q, n)
    ensures Agree(segments, n)
  {
    var w := |segments[0].Written()|;
    assert Outside(segments, q);
    if w < n {
      OutsideLater(segments, 0, n - w);
      OutsideStart(segments[1..], n - w);
    }
    AgreeCons(segments, n);
  }

  /** A marker standing outside every span, spaces or not, survives stripping. */
  lemma {:induction false} MarkerSurvives(segments: seq<Segment>, marker: string, q: nat) returns (at: nat)
    requires Delimited(segments) && marker != ""
    requires Occurs(Written(segments), marker, q) && OutsideFor(segments, q, q + |marker|)
    ensures Occurs(Left(segments), marker, at) && WrittenAt(segments, at) == q
    decreases |segments|
  {
    var n, w := q + |marker|, |segments[0].Written()|;
    if w <= q {
      OccursInTail(segments, marker, q - w);
      OutsideLater(segments, q - w, n - w);
      var later := MarkerSurvives(segments[1..], marker, q - w);
      LeftInTail(segments, marker, later);
      at := |segments[0].Left()| + later;
    } else {
      assert Outside(segments, q);
      OutsideAgrees(segments, q, n);
      AgreeOccurs(segments, n, marker, q);
      at := q;
    }
  }

  // ----- the backslashes before a survivor -----------------------------------------

  lemma {:induction false} SlashesBefore(head: string, tail: string, k: nat)
    requires k <= |tail|
    ensures Backslashes(head + tail, |head| + k)
         == if Backslashes(tail, k) < k then Backslashes(tail, k) else k + Backslashes(head + tail, |head|)
    decreases k
  {
    if k > 0 && tail[k - 1] == '\\' {
      SlashesBefore(head, tail, k - 1);
      assert (head + tail)[|head| + k - 1] == tail[k - 1];
    } else if k > 0 {
      assert (head + tail)[|head| + k - 1] == tail[k - 1];
    }
  }

  lemma {:induction false} SlashesOfPrefix(a: string, b: string, at: nat)
    requires at <= |a| && at <= |b| && a[..at] == b[..at]
    ensures Backslashes(a, at) == Backslashes(b, at)
    decreases at
  {
    if at > 0 {
      assert a[at - 1] == a[..at][at - 1] == b[..at][at - 1] == b[at - 1];
      assert a[..at - 1] == a[..at][..at - 1] == b[..at][..at - 1] == b[..at - 1];
      SlashesOfPrefix(a, b, at - 1);
    }
  }

  /** As many backslashes stand before a position in what is left as stood before it in
      the text: a span ends the row on both sides. */
  lemma {:induction false} SameSlashes(segments: seq<Segment>, at: nat)
    requires Delimited(segments) && at <= |Left(segments)|
    ensures WrittenAt(segments, at) <= |Written(segments)|
    ensures SlashesAgree(Left(segments), at, Written(segments), WrittenAt(segments, at))
    decreases |segments|
  {
    if segments != [] {
      if at < |segments[0].Left()| {
        SlashesHere(segments, at);
      } else {
        var k := at - |segments[0].Left()|;
        TailDelimited(segments);
        LeftParts(segments);
        hide Left, Written, Backslashes, Delimited, Segment.Left, Segment.Written;
        SameSlashes(segments[1..], k);
        SlashesLater(segments, k, WrittenAt(segments[1..], k));
      }
    }
  }

  ghost predicate SlashesAgree(a: string, at: nat, b: string, q: nat)
    requires at <= |a| && q <= |b|
  {
    Backslashes(a, at) == Backslashes(b, q) && (Backslashes(a, at) == at <==> Backslashes(b, q) == q)
  }

  lemma SlashesLater(segments: seq<Segment>, k: nat, q: nat)
    requires segments != [] && Delimited(segments) && k <= |Left(segments[1..])| && q <= |Written(segments[1..])|
    requires SlashesAgree(Left(segments[1..]), k, Written(segments[1..]), q)
    ensures |segments[0].Left()| + k <= |Left(segments)| && |segments[0].Written()| + q <= |Written(segments)|
    ensures SlashesAgree(Left(segments), |segments[0].Left()| + k, Written(segments), |segments[0].Written()| + q)
  {
    LeftParts(segments);
    HeadSlashes(segments);
    hide Left, Written, SlashesAgree, Delimited, Segment.Left, Segment.Written;
    SlashesJoin(segments[0].Left(), Left(segments[1..]), k, segments[0].Written(), Written(segments[1..]), q);
  }

  lemma SlashesJoin(a: string, c: string, k: nat, b: string, d: string, q: nat)
    requires k <= |c| && q <= |d| && SlashesAgree(c, k, d, q) && SlashesAgree(a + c, |a|, b + d, |b|)
    ensures SlashesAgree(a + c, |a| + k, b + d, |b| + q)
  {
    hide Backslashes;
    SlashesBefore(a, c, k);
    SlashesBefore(b, d, q);
  }

  lemma TailDelimited(segments: seq<Segment>)
    requires Delimited(segments) && segments != []
    ensures Delimited(segments[1..])
  {
  }

  lemma LeftParts(segments: seq<Segment>)
    requires segments != []
    ensures Left(segments) == segments[0].Left() + Left(segments[1..])
    ensures Written(segments) == segments[0].Written() + Written(segments[1..])
  {
  }

  lemma SlashesHere(segments: seq<Segment>, at: nat)
    requires segments != [] && at < |segments[0].Left()|
    ensures at <= |Written(segments)| && Backslashes(Left(segments), at) == Backslashes(Written(segments), at)
  {
    if segments[0].Span? {
      SpanLeavesSpace(segments);
    } else {
      assert Left(segments)[..at] == segments[0].Left()[..at] == Written(segments)[..at];
      SlashesOfPrefix(Left(segments), Written(segments), at);
    }
  }

  lemma HeadSlashes(segments: seq<Segment>)
    requires segments != [] && Delimited(segments)
    ensures |segments[0].Left()| <= |Left(segments)| && |segments[0].Written()| <= |Written(segments)|
    ensures SlashesAgree(Left(segments), |segments[0].Left()|, Written(segments), |segments[0].Written()|)
  {
    var l, w := |segments[0].Left()|, |segments[0].Written()|;
    if segments[0].Span? {
      SpanLeavesSpace(segments);
      var written := segments[0].Written();
      assert segments[0].run > 0 && written[w - 1] == '`';
      assert Written(segments)[w - 1] == written[w - 1];
    } else {
      assert Left(segments)[..l] == segments[0].Left() == Written(segments)[..w];
      SlashesOfPrefix(Left(segments), Written(segments), l);
    }
  }

  // ----- what is found, and where ---------------------------------------------------

  ghost predicate FoundIn(s: string, marker: string) {
    exists at: nat :: Occurs(s, marker, at)
  }

  /** The marker stands in the text, contiguous and outside every code span. */
  ghost predicate FoundOutsideSpans(text: string, marker: string) {
    exists q: nat :: Occurs(text, marker, q) && OutsideFor(Segments(text, 0), q, q + |marker|)
  }

  /** For a marker without spaces, looking in the stripped text is looking in the
      text outside its code spans. */
  lemma StripFindsExactly(text: string, marker: string)
    requires marker != "" && ' ' !in marker
    ensures FoundIn(Strip(text), marker) <==> FoundOutsideSpans(text, marker)
  {
    hide Occurs, Left, Written, OutsideFor, Splits;
    var segments := Segments(text, 0);
    SplitWritten(text, 0, segments);
    SplitDelimited(text, 0, segments);
    assert text[0..|text|] == text;
    if FoundIn(Strip(text), marker) {
      var at: nat :| Occurs(Strip(text), marker, at);
      var q := MarkerCameFrom(segments, marker, at);
    }
    if FoundOutsideSpans(text, marker) {
      var q: nat :| Occurs(text, marker, q) && OutsideFor(segments, q, q + |marker|);
      var at := MarkerSurvives(segments, marker, q);
    }
  }

  // ----- what a few shapes of text strip to ----------------------------------------

  /** Text without a backtick is left alone. */
  lemma {:induction false} TickFreeStretch(text: string, at: nat, to: nat)
    requires at <= to <= |text| && forall i :: at <= i < to ==> text[i] != '`'
    ensures Left(Segments(text, at)) == text[at..to] + Left(Segments(text, to))
    decreases |text| - at
  {
    if at < to {
      TickFreeStretch(text, at + 1, to);
      LeftCons(text, at);
      ConsSlice(text, at, to, Left(Segments(text, to)));
    } else {
      EmptySlice(text, at, Left(Segments(text, at)));
    }
  }

  lemma ConsSlice(text: string, at: nat, to: nat, rest: string)
    requires at < to <= |text|
    ensures [text[at]] + (text[at + 1..to] + rest) == text[at..to] + rest
  {
    assert text[at..to] == [text[at]] + text[at + 1..to];
  }

  lemma EmptySlice(text: string, at: nat, rest: string)
    requires at <= |text|
    ensures text[at..at] + rest == rest
  {
  }

  lemma TickFreeUnchanged(text: string)
    requires '`' !in text
    ensures Strip(text) == text
  {
    TickFreeStretch(text, 0, |text|);
    assert text[0..|text|] == text;
  }

  /** A span at position at leaves one space. */
  lemma SpanStretch(text: string, at: nat, run: nat, close: nat)
    requires Run(text, at, run) && !Escaped(text, at) && FirstClose(text, at + run, run, close + run)
    ensures close + run <= |text| && Left(Segments(text, at)) == " " + Left(Segments(text, close + run))
  {
    hide Closes, FirstClose, Unclosed, Escaped, AllTicks, Segments, Left, SegmentAt;
    FirstCloseRun(text, at + run, run, close + run);
    var span := Span(run, text[at + run..close]);
    ReadsUnique(text, at, span, SegmentAt(text, at));
    assert Width(span) == close + run - at;
    LeftCons(text, at);
  }

  // ----- markers with spaces ------------------------------------------------------

  /** Code written over the space of a marker strips to the marker. */
  lemma SpaceForgesMarker(pre: string, post: string) returns (text: string)
    requires '`' !in pre && '`' !in post && '\\' !in pre
    ensures Strip(text) == pre + " " + post && !FoundIn(text, pre + " " + post)
  {
    text := pre + "`x`" + post;
    var k := |pre|;
    ForgedShape(text, pre, post);
    ForgedAbsent(text, pre, post);
    hide FirstClose, Run, Escaped, Left, Segments, FoundIn, Strip;
    TickFreeStretch(text, 0, k);
    SpanStretch(text, k, 1, k + 2);
    TickFreeStretch(text, k + 3, |text|);
    StripFrom(text, post);
    StripFrom(text, "");
    Assoc(pre, " ", post);
  }

  lemma ForgedShape(text: string, pre: string, post: string)
    requires text == pre + "`x`" + post && '`' !in pre && '`' !in post && '\\' !in pre
    ensures var k := |pre|;
      && k + 3 <= |text| && text[0..k] == pre && text[k + 3..|text|] == post
      && Run(text, k, 1) && !Escaped(text, k) && FirstClose(text, k + 1, 1, k + 3)
    ensures forall i :: 0 <= i < |pre| || |pre| + 3 <= i < |text| ==> text[i] != '`'
  {
    var k := |pre|;
    assert text[k] == '`' && text[k + 1] == 'x' && text[k + 2] == '`';
    assert forall i :: 0 <= i < k ==> text[i] == pre[i] && pre[i] in pre;
    assert forall i :: k + 3 <= i < |text| ==> text[i] == post[i - k - 3] && post[i - k - 3] in post;
    assert Closes(text, k + 1, 1, k + 3);
  }

  lemma OccursAt(s: string, marker: string, at: nat, i: nat)
    requires Occurs(s, marker, at) && i < |marker|
    ensures s[at + i] == marker[i] && marker[i] in marker
  {
    assert s[at..at + |marker|][i] == s[at + i];
  }

  lemma ForgedAbsent(text: string, pre: string, post: string)
    requires text == pre + "`x`" + post && '`' !in pre && '`' !in post
    ensures !FoundIn(text, pre + " " + post)
  {
    var marker, k := pre + " " + post, |pre|;
    assert '`' !in marker;
    assert text[k] == '`' && text[k + 1] == 'x' && text[k + 2] == '`';
    forall at: nat ensures !Occurs(text, marker, at) {
      if Occurs(text, marker, at) {
        var i := if at <= k then k - at else if k + 2 - at < |marker| then k + 2 - at else 0;
        OccursAt(text, marker, at, i);
      }
    }
  }

  /** Searching the stripped text is searching the text outside its spans, on every
      text, exactly for the markers that hold no space. */
  lemma ProvenanceExactly(marker: string)
    requires marker != "" && '`' !in marker && '\\' !in marker
    ensures ' ' !in marker <==> forall text :: FoundIn(Strip(text), marker) ==> FoundOutsideSpans(text, marker)
  {
    hide Strip, FoundOutsideSpans, FoundIn;
    if ' ' !in marker {
      forall text ensures FoundIn(Strip(text), marker) ==> FoundOutsideSpans(text, marker) {
        StripFindsExactly(text, marker);
      }
    } else {
      var i :| 0 <= i < |marker| && marker[i] == ' ';
      var pre, post := marker[..i], marker[i + 1..];
      assert pre + " " + post == marker;
      var text := SpaceForgesMarker(pre, post);
      OutsideIsInside(text, marker);
      WholeOccurs(Strip(text));
    }
  }

  lemma OutsideIsInside(text: string, marker: string)
    ensures FoundOutsideSpans(text, marker) ==> FoundIn(text, marker)
  {
  }

  lemma WholeOccurs(s: string)
    ensures FoundIn(s, s)
  {
    assert Occurs(s, s, 0);
  }
}
