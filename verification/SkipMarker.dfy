/** SkipsReview of internal/crq/skipmarker.go: does a pull request body use the marker
    that opts it out of review, rather than mention it in code. */
module SkipMarker {
  import opened Text
  import opened CodeSpans
  import opened MarkdownBlocks

  /** markdownPunctuation: the ASCII punctuation a backslash escapes. */
  predicate Punctuation(c: char) {
    '!' <= c <= '/' || ':' <= c <= '@' || '[' <= c <= '`' || '{' <= c <= '~'
  }

  predicate AsciiPunctuation(c: char) { c in "!\"#$%&'()*+,-./:;<=>?@[\\]^_`{|}~" }

  lemma PunctuationExactly(c: char)
    ensures Punctuation(c) <==> AsciiPunctuation(c)
  {
    assert Punctuation(c) ==> 33 <= c as int <= 126;
  }

  /** A backslash escapes what begins at this position. */
  predicate EscapedAt(body: string, marker: string, at: nat)
    requires marker != "" && at <= |body|
  {
    Punctuation(marker[0]) && Backslashes(body, at) % 2 == 1
  }

  lemma EscapedExactly(body: string, marker: string)
    requires marker != ""
    ensures forall at: nat :: at <= |body| ==>
      (EscapedAt(body, marker, at) <==> AsciiPunctuation(marker[0]) && OddSlashes(body, at))
  {
    hide OddSlashes, Punctuation, AsciiPunctuation;
    PunctuationExactly(marker[0]);
    forall at: nat | at <= |body|
      ensures EscapedAt(body, marker, at) <==> AsciiPunctuation(marker[0]) && OddSlashes(body, at)
    {
      OddExactly(body, at);
    }
  }

  /** The marker occurs, overlaps included, where nothing escapes it. */
  ghost predicate MarkerIn(body: string, marker: string)
    requires marker != ""
  {
    exists at: nat :: Occurs(body, marker, at) && !EscapedAt(body, marker, at)
  }

  /** strings.Index from a position on. */
  method IndexFrom(body: string, from: nat, marker: string) returns (at: Option<nat>)
    requires from <= |body|
    ensures at.Some? ==> from <= at.value && Occurs(body, marker, at.value)
    ensures forall k: nat :: from <= k && (at.Some? ==> k < at.value) ==> !Occurs(body, marker, k)
  {
    var i := from;
    while i + |marker| <= |body|
      invariant from <= i && forall k: nat :: from <= k < i ==> !Occurs(body, marker, k)
      decreases |body| - i
    {
      if body[i..i + |marker|] == marker {
        return Some(i);
      }
      i := i + 1;
    }
    return None;
  }

  /** containsUnescapedMarker. */
  method ContainsUnescapedMarker(body: string, marker: string) returns (found: bool)
    requires marker != ""
    ensures found <==> MarkerIn(body, marker)
    ensures found <==>
      exists at: nat :: Occurs(body, marker, at) && !(AsciiPunctuation(marker[0]) && OddSlashes(body, at))
  {
    EscapedExactly(body, marker);
    hide OddSlashes;
    var from := 0;
    while true
      invariant 0 <= from <= |body|
      invariant forall k: nat :: k < from && Occurs(body, marker, k) ==> EscapedAt(body, marker, k)
      decreases |body| - from
    {
      var at := IndexFrom(body, from, marker);
      if at.None? {
        return false;
      }
      if !Punctuation(marker[0]) {
        return true;
      }
      var slashes, i := 0, at.value;
      while i > 0 && body[i - 1] == '\\'
        invariant 0 <= i <= at.value && slashes >= 0 && slashes + Backslashes(body, i) == Backslashes(body, at.value)
      {
        slashes := slashes + 1;
        i := i - 1;
      }
      if slashes % 2 == 0 {
        return true;
      }
      from := at.value + 1;
    }
  }

  // ---- The three passes

  function Unfenced(body: string): string { Flatten(Cleared(Lines(body), Fenced(Lines(body)))) }

  function Unindented(body: string): string { Flatten(Cleared(Lines(body), Indented(Lines(body)))) }

  function Prose(body: string): string { Strip(Unindented(Unfenced(body))) }

  /** stripCode. */
  method StripCode(body: string) returns (out: string)
    ensures out == Prose(body)
  {
    hide Flatten, Cleared, Lines, Strip;
    out := StripFencedCode(body);
    out := StripIndentedCode(out);
    out := StripCodeSpans(out);
  }

  /** SkipsReview. */
  method SkipsReview(body: string, marker: string) returns (skips: bool)
    ensures skips <==> marker != "" && MarkerIn(Prose(body), marker)
  {
    hide Prose, MarkerIn;
    if marker == "" {
      return false;
    }
    var stripped := StripCode(body);
    skips := ContainsUnescapedMarker(stripped, marker);
  }

  // ---- The plain reading of plain prose

  /** No backtick, no tilde, and no line with text indented four or more columns inside
      its block quotes. */
  ghost predicate Plain(body: string) {
    && '`' !in body && '~' !in body
    && forall i :: 0 <= i < |Lines(body)| ==> PlainLine(Lines(body)[i])
  }

  predicate PlainLine(line: string) {
    var content := Unquoted(line, 0).content;
    HasNoText(content) || Columns(content) <= 3
  }

  lemma {:induction false} QuotedInside(line: string, depth: nat, c: char)
    requires c in Unquoted(line, depth).content
    ensures c in line
    decreases |line|
  {
    if QuoteMark(line) {
      QuotedInside(AfterMark(line), depth + 1, c);
    }
  }

  lemma {:induction false} DedentInside(line: string, at: nat, seen: nat, columns: nat, c: char)
    requires at <= |line| && c in DedentFrom(line, at, seen, columns)
    ensures c in line
    decreases |line| - at
  {
    if at < |line| && seen < columns {
      if line[at] == ' ' {
        DedentInside(line, at + 1, seen + 1, columns, c);
      } else if line[at] == '\t' {
        DedentInside(line, at + 1, seen + 4 - seen % 4, columns, c);
      }
    }
  }

  lemma {:induction false} LinesInside(text: string, i: nat, c: char)
    requires i < |Lines(text)| && c in Lines(text)[i]
    ensures c in text
    decreases |text|
  {
    var n := LineLength(text);
    if i > 0 {
      LinesInside(text[n..], i - 1, c);
    }
  }

  /** Without a backtick or tilde no line has a fence delimiter. */
  lemma NoDelimiter(line: string, indents: seq<nat>)
    requires '`' !in line && '~' !in line
    ensures DelimiterIn(Unquoted(line, 0), indents).None?
  {
    hide FenceOf, Unquoted, DedentFrom;
    var q := Unquoted(line, 0);
    var d := DelimiterIn(q, indents);
    if d.Some? {
      DedentInside(q.content, 0, 0, Innermost(indents), d.value.mark);
      QuotedInside(line, 0, d.value.mark);
    }
  }

  lemma {:induction false} NeverFenced(lines: seq<string>, i: nat)
    requires i <= |lines| && forall j :: 0 <= j < |lines| ==> '`' !in lines[j] && '~' !in lines[j]
    ensures FenceAt(lines, i).fence.NoFence? && (i < |lines| ==> !FencedLine(lines, i))
  {
    hide Unquoted, Tracked, DelimiterIn;
    if i > 0 {
      NeverFenced(lines, i - 1);
      Untouched(lines, i - 1);
    }
    if i < |lines| {
      Untouched(lines, i);
    }
  }

  lemma Untouched(lines: seq<string>, i: nat)
    requires i < |lines| && '`' !in lines[i] && '~' !in lines[i] && FenceAt(lines, i).fence.NoFence?
    ensures FenceAt(lines, i + 1).fence.NoFence? && !FencedLine(lines, i)
  {
    hide Unquoted, Tracked, DelimiterIn, FenceAt;
    var s := FenceAt(lines, i);
    NoDelimiter(lines[i], Tracked(Unquoted(lines[i], 0).content, s.indents));
    NextFence(lines, i);
  }

  lemma NextFence(lines: seq<string>, i: nat)
    requires i < |lines|
    ensures FenceAt(lines, i + 1) == FenceStep(FenceAt(lines, i), lines[i]).next
  {
    hide FenceStep;
  }

  /** A line with text indented fewer than four columns is not indented code. */
  lemma NeverIndented(lines: seq<string>, i: nat)
    requires i < |lines| && PlainLine(lines[i])
    ensures !IndentedLine(lines, i)
  {
    hide Unquoted, IndentAt, Deepened, EffectiveDepth, ListContent, Continues, IndentFrom, Unwound, Trim;
  }

  lemma NothingCleared(body: string, gone: seq<bool>)
    requires |gone| == |Lines(body)| && forall i :: 0 <= i < |gone| ==> !gone[i]
    ensures Flatten(Cleared(Lines(body), gone)) == body
  {
    hide Lines, Flatten;
    LinesShaped(body);
    assert Cleared(Lines(body), gone) == Lines(body);
  }

  /** On plain prose every pass is the identity. */
  lemma PlainUntouched(body: string)
    requires Plain(body)
    ensures Unfenced(body) == body && Unindented(body) == body && Strip(body) == body && Prose(body) == body
  {
    hide Lines, Flatten, Cleared, FencedLine, IndentedLine, Strip, PlainLine;
    var lines := Lines(body);
    forall j | 0 <= j < |lines| ensures '`' !in lines[j] && '~' !in lines[j] {
      if '`' in lines[j] { LinesInside(body, j, '`'); }
      if '~' in lines[j] { LinesInside(body, j, '~'); }
    }
    forall i | 0 <= i < |lines| ensures !FencedLine(lines, i) && !IndentedLine(lines, i) {
      NeverFenced(lines, i);
      NeverIndented(lines, i);
    }
    NothingCleared(body, Fenced(lines));
    NothingCleared(body, Indented(lines));
    TickFreeUnchanged(body);
  }

  /** So a plain body skips review exactly when the marker stands in it unescaped. */
  lemma PlainReading(body: string, marker: string)
    requires Plain(body) && marker != ""
    ensures MarkerIn(Prose(body), marker) <==> MarkerIn(body, marker)
  {
    hide Prose, MarkerIn, Plain;
    PlainUntouched(body);
  }

  // ---- What the block passes leave

  /** The marker stands in a line that was not taken out. */
  ghost predicate InKeptLine(lines: seq<string>, gone: seq<bool>, marker: string)
    requires |gone| == |lines|
  {
    exists i :: 0 <= i < |lines| && !gone[i] && FoundIn(lines[i], marker)
  }

  /** Taking out lines neither hides nor forges a marker that fits on a line: it is
      found in what is left exactly when a kept line holds it. */
  lemma BlocksFindExactly(lines: seq<string>, gone: seq<bool>, marker: string)
    requires Shaped(lines) && |gone| == |lines| && marker != "" && '\n' !in marker
    ensures FoundIn(Flatten(Cleared(lines, gone)), marker) <==> InKeptLine(lines, gone, marker)
  {
    hide LineShape, FoundIn, Flatten;
    var pieces := Cleared(lines, gone);
    PiecesShaped(lines, gone);
    InOnePiece(pieces, marker);
    forall i | 0 <= i < |pieces| && gone[i] ensures !FoundIn(pieces[i], marker) {
      BlankHoldsNothing(lines[i], marker);
    }
    if InOne(pieces, marker) {
      var i :| 0 <= i < |pieces| && FoundIn(pieces[i], marker);
      assert !gone[i];
    }
    if InKeptLine(lines, gone, marker) {
      var i :| 0 <= i < |lines| && !gone[i] && FoundIn(lines[i], marker);
      assert pieces[i] == lines[i];
    }
  }

  lemma PiecesShaped(lines: seq<string>, gone: seq<bool>)
    requires Shaped(lines) && |gone| == |lines|
    ensures Shaped(Cleared(lines, gone))
  {
    var pieces := Cleared(lines, gone);
    forall i | 0 <= i < |pieces| ensures LineShape(pieces[i], i == |pieces| - 1) {
      assert LineShape(lines[i], i == |lines| - 1);
    }
  }

  lemma BlankHoldsNothing(line: string, marker: string)
    requires marker != "" && '\n' !in marker
    ensures !FoundIn(Blank(line), marker)
  {
    var blank := Blank(line);
    if at: nat :| Occurs(blank, marker, at) {
      OccursAt(blank, marker, at, 0);
    }
  }

  ghost predicate InOne(pieces: seq<string>, marker: string) {
    exists i :: 0 <= i < |pieces| && FoundIn(pieces[i], marker)
  }

  lemma {:induction false} InOnePiece(pieces: seq<string>, marker: string)
    requires Shaped(pieces) && marker != "" && '\n' !in marker
    ensures FoundIn(Flatten(pieces), marker) <==> InOne(pieces, marker)
  {
    hide FoundIn, LineShape;
    var line, rest := pieces[0], pieces[1..];
    assert LineShape(pieces[0], 0 == |pieces| - 1);
    assert pieces == [line] + rest;
    FlattenCons(line, rest);
    if rest == [] {
      assert line + "" == line;
    } else {
      TailShaped(pieces);
      InOnePiece(rest, marker);
      InEither(line, Flatten(rest), marker);
      InTail(line, rest, marker);
    }
  }

  lemma TailShaped(pieces: seq<string>)
    requires Shaped(pieces) && |pieces| > 1
    ensures Shaped(pieces[1..])
  {
    hide LineShape;
    var rest := pieces[1..];
    forall i | 0 <= i < |rest| ensures LineShape(rest[i], i == |rest| - 1) {
      assert rest[i] == pieces[i + 1];
    }
  }

  lemma InTail(line: string, rest: seq<string>, marker: string)
    ensures InOne([line] + rest, marker) <==> FoundIn(line, marker) || InOne(rest, marker)
  {
    hide FoundIn;
    var pieces := [line] + rest;
    if InOne(rest, marker) {
      var i :| 0 <= i < |rest| && FoundIn(rest[i], marker);
      assert pieces[i + 1] == rest[i];
    }
    assert pieces[0] == line;
    if InOne(pieces, marker) && !FoundIn(line, marker) {
      var i :| 0 <= i < |pieces| && FoundIn(pieces[i], marker);
      assert rest[i - 1] == pieces[i];
    }
  }

  /** A marker without a newline does not straddle a line's end. */
  lemma InEither(line: string, rest: string, marker: string)
    requires LineShape(line, false) && marker != "" && '\n' !in marker
    ensures FoundIn(line + rest, marker) <==> FoundIn(line, marker) || FoundIn(rest, marker)
  {
    var text := line + rest;
    if at: nat :| Occurs(text, marker, at) {
      OccursOnOneSide(line, rest, marker, at);
    }
    if at: nat :| Occurs(line, marker, at) {
      assert text[at..at + |marker|] == line[at..at + |marker|];
      assert Occurs(text, marker, at);
    }
    if at: nat :| Occurs(rest, marker, at) {
      assert text[|line| + at..|line| + at + |marker|] == rest[at..at + |marker|];
      assert Occurs(text, marker, |line| + at);
    }
  }

  lemma OccursOnOneSide(line: string, rest: string, marker: string, at: nat)
    requires LineShape(line, false) && marker != "" && '\n' !in marker && Occurs(line + rest, marker, at)
    ensures FoundIn(line, marker) || FoundIn(rest, marker)
  {
    var text := line + rest;
    if at + |marker| <= |line| {
      assert line[at..at + |marker|] == text[at..at + |marker|];
      assert Occurs(line, marker, at);
    } else {
      var end := |line| - 1;
      if at <= end {
        OccursAt(text, marker, at, end - at);
      }
      assert at >= |line|;
      assert rest[at - |line|..at - |line| + |marker|] == text[at..at + |marker|];
      assert Occurs(rest, marker, at - |line|);
    }
  }

  /** What the two block passes leave of a body: a marker that fits on a line survives
      the first exactly in a line outside every fence, and the second exactly in a line
      that is not indented code. */
  lemma BlockPassesFindExactly(body: string, marker: string)
    requires marker != "" && '\n' !in marker
    ensures FoundIn(Unfenced(body), marker) <==> InKeptLine(Lines(body), Fenced(Lines(body)), marker)
    ensures FoundIn(Unindented(body), marker) <==> InKeptLine(Lines(body), Indented(Lines(body)), marker)
    ensures |Lines(Unfenced(body))| == |Lines(body)| == |Lines(Unindented(body))|
  {
    hide Lines, Flatten, Cleared, FencedLine, IndentedLine, FoundIn, InKeptLine;
    var lines := Lines(body);
    LinesShaped(body);
    BlocksFindExactly(lines, Fenced(lines), marker);
    BlocksFindExactly(lines, Indented(lines), marker);
    ClearedLines(lines, Fenced(lines));
    ClearedLines(lines, Indented(lines));
  }

  // ---- The three passes together

  /** A marker without a newline that occurs in the lines put together occurs in one. */
  lemma {:induction false} Located(pieces: seq<string>, marker: string, q: nat) returns (i: nat, at: nat)
    requires Shaped(pieces) && marker != "" && '\n' !in marker && Occurs(Flatten(pieces), marker, q)
    ensures i < |pieces| && Occurs(pieces[i], marker, at) && q == |Flatten(pieces[..i])| + at
    decreases |pieces|
  {
    hide LineShape, Flatten;
    var line, rest := pieces[0], pieces[1..];
    assert LineShape(pieces[0], 0 == |pieces| - 1);
    assert pieces == [line] + rest;
    FlattenCons(line, rest);
    FlattenNone(pieces);
    if rest == [] {
      FlattenNone(rest);
      assert rest[..0] == rest && line + "" == line;
      i, at := 0, q;
    } else if q + |marker| <= |line| {
      i, at := 0, q;
      assert line[q..q + |marker|] == (line + Flatten(rest))[q..q + |marker|];
    } else {
      PastTheLine(line, Flatten(rest), marker, q);
      TailShaped(pieces);
      i, at := Located(rest, marker, q - |line|);
      assert pieces[..i + 1] == [line] + rest[..i];
      FlattenCons(line, rest[..i]);
      i := i + 1;
    }
  }

  lemma PastTheLine(line: string, rest: string, marker: string, q: nat)
    requires LineShape(line, false) && marker != "" && '\n' !in marker && Occurs(line + rest, marker, q)
    requires q + |marker| > |line|
    ensures q >= |line| && Occurs(rest, marker, q - |line|)
  {
    var text, end := line + rest, |line| - 1;
    if q <= end {
      OccursAt(text, marker, q, end - q);
    }
    assert rest[q - |line|..q - |line| + |marker|] == text[q..q + |marker|];
  }

  lemma Placed(pieces: seq<string>, marker: string, i: nat, at: nat)
    requires i < |pieces| && Occurs(pieces[i], marker, at)
    ensures Occurs(Flatten(pieces), marker, |Flatten(pieces[..i])| + at)
  {
    hide Flatten;
    var before, line, after := Flatten(pieces[..i]), pieces[i], Flatten(pieces[i + 1..]);
    assert pieces == pieces[..i] + ([line] + pieces[i + 1..]);
    FlattenAppend(pieces[..i], [line] + pieces[i + 1..]);
    FlattenCons(line, pieces[i + 1..]);
    var text := before + (line + after);
    assert text[|before| + at..|before| + at + |marker|] == line[at..at + |marker|];
  }

  /** The lines of a body that both block passes keep. */
  predicate KeptLine(body: string, i: nat) {
    && i < |Lines(body)| && !FencedLine(Lines(body), i)
    && i < |Lines(Unfenced(body))| && !IndentedLine(Lines(Unfenced(body)), i)
  }

  /** The text before line i once the block passes are through. */
  function LeftBefore(body: string, i: nat): string {
    var lines := Lines(Unfenced(body));
    if i <= |lines| then Flatten(Cleared(lines, Indented(lines))[..i]) else ""
  }

  /** The marker stands in a line both block passes keep, outside the code spans of what
      they leave, and nothing escapes it. */
  ghost predicate StandsInProse(body: string, marker: string, i: nat, at: nat)
    requires marker != ""
  {
    && KeptLine(body, i) && Occurs(Lines(body)[i], marker, at) && !EscapedAt(Lines(body)[i], marker, at)
    && var from := |LeftBefore(body, i)| + at;
       OutsideFor(Segments(Unindented(Unfenced(body)), 0), from, from + |marker|)
  }

  /** The marker stands in a text outside its code spans, and nothing escapes it. */
  ghost predicate Stands(text: string, marker: string, q: nat)
    requires marker != ""
  {
    Occurs(text, marker, q) && OutsideFor(Segments(text, 0), q, q + |marker|) && !EscapedAt(text, marker, q)
  }

  /** The marker is found with the space a code span left for one of its own. */
  ghost predicate Forged(text: string, marker: string)
    requires marker != ""
  {
    exists at: nat, i: nat :: Occurs(Strip(text), marker, at) && !EscapedAt(Strip(text), marker, at)
      && at <= i < at + |marker| && FromSpan(Segments(text, 0), i)
  }

  lemma SurvivorReads(text: string, marker: string, at: nat)
    requires marker != "" && at <= |Strip(text)|
    ensures WrittenAt(Segments(text, 0), at) <= |text|
    ensures EscapedAt(Strip(text), marker, at) <==> EscapedAt(text, marker, WrittenAt(Segments(text, 0), at))
  {
    hide Left, Written, Splits, Backslashes;
    var segments := Segments(text, 0);
    SplitWritten(text, 0, segments);
    SplitDelimited(text, 0, segments);
    assert text[0..|text|] == text;
    SameSlashes(segments, at);
  }

  /** For every marker: it is found in the stripped text exactly when it stands in the text
      outside its code spans, or a span's space makes it up. */
  lemma StripReads(text: string, marker: string)
    requires marker != ""
    ensures MarkerIn(Strip(text), marker) <==> (exists q: nat :: Stands(text, marker, q)) || Forged(text, marker)
    ensures ' ' !in marker ==> !Forged(text, marker)
  {
    hide Left, Written, OutsideFor, Splits, Segments, EscapedAt, FromSpan, WrittenAt, Outside;
    var segments := Segments(text, 0);
    SplitWritten(text, 0, segments);
    SplitDelimited(text, 0, segments);
    assert text[0..|text|] == text;
    if MarkerIn(Strip(text), marker) {
      var at: nat :| Occurs(Strip(text), marker, at) && !EscapedAt(Strip(text), marker, at);
      OccursBound(Strip(text), marker, at);
      if NoneFromSpan(segments, at, at + |marker|) {
        CameFrom(segments, marker, at);
        SurvivorReads(text, marker, at);
        assert Stands(text, marker, WrittenAt(segments, at));
      }
    }
    if q: nat :| Stands(text, marker, q) {
      var at := MarkerSurvives(segments, marker, q);
      OccursBound(Strip(text), marker, at);
      SurvivorReads(text, marker, at);
    }
    if ' ' !in marker && Forged(text, marker) {
      var at: nat, i: nat :| Occurs(Strip(text), marker, at) && at <= i < at + |marker| && FromSpan(segments, i);
      SpaceFreeIsKept(segments, marker, at);
    }
  }

  lemma OccursBound(s: string, marker: string, at: nat)
    requires Occurs(s, marker, at)
    ensures at + |marker| <= |s|
  {
  }

  // ---- Backslashes stay on their line

  lemma LineStart(pieces: seq<string>, i: nat)
    requires Shaped(pieces) && i < |pieces|
    ensures var before := Flatten(pieces[..i]); before == "" || before[|before| - 1] == '\n'
  {
    hide Flatten;
    if i == 0 {
      FlattenNone(pieces);
    } else {
      assert LineShape(pieces[i - 1], false);
      FlattenSnoc(pieces, i - 1);
    }
  }

  lemma LineSlashes(pieces: seq<string>, marker: string, i: nat, at: nat)
    requires Shaped(pieces) && i < |pieces| && at <= |pieces[i]| && marker != ""
    ensures |Flatten(pieces[..i])| + at <= |Flatten(pieces)|
    ensures EscapedAt(Flatten(pieces), marker, |Flatten(pieces[..i])| + at) <==> EscapedAt(pieces[i], marker, at)
  {
    hide Flatten, Shaped;
    var before, line, after := Flatten(pieces[..i]), pieces[i], Flatten(pieces[i + 1..]);
    assert pieces == pieces[..i] + ([line] + pieces[i + 1..]);
    FlattenAppend(pieces[..i], [line] + pieces[i + 1..]);
    FlattenCons(line, pieces[i + 1..]);
    LineStart(pieces, i);
    SlashesBefore(before, line + after, at);
    SlashesOfPrefix(line + after, line, at);
    assert before != "" ==> (before + (line + after))[|before| - 1] == before[|before| - 1];
  }

  lemma UnfencedLines(body: string)
    ensures Lines(Unfenced(body)) == Cleared(Lines(body), Fenced(Lines(body))) && Shaped(Lines(Unfenced(body)))
    ensures |Lines(Unfenced(body))| == |Lines(body)|
  {
    hide Flatten, FencedLine;
    LinesShaped(body);
    ClearedLines(Lines(body), Fenced(Lines(body)));
    LinesShaped(Unfenced(body));
  }

  /** For any body and any marker that fits on a line: the review is skipped exactly when
      the marker stands unescaped in a line that is neither fenced nor indented code,
      outside every code span, or a code span's space makes it up; and for a marker
      without a space none can. */
  lemma SkipsExactly(body: string, marker: string)
    requires marker != "" && '\n' !in marker
    ensures MarkerIn(Prose(body), marker)
      <==> (exists i, at :: StandsInProse(body, marker, i, at)) || Forged(Unindented(Unfenced(body)), marker)
    ensures ' ' !in marker ==> !Forged(Unindented(Unfenced(body)), marker)
  {
    hide Lines, Flatten, FencedLine, IndentedLine, MarkerIn, Strip, Occurs, OutsideFor, Segments, Shaped, Fenced,
      Indented, EscapedAt, Forged;
    var text := Unindented(Unfenced(body));
    StripReads(text, marker);
    if q: nat :| Stands(text, marker, q) {
      var i, at := StandsInLine(body, marker, q);
    }
    if i: nat, at: nat :| StandsInProse(body, marker, i, at) {
      LineStands(body, marker, i, at);
      assert Stands(text, marker, |LeftBefore(body, i)| + at);
    }
  }

  lemma StandsInLine(body: string, marker: string, q: nat) returns (i: nat, at: nat)
    requires marker != "" && '\n' !in marker && Stands(Unindented(Unfenced(body)), marker, q)
    ensures StandsInProse(body, marker, i, at)
  {
    hide Lines, Flatten, FencedLine, IndentedLine, OutsideFor, Segments, Shaped, Fenced, Indented, EscapedAt;
    var lines := Lines(Unfenced(body));
    var pieces := Cleared(lines, Indented(lines));
    UnfencedLines(body);
    PiecesShaped(lines, Indented(lines));
    i, at := Located(pieces, marker, q);
    Survivor(body, marker, i, at);
    LineSlashes(pieces, marker, i, at);
  }

  lemma LineStands(body: string, marker: string, i: nat, at: nat)
    requires marker != "" && '\n' !in marker && StandsInProse(body, marker, i, at)
    ensures Stands(Unindented(Unfenced(body)), marker, |LeftBefore(body, i)| + at)
  {
    hide Lines, Flatten, FencedLine, IndentedLine, OutsideFor, Segments, Shaped, Fenced, Indented, EscapedAt;
    var lines := Lines(Unfenced(body));
    var pieces := Cleared(lines, Indented(lines));
    UnfencedLines(body);
    PiecesShaped(lines, Indented(lines));
    assert pieces[i] == lines[i] == Lines(body)[i];
    Placed(pieces, marker, i, at);
    LineSlashes(pieces, marker, i, at);
  }

  lemma Survivor(body: string, marker: string, i: nat, at: nat)
    requires marker != "" && '\n' !in marker && |Lines(Unfenced(body))| == |Lines(body)|
    requires Lines(Unfenced(body)) == Cleared(Lines(body), Fenced(Lines(body))) && i < |Lines(body)|
    requires var lines := Lines(Unfenced(body)); Occurs(Cleared(lines, Indented(lines))[i], marker, at)
    ensures KeptLine(body, i) && Occurs(Lines(body)[i], marker, at)
  {
    hide Lines, Flatten, FencedLine, IndentedLine, Occurs;
    BlankHoldsNothing(Lines(body)[i], marker);
    BlankHoldsNothing(Lines(Unfenced(body))[i], marker);
  }
}
