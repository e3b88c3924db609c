/** The block scanners of internal/crq/skipmarker.go: block quotes, list items, fenced
    and indented code, line by line (CommonMark 0.31.2, sections 2.2, 4.4, 4.5, 5.1, 5.2). */
module MarkdownBlocks {
  import opened Text

  // ---- Lines

  /** strings.SplitAfter at newlines: every line keeps its newline, and what follows
      the last newline is a line too. */
  function LineLength(text: string): (n: nat)
    ensures n <= |text| && (forall i :: 0 <= i < n - 1 ==> text[i] != '\n')
    ensures n < |text| ==> n > 0 && text[n - 1] == '\n'
  {
    if text == "" then 0 else if text[0] == '\n' then 1 else 1 + LineLength(text[1..])
  }

  predicate Ended(line: string) { line != "" && line[|line| - 1] == '\n' }

  function Lines(text: string): (lines: seq<string>)
    ensures lines != []
    decreases |text|
  {
    var n := LineLength(text);
    if n > 0 && text[n - 1] == '\n' then [text[..n]] + Lines(text[n..]) else [text]
  }

  /** A line of a split text: newlines at its end only, and there unless it is the last. */
  ghost predicate LineShape(line: string, last: bool) {
    && (forall i :: 0 <= i < |line| - 1 ==> line[i] != '\n')
    && (Ended(line) <==> !last)
  }

  ghost predicate Shaped(lines: seq<string>) {
    lines != [] && forall i :: 0 <= i < |lines| ==> LineShape(lines[i], i == |lines| - 1)
  }

  lemma HeadShape(text: string)
    ensures var n := LineLength(text);
      if n > 0 && text[n - 1] == '\n' then LineShape(text[..n], false) else LineShape(text, true)
  {
  }

  lemma {:induction false} LinesShaped(text: string)
    ensures Shaped(Lines(text)) && Flatten(Lines(text)) == text
    decreases |text|
  {
    hide LineLength, LineShape, Shaped, Flatten;
    var n := LineLength(text);
    HeadShape(text);
    if n > 0 && text[n - 1] == '\n' {
      var line, after := text[..n], text[n..];
      LinesShaped(after);
      ShapedCons(line, Lines(after));
      FlattenCons(line, Lines(after));
      assert line + after == text;
    } else {
      LastShaped(text);
      FlattenCons(text, []);
      assert [text] + [] == [text] && text + "" == text;
    }
  }

  lemma ShapedCons(line: string, rest: seq<string>)
    requires LineShape(line, false) && Shaped(rest)
    ensures Shaped([line] + rest)
  {
    hide LineShape;
    var lines := [line] + rest;
    forall i | 0 <= i < |lines| ensures LineShape(lines[i], i == |lines| - 1) {
      if i > 0 {
        assert lines[i] == rest[i - 1];
      }
    }
  }

  lemma LastShaped(line: string)
    requires LineShape(line, true)
    ensures Shaped([line])
  {
  }

  lemma FlattenCons(line: string, rest: seq<string>)
    ensures Flatten([line] + rest) == line + Flatten(rest) && Flatten([]) == ""
  {
    assert ([line] + rest)[1..] == rest;
  }

  lemma LineLengthOf(line: string, rest: string)
    requires LineShape(line, false)
    ensures LineLength(line + rest) == |line|
  {
    var text := line + rest;
    assert forall i :: 0 <= i < |line| ==> text[i] == line[i];
    assert text[|line| - 1] == '\n';
  }

  /** Lines put together split into the same lines. */
  lemma {:induction false} LinesOfFlatten(lines: seq<string>)
    requires Shaped(lines)
    ensures Lines(Flatten(lines)) == lines
  {
    var line, rest := lines[0], lines[1..];
    assert LineShape(lines[0], 0 == |lines| - 1);
    assert lines == [line] + rest;
    FlattenCons(line, rest);
    if rest == [] {
      LastLine(line);
    } else {
      hide LineShape, Flatten;
      forall i | 0 <= i < |rest| ensures LineShape(rest[i], i == |rest| - 1) {
        assert rest[i] == lines[i + 1];
      }
      LinesOfFlatten(rest);
      NextLine(line, Flatten(rest));
    }
  }

  lemma LastLine(line: string)
    requires LineShape(line, true)
    ensures Lines(line + "") == [line]
  {
    assert line + "" == line;
    var n := LineLength(line);
  }

  lemma NextLine(line: string, rest: string)
    requires LineShape(line, false)
    ensures Lines(line + rest) == [line] + Lines(rest)
  {
    LineLengthOf(line, rest);
    var text := line + rest;
    assert text[..|line|] == line && text[|line|..] == rest;
  }

  /** What is left of a line that is removed. */
  function Blank(line: string): string { if Ended(line) then "\n" else "" }

  // ---- Columns

  /** Columns and characters of leading white space; a tab goes to the next multiple
      of four. */
  datatype Indent = Indent(columns: nat, chars: nat)

  function IndentFrom(line: string, at: nat, columns: nat): (indent: Indent)
    requires at <= |line|
    ensures at <= indent.chars <= |line| && columns <= indent.columns
    ensures indent.chars < |line| ==> line[indent.chars] != ' ' && line[indent.chars] != '\t'
    ensures indent.columns < 4 ==> indent.columns - columns == indent.chars - at
    ensures indent.columns < 4 ==> forall i :: at <= i < indent.chars ==> line[i] == ' '
    decreases |line| - at
  {
    if at < |line| && line[at] == ' ' then IndentFrom(line, at + 1, columns + 1)
    else if at < |line| && line[at] == '\t' then IndentFrom(line, at + 1, columns + 4 - columns % 4)
    else Indent(columns, at)
  }

  /** leadingIndent. */
  method LeadingIndent(line: string) returns (columns: nat, chars: nat)
    ensures Indent(columns, chars) == IndentFrom(line, 0, 0)
  {
    columns, chars := 0, 0;
    while chars < |line|
      invariant chars <= |line| && IndentFrom(line, chars, columns) == IndentFrom(line, 0, 0)
    {
      if line[chars] == ' ' {
        columns := columns + 1;
      } else if line[chars] == '\t' {
        columns := columns + 4 - columns % 4;
      } else {
        return;
      }
      chars := chars + 1;
    }
  }

  function Columns(line: string): nat { IndentFrom(line, 0, 0).columns }

  /** A line indented fewer than four columns is indented by that many characters, so a
      column count may be used as an index there. */
  lemma ColumnsAreChars(line: string)
    requires Columns(line) <= 3
    ensures IndentFrom(line, 0, 0).chars == Columns(line) <= |line|
    ensures forall i :: 0 <= i < Columns(line) ==> line[i] == ' '
  {
  }

  // ---- Containers

  /** A line inside its block quotes. */
  datatype Quoted = Quoted(content: string, depth: nat)

  function Spaces(line: string, most: nat): (n: nat)
    ensures n <= most && n <= |line| && forall i :: 0 <= i < n ==> line[i] == ' '
    ensures n < most && n < |line| ==> line[n] != ' '
  {
    if most > 0 && line != "" && line[0] == ' ' then 1 + Spaces(line[1..], most - 1) else 0
  }

  predicate QuoteMark(line: string) {
    var n := Spaces(line, 3);
    n < |line| && line[n] == '>'
  }

  function AfterMark(line: string): (rest: string)
    requires QuoteMark(line)
    ensures |rest| < |line|
  {
    var n := Spaces(line, 3) + 1;
    if n < |line| && (line[n] == ' ' || line[n] == '\t') then line[n + 1..] else line[n..]
  }

  function Unquoted(line: string, depth: nat): (q: Quoted)
    ensures depth <= q.depth && !QuoteMark(q.content)
    decreases |line|
  {
    if QuoteMark(line) then Unquoted(AfterMark(line), depth + 1) else Quoted(line, depth)
  }

  method CountSpaces(line: string, most: nat) returns (start: nat)
    ensures start == Spaces(line, most)
  {
    start := 0;
    while start < |line| && start < most && line[start] == ' '
      invariant start <= |line| && start <= most && start + Spaces(line[start..], most - start) == Spaces(line, most)
    {
      assert line[start..][1..] == line[start + 1..];
      start := start + 1;
    }
  }

  lemma QuoteTaken(line: string, depth: nat, start: nat)
    requires start == Spaces(line, 3)
    ensures start >= |line| || line[start] != '>' ==> Unquoted(line, depth) == Quoted(line, depth)
    ensures start < |line| && line[start] == '>' ==>
      var next := start + 1;
      var after := if next < |line| && (line[next] == ' ' || line[next] == '\t') then next + 1 else next;
      Unquoted(line, depth) == Unquoted(line[after..], depth + 1)
  {
    hide Spaces;
  }

  /** markdownBlockQuoteContent. */
  method BlockQuoteContent(line: string) returns (content: string, depth: nat)
    ensures Quoted(content, depth) == Unquoted(line, 0)
  {
    hide Unquoted, Spaces;
    content, depth := line, 0;
    while true
      invariant Unquoted(content, depth) == Unquoted(line, 0)
      decreases |content|
    {
      var start := CountSpaces(content, 3);
      QuoteTaken(content, depth, start);
      if start >= |content| || content[start] != '>' {
        return;
      }
      start := start + 1;
      if start < |content| && (content[start] == ' ' || content[start] == '\t') {
        start := start + 1;
      }
      content := content[start..];
      depth := depth + 1;
    }
  }

  /** A line without its ending. */
  function Chomp(line: string): string {
    var s := if Ended(line) then line[..|line| - 1] else line;
    if s != "" && s[|s| - 1] == '\r' then s[..|s| - 1] else s
  }

  function Digits(line: string, at: nat, most: nat): (n: nat)
    requires at <= |line|
    ensures n <= most && at + n <= |line| && forall i :: at <= i < at + n ==> '0' <= line[i] <= '9'
    ensures n < most && at + n < |line| ==> !('0' <= line[at + n] <= '9')
    decreases most
  {
    if most > 0 && at < |line| && '0' <= line[at] <= '9' then 1 + Digits(line, at + 1, most - 1) else 0
  }

  predicate IsBullet(c: char) { c == '-' || c == '+' || c == '*' }

  /** The length of a list marker at a position: a bullet, or up to nine digits and a
      period or parenthesis. */
  function MarkerWidth(line: string, at: nat): (width: nat)
    requires at < |line|
    ensures at + width <= |line|
  {
    if IsBullet(line[at]) then 1
    else
      var n := Digits(line, at, 9);
      if n == 0 || at + n >= |line| || (line[at + n] != '.' && line[at + n] != ')') then 0 else n + 1
  }

  /** White space after a marker: columns taken, and where it stops. */
  datatype Padding = Padding(columns: nat, at: nat)

  /** The width after one more white-space character. */
  function Widened(c: char, column: nat, padding: nat): nat {
    if c == '\t' then padding + 4 - (column + padding) % 4 else padding + 1
  }

  function PaddingFrom(line: string, at: nat, column: nat, padding: nat): (p: Padding)
    requires at <= |line| && padding <= 4
    ensures at <= p.at <= |line| && p.columns <= 4
    decreases |line| - at
  {
    if at < |line| && (line[at] == ' ' || line[at] == '\t') && Widened(line[at], column, padding) <= 4 then
      PaddingFrom(line, at + 1, column, Widened(line[at], column, padding))
    else Padding(padding, at)
  }

  /** Where the content of a list item starts, when the line begins one. */
  function ListContent(full: string, container: nat): (content: Option<nat>)
    ensures content.Some? ==> container + 2 <= content.value
  {
    var line := Chomp(full);
    var indent := IndentFrom(line, 0, 0);
    if indent.columns < container || indent.columns - container > 3 || indent.chars >= |line| then None
    else
      var width := MarkerWidth(line, indent.chars);
      var at := indent.chars + width;
      if width == 0 then None
      else if at == |line| then Some(indent.columns + width + 1)
      else if line[at] != ' ' && line[at] != '\t' then None
      else
        var p := PaddingFrom(line, at, indent.columns + width, 0);
        var wide := p.columns == 0 || (p.at < |line| && (line[p.at] == ' ' || line[p.at] == '\t'));
        Some(indent.columns + width + if wide then 1 else p.columns)
  }

  method CountDigits(line: string, start: nat) returns (digits: nat)
    requires start <= |line|
    ensures digits == Digits(line, start, 9)
  {
    digits := 0;
    var at := start;
    while at < |line| && '0' <= line[at] <= '9' && digits < 9
      invariant at == start + digits <= |line| && digits <= 9
      invariant digits + Digits(line, at, 9 - digits) == Digits(line, start, 9)
    {
      at := at + 1;
      digits := digits + 1;
    }
  }

  method MarkerLength(line: string, start: nat) returns (width: nat)
    requires start < |line|
    ensures width == MarkerWidth(line, start)
  {
    hide Digits;
    if IsBullet(line[start]) {
      return 1;
    }
    var digits := CountDigits(line, start);
    var at := start + digits;
    if digits == 0 || at >= |line| || (line[at] != '.' && line[at] != ')') {
      return 0;
    }
    return digits + 1;
  }

  method PaddingWidth(line: string, start: nat, column: nat) returns (padding: nat, at: nat)
    requires start <= |line|
    ensures Padding(padding, at) == PaddingFrom(line, start, column, 0)
  {
    padding, at := 0, start;
    while at < |line| && (line[at] == ' ' || line[at] == '\t')
      invariant at <= |line| && padding <= 4
      invariant PaddingFrom(line, at, column, padding) == PaddingFrom(line, start, column, 0)
    {
      var next := padding + 1;
      if line[at] == '\t' {
        var currentColumn := column + padding;
        next := padding + 4 - currentColumn % 4;
      }
      if next > 4 {
        break;
      }
      padding := next;
      at := at + 1;
    }
  }

  /** markdownListContentIndent. */
  method ListContentIndent(full: string, containerIndent: nat) returns (content: Option<nat>)
    ensures content == ListContent(full, containerIndent)
  {
    hide Chomp, PaddingFrom, MarkerWidth, IndentFrom;
    var line := Chomp(full);
    var column, at := LeadingIndent(line);
    if column < containerIndent || column - containerIndent > 3 || at >= |line| {
      return None;
    }
    var markerWidth := MarkerLength(line, at);
    if markerWidth == 0 {
      return None;
    }
    at := at + markerWidth;
    if at == |line| {
      return Some(column + markerWidth + 1);
    }
    if line[at] != ' ' && line[at] != '\t' {
      return None;
    }
    var padding;
    padding, at := PaddingWidth(line, at, column + markerWidth);
    if padding == 0 || (at < |line| && (line[at] == ' ' || line[at] == '\t')) {
      padding := 1;
    }
    return Some(column + markerWidth + padding);
  }

  // ---- The stack of list items

  ghost predicate Increasing(indents: seq<nat>) {
    forall i, j :: 0 <= i < j < |indents| ==> indents[i] < indents[j]
  }

  function Innermost(indents: seq<nat>): nat { if indents == [] then 0 else indents[|indents| - 1] }

  /** The items a line indented this much is still inside. */
  function Unwound(indents: seq<nat>, indent: nat): (left: seq<nat>)
    ensures left <= indents && Innermost(left) <= indent
  {
    if indents != [] && indent < indents[|indents| - 1] then Unwound(indents[..|indents| - 1], indent) else indents
  }

  lemma PrefixIncreasing(indents: seq<nat>, left: seq<nat>)
    requires left <= indents && Increasing(indents)
    ensures Increasing(left)
  {
  }

  lemma PushIncreasing(indents: seq<nat>, content: nat)
    requires Increasing(indents) && Innermost(indents) < content
    ensures Increasing(indents + [content])
  {
  }

  function HasNoText(content: string): bool { Trim(content) == "" }

  function Pushed(indents: seq<nat>, content: string): seq<nat> {
    match ListContent(content, Innermost(indents))
    case Some(at) => indents + [at]
    case None => indents
  }

  /** The stack after a line. */
  function Tracked(content: string, indents: seq<nat>): seq<nat> {
    if HasNoText(content) then indents else Pushed(Unwound(indents, Columns(content)), content)
  }

  lemma PushedIncreasing(indents: seq<nat>, content: string)
    requires Increasing(indents)
    ensures Increasing(Pushed(indents, content))
  {
    hide Chomp, IndentFrom, MarkerWidth, PaddingFrom;
    var item := ListContent(content, Innermost(indents));
    if item.Some? {
      PushIncreasing(indents, item.value);
    }
  }

  /** List items nest: the columns on the stack always strictly increase. */
  lemma TrackedIncreasing(content: string, indents: seq<nat>)
    requires Increasing(indents)
    ensures Increasing(Tracked(content, indents))
  {
    hide ListContent, Trim;
    PrefixIncreasing(indents, Unwound(indents, Columns(content)));
    PushedIncreasing(Unwound(indents, Columns(content)), content);
  }

  method Unwind(indents: seq<nat>, indent: nat) returns (left: seq<nat>)
    ensures left == Unwound(indents, indent)
  {
    left := indents;
    while |left| > 0 && indent < left[|left| - 1]
      invariant Unwound(left, indent) == Unwound(indents, indent)
    {
      left := left[..|left| - 1];
    }
  }

  /** trackListContainer. */
  method TrackListContainer(content: string, indents: seq<nat>) returns (next: seq<nat>)
    ensures next == Tracked(content, indents)
  {
    if Trim(content) == "" {
      return indents;
    }
    var indent, _ := LeadingIndent(content);
    next := Unwind(indents, indent);
    var item := ListContentIndent(content, Innermost(next));
    if item.Some? {
      next := next + [item.value];
    }
  }

  /** dedent: this many columns of leading white space are dropped, and a line that has
      text before them is left whole. */
  function DedentFrom(line: string, at: nat, seen: nat, columns: nat): string
    requires at <= |line|
    decreases |line| - at
  {
    if at < |line| && seen < columns then
      if line[at] == ' ' then DedentFrom(line, at + 1, seen + 1, columns)
      else if line[at] == '\t' then DedentFrom(line, at + 1, seen + 4 - seen % 4, columns)
      else line
    else line[at..]
  }

  /** The columns the first characters of a line take, tabs to the next multiple of four. */
  function WidthTo(line: string, n: nat): nat
    requires n <= |line|
  {
    if n == 0 then 0
    else if line[n - 1] == '\t' then WidthTo(line, n - 1) + 4 - WidthTo(line, n - 1) % 4
    else WidthTo(line, n - 1) + 1
  }

  /** The shortest leading white space that takes the columns, or all of a line that is
      white space and takes fewer. */
  ghost predicate Drops(line: string, columns: nat, k: nat) {
    && k <= |line| && (forall i :: 0 <= i < k ==> line[i] == ' ' || line[i] == '\t')
    && (forall i :: 0 <= i < k ==> WidthTo(line, i) < columns) && (WidthTo(line, k) >= columns || k == |line|)
  }

  method Dedent(line: string, columns: nat) returns (rest: string)
    ensures rest == DedentFrom(line, 0, 0, columns)
    ensures forall k: nat :: Drops(line, columns, k) ==> rest == line[k..]
    ensures (forall k: nat :: !Drops(line, columns, k)) ==> rest == line
  {
    if columns <= 0 {
      return line;
    }
    var seen: nat, at: nat := 0, 0;
    while at < |line| && seen < columns
      invariant at <= |line| && DedentFrom(line, at, seen, columns) == DedentFrom(line, 0, 0, columns)
      invariant seen == WidthTo(line, at) && forall i :: 0 <= i < at ==> WidthTo(line, i) < columns
      invariant forall i :: 0 <= i < at ==> line[i] == ' ' || line[i] == '\t'
    {
      if line[at] == ' ' {
        seen := seen + 1;
      } else if line[at] == '\t' {
        seen := seen + 4 - seen % 4;
      } else {
        return line;
      }
      at := at + 1;
    }
    assert Drops(line, columns, at);
    return line[at..];
  }

  // ---- Fenced code

  /** A fence delimiter, and what follows it on its line. */
  datatype Delimiter = Delimiter(mark: char, run: nat, tail: string)

  function RunOf(line: string, at: nat, mark: char): (n: nat)
    requires at <= |line|
    ensures at + n <= |line| && forall i :: at <= i < at + n ==> line[i] == mark
    decreases |line| - at
  {
    if at < |line| && line[at] == mark then 1 + RunOf(line, at + 1, mark) else 0
  }

  function FenceOf(full: string): (d: Option<Delimiter>)
    ensures d.Some? ==> d.value.run >= 3 && (d.value.mark == '`' || d.value.mark == '~') && d.value.mark in full
  {
    var line := Chomp(full);
    var start := Spaces(line, 3);
    if start >= |line| || (line[start] != '`' && line[start] != '~') then None
    else
      var run := RunOf(line, start, line[start]);
      if run < 3 then None else Some(Delimiter(line[start], run, line[start + run..]))
  }

  /** markdownFence. */
  method MarkdownFence(full: string) returns (d: Option<Delimiter>)
    ensures d == FenceOf(full)
  {
    var line := Chomp(full);
    var start := CountSpaces(line, 3);
    if start >= |line| || (line[start] != '`' && line[start] != '~') {
      return None;
    }
    var delimiter, end := line[start], start;
    while end < |line| && line[end] == delimiter
      invariant start <= end <= |line| && end - start + RunOf(line, end, delimiter) == RunOf(line, start, delimiter)
    {
      end := end + 1;
    }
    if end - start < 3 {
      return None;
    }
    return Some(Delimiter(delimiter, end - start, line[end..]));
  }

  /** An open fence: its delimiter, and the depth of the quotes it stands in. */
  datatype Fence = NoFence | Fence(mark: char, length: nat, depth: nat)

  datatype FenceState = FenceState(fence: Fence, indents: seq<nat>)

  datatype FenceStepped = FenceStepped(next: FenceState, blank: bool)

  predicate Opens(d: Option<Delimiter>) { d.Some? && (d.value.mark != '`' || '`' !in d.value.tail) }

  /** The delimiter of a line, measured from the innermost list item. */
  function DelimiterIn(q: Quoted, indents: seq<nat>): Option<Delimiter> {
    FenceOf(DedentFrom(q.content, 0, 0, Innermost(indents)))
  }

  predicate ClosesFence(fence: Fence, q: Quoted, indents: seq<nat>)
    requires fence.Fence?
  {
    var d := DelimiterIn(q, indents);
    q.depth == fence.depth && d.Some? && d.value.mark == fence.mark && d.value.run >= fence.length
    && HasNoText(d.value.tail)
  }

  predicate LeavesFence(fence: Fence, q: Quoted)
    requires fence.Fence?
  {
    q.depth < fence.depth
  }

  /** What one line does. */
  function FenceStep(s: FenceState, line: string): FenceStepped {
    var q := Unquoted(line, 0);
    var indents := if s.fence.NoFence? then Tracked(q.content, s.indents) else s.indents;
    var d := DelimiterIn(q, indents);
    if s.fence.NoFence? || LeavesFence(s.fence, q) then
      if Opens(d) then FenceStepped(FenceState(Fence(d.value.mark, d.value.run, q.depth), indents), true)
      else FenceStepped(FenceState(NoFence, indents), false)
    else FenceStepped(FenceState(if ClosesFence(s.fence, q, indents) then NoFence else s.fence, indents), true)
  }

  const NO_FENCE := FenceState(NoFence, [])

  function FenceAt(lines: seq<string>, i: nat): FenceState
    requires i <= |lines|
  {
    if i == 0 then NO_FENCE else FenceStep(FenceAt(lines, i - 1), lines[i - 1]).next
  }

  predicate FencedLine(lines: seq<string>, i: nat)
    requires i < |lines|
  {
    FenceStep(FenceAt(lines, i), lines[i]).blank
  }

  /** The lines with those a predicate picks taken out. */
  function Cleared(lines: seq<string>, gone: seq<bool>): (pieces: seq<string>)
    requires |gone| == |lines|
    ensures |pieces| == |lines|
    ensures forall i :: 0 <= i < |lines| ==> pieces[i] == if gone[i] then Blank(lines[i]) else lines[i]
  {
    seq(|lines|, i requires 0 <= i < |lines| => if gone[i] then Blank(lines[i]) else lines[i])
  }

  function Fenced(lines: seq<string>): (gone: seq<bool>)
    ensures |gone| == |lines| && forall i :: 0 <= i < |lines| ==> gone[i] == FencedLine(lines, i)
  {
    seq(|lines|, i requires 0 <= i < |lines| => FencedLine(lines, i))
  }

  /** Clearing lines leaves as many lines, each the one that was there or blank. */
  lemma ClearedLines(lines: seq<string>, gone: seq<bool>)
    requires Shaped(lines) && |gone| == |lines|
    ensures Lines(Flatten(Cleared(lines, gone))) == Cleared(lines, gone)
  {
    var pieces := Cleared(lines, gone);
    forall i | 0 <= i < |pieces| ensures LineShape(pieces[i], i == |pieces| - 1) {
      assert LineShape(lines[i], i == |lines| - 1);
    }
    LinesOfFlatten(pieces);
  }

  lemma FlattenSnoc(pieces: seq<string>, i: nat)
    requires i < |pieces|
    ensures Flatten(pieces[..i + 1]) == Flatten(pieces[..i]) + pieces[i]
  {
    assert pieces[..i + 1] == pieces[..i] + [pieces[i]];
    FlattenAppend(pieces[..i], [pieces[i]]);
    FlattenCons(pieces[i], []);
    assert [pieces[i]] + [] == [pieces[i]] && pieces[i] + "" == pieces[i];
  }

  method FenceStepOf(s: FenceState, line: string) returns (next: FenceState, blank: bool)
    ensures FenceStepped(next, blank) == FenceStep(s, line)
  {
    hide Unquoted, Tracked, DedentFrom, FenceOf, Trim;
    var content, depth := BlockQuoteContent(line);
    var fence, indents := s.fence, s.indents;
    if fence.NoFence? {
      indents := TrackListContainer(content, indents);
    }
    var inner := Dedent(content, Innermost(indents));
    var d := MarkdownFence(inner);
    var opens := d.Some? && (d.value.mark != '`' || '`' !in d.value.tail);
    if fence.NoFence? {
      if opens {
        return FenceState(Fence(d.value.mark, d.value.run, depth), indents), true;
      }
      return FenceState(NoFence, indents), false;
    }
    if depth < fence.depth {
      if opens {
        return FenceState(Fence(d.value.mark, d.value.run, depth), indents), true;
      }
      return FenceState(NoFence, indents), false;
    }
    if depth == fence.depth && d.Some? && d.value.mark == fence.mark && d.value.run >= fence.length
       && Trim(d.value.tail) == "" {
      fence := NoFence;
    }
    return FenceState(fence, indents), true;
  }

  /** stripFencedCode. */
  method StripFencedCode(body: string) returns (out: string)
    ensures out == Flatten(Cleared(Lines(body), Fenced(Lines(body))))
  {
    hide FenceStep, Lines, Flatten;
    var lines := Lines(body);
    ghost var pieces := Cleared(lines, Fenced(lines));
    out := "";
    FlattenNone(pieces);
    var state := NO_FENCE;
    for i := 0 to |lines|
      invariant state == FenceAt(lines, i) && out == Flatten(pieces[..i])
    {
      FlattenSnoc(pieces, i);
      var blank;
      state, blank := FenceStepOf(state, lines[i]);
      if blank {
        if Ended(lines[i]) {
          out := out + "\n";
        } else {
          AppendNothing(out);
        }
      } else {
        out := out + lines[i];
      }
    }
    assert pieces[..|pieces|] == pieces;
  }

  lemma FlattenNone(pieces: seq<string>)
    ensures Flatten(pieces[..0]) == ""
  {
  }

  lemma AppendNothing(s: string)
    ensures s + "" == s
  {
  }

  ghost predicate FenceStateOk(s: FenceState) {
    (s.fence.Fence? ==> s.fence.length >= 3) && Increasing(s.indents)
  }

  lemma FenceStepOk(s: FenceState, line: string)
    requires FenceStateOk(s)
    ensures FenceStateOk(FenceStep(s, line).next)
  {
    hide Unquoted, Tracked, DedentFrom, HasNoText, Increasing, Innermost, ClosesFence, Chomp;
    TrackedIncreasing(Unquoted(line, 0).content, s.indents);
  }

  /** An open fence has at least three marks, and the list stack strictly increases,
      before every line of every text. */
  lemma {:induction false} FenceInvariant(lines: seq<string>, i: nat)
    requires i <= |lines|
    ensures FenceStateOk(FenceAt(lines, i))
  {
    hide FenceStep;
    if i > 0 {
      FenceInvariant(lines, i - 1);
      FenceStepOk(FenceAt(lines, i - 1), lines[i - 1]);
    }
  }

  // ---- Which lines are fenced

  /** A fence starts at this line: none is open there, or the line leaves the quote of
      the one that is. */
  predicate Starts(lines: seq<string>, o: nat)
    requires o < |lines|
  {
    var s := FenceAt(lines, o);
    (s.fence.NoFence? || LeavesFence(s.fence, Unquoted(lines[o], 0))) && FenceStep(s, lines[o]).blank
  }

  /** The fence that starts at o is still open before line i: no line in between closes
      it or leaves its quote. */
  ghost predicate OpenSince(lines: seq<string>, o: nat, i: nat)
    requires o < i <= |lines|
  {
    && Starts(lines, o)
    && var s := FenceAt(lines, o + 1);
       s.fence.Fence? && forall j :: o < j < i ==>
         !ClosesFence(s.fence, Unquoted(lines[j], 0), s.indents) && !LeavesFence(s.fence, Unquoted(lines[j], 0))
  }

  lemma OpenNext(lines: seq<string>, o: nat, i: nat)
    requires o < i < |lines| && OpenSince(lines, o, i) && FenceAt(lines, i) == FenceAt(lines, o + 1)
    ensures var s, q := FenceAt(lines, i), Unquoted(lines[i], 0);
      var kept := !ClosesFence(s.fence, q, s.indents) && !LeavesFence(s.fence, q);
      (kept ==> OpenSince(lines, o, i + 1) && FenceAt(lines, i + 1) == FenceAt(lines, o + 1))
      && (!kept ==> !OpenSince(lines, o, i + 1))
      && (kept || ClosesFence(s.fence, q, s.indents) ==> FencedLine(lines, i))
  {
    hide Unquoted, Tracked, DedentFrom, FenceOf, Trim;
  }

  /** The state remembers exactly the fence that is still open. */
  lemma {:induction false} OpenIsRemembered(lines: seq<string>, o: nat, i: nat)
    requires o < i <= |lines| && OpenSince(lines, o, i)
    ensures FenceAt(lines, i) == FenceAt(lines, o + 1)
    decreases i
  {
    hide FenceAt, FenceStep, ClosesFence, LeavesFence, Starts;
    if i > o + 1 {
      assert OpenSince(lines, o, i - 1);
      OpenIsRemembered(lines, o, i - 1);
      OpenNext(lines, o, i - 1);
    }
  }

  lemma {:induction false} RememberedIsOpen(lines: seq<string>, i: nat) returns (o: nat)
    requires i <= |lines| && FenceAt(lines, i).fence.Fence?
    ensures o < i && OpenSince(lines, o, i)
    decreases i
  {
    hide FenceStep;
    assert i > 0;
    if Starts(lines, i - 1) {
      o := i - 1;
    } else {
      WasOpen(lines, i - 1);
      o := RememberedIsOpen(lines, i - 1);
      OpenIsRemembered(lines, o, i - 1);
      OpenNext(lines, o, i - 1);
    }
  }

  /** A fence open after a line that starts none was open before it, and the line
      neither closes nor leaves it. */
  lemma WasOpen(lines: seq<string>, i: nat)
    requires i < |lines| && FenceAt(lines, i + 1).fence.Fence? && !Starts(lines, i)
    ensures var s, q := FenceAt(lines, i), Unquoted(lines[i], 0);
      s.fence.Fence? && !ClosesFence(s.fence, q, s.indents) && !LeavesFence(s.fence, q)
  {
    hide Unquoted, Tracked, DedentFrom, FenceOf, Trim;
  }

  ghost predicate InsideFence(lines: seq<string>, i: nat)
    requires i < |lines|
  {
    exists o :: 0 <= o < i && OpenSince(lines, o, i) && !LeavesFence(FenceAt(lines, o + 1).fence, Unquoted(lines[i], 0))
  }

  /** A line is taken out exactly when it starts a fence, or stands inside or ends one:
      some fence is open before it and the line does not leave the quote it stands in. */
  lemma FencedExactly(lines: seq<string>, i: nat)
    requires i < |lines|
    ensures FencedLine(lines, i) <==> Starts(lines, i) || InsideFence(lines, i)
  {
    hide Unquoted, Tracked, DedentFrom, FenceOf, Trim;
    var s := FenceAt(lines, i);
    if s.fence.Fence? {
      var o := RememberedIsOpen(lines, i);
      OpenIsRemembered(lines, o, i);
    }
    if o :| 0 <= o < i && OpenSince(lines, o, i) && !LeavesFence(FenceAt(lines, o + 1).fence, Unquoted(lines[i], 0)) {
      OpenIsRemembered(lines, o, i);
    }
  }

  // ---- Indented code

  /** Every character from at on is a mark or white space; how many marks. */
  function ThematicFrom(text: string, at: nat, mark: char): Option<nat>
    requires at <= |text|
    decreases |text| - at
  {
    if at == |text| then Some(0)
    else
      var rest := ThematicFrom(text, at + 1, mark);
      if text[at] == ' ' || text[at] == '\t' then rest
      else if text[at] != mark || rest.None? then None
      else Some(rest.value + 1)
  }

  predicate IsRule(c: char) { c == '*' || c == '-' || c == '_' }

  function FirstText(text: string, at: nat): (i: nat)
    requires at <= |text|
    ensures at <= i <= |text| && (i < |text| ==> text[i] != ' ' && text[i] != '\t')
    decreases |text| - at
  {
    if at < |text| && (text[at] == ' ' || text[at] == '\t') then FirstText(text, at + 1) else at
  }

  /** At least three of one rule mark, and nothing else but white space. */
  predicate ThematicBreak(text: string) {
    var at := FirstText(text, 0);
    at < |text| && IsRule(text[at]) && match ThematicFrom(text, at, text[at])
      case Some(n) => n >= 3
      case None => false
  }

  lemma ThematicStep(text: string, at: nat, mark: char)
    requires at < |text|
    ensures ThematicFrom(text, at, mark)
         == if text[at] == ' ' || text[at] == '\t' then ThematicFrom(text, at + 1, mark)
            else if text[at] != mark || ThematicFrom(text, at + 1, mark).None? then None
            else Some(ThematicFrom(text, at + 1, mark).value + 1)
  {
  }

  /** What the scan has made of the text before i. */
  ghost predicate Scanned(text: string, i: nat, delimiter: Option<char>, count: nat)
    requires i <= |text|
  {
    match delimiter
    case None => count == 0 && FirstText(text, 0) == FirstText(text, i)
    case Some(mark) =>
      var at := FirstText(text, 0);
      at < i && text[at] == mark && IsRule(mark)
      && match ThematicFrom(text, i, mark)
         case None => ThematicFrom(text, at, mark).None?
         case Some(n) => ThematicFrom(text, at, mark) == Some(count + n)
  }

  lemma ScanStep(text: string, i: nat, delimiter: Option<char>, count: nat)
    requires i < |text| && Scanned(text, i, delimiter, count)
    ensures text[i] == ' ' || text[i] == '\t' ==> Scanned(text, i + 1, delimiter, count)
    ensures IsRule(text[i]) && (delimiter.None? || delimiter.value == text[i]) ==>
      Scanned(text, i + 1, Some(text[i]), count + 1)
    ensures text[i] != ' ' && text[i] != '\t' && !(IsRule(text[i]) && (delimiter.None? || delimiter.value == text[i]))
        ==> !ThematicBreak(text)
  {
    match delimiter
    case None =>
      ThematicStep(text, i, text[i]);
    case Some(mark) =>
      ThematicStep(text, i, mark);
  }

  /** markdownThematicBreak. */
  method IsThematicBreak(text: string) returns (rule: bool)
    ensures rule == ThematicBreak(text)
  {
    hide ThematicFrom, Scanned, ThematicBreak;
    var delimiter: Option<char> := None;
    var count := 0;
    ScanStart(text);
    for i := 0 to |text|
      invariant count >= 0 && Scanned(text, i, delimiter, count)
    {
      ScanStep(text, i, delimiter, count);
      if text[i] == ' ' || text[i] == '\t' {
        continue;
      }
      if !IsRule(text[i]) {
        return false;
      }
      if delimiter.None? {
        delimiter := Some(text[i]);
      }
      if text[i] != delimiter.value {
        return false;
      }
      count := count + 1;
    }
    ScanEnd(text, delimiter, count);
    return count >= 3;
  }

  lemma ScanStart(text: string)
    ensures Scanned(text, 0, None, 0)
  {
  }

  lemma ScanEnd(text: string, delimiter: Option<char>, count: nat)
    requires Scanned(text, |text|, delimiter, count)
    ensures ThematicBreak(text) <==> count >= 3
  {
  }

  function Hashes(text: string, at: nat): (n: nat)
    requires at <= |text|
    ensures at + n <= |text|
    decreases |text| - at
  {
    if at < |text| && text[at] == '#' then 1 + Hashes(text, at + 1) else 0
  }

  predicate Heading(text: string) {
    var end := Hashes(text, 0);
    end > 0 && end <= 6 && (end == |text| || text[end] == ' ' || text[end] == '\t')
  }

  /** A paragraph may go on after this line. */
  predicate Continues(full: string) {
    var line := Chomp(full);
    Columns(line) <= 3 && Columns(line) < |line| && !Heading(line[Columns(line)..])
    && !ThematicBreak(line[Columns(line)..])
  }

  /** continuesMarkdownParagraph; the column count serves as an index. */
  method ContinuesParagraph(full: string) returns (continues: bool)
    ensures continues == Continues(full)
  {
    hide ThematicBreak;
    var line := Chomp(full);
    var indent, _ := LeadingIndent(line);
    if indent > 3 || indent >= |line| {
      return false;
    }
    var text := line[indent..];
    if text[0] == '#' {
      var end := 0;
      while end < |text| && text[end] == '#'
        invariant end <= |text| && end + Hashes(text, end) == Hashes(text, 0)
      {
        end := end + 1;
      }
      if end <= 6 && (end == |text| || text[end] == ' ' || text[end] == '\t') {
        return false;
      }
    }
    var rule := IsThematicBreak(text);
    return !rule;
  }

  /** What one block-quote container remembers. */
  datatype Container = Container(inParagraph: bool, indents: seq<nat>)

  const EMPTY := Container(false, [])

  datatype IndentState = IndentState(states: seq<Container>, depth: nat)

  datatype IndentStepped = IndentStepped(next: IndentState, blank: bool)

  /** What a line does to the container it stands in. */
  datatype ContainerStepped = ContainerStepped(next: Container, blank: bool)

  function ContainerStep(c: Container, content: string): ContainerStepped {
    if HasNoText(content) then ContainerStepped(c.(inParagraph := false), false)
    else
      var left := Unwound(c.indents, Columns(content));
      match ListContent(content, Innermost(left))
      case Some(at) => ContainerStepped(Container(Continues(content), left + [at]), false)
      case None =>
        if Columns(content) - Innermost(left) >= 4 then ContainerStepped(c.(indents := left), !c.inParagraph)
        else ContainerStepped(Container(Continues(content), left), false)
  }

  /** The depth a line is read at: a quoted paragraph goes on without its marks. */
  function EffectiveDepth(s: IndentState, q: Quoted): nat
    requires s.depth < |s.states|
  {
    if q.depth < s.depth && !HasNoText(q.content) && s.states[s.depth].inParagraph then s.depth else q.depth
  }

  /** The containers once those between the current depth and a deeper one are fresh. */
  function Deepened(s: IndentState, depth: nat): (states: seq<Container>)
    requires s.depth < |s.states|
    ensures depth < |states| || depth <= s.depth
    ensures |s.states| <= |states|
  {
    if depth <= s.depth then s.states
    else s.states[..s.depth + 1] + seq(depth - s.depth, _ => EMPTY)
         + (if depth + 1 <= |s.states| then s.states[depth + 1..] else [])
  }

  function IndentStep(s: IndentState, line: string): (stepped: IndentStepped)
    requires s.depth < |s.states|
    ensures stepped.next.depth < |stepped.next.states|
  {
    var q := Unquoted(line, 0);
    var depth := EffectiveDepth(s, q);
    var states := Deepened(s, depth);
    var done := ContainerStep(states[depth], q.content);
    IndentStepped(IndentState(states[depth := done.next], depth), done.blank)
  }

  const TOP := IndentState([EMPTY], 0)

  function IndentAt(lines: seq<string>, i: nat): (s: IndentState)
    requires i <= |lines|
    ensures s.depth < |s.states|
  {
    if i == 0 then TOP else IndentStep(IndentAt(lines, i - 1), lines[i - 1]).next
  }

  predicate IndentedLine(lines: seq<string>, i: nat)
    requires i < |lines|
  {
    IndentStep(IndentAt(lines, i), lines[i]).blank
  }

  function Indented(lines: seq<string>): (gone: seq<bool>)
    ensures |gone| == |lines| && forall i :: 0 <= i < |lines| ==> gone[i] == IndentedLine(lines, i)
  {
    seq(|lines|, i requires 0 <= i < |lines| => IndentedLine(lines, i))
  }

  method ContainerStepOf(c: Container, content: string) returns (next: Container, blank: bool)
    ensures ContainerStepped(next, blank) == ContainerStep(c, content)
  {
    hide Unwound, ListContent, Continues, Trim, IndentFrom;
    if Trim(content) == "" {
      return c.(inParagraph := false), false;
    }
    var indent, _ := LeadingIndent(content);
    var indents := Unwind(c.indents, indent);
    var containerIndent := Innermost(indents);
    var item := ListContentIndent(content, containerIndent);
    if item.Some? {
      var inParagraph := ContinuesParagraph(content);
      return Container(inParagraph, indents + [item.value]), false;
    }
    var relativeIndent: nat := indent - containerIndent;
    if relativeIndent >= 4 {
      if c.inParagraph {
        return c.(indents := indents), false;
      }
      return c.(indents := indents), true;
    }
    var inParagraph := ContinuesParagraph(content);
    return Container(inParagraph, indents), false;
  }

  method Deepen(s: IndentState, depth: nat) returns (states: seq<Container>)
    requires s.depth < |s.states|
    ensures states == Deepened(s, depth)
  {
    states := s.states;
    if depth > s.depth {
      while |states| <= depth
        invariant s.states <= states && (|states| <= depth + 1 || states == s.states)
        decreases depth + 1 - |states|
      {
        states := states + [EMPTY];
      }
      ghost var grown := states;
      for d := s.depth + 1 to depth + 1
        invariant |states| == |grown| && states[..s.depth + 1] == s.states[..s.depth + 1]
        invariant forall k :: s.depth < k < d ==> states[k] == EMPTY
        invariant forall k :: d <= k < |states| ==> states[k] == grown[k]
      {
        states := states[d := EMPTY];
      }
    }
  }

  method IndentStepOf(s: IndentState, line: string) returns (next: IndentState, blank: bool)
    requires s.depth < |s.states|
    ensures IndentStepped(next, blank) == IndentStep(s, line)
  {
    hide ContainerStep, Unquoted, Deepened, Trim;
    var content, depth := BlockQuoteContent(line);
    var effectiveDepth := depth;
    if depth < s.depth && Trim(content) != "" && s.states[s.depth].inParagraph {
      effectiveDepth := s.depth;
    }
    var states := Deepen(s, effectiveDepth);
    var state;
    state, blank := ContainerStepOf(states[effectiveDepth], content);
    states := states[effectiveDepth := state];
    next := IndentState(states, effectiveDepth);
  }

  /** stripIndentedCode. */
  method StripIndentedCode(body: string) returns (out: string)
    ensures out == Flatten(Cleared(Lines(body), Indented(Lines(body))))
  {
    hide IndentStep, Lines, Flatten;
    var lines := Lines(body);
    ghost var pieces := Cleared(lines, Indented(lines));
    out := "";
    FlattenNone(pieces);
    var state := TOP;
    for i := 0 to |lines|
      invariant state == IndentAt(lines, i) && out == Flatten(pieces[..i])
    {
      FlattenSnoc(pieces, i);
      var blank;
      state, blank := IndentStepOf(state, lines[i]);
      if blank {
        if Ended(lines[i]) {
          out := out + "\n";
        } else {
          AppendNothing(out);
        }
      } else {
        out := out + lines[i];
      }
    }
    assert pieces[..|pieces|] == pieces;
  }

  ghost predicate ContainersOk(states: seq<Container>) {
    forall k :: 0 <= k < |states| ==> Increasing(states[k].indents)
  }

  lemma ContainerStepOk(c: Container, content: string)
    requires Increasing(c.indents)
    ensures Increasing(ContainerStep(c, content).next.indents)
  {
    hide ListContent, Continues, Trim;
    PrefixIncreasing(c.indents, Unwound(c.indents, Columns(content)));
    PushedIncreasing(Unwound(c.indents, Columns(content)), content);
  }

  lemma IndentStepOk(s: IndentState, line: string)
    requires s.depth < |s.states| && ContainersOk(s.states)
    ensures ContainersOk(IndentStep(s, line).next.states)
  {
    hide ContainerStep, Unquoted, Increasing;
    var q := Unquoted(line, 0);
    var depth := EffectiveDepth(s, q);
    EmptyIncreasing();
    DeepenedOk(s, depth);
    ContainerStepOk(Deepened(s, depth)[depth], q.content);
  }

  lemma EmptyIncreasing()
    ensures Increasing(EMPTY.indents)
  {
  }

  lemma DeepenedOk(s: IndentState, depth: nat)
    requires s.depth < |s.states| && ContainersOk(s.states) && Increasing(EMPTY.indents)
    ensures ContainersOk(Deepened(s, depth))
  {
    hide Increasing;
  }

  /** Before every line of every text the current container exists, every container's
      list stack strictly increases, and a line with text is never to the left of the
      list item it is measured from. */
  lemma {:induction false} IndentInvariant(lines: seq<string>, i: nat)
    requires i <= |lines|
    ensures IndentAt(lines, i).depth < |IndentAt(lines, i).states| && ContainersOk(IndentAt(lines, i).states)
    ensures forall content: string, k :: 0 <= k < |IndentAt(lines, i).states| ==>
      Innermost(Unwound(IndentAt(lines, i).states[k].indents, Columns(content))) <= Columns(content)
  {
    hide IndentStep;
    if i > 0 {
      IndentInvariant(lines, i - 1);
      IndentStepOk(IndentAt(lines, i - 1), lines[i - 1]);
    } else {
      EmptyIncreasing();
    }
  }

  // ---- Which lines are indented code

  /** The block quote a line is read in. */
  function DepthOf(lines: seq<string>, i: nat): nat
    requires i < |lines|
  {
    EffectiveDepth(IndentAt(lines, i), Unquoted(lines[i], 0))
  }

  /** What a line finds in its block quote. */
  function Found(lines: seq<string>, i: nat): Container
    requires i < |lines|
  {
    Deepened(IndentAt(lines, i), DepthOf(lines, i))[DepthOf(lines, i)]
  }

  /** The line has text, begins no list item, and stands four columns or more into the
      list item it belongs to. */
  predicate FarIn(lines: seq<string>, i: nat)
    requires i < |lines|
  {
    var content := Unquoted(lines[i], 0).content;
    var edge := Innermost(Unwound(Found(lines, i).indents, Columns(content)));
    !HasNoText(content) && ListContent(content, edge).None? && Columns(content) - edge >= 4
  }

  /** The line begins a paragraph, or carries one on, by itself. */
  predicate BeginsParagraph(lines: seq<string>, i: nat)
    requires i < |lines|
  {
    var content := Unquoted(lines[i], 0).content;
    !HasNoText(content) && !FarIn(lines, i) && Continues(content)
  }

  /** An earlier line of the block quote left a paragraph open, and every line since is
      quoted deeper or stands far in. */
  ghost predicate ParagraphOpen(lines: seq<string>, i: nat, depth: nat)
    requires i <= |lines|
  {
    exists j :: 0 <= j < i && LeftOpen(lines, j, i, depth)
  }

  ghost predicate LeftOpen(lines: seq<string>, j: nat, i: nat, depth: nat)
    requires j < i <= |lines|
  {
    && DepthOf(lines, j) == depth && BeginsParagraph(lines, j)
    && forall k :: j < k < i ==> DepthOf(lines, k) > depth || (DepthOf(lines, k) == depth && FarIn(lines, k))
  }

  lemma OpenSnoc(lines: seq<string>, i: nat, depth: nat)
    requires i < |lines|
    ensures ParagraphOpen(lines, i + 1, depth)
      <==> (DepthOf(lines, i) == depth && BeginsParagraph(lines, i))
           || (ParagraphOpen(lines, i, depth)
               && (DepthOf(lines, i) > depth || (DepthOf(lines, i) == depth && FarIn(lines, i))))
  {
    hide DepthOf, BeginsParagraph, FarIn;
    var next := i + 1;
    if ParagraphOpen(lines, next, depth) {
      var j: nat :| j < next && LeftOpen(lines, j, next, depth);
      if j < i {
        assert LeftOpen(lines, j, i, depth);
      }
    }
    if DepthOf(lines, i) == depth && BeginsParagraph(lines, i) {
      assert LeftOpen(lines, i, i + 1, depth);
    }
    if ParagraphOpen(lines, i, depth)
       && (DepthOf(lines, i) > depth || (DepthOf(lines, i) == depth && FarIn(lines, i))) {
      var j: nat :| j < i && LeftOpen(lines, j, i, depth);
      assert LeftOpen(lines, j, i + 1, depth);
    }
  }

  lemma DepthNext(lines: seq<string>, i: nat)
    requires i < |lines|
    ensures IndentAt(lines, i + 1).depth == DepthOf(lines, i)
  {
    hide Unquoted, HasNoText, ContainerStep, Deepened;
  }

  /** A block quote that was left has no paragraph open. */
  lemma LeftIsClosed(lines: seq<string>, i: nat, depth: nat)
    requires i <= |lines| && IndentAt(lines, i).depth < depth
    ensures !ParagraphOpen(lines, i, depth)
  {
    hide LeftOpen, BeginsParagraph, FarIn, IndentAt, DepthOf;
    if i > 0 {
      DepthNext(lines, i - 1);
      OpenSnoc(lines, i - 1, depth);
    }
  }

  /** What a line makes of its block quote's paragraph. */
  lemma ParagraphStep(lines: seq<string>, i: nat)
    requires i < |lines|
    ensures var stepped := IndentStep(IndentAt(lines, i), lines[i]);
      && stepped.next.states[DepthOf(lines, i)].inParagraph
         == (BeginsParagraph(lines, i) || (FarIn(lines, i) && Found(lines, i).inParagraph))
      && stepped.blank == (FarIn(lines, i) && !Found(lines, i).inParagraph)
  {
    hide Unquoted, Deepened, Trim, ListContent, Continues, IndentFrom, Unwound;
  }

  /** The scanner's flags say exactly which paragraphs are open. */
  lemma {:induction false} FlagsAreTrue(lines: seq<string>, i: nat, depth: nat)
    requires i <= |lines| && depth <= IndentAt(lines, i).depth
    ensures IndentAt(lines, i).states[depth].inParagraph <==> ParagraphOpen(lines, i, depth)
    decreases i, 0
  {
    hide ParagraphOpen, BeginsParagraph, FarIn, IndentStep, DepthOf, Found, Deepened;
    if i == 0 {
      NothingOpen(lines, depth);
    } else {
      var now := DepthOf(lines, i - 1);
      DepthNext(lines, i - 1);
      OpenSnoc(lines, i - 1, depth);
      FoundParagraph(lines, i - 1, depth);
      FlagNext(lines, i - 1, depth);
    }
  }

  /** The flag of a block quote the line is in, as the line finds it. */
  function FlagBefore(lines: seq<string>, i: nat, depth: nat): bool
    requires i < |lines|
  {
    depth <= IndentAt(lines, i).depth && IndentAt(lines, i).states[depth].inParagraph
  }

  lemma {:induction false} FoundParagraph(lines: seq<string>, i: nat, depth: nat)
    requires i < |lines|
    ensures FlagBefore(lines, i, depth) <==> ParagraphOpen(lines, i, depth)
    decreases i, 1
  {
    hide ParagraphOpen, IndentStep;
    if depth <= IndentAt(lines, i).depth {
      FlagsAreTrue(lines, i, depth);
    } else {
      LeftIsClosed(lines, i, depth);
    }
  }

  /** The flag after the line. */
  lemma FlagNext(lines: seq<string>, i: nat, depth: nat)
    requires i < |lines| && depth <= DepthOf(lines, i)
    ensures depth <= IndentAt(lines, i + 1).depth
    ensures IndentAt(lines, i + 1).states[depth].inParagraph
      <==> if depth < DepthOf(lines, i) then FlagBefore(lines, i, depth)
           else BeginsParagraph(lines, i) || (FarIn(lines, i) && FlagBefore(lines, i, depth))
  {
    ParagraphStep(lines, i);
    DeepenedAt(IndentAt(lines, i), DepthOf(lines, i), depth);
    hide Unquoted, HasNoText, FarIn, BeginsParagraph, ContainerStep, Deepened;
    DepthNext(lines, i);
  }

  lemma NothingOpen(lines: seq<string>, depth: nat)
    ensures !ParagraphOpen(lines, 0, depth)
  {
  }

  lemma DeepenedAt(s: IndentState, now: nat, depth: nat)
    requires s.depth < |s.states| && depth <= now
    ensures depth < |Deepened(s, now)|
    ensures Deepened(s, now)[depth] == if depth <= s.depth then s.states[depth] else EMPTY
  {
  }

  /** A line is taken out exactly when it stands far in and no paragraph is open in its
      block quote. */
  lemma IndentedExactly(lines: seq<string>, i: nat)
    requires i < |lines|
    ensures IndentedLine(lines, i) <==> FarIn(lines, i) && !ParagraphOpen(lines, i, DepthOf(lines, i))
  {
    hide ParagraphOpen, FarIn, ContainerStep, Unquoted, HasNoText, Deepened, BeginsParagraph;
    ParagraphStep(lines, i);
    DeepenedAt(IndentAt(lines, i), DepthOf(lines, i), DepthOf(lines, i));
    FoundParagraph(lines, i, DepthOf(lines, i));
  }
}
