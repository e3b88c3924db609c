/** The block scanners in terms of the characters of a line: what is a quote mark, a list
    item, a fence, a heading and a rule, and how far each fence reaches. */
module LineText {
  import opened Text
  import opened MarkdownBlocks

  predicate IsBlank(c: char) { c == ' ' || c == '\t' }

  /** Spaces, and nothing else, from one position to another. */
  ghost predicate SpaceRun(line: string, from: nat, to: nat) {
    from <= to <= |line| && forall i :: from <= i < to ==> line[i] == ' '
  }

  ghost predicate BlankRun(line: string, from: nat, to: nat) {
    from <= to <= |line| && forall i :: from <= i < to ==> IsBlank(line[i])
  }

  ghost predicate MarkRun(line: string, from: nat, to: nat, mark: char) {
    from <= to <= |line| && forall i :: from <= i < to ==> line[i] == mark
  }

  /** A newline is taken off the end of a line, then a carriage return, and nothing else. */
  lemma ChompExactly(full: string) returns (ending: string)
    ensures full == Chomp(full) + ending && (ending == "" || ending == "\n" || ending == "\r" || ending == "\r\n")
    ensures ending == "" && full != "" ==> full[|full| - 1] != '\n' && full[|full| - 1] != '\r'
    ensures ending == "\n" && Chomp(full) != "" ==> Chomp(full)[|Chomp(full)| - 1] != '\r'
  {
    ending := full[|Chomp(full)|..];
  }

  // ---- Block quotes

  /** At most three spaces, a mark, and a blank if there is one, from at to next. */
  ghost predicate MarkAt(line: string, at: nat, next: nat) {
    exists n: nat :: MarkAfter(line, at, n, next)
  }

  ghost predicate MarkAfter(line: string, at: nat, n: nat, next: nat) {
    && n <= 3 && at + n < |line| && SpaceRun(line, at, at + n) && line[at + n] == '>'
    && next == if at + n + 1 < |line| && IsBlank(line[at + n + 1]) then at + n + 2 else at + n + 1
  }

  ghost predicate NoMark(line: string, at: nat) { forall next: nat :: !MarkAt(line, at, next) }

  ghost predicate MarkBefore(line: string, cuts: seq<nat>, k: nat)
    requires 0 < k < |cuts|
  {
    MarkAt(line, cuts[k - 1], cuts[k])
  }

  /** The cuts end the marks a line begins with, one after the other. */
  ghost predicate QuotedTo(line: string, cuts: seq<nat>) {
    && cuts != [] && cuts[|cuts| - 1] <= |line|
    && (forall k :: 0 < k < |cuts| ==> MarkBefore(line, cuts, k))
    && NoMark(line, cuts[|cuts| - 1])
  }

  lemma MarkHere(line: string, at: nat)
    requires at <= |line|
    ensures QuoteMark(line[at..]) <==> exists next: nat :: MarkAt(line, at, next)
    ensures QuoteMark(line[at..]) ==>
      var next := |line| - |AfterMark(line[at..])|;
      MarkAt(line, at, next) && at < next <= |line| && AfterMark(line[at..]) == line[next..]
  {
    var rest := line[at..];
    var n := Spaces(rest, 3);
    assert forall i :: 0 <= i < |rest| ==> rest[i] == line[at + i];
    if QuoteMark(rest) {
      assert MarkAfter(line, at, n, |line| - |AfterMark(rest)|);
      assert MarkAt(line, at, |line| - |AfterMark(rest)|);
    }
    if next: nat :| MarkAt(line, at, next) {
      var m: nat :| MarkAfter(line, at, m, next);
      SpacesAre(rest, 3, m);
    }
  }

  lemma {:induction false} UnquotedFrom(line: string, at: nat, depth: nat) returns (cuts: seq<nat>)
    requires at <= |line|
    ensures QuotedTo(line, cuts) && cuts[0] == at
    ensures Unquoted(line[at..], depth) == Quoted(line[cuts[|cuts| - 1]..], depth + |cuts| - 1)
    decreases |line| - at
  {
    hide QuoteMark, AfterMark, MarkAt;
    MarkHere(line, at);
    if QuoteMark(line[at..]) {
      var next := |line| - |AfterMark(line[at..])|;
      var rest := UnquotedFrom(line, next, depth + 1);
      cuts := [at] + rest;
      forall k | 0 < k < |cuts| ensures MarkBefore(line, cuts, k) {
        if k > 1 {
          assert MarkBefore(line, rest, k - 1);
        }
      }
    } else {
      cuts := [at];
    }
  }

  /** A line is read inside as many quotes as it has marks at its beginning, after the last
      of them. */
  lemma UnquotedExactly(line: string) returns (cuts: seq<nat>)
    ensures QuotedTo(line, cuts) && cuts[0] == 0
    ensures Unquoted(line, 0) == Quoted(line[cuts[|cuts| - 1]..], |cuts| - 1)
  {
    assert line[0..] == line;
    cuts := UnquotedFrom(line, 0, 0);
  }

  // ---- Columns

  lemma {:induction false} IndentHere(line: string, at: nat)
    requires BlankRun(line, 0, at)
    ensures var indent := IndentFrom(line, at, WidthTo(line, at));
      BlankRun(line, 0, indent.chars) && indent.columns == WidthTo(line, indent.chars)
    decreases |line| - at
  {
    if at < |line| && IsBlank(line[at]) {
      IndentHere(line, at + 1);
    }
  }

  /** The white space a line begins with, whole, and the columns it takes. */
  lemma IndentExactly(line: string)
    ensures var indent := IndentFrom(line, 0, 0);
      && BlankRun(line, 0, indent.chars) && (indent.chars < |line| ==> !IsBlank(line[indent.chars]))
      && indent.columns == WidthTo(line, indent.chars)
  {
    IndentHere(line, 0);
  }

  lemma {:induction false} DedentHere(line: string, at: nat, columns: nat)
    requires BlankRun(line, 0, at) && forall i :: 0 <= i < at ==> WidthTo(line, i) < columns
    ensures forall k: nat :: Drops(line, columns, k) ==> DedentFrom(line, at, WidthTo(line, at), columns) == line[k..]
    ensures (forall k: nat :: !Drops(line, columns, k)) ==> DedentFrom(line, at, WidthTo(line, at), columns) == line
    decreases |line| - at
  {
    if at < |line| && WidthTo(line, at) < columns {
      if IsBlank(line[at]) {
        DedentHere(line, at + 1, columns);
      }
    } else {
      assert Drops(line, columns, at);
    }
  }

  /** Inside a list item a line loses the least white space that takes the item's columns,
      and stays whole when there is not that much before its text. */
  lemma DedentExactly(line: string, columns: nat)
    ensures forall k: nat :: Drops(line, columns, k) ==> DedentFrom(line, 0, 0, columns) == line[k..]
    ensures (forall k: nat :: !Drops(line, columns, k)) ==> DedentFrom(line, 0, 0, columns) == line
  {
    DedentHere(line, 0, columns);
  }

  // ---- List items

  /** A bullet, or up to nine digits and a period or parenthesis. */
  ghost predicate MarkerText(line: string, at: nat, end: nat) {
    && at < end <= |line|
    && ((end == at + 1 && (line[at] == '-' || line[at] == '+' || line[at] == '*'))
        || (at < end - 1 <= at + 9 && DigitRun(line, at, end - 1) && (line[end - 1] == '.' || line[end - 1] == ')')))
  }

  ghost predicate DigitRun(line: string, from: nat, to: nat) {
    from <= to <= |line| && forall i :: from <= i < to ==> '0' <= line[i] <= '9'
  }

  /** The white space after a marker is text's, and how many columns it takes. */
  ghost predicate TextAt(line: string, end: nat, text: nat) {
    end <= text <= |line| && BlankRun(line, end, text) && (text < |line| ==> !IsBlank(line[text]))
  }

  /** A line that begins a list item within three columns of its container: a marker between
      at and end, and then nothing, or white space before what stands at text. */
  ghost predicate ItemText(line: string, container: nat, at: nat, end: nat, text: nat) {
    && TextAt(line, 0, at) && at < |line| && container <= WidthTo(line, at) <= container + 3
    && MarkerText(line, at, end) && TextAt(line, end, text) && (end < |line| ==> end < text)
  }

  /** The column the item's content begins in: its text's, when that stands at most four
      columns after the marker, and else the second after the marker. */
  function ContentColumn(line: string, end: nat, text: nat): nat
    requires end <= text <= |line|
  {
    if end < text && WidthTo(line, text) <= WidthTo(line, end) + 4 then WidthTo(line, text)
    else WidthTo(line, end) + 1
  }

  lemma {:induction false} DigitsAre(line: string, at: nat, most: nat, to: nat)
    requires DigitRun(line, at, to) && to - at <= most
    requires to - at == most || to == |line| || !('0' <= line[to] <= '9')
    ensures Digits(line, at, most) == to - at
    decreases most
  {
    if at < to {
      DigitsAre(line, at + 1, most - 1, to);
    }
  }

  lemma MarkerHere(line: string, at: nat)
    requires at < |line|
    ensures forall end: nat ::
      MarkerText(line, at, end) <==> MarkerWidth(line, at) > 0 && end == at + MarkerWidth(line, at)
  {
    var width := MarkerWidth(line, at);
    assert width > 0 ==> MarkerText(line, at, at + width) by { WidthIsMarker(line, at); }
    forall end: nat | MarkerText(line, at, end) ensures width == end - at {
      MarkerIsWidth(line, at, end);
    }
    hide MarkerText, MarkerWidth;
  }

  lemma WidthIsMarker(line: string, at: nat)
    requires at < |line|
    ensures MarkerWidth(line, at) > 0 ==> MarkerText(line, at, at + MarkerWidth(line, at))
  {
    hide Digits;
  }

  lemma MarkerIsWidth(line: string, at: nat, end: nat)
    requires at < |line| && MarkerText(line, at, end)
    ensures MarkerWidth(line, at) == end - at
  {
    if !IsBullet(line[at]) {
      DigitsAre(line, at, 9, end - 1);
      hide Digits;
    }
  }

  lemma {:induction false} WidthGrows(line: string, a: nat, b: nat)
    requires a <= b <= |line|
    ensures WidthTo(line, a) + (b - a) <= WidthTo(line, b)
    decreases b
  {
    if a < b {
      WidthGrows(line, a, b - 1);
    }
  }

  lemma {:induction false} MarkerColumns(line: string, at: nat, end: nat)
    requires at <= end <= |line| && forall i :: at <= i < end ==> line[i] != '\t'
    ensures WidthTo(line, end) == WidthTo(line, at) + end - at
    decreases end
  {
    if at < end {
      MarkerColumns(line, at, end - 1);
    }
  }

  /** Four columns of white space are padding; more are one column and the item's own. */
  lemma {:induction false} PaddingIs(line: string, end: nat, at: nat, text: nat)
    requires end <= at && TextAt(line, at, text) && WidthTo(line, at) <= WidthTo(line, end) + 4
    requires WidthTo(line, end) <= WidthTo(line, at)
    ensures var p := PaddingFrom(line, at, WidthTo(line, end), WidthTo(line, at) - WidthTo(line, end));
      if WidthTo(line, text) <= WidthTo(line, end) + 4 then
        p.columns == WidthTo(line, text) - WidthTo(line, end) && p.at == text
      else p.at < text && at <= p.at && (at < p.at ==> p.columns > 0)
    decreases |line| - at
  {
    hide WidthTo;
    if at < text {
      WidthGrows(line, at, at + 1);
      WidthGrows(line, at + 1, text);
      NextWidth(line, end, at);
      if WidthTo(line, at + 1) <= WidthTo(line, end) + 4 {
        PaddingIs(line, end, at + 1, text);
      }
    }
  }

  lemma NextWidth(line: string, end: nat, at: nat)
    requires end <= at < |line| && IsBlank(line[at]) && WidthTo(line, end) <= WidthTo(line, at)
    ensures Widened(line[at], WidthTo(line, end), WidthTo(line, at) - WidthTo(line, end))
         == WidthTo(line, at + 1) - WidthTo(line, end)
  {
  }

  /** A line begins a list item, at this content column, exactly when its characters say so. */
  lemma ListContentExactly(full: string, container: nat)
    ensures var line := Chomp(full);
      && (forall at: nat, end: nat, text: nat :: ItemText(line, container, at, end, text) ==>
            ListContent(full, container) == Some(ContentColumn(line, end, text)))
      && ((forall at: nat, end: nat, text: nat :: !ItemText(line, container, at, end, text)) ==>
            ListContent(full, container) == None)
  {
    hide Chomp, MarkerWidth, PaddingFrom, WidthTo;
    var line := Chomp(full);
    forall at: nat, end: nat, text: nat | ItemText(line, container, at, end, text)
      ensures ListContent(full, container) == Some(ContentColumn(line, end, text))
    {
      ItemIsFound(full, container, at, end, text);
    }
    if ListContent(full, container).Some? {
      var at, end, text := FoundItem(full, container);
    }
  }

  lemma IndentIs(line: string, at: nat)
    requires TextAt(line, 0, at)
    ensures IndentFrom(line, 0, 0) == Indent(WidthTo(line, at), at)
  {
    hide WidthTo, IndentFrom;
    IndentExactly(line);
    var chars := IndentFrom(line, 0, 0).chars;
    assert !(chars < at) && !(at < chars);
  }

  lemma {:induction false} TextAfter(line: string, end: nat) returns (text: nat)
    requires end <= |line|
    ensures TextAt(line, end, text)
    decreases |line| - end
  {
    if end < |line| && IsBlank(line[end]) {
      text := TextAfter(line, end + 1);
    } else {
      text := end;
    }
  }

  /** What ListContent makes of a marker. */
  lemma ItemIsFound(full: string, container: nat, at: nat, end: nat, text: nat)
    requires ItemText(Chomp(full), container, at, end, text)
    ensures ListContent(full, container) == Some(ContentColumn(Chomp(full), end, text))
  {
    hide Chomp, MarkerWidth, WidthTo, IndentFrom, PaddingFrom;
    var line := Chomp(full);
    IndentIs(line, at);
    MarkerHere(line, at);
    MarkerColumns(line, at, end);
    PaddingIs(line, end, end, text);
    WidthGrows(line, end, text);
  }

  lemma FoundItem(full: string, container: nat) returns (at: nat, end: nat, text: nat)
    requires ListContent(full, container).Some?
    ensures ItemText(Chomp(full), container, at, end, text)
  {
    hide Chomp, MarkerWidth, WidthTo, IndentFrom, PaddingFrom;
    var line := Chomp(full);
    IndentExactly(line);
    at := IndentFrom(line, 0, 0).chars;
    MarkerHere(line, at);
    end := at + MarkerWidth(line, at);
    text := TextAfter(line, end);
  }

  lemma {:induction false} UnwoundHere(indents: seq<nat>, indent: nat)
    ensures var left := Unwound(indents, indent);
      left <= indents && forall k :: |left| <= k < |indents| ==> indents[k] > indent
  {
    if indents != [] && indent < indents[|indents| - 1] {
      UnwoundHere(indents[..|indents| - 1], indent);
    }
  }

  /** A line whose text begins in this column has left the list items from left on, which all
      begin to the right of it, and is in the others; it may begin one itself. */
  ghost predicate Leaves(indents: seq<nat>, left: nat, column: nat, content: string, next: seq<nat>) {
    && left <= |indents| && (left > 0 ==> indents[left - 1] <= column)
    && (forall k :: left <= k < |indents| ==> indents[k] > column)
    && next == indents[..left] + (match ListContent(content, Innermost(indents[..left]))
                                  case Some(at) => [at]
                                  case None => [])
  }

  /** A line with text leaves the list items that begin to the right of it, from the innermost
      out, and begins another when its characters say so; a line without changes nothing. */
  lemma TrackedExactly(content: string, indents: seq<nat>, at: nat)
    requires TextAt(content, 0, at)
    ensures !HasText(content) ==> Tracked(content, indents) == indents
    ensures HasText(content) ==>
      exists left: nat :: Leaves(indents, left, WidthTo(content, at), content, Tracked(content, indents))
  {
    hide ListContent, WidthTo, IndentFrom, IsSpace, Trim, Unwound, HasText;
    IndentIs(content, at);
    hide TextAt;
    UnwoundHere(indents, Columns(content));
    var kept := Unwound(indents, Columns(content));
    assert indents[..|kept|] == kept && kept + [] == kept;
    assert HasText(content) ==> Leaves(indents, |kept|, WidthTo(content, at), content, Tracked(content, indents));
  }

  // ---- Headings and rules

  lemma {:induction false} HashesAre(text: string, at: nat)
    requires at <= |text|
    ensures var to := at + Hashes(text, at); MarkRun(text, at, to, '#') && (to < |text| ==> text[to] != '#')
    decreases |text| - at
  {
    if at < |text| && text[at] == '#' {
      HashesAre(text, at + 1);
    }
  }

  /** One to six number signs, and then nothing or a blank. */
  ghost predicate HeadingText(text: string, n: nat) {
    1 <= n <= 6 && MarkRun(text, 0, n, '#') && (n < |text| ==> IsBlank(text[n]))
  }

  lemma HeadingExactly(text: string)
    ensures Heading(text) <==> exists n: nat :: HeadingText(text, n)
  {
    HashesAre(text, 0);
    var end := Hashes(text, 0);
    if Heading(text) {
      assert HeadingText(text, end);
    }
    if n: nat :| HeadingText(text, n) {
      assert !(end < n) && !(n < end);
    }
  }

  /** Rule marks of one kind, three or more, among blanks. */
  ghost predicate RuleText(text: string, mark: char, a: nat, b: nat, c: nat) {
    && (mark == '*' || mark == '-' || mark == '_')
    && (forall i :: 0 <= i < |text| ==> text[i] == mark || IsBlank(text[i]))
    && a < b < c < |text| && text[a] == text[b] == text[c] == mark
  }

  /** How many marks stand from at on, when nothing else but blanks does. */
  lemma {:induction false} MarksFrom(text: string, at: nat, mark: char) returns (where: seq<nat>)
    requires at <= |text| && IsRule(mark)
    ensures var n := ThematicFrom(text, at, mark);
      && (n.Some? <==> forall i :: at <= i < |text| ==> text[i] == mark || IsBlank(text[i]))
      && (n.Some? ==> |where| == n.value)
    ensures (forall k :: 0 <= k < |where| ==> at <= where[k] < |text| && text[where[k]] == mark)
    ensures forall k, l :: 0 <= k < l < |where| ==> where[k] < where[l]
    ensures forall i :: at <= i < |text| && text[i] == mark ==> i in where
    decreases |text| - at
  {
    if at == |text| {
      where := [];
    } else {
      where := MarksFrom(text, at + 1, mark);
      if text[at] == mark {
        where := [at] + where;
      }
    }
  }

  lemma RuleExactly(text: string)
    ensures ThematicBreak(text) <==> exists mark, a: nat, b: nat, c: nat :: RuleText(text, mark, a, b, c)
  {
    hide ThematicFrom;
    var at := FirstText(text, 0);
    FirstTextIs(text, 0);
    if ThematicBreak(text) {
      var where := MarksFrom(text, at, text[at]);
      assert RuleText(text, text[at], where[0], where[1], where[2]);
    }
    if mark, a: nat, b: nat, c: nat :| RuleText(text, mark, a, b, c) {
      FirstIsMark(text, mark, a);
      var where := MarksFrom(text, at, mark);
      ThreeOf(where, a, b, c);
    }
  }

  lemma {:induction false} FirstTextIs(text: string, at: nat)
    requires at <= |text|
    ensures BlankRun(text, at, FirstText(text, at))
    decreases |text| - at
  {
    if at < |text| && IsBlank(text[at]) {
      FirstTextIs(text, at + 1);
    }
  }

  lemma FirstIsMark(text: string, mark: char, a: nat)
    requires a < |text| && text[a] == mark && IsRule(mark)
    requires forall i :: 0 <= i < |text| ==> text[i] == mark || IsBlank(text[i])
    ensures FirstText(text, 0) <= a && text[FirstText(text, 0)] == mark
  {
    FirstTextIs(text, 0);
    assert !(a < FirstText(text, 0));
  }

  lemma ThreeOf(where: seq<nat>, a: nat, b: nat, c: nat)
    requires a in where && b in where && c in where && a < b < c
    ensures |where| >= 3
  {
    var i :| 0 <= i < |where| && where[i] == a;
    var j :| 0 <= j < |where| && where[j] == b;
    var k :| 0 <= k < |where| && where[k] == c;
    assert i != j && j != k && i != k;
  }

  ghost predicate ParagraphText(line: string, n: nat) {
    && n <= 3 && n < |line| && SpaceRun(line, 0, n) && !IsBlank(line[n])
    && (forall k: nat :: !HeadingText(line[n..], k))
    && (forall mark, a: nat, b: nat, c: nat :: !RuleText(line[n..], mark, a, b, c))
  }

  /** A paragraph may go on after a line whose text stands within three spaces of its edge and
      is neither a heading nor a rule. */
  lemma ContinuesExactly(full: string)
    ensures Continues(full) <==> exists n: nat :: ParagraphText(Chomp(full), n)
  {
    hide Chomp, Heading, ThematicBreak, HeadingText, RuleText, WidthTo;
    var line := Chomp(full);
    IndentExactly(line);
    var n := IndentFrom(line, 0, 0).chars;
    HeadingExactly(line[n..]);
    RuleExactly(line[n..]);
    if Continues(full) {
      ColumnsAreChars(line);
      assert ParagraphText(line, n);
    }
    if m: nat :| ParagraphText(line, m) {
      IndentIs(line, m);
      SpaceColumns(line, m);
    }
  }

  lemma {:induction false} SpaceColumns(line: string, n: nat)
    requires SpaceRun(line, 0, n)
    ensures WidthTo(line, n) == n
  {
    if n > 0 {
      SpaceColumns(line, n - 1);
    }
  }

  // ---- Fences

  /** A delimiter where it stands: n spaces and k marks. */
  ghost predicate DelimiterAt(text: string, mark: char, n: nat, k: nat) {
    && (mark == '`' || mark == '~') && k >= 3 && n <= 3 && SpaceRun(text, 0, n) && MarkRun(text, n, n + k, mark)
    && (n + k < |text| ==> text[n + k] != mark)
  }

  /** A line that opens a fence of k marks: at most three spaces, the marks, and no backtick
      after backticks. */
  ghost predicate Opening(text: string, mark: char, k: nat) {
    exists n: nat :: DelimiterAt(text, mark, n, k) && (mark == '`' ==> NoTickFrom(text, n + k))
  }

  ghost predicate NoTickFrom(text: string, at: nat) { forall i :: at <= i < |text| ==> text[i] != '`' }

  /** A line that closes a fence of k marks: at most three spaces, as many marks or more, and
      nothing after them but white space. */
  ghost predicate Closing(text: string, mark: char, k: nat) {
    exists n: nat, m: nat :: k <= m && DelimiterAt(text, mark, n, m) && SpaceFrom(text, n + m)
  }

  ghost predicate SpaceFrom(text: string, at: nat) { forall i :: at <= i < |text| ==> IsSpace(text[i]) }

  lemma {:induction false} RunIs(line: string, at: nat, to: nat, mark: char)
    requires MarkRun(line, at, to, mark) && (to < |line| ==> line[to] != mark)
    ensures RunOf(line, at, mark) == to - at
    decreases |line| - at
  {
    if at < to {
      RunIs(line, at + 1, to, mark);
    }
  }

  lemma {:induction false} RunStops(line: string, at: nat, mark: char)
    requires at <= |line|
    ensures var to := at + RunOf(line, at, mark); MarkRun(line, at, to, mark) && (to < |line| ==> line[to] != mark)
    decreases |line| - at
  {
    if at < |line| && line[at] == mark {
      RunStops(line, at + 1, mark);
    }
  }

  lemma {:induction false} SpacesAre(line: string, most: nat, n: nat)
    requires n <= most && SpaceRun(line, 0, n) && n < |line| && line[n] != ' '
    ensures Spaces(line, most) == n
  {
    if n > 0 {
      SpacesAre(line[1..], most - 1, n - 1);
    }
  }

  /** What is cut off a line's end is no mark. */
  lemma Chomped(full: string)
    ensures |Chomp(full)| <= |full| && Chomp(full) == full[..|Chomp(full)|]
    ensures forall i :: |Chomp(full)| <= i < |full| ==> full[i] == '\n' || full[i] == '\r'
  {
  }

  lemma DelimiterFound(full: string, mark: char, n: nat, k: nat)
    requires DelimiterAt(full, mark, n, k)
    ensures FenceOf(full) == Some(Delimiter(mark, k, Chomp(full)[n + k..])) && n + k <= |Chomp(full)|
  {
    hide Chomp, Spaces, RunOf;
    var line := Chomp(full);
    Chomped(full);
    assert full[n + k - 1] == mark;
    assert forall i :: 0 <= i < |line| ==> line[i] == full[i];
    SpacesAre(line, 3, n);
    RunIs(line, n, n + k, mark);
  }

  lemma FoundDelimiter(full: string) returns (n: nat)
    requires FenceOf(full).Some?
    ensures DelimiterAt(full, FenceOf(full).value.mark, n, FenceOf(full).value.run)
  {
    hide Chomp, RunOf;
    var line, d := Chomp(full), FenceOf(full).value;
    Chomped(full);
    n := Spaces(line, 3);
    assert forall i :: 0 <= i < |line| ==> line[i] == full[i];
    RunStops(line, n, d.mark);
  }

  /** The delimiters that open a fence are exactly those lines. */
  lemma OpensExactly(text: string, mark: char, k: nat)
    ensures Opening(text, mark, k) <==>
      Opens(FenceOf(text)) && FenceOf(text).value.mark == mark && FenceOf(text).value.run == k
  {
    hide FenceOf, Chomp, DelimiterAt, NoTickFrom;
    if Opening(text, mark, k) {
      var n: nat :| DelimiterAt(text, mark, n, k) && (mark == '`' ==> NoTickFrom(text, n + k));
      DelimiterFound(text, mark, n, k);
      TailWithout(text, n + k);
    }
    if Opens(FenceOf(text)) && FenceOf(text).value.mark == mark && FenceOf(text).value.run == k {
      var n := FoundDelimiter(text);
      DelimiterFound(text, mark, n, k);
      TailWithout(text, n + k);
    }
  }

  lemma TailWithout(text: string, at: nat)
    requires at <= |Chomp(text)|
    ensures '`' !in Chomp(text)[at..] <==> NoTickFrom(text, at)
  {
    hide Chomp;
    Chomped(text);
    var tail := Chomp(text)[at..];
    forall i | at <= i < |text| && text[i] == '`' ensures '`' in tail {
      assert tail[i - at] == '`';
    }
    assert forall i :: 0 <= i < |tail| ==> tail[i] == text[at + i];
  }

  lemma TailIsSpace(text: string, at: nat)
    requires at <= |Chomp(text)|
    ensures HasNoText(Chomp(text)[at..]) <==> SpaceFrom(text, at)
  {
    hide Chomp, Trim, IsSpace;
    Chomped(text);
    NewlinesAreSpace();
    var tail := Chomp(text)[at..];
    assert forall i :: 0 <= i < |tail| ==> tail[i] == text[at + i];
    if !HasNoText(tail) {
      var i :| 0 <= i < |tail| && !IsSpace(tail[i]);
      assert !IsSpace(text[at + i]);
    } else {
      forall i | at <= i < |text| ensures IsSpace(text[i]) {
        if i < |Chomp(text)| {
          assert tail[i - at] == text[i];
        }
      }
    }
  }

  lemma NewlinesAreSpace()
    ensures IsSpace('\n') && IsSpace('\r') && !IsSpace('`') && !IsSpace('~')
  {
  }

  /** The lines that close a fence are exactly those. */
  lemma ClosesExactly(text: string, mark: char, k: nat)
    requires (mark == '`' || mark == '~') && k >= 3
    ensures Closing(text, mark, k) <==>
      FenceOf(text).Some? && FenceOf(text).value.mark == mark && FenceOf(text).value.run >= k
      && HasNoText(FenceOf(text).value.tail)
  {
    hide FenceOf, Chomp, Trim, IsSpace, DelimiterAt, SpaceFrom;
    if Closing(text, mark, k) {
      var n: nat, m: nat :| k <= m && DelimiterAt(text, mark, n, m) && SpaceFrom(text, n + m);
      DelimiterFound(text, mark, n, m);
      TailIsSpace(text, n + m);
    }
    if FenceOf(text).Some? && FenceOf(text).value.mark == mark && FenceOf(text).value.run >= k
       && HasNoText(FenceOf(text).value.tail) {
      var m := FenceOf(text).value.run;
      var n := FoundDelimiter(text);
      DelimiterFound(text, mark, n, m);
      TailIsSpace(text, n + m);
    }
  }

  /** What a line shows inside its quotes, measured from a column. */
  function Inside(line: string, column: nat): string { DedentFrom(Unquoted(line, 0).content, 0, 0, column) }

  /** Where the innermost list item begins that a fence on this line stands in. */
  function ItemColumn(lines: seq<string>, o: nat): nat
    requires o < |lines|
  {
    Innermost(FenceAt(lines, o + 1).indents)
  }

  /** Where no fence is open, or the line leaves the quote of the one that is, the line is
      taken out exactly when it opens a fence; the fence has its marks and its depth. */
  lemma FenceStarts(lines: seq<string>, o: nat)
    requires o < |lines|
    requires FenceAt(lines, o).fence.Fence? ==> Unquoted(lines[o], 0).depth < FenceAt(lines, o).fence.depth
    ensures forall mark, k: nat :: Opening(Inside(lines[o], ItemColumn(lines, o)), mark, k) ==>
      FencedLine(lines, o) && FenceAt(lines, o + 1).fence == Fence(mark, k, Unquoted(lines[o], 0).depth)
    ensures (forall mark, k: nat :: !Opening(Inside(lines[o], ItemColumn(lines, o)), mark, k)) ==>
      !FencedLine(lines, o) && FenceAt(lines, o + 1).fence.NoFence?
  {
    hide Unquoted, DedentFrom, FenceOf, Tracked, Opening;
    var text := Inside(lines[o], ItemColumn(lines, o));
    forall mark, k: nat
      ensures Opening(text, mark, k) <==>
        Opens(FenceOf(text)) && FenceOf(text).value.mark == mark && FenceOf(text).value.run == k
    {
      OpensExactly(text, mark, k);
    }
    var d := FenceOf(text);
    assert Opens(d) ==> Opening(text, d.value.mark, d.value.run);
  }

  /** The line stays in the quote and does not close a fence of these marks in it. */
  ghost predicate KeepsOpen(line: string, mark: char, k: nat, depth: nat, column: nat) {
    var q := Unquoted(line, 0);
    q.depth >= depth && !(q.depth == depth && Closing(Inside(line, column), mark, k))
  }

  lemma FenceMarks(lines: seq<string>, i: nat)
    requires i <= |lines|
    ensures FenceAt(lines, i).fence.Fence? ==> FenceAt(lines, i).fence.mark in "`~"
  {
    hide Unquoted, DedentFrom, FenceOf, Tracked, Trim;
  }

  /** The lines that close a fence that is open are exactly those of its quote. */
  lemma ClosesFenceExactly(fence: Fence, line: string, indents: seq<nat>)
    requires fence.Fence? && fence.mark in "`~" && fence.length >= 3
    ensures ClosesFence(fence, Unquoted(line, 0), indents) <==>
      Unquoted(line, 0).depth == fence.depth && Closing(Inside(line, Innermost(indents)), fence.mark, fence.length)
  {
    ClosesExactly(Inside(line, Innermost(indents)), fence.mark, fence.length);
    hide FenceOf, DedentFrom, Unquoted, Innermost, Closing, HasNoText;
  }

  lemma LineUnderFence(lines: seq<string>, i: nat)
    requires i < |lines| && FenceAt(lines, i).fence.Fence?
    ensures var s := FenceAt(lines, i);
      var fence, q, column := s.fence, Unquoted(lines[i], 0), Innermost(s.indents);
      && (KeepsOpen(lines[i], fence.mark, fence.length, fence.depth, column) ==> FenceAt(lines, i + 1) == s)
      && (q.depth >= fence.depth ==> FencedLine(lines, i))
      && (q.depth == fence.depth && Closing(Inside(lines[i], column), fence.mark, fence.length) ==>
            FenceAt(lines, i + 1).fence.NoFence?)
  {
    FenceInvariant(lines, i);
    FenceMarks(lines, i);
    hide Unquoted, Inside, DelimiterIn, Innermost, Tracked, Closing, ClosesFence;
    var s := FenceAt(lines, i);
    ClosesFenceExactly(s.fence, lines[i], s.indents);
  }

  /** A fence reaches as far as no line, staying in its quote and inside its list item, closes
      it with as many marks: all those lines are taken out, and the one that closes it too,
      after which none is open. */
  lemma {:induction false} FenceStands(lines: seq<string>, o: nat, i: nat)
    requires o < i < |lines| && FenceAt(lines, o + 1).fence.Fence?
    requires var fence := FenceAt(lines, o + 1).fence;
      forall j :: o < j < i ==> KeepsOpen(lines[j], fence.mark, fence.length, fence.depth, ItemColumn(lines, o))
    ensures FenceAt(lines, i) == FenceAt(lines, o + 1)
    ensures var fence, q := FenceAt(lines, o + 1).fence, Unquoted(lines[i], 0);
      && (q.depth >= fence.depth ==> FencedLine(lines, i))
      && (q.depth == fence.depth && Closing(Inside(lines[i], ItemColumn(lines, o)), fence.mark, fence.length) ==>
            FenceAt(lines, i + 1).fence.NoFence?)
    decreases i
  {
    hide FenceAt, FencedLine, KeepsOpen, Closing, Unquoted;
    if i > o + 1 {
      FenceStands(lines, o, i - 1);
      LineUnderFence(lines, i - 1);
    }
    LineUnderFence(lines, i);
  }

  // ---- Indented code

  /** A line is read in the quotes it is in, unless it has text, is in fewer than the line
      before, and carries on a paragraph that is open there. */
  lemma DepthExactly(lines: seq<string>, i: nat)
    requires i < |lines|
    ensures var q := Unquoted(lines[i], 0);
      DepthOf(lines, i)
      == if i > 0 && q.depth < DepthOf(lines, i - 1) && HasText(q.content)
            && ParagraphOpen(lines, i, DepthOf(lines, i - 1))
         then DepthOf(lines, i - 1)
         else q.depth
  {
    hide Unquoted, IndentStep, ParagraphOpen, HasText, Trim, IndentAt;
    if i > 0 {
      DepthNext(lines, i - 1);
      FlagsAreTrue(lines, i, DepthOf(lines, i - 1));
    } else {
      FirstDepth(lines);
    }
  }

  lemma FirstDepth(lines: seq<string>)
    ensures IndentAt(lines, 0).depth == 0
  {
  }

  /** The list items open in a block quote before a line: those the last line of this quote
      left, and none once a line of a shallower one came in between. */
  function StackAt(lines: seq<string>, i: nat, depth: nat): seq<nat>
    requires i <= |lines|
  {
    if i == 0 || DepthOf(lines, i - 1) < depth then []
    else if DepthOf(lines, i - 1) > depth then StackAt(lines, i - 1, depth)
    else Tracked(Unquoted(lines[i - 1], 0).content, StackAt(lines, i - 1, depth))
  }

  lemma ContainerTracks(c: Container, content: string)
    ensures ContainerStep(c, content).next.indents == Tracked(content, c.indents)
  {
    hide ListContent, Continues, IndentFrom, Unwound, Trim;
  }

  lemma {:induction false} StackKept(lines: seq<string>, i: nat, depth: nat)
    requires i <= |lines| && depth <= IndentAt(lines, i).depth
    ensures IndentAt(lines, i).states[depth].indents == StackAt(lines, i, depth)
    decreases i
  {
    hide ContainerStep, Unquoted, HasNoText, Deepened, Tracked;
    if i > 0 {
      var s, now := IndentAt(lines, i - 1), DepthOf(lines, i - 1);
      DeepenedAt(s, now, depth);
      DepthNext(lines, i - 1);
      ContainerTracks(Deepened(s, now)[now], Unquoted(lines[i - 1], 0).content);
      if depth <= s.depth {
        StackKept(lines, i - 1, depth);
      } else {
        NoStackAbove(lines, i - 1, depth);
      }
    }
  }

  lemma NoStackAbove(lines: seq<string>, i: nat, depth: nat)
    requires i <= |lines| && IndentAt(lines, i).depth < depth
    ensures StackAt(lines, i, depth) == []
  {
    hide IndentAt, DepthOf, Tracked, Unquoted;
    if i > 0 {
      DepthNext(lines, i - 1);
    }
  }

  /** What a line finds in its block quote are those list items. */
  lemma StackExactly(lines: seq<string>, i: nat)
    requires i < |lines|
    ensures Found(lines, i).indents == StackAt(lines, i, DepthOf(lines, i))
  {
    hide IndentAt, DepthOf, Tracked, Unquoted, Deepened;
    DeepenedAt(IndentAt(lines, i), DepthOf(lines, i), DepthOf(lines, i));
    if DepthOf(lines, i) <= IndentAt(lines, i).depth {
      StackKept(lines, i, DepthOf(lines, i));
    } else {
      NoStackAbove(lines, i, DepthOf(lines, i));
    }
  }

  /** The line's text begins at position at, no list item begins there, and it stands four
      columns or more into the innermost item that is open and does not begin right of it. */
  ghost predicate StandsIn(lines: seq<string>, i: nat, at: nat, left: nat)
    requires i < |lines|
  {
    var content, indents := Unquoted(lines[i], 0).content, StackAt(lines, i, DepthOf(lines, i));
    && HasText(content) && TextAt(content, 0, at) && left <= |indents|
    && (left > 0 ==> indents[left - 1] <= WidthTo(content, at))
    && (forall k :: left <= k < |indents| ==> indents[k] > WidthTo(content, at))
    && (forall a: nat, end: nat, text: nat :: !ItemText(Chomp(content), Innermost(indents[..left]), a, end, text))
    && WidthTo(content, at) >= Innermost(indents[..left]) + 4
  }

  lemma StandsExactly(lines: seq<string>, i: nat)
    requires i < |lines|
    ensures FarIn(lines, i) <==> exists at: nat, left: nat :: StandsIn(lines, i, at, left)
  {
    hide DepthOf, Unquoted, ItemText, WidthTo, IndentFrom, ListContent, Chomp, HasText, Trim, Found, StackAt, Unwound;
    var content, indents := Unquoted(lines[i], 0).content, StackAt(lines, i, DepthOf(lines, i));
    StackExactly(lines, i);
    IndentExactly(content);
    var at := IndentFrom(content, 0, 0).chars;
    UnwoundHere(indents, Columns(content));
    var kept := Unwound(indents, Columns(content));
    assert indents[..|kept|] == kept;
    ListContentExactly(content, Innermost(kept));
    if FarIn(lines, i) {
      assert StandsIn(lines, i, at, |kept|);
    }
    if a: nat, left: nat :| StandsIn(lines, i, a, left) {
      IndentIs(content, a);
      SameLeft(indents, left, |kept|, WidthTo(content, a));
    }
  }

  lemma SameLeft(indents: seq<nat>, a: nat, b: nat, column: nat)
    requires a <= |indents| && (a > 0 ==> indents[a - 1] <= column)
    requires forall k :: a <= k < |indents| ==> indents[k] > column
    requires b <= |indents| && (b > 0 ==> indents[b - 1] <= column)
    requires forall k :: b <= k < |indents| ==> indents[k] > column
    ensures a == b
  {
  }

  /** A line of the quote whose text does not stand in, and after which a paragraph may go on. */
  ghost predicate ParagraphLine(lines: seq<string>, j: nat, depth: nat)
    requires j < |lines|
  {
    && DepthOf(lines, j) == depth && HasText(Unquoted(lines[j], 0).content)
    && (forall at: nat, left: nat :: !StandsIn(lines, j, at, left))
    && exists n: nat :: ParagraphText(Chomp(Unquoted(lines[j], 0).content), n)
  }

  /** From that line on, every line up to i is quoted deeper or stands in. */
  ghost predicate CarriedOn(lines: seq<string>, j: nat, i: nat, depth: nat)
    requires j < i <= |lines|
  {
    && ParagraphLine(lines, j, depth)
    && forall k :: j < k < i ==>
         DepthOf(lines, k) > depth
         || (DepthOf(lines, k) == depth && exists at: nat, left: nat :: StandsIn(lines, k, at, left))
  }

  lemma ParagraphExactly(lines: seq<string>, i: nat, depth: nat)
    requires i <= |lines|
    ensures ParagraphOpen(lines, i, depth) <==> exists j: nat :: j < i && CarriedOn(lines, j, i, depth)
  {
    hide DepthOf, Unquoted, StandsIn, ParagraphText, Continues, HasText, Trim, FarIn, Chomp;
    forall j: nat | j < i
      ensures FarIn(lines, j) <==> exists at: nat, left: nat :: StandsIn(lines, j, at, left)
      ensures BeginsParagraph(lines, j) && DepthOf(lines, j) == depth <==> ParagraphLine(lines, j, depth)
    {
      StandsExactly(lines, j);
      ContinuesExactly(Unquoted(lines[j], 0).content);
    }
    hide BeginsParagraph, ParagraphLine;
    forall j: nat | j < i ensures LeftOpen(lines, j, i, depth) <==> CarriedOn(lines, j, i, depth) {
    }
  }

  /** A line is taken out as indented code exactly when it stands in, and no line of its quote
      opened a paragraph that every line since has carried on. */
  lemma IndentedByText(lines: seq<string>, i: nat)
    requires i < |lines|
    ensures IndentedLine(lines, i) <==>
      && (exists at: nat, left: nat :: StandsIn(lines, i, at, left))
      && !exists j: nat :: j < i && CarriedOn(lines, j, i, DepthOf(lines, i))
  {
    hide IndentedLine, FarIn, ParagraphOpen, StandsIn, CarriedOn, DepthOf;
    IndentedExactly(lines, i);
    StandsExactly(lines, i);
    ParagraphExactly(lines, i, DepthOf(lines, i));
  }
}
