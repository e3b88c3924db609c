/** dismissPath of internal/crq/dismiss.go: a path rendered so that it is exactly
    one code span, whatever backticks the file name holds. */
module DismissPath {
  import opened Text
  import opened CodeSpans

  /** strings.Fields: the maximal runs of non-space characters. */
  function Fields(s: string): (fields: seq<string>)
    ensures fields == [] <==> TrimLeft(s) == ""
    ensures fields != [] ==> fields[0] != ""
    decreases |s|
  {
    var trimmed := TrimLeft(s);
    if trimmed == "" then []
    else
      var n := FieldLength(trimmed);
      [trimmed[..n]] + Fields(trimmed[n..])
  }

  lemma TrimLeftEmpty(s: string)
    ensures TrimLeft(s) == "" <==> !HasText(s)
  {
    var r := TrimLeft(s);
    if r != "" {
      assert s[|s| - |r|] == r[0];
    }
  }

  function FieldLength(s: string): (n: nat)
    ensures n <= |s| && forall i :: 0 <= i < n ==> !IsSpace(s[i])
    ensures n < |s| ==> IsSpace(s[n])
  {
    if s == "" || IsSpace(s[0]) then 0 else 1 + FieldLength(s[1..])
  }

  /** The path on one line, its white space collapsed. */
  function OneLine(path: string): string { Join(Fields(path), " ") }

  // ---- Which text that is

  ghost predicate Blank(s: string) { forall i :: 0 <= i < |s| ==> IsSpace(s[i]) }

  ghost predicate Word(s: string) { s != "" && forall i :: 0 <= i < |s| ==> !IsSpace(s[i]) }

  /** The words with a gap before, between and after them. */
  function Woven(gaps: seq<string>, words: seq<string>): string
    requires |gaps| == |words| + 1
  {
    if words == [] then gaps[0] else gaps[0] + words[0] + Woven(gaps[1..], words[1..])
  }

  /** The gaps are white space, and no two words touch; nor does the first, after one. */
  ghost predicate Spacing(gaps: seq<string>, after: bool) {
    gaps != [] && Blank(gaps[0]) && (|gaps| > 1 ==> (after ==> gaps[0] != "") && Spacing(gaps[1..], true))
  }

  lemma {:induction false} FieldsWoven(s: string) returns (gaps: seq<string>)
    ensures |gaps| == |Fields(s)| + 1 && Woven(gaps, Fields(s)) == s
    ensures Spacing(gaps, s != "" && IsSpace(s[0]))
    ensures forall word :: word in Fields(s) ==> Word(word)
    decreases |s|
  {
    hide Fields, IsSpace, TrimLeft, FieldLength, Word, Woven, Spacing;
    var trimmed := TrimLeft(s);
    if trimmed == "" {
      gaps := [s];
      OnlyGap(s);
    } else {
      FieldsCons(s);
      FirstField(s);
      var n := FieldLength(trimmed);
      var lead, word, after := s[..|s| - |trimmed|], trimmed[..n], trimmed[n..];
      ThreeParts(s, trimmed, n);
      var rest := FieldsWoven(after);
      hide Blank;
      gaps := [lead] + rest;
      WovenCons(lead, word, rest, Fields(after));
    }
  }

  lemma ThreeParts(s: string, tail: string, n: nat)
    requires n <= |tail| <= |s| && tail == s[|s| - |tail|..]
    ensures s == s[..|s| - |tail|] + tail[..n] + tail[n..]
  {
  }

  lemma OnlyGap(s: string)
    requires Blank(s)
    ensures Woven([s], []) == s && Spacing([s], true) && Spacing([s], false)
  {
  }

  lemma FieldsCons(s: string)
    requires TrimLeft(s) != ""
    ensures var trimmed := TrimLeft(s);
      var n := FieldLength(trimmed);
      && Fields(s) == [trimmed[..n]] + Fields(trimmed[n..])
      && (trimmed[n..] == "" ==> Fields(trimmed[n..]) == [])
  {
  }

  lemma FirstField(s: string)
    requires TrimLeft(s) != ""
    ensures var trimmed := TrimLeft(s);
      var n := FieldLength(trimmed);
      && Word(trimmed[..n]) && (trimmed[n..] != "" ==> IsSpace(trimmed[n..][0]))
      && Blank(s[..|s| - |trimmed|]) && (IsSpace(s[0]) ==> |trimmed| < |s|)
  {
    hide IsSpace;
  }

  lemma WovenCons(lead: string, word: string, gaps: seq<string>, words: seq<string>)
    requires |gaps| == |words| + 1
    ensures Woven([lead] + gaps, [word] + words) == lead + word + Woven(gaps, words)
    ensures forall before, after ::
      Spacing(gaps, after) && (after || words == []) && Blank(lead) && (before ==> lead != "") ==>
        Spacing([lead] + gaps, before)
  {
    assert ([lead] + gaps)[1..] == gaps && ([word] + words)[1..] == words;
  }

  /** One space between any two words, and after one that leads. */
  function Singles(n: nat, after: bool): (gaps: seq<string>)
    ensures |gaps| == n + 1
  {
    if n == 0 then [""] else [if after then " " else ""] + Singles(n - 1, true)
  }

  lemma {:induction false} JoinedAfter(words: seq<string>)
    requires words != []
    ensures Woven(Singles(|words|, true), words) == " " + Join(words, " ")
  {
    assert Singles(|words|, true)[1..] == Singles(|words| - 1, true);
    if |words| > 1 {
      JoinedAfter(words[1..]);
    }
  }

  /** The path's words, in order, one space apart, and nothing else. */
  lemma OneLineExactly(path: string) returns (words: seq<string>, gaps: seq<string>)
    ensures |gaps| == |words| + 1 && Spacing(gaps, false) && Woven(gaps, words) == path
    ensures forall word :: word in words ==> Word(word)
    ensures OneLine(path) == Woven(Singles(|words|, false), words)
  {
    words := Fields(path);
    gaps := FieldsWoven(path);
    hide Fields;
    if words != [] {
      assert Singles(|words|, false)[1..] == Singles(|words| - 1, true);
      if |words| > 1 {
        JoinedAfter(words[1..]);
      }
    }
  }

  /** The k characters from position at are all backticks. */
  predicate Row(s: string, at: nat, k: nat) {
    at + k <= |s| && AllTicks(s, at, at + k)
  }

  /** Before position to, k backticks stand in a row. */
  ghost predicate HasRow(s: string, to: nat, k: nat) {
    exists at: nat :: Row(s, at, k) && at + k <= to
  }

  ghost predicate LongestRow(s: string, to: nat, k: nat) {
    HasRow(s, to, k) && forall m: nat :: HasRow(s, to, m) ==> m <= k
  }

  function Padded(line: string, longest: nat): string {
    if longest > 0 then " " + line + " " else line
  }

  function Rendered(line: string, longest: nat): string {
    Ticks(longest + 1) + Padded(line, longest) + Ticks(longest + 1)
  }

  lemma OneLineText(path: string)
    ensures OneLine(path) != "" <==> HasText(path)
  {
    TrimLeftEmpty(path);
  }

  /** The run of backticks that ends at i is run long. */
  ghost predicate RunBefore(s: string, i: nat, run: nat)
    requires i <= |s|
  {
    run <= i && Row(s, i - run, run) && (run < i ==> s[i - run - 1] != '`')
  }

  lemma RunStep(s: string, i: nat, run: nat)
    requires i < |s| && RunBefore(s, i, run)
    ensures RunBefore(s, i + 1, if s[i] == '`' then run + 1 else 0)
  {
  }

  lemma RowStep(s: string, i: nat, run: nat, longest: nat)
    requires i < |s| && RunBefore(s, i, run) && run <= longest && LongestRow(s, i, longest)
    ensures s[i] == '`' ==> LongestRow(s, i + 1, if run + 1 > longest then run + 1 else longest)
    ensures s[i] != '`' ==> LongestRow(s, i + 1, longest)
  {
    var at: nat :| Row(s, at, longest) && at + longest <= i;
    assert HasRow(s, i + 1, longest);
    if s[i] == '`' {
      assert Row(s, i - run, run + 1);
      assert HasRow(s, i + 1, run + 1);
    }
    var to := i + 1;
    forall m: nat | HasRow(s, to, m)
      ensures m <= longest || (s[i] == '`' && m <= run + 1)
    {
      var b: nat :| Row(s, b, m) && b + m <= to;
      assert b + m <= i ==> HasRow(s, i, m);
    }
  }

  lemma NothingScanned(s: string)
    ensures LongestRow(s, 0, 0) && RunBefore(s, 0, 0)
  {
    assert Row(s, 0, 0) && HasRow(s, 0, 0);
  }

  /** The rendering is one code span, and nothing else, exactly when the path holds
      anything but white space. */
  method DismissPath(path: string) returns (rendered: string)
    ensures Strip(rendered) == " " <==> HasText(path)
    ensures exists k: nat ::
      && LongestRow(OneLine(path), |OneLine(path)|, k)
      && rendered == Ticks(k + 1) + (if k > 0 then " " + OneLine(path) + " " else OneLine(path)) + Ticks(k + 1)
  {
    hide LongestRow, RunBefore, Strip;
    var line := OneLine(path);
    var longest: nat, run: nat := 0, 0;
    NothingScanned(line);
    for i := 0 to |line|
      invariant run <= longest && LongestRow(line, i, longest) && RunBefore(line, i, run)
    {
      RowStep(line, i, run, longest);
      RunStep(line, i, run);
      if line[i] == '`' {
        run := run + 1;
        longest := if run > longest then run else longest;
      } else {
        run := 0;
      }
    }
    var delimiter := Ticks(longest + 1);
    if longest > 0 {
      rendered := delimiter + (" " + line + " ") + delimiter;
    } else {
      rendered := delimiter + line + delimiter;
    }
    RenderedLine(path, longest);
  }

  lemma RenderedLine(path: string, longest: nat)
    requires LongestRow(OneLine(path), |OneLine(path)|, longest)
    ensures Strip(Rendered(OneLine(path), longest)) == " " <==> HasText(path)
  {
    hide LongestRow, Strip, Rendered;
    OneLineText(path);
    if OneLine(path) == "" {
      EmptyRendering(longest);
    } else {
      RenderingIsOneSpan(OneLine(path), longest);
    }
  }

  lemma EmptyRendering(longest: nat)
    requires LongestRow("", 0, longest)
    ensures longest == 0 && Strip(Rendered("", longest)) != " "
  {
    var text := Rendered("", 0);
    assert text == "``";
    assert Reads(text, 0, Unmatched(2));
    ReadsUnique(text, 0, SegmentAt(text, 0), Unmatched(2));
    LeftCons(text, 0);
    assert Left(Segments(text, 0))[0] == Ticks(2)[0] == '`';
  }

  lemma RowOfLine(line: string, longest: nat, at: nat)
    requires Row(Padded(line, longest), at, longest + 1)
    ensures HasRow(line, |line|, longest + 1)
  {
    var inner, k := Padded(line, longest), longest + 1;
    var shift := if longest > 0 then 1 else 0;
    assert inner[at] == '`' && inner[at + k - 1] == '`';
    assert forall i :: 0 <= i < |line| ==> line[i] == inner[i + shift];
    assert Row(line, at - shift, k);
  }

  lemma NoRowInside(line: string, longest: nat, at: nat)
    requires LongestRow(line, |line|, longest)
    ensures !Row(Padded(line, longest), at, longest + 1)
  {
    if Row(Padded(line, longest), at, longest + 1) {
      RowOfLine(line, longest, at);
    }
  }

  lemma PaddedEnds(line: string, longest: nat)
    requires LongestRow(line, |line|, longest) && line != ""
    ensures var inner := Padded(line, longest); inner != "" && inner[0] != '`' && inner[|inner| - 1] != '`'
  {
    if longest == 0 {
      NoRowInside(line, 0, 0);
      NoRowInside(line, 0, |line| - 1);
    }
  }

  lemma RenderedShape(line: string, longest: nat)
    ensures var text, inner, k := Rendered(line, longest), Padded(line, longest), longest + 1;
      && |text| == k + |inner| + k
      && (forall i :: 0 <= i < |inner| ==> text[k + i] == inner[i])
      && (forall i :: 0 <= i < k || k + |inner| <= i < |text| ==> text[i] == '`')
  {
  }

  lemma NoEarlierClose(line: string, longest: nat, e: nat)
    requires LongestRow(line, |line|, longest) && line != ""
    requires Closes(Rendered(line, longest), longest + 1, longest + 1, e)
    ensures e == |Rendered(line, longest)|
  {
    var text, inner, k := Rendered(line, longest), Padded(line, longest), longest + 1;
    RenderedShape(line, longest);
    hide Rendered, Padded, LongestRow;
    if e <= k + |inner| {
      var at := e - k - k;
      assert forall i :: at <= i < at + k ==> inner[i] == text[k + i];
      NoRowInside(line, longest, at);
    }
  }

  lemma RenderingIsOneSpan(line: string, longest: nat)
    requires LongestRow(line, |line|, longest) && line != ""
    ensures Strip(Rendered(line, longest)) == " "
  {
    var text, inner, k := Rendered(line, longest), Padded(line, longest), longest + 1;
    var close := k + |inner|;
    PaddedEnds(line, longest);
    RenderedShape(line, longest);
    assert text[k] == inner[0] && text[close - 1] == inner[|inner| - 1];
    hide Rendered, Padded, LongestRow, Strip, Segments, Left;
    assert Run(text, 0, k) && Run(text, close, k);
    assert Closes(text, k, k, close + k);
    forall e | Closes(text, k, k, e) ensures close + k <= e {
      NoEarlierClose(line, longest, e);
    }
    SpanStretch(text, 0, k, close);
    StripFrom(text, " ");
  }
}
