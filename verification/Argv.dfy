/** SplitArgv and JoinArgv of internal/crq/config.go.

    A configured command is read declaratively: it is a row of pieces, each an
    unquoted character, a quoted run or an unquoted separator. Every string has
    exactly one such reading, SplitArgv returns the words of that reading, and
    JoinArgv writes a string whose reading has the given words. */
module Argv {
  import opened Text

  predicate IsSeparator(c: char) { c == ' ' || c == '\t' || c == '\n' || c == '\r' }

  predicate IsQuote(c: char) { c == '"' || c == '\'' }

  datatype Piece =
    | Bare(c: char)
    | Separator(c: char)
    | Quoted(quote: char, body: string, closed: bool)
  {
    function Written(): string {
      match this
      case Bare(c) => [c]
      case Separator(c) => [c]
      case Quoted(q, body, closed) => [q] + body + (if closed then [q] else [])
    }

    /** What the piece contributes to an argument: no delimiter, no separator. */
    function Content(): string {
      match this
      case Bare(c) => [c]
      case Separator(_) => ""
      case Quoted(_, body, _) => body
    }

    predicate Valid() {
      match this
      case Bare(c) => !IsSeparator(c) && !IsQuote(c)
      case Separator(c) => IsSeparator(c)
      case Quoted(q, body, _) => IsQuote(q) && q !in body
    }

    predicate Open() { Quoted? && !closed }
  }

  function Written(pieces: seq<Piece>): string {
    if pieces == [] then "" else pieces[0].Written() + Written(pieces[1..])
  }

  function Content(pieces: seq<Piece>): string {
    if pieces == [] then "" else pieces[0].Content() + Content(pieces[1..])
  }

  /** A quote nobody closes runs to the end, so only the last piece may be open. */
  ghost predicate Reading(pieces: seq<Piece>) {
    && (forall i :: 0 <= i < |pieces| ==> pieces[i].Valid())
    && (forall i :: 0 <= i < |pieces| - 1 ==> !pieces[i].Open())
  }

  function WordLength(pieces: seq<Piece>): (n: nat)
    ensures n <= |pieces|
    ensures forall i :: 0 <= i < n ==> !pieces[i].Separator?
    ensures n < |pieces| ==> pieces[n].Separator?
  {
    if pieces == [] || pieces[0].Separator? then 0 else 1 + WordLength(pieces[1..])
  }

  /** The arguments of a reading: its maximal separator-free rows. A row holding
      only an empty quoted run is an argument too. */
  function Words(pieces: seq<Piece>): seq<string> {
    if pieces == [] then []
    else if pieces[0].Separator? then Words(pieces[1..])
    else
      var n := WordLength(pieces);
      [Content(pieces[..n])] + Words(pieces[n..])
  }

  // ----- every string has exactly one reading ------------------------------

  function QuotedLength(s: string, quote: char): (n: nat)
    ensures n <= |s| && quote !in s[..n]
    ensures n < |s| ==> s[n] == quote
  {
    if s == "" || s[0] == quote then 0
    else
      var n := QuotedLength(s[1..], quote);
      assert s[..1 + n] == [s[0]] + s[1..][..n];
      1 + n
  }

  function Parse(s: string): (pieces: seq<Piece>)
    ensures Reading(pieces) && Written(pieces) == s
    decreases |s|
  {
    if s == "" then []
    else if IsQuote(s[0]) then
      var n := QuotedLength(s[1..], s[0]);
      var body := s[1..][..n];
      if n == |s| - 1 then
        assert s == [s[0]] + body;
        var p := [Quoted(s[0], body, false)];
        assert p[1..] == [];
        p
      else
        var rest := s[n + 2..];
        assert s == [s[0]] + body + [s[0]] + rest;
        [Quoted(s[0], body, true)] + Parse(rest)
    else
      var piece := if IsSeparator(s[0]) then Separator(s[0]) else Bare(s[0]);
      assert s == [s[0]] + s[1..];
      [piece] + Parse(s[1..])
  }

  lemma QuotedRunUnique(a: string, x: string, b: string, y: string, q: char)
    requires q !in a && q !in b
    requires x == "" || x[0] == q
    requires y == "" || y[0] == q
    requires a + x == b + y
    ensures a == b && x == y
  {
    var s := a + x;
    assert forall i :: 0 <= i < |a| ==> s[i] == a[i];
    assert forall i :: 0 <= i < |b| ==> s[i] == b[i];
    assert |a| < |s| ==> s[|a|] == q;
    assert |b| < |s| ==> s[|b|] == q;
    assert |a| == |b|;
    assert a == s[..|a|] == b;
    assert x == s[|a|..] == y;
  }

  /** What follows the body of a leading quoted run. */
  ghost function AfterBody(p: seq<Piece>): string
    requires p != [] && p[0].Quoted?
  {
    (if p[0].closed then [p[0].quote] else []) + Written(p[1..])
  }

  lemma AfterBodyStart(p: seq<Piece>)
    requires p != [] && Reading(p) && p[0].Quoted?
    ensures AfterBody(p) == "" <==> p[0].Open()
    ensures AfterBody(p) != "" ==> AfterBody(p)[0] == p[0].quote && AfterBody(p)[1..] == Written(p[1..])
    ensures p[0].Open() ==> p[1..] == []
  {
    if p[0].Open() {
      assert |p| == 1;
      assert p[1..] == [];
    }
  }

  lemma AfterBodyWritten(p: seq<Piece>)
    requires p != [] && p[0].Quoted?
    ensures Written(p) == [p[0].quote] + (p[0].body + AfterBody(p))
  {
    var q, body, rest := [p[0].quote], p[0].body, Written(p[1..]);
    var end := if p[0].closed then q else [];
    assert Written(p) == (q + body + end) + rest && AfterBody(p) == end + rest;
    hide *;
    FourJoin(q, body, end, rest);
  }

  lemma FourJoin(a: string, b: string, c: string, d: string)
    ensures (a + b + c) + d == a + (b + (c + d))
  {
  }

  lemma WrittenNonempty(p: seq<Piece>)
    ensures Written(p) == "" <==> p == []
  {
    if p != [] {
      assert |p[0].Written()| > 0;
    }
  }

  lemma LeadingPieceUnique(p: seq<Piece>, r: seq<Piece>)
    requires p != [] && r != [] && Reading(p) && Reading(r) && Written(p) == Written(r)
    ensures p[0] == r[0] && Written(p[1..]) == Written(r[1..])
  {
    var s := Written(p);
    assert s[0] == p[0].Written()[0];
    assert s[0] == r[0].Written()[0];
    if p[0].Quoted? {
      AfterBodyStart(p);
      AfterBodyStart(r);
      AfterBodyWritten(p);
      AfterBodyWritten(r);
      assert s[1..] == p[0].body + AfterBody(p);
      assert s[1..] == r[0].body + AfterBody(r);
      QuotedRunUnique(p[0].body, AfterBody(p), r[0].body, AfterBody(r), s[0]);
    } else {
      assert s[1..] == Written(p[1..]);
      assert s[1..] == Written(r[1..]);
    }
  }

  lemma {:induction false} ReadingUnique(p: seq<Piece>, r: seq<Piece>)
    requires Reading(p) && Reading(r) && Written(p) == Written(r)
    ensures p == r
  {
    WrittenNonempty(p);
    WrittenNonempty(r);
    if p != [] {
      LeadingPieceUnique(p, r);
      ReadingUnique(p[1..], r[1..]);
    }
  }

  // ----- SplitArgv ------------------------------------------------------------

  lemma {:induction false} WrittenAppend(a: seq<Piece>, b: seq<Piece>)
    ensures Written(a + b) == Written(a) + Written(b)
  {
    if a == [] {
      assert a + b == b;
    } else {
      assert (a + b)[1..] == a[1..] + b;
      WrittenAppend(a[1..], b);
    }
  }

  lemma {:induction false} ContentAppend(a: seq<Piece>, b: seq<Piece>)
    ensures Content(a + b) == Content(a) + Content(b)
  {
    if a == [] {
      assert a + b == b;
    } else {
      assert (a + b)[1..] == a[1..] + b;
      ContentAppend(a[1..], b);
    }
  }

  predicate EndsWord(pieces: seq<Piece>) {
    pieces == [] || pieces[|pieces| - 1].Separator?
  }

  predicate OneWord(pieces: seq<Piece>) {
    forall i :: 0 <= i < |pieces| ==> !pieces[i].Separator?
  }

  lemma {:induction false} WordsAppend(done: seq<Piece>, rest: seq<Piece>)
    requires EndsWord(done)
    ensures Words(done + rest) == Words(done) + Words(rest)
    decreases |done|
  {
    if done == [] {
      assert done + rest == rest;
    } else if done[0].Separator? {
      assert (done + rest)[1..] == done[1..] + rest;
      WordsAppend(done[1..], rest);
    } else {
      var n := WordLength(done);
      WordLengthIs(done, n);
      assert done[n..] != [] && EndsWord(done[n..]);
      WordLengthIs(done + rest, n);
      assert (done + rest)[n..] == done[n..] + rest;
      assert (done + rest)[..n] == done[..n];
      WordsAppend(done[n..], rest);
    }
  }

  lemma WordLengthIs(pieces: seq<Piece>, n: nat)
    requires n <= |pieces| && OneWord(pieces[..n])
    requires n < |pieces| ==> pieces[n].Separator?
    ensures WordLength(pieces) == n
  {
    assert forall i :: 0 <= i < n ==> pieces[i] == pieces[..n][i];
  }

  lemma WordsOfOne(word: seq<Piece>, rest: seq<Piece>)
    requires OneWord(word) && (rest == [] || rest[0].Separator?)
    ensures Words(word + rest) == (if word == [] then [] else [Content(word)]) + Words(rest)
  {
    if word == [] {
      assert word + rest == rest;
    } else {
      assert (word + rest)[..|word|] == word;
      WordLengthIs(word + rest, |word|);
      assert (word + rest)[|word|..] == rest;
    }
  }

  lemma EmptyReading()
    ensures Words([]) == []
  {
  }

  lemma OneWordIs(pieces: seq<Piece>)
    requires pieces != [] && OneWord(pieces)
    ensures Words(pieces) == [Content(pieces)]
  {
    WordsOfOne(pieces, []);
    assert pieces + [] == pieces;
  }

  ghost predicate Closed(pieces: seq<Piece>) {
    forall i :: 0 <= i < |pieces| ==> pieces[i].Valid() && !pieces[i].Open()
  }

  lemma Snoc(p: seq<Piece>, piece: Piece)
    ensures Written(p + [piece]) == Written(p) + piece.Written()
    ensures Content(p + [piece]) == Content(p) + piece.Content()
  {
    WrittenAppend(p, [piece]);
    ContentAppend(p, [piece]);
    assert Written([piece]) == piece.Written() + Written([piece][1..]) == piece.Written() + "";
    assert Content([piece]) == piece.Content() + Content([piece][1..]) == piece.Content() + "";
  }

  lemma SnocClosed(p: seq<Piece>, piece: Piece)
    requires Closed(p) && piece.Valid() && !piece.Open()
    ensures Closed(p + [piece])
    ensures if piece.Separator? then EndsWord(p + [piece]) else OneWord(p) ==> OneWord(p + [piece])
  {
  }

  lemma ClosedAppend(a: seq<Piece>, b: seq<Piece>)
    requires Closed(a) && Closed(b)
    ensures Closed(a + b)
  {
  }

  /** How far SplitArgv has read: whole words, the closed pieces of the current
      word, and the run it is inside of, if any. */
  datatype Progress = Progress(done: seq<Piece>, word: seq<Piece>, open: Option<(char, string)>) {
    ghost predicate Valid() {
      && Closed(done) && Closed(word) && EndsWord(done) && OneWord(word)
      && (open.Some? ==> IsQuote(open.value.0) && open.value.0 !in open.value.1)
    }

    /** The run still open is the last piece of the reading so far. */
    function Pieces(): seq<Piece> {
      done + (if open.None? then word else word + [Quoted(open.value.0, open.value.1, false)])
    }

    function Read(): string {
      if open.None? then Written(done + word) else Written(done + word) + ([open.value.0] + open.value.1)
    }

    function Argument(): string {
      if open.None? then Content(word) else Content(word) + open.value.1
    }

    predicate InWord() { word != [] || open.Some? }
  }

  lemma Assoc<T>(a: seq<T>, b: seq<T>, c: seq<T>)
    ensures a + b + c == a + (b + c)
  {
  }

  lemma ProgressReads(p: Progress)
    requires p.Valid()
    ensures Reading(p.Pieces()) && Written(p.Pieces()) == p.Read()
    ensures Words(p.Pieces()) == Words(p.done) + (if p.InWord() then [p.Argument()] else [])
  {
    hide Written, Content, Words;
    var word := p.word;
    if p.open.Some? {
      var piece := Quoted(p.open.value.0, p.open.value.1, false);
      word := p.word + [piece];
      Assoc(p.done, p.word, [piece]);
      Snoc(p.word, piece);
      Snoc(p.done + p.word, piece);
    }
    WordsAppend(p.done, word);
    if word == [] {
      EmptyReading();
    } else {
      OneWordIs(word);
    }
  }

  lemma PrefixStep<T>(s: seq<T>, i: nat)
    requires i < |s|
    ensures s[..i + 1] == s[..i] + [s[i]]
  {
  }

  method SplitArgv(value: string) returns (argv: seq<string>)
    ensures argv == Words(Parse(value))
  {
    hide *;
    argv := [];
    var arg := "";
    var quote: Option<char> := None;
    var quoted := false;
    ghost var p := Begins();
    for i := 0 to |value|
      invariant p.Valid() && p.Read() == value[..i]
      invariant argv == Words(p.done) && arg == p.Argument()
      invariant quote == if p.open.None? then None else Some(p.open.value.0)
      invariant arg != "" || quoted <==> p.InWord()
    {
      var r := value[i];
      PrefixStep(value, i);
      if quote == Some(r) {
        p := ClosesRun(p);
        quote := None;
      } else if quote == None && IsQuote(r) {
        p := OpensRun(p, r);
        quote, quoted := Some(r), true;
      } else if quote == None && IsSeparator(r) {
        p := Separates(p, r);
        if arg != "" || quoted {
          argv := argv + [arg];
          arg := "";
          quoted := false;
        }
      } else {
        p := TakesCharacter(p, r);
        arg := arg + [r];
      }
    }
    ProgressReads(p);
    ReadingUnique(p.Pieces(), Parse(value));
    if arg != "" || quoted {
      argv := argv + [arg];
    }
  }

  lemma Begins() returns (p: Progress)
    ensures p.Valid() && p.open.None? && !p.InWord()
    ensures p.Read() == "" && p.Argument() == "" && Words(p.done) == []
  {
    p := Progress([], [], None);
  }

  lemma ClosesRun(p: Progress) returns (q: Progress)
    requires p.Valid() && p.open.Some?
    ensures p.InWord()
    ensures q.Valid() && q.open.None? && q.done == p.done && q.InWord()
    ensures q.Read() == p.Read() + [p.open.value.0] && q.Argument() == p.Argument()
  {
    var (quote, body) := p.open.value;
    var piece := Quoted(quote, body, true);
    q := Progress(p.done, p.word + [piece], None);
    SnocClosed(p.word, piece);
    hide Written, Content, Words, Closed, OneWord, EndsWord;
    Snoc(p.word, piece);
    Snoc(p.done + p.word, piece);
    Assoc(p.done, p.word, [piece]);
    Assoc(Written(p.done + p.word), [quote] + body, [quote]);
  }

  lemma OpensRun(p: Progress, c: char) returns (q: Progress)
    requires p.Valid() && p.open.None? && IsQuote(c)
    ensures q.Valid() && q.open == Some((c, "")) && q.done == p.done && q.InWord()
    ensures q.Read() == p.Read() + [c] && q.Argument() == p.Argument()
  {
    hide Written, Content, Words;
    q := p.(open := Some((c, "")));
    assert [c] + "" == [c];
  }

  lemma Separates(p: Progress, c: char) returns (q: Progress)
    requires p.Valid() && p.open.None? && IsSeparator(c)
    ensures q.Valid() && q.open.None? && !q.InWord()
    ensures q.Read() == p.Read() + [c] && q.Argument() == ""
    ensures Words(q.done) == Words(p.done) + (if p.InWord() then [p.Argument()] else [])
  {
    var last := Separator(c);
    q := Progress(p.done + p.word + [last], [], None);
    assert Content([]) == "" && Closed([]) && OneWord([]);
    hide Written, Content, Words, Closed, OneWord, EndsWord;
    ClosedAppend(p.done, p.word);
    SnocClosed(p.done + p.word, last);
    SeparatorEndsWord(p.done, p.word, c);
    Snoc(p.done + p.word, last);
    assert q.done + [] == q.done;
  }

  lemma SeparatorEndsWord(done: seq<Piece>, word: seq<Piece>, c: char)
    requires EndsWord(done) && OneWord(word) && IsSeparator(c)
    ensures Words(done + word + [Separator(c)]) == Words(done) + (if word == [] then [] else [Content(word)])
  {
    var last := [Separator(c)];
    assert Words(last) == Words(last[1..]) == [];
    WordsOfOne(word, last);
    WordsAppend(done, word + last);
    hide *;
    assert done + word + last == done + (word + last);
  }

  lemma TakesCharacter(p: Progress, c: char) returns (q: Progress)
    requires p.Valid()
    requires if p.open.Some? then c != p.open.value.0 else !IsQuote(c) && !IsSeparator(c)
    ensures q.Valid() && q.done == p.done && q.InWord()
    ensures q.open.Some? == p.open.Some? && (p.open.Some? ==> q.open.value.0 == p.open.value.0)
    ensures q.Read() == p.Read() + [c] && q.Argument() == p.Argument() + [c]
  {
    hide Written, Content, Words, Closed, OneWord, EndsWord;
    if p.open.Some? {
      var (quote, body) := p.open.value;
      q := p.(open := Some((quote, body + [c])));
      Assoc([quote], body, [c]);
      Assoc(Written(p.done + p.word), [quote] + body, [c]);
      Assoc(Content(p.word), body, [c]);
    } else {
      q := p.(word := p.word + [Bare(c)]);
      SnocClosed(p.word, Bare(c));
      Snoc(p.word, Bare(c));
      Snoc(p.done + p.word, Bare(c));
      Assoc(p.done, p.word, [Bare(c)]);
    }
  }

  /** Nothing is invented and nothing but delimiters and separators is dropped. */
  lemma {:induction false} WordsKeepContent(pieces: seq<Piece>)
    ensures Flatten(Words(pieces)) == Content(pieces)
    decreases |pieces|
  {
    if pieces == [] {
    } else if pieces[0].Separator? {
      WordsKeepContent(pieces[1..]);
      assert Content(pieces) == Content(pieces[1..]) by { assert pieces[0].Content() == ""; }
    } else {
      var n := WordLength(pieces);
      WordsKeepContent(pieces[n..]);
      ContentSplit(pieces, n);
      assert Words(pieces) == [Content(pieces[..n])] + Words(pieces[n..]);
      hide Words, Content;
      FlattenCons(Content(pieces[..n]), Words(pieces[n..]));
    }
  }

  lemma FlattenCons(part: string, parts: seq<string>)
    ensures Flatten([part] + parts) == part + Flatten(parts)
  {
    assert ([part] + parts)[1..] == parts;
  }

  lemma ContentSplit(pieces: seq<Piece>, n: nat)
    requires n <= |pieces|
    ensures Content(pieces) == Content(pieces[..n]) + Content(pieces[n..])
  {
    ContentAppend(pieces[..n], pieces[n..]);
    hide *;
    assert pieces == pieces[..n] + pieces[n..];
  }

  // ----- JoinArgv -------------------------------------------------------------

  /** strings.Split. */
  function SplitAt(s: string, sep: char): (parts: seq<string>)
    ensures parts != []
    ensures forall i :: 0 <= i < |parts| ==> sep !in parts[i]
  {
    if s == "" then [""]
    else
      var rest := SplitAt(s[1..], sep);
      if s[0] == sep then [""] + rest else [[s[0]] + rest[0]] + rest[1..]
  }

  predicate Plain(arg: string) {
    arg != "" && forall c :: c in arg ==> !IsSeparator(c) && !IsQuote(c)
  }

  function Wrapped(parts: seq<string>): (quoted: seq<string>)
    ensures |quoted| == |parts|
  {
    if parts == [] then [] else ["\"" + parts[0] + "\""] + Wrapped(parts[1..])
  }

  function QuoteArg(arg: string): string {
    if Plain(arg) then arg else Join(Wrapped(SplitAt(arg, '"')), "'\"'")
  }

  /** One word whose pieces are all closed and that means arg. */
  ghost predicate Spells(pieces: seq<Piece>, written: string, arg: string) {
    pieces != [] && Closed(pieces) && OneWord(pieces) && Written(pieces) == written && Content(pieces) == arg
  }

  lemma {:induction false} PlainSpells(arg: string) returns (pieces: seq<Piece>)
    requires Plain(arg)
    ensures Spells(pieces, arg, arg)
  {
    var first := Bare(arg[0]);
    if |arg| == 1 {
      pieces := [first];
      assert pieces[1..] == [] && arg == [arg[0]];
    } else {
      var rest := PlainSpells(arg[1..]);
      pieces := [first] + rest;
      assert pieces[1..] == rest;
      assert arg == [arg[0]] + arg[1..];
    }
  }

  /** Split at its double quotes, an argument is rejoined by a quoted double quote. */
  lemma {:induction false} WrappedSpells(parts: seq<string>) returns (pieces: seq<Piece>)
    requires parts != [] && forall i :: 0 <= i < |parts| ==> '"' !in parts[i]
    ensures Spells(pieces, Join(Wrapped(parts), "'\"'"), Join(parts, "\""))
  {
    var head := Quoted('"', parts[0], true);
    assert head.Written() == "\"" + parts[0] + "\"";
    OnePiece(head);
    if |parts| == 1 {
      pieces := [head];
    } else {
      var rest := WrappedSpells(parts[1..]);
      var bridge := Quoted('\'', "\"", true);
      OnePiece(bridge);
      pieces := [head] + [bridge] + rest;
      assert bridge.Written() == "'\"'";
      assert Wrapped(parts)[1..] == Wrapped(parts[1..]);
      ClosedAppend([head] + [bridge], rest);
      WrittenAppend([head] + [bridge], rest);
      WrittenAppend([head], [bridge]);
      ContentAppend([head] + [bridge], rest);
      ContentAppend([head], [bridge]);
    }
  }

  lemma OnePiece(piece: Piece)
    requires piece.Valid() && !piece.Open() && !piece.Separator?
    ensures Spells([piece], piece.Written(), piece.Content())
  {
    assert [piece][1..] == [];
    assert piece.Written() + "" == piece.Written();
    assert piece.Content() + "" == piece.Content();
  }

  lemma {:induction false} SplitRejoins(s: string, sep: char)
    ensures Join(SplitAt(s, sep), [sep]) == s
  {
    if s != "" {
      SplitRejoins(s[1..], sep);
      var rest := SplitAt(s[1..], sep);
      if s[0] == sep {
        assert ([""] + rest)[1..] == rest;
        assert "" + [sep] + s[1..] == s;
      } else {
        var parts := [[s[0]] + rest[0]] + rest[1..];
        assert parts[1..] == rest[1..];
        assert Join(parts, [sep]) == [s[0]] + Join(rest, [sep]);
      }
    }
  }

  lemma QuoteArgSpells(arg: string) returns (pieces: seq<Piece>)
    ensures Spells(pieces, QuoteArg(arg), arg)
  {
    if Plain(arg) {
      pieces := PlainSpells(arg);
    } else {
      pieces := WrappedSpells(SplitAt(arg, '"'));
      SplitRejoins(arg, '"');
    }
  }

  /** SplitArgv reads back exactly what was joined, whatever the arguments hold:
      nothing at all, the empty string, separators, or both kinds of quote. */
  method JoinArgv(argv: seq<string>) returns (value: string)
    ensures Words(Parse(value)) == argv
  {
    var parts: seq<string> := [];
    ghost var p: seq<Piece> := [];
    for i := 0 to |argv|
      invariant |parts| == i && Closed(p) && Written(p) == Join(parts, " ") && Words(p) == argv[..i]
      invariant p == [] <==> i == 0
    {
      p := JoinsArgument(p, parts, argv[..i], argv[i]);
      parts := parts + [QuoteArg(argv[i])];
      PrefixStep(argv, i);
    }
    value := Join(parts, " ");
    ReadingUnique(p, Parse(value));
    assert argv[..|argv|] == argv;
  }

  lemma {:induction false} JoinAppend(parts: seq<string>, part: string, sep: string)
    ensures Join(parts + [part], sep) == if parts == [] then part else Join(parts, sep) + sep + part
  {
    if |parts| > 1 {
      assert (parts + [part])[1..] == parts[1..] + [part];
      JoinAppend(parts[1..], part, sep);
    } else if |parts| == 1 {
      assert (parts + [part])[1..] == [part];
    }
  }

  lemma JoinsArgument(p: seq<Piece>, parts: seq<string>, argv: seq<string>, arg: string) returns (q: seq<Piece>)
    requires Closed(p) && Written(p) == Join(parts, " ") && Words(p) == argv
    requires p == [] <==> parts == []
    ensures q != [] && Closed(q) && Written(q) == Join(parts + [QuoteArg(arg)], " ") && Words(q) == argv + [arg]
  {
    hide Written, Content, Words, Join, QuoteArg;
    var pieces := QuoteArgSpells(arg);
    JoinAppend(parts, QuoteArg(arg), " ");
    OneWordIs(pieces);
    if p == [] {
      q := pieces;
      EmptyReading();
    } else {
      var space := Separator(' ');
      q := (p + [space]) + pieces;
      Snoc(p, space);
      WrittenAppend(p + [space], pieces);
      SeparatorAfter(p, ' ');
      WordsAppend(p + [space], pieces);
    }
  }

  lemma {:induction false} SeparatorAfter(p: seq<Piece>, c: char)
    ensures Words(p + [Separator(c)]) == Words(p)
    decreases |p|
  {
    var space := [Separator(c)];
    if p == [] {
      assert p + space == space;
    } else if p[0].Separator? {
      assert (p + space)[1..] == p[1..] + space;
      SeparatorAfter(p[1..], c);
    } else {
      var n := WordLength(p);
      assert (p + space)[..n] == p[..n];
      WordLengthIs(p + space, n);
      assert (p + space)[n..] == p[n..] + space;
      SeparatorAfter(p[n..], c);
    }
  }

  // ----- what separates, and what is quoted ------------------------------------

  lemma {:induction false} NoQuotesClosed(p: seq<Piece>)
    requires Reading(p) && '"' !in Written(p) && '\'' !in Written(p)
    ensures Closed(p)
  {
    if p != [] {
      assert p[0].Valid();
      if p[0].Quoted? {
        assert Written(p)[0] == p[0].quote;
      } else {
        assert forall c :: c in Written(p[1..]) ==> c in Written(p);
        NoQuotesClosed(p[1..]);
      }
    }
  }

  /** A space, a tab, a newline or a carriage return outside quotes ends the word before it. */
  lemma SeparatorsSplit(a: string, c: char, b: string)
    requires '"' !in a && '\'' !in a && c in " \t\n\r"
    ensures Words(Parse(a + [c] + b)) == Words(Parse(a)) + Words(Parse(b))
  {
    var before, after, sep := Parse(a), Parse(b), Separator(c);
    NoQuotesClosed(before);
    assert sep.Valid() && !sep.Open();
    SnocClosed(before, sep);
    var pieces := (before + [sep]) + after;
    hide Words, Parse, Written, Content;
    SeparatorAfter(before, c);
    WordsAppend(before + [sep], after);
    Snoc(before, sep);
    WrittenAppend(before + [sep], after);
    forall i | 0 <= i < |pieces| ensures pieces[i].Valid() && (i < |pieces| - 1 ==> !pieces[i].Open()) {
      if i > |before| {
        assert pieces[i] == after[i - |before| - 1];
      } else {
        assert pieces[i] == (before + [sep])[i];
      }
    }
    ReadingUnique(pieces, Parse(a + [c] + b));
  }

  /** Any other characters outside quotes are one word. */
  lemma OthersJoin(a: string)
    requires a != "" && forall c :: c in a ==> c !in " \t\n\r\"'"
    ensures Words(Parse(a)) == [a]
  {
    var pieces := PlainSpells(a);
    OneWordIs(pieces);
    ReadingUnique(pieces, Parse(a));
  }

  /** Each double quote, in single ones between the runs it parts. */
  function Requoted(arg: string): string {
    if arg == "" then "" else (if arg[0] == '"' then "\"'\"'\"" else [arg[0]]) + Requoted(arg[1..])
  }

  lemma {:induction false} WrappedIs(arg: string)
    ensures Join(Wrapped(SplitAt(arg, '"')), "'\"'") == "\"" + Requoted(arg) + "\""
  {
    if arg == "" {
      assert Wrapped([""]) == ["\"" + "" + "\""];
    } else {
      WrappedIs(arg[1..]);
      var rest, r := SplitAt(arg[1..], '"'), Requoted(arg[1..]);
      if arg[0] == '"' {
        hide Wrapped, Requoted, Join;
        MarkFirst(rest, r);
        assert Requoted(arg) == "\"'\"'\"" + r by { RequotedCons(arg); }
      } else {
        hide Wrapped, Requoted, Join;
        CharFirst(arg[0], rest, r);
        assert Requoted(arg) == [arg[0]] + r by { RequotedCons(arg); }
      }
    }
  }

  lemma RequotedCons(arg: string)
    requires arg != ""
    ensures Requoted(arg) == (if arg[0] == '"' then "\"'\"'\"" else [arg[0]]) + Requoted(arg[1..])
  {
  }

  lemma MarkFirst(rest: seq<string>, r: string)
    requires rest != [] && Join(Wrapped(rest), "'\"'") == "\"" + r + "\""
    ensures Join(Wrapped([""] + rest), "'\"'") == "\"" + ("\"'\"'\"" + r) + "\""
  {
    var parts := [""] + rest;
    assert parts[1..] == rest && Wrapped(parts)[1..] == Wrapped(rest) && Wrapped(parts)[0] == "\"\"";
    hide Wrapped;
    assert Join(Wrapped(parts), "'\"'") == "\"\"" + "'\"'" + ("\"" + r + "\"");
  }

  lemma CharFirst(c: char, rest: seq<string>, r: string)
    requires rest != [] && Join(Wrapped(rest), "'\"'") == "\"" + r + "\""
    ensures Join(Wrapped([[c] + rest[0]] + rest[1..]), "'\"'") == "\"" + ([c] + r) + "\""
  {
    var first, tail := rest[0], rest[1..];
    var inner := Join([first + "\""] + Wrapped(tail), "'\"'");
    assert rest == [first] + tail;
    hide Wrapped, Join;
    OpeningOut("", first, tail);
    OpeningOut([c], first, tail);
    assert "" + first == first && "\"" + "" == "\"";
    QuotedOnce(inner, r, c);
  }

  lemma OpeningOut(a: string, b: string, tail: seq<string>)
    ensures Join(Wrapped([a + b] + tail), "'\"'") == ("\"" + a) + Join([b + "\""] + Wrapped(tail), "'\"'")
  {
    WrappedParts(a + b, tail);
    var more := Wrapped(tail);
    hide Wrapped;
    assert "\"" + (a + b) + "\"" == ("\"" + a) + (b + "\"");
    PrefixJoins("\"" + a, b + "\"", more);
  }

  lemma WrappedParts(head: string, tail: seq<string>)
    ensures Wrapped([head] + tail) == ["\"" + head + "\""] + Wrapped(tail)
  {
    var parts := [head] + tail;
    assert parts[0] == head && parts[1..] == tail;
  }

  lemma PrefixJoins(a: string, b: string, tail: seq<string>)
    ensures Join([a + b] + tail, "'\"'") == a + Join([b] + tail, "'\"'")
  {
    var whole, part := [a + b] + tail, [b] + tail;
    assert whole[1..] == tail == part[1..];
    if tail != [] {
      var sep, more := "'\"'", Join(tail, "'\"'");
      assert Join(whole, sep) == (a + b) + sep + more && Join(part, sep) == b + sep + more;
      assert (a + b) + sep + more == a + (b + sep + more);
    }
  }

  lemma QuotedOnce(inner: string, r: string, c: char)
    requires "\"" + inner == "\"" + r + "\""
    ensures ("\"" + [c]) + inner == "\"" + ([c] + r) + "\""
  {
    assert inner == ("\"" + inner)[1..] == ("\"" + r + "\"")[1..] == r + "\"";
  }

  /** An argument is written as it is unless it is empty or holds a separator or a quote, and
      then between double quotes, each of its own in single ones. */
  lemma QuoteArgExactly(arg: string)
    ensures arg != "" && (forall c :: c in arg ==> c !in " \t\n\r\"'") ==> QuoteArg(arg) == arg
    ensures arg == "" || (exists c :: c in arg && c in " \t\n\r\"'") ==>
      QuoteArg(arg) == "\"" + Requoted(arg) + "\""
  {
    WrappedIs(arg);
  }
}
