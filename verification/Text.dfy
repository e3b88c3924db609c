/** Character classes and string helpers shared by the text machines.

    A Go string is modelled as the sequence of its Unicode scalar values. Every
    delimiter the source looks for is ASCII, and no byte of a multi-byte UTF-8
    sequence is ASCII, so the byte loops of the source and the character loops
    here take the same branches. */
module Text {
  datatype Option<+T> = None | Some(value: T)

  /** unicode.IsSpace, the class strings.TrimSpace and strings.Fields use. */
  predicate IsSpace(c: char) {
    || '\t' <= c <= '\r'
    || c == ' '
    || c == '\U{85}' || c == '\U{A0}' || c == '\U{1680}'
    || '\U{2000}' <= c <= '\U{200A}'
    || c == '\U{2028}' || c == '\U{2029}' || c == '\U{202F}' || c == '\U{205F}' || c == '\U{3000}'
  }

  /** The code points of the Unicode property White_Space. */
  const SPACES: set<int> := {0x9, 0xA, 0xB, 0xC, 0xD, 0x20, 0x85, 0xA0, 0x1680, 0x2000, 0x2001, 0x2002, 0x2003, 0x2004,
                             0x2005, 0x2006, 0x2007, 0x2008, 0x2009, 0x200A, 0x2028, 0x2029, 0x202F, 0x205F, 0x3000}

  lemma IsSpaceExactly(c: char)
    ensures IsSpace(c) <==> c as int in SPACES
  {
  }

  ghost predicate HasText(s: string) {
    exists i :: 0 <= i < |s| && !IsSpace(s[i])
  }

  /** The first position from at on that holds no white space. */
  function Leading(s: string, at: nat): (n: nat)
    requires at <= |s|
    ensures at <= n <= |s| && (n < |s| ==> !IsSpace(s[n]))
    ensures forall i :: at <= i < n ==> IsSpace(s[i])
    decreases |s| - at
  {
    if at < |s| && IsSpace(s[at]) then Leading(s, at + 1) else at
  }

  /** Where the white space that ends at at begins. */
  function Trailing(s: string, at: nat): (n: nat)
    requires at <= |s|
    ensures n <= at && (0 < n ==> !IsSpace(s[n - 1]))
    ensures forall i :: n <= i < at ==> IsSpace(s[i])
  {
    if at > 0 && IsSpace(s[at - 1]) then Trailing(s, at - 1) else at
  }

  function TrimLeft(s: string): (r: string)
    ensures |r| <= |s| && r == s[|s| - |r|..]
    ensures r != "" ==> !IsSpace(r[0])
    ensures forall i :: 0 <= i < |s| - |r| ==> IsSpace(s[i])
  {
    s[Leading(s, 0)..]
  }

  function TrimRight(s: string): (r: string)
    ensures r <= s
    ensures r != "" ==> !IsSpace(r[|r| - 1])
    ensures forall i :: |r| <= i < |s| ==> IsSpace(s[i])
  {
    s[..Trailing(s, |s|)]
  }

  /** strings.TrimSpace. */
  function Trim(s: string): (r: string)
    ensures r != "" ==> !IsSpace(r[0]) && !IsSpace(r[|r| - 1])
    ensures r == "" <==> !HasText(s)
  {
    var left := TrimLeft(s);
    var r := TrimRight(left);
    assert r == "" ==> left == "";
    assert r != "" ==> HasText(s) by {
      if r != "" { assert r[0] == left[0] == s[|s| - |left|]; }
    }
    r
  }

  lemma TrimIdempotent(s: string)
    ensures Trim(Trim(s)) == Trim(s)
  {
    var t := Trim(s);
    if t != "" {
      assert TrimLeft(t) == t;
      assert TrimRight(t) == t;
    }
  }

  /** strings.Join. */
  function Join(parts: seq<string>, sep: string): string {
    if |parts| == 0 then ""
    else if |parts| == 1 then parts[0]
    else parts[0] + sep + Join(parts[1..], sep)
  }

  function Flatten(parts: seq<string>): string {
    if |parts| == 0 then "" else parts[0] + Flatten(parts[1..])
  }

  lemma {:induction false} FlattenAppend(a: seq<string>, b: seq<string>)
    ensures Flatten(a + b) == Flatten(a) + Flatten(b)
  {
    if a == [] {
      assert a + b == b;
    } else {
      assert (a + b)[1..] == a[1..] + b;
      FlattenAppend(a[1..], b);
    }
  }
}
