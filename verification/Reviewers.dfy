/** The reviewer list a configuration resolves to, and the questions asked of two
    of them (internal/crq/reviewers.go, internal/crq/repoconfig.go). */
module Reviewers {
  import opened Text

  datatype Trigger = Never | SelfHeal | Always

  /** One bot that reviews. A metered reviewer spends the shared account. */
  datatype Reviewer = Reviewer(login: string, name: string, metered: bool, required: bool,
                               command: string, trigger: Trigger, grace: int)

  /** A co-reviewer as the operator configured it. */
  datatype CoBot = CoBot(login: string, name: string, command: string, required: bool,
                         trigger: Trigger, triggerExplicit: bool, grace: int)

  datatype Config = Config(bot: string, reviewCommand: string, requiredBots: seq<string>,
                           coBots: seq<CoBot>, knownCoBots: seq<CoBot>,
                           feedbackBots: seq<string>, feedbackExplicit: bool,
                           primaryOff: bool, reviewers: seq<Reviewer>)

  /** NormalizeBotName: a login without one "[bot]" suffix. */
  function Key(login: string): string {
    if |login| >= 5 && login[|login| - 5..] == "[bot]" then login[..|login| - 5] else login
  }

  function Keys(logins: seq<string>): (keys: seq<string>)
    ensures |keys| == |logins| && forall i :: 0 <= i < |logins| ==> keys[i] == Key(logins[i])
  {
    seq(|logins|, i requires 0 <= i < |logins| => Key(logins[i]))
  }

  /** One suffix is taken off, and nothing else. */
  lemma KeyExactly(login: string)
    ensures Key(login + "[bot]") == login
    ensures (forall name :: login != name + "[bot]") ==> Key(login) == login
  {
    assert (login + "[bot]")[|login|..] == "[bot]" && (login + "[bot]")[..|login|] == login;
    if |login| >= 5 && login[|login| - 5..] == "[bot]" {
      assert login == login[..|login| - 5] + "[bot]";
    }
  }

  predicate SameBot(a: string, b: string) { Key(a) == Key(b) }

  predicate ContainsBot(logins: seq<string>, login: string) {
    exists i :: 0 <= i < |logins| && SameBot(logins[i], login)
  }

  // ---- The list

  function RequiredKeys(required: seq<string>): set<string> {
    set login | login in required && Trim(login) != "" :: Key(Trim(login))
  }

  function CoKeys(coBots: seq<CoBot>): set<string> {
    set cb | cb in coBots :: Key(cb.login)
  }

  function PrimaryKeys(primary: string): set<string> {
    if primary == "" then {} else {Key(primary)}
  }

  function PrimaryEntry(primary: string, command: string, requiredKeys: set<string>): Reviewer {
    Reviewer(primary, Key(primary), true, Key(primary) in requiredKeys, command, Always, 0)
  }

  function CoEntry(cb: CoBot, requiredKeys: set<string>): Reviewer {
    Reviewer(cb.login, cb.name, false, cb.required || Key(cb.login) in requiredKeys,
             cb.command, cb.trigger, cb.grace)
  }

  function ExtraEntry(login: string): Reviewer {
    Reviewer(login, Key(login), false, true, "", Never, 0)
  }

  function PrimaryPart(primary: string, command: string, requiredKeys: set<string>, off: bool): seq<Reviewer> {
    if primary == "" || off then [] else [PrimaryEntry(primary, command, requiredKeys)]
  }

  function CoPart(coBots: seq<CoBot>, seen: set<string>, requiredKeys: set<string>): seq<Reviewer> {
    if coBots == [] then []
    else if Key(coBots[0].login) in seen then CoPart(coBots[1..], seen, requiredKeys)
    else [CoEntry(coBots[0], requiredKeys)]
         + CoPart(coBots[1..], seen + {Key(coBots[0].login)}, requiredKeys)
  }

  function ExtraPart(required: seq<string>, seen: set<string>): seq<Reviewer> {
    if required == [] then []
    else
      var login := Trim(required[0]);
      if login == "" || Key(login) in seen then ExtraPart(required[1..], seen)
      else [ExtraEntry(login)] + ExtraPart(required[1..], seen + {Key(login)})
  }

  /** The reviewers of a configuration: the primary, then the co-reviewers, then
      whatever else the operator required. */
  function Built(primary: string, command: string, required: seq<string>, coBots: seq<CoBot>,
                 off: bool): seq<Reviewer> {
    var requiredKeys := RequiredKeys(required);
    PrimaryPart(primary, command, requiredKeys, off)
    + CoPart(coBots, PrimaryKeys(primary), requiredKeys)
    + ExtraPart(required, PrimaryKeys(primary) + CoKeys(coBots))
  }

  /** buildReviewers. */
  method BuildReviewers(primary: string, command: string, required: seq<string>, coBots: seq<CoBot>, off: bool)
    returns (out: seq<Reviewer>)
    ensures out == Built(primary, command, required, coBots, off)
  {
    hide Key, Trim, RequiredKeys, CoKeys, CoPart, ExtraPart;
    NothingLeft();
    var requiredSet: set<string> := {};
    for i := 0 to |required|
      invariant requiredSet == RequiredKeys(required[..i])
    {
      RequiredKeysSnoc(required, i);
      var login := Trim(required[i]);
      if login != "" {
        requiredSet := requiredSet + {Key(login)};
      }
    }
    assert required[..|required|] == required;
    var seen: set<string> := {};
    out := [];
    if primary != "" {
      seen := seen + {Key(primary)};
      if !off {
        out := out + [PrimaryEntry(primary, command, requiredSet)];
      }
    }
    assert seen == PrimaryKeys(primary) && out == PrimaryPart(primary, command, requiredSet, off);
    ghost var primaries, whole := out, CoPart(coBots, seen, requiredSet);
    for i := 0 to |coBots|
      invariant seen == PrimaryKeys(primary) + CoKeys(coBots[..i])
      invariant out + CoPart(coBots[i..], seen, requiredSet) == primaries + whole
    {
      var cb := coBots[i];
      CoKeysSnoc(coBots, i);
      CoPartCons(coBots, i, seen, requiredSet);
      if Key(cb.login) !in seen {
        AddEntry(out, CoEntry(cb, requiredSet), CoPart(coBots[i + 1..], seen + {Key(cb.login)}, requiredSet));
        seen := seen + {Key(cb.login)};
        out := out + [CoEntry(cb, requiredSet)];
      }
    }
    assert coBots[..|coBots|] == coBots && coBots[|coBots|..] == [];
    assert out == primaries + whole;
    ghost var covered, extras := out, ExtraPart(required, seen);
    for i := 0 to |required|
      invariant out + ExtraPart(required[i..], seen) == covered + extras
    {
      var login := Trim(required[i]);
      ExtraPartCons(required, i, seen);
      if login != "" && Key(login) !in seen {
        AddEntry(out, ExtraEntry(login), ExtraPart(required[i + 1..], seen + {Key(login)}));
        seen := seen + {Key(login)};
        out := out + [ExtraEntry(login)];
      }
    }
    assert required[|required|..] == [];
  }

  lemma NothingLeft()
    ensures RequiredKeys([]) == {} && CoKeys([]) == {}
    ensures forall seen, requiredKeys :: CoPart([], seen, requiredKeys) == []
    ensures forall seen :: ExtraPart([], seen) == []
  {
  }

  lemma AddEntry(out: seq<Reviewer>, entry: Reviewer, rest: seq<Reviewer>)
    ensures out + ([entry] + rest) == (out + [entry]) + rest
  {
  }

  lemma RequiredKeysSnoc(required: seq<string>, i: nat)
    requires i < |required|
    ensures RequiredKeys(required[..i + 1])
         == RequiredKeys(required[..i]) + (if Trim(required[i]) == "" then {} else {Key(Trim(required[i]))})
  {
    hide Key, Trim;
    assert required[..i + 1] == required[..i] + [required[i]];
  }

  lemma CoKeysSnoc(coBots: seq<CoBot>, i: nat)
    requires i < |coBots|
    ensures CoKeys(coBots[..i + 1]) == CoKeys(coBots[..i]) + {Key(coBots[i].login)}
  {
    hide Key, Trim;
    assert coBots[..i + 1] == coBots[..i] + [coBots[i]];
  }

  lemma CoPartCons(coBots: seq<CoBot>, i: nat, seen: set<string>, requiredKeys: set<string>)
    requires i < |coBots|
    ensures CoPart(coBots[i..], seen, requiredKeys)
         == if Key(coBots[i].login) in seen then CoPart(coBots[i + 1..], seen, requiredKeys)
            else [CoEntry(coBots[i], requiredKeys)]
                 + CoPart(coBots[i + 1..], seen + {Key(coBots[i].login)}, requiredKeys)
  {
    hide Key, Trim;
    assert coBots[i..][1..] == coBots[i + 1..];
  }

  lemma ExtraPartCons(required: seq<string>, i: nat, seen: set<string>)
    requires i < |required|
    ensures var login := Trim(required[i]);
      ExtraPart(required[i..], seen)
      == if login == "" || Key(login) in seen then ExtraPart(required[i + 1..], seen)
         else [ExtraEntry(login)] + ExtraPart(required[i + 1..], seen + {Key(login)})
  {
    hide Key, Trim;
    assert required[i..][1..] == required[i + 1..];
  }

  // ---- What the list holds

  function LoginKeys(reviewers: seq<Reviewer>): set<string> {
    set r | r in reviewers :: Key(r.login)
  }

  /** No two reviewers are the same bot. */
  ghost predicate Distinct(reviewers: seq<Reviewer>) {
    forall i, j :: 0 <= i < j < |reviewers| ==> Key(reviewers[i].login) != Key(reviewers[j].login)
  }

  /** The first co-reviewer entry under a key. */
  function FirstCo(coBots: seq<CoBot>, key: string): (cb: Option<CoBot>)
    ensures cb.None? <==> key !in CoKeys(coBots)
    ensures cb.Some? ==> cb.value in coBots && Key(cb.value.login) == key
  {
    if coBots == [] then None
    else if Key(coBots[0].login) == key then Some(coBots[0])
    else FirstCo(coBots[1..], key)
  }

  lemma DistinctAppend(a: seq<Reviewer>, b: seq<Reviewer>)
    requires Distinct(a) && Distinct(b) && LoginKeys(a) !! LoginKeys(b)
    ensures Distinct(a + b) && LoginKeys(a + b) == LoginKeys(a) + LoginKeys(b)
  {
    hide Key, Trim;
    forall i, j | 0 <= i < j < |a + b| ensures Key((a + b)[i].login) != Key((a + b)[j].login) {
      if i < |a| <= j {
        assert Key(a[i].login) in LoginKeys(a) && Key(b[j - |a|].login) in LoginKeys(b);
      }
    }
  }

  lemma {:induction false} CoPartExactly(coBots: seq<CoBot>, seen: set<string>, requiredKeys: set<string>)
    ensures var out := CoPart(coBots, seen, requiredKeys);
      && Distinct(out) && LoginKeys(out) == CoKeys(coBots) - seen
      && forall r :: r in out ==>
           FirstCo(coBots, Key(r.login)).Some? && r == CoEntry(FirstCo(coBots, Key(r.login)).value, requiredKeys)
  {
    hide Key, Trim;
    if coBots != [] {
      var key := Key(coBots[0].login);
      assert CoKeys(coBots) == {key} + CoKeys(coBots[1..]);
      if key in seen {
        CoPartExactly(coBots[1..], seen, requiredKeys);
        assert forall r :: r in CoPart(coBots, seen, requiredKeys) ==> Key(r.login) in CoKeys(coBots) - seen;
      } else {
        CoPartExactly(coBots[1..], seen + {key}, requiredKeys);
        var rest := CoPart(coBots[1..], seen + {key}, requiredKeys);
        assert forall r :: r in rest ==> Key(r.login) in LoginKeys(rest);
        var head := [CoEntry(coBots[0], requiredKeys)];
        assert LoginKeys(head) == {key};
        DistinctAppend(head, rest);
      }
    }
  }

  lemma {:induction false} ExtraPartExactly(required: seq<string>, seen: set<string>)
    ensures var out := ExtraPart(required, seen);
      && Distinct(out) && LoginKeys(out) == RequiredKeys(required) - seen
      && forall r :: r in out ==> r == ExtraEntry(r.login)
  {
    hide Key, Trim;
    if required != [] {
      var login := Trim(required[0]);
      assert required == [required[0]] + required[1..];
      assert RequiredKeys(required)
          == (if login == "" then {} else {Key(login)}) + RequiredKeys(required[1..]);
      if login == "" || Key(login) in seen {
        ExtraPartExactly(required[1..], seen);
      } else {
        ExtraPartExactly(required[1..], seen + {Key(login)});
        var rest := ExtraPart(required[1..], seen + {Key(login)});
        assert LoginKeys([ExtraEntry(login)]) == {Key(login)};
        DistinctAppend([ExtraEntry(login)], rest);
      }
    }
  }

  /** The bots that review under these settings. */
  function Participants(primary: string, required: seq<string>, coBots: seq<CoBot>, off: bool): set<string> {
    (if off then {} else PrimaryKeys(primary))
    + (CoKeys(coBots) + RequiredKeys(required) - PrimaryKeys(primary))
  }

  /** The one metered reviewer of a list is the primary: it is there exactly when
      there is one and it is not turned off. */
  ghost predicate MeteredIsPrimary(reviewers: seq<Reviewer>, primary: string) {
    forall r :: r in reviewers ==> (r.metered <==> primary != "" && SameBot(r.login, primary))
  }

  function EntryUnder(login: string, primary: string, command: string, requiredKeys: set<string>,
                      coBots: seq<CoBot>): Reviewer {
    if primary != "" && SameBot(login, primary) then PrimaryEntry(primary, command, requiredKeys)
    else match FirstCo(coBots, Key(login))
      case Some(cb) => CoEntry(cb, requiredKeys)
      case None => ExtraEntry(login)
  }

  /** What each entry says about its bot. */
  ghost predicate EntriesRead(reviewers: seq<Reviewer>, primary: string, command: string, required: seq<string>,
                              coBots: seq<CoBot>) {
    forall r :: r in reviewers ==> r == EntryUnder(r.login, primary, command, RequiredKeys(required), coBots)
  }

  lemma CoEntriesRead(primary: string, command: string, requiredKeys: set<string>, coBots: seq<CoBot>, r: Reviewer)
    requires r in CoPart(coBots, PrimaryKeys(primary), requiredKeys)
    ensures r == EntryUnder(r.login, primary, command, requiredKeys, coBots)
  {
    hide Key, Trim;
    CoPartExactly(coBots, PrimaryKeys(primary), requiredKeys);
    assert Key(r.login) in LoginKeys(CoPart(coBots, PrimaryKeys(primary), requiredKeys));
  }

  lemma ExtraEntriesRead(primary: string, command: string, required: seq<string>, coBots: seq<CoBot>, r: Reviewer)
    requires r in ExtraPart(required, PrimaryKeys(primary) + CoKeys(coBots))
    ensures r == EntryUnder(r.login, primary, command, RequiredKeys(required), coBots)
  {
    hide Key, Trim;
    ExtraPartExactly(required, PrimaryKeys(primary) + CoKeys(coBots));
    assert Key(r.login) in LoginKeys(ExtraPart(required, PrimaryKeys(primary) + CoKeys(coBots)));
  }

  /** The list holds exactly the participants, each once and as configured. */
  lemma BuiltExactly(primary: string, command: string, required: seq<string>, coBots: seq<CoBot>, off: bool)
    ensures var out := Built(primary, command, required, coBots, off);
      && Distinct(out)
      && LoginKeys(out) == Participants(primary, required, coBots, off)
      && MeteredIsPrimary(out, primary)
      && EntriesRead(out, primary, command, required, coBots)
  {
    hide Key, Trim;
    var requiredKeys, seen := RequiredKeys(required), PrimaryKeys(primary);
    var first := PrimaryPart(primary, command, requiredKeys, off);
    var middle := CoPart(coBots, seen, requiredKeys);
    var last := ExtraPart(required, seen + CoKeys(coBots));
    CoPartExactly(coBots, seen, requiredKeys);
    ExtraPartExactly(required, seen + CoKeys(coBots));
    hide CoPart, ExtraPart, FirstCo, Distinct;
    assert LoginKeys(first) == if off then {} else PrimaryKeys(primary);
    OneIsDistinct(first);
    DistinctAppend(first, middle);
    DistinctAppend(first + middle, last);
    hide LoginKeys, RequiredKeys, CoKeys;
    forall r: Reviewer | r in first + middle + last
      ensures r == EntryUnder(r.login, primary, command, requiredKeys, coBots)
    {
      if r in middle {
        CoEntriesRead(primary, command, requiredKeys, coBots, r);
      } else if r in last {
        ExtraEntriesRead(primary, command, required, coBots, r);
      }
    }
  }

  /** The first entry for its bot. */
  ghost predicate FirstHere(coBots: seq<CoBot>, i: int) {
    0 <= i < |coBots| && forall j :: 0 <= j < i ==> Key(coBots[j].login) != Key(coBots[i].login)
  }

  lemma {:induction false} FirstCoAt(coBots: seq<CoBot>, i: nat)
    requires FirstHere(coBots, i)
    ensures FirstCo(coBots, Key(coBots[i].login)) == Some(coBots[i])
  {
    hide Key;
    if i > 0 {
      assert FirstHere(coBots[1..], i - 1);
      FirstCoAt(coBots[1..], i - 1);
    }
  }

  /** Every field of an entry: the primary's are its own, a co-reviewer's those it was
      configured with first, anyone else's only what gates; a bot gates when it is named
      among the required ones, or as a co-reviewer that is. */
  lemma EntriesExactly(primary: string, command: string, required: seq<string>, coBots: seq<CoBot>, off: bool,
                       r: Reviewer)
    requires r in Built(primary, command, required, coBots, off)
    ensures r.metered <==> primary != "" && Key(r.login) == Key(primary)
    ensures r.metered ==> r.login == primary && r.command == command && r.trigger == Always && r.grace == 0
    ensures forall i :: FirstHere(coBots, i) && Key(coBots[i].login) == Key(r.login) && !r.metered ==>
      r.command == coBots[i].command && r.trigger == coBots[i].trigger && r.grace == coBots[i].grace
      && r.login == coBots[i].login && r.name == coBots[i].name
    ensures !r.metered && (forall cb :: cb in coBots ==> Key(cb.login) != Key(r.login)) ==>
      r.command == "" && r.trigger == Never && r.grace == 0
    ensures r.required <==>
      || (exists login :: login in required && Trim(login) != "" && Key(Trim(login)) == Key(r.login))
      || (!r.metered
          && exists i :: FirstHere(coBots, i) && Key(coBots[i].login) == Key(r.login) && coBots[i].required)
  {
    hide Key, Trim, Built, CoPart, ExtraPart, FirstCo;
    BuiltExactly(primary, command, required, coBots, off);
    assert Key(r.login) in LoginKeys(Built(primary, command, required, coBots, off));
    forall i | FirstHere(coBots, i) ensures FirstCo(coBots, Key(coBots[i].login)) == Some(coBots[i]) {
      FirstCoAt(coBots, i);
    }
    if FirstCo(coBots, Key(r.login)).Some? {
      var i := FirstIndex(coBots, Key(r.login));
    }
  }

  /** Where a bot is first configured. */
  function Place(coBots: seq<CoBot>, key: string): nat {
    if coBots == [] || Key(coBots[0].login) == key then 0 else 1 + Place(coBots[1..], key)
  }

  lemma {:induction false} PlaceHere(coBots: seq<CoBot>, i: int)
    requires FirstHere(coBots, i)
    ensures Place(coBots, Key(coBots[i].login)) == i
  {
    hide Key;
    if i > 0 {
      assert FirstHere(coBots[1..], i - 1);
      PlaceHere(coBots[1..], i - 1);
    }
  }

  /** The entries come in the order their bots were first configured in. */
  lemma {:induction false} CoPartInOrder(coBots: seq<CoBot>, seen: set<string>, requiredKeys: set<string>, i: nat,
                                         j: nat)
    requires i < j < |CoPart(coBots, seen, requiredKeys)|
    ensures var out := CoPart(coBots, seen, requiredKeys);
      Place(coBots, Key(out[i].login)) < Place(coBots, Key(out[j].login))
    decreases |coBots|
  {
    hide Key;
    var key := Key(coBots[0].login);
    var after := if key in seen then seen else seen + {key};
    var rest := CoPart(coBots[1..], after, requiredKeys);
    if key in seen {
      CoPartUnseen(coBots[1..], after, requiredKeys, i);
      CoPartUnseen(coBots[1..], after, requiredKeys, j);
      CoPartInOrder(coBots[1..], after, requiredKeys, i, j);
    } else {
      assert CoPart(coBots, seen, requiredKeys) == [CoEntry(coBots[0], requiredKeys)] + rest;
      CoPartUnseen(coBots[1..], after, requiredKeys, j - 1);
      if i > 0 {
        CoPartUnseen(coBots[1..], after, requiredKeys, i - 1);
        CoPartInOrder(coBots[1..], after, requiredKeys, i - 1, j - 1);
      }
    }
  }

  lemma CoPartUnseen(coBots: seq<CoBot>, seen: set<string>, requiredKeys: set<string>, i: nat)
    requires i < |CoPart(coBots, seen, requiredKeys)|
    ensures Key(CoPart(coBots, seen, requiredKeys)[i].login) !in seen
  {
    hide Key;
    CoPartExactly(coBots, seen, requiredKeys);
    hide CoPart, CoKeys, FirstCo;
    var out := CoPart(coBots, seen, requiredKeys);
    assert Key(out[i].login) in LoginKeys(out);
  }

  /** The primary comes first, then the co-reviewers in the order they were configured, then
      everyone else. */
  lemma BuiltInOrder(primary: string, command: string, required: seq<string>, coBots: seq<CoBot>, off: bool,
                     i: nat, j: nat)
    requires i < j < |Built(primary, command, required, coBots, off)|
    ensures var out := Built(primary, command, required, coBots, off);
      && !out[j].metered
      && (Key(out[j].login) in CoKeys(coBots) ==> out[i].metered || Key(out[i].login) in CoKeys(coBots))
      && forall a, b ::
           && FirstHere(coBots, a) && Key(coBots[a].login) == Key(out[i].login) && !out[i].metered
           && FirstHere(coBots, b) && Key(coBots[b].login) == Key(out[j].login)
           ==> a < b
  {
    hide Key, Trim, Built, CoPart, ExtraPart;
    var out := Built(primary, command, required, coBots, off);
    var requiredKeys, seen := RequiredKeys(required), PrimaryKeys(primary);
    var first, middle := PrimaryPart(primary, command, requiredKeys, off), CoPart(coBots, seen, requiredKeys);
    var last := ExtraPart(required, seen + CoKeys(coBots));
    BuiltParts(primary, command, required, coBots, off);
    CoPartExactly(coBots, seen, requiredKeys);
    ExtraPartExactly(required, seen + CoKeys(coBots));
    assert forall r :: r in middle ==> Key(r.login) in LoginKeys(middle);
    assert forall r :: r in last ==> Key(r.login) in LoginKeys(last);
    var p, q := i - |first|, j - |first|;
    if i >= |first| && q < |middle| {
      assert out[i] == middle[p] && out[j] == middle[q];
      CoPartInOrder(coBots, seen, requiredKeys, p, q);
      forall a | FirstHere(coBots, a) ensures Place(coBots, Key(coBots[a].login)) == a {
        PlaceHere(coBots, a);
      }
    }
  }

  /** Where each entry of the list comes from. */
  lemma BuiltParts(primary: string, command: string, required: seq<string>, coBots: seq<CoBot>, off: bool)
    ensures var requiredKeys, seen := RequiredKeys(required), PrimaryKeys(primary);
      Built(primary, command, required, coBots, off)
      == PrimaryPart(primary, command, requiredKeys, off) + CoPart(coBots, seen, requiredKeys)
         + ExtraPart(required, seen + CoKeys(coBots))
  {
  }

  lemma {:induction false} FirstIndex(coBots: seq<CoBot>, key: string) returns (i: nat)
    requires key in CoKeys(coBots)
    ensures FirstHere(coBots, i) && Key(coBots[i].login) == key
  {
    hide Key;
    if Key(coBots[0].login) == key {
      i := 0;
    } else {
      i := FirstIndex(coBots[1..], key);
      assert forall j :: 0 < j < |coBots| ==> coBots[j] == coBots[1..][j - 1];
      i := i + 1;
    }
  }

  lemma OneIsDistinct(reviewers: seq<Reviewer>)
    requires |reviewers| <= 1
    ensures Distinct(reviewers)
  {
  }

  // ---- Comparing two configurations

  /** A configuration whose list was built from its own settings. */
  ghost predicate Resolved(c: Config) {
    Distinct(c.reviewers) && MeteredIsPrimary(c.reviewers, c.bot)
  }

  function Logins(reviewers: seq<Reviewer>): (logins: seq<string>)
    ensures |logins| == |reviewers| && forall i :: 0 <= i < |logins| ==> logins[i] == reviewers[i].login
  {
    seq(|reviewers|, i requires 0 <= i < |reviewers| => reviewers[i].login)
  }

  /** sameLogins: the same bots the same number of times, in any order. */
  ghost predicate SameLogins(a: seq<string>, b: seq<string>) {
    multiset(Keys(a)) == multiset(Keys(b))
  }

  function Count(seen: map<string, int>, key: string): int {
    if key in seen then seen[key] else 0
  }

  lemma CountSnoc(keys: seq<string>, i: nat)
    requires i < |keys|
    ensures multiset(keys[..i + 1]) == multiset(keys[..i]) + multiset{keys[i]}
  {
    assert keys[..i + 1] == keys[..i] + [keys[i]];
  }

  lemma CountWhole(keys: seq<string>, i: nat)
    requires i <= |keys|
    ensures multiset(keys[..i]) <= multiset(keys) && multiset(keys[..|keys|]) == multiset(keys)
  {
    assert keys == keys[..i] + keys[i..];
    assert keys[..|keys|] == keys;
  }

  /** The counts are those of the first multiset less those of the second. */
  ghost predicate Tally(seen: map<string, int>, plus: multiset<string>, minus: multiset<string>) {
    forall key :: Count(seen, key) == plus[key] as int - minus[key]
  }

  ghost predicate NonNegative(seen: map<string, int>) {
    forall key :: Count(seen, key) >= 0
  }

  lemma TallyUp(seen: map<string, int>, keys: seq<string>, i: nat)
    requires i < |keys| && Tally(seen, multiset(keys[..i]), multiset{})
    ensures Tally(seen[keys[i] := Count(seen, keys[i]) + 1], multiset(keys[..i + 1]), multiset{})
  {
    CountSnoc(keys, i);
  }

  lemma TallyDown(seen: map<string, int>, plus: multiset<string>, keys: seq<string>, i: nat)
    requires i < |keys| && Tally(seen, plus, multiset(keys[..i]))
    ensures Tally(seen[keys[i] := Count(seen, keys[i]) - 1], plus, multiset(keys[..i + 1]))
    ensures Count(seen, keys[i]) <= 0 ==> multiset(keys)[keys[i]] > plus[keys[i]]
    ensures Count(seen, keys[i]) > 0 && NonNegative(seen) ==> NonNegative(seen[keys[i] := Count(seen, keys[i]) - 1])
  {
    var next := seen[keys[i] := Count(seen, keys[i]) - 1];
    assert NonNegative(seen) ==>
        forall key :: Count(seen, key) >= 0 && (key != keys[i] ==> Count(next, key) == Count(seen, key));
    CountSnoc(keys, i);
    CountWhole(keys, i + 1);
    assert multiset(keys)[keys[i]] >= multiset(keys[..i + 1])[keys[i]];
  }

  lemma TallyZero(seen: map<string, int>, a: multiset<string>, b: multiset<string>)
    requires Tally(seen, a, b) && |a| == |b| && NonNegative(seen)
    ensures a == b
  {
    assert forall key :: b[key] <= a[key];
    SubsetOfEqualSize(b, a);
  }

  /** sameLogins: the counting loop decides exactly that. */
  method CompareLogins(a: seq<string>, b: seq<string>) returns (same: bool)
    ensures same <==> SameLogins(a, b)
  {
    hide Key, Keys, Trim, Tally, NonNegative;
    ghost var ka, kb := Keys(a), Keys(b);
    assert |multiset(ka)| == |a| && |multiset(kb)| == |b|;
    if |a| != |b| {
      return false;
    }
    var seen: map<string, int> := map[];
    NothingTallied();
    for i := 0 to |a|
      invariant Tally(seen, multiset(ka[..i]), multiset{})
    {
      TallyUp(seen, ka, i);
      seen := seen[Key(a[i]) := Count(seen, Key(a[i])) + 1];
    }
    CountWhole(ka, 0);
    OnlyCountedUp(seen, multiset(ka));
    for j := 0 to |b|
      invariant Tally(seen, multiset(ka), multiset(kb[..j]))
      invariant NonNegative(seen)
    {
      TallyDown(seen, multiset(ka), kb, j);
      var key := Key(b[j]);
      seen := seen[key := Count(seen, key) - 1];
      if seen[key] < 0 {
        return false;
      }
    }
    CountWhole(kb, 0);
    TallyZero(seen, multiset(ka), multiset(kb));
    return true;
  }

  lemma OnlyCountedUp(seen: map<string, int>, plus: multiset<string>)
    requires Tally(seen, plus, multiset{})
    ensures NonNegative(seen)
  {
  }

  lemma NothingTallied()
    ensures Tally(map[], multiset{}, multiset{})
  {
  }

  lemma SubsetOfEqualSize(b: multiset<string>, a: multiset<string>)
    requires b <= a && |a| == |b|
    ensures a == b
  {
    hide Key, Trim;
    assert a == b + (a - b);
  }

  /** The last entry of a list under a key, which is what a map filled in order keeps. */
  function LastUnder(reviewers: seq<Reviewer>, key: string): (r: Option<Reviewer>)
    ensures r.Some? ==> r.value in reviewers && Key(r.value.login) == key
    ensures r.None? ==> key !in LoginKeys(reviewers)
  {
    if reviewers == [] then None
    else
      var last := reviewers[|reviewers| - 1];
      if Key(last.login) == key then Some(last) else LastUnder(reviewers[..|reviewers| - 1], key)
  }

  predicate SameSetting(a: Reviewer, b: Reviewer) {
    a.trigger == b.trigger && Trim(a.command) == Trim(b.command)
  }

  /** sameTriggerSettings: as many reviewers, and each of b's is triggered as a's is. */
  predicate SameTriggerSettings(a: seq<Reviewer>, b: seq<Reviewer>) {
    |a| == |b| && forall i :: 0 <= i < |b| ==>
      LastUnder(a, Key(b[i].login)).Some? && SameSetting(LastUnder(a, Key(b[i].login)).value, b[i])
  }

  ghost predicate SameReviewers(before: Config, after: Config) {
    && SameLogins(before.requiredBots, after.requiredBots)
    && SameLogins(Logins(before.reviewers), Logins(after.reviewers))
    && SameTriggerSettings(before.reviewers, after.reviewers)
  }

  function Rank(trigger: Trigger): nat {
    match trigger
    case Always => 2
    case SelfHeal => 1
    case Never => 0
  }

  ghost predicate RequiresMore(before: Config, after: Config) {
    exists login :: login in after.requiredBots && !ContainsBot(before.requiredBots, login)
  }

  ghost predicate RanBefore(before: Config, r: Reviewer) {
    exists was :: was in before.reviewers && was.metered == r.metered && SameBot(was.login, r.login)
  }

  ghost predicate RunsMore(before: Config, after: Config) {
    exists r :: r in after.reviewers && !RanBefore(before, r)
  }

  predicate AsksMoreOf(r: Reviewer, was: Reviewer) {
    !r.metered && r.trigger != Never && SameBot(was.login, r.login) && Rank(r.trigger) > Rank(was.trigger)
  }

  ghost predicate AsksMore(before: Config, after: Config) {
    exists r, was :: r in after.reviewers && was in before.reviewers && AsksMoreOf(r, was)
  }

  /** addedReviewers: something must be heard under after that need not be under before. */
  ghost predicate Added(before: Config, after: Config) {
    RequiresMore(before, after) || RunsMore(before, after) || AsksMore(before, after)
  }

  method ListContains(logins: seq<string>, login: string) returns (found: bool)
    ensures found <==> ContainsBot(logins, login)
  {
    hide Key, Trim;
    for i := 0 to |logins|
      invariant forall j :: 0 <= j < i ==> !SameBot(logins[j], login)
    {
      if SameBot(logins[i], login) {
        return true;
      }
    }
    return false;
  }

  function LoginsOf(reviewers: seq<Reviewer>, metered: bool): seq<string> {
    if reviewers == [] then []
    else if reviewers[0].metered == metered then [reviewers[0].login] + LoginsOf(reviewers[1..], metered)
    else LoginsOf(reviewers[1..], metered)
  }

  ghost predicate Named(reviewers: seq<Reviewer>, metered: bool, login: string) {
    exists r :: r in reviewers && r.metered == metered && r.login == login
  }

  lemma {:induction false} LoginsOfExactly(reviewers: seq<Reviewer>, metered: bool)
    ensures forall login :: login in LoginsOf(reviewers, metered) <==> Named(reviewers, metered, login)
  {
    hide Key, Trim;
    if reviewers != [] {
      LoginsOfExactly(reviewers[1..], metered);
      assert reviewers == [reviewers[0]] + reviewers[1..];
    }
  }

  lemma RunsBefore(before: Config, login: string, metered: bool)
    ensures ContainsBot(LoginsOf(before.reviewers, metered), login)
      <==> exists was :: was in before.reviewers && was.metered == metered && SameBot(was.login, login)
  {
    hide Key, Trim;
    var logins := LoginsOf(before.reviewers, metered);
    LoginsOfExactly(before.reviewers, metered);
    if ContainsBot(logins, login) {
      var i :| 0 <= i < |logins| && SameBot(logins[i], login);
      assert logins[i] in logins;
    }
    if was :| was in before.reviewers && was.metered == metered && SameBot(was.login, login) {
      assert was.login in logins;
    }
  }

  /** addedReviewers: the loops decide Added. */
  method AddedReviewers(before: Config, after: Config, beforeCo: seq<string>, afterCo: seq<string>)
    returns (added: bool)
    requires beforeCo == LoginsOf(before.reviewers, false) && afterCo == LoginsOf(after.reviewers, false)
    ensures added <==> Added(before, after)
  {
    hide Key, Trim;
    for i := 0 to |after.requiredBots|
      invariant forall j :: 0 <= j < i ==> ContainsBot(before.requiredBots, after.requiredBots[j])
    {
      var found := ListContains(before.requiredBots, after.requiredBots[i]);
      if !found {
        assert after.requiredBots[i] in after.requiredBots;
        return true;
      }
    }
    LoginsOfExactly(after.reviewers, false);
    for i := 0 to |afterCo|
      invariant forall j :: 0 <= j < i ==> ContainsBot(beforeCo, afterCo[j])
    {
      var found := ListContains(beforeCo, afterCo[i]);
      if !found {
        assert afterCo[i] in afterCo;
        RunsBefore(before, afterCo[i], false);
        return true;
      }
    }
    var meteredBefore := LoginsOf(before.reviewers, true);
    for i := 0 to |after.reviewers|
      invariant forall j :: 0 <= j < i && after.reviewers[j].metered ==>
        ContainsBot(meteredBefore, after.reviewers[j].login)
      invariant forall j, k :: 0 <= j < i && 0 <= k < |before.reviewers| ==>
        !AsksMoreOf(after.reviewers[j], before.reviewers[k])
    {
      var r := after.reviewers[i];
      if r.metered {
        var found := ListContains(meteredBefore, r.login);
        if !found {
          RunsBefore(before, r.login, true);
          assert r in after.reviewers;
          return true;
        }
        continue;
      }
      if r.trigger == Never {
        continue;
      }
      for k := 0 to |before.reviewers|
        invariant forall m :: 0 <= m < k ==> !AsksMoreOf(r, before.reviewers[m])
      {
        if SameBot(before.reviewers[k].login, r.login) && Rank(r.trigger) > Rank(before.reviewers[k].trigger) {
          assert before.reviewers[k] in before.reviewers && r in after.reviewers;
          return true;
        }
      }
    }
    NothingAsked(before, after);
    return false;
  }

  lemma NothingAsked(before: Config, after: Config)
    requires forall j :: 0 <= j < |after.requiredBots| ==> ContainsBot(before.requiredBots, after.requiredBots[j])
    requires forall login :: login in LoginsOf(after.reviewers, false) ==>
      ContainsBot(LoginsOf(before.reviewers, false), login)
    requires forall j :: 0 <= j < |after.reviewers| && after.reviewers[j].metered ==>
      ContainsBot(LoginsOf(before.reviewers, true), after.reviewers[j].login)
    requires forall j, k :: 0 <= j < |after.reviewers| && 0 <= k < |before.reviewers| ==>
      !AsksMoreOf(after.reviewers[j], before.reviewers[k])
    ensures !Added(before, after)
  {
    hide Key, Trim;
    forall r | r in after.reviewers
      ensures RanBefore(before, r)
    {
      LoginsOfExactly(after.reviewers, false);
      RunsBefore(before, r.login, r.metered);
    }
  }

  /** A bot that spends nothing is now always asked when it was not, or asked to heal itself
      when it was never asked. */
  predicate Escalated(was: Reviewer, r: Reviewer) {
    && !r.metered && Key(was.login) == Key(r.login)
    && ((r.trigger == Always && was.trigger != Always) || (r.trigger == SelfHeal && was.trigger == Never))
  }

  /** What asks for something new: a login that was not required, a reviewer that did not run
      on the same account, or an escalation; nothing else does. */
  lemma AddedExactly(before: Config, after: Config)
    ensures Added(before, after) <==>
      || (exists login :: login in after.requiredBots && Key(login) !in Keys(before.requiredBots))
      || (exists r :: r in after.reviewers
            && forall was :: was in before.reviewers && was.metered == r.metered ==> Key(was.login) != Key(r.login))
      || (exists r, was :: r in after.reviewers && was in before.reviewers && Escalated(was, r))
  {
    hide Key, Keys;
    forall login ensures ContainsBot(before.requiredBots, login) <==> Key(login) in Keys(before.requiredBots) {
      ContainsKey(before.requiredBots, login);
    }
    forall r, was ensures AsksMoreOf(r, was) <==> Escalated(was, r) {
      EscalatedExactly(r, was);
    }
    hide Escalated, AsksMoreOf, ContainsBot;
  }

  lemma EscalatedExactly(r: Reviewer, was: Reviewer)
    ensures AsksMoreOf(r, was) <==> Escalated(was, r)
  {
    hide Key;
  }

  lemma ContainsKey(logins: seq<string>, login: string)
    ensures ContainsBot(logins, login) <==> Key(login) in Keys(logins)
  {
    hide Key;
    if ContainsBot(logins, login) {
      var i :| 0 <= i < |logins| && SameBot(logins[i], login);
      assert Keys(logins)[i] == Key(login);
    }
  }

  // ---- "Asks for nothing new" is a preorder

  lemma AddsNothingToItself(c: Config)
    requires Resolved(c)
    ensures !Added(c, c)
  {
    hide Key, Trim;
    forall login | login in c.requiredBots ensures ContainsBot(c.requiredBots, login) {
      var i :| 0 <= i < |c.requiredBots| && c.requiredBots[i] == login;
    }
  }

  /** Reflexivity needs the logins to be distinct, as those of a built list are: a list that
      repeats one, which buildReviewers never makes, asks itself for something new. */
  lemma AddsToItself()
    ensures exists c :: Added(c, c)
  {
    hide Key, Trim, RequiresMore, RunsMore;
    var quiet := Reviewer("a", "a", false, false, "", Never, 0);
    var c := Config("", "", [], [], [], [], false, false, [quiet, quiet.(trigger := Always)]);
    assert c.reviewers[0] in c.reviewers && c.reviewers[1] in c.reviewers;
    assert AsksMoreOf(c.reviewers[1], c.reviewers[0]);
    assert Added(c, c);
  }

  lemma ContainsBotTransitive(a: seq<string>, b: seq<string>, login: string)
    requires ContainsBot(b, login)
    requires forall x :: x in b ==> ContainsBot(a, x)
    ensures ContainsBot(a, login)
  {
    hide Key, Trim;
    var i :| 0 <= i < |b| && SameBot(b[i], login);
    assert b[i] in b && ContainsBot(a, b[i]);
    var j :| 0 <= j < |a| && SameBot(a[j], b[i]);
    assert SameBot(a[j], login);
  }

  lemma AddsNothingTransitive(a: Config, b: Config, c: Config)
    requires !Added(a, b) && !Added(b, c)
    ensures !Added(a, c)
  {
    hide Key, Trim;
    forall login | login in c.requiredBots ensures ContainsBot(a.requiredBots, login) {
      ContainsBotTransitive(a.requiredBots, b.requiredBots, login);
    }
    forall r | r in c.reviewers
      ensures RanBefore(a, r)
    {
      var mid :| mid in b.reviewers && mid.metered == r.metered && SameBot(mid.login, r.login);
      var was :| was in a.reviewers && was.metered == mid.metered && SameBot(was.login, mid.login);
    }
    forall r, was | r in c.reviewers && !r.metered && r.trigger != Never && was in a.reviewers
      && SameBot(was.login, r.login)
      ensures Rank(r.trigger) <= Rank(was.trigger)
    {
      var mid :| mid in b.reviewers && mid.metered == r.metered && SameBot(mid.login, r.login);
      assert Rank(r.trigger) <= Rank(mid.trigger);
      assert Rank(mid.trigger) <= Rank(was.trigger);
    }
  }

  // ---- sameReviewers is an equivalence

  lemma {:induction false} DistinctLast(reviewers: seq<Reviewer>, r: Reviewer)
    requires Distinct(reviewers) && r in reviewers
    ensures LastUnder(reviewers, Key(r.login)) == Some(r)
  {
    hide Key, Trim;
    var rest, last := reviewers[..|reviewers| - 1], reviewers[|reviewers| - 1];
    assert reviewers == rest + [last];
    assert forall i :: 0 <= i < |rest| ==> Key(reviewers[i].login) != Key(last.login);
    if Key(last.login) != Key(r.login) {
      DistinctLast(rest, r);
    }
  }

  lemma SameReviewersReflexive(c: Config)
    requires Resolved(c)
    ensures SameReviewers(c, c)
  {
    hide Key, Trim;
    forall i | 0 <= i < |c.reviewers|
      ensures LastUnder(c.reviewers, Key(c.reviewers[i].login)) == Some(c.reviewers[i]) {
      DistinctLast(c.reviewers, c.reviewers[i]);
    }
  }

  lemma SameTriggersTransitive(a: seq<Reviewer>, b: seq<Reviewer>, c: seq<Reviewer>)
    requires SameTriggerSettings(a, b) && SameTriggerSettings(b, c)
    ensures SameTriggerSettings(a, c)
  {
    hide Key, Trim;
    forall i | 0 <= i < |c|
      ensures LastUnder(a, Key(c[i].login)).Some? && SameSetting(LastUnder(a, Key(c[i].login)).value, c[i])
    {
      var mid := LastUnder(b, Key(c[i].login)).value;
      var j :| 0 <= j < |b| && b[j] == mid;
      assert Key(b[j].login) == Key(c[i].login);
    }
  }

  lemma SameReviewersTransitive(a: Config, b: Config, c: Config)
    requires SameReviewers(a, b) && SameReviewers(b, c)
    ensures SameReviewers(a, c)
  {
    hide Key, Trim;
    SameTriggersTransitive(a.reviewers, b.reviewers, c.reviewers);
  }

  lemma InOther(a: seq<Reviewer>, b: seq<Reviewer>, r: Reviewer)
    requires SameLogins(Logins(a), Logins(b)) && r in a
    ensures exists q :: q in b && SameBot(q.login, r.login)
  {
    hide Key, Trim;
    var i :| 0 <= i < |a| && a[i] == r;
    assert Keys(Logins(a))[i] == Key(r.login);
    assert Key(r.login) in multiset(Keys(Logins(a)));
    assert Key(r.login) in Keys(Logins(b));
    var j :| 0 <= j < |Keys(Logins(b))| && Keys(Logins(b))[j] == Key(r.login);
    assert b[j] in b && SameBot(b[j].login, r.login);
  }

  /** Distinct logins make the one-sided lookup symmetric. */
  lemma SameReviewersSymmetric(a: Config, b: Config)
    requires Resolved(a) && Resolved(b) && SameReviewers(a, b)
    ensures SameReviewers(b, a)
  {
    hide Key, Trim;
    forall i | 0 <= i < |a.reviewers|
      ensures LastUnder(b.reviewers, Key(a.reviewers[i].login)).Some?
           && SameSetting(LastUnder(b.reviewers, Key(a.reviewers[i].login)).value, a.reviewers[i])
    {
      var r := a.reviewers[i];
      InOther(a.reviewers, b.reviewers, r);
      var q :| q in b.reviewers && SameBot(q.login, r.login);
      DistinctLast(b.reviewers, q);
      DistinctLast(a.reviewers, r);
      var j :| 0 <= j < |b.reviewers| && b.reviewers[j] == q;
      assert SameSetting(LastUnder(a.reviewers, Key(b.reviewers[j].login)).value, b.reviewers[j]);
    }
  }

  lemma {:induction false} DistinctKeys(reviewers: seq<Reviewer>)
    requires Distinct(reviewers)
    ensures multiset(Keys(Logins(reviewers))) == multiset(LoginKeys(reviewers))
  {
    hide Key;
    if reviewers != [] {
      var rest, last := reviewers[..|reviewers| - 1], reviewers[|reviewers| - 1];
      assert reviewers == rest + [last];
      DistinctKeys(rest);
      assert Keys(Logins(reviewers)) == Keys(Logins(rest)) + [Key(last.login)];
      assert LoginKeys(reviewers) == LoginKeys(rest) + {Key(last.login)};
      assert Key(last.login) !in LoginKeys(rest);
    }
  }

  /** Two built lists name the same reviewers exactly when the same bots gate, the same bots
      run, and each is triggered the same way with the same command, white space aside. */
  lemma SameReviewersExactly(a: Config, b: Config)
    requires Resolved(a) && Resolved(b)
    ensures SameReviewers(a, b) <==>
      && multiset(Keys(a.requiredBots)) == multiset(Keys(b.requiredBots))
      && LoginKeys(a.reviewers) == LoginKeys(b.reviewers)
      && forall r, q :: r in a.reviewers && q in b.reviewers && Key(r.login) == Key(q.login) ==>
           r.trigger == q.trigger && Trim(r.command) == Trim(q.command)
  {
    hide Key, Trim, Keys, Distinct;
    DistinctKeys(a.reviewers);
    DistinctKeys(b.reviewers);
    KeysAreSet(a.reviewers, b.reviewers);
    forall r | r in a.reviewers ensures LastUnder(a.reviewers, Key(r.login)) == Some(r) {
      DistinctLast(a.reviewers, r);
    }
    forall q | q in b.reviewers && LoginKeys(a.reviewers) == LoginKeys(b.reviewers)
      ensures LastUnder(a.reviewers, Key(q.login)).Some?
    {
      assert Key(q.login) in LoginKeys(a.reviewers);
    }
  }

  lemma KeysAreSet(a: seq<Reviewer>, b: seq<Reviewer>)
    requires multiset(Keys(Logins(a))) == multiset(LoginKeys(a)) && multiset(Keys(Logins(b))) == multiset(LoginKeys(b))
    ensures SameLogins(Logins(a), Logins(b)) <==> LoginKeys(a) == LoginKeys(b)
    ensures SameLogins(Logins(a), Logins(b)) ==> |a| == |b|
  {
    hide Key, LoginKeys;
    var ka, kb := Keys(Logins(a)), Keys(Logins(b));
    assert |multiset(ka)| == |a| && |multiset(kb)| == |b|;
    assert forall key :: key in multiset(LoginKeys(a)) <==> key in LoginKeys(a);
    assert forall key :: key in multiset(LoginKeys(b)) <==> key in LoginKeys(b);
    if multiset(ka) == multiset(kb) {
      assert LoginKeys(a) == LoginKeys(b);
    }
  }

  /** Without distinct logins, on lists buildReviewers never makes, sameTriggerSettings can
      hold one way only. */
  lemma TriggerSettingsOneWay()
    ensures exists a, b :: SameTriggerSettings(a, b) && !SameTriggerSettings(b, a)
  {
    hide Trim;
    var x := Reviewer("a", "a", false, false, "", Always, 0);
    var y := x.(trigger := Never);
    var a, b := [y, x], [x, x];
    assert Key("a") == "a" && a[1] == x && b[0] == b[1] == x;
    assert LastUnder(a, "a") == Some(x) && LastUnder(b, "a") == Some(x);
    assert SameTriggerSettings(a, b);
    assert !SameSetting(x, a[0]);
    assert !SameTriggerSettings(b, a);
  }

  /** An edit that names the same reviewers asks for nothing new, under one primary. */
  lemma SameReviewersAddNothing(before: Config, after: Config)
    requires Resolved(before) && Resolved(after) && before.bot == after.bot
    requires SameReviewers(before, after)
    ensures !Added(before, after)
  {
    hide Key, Trim;
    forall login | login in after.requiredBots ensures ContainsBot(before.requiredBots, login) {
      var i :| 0 <= i < |after.requiredBots| && after.requiredBots[i] == login;
      assert Keys(after.requiredBots)[i] in multiset(Keys(after.requiredBots));
      assert Key(login) in Keys(before.requiredBots);
    }
    SameReviewersSymmetric(before, after);
    forall r | r in after.reviewers
      ensures RanBefore(before, r)
    {
      InOther(after.reviewers, before.reviewers, r);
    }
    forall r, was | r in after.reviewers && was in before.reviewers && SameBot(was.login, r.login)
      ensures Rank(r.trigger) == Rank(was.trigger)
    {
      var i :| 0 <= i < |after.reviewers| && after.reviewers[i] == r;
      DistinctLast(before.reviewers, was);
      assert SameSetting(LastUnder(before.reviewers, Key(after.reviewers[i].login)).value, after.reviewers[i]);
    }
  }
}
