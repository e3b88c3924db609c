/** ForRepo of internal/crq/reviewers.go: a repository's reviewer override laid
    over the fleet's configuration. */
module ForRepo {
  import opened Text
  import opened Reviewers

  /** A co-reviewer the program knows, with its two default trigger modes. */
  datatype CoReviewer = CoReviewer(login: string, name: string, command: string,
                                   whenEnabled: Trigger, whenRequired: Option<Trigger>)

  datatype Override = Override(setCoBots: bool, coBots: seq<string>,
                               setRequired: bool, required: seq<string>, primaryOff: bool)

  const DEFAULT_GRACE := 600

  // ---- Looking bots up

  /** CoReviewerByName: by name or by login. */
  function ByName(registry: seq<CoReviewer>, name: string): (found: Option<CoReviewer>)
    ensures found.Some? ==> found.value in registry && (found.value.name == name || SameBot(found.value.login, name))
    ensures found.None? ==> forall b :: b in registry ==> b.name != name && !SameBot(b.login, name)
  {
    if registry == [] then None
    else if registry[0].name == name || SameBot(name, registry[0].login) then Some(registry[0])
    else ByName(registry[1..], name)
  }

  /** Simple case folding onto the ASCII letters: besides the capitals, the long s
      and the Kelvin sign fold there. It is strings.EqualFold when one side is ASCII,
      as the registry's names are. */
  function FoldChar(c: char): char {
    if 'A' <= c <= 'Z' then c - 'A' + 'a'
    else if c == '\U{17F}' then 's'
    else if c == '\U{212A}' then 'k'
    else c
  }

  predicate EqualFold(a: string, b: string) {
    |a| == |b| && forall i :: 0 <= i < |a| ==> FoldChar(a[i]) == FoldChar(b[i])
  }

  /** defaultCoBot for a bot that is not required. */
  function DefaultCoBot(co: CoReviewer): CoBot {
    var command := Trim(co.command);
    CoBot(co.login, co.name, command, false, if command == "" then Never else co.whenEnabled, false, DEFAULT_GRACE)
  }

  predicate NamesBot(cb: CoBot, login: string) {
    SameBot(cb.login, login) || EqualFold(cb.name, Trim(login))
  }

  function FindCoBot(known: seq<CoBot>, login: string): (cb: Option<CoBot>)
    ensures cb.Some? ==> cb.value in known && NamesBot(cb.value, login)
    ensures cb.None? ==> forall k :: k in known ==> !NamesBot(k, login)
  {
    if known == [] then None
    else if NamesBot(known[0], login) then Some(known[0])
    else FindCoBot(known[1..], login)
  }

  /** knownCoBot: the operator's settings for a bot, or the registry's. */
  function KnownCoBot(registry: seq<CoReviewer>, known: seq<CoBot>, login: string): Option<CoBot> {
    match FindCoBot(known, login)
    case Some(cb) => Some(cb)
    case None =>
      match ByName(registry, login)
      case Some(co) => Some(DefaultCoBot(co))
      case None => None
  }

  /** reconcileTrigger: the mode an entry's requiredness implies, unless the
      operator named one. */
  function ReconcileTrigger(registry: seq<CoReviewer>, cb: CoBot): CoBot {
    if cb.triggerExplicit then cb
    else match ByName(registry, cb.name)
      case None => cb
      case Some(co) =>
        var trigger := if cb.required && co.whenRequired.Some? then co.whenRequired.value else co.whenEnabled;
        cb.(trigger := if cb.command == "" then Never else trigger)
  }

  /** An entry once it is decided whether its bot gates. */
  function Adjusted(registry: seq<CoReviewer>, cb: CoBot, required: bool): CoBot {
    ReconcileTrigger(registry, cb.(required := required))
  }

  // ---- The override

  function WithoutBot(logins: seq<string>, bot: string): seq<string> {
    if bot == "" || logins == [] then logins
    else if SameBot(logins[0], bot) then WithoutBot(logins[1..], bot)
    else [logins[0]] + WithoutBot(logins[1..], bot)
  }

  /** Who gates: the half the override names, less a primary that is off. */
  function RequiredUnder(c: Config, ov: Override): seq<string> {
    var required := if ov.setRequired then ov.required else c.requiredBots;
    if ov.primaryOff then WithoutBot(required, c.bot) else required
  }

  function CoLogins(coBots: seq<CoBot>): (logins: seq<string>)
    ensures |logins| == |coBots| && forall i :: 0 <= i < |logins| ==> logins[i] == coBots[i].login
  {
    seq(|coBots|, i requires 0 <= i < |coBots| => coBots[i].login)
  }

  /** Required implies enabled, for every bot the program knows how to run. */
  function AddRequired(registry: seq<CoReviewer>, enabled: seq<string>, required: seq<string>, bot: string): seq<string>
    decreases |required|
  {
    if required == [] then enabled
    else
      var login := required[0];
      var add := !SameBot(login, bot) && !ContainsBot(enabled, login) && ByName(registry, login).Some?;
      AddRequired(registry, if add then enabled + [login] else enabled, required[1..], bot)
  }

  function EnabledUnder(registry: seq<CoReviewer>, c: Config, ov: Override): seq<string> {
    AddRequired(registry, if ov.setCoBots then ov.coBots else CoLogins(c.coBots), RequiredUnder(c, ov), c.bot)
  }

  /** The fleet's entries this repository keeps. */
  function Kept(registry: seq<CoReviewer>, coBots: seq<CoBot>, enabled: seq<string>, required: seq<string>,
                bot: string): seq<CoBot> {
    if coBots == [] then []
    else
      var cb, rest := coBots[0], Kept(registry, coBots[1..], enabled, required, bot);
      if SameBot(cb.login, bot) then [cb] + rest
      else if ContainsBot(enabled, cb.login) then [Adjusted(registry, cb, ContainsBot(required, cb.login))] + rest
      else rest
  }

  /** The silenced entry of a primary that is a registry bot. */
  function PrimaryCo(registry: seq<CoReviewer>, known: seq<CoBot>, have: set<string>, enabled: seq<string>,
                     required: seq<string>, bot: string): seq<CoBot> {
    if bot == "" || Key(bot) in have || !(ContainsBot(required, bot) || ContainsBot(enabled, bot)) then []
    else match KnownCoBot(registry, known, bot)
      case None => []
      case Some(cb) => [cb.(required := ContainsBot(required, bot), trigger := Never)]
  }

  /** The bots this repository adds. */
  function Brought(registry: seq<CoReviewer>, known: seq<CoBot>, have: set<string>, enabled: seq<string>,
                   required: seq<string>): seq<CoBot>
    decreases |enabled|
  {
    if enabled == [] then []
    else
      var login := enabled[0];
      if Key(login) in have || KnownCoBot(registry, known, login).None? then
        Brought(registry, known, have, enabled[1..], required)
      else
        [Adjusted(registry, KnownCoBot(registry, known, login).value, ContainsBot(required, login))]
        + Brought(registry, known, have + {Key(login)}, enabled[1..], required)
  }

  function HavePrimary(have: set<string>, primary: seq<CoBot>, bot: string): set<string> {
    if primary == [] then have else have + {Key(bot)}
  }

  function CoBotsUnder(registry: seq<CoReviewer>, c: Config, ov: Override): seq<CoBot> {
    var required, enabled := RequiredUnder(c, ov), EnabledUnder(registry, c, ov);
    var kept := Kept(registry, c.coBots, enabled, required, c.bot);
    var primary := PrimaryCo(registry, c.knownCoBots, CoKeys(kept), enabled, required, c.bot);
    var have := HavePrimary(CoKeys(kept), primary, c.bot);
    kept + primary + Brought(registry, c.knownCoBots, have, enabled, required)
  }

  function GatingLogins(reviewers: seq<Reviewer>): seq<string> {
    if reviewers == [] then []
    else if reviewers[0].required then [reviewers[0].login] + GatingLogins(reviewers[1..])
    else GatingLogins(reviewers[1..])
  }

  predicate Inherits(ov: Override) { !ov.setCoBots && !ov.setRequired && !ov.primaryOff }

  /** What ForRepo computes. */
  function Under(registry: seq<CoReviewer>, c: Config, ov: Override): Config {
    if Inherits(ov) then c
    else
      var coBots := CoBotsUnder(registry, c, ov);
      var reviewers := Built(c.bot, c.reviewCommand, RequiredUnder(c, ov), coBots, ov.primaryOff);
      c.(primaryOff := ov.primaryOff, coBots := coBots, reviewers := reviewers,
         requiredBots := GatingLogins(reviewers),
         feedbackBots := if c.feedbackExplicit then c.feedbackBots else Logins(reviewers))
  }

  // ---- The method

  method RequiredFor(c: Config, ov: Override) returns (required: seq<string>)
    ensures required == RequiredUnder(c, ov)
  {
    hide Key, Trim;
    required := if ov.setRequired then ov.required else c.requiredBots;
    if ov.primaryOff && c.bot != "" {
      var list := required;
      required := [];
      for i := 0 to |list|
        invariant required + WithoutBot(list[i..], c.bot) == WithoutBot(list, c.bot)
      {
        assert list[i..][1..] == list[i + 1..];
        if !SameBot(list[i], c.bot) {
          assert (required + [list[i]]) + WithoutBot(list[i + 1..], c.bot)
              == required + ([list[i]] + WithoutBot(list[i + 1..], c.bot));
          required := required + [list[i]];
        }
      }
      assert list[|list|..] == [];
    }
  }

  method EnabledFor(registry: seq<CoReviewer>, c: Config, ov: Override, required: seq<string>)
    returns (enabled: seq<string>)
    requires required == RequiredUnder(c, ov)
    ensures enabled == EnabledUnder(registry, c, ov)
  {
    hide Key, Trim, ByName, RequiredUnder;
    enabled := ov.coBots;
    if !ov.setCoBots {
      enabled := [];
      for i := 0 to |c.coBots|
        invariant enabled == CoLogins(c.coBots)[..i]
      {
        enabled := enabled + [c.coBots[i].login];
      }
      assert enabled == CoLogins(c.coBots);
    }
    ghost var whole := AddRequired(registry, enabled, required, c.bot);
    for i := 0 to |required|
      invariant AddRequired(registry, enabled, required[i..], c.bot) == whole
    {
      assert required[i..][1..] == required[i + 1..];
      var login := required[i];
      if SameBot(login, c.bot) || ContainsBot(enabled, login) {
        continue;
      }
      if ByName(registry, login).Some? {
        enabled := enabled + [login];
      }
    }
    assert required[|required|..] == [];
  }

  lemma KeptCons(registry: seq<CoReviewer>, coBots: seq<CoBot>, i: nat, enabled: seq<string>, required: seq<string>,
                 bot: string, keep: seq<CoBot>)
    requires i < |coBots|
    ensures var cb := coBots[i];
      var now := if SameBot(cb.login, bot) then [cb]
                 else if ContainsBot(enabled, cb.login) then [Adjusted(registry, cb, ContainsBot(required, cb.login))]
                 else [];
      keep + Kept(registry, coBots[i..], enabled, required, bot)
      == (keep + now) + Kept(registry, coBots[i + 1..], enabled, required, bot)
  {
    assert coBots[i..][1..] == coBots[i + 1..];
    hide Key, Trim, ReconcileTrigger;
  }

  lemma BroughtCons(registry: seq<CoReviewer>, known: seq<CoBot>, have: set<string>, enabled: seq<string>, i: nat,
                    required: seq<string>, keep: seq<CoBot>)
    requires i < |enabled|
    ensures var login := enabled[i];
      keep + Brought(registry, known, have, enabled[i..], required)
      == if Key(login) in have || KnownCoBot(registry, known, login).None? then
           keep + Brought(registry, known, have, enabled[i + 1..], required)
         else
           (keep + [Adjusted(registry, KnownCoBot(registry, known, login).value, ContainsBot(required, login))])
           + Brought(registry, known, have + {Key(login)}, enabled[i + 1..], required)
  {
    assert enabled[i..][1..] == enabled[i + 1..];
    hide Key, Trim, ReconcileTrigger, KnownCoBot;
  }

  lemma CoKeysAppend(a: seq<CoBot>, b: seq<CoBot>)
    ensures CoKeys(a + b) == CoKeys(a) + CoKeys(b)
  {
    hide Key, Trim;
  }

  lemma AppendEmpty<T>(a: seq<T>)
    ensures a + [] == a
  {
  }

  method CoBotsFor(registry: seq<CoReviewer>, c: Config, ov: Override, required: seq<string>, enabled: seq<string>)
    returns (keep: seq<CoBot>)
    requires required == RequiredUnder(c, ov) && enabled == EnabledUnder(registry, c, ov)
    ensures keep == CoBotsUnder(registry, c, ov)
  {
    hide Key, Trim, RequiredUnder, EnabledUnder, Kept, Brought, ReconcileTrigger, KnownCoBot, CoKeys, ContainsBot;
    KeptEnd(registry, enabled, required, c.bot);
    keep := [];
    var have: set<string> := {};
    CoKeysNone();
    for i := 0 to |c.coBots|
      invariant keep + Kept(registry, c.coBots[i..], enabled, required, c.bot)
             == Kept(registry, c.coBots, enabled, required, c.bot)
      invariant have == CoKeys(keep)
    {
      var cb := c.coBots[i];
      KeptCons(registry, c.coBots, i, enabled, required, c.bot, keep);
      AppendEmpty(keep);
      if !SameBot(cb.login, c.bot) {
        if !ContainsBot(enabled, cb.login) {
          continue;
        }
        cb := Adjusted(registry, cb, ContainsBot(required, cb.login));
      }
      CoKeysAppend(keep, [cb]);
      CoKeysOne(cb);
      keep := keep + [cb];
      have := have + {Key(cb.login)};
    }
    assert c.coBots[|c.coBots|..] == [];
    AppendEmpty(keep);
    ghost var primary := PrimaryCo(registry, c.knownCoBots, have, enabled, required, c.bot);
    ghost var kept := keep;
    if c.bot != "" && Key(c.bot) !in have && (ContainsBot(required, c.bot) || ContainsBot(enabled, c.bot)) {
      var known := KnownCoBot(registry, c.knownCoBots, c.bot);
      if known.Some? {
        keep := keep + [known.value.(required := ContainsBot(required, c.bot), trigger := Never)];
        have := have + {Key(c.bot)};
      }
    }
    assert keep == kept + primary && have == HavePrimary(CoKeys(kept), primary, c.bot);
    ghost var brought := Brought(registry, c.knownCoBots, have, enabled, required);
    for i := 0 to |enabled|
      invariant keep + Brought(registry, c.knownCoBots, have, enabled[i..], required) == kept + primary + brought
    {
      var login := enabled[i];
      BroughtCons(registry, c.knownCoBots, have, enabled, i, required, keep);
      if Key(login) in have {
        continue;
      }
      var known := KnownCoBot(registry, c.knownCoBots, login);
      if known.Some? {
        keep := keep + [Adjusted(registry, known.value, ContainsBot(required, login))];
        have := have + {Key(login)};
      }
    }
    assert enabled[|enabled|..] == [];
    BroughtEnd(registry, c.knownCoBots, have, required);
    AppendEmpty(keep);
  }

  lemma KeptEnd(registry: seq<CoReviewer>, enabled: seq<string>, required: seq<string>, bot: string)
    ensures Kept(registry, [], enabled, required, bot) == []
  {
  }

  lemma BroughtEnd(registry: seq<CoReviewer>, known: seq<CoBot>, have: set<string>, required: seq<string>)
    ensures Brought(registry, known, have, [], required) == []
  {
  }

  lemma CoKeysNone()
    ensures CoKeys([]) == {}
  {
  }

  lemma CoKeysOne(cb: CoBot)
    ensures CoKeys([cb]) == {Key(cb.login)}
  {
    assert CoKeys([cb]) == {Key(cb.login)} by { hide Key; }
  }

  /** ForRepo. */
  method ForRepo(registry: seq<CoReviewer>, c: Config, ov: Override) returns (out: Config)
    ensures out == Under(registry, c, ov)
    ensures !ov.setCoBots && !ov.setRequired && !ov.primaryOff ==> out == c
    ensures ov.setCoBots || ov.setRequired || ov.primaryOff ==>
      && out.primaryOff == ov.primaryOff
      && out.coBots == CoBotsUnder(registry, c, ov)
      && out.reviewers == Built(c.bot, c.reviewCommand, RequiredUnder(c, ov), out.coBots, ov.primaryOff)
      && out.requiredBots == GatingLogins(out.reviewers)
      && out.feedbackBots == (if c.feedbackExplicit then c.feedbackBots else Logins(out.reviewers))
      && out.(primaryOff := c.primaryOff, feedbackBots := c.feedbackBots, coBots := c.coBots,
              reviewers := c.reviewers, requiredBots := c.requiredBots) == c
  {
    hide Key, Trim, RequiredUnder, CoBotsUnder, EnabledUnder, Built;
    if !ov.setCoBots && !ov.setRequired && !ov.primaryOff {
      return c;
    }
    var required := RequiredFor(c, ov);
    var enabled := EnabledFor(registry, c, ov, required);
    var coBots := CoBotsFor(registry, c, ov, required, enabled);
    out := c.(primaryOff := ov.primaryOff, coBots := coBots, requiredBots := required);
    var reviewers := BuildReviewers(out.bot, out.reviewCommand, out.requiredBots, out.coBots, out.primaryOff);
    out := out.(reviewers := reviewers);
    var gating := GatingOf(reviewers);
    out := out.(requiredBots := gating);
    if !c.feedbackExplicit {
      out := out.(feedbackBots := Logins(reviewers));
    }
  }

  method GatingOf(reviewers: seq<Reviewer>) returns (out: seq<string>)
    ensures out == GatingLogins(reviewers)
  {
    out := [];
    for i := 0 to |reviewers|
      invariant out + GatingLogins(reviewers[i..]) == GatingLogins(reviewers)
    {
      assert reviewers[i..][1..] == reviewers[i + 1..];
      if reviewers[i].required {
        assert (out + [reviewers[i].login]) + GatingLogins(reviewers[i + 1..])
            == out + ([reviewers[i].login] + GatingLogins(reviewers[i + 1..]));
        out := out + [reviewers[i].login];
      }
    }
  }

  // ---- What the halves and the settings say

  /** Two characters EqualFold takes for one letter. */
  predicate OneLetter(a: char, b: char) {
    || a == b
    || ('A' <= a <= 'Z' && b == a - 'A' + 'a') || ('A' <= b <= 'Z' && a == b - 'A' + 'a')
    || (a in "Ss\U{17F}" && b in "Ss\U{17F}") || (a in "Kk\U{212A}" && b in "Kk\U{212A}")
  }

  lemma EqualFoldExactly(a: string, b: string)
    ensures EqualFold(a, b) <==> |a| == |b| && forall i :: 0 <= i < |a| ==> OneLetter(a[i], b[i])
  {
    forall i | 0 <= i < |a| == |b| ensures FoldChar(a[i]) == FoldChar(b[i]) <==> OneLetter(a[i], b[i]) {
      FoldsOneLetter(a[i], b[i]);
    }
    hide FoldChar, OneLetter;
  }

  lemma FoldsOneLetter(a: char, b: char)
    ensures FoldChar(a) == FoldChar(b) <==> OneLetter(a, b)
  {
  }

  /** The first registry entry a name or login means. */
  ghost predicate Means(registry: seq<CoReviewer>, i: int, name: string) {
    && 0 <= i < |registry| && (registry[i].name == name || Key(registry[i].login) == Key(name))
    && forall j :: 0 <= j < i ==> registry[j].name != name && Key(registry[j].login) != Key(name)
  }

  lemma {:induction false} ByNameExactly(registry: seq<CoReviewer>, name: string, i: int)
    requires Means(registry, i, name)
    ensures ByName(registry, name) == Some(registry[i])
  {
    hide Key;
    if i > 0 {
      assert Means(registry[1..], i - 1, name);
      ByNameExactly(registry[1..], name, i - 1);
    }
  }

  /** The mode an entry gets: the one its operator named; else, without a command, none; else
      the registry's for a bot that gates, if it has one, and the registry's other one. */
  lemma ReconciledExactly(registry: seq<CoReviewer>, cb: CoBot)
    ensures var out := ReconcileTrigger(registry, cb);
      && out.(trigger := cb.trigger) == cb
      && (cb.triggerExplicit ==> out == cb)
      && ((forall b :: b in registry ==> b.name != cb.name && Key(b.login) != Key(cb.name)) ==> out == cb)
      && forall i :: Means(registry, i, cb.name) && !cb.triggerExplicit ==>
           out.trigger == if cb.command == "" then Never
                          else if cb.required && registry[i].whenRequired.Some? then registry[i].whenRequired.value
                          else registry[i].whenEnabled
  {
    hide Key;
    forall i | Means(registry, i, cb.name) ensures ByName(registry, cb.name) == Some(registry[i]) {
      ByNameExactly(registry, cb.name, i);
    }
  }

  /** The first of the operator's entries for a bot, by login or by name. */
  ghost predicate Configures(known: seq<CoBot>, i: int, login: string) {
    && 0 <= i < |known| && (Key(known[i].login) == Key(login) || EqualFold(known[i].name, Trim(login)))
    && forall j :: 0 <= j < i ==> Key(known[j].login) != Key(login) && !EqualFold(known[j].name, Trim(login))
  }

  lemma {:induction false} FoundExactly(known: seq<CoBot>, login: string, i: int)
    requires Configures(known, i, login)
    ensures FindCoBot(known, login) == Some(known[i])
  {
    hide Key, Trim, EqualFold;
    if i > 0 {
      assert Configures(known[1..], i - 1, login);
      FoundExactly(known[1..], login, i - 1);
    }
  }

  /** The settings of a bot: the operator's first; without any, the registry's, with its
      command trimmed and no mode named; and none for a bot neither knows. */
  lemma KnownExactly(registry: seq<CoReviewer>, known: seq<CoBot>, login: string)
    ensures forall i :: Configures(known, i, login) ==> KnownCoBot(registry, known, login) == Some(known[i])
    ensures (forall cb :: cb in known ==> Key(cb.login) != Key(login) && !EqualFold(cb.name, Trim(login))) ==>
      && (forall i :: Means(registry, i, login) ==>
            KnownCoBot(registry, known, login)
            == Some(CoBot(registry[i].login, registry[i].name, Trim(registry[i].command), false,
                          if Trim(registry[i].command) == "" then Never else registry[i].whenEnabled, false, 600)))
      && ((forall b :: b in registry ==> b.name != login && Key(b.login) != Key(login)) ==>
            KnownCoBot(registry, known, login) == None)
  {
    hide Key, Trim, EqualFold;
    forall i | Configures(known, i, login) ensures FindCoBot(known, login) == Some(known[i]) {
      FoundExactly(known, login, i);
    }
    forall i | Means(registry, i, login) ensures ByName(registry, login) == Some(registry[i]) {
      ByNameExactly(registry, login, i);
    }
  }

  /** Who gates: whom the override names, or else the fleet, but no primary that is off. */
  lemma RequiredExactly(c: Config, ov: Override, login: string)
    ensures login in RequiredUnder(c, ov) <==>
      && login in (if ov.setRequired then ov.required else c.requiredBots)
      && !(ov.primaryOff && c.bot != "" && Key(login) == Key(c.bot))
  {
    hide Key;
    if ov.primaryOff && c.bot != "" {
      WithoutBotExactly(if ov.setRequired then ov.required else c.requiredBots, c.bot);
    }
  }

  /** Who is asked: whom the override names, or else the fleet, and every gating bot of the
      registry but the primary. */
  lemma EnabledExactly(registry: seq<CoReviewer>, c: Config, ov: Override, login: string)
    ensures Key(login) in Keys(EnabledUnder(registry, c, ov)) <==>
      || Key(login) in Keys(if ov.setCoBots then ov.coBots else CoLogins(c.coBots))
      || exists x :: x in RequiredUnder(c, ov) && Key(x) == Key(login) && Key(x) != Key(c.bot)
           && ByName(registry, x).Some?
  {
    hide Key, ByName, RequiredUnder;
    EnabledKeys(registry, if ov.setCoBots then ov.coBots else CoLogins(c.coBots), RequiredUnder(c, ov), c.bot, login);
  }

  lemma {:induction false} EnabledKeys(registry: seq<CoReviewer>, enabled: seq<string>, required: seq<string>,
                                       bot: string, login: string)
    ensures Key(login) in Keys(AddRequired(registry, enabled, required, bot)) <==>
      || Key(login) in Keys(enabled)
      || exists x :: x in required && Key(x) == Key(login) && Key(x) != Key(bot) && ByName(registry, x).Some?
    decreases |required|
  {
    hide Key, ByName, ContainsBot;
    if required != [] {
      var x := required[0];
      var add := !SameBot(x, bot) && !ContainsBot(enabled, x) && ByName(registry, x).Some?;
      ContainsKey(enabled, x);
      assert required == [x] + required[1..];
      assert Keys(enabled + [x]) == Keys(enabled) + [Key(x)];
      EnabledKeys(registry, if add then enabled + [x] else enabled, required[1..], bot, login);
    }
  }

  // ---- Well-formed settings

  /** A login in the form BuildConfig and the editors store: trimmed, with more than
      the suffix, and not the short name of some other bot. */
  ghost predicate Canonical(registry: seq<CoReviewer>, known: seq<CoBot>, login: string) {
    && Trim(login) == login && Key(login) != "" && login != ""
    && (forall b :: b in registry && b.name == login ==> SameBot(b.login, login))
    && (forall cb :: cb in known && EqualFold(cb.name, login) ==> SameBot(cb.login, login))
  }

  ghost predicate CanonicalList(registry: seq<CoReviewer>, known: seq<CoBot>, logins: seq<string>) {
    forall login :: login in logins ==> Canonical(registry, known, login)
  }

  /** The same settings up to what requiredness decides. */
  predicate SameSettings(a: CoBot, b: CoBot) {
    a.(required := b.required, trigger := b.trigger) == b && (a.triggerExplicit ==> a.trigger == b.trigger)
  }

  /** An entry that agrees with the operator's settings for its bot. */
  ghost predicate Consistent(registry: seq<CoReviewer>, known: seq<CoBot>, cb: CoBot) {
    var settings := KnownCoBot(registry, known, cb.login);
    settings.Some? && SameSettings(settings.value, cb) && ByName(registry, cb.name).Some?
  }

  ghost predicate WellKnown(registry: seq<CoReviewer>, known: seq<CoBot>) {
    && (forall b :: b in registry ==> Canonical(registry, known, b.login))
    && (forall cb :: cb in known ==> Canonical(registry, known, cb.login) && ByName(registry, cb.name).Some?)
  }

  ghost predicate GoodEntry(registry: seq<CoReviewer>, known: seq<CoBot>, bot: string, cb: CoBot) {
    Canonical(registry, known, cb.login) && (SameBot(cb.login, bot) || Consistent(registry, known, cb))
  }

  /** What BuildConfig produces. */
  ghost predicate WellFormed(registry: seq<CoReviewer>, c: Config) {
    && WellKnown(registry, c.knownCoBots)
    && (c.bot == "" || Canonical(registry, c.knownCoBots, c.bot))
    && CanonicalList(registry, c.knownCoBots, c.requiredBots)
    && forall cb :: cb in c.coBots ==> GoodEntry(registry, c.knownCoBots, c.bot, cb)
  }

  ghost predicate GoodOverride(registry: seq<CoReviewer>, c: Config, ov: Override) {
    CanonicalList(registry, c.knownCoBots, ov.coBots) && CanonicalList(registry, c.knownCoBots, ov.required)
  }

  // ---- Settings are looked up by bot

  lemma {:induction false} ByNameKeyed(registry: seq<CoReviewer>, x: string, y: string)
    requires forall b :: b in registry ==> (b.name == x || SameBot(x, b.login) <==> b.name == y || SameBot(y, b.login))
    ensures ByName(registry, x) == ByName(registry, y)
  {
    hide Key;
    if registry != [] {
      assert registry[0] in registry;
      ByNameKeyed(registry[1..], x, y);
    }
  }

  lemma {:induction false} FindKeyed(known: seq<CoBot>, x: string, y: string)
    requires forall cb :: cb in known ==> (NamesBot(cb, x) <==> NamesBot(cb, y))
    ensures FindCoBot(known, x) == FindCoBot(known, y)
  {
    hide Key, NamesBot;
    if known != [] {
      assert known[0] in known;
      FindKeyed(known[1..], x, y);
    }
  }


  /** Two spellings of a bot have one set of settings, and those are consistent. */
  lemma KnownKeyed(registry: seq<CoReviewer>, known: seq<CoBot>, x: string, y: string)
    requires WellKnown(registry, known) && Canonical(registry, known, x) && Canonical(registry, known, y)
    requires SameBot(x, y)
    ensures KnownCoBot(registry, known, x) == KnownCoBot(registry, known, y)
    ensures KnownCoBot(registry, known, x).Some? ==> SameBot(KnownCoBot(registry, known, x).value.login, x)
    ensures ByName(registry, x) == ByName(registry, y)
    ensures ByName(registry, x).Some? ==> KnownCoBot(registry, known, x).Some?
  {
    hide Key, Trim, EqualFold;
    ByNameKeyed(registry, x, y);
    FindKeyed(known, x, y);
  }

  lemma KnownConsistent(registry: seq<CoReviewer>, known: seq<CoBot>, x: string)
    requires WellKnown(registry, known) && Canonical(registry, known, x) && KnownCoBot(registry, known, x).Some?
    ensures var cb := KnownCoBot(registry, known, x).value;
      Canonical(registry, known, cb.login) && SameBot(cb.login, x) && Consistent(registry, known, cb)
  {
    hide Key, Trim, EqualFold;
    var cb := KnownCoBot(registry, known, x).value;
    KnownKeyed(registry, known, x, x);
    if FindCoBot(known, x).None? {
      var co := ByName(registry, x).value;
      assert co in registry && cb.name == co.name && cb.login == co.login;
      assert ByName(registry, co.name).Some?;
    }
    KnownKeyed(registry, known, x, cb.login);
  }

  lemma AdjustedSame(registry: seq<CoReviewer>, a: CoBot, b: CoBot, required: bool)
    requires SameSettings(a, b) && ByName(registry, b.name).Some?
    ensures Adjusted(registry, a, required) == Adjusted(registry, b, required)
    ensures SameSettings(a, Adjusted(registry, b, required))
    ensures Adjusted(registry, b, required).login == b.login && Adjusted(registry, b, required).name == b.name
    ensures Adjusted(registry, b, required).required == required
  {
    hide ByName;
  }

  lemma ContainsKeyed(logins: seq<string>, x: string, y: string)
    requires SameBot(x, y)
    ensures ContainsBot(logins, x) == ContainsBot(logins, y)
  {
    hide Key;
  }

  /** The entry a bot has under a required list: its settings, its mode recomputed. */
  function EntryFor(registry: seq<CoReviewer>, known: seq<CoBot>, required: seq<string>, login: string): Option<CoBot> {
    match KnownCoBot(registry, known, login)
    case None => None
    case Some(cb) => Some(Adjusted(registry, cb, ContainsBot(required, login)))
  }


  lemma EntryKeyed(registry: seq<CoReviewer>, known: seq<CoBot>, required: seq<string>, x: string, y: string)
    requires WellKnown(registry, known) && Canonical(registry, known, x) && Canonical(registry, known, y)
    requires SameBot(x, y)
    ensures EntryFor(registry, known, required, x) == EntryFor(registry, known, required, y)
  {
    hide Key, Canonical, WellKnown, KnownCoBot, ReconcileTrigger, ContainsBot;
    KnownKeyed(registry, known, x, y);
    ContainsKeyed(required, x, y);
  }

  /** A consistent entry, adjusted, is its bot's entry; and stays a good one. */
  lemma AdjustedIsEntry(registry: seq<CoReviewer>, known: seq<CoBot>, required: seq<string>, cb: CoBot)
    requires Consistent(registry, known, cb)
    ensures var now := Adjusted(registry, cb, ContainsBot(required, cb.login));
      EntryFor(registry, known, required, cb.login) == Some(now) && now.login == cb.login
      && Consistent(registry, known, now) && now.required == ContainsBot(required, cb.login)
  {
    hide Key, KnownCoBot, ContainsBot, ByName;
    var settings := KnownCoBot(registry, known, cb.login).value;
    AdjustedSame(registry, settings, cb, ContainsBot(required, cb.login));
  }

  // ---- Which bots a repository runs

  lemma {:induction false} WithoutBotExactly(logins: seq<string>, bot: string)
    requires bot != ""
    ensures forall login :: login in WithoutBot(logins, bot) <==> login in logins && !SameBot(login, bot)
  {
    hide Key;
    if logins != [] {
      WithoutBotExactly(logins[1..], bot);
      assert logins == [logins[0]] + logins[1..];
    }
  }

  /** A repository that turns the primary off does not gate on it. */
  lemma RequiredGood(registry: seq<CoReviewer>, c: Config, ov: Override)
    requires WellFormed(registry, c) && GoodOverride(registry, c, ov)
    ensures CanonicalList(registry, c.knownCoBots, RequiredUnder(c, ov))
    ensures ov.primaryOff && c.bot != "" ==> !ContainsBot(RequiredUnder(c, ov), c.bot)
  {
    hide Key, Canonical, WellKnown, GoodEntry;
    var required := if ov.setRequired then ov.required else c.requiredBots;
    if ov.primaryOff && c.bot != "" {
      WithoutBotExactly(required, c.bot);
    }
  }

  lemma ContainsSnoc(logins: seq<string>, login: string, x: string)
    ensures ContainsBot(logins + [login], x) <==> ContainsBot(logins, x) || SameBot(login, x)
  {
    hide Key;
    var longer := logins + [login];
    assert longer[|logins|] == login;
    assert forall i :: 0 <= i < |logins| ==> longer[i] == logins[i];
  }

  lemma {:induction false} AddRequiredExactly(registry: seq<CoReviewer>, enabled: seq<string>, required: seq<string>,
                                              bot: string, x: string)
    ensures ContainsBot(enabled, x) ==> ContainsBot(AddRequired(registry, enabled, required, bot), x)
    ensures x in required && !SameBot(x, bot) && ByName(registry, x).Some?
        ==> ContainsBot(AddRequired(registry, enabled, required, bot), x)
    ensures x in enabled ==> x in AddRequired(registry, enabled, required, bot)
    ensures x in AddRequired(registry, enabled, required, bot)
        ==> x in enabled || (x in required && !SameBot(x, bot) && ByName(registry, x).Some?)
    decreases |required|
  {
    hide Key, ContainsBot, ByName;
    if required != [] {
      var login := required[0];
      var add := !SameBot(login, bot) && !ContainsBot(enabled, login) && ByName(registry, login).Some?;
      assert required == [login] + required[1..];
      ContainsSnoc(enabled, login, x);
      AddRequiredExactly(registry, if add then enabled + [login] else enabled, required[1..], bot, x);
    }
  }

  lemma EnabledGood(registry: seq<CoReviewer>, c: Config, ov: Override)
    requires WellFormed(registry, c) && GoodOverride(registry, c, ov)
    ensures CanonicalList(registry, c.knownCoBots, EnabledUnder(registry, c, ov))
    ensures forall x :: x in RequiredUnder(c, ov) && !SameBot(x, c.bot) && ByName(registry, x).Some?
                   ==> ContainsBot(EnabledUnder(registry, c, ov), x)
  {
    hide Key, Canonical, WellKnown, ContainsBot, ByName;
    RequiredGood(registry, c, ov);
    var start := if ov.setCoBots then ov.coBots else CoLogins(c.coBots);
    forall login | login in start ensures Canonical(registry, c.knownCoBots, login) {
      if !ov.setCoBots {
        var i :| 0 <= i < |start| && start[i] == login;
        assert c.coBots[i] in c.coBots;
      }
    }
    hide RequiredUnder, WellFormed, GoodOverride;
    forall x
      ensures x in EnabledUnder(registry, c, ov) ==> (x in start || x in RequiredUnder(c, ov))
      ensures (x in RequiredUnder(c, ov) && !SameBot(x, c.bot) && ByName(registry, x).Some?)
        ==> ContainsBot(EnabledUnder(registry, c, ov), x)
    {
      AddRequiredExactly(registry, start, RequiredUnder(c, ov), c.bot, x);
    }
  }

  /** An entry this repository may carry: the primary's own, or an enabled bot's. */
  ghost predicate EntryOf(registry: seq<CoReviewer>, known: seq<CoBot>, enabled: seq<string>, required: seq<string>,
                          bot: string, cb: CoBot) {
    && GoodEntry(registry, known, bot, cb)
    && (!SameBot(cb.login, bot) ==>
          ContainsBot(enabled, cb.login) && EntryFor(registry, known, required, cb.login) == Some(cb))
  }

  ghost predicate EntriesOf(registry: seq<CoReviewer>, known: seq<CoBot>, enabled: seq<string>, required: seq<string>,
                            bot: string, coBots: seq<CoBot>) {
    forall cb :: cb in coBots ==> EntryOf(registry, known, enabled, required, bot, cb)
  }

  lemma {:induction false} KeptExactly(registry: seq<CoReviewer>, known: seq<CoBot>, coBots: seq<CoBot>,
                                       enabled: seq<string>, required: seq<string>, bot: string)
    requires forall cb :: cb in coBots ==> GoodEntry(registry, known, bot, cb)
    ensures var kept := Kept(registry, coBots, enabled, required, bot);
      EntriesOf(registry, known, enabled, required, bot, kept)
    ensures forall cb :: cb in coBots && (SameBot(cb.login, bot) || ContainsBot(enabled, cb.login))
              ==> Key(cb.login) in CoKeys(Kept(registry, coBots, enabled, required, bot))
  {
    hide Key, Canonical, KnownCoBot, ContainsBot, ByName, Consistent, ReconcileTrigger;
    if coBots != [] {
      var cb := coBots[0];
      KeptExactly(registry, known, coBots[1..], enabled, required, bot);
      assert cb in coBots && coBots == [cb] + coBots[1..];
      if !SameBot(cb.login, bot) {
        AdjustedIsEntry(registry, known, required, cb);
      }
    }
  }

  lemma {:induction false} BroughtExactly(registry: seq<CoReviewer>, known: seq<CoBot>, have: set<string>,
                                          enabled: seq<string>, all: seq<string>, required: seq<string>, bot: string)
    requires WellKnown(registry, known) && CanonicalList(registry, known, enabled)
    requires forall x :: x in enabled ==> ContainsBot(all, x)
    ensures var brought := Brought(registry, known, have, enabled, required);
      EntriesOf(registry, known, all, required, bot, brought)
    ensures forall x :: x in enabled && KnownCoBot(registry, known, x).Some?
              ==> Key(x) in have + CoKeys(Brought(registry, known, have, enabled, required))
    decreases |enabled|
  {
    hide Key, Canonical, WellKnown, KnownCoBot, ContainsBot, ByName, Consistent, ReconcileTrigger;
    if enabled != [] {
      var login := enabled[0];
      assert login in enabled && enabled == [login] + enabled[1..];
      if Key(login) in have || KnownCoBot(registry, known, login).None? {
        BroughtExactly(registry, known, have, enabled[1..], all, required, bot);
      } else {
        BroughtExactly(registry, known, have + {Key(login)}, enabled[1..], all, required, bot);
        KnownConsistent(registry, known, login);
        var settings := KnownCoBot(registry, known, login).value;
        ContainsKeyed(required, settings.login, login);
        ContainsKeyed(all, settings.login, login);
        AdjustedIsEntry(registry, known, required, settings);
        var now := Adjusted(registry, settings, ContainsBot(required, login));
        var rest := Brought(registry, known, have + {Key(login)}, enabled[1..], required);
        assert Brought(registry, known, have, enabled, required) == [now] + rest;
        assert EntryOf(registry, known, all, required, bot, now);
        CoKeysAppend([now], rest);
        CoKeysOne(now);
      }
    }
  }

  /** The primary is a bot the program knows, and this repository names it. */
  predicate PrimaryAsked(registry: seq<CoReviewer>, known: seq<CoBot>, enabled: seq<string>, required: seq<string>,
                         bot: string) {
    bot != "" && KnownCoBot(registry, known, bot).Some? && (ContainsBot(required, bot) || ContainsBot(enabled, bot))
  }

  lemma PrimaryCoExactly(registry: seq<CoReviewer>, known: seq<CoBot>, have: set<string>, enabled: seq<string>,
                         required: seq<string>, bot: string)
    requires WellKnown(registry, known) && (bot == "" || Canonical(registry, known, bot))
    ensures var primary := PrimaryCo(registry, known, have, enabled, required, bot);
      && EntriesOf(registry, known, enabled, required, bot, primary)
      && HavePrimary(have, primary, bot) == have + CoKeys(primary)
      && (PrimaryAsked(registry, known, enabled, required, bot) ==> Key(bot) in have + CoKeys(primary))
  {
    hide Key, Canonical, WellKnown, KnownCoBot, ContainsBot, ByName, Consistent;
    var primary := PrimaryCo(registry, known, have, enabled, required, bot);
    if primary != [] {
      KnownConsistent(registry, known, bot);
      CoKeysOne(primary[0]);
    } else {
      CoKeysNone();
    }
  }


  lemma EntriesAppend(registry: seq<CoReviewer>, known: seq<CoBot>, enabled: seq<string>, required: seq<string>,
                      bot: string, a: seq<CoBot>, b: seq<CoBot>)
    requires EntriesOf(registry, known, enabled, required, bot, a)
    requires EntriesOf(registry, known, enabled, required, bot, b)
    ensures EntriesOf(registry, known, enabled, required, bot, a + b)
  {
    hide EntryOf;
  }

  lemma ContainsItself(logins: seq<string>, x: string)
    requires x in logins
    ensures ContainsBot(logins, x)
  {
    hide Key;
    var i :| 0 <= i < |logins| && logins[i] == x;
  }

  /** The entries under an override: those of enabled bots, each the one its bot's
      settings give; and every enabled bot the program knows has one. */
  lemma CoBotsExactly(registry: seq<CoReviewer>, c: Config, ov: Override)
    requires WellFormed(registry, c) && GoodOverride(registry, c, ov)
    ensures EntriesOf(registry, c.knownCoBots, EnabledUnder(registry, c, ov), RequiredUnder(c, ov), c.bot,
                      CoBotsUnder(registry, c, ov))
    ensures forall x :: x in EnabledUnder(registry, c, ov) && KnownCoBot(registry, c.knownCoBots, x).Some?
              ==> Key(x) in CoKeys(CoBotsUnder(registry, c, ov))
    ensures PrimaryAsked(registry, c.knownCoBots, EnabledUnder(registry, c, ov), RequiredUnder(c, ov), c.bot)
        ==> Key(c.bot) in CoKeys(CoBotsUnder(registry, c, ov))
  {
    hide Key, Canonical, WellKnown, KnownCoBot, GoodEntry, EntriesOf, ContainsBot, EnabledUnder, RequiredUnder,
      Kept, Brought, PrimaryCo, CoKeys;
    var required, enabled := RequiredUnder(c, ov), EnabledUnder(registry, c, ov);
    EnabledGood(registry, c, ov);
    forall x | x in enabled ensures ContainsBot(enabled, x) { ContainsItself(enabled, x); }
    var kept := Kept(registry, c.coBots, enabled, required, c.bot);
    KeptExactly(registry, c.knownCoBots, c.coBots, enabled, required, c.bot);
    PrimaryCoExactly(registry, c.knownCoBots, CoKeys(kept), enabled, required, c.bot);
    var primary := PrimaryCo(registry, c.knownCoBots, CoKeys(kept), enabled, required, c.bot);
    var have := HavePrimary(CoKeys(kept), primary, c.bot);
    BroughtExactly(registry, c.knownCoBots, have, enabled, enabled, required, c.bot);
    var brought := Brought(registry, c.knownCoBots, have, enabled, required);
    EntriesAppend(registry, c.knownCoBots, enabled, required, c.bot, kept, primary);
    EntriesAppend(registry, c.knownCoBots, enabled, required, c.bot, kept + primary, brought);
    CoKeysAppend(kept, primary);
    CoKeysAppend(kept + primary, brought);
  }

  /** How each of them is asked: as its bot's settings say, but gating exactly when the
      repository's required half names it, and in the mode that goes with that. */
  lemma ModesExactly(registry: seq<CoReviewer>, c: Config, ov: Override, cb: CoBot, i: int)
    requires WellFormed(registry, c) && GoodOverride(registry, c, ov)
    requires cb in CoBotsUnder(registry, c, ov) && Key(cb.login) != Key(c.bot) && Means(registry, i, cb.name)
    ensures Key(cb.login) in Keys(EnabledUnder(registry, c, ov))
    ensures cb.required <==> Key(cb.login) in Keys(RequiredUnder(c, ov))
    ensures var settings := KnownCoBot(registry, c.knownCoBots, cb.login);
      && settings.Some? && cb.(required := settings.value.required, trigger := settings.value.trigger) == settings.value
      && cb.trigger == if cb.triggerExplicit then settings.value.trigger
                       else if cb.command == "" then Never
                       else if cb.required && registry[i].whenRequired.Some? then registry[i].whenRequired.value
                       else registry[i].whenEnabled
  {
    hide Key, Canonical, WellKnown, KnownCoBot, GoodEntry, EnabledUnder, RequiredUnder, CoBotsUnder, ContainsBot,
      ByName;
    CoBotsExactly(registry, c, ov);
    assert EntryOf(registry, c.knownCoBots, EnabledUnder(registry, c, ov), RequiredUnder(c, ov), c.bot, cb);
    ContainsKey(EnabledUnder(registry, c, ov), cb.login);
    ContainsKey(RequiredUnder(c, ov), cb.login);
    var settings := KnownCoBot(registry, c.knownCoBots, cb.login).value;
    ReconciledExactly(registry, settings.(required := ContainsBot(RequiredUnder(c, ov), cb.login)));
  }

  lemma {:induction false} KeptPrimary(registry: seq<CoReviewer>, coBots: seq<CoBot>, enabled: seq<string>,
                                       required: seq<string>, bot: string, cb: CoBot)
    requires cb in Kept(registry, coBots, enabled, required, bot) && Key(cb.login) == Key(bot)
    ensures cb in coBots
  {
    hide Key, ContainsBot, ByName;
    var rest := Kept(registry, coBots[1..], enabled, required, bot);
    if cb in rest {
      KeptPrimary(registry, coBots[1..], enabled, required, bot, cb);
    }
  }

  /** No bot is added that has an entry already. */
  lemma {:induction false} BroughtAside(registry: seq<CoReviewer>, known: seq<CoBot>, have: set<string>,
                                        enabled: seq<string>, required: seq<string>, cb: CoBot)
    requires WellKnown(registry, known) && CanonicalList(registry, known, enabled)
    requires cb in Brought(registry, known, have, enabled, required)
    ensures Key(cb.login) !in have
    ensures exists login :: login in enabled && Key(login) == Key(cb.login) && KnownCoBot(registry, known, login).Some?
    decreases |enabled|
  {
    hide Key, Canonical, WellKnown, KnownCoBot, ContainsBot, ByName;
    var login := enabled[0];
    assert login in enabled;
    if Key(login) in have || KnownCoBot(registry, known, login).None? {
      BroughtAside(registry, known, have, enabled[1..], required, cb);
    } else {
      KnownConsistent(registry, known, login);
      if cb in Brought(registry, known, have + {Key(login)}, enabled[1..], required) {
        BroughtAside(registry, known, have + {Key(login)}, enabled[1..], required, cb);
      }
    }
  }

  /** The primary's own entry: the fleet's as it is, or one that is never triggered and gates
      when the repository's required half names the primary. */
  lemma PrimaryEntryExactly(registry: seq<CoReviewer>, c: Config, ov: Override, cb: CoBot)
    requires WellFormed(registry, c) && GoodOverride(registry, c, ov)
    requires cb in CoBotsUnder(registry, c, ov) && Key(cb.login) == Key(c.bot)
    ensures cb in c.coBots
            || (cb.trigger == Never && (cb.required <==> Key(c.bot) in Keys(RequiredUnder(c, ov))))
  {
    hide Key, Canonical, WellKnown, KnownCoBot, GoodEntry, EnabledUnder, RequiredUnder, ContainsBot, Brought, Kept;
    var required, enabled := RequiredUnder(c, ov), EnabledUnder(registry, c, ov);
    var kept := Kept(registry, c.coBots, enabled, required, c.bot);
    var primary := PrimaryCo(registry, c.knownCoBots, CoKeys(kept), enabled, required, c.bot);
    var have := HavePrimary(CoKeys(kept), primary, c.bot);
    var brought := Brought(registry, c.knownCoBots, have, enabled, required);
    ContainsKey(required, c.bot);
    if cb in kept {
      KeptPrimary(registry, c.coBots, enabled, required, c.bot, cb);
    } else if cb in brought {
      EnabledGood(registry, c, ov);
      BroughtAside(registry, c.knownCoBots, have, enabled, required, cb);
      var login :| login in enabled && Key(login) == Key(cb.login) && KnownCoBot(registry, c.knownCoBots, login).Some?;
      ContainsItself(enabled, login);
      ContainsKeyed(enabled, login, c.bot);
      NamelessPrimary(registry, c, login);
      KnownKeyed(registry, c.knownCoBots, login, c.bot);
      assert false;
    }
  }

  lemma NamelessPrimary(registry: seq<CoReviewer>, c: Config, login: string)
    requires WellFormed(registry, c) && Canonical(registry, c.knownCoBots, login) && Key(login) == Key(c.bot)
    ensures c.bot != "" && Canonical(registry, c.knownCoBots, c.bot)
  {
  }

  // ---- Who gates

  lemma {:induction false} GatingExactly(reviewers: seq<Reviewer>)
    ensures forall login :: login in GatingLogins(reviewers) <==> Gates(reviewers, login)
  {
    if reviewers != [] {
      GatingExactly(reviewers[1..]);
      assert reviewers == [reviewers[0]] + reviewers[1..];
    }
  }

  ghost predicate Gates(reviewers: seq<Reviewer>, login: string) {
    exists r :: r in reviewers && r.required && r.login == login
  }

  lemma RequiredKeyed(registry: seq<CoReviewer>, known: seq<CoBot>, required: seq<string>, x: string)
    requires CanonicalList(registry, known, required)
    ensures ContainsBot(required, x) <==> Key(x) in RequiredKeys(required)
  {
    hide Key, Trim, EqualFold;
    if ContainsBot(required, x) {
      var i :| 0 <= i < |required| && SameBot(required[i], x);
      assert required[i] in required;
    }
    if Key(x) in RequiredKeys(required) {
      var login :| login in required && Trim(login) != "" && Key(Trim(login)) == Key(x);
      ContainsItself(required, login);
      ContainsKeyed(required, login, x);
    }
  }

  lemma EmptyKeyUnused(registry: seq<CoReviewer>, known: seq<CoBot>, login: string)
    requires Canonical(registry, known, login)
    ensures !SameBot(login, "")
  {
    hide EqualFold, Trim;
  }

  /** An entry of the list gates exactly when its bot is on the required list. */
  lemma EntryGates(registry: seq<CoReviewer>, c: Config, ov: Override, r: Reviewer)
    requires WellFormed(registry, c) && GoodOverride(registry, c, ov)
    requires r in Built(c.bot, c.reviewCommand, RequiredUnder(c, ov), CoBotsUnder(registry, c, ov), ov.primaryOff)
    ensures r.required <==> ContainsBot(RequiredUnder(c, ov), r.login)
  {
    hide Key, Canonical, WellKnown, KnownCoBot, ContainsBot, EnabledUnder, RequiredUnder, CoBotsUnder, Built,
      ReconcileTrigger, CoKeys, RequiredKeys, Distinct, MeteredIsPrimary;
    var required, coBots := RequiredUnder(c, ov), CoBotsUnder(registry, c, ov);
    BuiltExactly(c.bot, c.reviewCommand, required, coBots, ov.primaryOff);
    CoBotsExactly(registry, c, ov);
    RequiredGood(registry, c, ov);
    RequiredKeyed(registry, c.knownCoBots, required, r.login);
    assert r == EntryUnder(r.login, c.bot, c.reviewCommand, RequiredKeys(required), coBots);
    if c.bot != "" && SameBot(r.login, c.bot) {
    } else if FirstCo(coBots, Key(r.login)).Some? {
      var cb := FirstCo(coBots, Key(r.login)).value;
      assert EntryOf(registry, c.knownCoBots, EnabledUnder(registry, c, ov), required, c.bot, cb);
      EmptyKeyUnused(registry, c.knownCoBots, cb.login);
      EntryRequired(registry, c.knownCoBots, required, cb);
      RequiredKeyed(registry, c.knownCoBots, required, cb.login);
    } else {
      assert Key(r.login) in LoginKeys(Built(c.bot, c.reviewCommand, required, coBots, ov.primaryOff));
    }
  }

  lemma EntryRequired(registry: seq<CoReviewer>, known: seq<CoBot>, required: seq<string>, cb: CoBot)
    requires !Consistent(registry, known, cb) || EntryFor(registry, known, required, cb.login) == Some(cb)
    ensures Consistent(registry, known, cb) ==> cb.required == ContainsBot(required, cb.login)
  {
    hide Key, ContainsBot, ByName, KnownCoBot;
    if Consistent(registry, known, cb) {
      AdjustedIsEntry(registry, known, required, cb);
    }
  }

  /** The gate is exactly the required list: every bot on it reviews, and no other
      bot gates. */
  lemma GateIsRequired(registry: seq<CoReviewer>, c: Config, ov: Override, x: string)
    requires WellFormed(registry, c) && GoodOverride(registry, c, ov) && !Inherits(ov)
    ensures ContainsBot(Under(registry, c, ov).requiredBots, x) <==> ContainsBot(RequiredUnder(c, ov), x)
  {
    hide Key, Canonical, WellKnown, KnownCoBot, EnabledUnder, RequiredUnder, CoBotsUnder, Built, CoKeys,
      RequiredKeys, Distinct, MeteredIsPrimary, WellFormed, GoodOverride;
    var required, coBots := RequiredUnder(c, ov), CoBotsUnder(registry, c, ov);
    var reviewers := Built(c.bot, c.reviewCommand, required, coBots, ov.primaryOff);
    GatingExactly(reviewers);
    if ContainsBot(GatingLogins(reviewers), x) {
      var i :| 0 <= i < |GatingLogins(reviewers)| && SameBot(GatingLogins(reviewers)[i], x);
      assert Gates(reviewers, GatingLogins(reviewers)[i]);
      var r :| r in reviewers && r.required && r.login == GatingLogins(reviewers)[i];
      EntryGates(registry, c, ov, r);
      ContainsKeyed(required, r.login, x);
    }
    if ContainsBot(required, x) {
      RequiredGood(registry, c, ov);
      RequiredKeyed(registry, c.knownCoBots, required, x);
      BuiltExactly(c.bot, c.reviewCommand, required, coBots, ov.primaryOff);
      if ov.primaryOff && c.bot != "" && SameBot(x, c.bot) {
        ContainsKeyed(required, x, c.bot);
        assert false;
      }
      assert Key(x) in LoginKeys(reviewers);
      var r :| r in reviewers && Key(r.login) == Key(x);
      ContainsKeyed(required, r.login, x);
      EntryGates(registry, c, ov, r);
      assert Gates(reviewers, r.login) && r.login in GatingLogins(reviewers);
      ContainsItself(GatingLogins(reviewers), r.login);
      ContainsKeyed(GatingLogins(reviewers), r.login, x);
    }
  }

  /** The reviewers a repository resolves to: distinct bots; one metered, which is
      the primary, exactly when there is one and it is on; and an entry to ask each
      gating bot of the registry with. */
  lemma ForRepoExactly(registry: seq<CoReviewer>, c: Config, ov: Override)
    requires WellFormed(registry, c) && GoodOverride(registry, c, ov) && !Inherits(ov)
    ensures var out := Under(registry, c, ov);
      && Distinct(out.reviewers)
      && (forall r :: r in out.reviewers ==> (r.metered <==> c.bot != "" && SameBot(r.login, c.bot)))
      && ((exists r :: r in out.reviewers && r.metered) <==> c.bot != "" && !out.primaryOff)
      && (forall x :: x in out.requiredBots && !SameBot(x, c.bot) && ByName(registry, x).Some? ==>
            Key(x) in CoKeys(out.coBots))
  {
    hide Key, Canonical, WellKnown, KnownCoBot, EnabledUnder, RequiredUnder, CoBotsUnder, Built, ByName,
      ContainsBot, CoKeys, RequiredKeys, Distinct, WellFormed, GoodOverride;
    var required, coBots := RequiredUnder(c, ov), CoBotsUnder(registry, c, ov);
    BuiltExactly(c.bot, c.reviewCommand, required, coBots, ov.primaryOff);
    var out := Under(registry, c, ov);
    if c.bot != "" && !ov.primaryOff {
      assert Key(c.bot) in LoginKeys(out.reviewers);
    }
    if r :| r in out.reviewers && r.metered {
      assert Key(r.login) in LoginKeys(out.reviewers);
    }
    forall x | x in out.requiredBots && !SameBot(x, c.bot) && ByName(registry, x).Some?
      ensures Key(x) in CoKeys(out.coBots)
    {
      ContainsItself(out.requiredBots, x);
      GateIsRequired(registry, c, ov, x);
      GatingCanonical(registry, c, ov, x);
      RequiredRuns(registry, c, ov, x);
    }
  }

  lemma RequiredRuns(registry: seq<CoReviewer>, c: Config, ov: Override, x: string)
    requires WellFormed(registry, c) && GoodOverride(registry, c, ov) && Canonical(registry, c.knownCoBots, x)
    requires ContainsBot(RequiredUnder(c, ov), x) && !SameBot(x, c.bot) && ByName(registry, x).Some?
    ensures Key(x) in CoKeys(CoBotsUnder(registry, c, ov))
  {
    hide Key, Canonical, WellKnown, KnownCoBot, EnabledUnder, RequiredUnder, CoBotsUnder, ByName, CoKeys, GoodEntry,
      GoodOverride;
    var required, enabled := RequiredUnder(c, ov), EnabledUnder(registry, c, ov);
    var i :| 0 <= i < |required| && SameBot(required[i], x);
    assert required[i] in required;
    RequiredGood(registry, c, ov);
    EnabledGood(registry, c, ov);
    CoBotsExactly(registry, c, ov);
    KnownKeyed(registry, c.knownCoBots, required[i], x);
    assert ContainsBot(enabled, required[i]);
    var j :| 0 <= j < |enabled| && SameBot(enabled[j], required[i]);
    assert enabled[j] in enabled;
    KnownKeyed(registry, c.knownCoBots, required[i], enabled[j]);
  }

  lemma GatingCanonical(registry: seq<CoReviewer>, c: Config, ov: Override, x: string)
    requires WellFormed(registry, c) && GoodOverride(registry, c, ov) && !Inherits(ov)
    requires x in Under(registry, c, ov).requiredBots
    ensures Canonical(registry, c.knownCoBots, x)
  {
    hide Key, Canonical, WellKnown, KnownCoBot, EnabledUnder, RequiredUnder, CoBotsUnder, Built, ByName,
      ContainsBot, CoKeys, RequiredKeys, Distinct, MeteredIsPrimary, CoPart, ExtraPart;
    var required, coBots := RequiredUnder(c, ov), CoBotsUnder(registry, c, ov);
    var out := Under(registry, c, ov);
    GatingExactly(out.reviewers);
    var r :| r in out.reviewers && r.required && r.login == x;
    LoginFrom(c.bot, c.reviewCommand, required, coBots, ov.primaryOff, r);
    RequiredGood(registry, c, ov);
    CoBotsExactly(registry, c, ov);
    if cb :| cb in coBots && cb.login == x {
    } else if login :| login in required && Trim(login) == x {
      assert Canonical(registry, c.knownCoBots, login);
      CanonicalTrim(registry, c.knownCoBots, login);
    }
  }

  lemma CanonicalTrim(registry: seq<CoReviewer>, known: seq<CoBot>, login: string)
    requires Canonical(registry, known, login)
    ensures Trim(login) == login
  {
  }

  /** Where an entry's spelling comes from. */
  lemma LoginFrom(primary: string, command: string, required: seq<string>, coBots: seq<CoBot>, off: bool, r: Reviewer)
    requires r in Built(primary, command, required, coBots, off)
    ensures || (primary != "" && r.login == primary)
            || (exists cb :: cb in coBots && cb.login == r.login)
            || (exists login :: login in required && Trim(login) == r.login)
  {
    hide Key, Trim, CoPart, ExtraPart;
    if r in CoPart(coBots, PrimaryKeys(primary), RequiredKeys(required)) {
      CoPartExactly(coBots, PrimaryKeys(primary), RequiredKeys(required));
    } else if r in ExtraPart(required, PrimaryKeys(primary) + CoKeys(coBots)) {
      ExtraLogin(required, PrimaryKeys(primary) + CoKeys(coBots), r);
    }
  }

  lemma {:induction false} ExtraLogin(required: seq<string>, seen: set<string>, r: Reviewer)
    requires r in ExtraPart(required, seen)
    ensures exists login :: login in required && Trim(login) == r.login
  {
    hide Key, Trim;
    assert required != [];
    var login := Trim(required[0]);
    assert required[0] in required;
    if login == "" || Key(login) in seen {
      ExtraLogin(required[1..], seen, r);
    } else if r != ExtraEntry(login) {
      ExtraLogin(required[1..], seen + {Key(login)}, r);
    }
  }

  /** An override keeps a configuration well formed, so layers stack. */
  lemma StaysWellFormed(registry: seq<CoReviewer>, c: Config, ov: Override)
    requires WellFormed(registry, c) && GoodOverride(registry, c, ov)
    ensures WellFormed(registry, Under(registry, c, ov))
  {
    hide Key, Canonical, WellKnown, KnownCoBot, EnabledUnder, RequiredUnder, CoBotsUnder, Built, GoodEntry;
    if !Inherits(ov) {
      CoBotsExactly(registry, c, ov);
      var out := Under(registry, c, ov);
      forall x | x in out.requiredBots ensures Canonical(registry, c.knownCoBots, x) {
        GatingCanonical(registry, c, ov, x);
      }
    }
  }

  /** The list of an overridden configuration is one built from its settings. */
  lemma UnderResolved(registry: seq<CoReviewer>, c: Config, ov: Override)
    requires Resolved(c)
    ensures Resolved(Under(registry, c, ov)) && Under(registry, c, ov).bot == c.bot
  {
    hide Key, CoBotsUnder, RequiredUnder, Built;
    if !Inherits(ov) {
      BuiltExactly(c.bot, c.reviewCommand, RequiredUnder(c, ov), CoBotsUnder(registry, c, ov), ov.primaryOff);
    }
  }

  // ---- The same override twice

  lemma {:induction false} KeptAll(registry: seq<CoReviewer>, coBots: seq<CoBot>, enabled: seq<string>,
                                   required: seq<string>, bot: string)
    requires forall cb :: cb in coBots && !SameBot(cb.login, bot) ==> ContainsBot(enabled, cb.login)
    requires forall cb :: cb in coBots && !SameBot(cb.login, bot) ==>
      Adjusted(registry, cb, ContainsBot(required, cb.login)) == cb
    ensures Kept(registry, coBots, enabled, required, bot) == coBots
  {
    hide Key, ContainsBot, ReconcileTrigger;
    if coBots != [] {
      assert coBots[0] in coBots;
      KeptAll(registry, coBots[1..], enabled, required, bot);
    }
  }

  lemma {:induction false} BroughtNone(registry: seq<CoReviewer>, known: seq<CoBot>, have: set<string>,
                                       enabled: seq<string>, required: seq<string>)
    requires forall x :: x in enabled && KnownCoBot(registry, known, x).Some? ==> Key(x) in have
    ensures Brought(registry, known, have, enabled, required) == []
  {
    hide Key, ContainsBot, ReconcileTrigger, KnownCoBot;
    if enabled != [] {
      assert enabled[0] in enabled;
      BroughtNone(registry, known, have, enabled[1..], required);
    }
  }

  lemma {:induction false} ExtraSkips(list: seq<string>, rest: seq<string>, seen: set<string>)
    requires forall x :: x in list ==> Trim(x) == "" || Key(Trim(x)) in seen
    ensures ExtraPart(list + rest, seen) == ExtraPart(rest, seen)
  {
    hide Key, Trim;
    if list == [] {
      assert list + rest == rest;
    } else {
      assert list[0] in list && (list + rest)[1..] == list[1..] + rest;
      ExtraSkips(list[1..], rest, seen);
    }
  }

  lemma {:induction false} ExtraAgain(required: seq<string>, seen: set<string>)
    ensures ExtraPart(GatingLogins(ExtraPart(required, seen)), seen) == ExtraPart(required, seen)
  {
    hide Key, Trim;
    if required != [] {
      var login := Trim(required[0]);
      if login == "" || Key(login) in seen {
        ExtraAgain(required[1..], seen);
      } else {
        TrimIdempotent(required[0]);
        var rest := ExtraPart(required[1..], seen + {Key(login)});
        ExtraAgain(required[1..], seen + {Key(login)});
        assert ExtraPart(required, seen) == [ExtraEntry(login)] + rest;
        assert ([ExtraEntry(login)] + rest)[1..] == rest;
        assert GatingLogins([ExtraEntry(login)] + rest) == [login] + GatingLogins(rest);
        assert ([login] + GatingLogins(rest))[1..] == GatingLogins(rest);
      }
    }
  }

  lemma {:induction false} GatingAppend(a: seq<Reviewer>, b: seq<Reviewer>)
    ensures GatingLogins(a + b) == GatingLogins(a) + GatingLogins(b)
  {
    if a == [] {
      assert a + b == b;
    } else {
      assert (a + b)[1..] == a[1..] + b;
      GatingAppend(a[1..], b);
    }
  }

  lemma SkippedLogins(primary: string, command: string, required: seq<string>, coBots: seq<CoBot>, off: bool)
    requires primary == "" || Trim(primary) == primary
    requires forall cb :: cb in coBots ==> Trim(cb.login) == cb.login
    ensures var first := PrimaryPart(primary, command, RequiredKeys(required), off)
                         + CoPart(coBots, PrimaryKeys(primary), RequiredKeys(required));
      forall x :: x in GatingLogins(first) ==> (Trim(x) == "" || Key(Trim(x)) in PrimaryKeys(primary) + CoKeys(coBots))
  {
    hide Key, Trim, CoPart;
    var middle := CoPart(coBots, PrimaryKeys(primary), RequiredKeys(required));
    var first := PrimaryPart(primary, command, RequiredKeys(required), off) + middle;
    CoPartExactly(coBots, PrimaryKeys(primary), RequiredKeys(required));
    GatingExactly(first);
    forall x | x in GatingLogins(first)
      ensures Trim(x) == "" || Key(Trim(x)) in PrimaryKeys(primary) + CoKeys(coBots)
    {
      var r :| r in first && r.required && r.login == x;
      if r in middle {
        var cb := FirstCo(coBots, Key(r.login)).value;
        assert cb in coBots;
      }
    }
  }

  /** Rebuilding the list from the logins that gate gives the list back. */
  lemma RebuiltSame(primary: string, command: string, required: seq<string>, coBots: seq<CoBot>, off: bool)
    requires primary == "" || Trim(primary) == primary
    requires forall cb :: cb in coBots ==> Trim(cb.login) == cb.login
    requires RequiredKeys(GatingLogins(Built(primary, command, required, coBots, off))) == RequiredKeys(required)
    ensures Built(primary, command, GatingLogins(Built(primary, command, required, coBots, off)), coBots, off)
         == Built(primary, command, required, coBots, off)
  {
    hide Key, Trim, CoPart, ExtraPart, GatingLogins, RequiredKeys, CoKeys;
    var seen := PrimaryKeys(primary) + CoKeys(coBots);
    var first := PrimaryPart(primary, command, RequiredKeys(required), off)
                 + CoPart(coBots, PrimaryKeys(primary), RequiredKeys(required));
    var last := ExtraPart(required, seen);
    assert Built(primary, command, required, coBots, off) == first + last;
    GatingAppend(first, last);
    SkippedLogins(primary, command, required, coBots, off);
    ExtraSkips(GatingLogins(first), GatingLogins(last), seen);
    ExtraAgain(required, seen);
  }

  lemma SameGateKeys(registry: seq<CoReviewer>, known: seq<CoBot>, a: seq<string>, b: seq<string>)
    requires CanonicalList(registry, known, a) && CanonicalList(registry, known, b)
    requires forall x :: ContainsBot(a, x) <==> ContainsBot(b, x)
    ensures RequiredKeys(a) == RequiredKeys(b)
  {
    hide Key, Trim, EqualFold, ContainsBot;
    forall x | x in a || x in b ensures Trim(x) == x && Key(x) in RequiredKeys(a) && Key(x) in RequiredKeys(b) {
      if x in a { ContainsItself(a, x); } else { ContainsItself(b, x); }
      RequiredKeyed(registry, known, a, x);
      RequiredKeyed(registry, known, b, x);
    }
  }

  /** The required list the second application starts from gates the same bots. */
  lemma SameGateAgain(registry: seq<CoReviewer>, c: Config, ov: Override, x: string)
    requires WellFormed(registry, c) && GoodOverride(registry, c, ov) && !Inherits(ov)
    ensures ContainsBot(RequiredUnder(Under(registry, c, ov), ov), x) <==> ContainsBot(RequiredUnder(c, ov), x)
  {
    hide Key, Canonical, WellKnown, GoodEntry, CoBotsUnder, Built;
    var out := Under(registry, c, ov);
    GateIsRequired(registry, c, ov, x);
    if !ov.setRequired && ov.primaryOff && c.bot != "" {
      WithoutBotExactly(out.requiredBots, c.bot);
      GateIsRequired(registry, c, ov, c.bot);
      RequiredGood(registry, c, ov);
      forall login | login in out.requiredBots ensures !SameBot(login, c.bot) {
        if SameBot(login, c.bot) {
          ContainsItself(out.requiredBots, login);
          ContainsKeyed(out.requiredBots, login, c.bot);
        }
      }
      WithoutAbsent(out.requiredBots, c.bot);
    }
  }

  lemma {:induction false} WithoutAbsent(logins: seq<string>, bot: string)
    requires forall login :: login in logins ==> !SameBot(login, bot)
    ensures WithoutBot(logins, bot) == logins
  {
    hide Key;
    if logins != [] {
      assert logins[0] in logins;
      WithoutAbsent(logins[1..], bot);
    }
  }

  lemma EnabledAgain(registry: seq<CoReviewer>, c: Config, ov: Override, cb: CoBot)
    requires WellFormed(registry, c) && GoodOverride(registry, c, ov) && !Inherits(ov)
    requires cb in CoBotsUnder(registry, c, ov) && !SameBot(cb.login, c.bot)
    ensures ContainsBot(EnabledUnder(registry, Under(registry, c, ov), ov), cb.login)
  {
    hide Key, Canonical, WellKnown, GoodEntry, CoBotsUnder, Built, ByName, KnownCoBot, RequiredUnder;
    var out := Under(registry, c, ov);
    var required, enabled := RequiredUnder(out, ov), EnabledUnder(registry, out, ov);
    var start := if ov.setCoBots then ov.coBots else CoLogins(out.coBots);
    CoBotsExactly(registry, c, ov);
    AddRequiredExactly(registry, start, required, c.bot, cb.login);
    if !ov.setCoBots {
      var i :| 0 <= i < |out.coBots| && out.coBots[i] == cb;
      assert start[i] == cb.login;
      ContainsItself(start, cb.login);
    } else if !ContainsBot(ov.coBots, cb.login) {
      EnabledFrom(registry, c, ov, cb.login);
      var x :| x in RequiredUnder(c, ov) && SameBot(x, cb.login) && !SameBot(x, c.bot) && ByName(registry, x).Some?;
      ContainsItself(RequiredUnder(c, ov), x);
      SameGateAgain(registry, c, ov, x);
      var j :| 0 <= j < |required| && SameBot(required[j], x);
      assert required[j] in required;
      StaysWellFormed(registry, c, ov);
      RequiredGood(registry, out, ov);
      RequiredGood(registry, c, ov);
      KnownKeyed(registry, c.knownCoBots, x, required[j]);
      AddRequiredExactly(registry, start, required, c.bot, required[j]);
      ContainsKeyed(enabled, required[j], cb.login);
    }
  }

  lemma {:induction false} AddRequiredFrom(registry: seq<CoReviewer>, enabled: seq<string>, required: seq<string>,
                                           bot: string, x: string)
    requires ContainsBot(AddRequired(registry, enabled, required, bot), x) && !ContainsBot(enabled, x)
    ensures exists y :: y in required && SameBot(y, x) && !SameBot(y, bot) && ByName(registry, y).Some?
    decreases |required|
  {
    hide Key, ContainsBot, ByName;
    assert required != [];
    var login := required[0];
    assert login in required;
    var add := !SameBot(login, bot) && !ContainsBot(enabled, login) && ByName(registry, login).Some?;
    ContainsSnoc(enabled, login, x);
    if !(add && SameBot(login, x)) {
      AddRequiredFrom(registry, if add then enabled + [login] else enabled, required[1..], bot, x);
    }
  }

  lemma EnabledFrom(registry: seq<CoReviewer>, c: Config, ov: Override, x: string)
    requires ContainsBot(EnabledUnder(registry, c, ov), x) && ov.setCoBots && !ContainsBot(ov.coBots, x)
    ensures exists y :: y in RequiredUnder(c, ov) && SameBot(y, x) && !SameBot(y, c.bot) && ByName(registry, y).Some?
  {
    hide Key, ContainsBot, ByName, RequiredUnder;
    AddRequiredFrom(registry, ov.coBots, RequiredUnder(c, ov), c.bot, x);
  }

  lemma KeptAgain(registry: seq<CoReviewer>, c: Config, ov: Override)
    requires WellFormed(registry, c) && GoodOverride(registry, c, ov) && !Inherits(ov)
    ensures var out := Under(registry, c, ov);
      Kept(registry, out.coBots, EnabledUnder(registry, out, ov), RequiredUnder(out, ov), c.bot) == out.coBots
  {
    hide Key, Canonical, WellKnown, CoBotsUnder, EnabledUnder, RequiredUnder, Built, ByName, KnownCoBot, WellFormed,
      GoodOverride, ContainsBot, Kept;
    var out := Under(registry, c, ov);
    CoBotsExactly(registry, c, ov);
    forall cb | cb in out.coBots
      ensures SameBot(cb.login, c.bot) || ContainsBot(EnabledUnder(registry, out, ov), cb.login)
      ensures SameBot(cb.login, c.bot) || Adjusted(registry, cb, ContainsBot(RequiredUnder(out, ov), cb.login)) == cb
    {
      if !SameBot(cb.login, c.bot) {
        assert EntryOf(registry, c.knownCoBots, EnabledUnder(registry, c, ov), RequiredUnder(c, ov), c.bot, cb);
        EnabledAgain(registry, c, ov, cb);
        SameGateAgain(registry, c, ov, cb.login);
        AdjustedIsEntry(registry, c.knownCoBots, RequiredUnder(c, ov), cb);
      }
    }
    KeptAll(registry, out.coBots, EnabledUnder(registry, out, ov), RequiredUnder(out, ov), c.bot);
  }

  /** A bot enabled the second time has its entry already. */
  lemma EnabledHasEntry(registry: seq<CoReviewer>, c: Config, ov: Override, x: string)
    requires WellFormed(registry, c) && GoodOverride(registry, c, ov) && !Inherits(ov)
    requires x in EnabledUnder(registry, Under(registry, c, ov), ov) && KnownCoBot(registry, c.knownCoBots, x).Some?
    ensures Key(x) in CoKeys(CoBotsUnder(registry, c, ov))
  {
    hide Key, Canonical, WellKnown, CoBotsUnder, RequiredUnder, Built, ByName, KnownCoBot, ContainsBot, GoodEntry;
    var out := Under(registry, c, ov);
    var start := if ov.setCoBots then ov.coBots else CoLogins(out.coBots);
    AddRequiredExactly(registry, start, RequiredUnder(out, ov), c.bot, x);
    if x in start {
      if ov.setCoBots {
        AddRequiredExactly(registry, ov.coBots, RequiredUnder(c, ov), c.bot, x);
        CoBotsExactly(registry, c, ov);
      } else {
        var i :| 0 <= i < |start| && start[i] == x;
        assert out.coBots[i] in out.coBots;
      }
    } else {
      StaysWellFormed(registry, c, ov);
      RequiredGood(registry, out, ov);
      ContainsItself(RequiredUnder(out, ov), x);
      SameGateAgain(registry, c, ov, x);
      RequiredRuns(registry, c, ov, x);
    }
  }

  lemma NoPrimaryAgain(registry: seq<CoReviewer>, c: Config, ov: Override)
    requires WellFormed(registry, c) && GoodOverride(registry, c, ov) && !Inherits(ov)
    ensures var out := Under(registry, c, ov);
      PrimaryCo(registry, c.knownCoBots, CoKeys(out.coBots), EnabledUnder(registry, out, ov), RequiredUnder(out, ov),
                c.bot) == []
  {
    hide Key, Canonical, WellKnown, CoBotsUnder, EnabledUnder, RequiredUnder, Built, ByName, KnownCoBot, GoodEntry,
      GoodOverride;
    var out := Under(registry, c, ov);
    var enabled := EnabledUnder(registry, out, ov);
    CoBotsExactly(registry, c, ov);
    SameGateAgain(registry, c, ov, c.bot);
    if c.bot != "" && KnownCoBot(registry, c.knownCoBots, c.bot).Some? && ContainsBot(enabled, c.bot) {
      var i :| 0 <= i < |enabled| && SameBot(enabled[i], c.bot);
      assert enabled[i] in enabled;
      EnabledCanonicalAgain(registry, c, ov);
      KnownKeyed(registry, c.knownCoBots, enabled[i], c.bot);
      EnabledHasEntry(registry, c, ov, enabled[i]);
    }
  }

  lemma EnabledCanonicalAgain(registry: seq<CoReviewer>, c: Config, ov: Override)
    requires WellFormed(registry, c) && GoodOverride(registry, c, ov)
    ensures CanonicalList(registry, c.knownCoBots, EnabledUnder(registry, Under(registry, c, ov), ov))
  {
    hide Canonical, WellKnown, CoBotsUnder, EnabledUnder, RequiredUnder, Built, GoodEntry;
    StaysWellFormed(registry, c, ov);
    EnabledGood(registry, Under(registry, c, ov), ov);
  }

  lemma CoBotsAgain(registry: seq<CoReviewer>, c: Config, ov: Override)
    requires WellFormed(registry, c) && GoodOverride(registry, c, ov) && !Inherits(ov)
    ensures CoBotsUnder(registry, Under(registry, c, ov), ov) == CoBotsUnder(registry, c, ov)
  {
    hide Key, Canonical, WellKnown, EnabledUnder, RequiredUnder, Built, ByName, KnownCoBot, WellFormed,
      GoodOverride, ContainsBot, Kept, Brought, PrimaryCo, CoKeys;
    var out := Under(registry, c, ov);
    var required, enabled := RequiredUnder(out, ov), EnabledUnder(registry, out, ov);
    KeptAgain(registry, c, ov);
    NoPrimaryAgain(registry, c, ov);
    forall x | x in enabled && KnownCoBot(registry, c.knownCoBots, x).Some? ensures Key(x) in CoKeys(out.coBots) {
      EnabledHasEntry(registry, c, ov, x);
    }
    BroughtNone(registry, c.knownCoBots, CoKeys(out.coBots), enabled, required);
    AppendEmpty(out.coBots);
  }

  /** Applying an override twice changes nothing. */
  lemma ForRepoIdempotent(registry: seq<CoReviewer>, c: Config, ov: Override)
    requires WellFormed(registry, c) && GoodOverride(registry, c, ov)
    ensures Under(registry, Under(registry, c, ov), ov) == Under(registry, c, ov)
  {
    if !Inherits(ov) {
      hide Key, Trim, WellKnown, EnabledUnder, Built, ByName, KnownCoBot, GoodEntry, EqualFold, ContainsBot,
        CoBotsUnder, CoKeys, RequiredKeys, GatingLogins;
      var out := Under(registry, c, ov);
      CoBotsAgain(registry, c, ov);
      if !ov.setRequired {
        RequiredAgain(registry, c, ov);
        CoBotsExactly(registry, c, ov);
        forall cb | cb in out.coBots ensures Trim(cb.login) == cb.login {
          CoBotTrimmed(registry, c, ov, cb);
        }
        RebuiltSame(c.bot, c.reviewCommand, RequiredUnder(c, ov), out.coBots, ov.primaryOff);
      }
    }
  }

  lemma CoBotTrimmed(registry: seq<CoReviewer>, c: Config, ov: Override, cb: CoBot)
    requires WellFormed(registry, c) && GoodOverride(registry, c, ov) && cb in CoBotsUnder(registry, c, ov)
    ensures Trim(cb.login) == cb.login
  {
    hide Key, Trim, WellKnown, EnabledUnder, RequiredUnder, CoBotsUnder, KnownCoBot, EqualFold, ContainsBot;
    CoBotsExactly(registry, c, ov);
  }

  lemma RequiredAgain(registry: seq<CoReviewer>, c: Config, ov: Override)
    requires WellFormed(registry, c) && GoodOverride(registry, c, ov) && !Inherits(ov) && !ov.setRequired
    ensures var out := Under(registry, c, ov);
      RequiredUnder(out, ov) == out.requiredBots && RequiredKeys(out.requiredBots) == RequiredKeys(RequiredUnder(c, ov))
  {
    hide Key, Canonical, WellKnown, EnabledUnder, Built, CoBotsUnder, RequiredKeys, GoodEntry, GatingLogins;
    var out := Under(registry, c, ov);
    if ov.primaryOff && c.bot != "" {
      RequiredGood(registry, c, ov);
      GateIsRequired(registry, c, ov, c.bot);
      forall login | login in out.requiredBots ensures !SameBot(login, c.bot) {
        if SameBot(login, c.bot) {
          ContainsItself(out.requiredBots, login);
          ContainsKeyed(out.requiredBots, login, c.bot);
        }
      }
      WithoutAbsent(out.requiredBots, c.bot);
    }
    hide RequiredUnder;
    forall x ensures ContainsBot(out.requiredBots, x) <==> ContainsBot(RequiredUnder(c, ov), x) {
      GateIsRequired(registry, c, ov, x);
    }
    StaysWellFormed(registry, c, ov);
    RequiredGood(registry, c, ov);
    SameGateKeys(registry, c.knownCoBots, out.requiredBots, RequiredUnder(c, ov));
  }

  // ---- An override of both halves hides the fleet's defaults

  /** Two configurations that differ only in the typed reviewer defaults. */
  predicate SameBase(a: Config, b: Config) {
    a.bot == b.bot && a.reviewCommand == b.reviewCommand && a.knownCoBots == b.knownCoBots
  }

  lemma OtherHasEntry(registry: seq<CoReviewer>, a: Config, b: Config, ov: Override, cb: CoBot)
    requires WellFormed(registry, a) && WellFormed(registry, b) && SameBase(a, b)
    requires ov.setCoBots && ov.setRequired && GoodOverride(registry, a, ov)
    requires cb in CoBotsUnder(registry, a, ov) && !SameBot(cb.login, a.bot)
    ensures Key(cb.login) in CoKeys(CoBotsUnder(registry, b, ov))
    ensures forall other :: other in CoBotsUnder(registry, b, ov) && SameBot(other.login, cb.login) ==> other == cb
  {
    hide Key, Canonical, WellKnown, CoBotsUnder, Built, ByName, KnownCoBot, AddRequired, EntryFor;
    CoBotsExactly(registry, a, ov);
    CoBotsExactly(registry, b, ov);
    var enabled, required := EnabledUnder(registry, a, ov), RequiredUnder(a, ov);
    assert EnabledUnder(registry, b, ov) == enabled && RequiredUnder(b, ov) == required;
    EnabledGood(registry, a, ov);
    var i :| 0 <= i < |enabled| && SameBot(enabled[i], cb.login);
    assert enabled[i] in enabled;
    hide EnabledUnder, RequiredUnder;
    KnownKeyed(registry, a.knownCoBots, enabled[i], cb.login);
    forall other | other in CoBotsUnder(registry, b, ov) && SameBot(other.login, cb.login) ensures other == cb {
      EntryKeyed(registry, a.knownCoBots, required, other.login, cb.login);
    }
  }

  lemma SameCoKeys(registry: seq<CoReviewer>, a: Config, b: Config, ov: Override)
    requires WellFormed(registry, a) && WellFormed(registry, b) && SameBase(a, b)
    requires ov.setCoBots && ov.setRequired && GoodOverride(registry, a, ov)
    ensures PrimaryKeys(a.bot) + CoKeys(CoBotsUnder(registry, a, ov))
         <= PrimaryKeys(a.bot) + CoKeys(CoBotsUnder(registry, b, ov))
  {
    hide Key, Canonical, WellKnown, CoBotsUnder, KnownCoBot, EnabledUnder, RequiredUnder, EntryOf, WellFormed,
      GoodOverride;
    forall cb | cb in CoBotsUnder(registry, a, ov)
      ensures Key(cb.login) in PrimaryKeys(a.bot) + CoKeys(CoBotsUnder(registry, b, ov))
    {
      if SameBot(cb.login, a.bot) {
        NamedPrimary(registry, a, ov, cb);
      } else {
        OtherHasEntry(registry, a, b, ov, cb);
      }
    }
  }

  lemma NamedPrimary(registry: seq<CoReviewer>, c: Config, ov: Override, cb: CoBot)
    requires WellFormed(registry, c) && GoodOverride(registry, c, ov)
    requires cb in CoBotsUnder(registry, c, ov) && SameBot(cb.login, c.bot)
    ensures c.bot != ""
  {
    hide Key, Canonical, WellKnown, CoBotsUnder, KnownCoBot, EnabledUnder, RequiredUnder;
    CoBotsExactly(registry, c, ov);
    EmptyKeyUnused(registry, c.knownCoBots, cb.login);
  }

  lemma CoPartHas(registry: seq<CoReviewer>, a: Config, b: Config, ov: Override, requiredKeys: set<string>, r: Reviewer)
    requires WellFormed(registry, a) && WellFormed(registry, b) && SameBase(a, b)
    requires ov.setCoBots && ov.setRequired && GoodOverride(registry, a, ov)
    requires r in CoPart(CoBotsUnder(registry, a, ov), PrimaryKeys(a.bot), requiredKeys)
    ensures r in CoPart(CoBotsUnder(registry, b, ov), PrimaryKeys(a.bot), requiredKeys)
  {
    hide Key, Canonical, WellKnown, CoBotsUnder, KnownCoBot, CoPart, WellFormed, GoodOverride;
    var mine, theirs := CoBotsUnder(registry, a, ov), CoBotsUnder(registry, b, ov);
    CoPartExactly(mine, PrimaryKeys(a.bot), requiredKeys);
    CoPartExactly(theirs, PrimaryKeys(a.bot), requiredKeys);
    var cb := FirstCo(mine, Key(r.login)).value;
    assert Key(r.login) in LoginKeys(CoPart(mine, PrimaryKeys(a.bot), requiredKeys));
    if SameBot(cb.login, a.bot) {
      NamedPrimary(registry, a, ov, cb);
      assert false;
    }
    OtherHasEntry(registry, a, b, ov, cb);
    assert Key(r.login) in LoginKeys(CoPart(theirs, PrimaryKeys(a.bot), requiredKeys));
    var other :| other in CoPart(theirs, PrimaryKeys(a.bot), requiredKeys) && Key(other.login) == Key(r.login);
    assert FirstCo(theirs, Key(other.login)).value == cb;
  }

  /** With both halves overridden, the fleet's typed defaults do not matter: every
      reviewer under one set of them is a reviewer under any other. */
  lemma BothHalvesDecide(registry: seq<CoReviewer>, a: Config, b: Config, ov: Override, r: Reviewer)
    requires WellFormed(registry, a) && WellFormed(registry, b) && SameBase(a, b)
    requires ov.setCoBots && ov.setRequired && GoodOverride(registry, a, ov)
    requires r in Under(registry, a, ov).reviewers
    ensures r in Under(registry, b, ov).reviewers
  {
    hide Key, Canonical, WellKnown, CoBotsUnder, KnownCoBot, WellFormed, GoodOverride, CoPart, ExtraPart, CoKeys,
      RequiredKeys;
    var required := RequiredUnder(a, ov);
    assert RequiredUnder(b, ov) == required;
    SameCoKeys(registry, a, b, ov);
    SameGood(registry, a, b, ov);
    SameCoKeys(registry, b, a, ov);
    assert PrimaryKeys(a.bot) + CoKeys(CoBotsUnder(registry, a, ov))
        == PrimaryKeys(b.bot) + CoKeys(CoBotsUnder(registry, b, ov));
    hide RequiredUnder, LoginKeys;
    if r in CoPart(CoBotsUnder(registry, a, ov), PrimaryKeys(a.bot), RequiredKeys(required)) {
      CoPartHas(registry, a, b, ov, RequiredKeys(required), r);
    }
  }

  lemma SameGood(registry: seq<CoReviewer>, a: Config, b: Config, ov: Override)
    requires SameBase(a, b) && GoodOverride(registry, a, ov)
    ensures GoodOverride(registry, b, ov)
  {
  }

  /** The fleet's typed defaults, laid under an override of both halves, leave the
      repository's reviewers as they are without them. */
  lemma FleetDefaultsHidden(registry: seq<CoReviewer>, c: Config, fleet: Override, ov: Override)
    requires WellFormed(registry, c) && GoodOverride(registry, c, fleet) && GoodOverride(registry, c, ov)
    requires !fleet.primaryOff && ov.setCoBots && ov.setRequired
    ensures (set r | r in Under(registry, Under(registry, c, fleet), ov).reviewers)
         == (set r | r in Under(registry, c, ov).reviewers)
  {
    var layered := Under(registry, c, fleet);
    StaysWellFormed(registry, c, fleet);
    SameGood(registry, c, layered, ov);
    forall r | r in Under(registry, layered, ov).reviewers ensures r in Under(registry, c, ov).reviewers {
      BothHalvesDecide(registry, layered, c, ov, r);
    }
    forall r | r in Under(registry, c, ov).reviewers ensures r in Under(registry, layered, ov).reviewers {
      BothHalvesDecide(registry, c, layered, ov, r);
    }
  }
}
