/** When two posts of one co-reviewer's command can be authorized close together, and what
    a poster that returns late can overwrite. */
module Claiming {
  import opened Text
  import opened Reviewers
  import opened Rounds
  import opened Closures
  import opened Protocol
  import opened Runs

  /** A claim: it authorizes one post of a co-reviewer's command. */
  predicate Claims(e: Event) { e.Granted? || e.Restamped? }

  predicate About(e: Event, birth: nat, login: string) { CoEvent(e) && e.birth == birth && e.login == login }

  // ---- Guarded claims

  /** Between two positions the round's bot was only claimed, and never with an older
      clock reading than at the first: no command was recorded and no claim let go. */
  ghost predicate OnlyClaimed(log: seq<Event>, i: nat, j: nat, birth: nat, login: string)
    requires i < j <= |log| && Claims(log[i])
  {
    forall k :: i < k < j && About(log[k], birth, login) ==>
      log[k].Granted? || (log[k].Restamped? && log[k].at >= log[i].at)
  }

  lemma GrantedWasFree(log: seq<Event>, j: nat)
    requires LogOk(log) && j < |log|
    ensures log[j].Granted? ==> Free(ClaimOf(log[..j], log[j].birth, log[j].login), log[j].at)
  {
    assert EventOk(log[..j], log[j]);
  }

  lemma {:induction false} ClaimStands(log: seq<Event>, i: nat, j: nat, birth: nat, login: string)
    requires LogOk(log) && i < j <= |log| && Claims(log[i]) && OnlyClaimed(log, i, j, birth, login)
    requires About(log[i], birth, login)
    ensures var standing := ClaimOf(log[..j], birth, login); standing.Some? && standing.value >= log[i].at
    decreases j
  {
    hide LogOk;
    var last := log[j - 1];
    assert log[..j] == log[..j - 1] + [last];
    ClaimSnoc(log[..j - 1], last, birth, login);
    if j - 1 > i {
      ClaimStands(log, i, j - 1, birth, login);
      GrantedWasFree(log, j - 1);
    }
  }

  /** A guarded claim comes a claim's lifetime after any earlier one of the same round and
      bot, unless in between a command was recorded, a claim was let go, or an adopted
      fire stamped an older reading. */
  lemma ClaimsAreExclusive(f: Fleet, w: World, i: nat, j: nat)
    requires FleetOk(f) && Reachable(f, w)
    requires i < j < |w.log| && Claims(w.log[i]) && w.log[j].Granted?
    requires w.log[i].birth == w.log[j].birth && w.log[i].login == w.log[j].login
    requires OnlyClaimed(w.log, i, j, w.log[i].birth, w.log[i].login)
    ensures w.log[j].at - w.log[i].at >= TRIGGER_CLAIM_TTL
  {
    ReachableOk(f, w);
    LogIsOk(f, w);
    hide Inv, LogOk, Reachable;
    ClaimStands(w.log, i, j, w.log[i].birth, w.log[i].login);
    GrantedWasFree(w.log, j);
  }

  /** What a live or an archived round stores for a bot is exactly what the history implies. */
  lemma ClaimsFollowHistory(f: Fleet, w: World, r: Round, login: string)
    requires FleetOk(f) && Reachable(f, w)
    requires (r.pr in w.state.rounds && w.state.rounds[r.pr] == r) || r in w.state.archive
    ensures CoOf(r, login).claimedAt == ClaimOf(w.log, r.birth, Key(login))
    ensures CoOf(r, login).command == CommandOf(w.log, r.birth, Key(login))
  {
    ReachableOk(f, w);
    hide Reachable, LogOk, Key, ClaimOf, CommandOf, TokenOk, HoldOk, AnswerOk, NameOk, EditsOk, BornBelow;
  }

  // ---- A write that claims over a live claim

  /** The write authorizes a post of login on a round whose stored claim for it is live. */
  ghost predicate ClaimsOverLive(f: Fleet, s: State, a: Action, login: string)
    requires Shaped(a)
  {
    exists e, pr :: e in Effect(f, s, a).events && Claims(e) && e.login == Key(login)
      && pr in s.rounds && s.rounds[pr].birth == e.birth && ClaimLive(CoOf(s.rounds[pr], login), e.at)
  }

  /** An adopted fire that commits, for a login whose claim stands. */
  predicate AdoptsOverLive(s: State, a: Action, login: string) {
    && a.DoAdopt? && MayFire(s, a.want, a.cfg, a.now) && ContainsBot(a.claims, login)
    && ClaimLive(CoOf(s.rounds[a.want.pr], login), a.now)
  }

  /** A guarded claim takes only what is free before the write. */
  lemma {:induction false} ClaimFreeTakesFree(r: Round, logins: seq<string>, now: Time)
    ensures forall e :: e in ClaimFree(r, logins, now).events ==>
      e.Granted? && e.at == now && !ClaimLive(CoAt(r, e.login), now)
    decreases |logins|
  {
    hide Key, SetCo;
    if logins != [] {
      ClaimFreeTakesFree(r, logins[1..], now);
      ClaimFreeTakesFree(ClaimCo(r, logins[0], now), logins[1..], now);
    }
  }

  /** An adoption leaves a live claim alone. */
  lemma {:induction false} AdoptAllKeepsLive(r: Round, posts: seq<CoPost>, now: Time, key: string)
    requires ClaimLive(CoAt(r, key), now)
    ensures CoAt(AdoptAll(r, posts, now).round, key) == CoAt(r, key)
    decreases |posts|
  {
    hide Key, SetCo;
    if posts != [] {
      var p := posts[0];
      if CoOf(r, p.login).command != 0 || ClaimLive(CoOf(r, p.login), now) {
        AdoptAllKeepsLive(r, posts[1..], now, key);
      } else {
        AdoptAllKeepsLive(SetCoCommand(r, p.login, p.id, p.at), posts[1..], now, key);
      }
    }
  }

  /** An adopted fire stamps every login, at its own clock reading. */
  lemma {:induction false} ClaimAllStamps(r: Round, logins: seq<string>, now: Time)
    ensures forall e :: e in ClaimAll(r, logins, now).events ==>
      e.Restamped? && e.at == now && e.birth == r.birth && exists i :: 0 <= i < |logins| && Key(logins[i]) == e.login
    ensures forall i :: 0 <= i < |logins| ==> Restamped(r.birth, Key(logins[i]), now) in ClaimAll(r, logins, now).events
    decreases |logins|
  {
    hide Key, SetCo;
    if logins != [] {
      var rest := ClaimAll(ClaimCo(r, logins[0], now), logins[1..], now);
      ClaimAllStamps(ClaimCo(r, logins[0], now), logins[1..], now);
      forall e | e in ClaimAll(r, logins, now).events
        ensures e.Restamped? && e.at == now && e.birth == r.birth
             && exists i :: 0 <= i < |logins| && Key(logins[i]) == e.login
      {
        if e in rest.events {
          var i :| 0 <= i < |logins[1..]| && Key(logins[1..][i]) == e.login;
          assert logins[i + 1] == logins[1..][i];
        } else {
          assert Key(logins[0]) == e.login;
        }
      }
      forall i | 0 <= i < |logins|
        ensures Restamped(r.birth, Key(logins[i]), now) in ClaimAll(r, logins, now).events
      {
        assert i > 0 ==> logins[i] == logins[1..][i - 1];
      }
    }
  }

  lemma AdoptStamps(s: State, a: Action, e: Event)
    requires a.DoAdopt? && Claims(e)
    ensures e in AdoptFire(s, a.want, a.token, a.cfg, a.command, a.firedAt, a.deadline, a.claims, a.posts, a.now).events
      <==> MayFire(s, a.want, a.cfg, a.now) && e.Restamped? && e.at == a.now
           && e.birth == s.rounds[a.want.pr].birth && exists i :: 0 <= i < |a.claims| && Key(a.claims[i]) == e.login
  {
    hide RecordAll, ClaimAll, SlotHeld, ReviewersChanged, Key;
    if MayFire(s, a.want, a.cfg, a.now) {
      var fired := Fire(Reserve(s.rounds[a.want.pr], a.token, a.now).value, a.command, a.firedAt).value
                   .(waitDeadline := Some(a.deadline));
      ClaimAllStamps(fired, a.claims, a.now);
      RecordAllEvents(ClaimAll(fired, a.claims, a.now).round, a.posts, a.claims);
    }
  }

  /** Every guarded write claims only what is free before it. */
  lemma GuardedTakesFree(f: Fleet, w: World, a: Action, e: Event)
    requires Shaped(a) && Inv(f, w) && !a.DoAdopt? && e in Effect(f, w.state, a).events && Claims(e)
    ensures e.Granted? && a.want.pr in w.state.rounds && e.birth == w.state.rounds[a.want.pr].birth
    ensures !ClaimLive(CoAt(w.state.rounds[a.want.pr], e.login), e.at)
  {
    hide Inv, ReviewersChanged, FireEligible, Key, SetCo, ReserveFire, AdoptAll, ClaimFree, Still;
    GrantsAreUnheld(f, w, a, e);
    var r := w.state.rounds[a.want.pr];
    if a.DoClaimCoOnly? {
      ClaimFreeTakesFree(r, a.claims, a.now);
    } else if a.DoClaimDeferred? {
      AdoptAllEvents(r, a.posts, a.now);
      var adopted := AdoptAll(r, a.posts, a.now).round;
      ClaimFreeTakesFree(adopted, a.claims, a.now);
      if ClaimLive(CoAt(r, e.login), a.now) {
        AdoptAllKeepsLive(r, a.posts, a.now, e.login);
      }
    } else if a.DoReserve? {
      ReserveEvents(w.state, a, e);
    }
  }

  lemma AdoptedOverLive(f: Fleet, s: State, a: Action, login: string)
    requires a.DoAdopt? && DistinctBirths(s.rounds)
    ensures ClaimsOverLive(f, s, a, login) <==> AdoptsOverLive(s, a, login)
  {
    hide Effect, Key, SlotHeld, Firable, ReviewersChanged, AdoptFire, ContainsBot;
    AdoptedEffect(f, s, a);
    if AdoptsOverLive(s, a, login) {
      var e := Restamped(s.rounds[a.want.pr].birth, Key(login), a.now);
      NamedInList(a.claims, login);
      AdoptStamps(s, a, e);
      assert e in Effect(f, s, a).events && Claims(e) && a.want.pr in s.rounds;
    }
    if ClaimsOverLive(f, s, a, login) {
      var e, pr :| e in Effect(f, s, a).events && Claims(e) && e.login == Key(login)
        && pr in s.rounds && s.rounds[pr].birth == e.birth && ClaimLive(CoOf(s.rounds[pr], login), e.at);
      AdoptStamps(s, a, e);
      NamedInList(a.claims, login);
      assert pr == a.want.pr;
    }
  }

  lemma NamedInList(logins: seq<string>, login: string)
    ensures ContainsBot(logins, login) <==> exists i :: 0 <= i < |logins| && Key(logins[i]) == Key(login)
  {
    hide Key;
    if i :| 0 <= i < |logins| && Key(logins[i]) == Key(login) {
      assert SameBot(logins[i], login);
    }
  }

  /** A write claims over a live claim exactly when it is an adopted fire that commits for
      a login whose claim stands. */
  lemma ClaimsOverLiveExactly(f: Fleet, w: World, a: Action, login: string)
    requires FleetOk(f) && Reachable(f, w) && Legal(f, w, a)
    ensures Shaped(a) && (ClaimsOverLive(f, w.state, a, login) <==> AdoptsOverLive(w.state, a, login))
  {
    LegalIsShaped(f, w, a);
    ReachableOk(f, w);
    hide Inv, FleetOk, Reachable, Legal, Effect, Key, MayFire, Shaped;
    DistinctHere(f, w);
    var s := w.state;
    if a.DoAdopt? {
      AdoptedOverLive(f, s, a, login);
    } else if ClaimsOverLive(f, s, a, login) {
      var e, pr :| e in Effect(f, s, a).events && Claims(e) && e.login == Key(login)
        && pr in s.rounds && s.rounds[pr].birth == e.birth && ClaimLive(CoOf(s.rounds[pr], login), e.at);
      GuardedTakesFree(f, w, a, e);
    }
  }

  lemma AdoptedEffect(f: Fleet, s: State, a: Action)
    requires a.DoAdopt?
    ensures Effect(f, s, a)
         == AdoptFire(s, a.want, a.token, a.cfg, a.command, a.firedAt, a.deadline, a.claims, a.posts, a.now)
  {
    hide AdoptFire;
  }

  // ---- Runs in which every two claims are a lifetime apart

  /** Nothing between two positions recorded a command or let a claim go. */
  ghost predicate Undisturbed(log: seq<Event>, i: nat, j: nat, birth: nat, login: string)
    requires j <= |log|
  {
    forall k :: i < k < j && About(log[k], birth, login) ==> Claims(log[k])
  }

  /** Two claims of one round and bot, and nothing between that ended the first. */
  ghost predicate Successive(log: seq<Event>, i: nat, j: nat)
    requires i < j < |log|
  {
    && Claims(log[i]) && Claims(log[j]) && About(log[i], log[j].birth, log[j].login)
    && Undisturbed(log, i, j, log[j].birth, log[j].login)
  }

  /** Every two claims of a round and bot, adopted fires included, with nothing between
      that ended the first, are a claim's lifetime apart. */
  ghost predicate Spaced(log: seq<Event>) {
    forall i, j :: 0 <= i < j < |log| && Successive(log, i, j) ==> log[j].at - log[i].at >= TRIGGER_CLAIM_TTL
  }

  predicate FreeAt(log: seq<Event>, j: nat)
    requires j < |log|
  {
    Claims(log[j]) ==> Free(ClaimOf(log[..j], log[j].birth, log[j].login), log[j].at)
  }

  /** Every claim from a position on found its predecessor gone. */
  ghost predicate FreeFrom(log: seq<Event>, n: nat) {
    forall j :: n <= j < |log| ==> FreeAt(log, j)
  }

  lemma {:induction false} SpacedStands(log: seq<Event>, i: nat, j: nat, birth: nat, login: string)
    requires FreeFrom(log, 0) && i < j <= |log| && Claims(log[i]) && About(log[i], birth, login)
    requires Undisturbed(log, i, j, birth, login)
    ensures var standing := ClaimOf(log[..j], birth, login); standing.Some? && standing.value >= log[i].at
    decreases j
  {
    var last := log[j - 1];
    assert log[..j] == log[..j - 1] + [last];
    ClaimSnoc(log[..j - 1], last, birth, login);
    if j - 1 > i {
      SpacedStands(log, i, j - 1, birth, login);
      assert FreeAt(log, j - 1);
    }
  }

  /** A standing claim was written by the last claim of the round and bot. */
  lemma {:induction false} StandingSince(log: seq<Event>, j: nat, birth: nat, login: string) returns (i: nat)
    requires j <= |log| && ClaimOf(log[..j], birth, login).Some?
    ensures i < j && Claims(log[i]) && About(log[i], birth, login) && Undisturbed(log, i, j, birth, login)
    ensures log[i].at == ClaimOf(log[..j], birth, login).value
    decreases j
  {
    var last := log[j - 1];
    assert log[..j] == log[..j - 1] + [last];
    ClaimSnoc(log[..j - 1], last, birth, login);
    if Claims(last) && About(last, birth, login) {
      i := j - 1;
    } else {
      i := StandingSince(log, j - 1, birth, login);
    }
  }

  lemma SpacedIsFree(log: seq<Event>)
    ensures Spaced(log) <==> FreeFrom(log, 0)
  {
    if FreeFrom(log, 0) {
      forall i, j | 0 <= i < j < |log| && Successive(log, i, j)
        ensures log[j].at - log[i].at >= TRIGGER_CLAIM_TTL
      {
        SpacedStands(log, i, j, log[j].birth, log[j].login);
        assert FreeAt(log, j);
      }
    }
    if Spaced(log) {
      forall j | 0 <= j < |log| ensures FreeAt(log, j) {
        if Claims(log[j]) && ClaimOf(log[..j], log[j].birth, log[j].login).Some? {
          var i := StandingSince(log, j, log[j].birth, log[j].login);
          assert Successive(log, i, j);
        }
      }
    }
  }

  /** No login of the list has a live claim, and none is named twice. */
  predicate Untaken(r: Round, logins: seq<string>, now: Time) {
    && (forall i :: 0 <= i < |logins| ==> !ClaimLive(CoOf(r, logins[i]), now))
    && forall i, j :: 0 <= i < j < |logins| ==> !SameBot(logins[i], logins[j])
  }

  /** An adopted fire that commits over a live claim, or stamps one bot twice. */
  predicate AdoptsOver(s: State, a: Action) {
    a.DoAdopt? && MayFire(s, a.want, a.cfg, a.now) && !Untaken(s.rounds[a.want.pr], a.claims, a.now)
  }

  lemma UntakenCons(r: Round, logins: seq<string>, now: Time)
    requires logins != []
    ensures Untaken(r, logins, now)
      <==> !ClaimLive(CoOf(r, logins[0]), now) && Untaken(ClaimCo(r, logins[0], now), logins[1..], now)
  {
    hide Key, SetCo;
    var next, rest := ClaimCo(r, logins[0], now), logins[1..];
    assert forall i :: 0 <= i < |rest| ==> rest[i] == logins[i + 1];
    forall i | 0 <= i < |rest|
      ensures ClaimLive(CoOf(next, rest[i]), now) <==> SameBot(logins[0], rest[i]) || ClaimLive(CoOf(r, rest[i]), now)
    {
    }
    if Untaken(r, logins, now) {
      forall i, j | 0 <= i < j < |rest| ensures !SameBot(rest[i], rest[j]) {
        assert !SameBot(logins[i + 1], logins[j + 1]);
      }
      forall i | 0 <= i < |rest| ensures !ClaimLive(CoOf(next, rest[i]), now) {
        assert !SameBot(logins[0], logins[i + 1]) && !ClaimLive(CoOf(r, logins[i + 1]), now);
      }
    }
    if !ClaimLive(CoOf(r, logins[0]), now) && Untaken(next, rest, now) {
      forall i | 0 <= i < |logins| ensures !ClaimLive(CoOf(r, logins[i]), now) {
        assert i > 0 ==> !ClaimLive(CoOf(next, rest[i - 1]), now);
      }
      forall i, j | 0 <= i < j < |logins| ensures !SameBot(logins[i], logins[j]) {
        assert !ClaimLive(CoOf(next, rest[j - 1]), now);
        assert i > 0 ==> !SameBot(rest[i - 1], rest[j - 1]);
      }
    }
  }

  lemma FreeSplits(a: seq<Event>, b: seq<Event>, n: nat)
    requires n <= |a|
    ensures FreeFrom(a + b, n) <==> FreeFrom(a, n) && FreeFrom(a + b, |a|)
  {
    hide Claims, ClaimOf, Free;
    forall j | n <= j < |a| ensures FreeAt(a + b, j) <==> FreeAt(a, j) {
      assert (a + b)[..j] == a[..j];
    }
  }

  lemma NoClaimsAreFree(log: seq<Event>, events: seq<Event>)
    requires forall e :: e in events ==> !Claims(e)
    ensures FreeFrom(log + events, |log|)
  {
    forall j | |log| <= j < |log + events| ensures FreeAt(log + events, j) {
      assert (log + events)[j] in events;
    }
  }

  /** What an adopted fire stamps was free exactly when nothing on its list was taken. */
  lemma {:induction false} StampedFree(log: seq<Event>, r: Round, logins: seq<string>, now: Time)
    requires LogOk(log) && ClaimsOk(log, r)
    ensures FreeFrom(log + ClaimAll(r, logins, now).events, |log|) <==> Untaken(r, logins, now)
    decreases |logins|
  {
    hide Key, LogOk, SetCo, ClaimOf, CommandOf, FreeFrom, Untaken;
    if logins == [] {
      NoClaimsAreFree(log, []);
      NobodyIsUntaken(r, now);
    } else {
      var e, next := Restamped(r.birth, Key(logins[0]), now), ClaimCo(r, logins[0], now);
      CoWrite(log, r, logins[0], CoOf(r, logins[0]).(claimedAt := Some(now)), e);
      var rest := ClaimAll(next, logins[1..], now).events;
      StampedFree(log + [e], next, logins[1..], now);
      UntakenCons(r, logins, now);
      FreeSplits(log + [e], rest, |log|);
      assert (log + [e]) + rest == log + ([e] + rest);
      OneFree(log, e);
    }
  }

  lemma NobodyIsUntaken(r: Round, now: Time)
    ensures Untaken(r, [], now)
  {
  }

  lemma OneFree(log: seq<Event>, e: Event)
    requires Claims(e)
    ensures FreeFrom(log + [e], |log|) <==> Free(ClaimOf(log, e.birth, e.login), e.at)
  {
    hide ClaimOf, Free;
    assert (log + [e])[..|log|] == log;
    assert FreeFrom(log + [e], |log|) <==> FreeAt(log + [e], |log|);
  }

  /** The claims of one write all found their predecessors gone, unless it is an adopted
      fire over a claim that stands. */
  lemma StepFree(f: Fleet, w: World, a: Action)
    requires FleetOk(f) && Inv(f, w) && Legal(f, w, a)
    ensures FreeFrom(Step(f, w, a).log, |w.log|) <==> !AdoptsOver(w.state, a)
  {
    LegalIsShaped(f, w, a);
    if a.DoAdopt? {
      AdoptedFree(f, w, a);
    } else {
      hide FleetOk, Legal, Effect, Inv, FreeAt;
      StepKeeps(f, w, a);
      var log := Step(f, w, a).log;
      LogIsOk(f, Step(f, w, a));
      forall j | |w.log| <= j < |log| ensures FreeAt(log, j) {
        assert log[j] in Effect(f, w.state, a).events;
        GuardedIsFree(f, w, a, log, j);
      }
    }
  }

  lemma GuardedIsFree(f: Fleet, w: World, a: Action, log: seq<Event>, j: nat)
    requires Shaped(a) && Inv(f, w) && !a.DoAdopt? && LogOk(log) && j < |log| && log[j] in Effect(f, w.state, a).events
    ensures FreeAt(log, j)
  {
    hide Inv, LogOk, Effect, ClaimOf;
    if Claims(log[j]) {
      GuardedTakesFree(f, w, a, log[j]);
      GrantedWasFree(log, j);
    }
  }

  lemma AdoptedFree(f: Fleet, w: World, a: Action)
    requires a.DoAdopt? && FleetOk(f) && Inv(f, w) && Legal(f, w, a)
    ensures FreeFrom(Step(f, w, a).log, |w.log|) <==> !AdoptsOver(w.state, a)
  {
    AdoptedEffect(f, w.state, a);
    hide Inv, FleetOk, LogOk, AdoptFire, SlotHeld, Firable, ReviewersChanged, FreeFrom, Untaken, ClaimsOk, Effect;
    if MayFire(w.state, a.want, a.cfg, a.now) {
      WaitingHasNoToken(f, w, a.want.pr);
      LogIsOk(f, w);
      AdoptedEventsFree(w.log, w.state, a);
    } else {
      NothingAdopted(w.state, a);
      NoClaimsAreFree(w.log, []);
    }
  }

  lemma NothingAdopted(s: State, a: Action)
    requires a.DoAdopt? && !MayFire(s, a.want, a.cfg, a.now)
    ensures AdoptFire(s, a.want, a.token, a.cfg, a.command, a.firedAt, a.deadline, a.claims, a.posts, a.now)
         == NoChange(s)
  {
    hide MayFire;
  }

  lemma AdoptedEventsFree(log: seq<Event>, s: State, a: Action)
    requires a.DoAdopt? && MayFire(s, a.want, a.cfg, a.now) && a.token != 0 && !TokenKnown(log, a.token)
    requires LogOk(log) && ClaimsOk(log, s.rounds[a.want.pr])
    ensures var events :=
      AdoptFire(s, a.want, a.token, a.cfg, a.command, a.firedAt, a.deadline, a.claims, a.posts, a.now).events;
      FreeFrom(log + events, |log|) <==> Untaken(s.rounds[a.want.pr], a.claims, a.now)
  {
    hide LogOk, ClaimAll, RecordAll, SlotHeld, ReviewersChanged, FreeFrom, Untaken, ClaimsOk, TokenKnown;
    var r := s.rounds[a.want.pr];
    var fired := Fire(Reserve(r, a.token, a.now).value, a.command, a.firedAt).value.(waitDeadline := Some(a.deadline));
    var first := [TokenReserved(a.token, r.birth), FireLogged(a.token, r.birth, a.firedAt)];
    var claimed := ClaimAll(fired, a.claims, a.now);
    var done := RecordAll(claimed.round, a.posts, a.claims);
    FiredClaims(log, r, fired, a.token, a.firedAt);
    FiredLogOk(log, a.token, r.birth, a.firedAt);
    StampedFree(log + first, fired, a.claims, a.now);
    FiredUntaken(r, fired, a.claims, a.now);
    RecordAllEvents(claimed.round, a.posts, a.claims);
    AfterFired(log, first, claimed.events, done.events);
  }

  /** Of what an adopted fire writes, only its stamps are claims. */
  lemma AfterFired(log: seq<Event>, first: seq<Event>, claimed: seq<Event>, done: seq<Event>)
    requires (forall e :: e in first ==> !Claims(e)) && forall e :: e in done ==> !Claims(e)
    ensures FreeFrom(log + (first + claimed + done), |log|) <==> FreeFrom(log + first + claimed, |log + first|)
  {
    hide FreeFrom, Claims;
    NoClaimsAreFree(log, first);
    NoClaimsAreFree(log + first + claimed, done);
    FreeSplits(log + first, claimed, |log|);
    FreeSplits(log + first + claimed, done, |log|);
    assert log + (first + claimed + done) == log + first + claimed + done;
  }

  lemma FiredClaims(log: seq<Event>, r: Round, fired: Round, token: Token, at: Time)
    requires ClaimsOk(log, r) && fired.cos == r.cos && fired.birth == r.birth
    ensures ClaimsOk(log + [TokenReserved(token, r.birth), FireLogged(token, r.birth, at)], fired)
  {
    hide ClaimOf, CommandOf;
    var a, b := TokenReserved(token, r.birth), FireLogged(token, r.birth, at);
    assert log + [a, b] == (log + [a]) + [b];
    forall key
      ensures CoAt(fired, key).claimedAt == ClaimOf(log + [a, b], r.birth, key)
           && CoAt(fired, key).command == CommandOf(log + [a, b], r.birth, key)
    {
      assert CoAt(fired, key) == CoAt(r, key);
      ClaimSnoc(log, a, r.birth, key);
      ClaimSnoc(log + [a], b, r.birth, key);
    }
  }

  lemma FiredLogOk(log: seq<Event>, token: Token, birth: nat, at: Time)
    requires LogOk(log) && token != 0 && !TokenKnown(log, token)
    ensures LogOk(log + [TokenReserved(token, birth), FireLogged(token, birth, at)])
  {
    hide LogOk, ClaimOf, StampKnown;
    var a, b := TokenReserved(token, birth), FireLogged(token, birth, at);
    UnknownUnlogged(log, token);
    LogSnoc(log, a);
    assert a in log + [a] && !TokenLogged(log + [a], token);
    LogSnoc(log + [a], b);
    assert log + [a, b] == (log + [a]) + [b];
  }

  lemma FiredUntaken(r: Round, fired: Round, logins: seq<string>, now: Time)
    requires fired.cos == r.cos
    ensures Untaken(fired, logins, now) <==> Untaken(r, logins, now)
  {
    hide Key;
    assert forall i :: 0 <= i < |logins| ==> CoOf(fired, logins[i]) == CoOf(r, logins[i]);
  }

  /** No adopted fire of the run commits over a claim that stands. */
  ghost predicate NeverAdoptsOver(f: Fleet, w: World, actions: seq<Action>)
    requires LegalRun(f, w, actions)
    decreases |actions|
  {
    actions == [] || (!AdoptsOver(w.state, actions[0]) && NeverAdoptsOver(f, Step(f, w, actions[0]), actions[1..]))
  }

  lemma {:induction false} RunFree(f: Fleet, w: World, actions: seq<Action>)
    requires FleetOk(f) && Inv(f, w) && LegalRun(f, w, actions)
    ensures FreeFrom(After(f, w, actions).log, 0) <==> FreeFrom(w.log, 0) && NeverAdoptsOver(f, w, actions)
    decreases |actions|
  {
    hide Inv, FleetOk, Legal, FreeFrom, AdoptsOver;
    if actions != [] {
      var a, next := actions[0], Step(f, w, actions[0]);
      StepFree(f, w, a);
      StepKeeps(f, w, a);
      LegalIsShaped(f, w, a);
      FreeSplits(w.log, Effect(f, w.state, a).events, 0);
      RunFree(f, next, actions[1..]);
    }
  }

  /** All claims of a run, adopted fires included, are a lifetime apart exactly when none
      of its adopted fires commits over a claim that stands. */
  lemma SpacedExactly(f: Fleet, actions: seq<Action>)
    requires FleetOk(f) && LegalRun(f, START, actions)
    ensures Spaced(After(f, START, actions).log) <==> NeverAdoptsOver(f, START, actions)
  {
    hide Inv, FleetOk, Legal, Spaced;
    StartOk(f);
    RunFree(f, START, actions);
    SpacedIsFree(After(f, START, actions).log);
  }

  // ---- A poster that returns late

  /** The command that stands was recorded at or after any recording there was. */
  lemma {:induction false} CommandSince(log: seq<Event>, k: nat, birth: nat, login: string) returns (m: nat)
    requires k < |log| && log[k].Commanded? && About(log[k], birth, login)
    ensures k <= m < |log| && log[m].Commanded? && About(log[m], birth, login)
    ensures log[m].id == CommandOf(log, birth, login)
    decreases |log|
  {
    var last, init := log[|log| - 1], log[..|log| - 1];
    assert log == init + [last];
    ClaimSnoc(init, last, birth, login);
    if last.Commanded? && About(last, birth, login) {
      m := |log| - 1;
    } else {
      m := CommandSince(init, k, birth, login);
    }
  }

  /** A command was recorded since a position, and none recorded since is the one that stood. */
  ghost predicate Recommanded(log: seq<Event>, since: nat, birth: nat, login: string, stood: int) {
    && (exists k :: since <= k < |log| && log[k].Commanded? && About(log[k], birth, login))
    && forall k :: since <= k < |log| && log[k].Commanded? && About(log[k], birth, login) ==> log[k].id != stood
  }

  /** The round as a list of rounds has it keeps its command. */
  ghost predicate KeepsCommand(r: Round, next: Round, login: string, command: int) {
    next.birth == r.birth && CoOf(r, login).command == command && CoOf(next, login).command == command
  }

  /** A worker read a round, and posts its command late. Whatever ran meanwhile: if a new
      command was recorded for the bot since, that command stays, on the live round and on
      the archived one. */
  lemma LateTriggerKeepsCommand(f: Fleet, earlier: World, actions: seq<Action>, want: Round, login: string, id: int,
                                at: Time)
    requires FleetOk(f) && Reachable(f, earlier) && LegalRun(f, earlier, actions)
    requires want.pr in earlier.state.rounds && earlier.state.rounds[want.pr] == want
    requires Recommanded(After(f, earlier, actions).log, |earlier.log|, want.birth,
                         Key(login), CoOf(want, login).command)
    ensures var w := After(f, earlier, actions);
      var next, command := TriggerRecorded(w.state, want, login, id, at).next, CommandOf(w.log, want.birth, Key(login));
      && (forall pr :: pr in w.state.rounds && w.state.rounds[pr].birth == want.birth ==>
            pr in next.rounds && KeepsCommand(w.state.rounds[pr], next.rounds[pr], login, command))
      && |next.archive| == |w.state.archive|
      && forall i :: 0 <= i < |next.archive| && w.state.archive[i].birth == want.birth ==>
           KeepsCommand(w.state.archive[i], next.archive[i], login, command)
  {
    var w := After(f, earlier, actions);
    var k :| |earlier.log| <= k < |w.log| && w.log[k].Commanded? && About(w.log[k], want.birth, Key(login));
    hide Inv, Key, FleetOk, LegalRun, After, Reachable;
    ReachableOk(f, earlier);
    RunKeeps(f, earlier, actions);
    var m := CommandSince(w.log, k, want.birth, Key(login));
    KeysOk(f, w);
    StoredCommands(f, w, login);
    NewerStays(w.state, want, login, id, at, CommandOf(w.log, want.birth, Key(login)));
  }

  /** The commands stored on live and archived rounds are those the history implies. */
  lemma StoredCommands(f: Fleet, w: World, login: string)
    requires Inv(f, w)
    ensures forall pr :: pr in w.state.rounds ==>
      CoOf(w.state.rounds[pr], login).command == CommandOf(w.log, w.state.rounds[pr].birth, Key(login))
    ensures forall i :: 0 <= i < |w.state.archive| ==>
      CoOf(w.state.archive[i], login).command == CommandOf(w.log, w.state.archive[i].birth, Key(login))
  {
    hide LogOk, Key, ClaimOf, CommandOf, TokenOk, HoldOk, AnswerOk, NameOk, EditsOk, BornBelow;
  }

  lemma NewerStays(s: State, want: Round, login: string, id: int, at: Time, command: int)
    requires command != CoOf(want, login).command && forall pr :: pr in s.rounds ==> s.rounds[pr].pr == pr
    requires forall pr :: pr in s.rounds && s.rounds[pr].birth == want.birth ==>
      CoOf(s.rounds[pr], login).command == command
    requires forall i :: 0 <= i < |s.archive| && s.archive[i].birth == want.birth ==>
      CoOf(s.archive[i], login).command == command
    ensures var next := TriggerRecorded(s, want, login, id, at).next;
      && (forall pr :: pr in s.rounds && s.rounds[pr].birth == want.birth ==>
            pr in next.rounds && KeepsCommand(s.rounds[pr], next.rounds[pr], login, command))
      && |next.archive| == |s.archive|
      && forall i :: 0 <= i < |next.archive| && s.archive[i].birth == want.birth ==>
           KeepsCommand(s.archive[i], next.archive[i], login, command)
  {
    hide Key;
  }

  // ---- An adopted fire over a live claim

  /** Two posts are authorized for one bot inside a claim's lifetime. */
  ghost predicate ClaimedTwice(w: World, i: nat, j: nat) {
    && i < j < |w.log| && w.log[i].Granted? && w.log[j].Restamped?
    && w.log[i].birth == w.log[j].birth && w.log[i].login == w.log[j].login
    && w.log[i].at <= w.log[j].at < w.log[i].at + TRIGGER_CLAIM_TTL
  }

  /** An adopted fire does not look at standing claims: it can authorize a second post
      for a bot whose trigger is being posted. */
  lemma AdoptedFireClaimsAgain(f: Fleet, pr: PR)
    ensures exists w, i, j :: Reachable(f, w) && ClaimedTwice(w, i, j)
  {
    hide Reachable, Effect, LegalRun, After, LogOk;
    StartReachable(f);
    var cfg, r1 := Cfg(f.base, None), Fresh(pr, "head", 1);
    FirstEffect(f, pr);
    ReachStep(f, START, DoEnqueue(pr, "head", false));
    var w1 := World(EMPTY.(rounds := map[pr := r1], nextSeq := 1), []);
    assert [] + [] == START.log;
    var claim := DoClaimDeferred(r1, [], ["bot"], cfg, 10);
    ClaimEffect(f, w1.state, r1, cfg);
    ReachStep(f, w1, claim);
    var r2 := ClaimCo(r1, "bot", 10);
    var w2 := World(Put(w1.state, r2), [Granted(1, "bot", 10)]);
    assert [] + [Granted(1, "bot", 10)] == w2.log;
    var adopt := DoAdopt(r2, 7, cfg, 99, 11, 12, ["bot"], [], 11);
    AdoptEffect(f, w2.state, r2, cfg);
    ReachStep(f, w2, adopt);
    var w3 := Step(f, w2, adopt);
    assert w3.log == [Granted(1, "bot", 10), TokenReserved(7, 1), FireLogged(7, 1, 11), Restamped(1, "bot", 11)];
    assert ClaimedTwice(w3, 0, 3);
  }

  lemma FirstEffect(f: Fleet, pr: PR)
    ensures Effect(f, EMPTY, DoEnqueue(pr, "head", false))
         == Outcome(EMPTY.(rounds := map[pr := Fresh(pr, "head", 1)], nextSeq := 1), [])
  {
  }

  lemma ClaimEffect(f: Fleet, s: State, r: Round, cfg: Cfg)
    requires s.rounds == map[r.pr := r] && s.holds == map[] && s.overrides == map[] && cfg.overrideAt == None
    requires r.cos == map[] && r.birth == 1 && r.phase == Queued
    ensures Effect(f, s, DoClaimDeferred(r, [], ["bot"], cfg, 10))
         == Outcome(Put(s, ClaimCo(r, "bot", 10)), [Granted(1, "bot", 10)])
  {
    ClaimedOnce(r);
    hide AdoptAll, ClaimFree, Key;
    assert [] + [Granted(1, "bot", 10)] == [Granted(1, "bot", 10)];
  }

  lemma AdoptEffect(f: Fleet, s: State, r: Round, cfg: Cfg)
    requires s.rounds == map[r.pr := r] && s.holds == map[] && s.overrides == map[] && cfg.overrideAt == None
    requires r.birth == 1 && r.phase == Queued && r.dispatch == None && s.slot.None? && s.slotHoldUntil.None?
    ensures Effect(f, s, DoAdopt(r, 7, cfg, 99, 11, 12, ["bot"], [], 11)).events
         == [TokenReserved(7, 1), FireLogged(7, 1, 11), Restamped(1, "bot", 11)]
  {
    var fired := Fire(Reserve(r, 7, 11).value, 99, 11).value.(waitDeadline := Some(12));
    AdoptedOnce(fired);
    hide ClaimAll, RecordAll, Key;
    assert [TokenReserved(7, 1), FireLogged(7, 1, 11)] + [Restamped(1, "bot", 11)] + []
        == [TokenReserved(7, 1), FireLogged(7, 1, 11), Restamped(1, "bot", 11)];
  }

  lemma BotKey()
    ensures Key("bot") == "bot"
  {
  }

  lemma ClaimedOnce(r: Round)
    requires r.cos == map[] && r.birth == 1
    ensures AdoptAll(r, [], 10) == Noted(r, [])
    ensures ClaimFree(r, ["bot"], 10) == Noted(ClaimCo(r, "bot", 10), [Granted(1, "bot", 10)])
  {
    BotKey();
    hide Key;
    assert CoOf(r, "bot") == NO_CO;
    assert ClaimFree(ClaimCo(r, "bot", 10), [], 10) == Noted(ClaimCo(r, "bot", 10), []);
    assert ["bot"][1..] == [];
  }

  lemma AdoptedOnce(r: Round)
    requires r.birth == 1
    ensures ClaimAll(r, ["bot"], 11) == Noted(ClaimCo(r, "bot", 11), [Restamped(1, "bot", 11)])
    ensures RecordAll(ClaimCo(r, "bot", 11), [], ["bot"]) == Noted(ClaimCo(r, "bot", 11), [])
  {
    BotKey();
    hide Key;
    assert ["bot"][1..] == [];
    assert ClaimAll(ClaimCo(r, "bot", 11), [], 11) == Noted(ClaimCo(r, "bot", 11), []);
  }
}
