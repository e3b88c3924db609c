/** What holds in every run of the fleet, for any number of workers in any order. */
module Runs {
  import opened Text
  import opened Reviewers
  import opened ForRepo
  import opened Rounds
  import opened Closures
  import opened Protocol
  import FireLog

  const EMPTY := State(map[], [], None, None, None, None, map[], map[], [], 0)
  const START := World(EMPTY, [])

  ghost predicate LegalRun(f: Fleet, w: World, actions: seq<Action>)
    decreases |actions|
  {
    actions != [] ==> Legal(f, w, actions[0]) && LegalRun(f, Step(f, w, actions[0]), actions[1..])
  }

  ghost function After(f: Fleet, w: World, actions: seq<Action>): World
    requires LegalRun(f, w, actions)
    decreases |actions|
  {
    if actions == [] then w else After(f, Step(f, w, actions[0]), actions[1..])
  }

  lemma {:induction false} RunKeeps(f: Fleet, w: World, actions: seq<Action>)
    requires FleetOk(f) && Inv(f, w) && LegalRun(f, w, actions)
    ensures Inv(f, After(f, w, actions))
    decreases |actions|
  {
    hide Inv, FleetOk, Legal, Step;
    if actions != [] {
      StepKeeps(f, w, actions[0]);
      RunKeeps(f, Step(f, w, actions[0]), actions[1..]);
    }
  }

  lemma StartOk(f: Fleet)
    ensures Inv(f, START)
  {
  }

  /** A world some run reaches. */
  ghost predicate Reachable(f: Fleet, w: World) {
    exists actions :: LegalRun(f, START, actions) && After(f, START, actions) == w
  }

  lemma ReachableOk(f: Fleet, w: World)
    requires FleetOk(f) && Reachable(f, w)
    ensures Inv(f, w)
  {
    hide Inv, FleetOk;
    var actions :| LegalRun(f, START, actions) && After(f, START, actions) == w;
    StartOk(f);
    RunKeeps(f, START, actions);
  }

  // ---- Fire ownership

  /** Only the round a worker reserved is changed by what it then records. */
  lemma RecordedOnlyOnItsRound(f: Fleet, w: World, want: Round, token: Token, command: int, posts: seq<CoPost>,
                               firedAt: Time, deadline: Time)
    requires FleetOk(f) && Reachable(f, w) && token != 0
    ensures var next := RecordFire(w.state, want, token, command, posts, firedAt, deadline).next;
      next != w.state ==>
        && want.pr in w.state.rounds && TokenReserved(token, w.state.rounds[want.pr].birth) in w.log
        && w.state.rounds[want.pr].phase == Phase.Reserved
        && next.rounds - {want.pr} == w.state.rounds - {want.pr} && next.slot == w.state.slot
  {
    hide Inv, RecordAll;
    ReachableOk(f, w);
    if RecordFire(w.state, want, token, command, posts, firedAt, deadline).next != w.state {
      WaitingHasNoToken(f, w, want.pr);
      RecordFireKeeps(f, w, want, token, command, posts, firedAt, deadline);
      RecordedPr(f, w, want, token, command, posts, firedAt, deadline);
    }
  }

  lemma RecordedPr(f: Fleet, w: World, want: Round, token: Token, command: int, posts: seq<CoPost>, firedAt: Time,
                   deadline: Time)
    requires want.pr in w.state.rounds && Inv(f, w) && w.state.rounds[want.pr].phase == Phase.Reserved
    ensures var next := RecordFire(w.state, want, token, command, posts, firedAt, deadline).next;
      next.rounds - {want.pr} == w.state.rounds - {want.pr}
  {
    hide Inv, RecordAll;
    var r := w.state.rounds[want.pr];
    WaitingHasNoToken(f, w, want.pr);
    RecordAllSame(Fire(r, command, firedAt).value.(waitDeadline := Some(deadline)), posts);
  }

  lemma {:induction false} RecordAllSame(r: Round, posts: seq<CoPost>)
    ensures RecordAll(r, posts, []).round.pr == r.pr
    decreases |posts|
  {
    hide SetCo, Key;
    if posts != [] {
      if !(ContainsBot([], posts[0].login) || CoOf(r, posts[0].login).command != 0) {
        RecordAllSame(SetCoCommand(r, posts[0].login, posts[0].id, posts[0].at), posts[1..]);
      } else {
        RecordAllSame(r, posts[1..]);
      }
    }
  }

  /** A failed post parks the reserving worker's own round, or none. */
  lemma ParkedOnlyItsRound(f: Fleet, w: World, pr: PR, token: Token, now: Time)
    requires FleetOk(f) && Reachable(f, w) && token != 0
    ensures var next := PostFailed(w.state, pr, token, now).next;
      next != w.state ==>
        && pr in w.state.rounds && TokenReserved(token, w.state.rounds[pr].birth) in w.log
        && next.rounds - {pr} == w.state.rounds - {pr}
        && (next.slot == w.state.slot
            || (w.state.slot.Some? && w.state.slot.value.pr == pr && w.state.slot.value.token == token))
  {
    hide Inv;
    ReachableOk(f, w);
    if PostFailed(w.state, pr, token, now).next != w.state {
      WaitingHasNoToken(f, w, pr);
    }
  }

  /** At most one round is reserved, and the slot is its. */
  lemma OneReservedRound(f: Fleet, w: World, a: PR, b: PR)
    requires FleetOk(f) && Reachable(f, w)
    requires a in w.state.rounds && b in w.state.rounds
    requires w.state.rounds[a].phase == Phase.Reserved && w.state.rounds[b].phase == Phase.Reserved
    ensures a == b && w.state.slot.Some? && w.state.slot.value.pr == a
    ensures w.state.slot.value.token == w.state.rounds[a].token
  {
    hide Inv;
    ReachableOk(f, w);
    WaitingHasNoToken(f, w, a);
    WaitingHasNoToken(f, w, b);
  }

  /** Each reservation fires at most once, on the round it was made for. */
  lemma OneFirePerReservation(f: Fleet, w: World, i: nat, j: nat)
    requires FleetOk(f) && Reachable(f, w) && i < j < |w.log| && w.log[j].FireLogged?
    ensures w.log[i].FireLogged? ==> w.log[i].token != w.log[j].token
    ensures exists k :: 0 <= k < j && w.log[k] == TokenReserved(w.log[j].token, w.log[j].birth)
  {
    ReachableOk(f, w);
    LogIsOk(f, w);
    hide Inv, LogOk;
    LoggedOnce(w.log, i, j);
  }

  /** The stored fire log is sorted and bounded, its entries are distinct fires, and its
      count since any time inside the window is how many fires there were since, up to
      what the log holds. */
  lemma FireLogIsTrue(f: Fleet, w: World, since: Time)
    requires FleetOk(f) && Reachable(f, w)
    ensures FireLog.Sorted(w.state.fires) && multiset(w.state.fires) <= multiset(FireTimes(w.log))
    ensures (forall i :: 0 <= i < |FireTimes(w.log)| ==> FireTimes(w.log)[i] < since + FireLog.WINDOW) ==>
      FireLog.CountSince(w.state.fires, since) == Min(FireLog.CountSince(FireTimes(w.log), since), FireLog.MAX_ENTRIES)
  {
    hide Reachable, FireLog.Stored, FireLog.CountSince, FireTimes;
    ReachableOk(f, w);
    FiresAreStored(f, w);
    FireLog.StoredIsNoted(FireTimes(w.log));
    if forall i :: 0 <= i < |FireTimes(w.log)| ==> FireTimes(w.log)[i] < since + FireLog.WINDOW {
      FireLog.CountIsExact(FireTimes(w.log), since);
    }
  }

  function Min(a: int, b: int): int { if a <= b then a else b }

  lemma FiresAreStored(f: Fleet, w: World)
    requires Inv(f, w)
    ensures w.state.fires == FireLog.Stored(FireTimes(w.log))
  {
    hide LogOk, RoundOk, FireLog.Stored, FireTimes, ArchiveOk;
  }

  lemma LoggedOnce(log: seq<Event>, i: nat, j: nat)
    requires LogOk(log) && i < j < |log| && log[j].FireLogged?
    ensures log[i].FireLogged? ==> log[i].token != log[j].token
    ensures exists k :: 0 <= k < j && log[k] == TokenReserved(log[j].token, log[j].birth)
  {
    Earlier(log, i, j);
    assert EventOk(log[..j], log[j]);
    var e := TokenReserved(log[j].token, log[j].birth);
    var k :| 0 <= k < |log[..j]| && log[..j][k] == e;
    assert log[k] == e;
    if log[i].FireLogged? {
      assert FireLogged(log[i].token, log[i].birth, log[i].at) in log[..j];
    }
  }

  // ---- What authorizes a post

  /** An event that authorizes posting a review command. */
  predicate Grants(e: Event) { e.TokenReserved? || e.Granted? || e.Restamped? }

  lemma {:induction false} ClaimFreeEvents(r: Round, logins: seq<string>, now: Time)
    ensures forall e :: e in ClaimFree(r, logins, now).events ==> e.Granted? && e.birth == r.birth
    decreases |logins|
  {
    hide SetCo, Key;
    if logins != [] {
      ClaimFreeEvents(r, logins[1..], now);
      ClaimFreeEvents(ClaimCo(r, logins[0], now), logins[1..], now);
    }
  }

  lemma {:induction false} ClaimAllEvents(r: Round, logins: seq<string>, now: Time)
    ensures forall e :: e in ClaimAll(r, logins, now).events ==> e.Restamped? && e.birth == r.birth
    decreases |logins|
  {
    hide SetCo, Key;
    if logins != [] {
      ClaimAllEvents(ClaimCo(r, logins[0], now), logins[1..], now);
    }
  }

  lemma {:induction false} RecordAllEvents(r: Round, posts: seq<CoPost>, skip: seq<string>)
    ensures forall e :: e in RecordAll(r, posts, skip).events ==> e.Commanded?
    decreases |posts|
  {
    hide SetCo, Key;
    if posts != [] {
      RecordAllEvents(r, posts[1..], skip);
      RecordAllEvents(SetCoCommand(r, posts[0].login, posts[0].id, posts[0].at), posts[1..], skip);
    }
  }

  lemma {:induction false} AdoptAllEvents(r: Round, posts: seq<CoPost>, now: Time)
    ensures forall e :: e in AdoptAll(r, posts, now).events ==> e.Commanded?
    ensures AdoptAll(r, posts, now).round.birth == r.birth
    decreases |posts|
  {
    hide SetCo, Key;
    if posts != [] {
      AdoptAllEvents(r, posts[1..], now);
      AdoptAllEvents(SetCoCommand(r, posts[0].login, posts[0].id, posts[0].at), posts[1..], now);
    }
  }

  lemma {:induction false} ClearAllEvents(r: Round, logins: seq<string>)
    ensures forall e :: e in ClearAll(r, logins).events ==> e.ClaimCleared?
    decreases |logins|
  {
    hide SetCo, Key;
    if logins != [] {
      ClearAllEvents(ClearCoClaim(r, logins[0]), logins[1..]);
    }
  }

  lemma ClearArchivedEvents(s: State, want: Round, logins: seq<string>, e: Event)
    requires e in ClearArchived(s, want, logins).events
    ensures e.ClaimCleared?
  {
    hide ClearAll;
    ClearAllEvents(s.archive[ArchivedAt(s.archive, want).value], logins);
  }

  predicate GrantingStep(a: Action) {
    a.DoReserve? || a.DoAdopt? || a.DoClaimCoOnly? || a.DoClaimDeferred? || a.DoClaimSelfHeal?
  }

  lemma RecordFireEvents(s: State, a: Action, e: Event)
    requires a.DoRecordFire? && e in RecordFire(s, a.want, a.token, a.command, a.posts, a.firedAt, a.deadline).events
    ensures !Grants(e) && !e.Answered?
  {
    hide RecordAll;
    RecordAllEvents(Fire(s.rounds[a.want.pr], a.command, a.firedAt).value.(waitDeadline := Some(a.deadline)),
                    a.posts, []);
  }

  lemma CoOnlyRecordEvents(s: State, a: Action, e: Event)
    requires a.DoCoOnlyRecord? && a.posts != []
    requires e in CoOnlyRecord(s, a.want, a.claims, a.posts, a.token, a.deadline, a.now).events
    ensures !Grants(e) && !e.Answered?
  {
    hide RecordAll, ClearAll;
    if !Still(s, a.want) {
      var r := s.archive[ArchivedAt(s.archive, a.want).value];
      ClearAllEvents(r, a.claims);
      RecordAllEvents(ClearAll(r, a.claims).round, a.posts, []);
    } else {
      var r := s.rounds[a.want.pr];
      if FireEligible(r, a.now) {
        RecordAllEvents(Fire(Reserve(r, a.token, a.now).value, a.posts[0].id, a.posts[0].at).value
                        .(token := 0, waitDeadline := Some(a.deadline)), a.posts, []);
      } else {
        RecordAllEvents(r, a.posts, []);
      }
    }
  }

  lemma CoReviewWaitEvents(s: State, a: Action, e: Event)
    requires a.DoCoReviewWait? && e in CoReviewWait(s, a.want, a.posts, a.deadline, a.anchor, a.now).events
    ensures !Grants(e) && !e.Answered?
  {
    hide RecordAll;
    RecordAllEvents(AwaitCoReview(s.rounds[a.want.pr], a.deadline, a.anchor).value, a.posts, []);
  }

  /** No other write authorizes a post. */
  lemma QuietSteps(f: Fleet, s: State, a: Action, e: Event)
    requires Shaped(a) && e in Effect(f, s, a).events && !GrantingStep(a)
    ensures !Grants(e)
  {
    hide RecordFire, CoOnlyRecord, CoReviewWait, ClearArchived, ReleaseSlot, EndRound, SlotHeld, ReviewersChanged,
      ArchivedAt, ClearAll, Normalize, Supersede, ClaimedTriggerRepo, ReopenedRounds, Under, EditChanges, Confirmed,
      SetCo, Key, TriggerPostClaimed;
    if a.DoRecordFire? {
      RecordFireEvents(s, a, e);
    } else if a.DoCoOnlyRecord? {
      CoOnlyRecordEvents(s, a, e);
    } else if a.DoCoReviewWait? {
      CoReviewWaitEvents(s, a, e);
    } else if a.DoCoOnlyFailed? && !Still(s, a.want) {
      ClearArchivedEvents(s, a.want, a.claims, e);
    } else if a.DoTriggerFailed? && !Still(s, a.want) {
      ClearArchivedEvents(s, a.want, [a.login], e);
    }
  }


  lemma AdoptEvents(s: State, a: Action, e: Event)
    requires a.DoAdopt?
    requires e in
         AdoptFire(s, a.want, a.token, a.cfg, a.command, a.firedAt, a.deadline, a.claims, a.posts, a.now).events
    ensures a.want.pr in s.rounds && (Grants(e) ==> e.birth == s.rounds[a.want.pr].birth) && !e.Answered?
    ensures a.want.pr !in s.holds || s.rounds[a.want.pr].pr != a.want.pr
    ensures e.TokenReserved? ==> e.token == a.token
  {
    hide RecordAll, ClaimAll, SlotHeld, ReviewersChanged;
    var r := s.rounds[a.want.pr];
    var fired := Fire(Reserve(r, a.token, a.now).value, a.command, a.firedAt).value.(waitDeadline := Some(a.deadline));
    ClaimAllEvents(fired, a.claims, a.now);
    RecordAllEvents(ClaimAll(fired, a.claims, a.now).round, a.posts, a.claims);
  }

  lemma ReserveEvents(s: State, a: Action, e: Event)
    requires a.DoReserve? && e in ReserveFire(s, a.want, a.token, a.cfg, a.now).events
    ensures a.want.pr in s.rounds && e == TokenReserved(a.token, s.rounds[a.want.pr].birth)
    ensures a.want.pr !in s.holds || s.rounds[a.want.pr].pr != a.want.pr
  {
    hide SlotHeld, ReviewersChanged;
  }

  lemma ClaimEvents(s: State, a: Action, e: Event)
    requires a.DoClaimCoOnly? || a.DoClaimDeferred?
    requires a.DoClaimCoOnly? ==> e in ClaimCoOnly(s, a.want, a.claims, a.cfg, a.now).events
    requires a.DoClaimDeferred? ==> e in ClaimDeferred(s, a.want, a.posts, a.claims, a.cfg, a.now).events
    ensures a.want.pr in s.rounds && (Grants(e) ==> e.birth == s.rounds[a.want.pr].birth && !e.TokenReserved?)
    ensures !e.Answered?
    ensures a.want.pr !in s.holds || s.rounds[a.want.pr].pr != a.want.pr
  {
    hide ClaimFree, AdoptAll, ReviewersChanged, FireEligible;
    var r := s.rounds[a.want.pr];
    ClaimFreeEvents(r, a.claims, a.now);
    if a.DoClaimDeferred? {
      AdoptAllEvents(r, a.posts, a.now);
      ClaimFreeEvents(AdoptAll(r, a.posts, a.now).round, a.claims, a.now);
    }
  }

  /** Whatever authorizes a post is written on the live round of a pull request that
      is not held. */
  lemma GrantsAreUnheld(f: Fleet, w: World, a: Action, e: Event)
    requires Shaped(a) && e in Effect(f, w.state, a).events && Grants(e)
    requires Inv(f, w)
    ensures GrantingStep(a) && a.want.pr in w.state.rounds && e.birth == w.state.rounds[a.want.pr].birth
    ensures a.want.pr !in w.state.holds
    ensures e.TokenReserved? ==> (a.DoReserve? || a.DoAdopt?) && e.token == a.token
  {
    hide Inv, SetCo, Key, AdoptFire, ReserveFire, ClaimCoOnly, ClaimDeferred, ReviewersChanged, ClaimLive;
    var s := w.state;
    KeysOk(f, w);
    if a.DoAdopt? {
      AdoptEvents(s, a, e);
    } else if a.DoReserve? {
      ReserveEvents(s, a, e);
    } else if a.DoClaimCoOnly? || a.DoClaimDeferred? {
      ClaimEvents(s, a, e);
    } else if !a.DoClaimSelfHeal? {
      QuietSteps(f, s, a, e);
    }
  }

  /** A reservation is for the round its worker read, when it waits and its time has come. */
  lemma ReservationIsDue(f: Fleet, s: State, a: Action)
    requires (a.DoReserve? && ReserveFire(s, a.want, a.token, a.cfg, a.now).events != [])
          || (a.DoAdopt? && AdoptFire(s, a.want, a.token, a.cfg, a.command, a.firedAt, a.deadline, a.claims, a.posts,
                                      a.now).events != [])
    ensures AsRead(s, a.want, a.cfg) && s.rounds[a.want.pr].phase in {Queued, AwaitingRetry}
    ensures Due(s.rounds[a.want.pr], a.now)
  {
    hide RecordAll, ClaimAll, SlotHeld;
  }

  /** The round waits, its cooldowns are over, and no fix session has it. */
  predicate Due(r: Round, now: Time) {
    && r.phase in {Queued, AwaitingRetry}
    && (r.phase == AwaitingRetry ==>
          r.retryAt.Some? && r.retryAt.value <= now && (r.dispatchRetryAt.Some? ==> r.dispatchRetryAt.value <= now))
    && (r.dispatch.Some? ==> r.dispatch.value.heartbeat + DISPATCH_TTL <= now)
  }

  /** The live round has the Seq and head the worker read, and its repository the stamp. */
  predicate AsRead(s: State, want: Round, cfg: Cfg) {
    && want.pr in s.rounds && s.rounds[want.pr].order == want.order && s.rounds[want.pr].head == want.head
    && cfg.overrideAt == if want.pr.repo in s.overrides then Some(s.overrides[want.pr.repo].at) else None
  }

  lemma ClaimIsDue(f: Fleet, s: State, a: Action)
    requires (a.DoClaimCoOnly? && ClaimCoOnly(s, a.want, a.claims, a.cfg, a.now).events != [])
          || (a.DoClaimDeferred? && ClaimDeferred(s, a.want, a.posts, a.claims, a.cfg, a.now).events != [])
    ensures AsRead(s, a.want, a.cfg) && s.rounds[a.want.pr].phase in {Queued, AwaitingRetry}
    ensures a.DoClaimCoOnly? ==> Due(s.rounds[a.want.pr], a.now)
  {
    hide ClaimFree, AdoptAll;
  }

  /** Whatever authorizes a post was decided on the round that still stands, under the
      configuration that is current, however old the reading either came from; and but for
      a deferred claim or a self-heal, no post is authorized before its round is due. */
  lemma GrantsAreCurrent(f: Fleet, w: World, a: Action, e: Event)
    requires Shaped(a) && e in Effect(f, w.state, a).events && Grants(e)
    requires FleetOk(f) && Reachable(f, w)
    ensures GrantingStep(a) && AsRead(w.state, a.want, a.cfg) && e.birth == w.state.rounds[a.want.pr].birth
    ensures Legit(f, w.log, a.want.pr.repo, a.cfg) ==> a.cfg == CfgFor(f, w.state, a.want.pr.repo)
    ensures !a.DoClaimSelfHeal? ==> w.state.rounds[a.want.pr].phase in {Queued, AwaitingRetry}
    ensures !a.DoClaimSelfHeal? && !a.DoClaimDeferred? ==> Due(w.state.rounds[a.want.pr], a.now)
  {
    hide Inv, FleetOk, Reachable, SetCo, Key, AdoptFire, ReserveFire, ClaimCoOnly, ClaimDeferred, ClaimLive, Due,
      CfgFor, Legit;
    ReachableOk(f, w);
    GrantsAreUnheld(f, w, a, e);
    if a.DoReserve? || a.DoAdopt? {
      ReservationIsDue(f, w.state, a);
    } else if a.DoClaimCoOnly? || a.DoClaimDeferred? {
      ClaimIsDue(f, w.state, a);
    }
    if Legit(f, w.log, a.want.pr.repo, a.cfg) {
      UnchangedIsCurrent(f, w, a.want.pr.repo, a.cfg);
    }
  }

  /** No reservation commits while the slot is held: while a round is reserved or fired under
      the slot's token, or a deadline for it is still ahead; and the one that does takes it. */
  lemma ReservationFindsSlotFree(f: Fleet, w: World, a: Action, e: Event)
    requires Shaped(a) && e in Effect(f, w.state, a).events && e.TokenReserved?
    requires FleetOk(f) && Reachable(f, w)
    ensures (a.DoReserve? || a.DoAdopt?) && !SlotHeld(w.state, a.now)
    ensures forall pr :: pr in w.state.rounds && w.state.rounds[pr].phase in {Phase.Reserved, Fired} ==>
      !SameOwner(w.state.slot, Some(Slot(pr, w.state.rounds[pr].token, a.now, None)))
    ensures forall until :: a.now < until ==>
      w.state.slotHoldUntil != Some(until) && (w.state.slot.Some? ==> w.state.slot.value.holdUntil != Some(until))
    ensures Effect(f, w.state, a).next.slot == Some(Slot(a.want.pr, e.token, a.now, None))
  {
    hide Inv, FleetOk, Reachable, SlotHeld, Firable, ReviewersChanged, RecordAll, ClaimAll;
    ReachableOk(f, w);
    GrantsAreUnheld(f, w, a, e);
    FreeSlot(w.state, a.now);
  }

  lemma FreeSlot(s: State, now: Time)
    requires !SlotHeld(s, now)
    ensures forall pr :: pr in s.rounds && s.rounds[pr].phase in {Phase.Reserved, Fired} ==>
      !SameOwner(s.slot, Some(Slot(pr, s.rounds[pr].token, now, None)))
    ensures forall until :: now < until ==>
      s.slotHoldUntil != Some(until) && (s.slot.Some? ==> s.slot.value.holdUntil != Some(until))
  {
  }

  // ---- Holds

  /** While a hold an operator or an agent placed stands, the pull request's live round
      is not reserved and carries no outstanding claim. */
  lemma HeldIsQuiet(f: Fleet, w: World, pr: PR, login: string)
    requires FleetOk(f) && Reachable(f, w)
    requires pr in w.state.holds && w.state.holds[pr] == Manual && pr in w.state.rounds
    ensures w.state.rounds[pr].phase != Phase.Reserved && CoOf(w.state.rounds[pr], login).claimedAt.None?
  {
    ReachableOk(f, w);
    hide Reachable, LogOk, ClaimsOk, TokenOk, AnswerOk, NameOk, Key;
    assert HoldOk(w.state.holds, w.state.rounds[pr]);
  }

  ghost predicate GrantsTo(s: State, events: seq<Event>, pr: PR) {
    exists e :: e in events && Grants(e) && pr in s.rounds && s.rounds[pr].birth == e.birth
  }

  /** No write of the run authorizes a post for the pull request. */
  ghost predicate NeverGranted(f: Fleet, w: World, actions: seq<Action>, pr: PR)
    requires LegalRun(f, w, actions)
    decreases |actions|
  {
    actions == []
    || (!GrantsTo(w.state, Effect(f, w.state, actions[0]).events, pr)
        && NeverGranted(f, Step(f, w, actions[0]), actions[1..], pr))
  }

  lemma QueueKeepsHolds(f: Fleet, s: State, a: Action)
    requires IsQueueStep(a)
    ensures Effect(f, s, a).next.holds == s.holds
  {
    hide Supersede, EndRound, ReleaseSlot, Confirmable, Still;
  }

  lemma FireKeepsHolds(f: Fleet, s: State, a: Action)
    requires IsFireStep(a)
    ensures Effect(f, s, a).next.holds == s.holds
  {
    hide ReleaseSlot, Still, SlotHeld, Firable, ReviewersChanged, RecordAll, ClaimAll, Reserve, Fire, AwaitRetry;
  }

  lemma ClaimKeepsHolds(f: Fleet, s: State, a: Action)
    requires a.DoClaimCoOnly? || a.DoClaimDeferred? || a.DoClaimSelfHeal? || a.DoCoReviewWait?
    ensures Effect(f, s, a).next.holds == s.holds
  {
    hide Still, Firable, ReviewersChanged, RecordAll, ClaimFree, AdoptAll, ClaimLive, ClaimCo, AwaitCoReview;
  }

  lemma TriggerKeepsHolds(f: Fleet, s: State, a: Action)
    requires a.DoCoOnlyFailed? || a.DoCoOnlyRecord? || a.DoTriggerFailed? || a.DoTriggerRecorded?
    requires Shaped(a)
    ensures Effect(f, s, a).next.holds == s.holds
  {
    hide Still, FireEligible, RecordAll, ClearAll, ArchivedAt, TriggerNoted, Reserve, Fire, AwaitRetry;
  }

  lemma ProgressKeepsHolds(f: Fleet, s: State, a: Action)
    requires IsProgressStep(a)
    ensures Effect(f, s, a).next.holds == s.holds
  {
    hide Still, Firable, ReviewersChanged, ReleaseSlot, EndRound, HoldSlotUntil, Progressed, CfgFor, Under,
      ReopenedRounds, EditChanges, ClaimedTriggerRepo, StampsMatter;
  }

  lemma HoldsOnlyGrow(f: Fleet, w: World, a: Action, pr: PR)
    requires Shaped(a) && pr in w.state.holds && a != DoUnhold(pr)
    ensures pr in Effect(f, w.state, a).next.holds
  {
    if IsHoldStep(a) {
      hide Still, TriggerPostClaimed, SlotHeld;
    } else {
      hide Effect;
      if IsQueueStep(a) {
        QueueKeepsHolds(f, w.state, a);
      } else if IsFireStep(a) {
        FireKeepsHolds(f, w.state, a);
      } else if a.DoClaimCoOnly? || a.DoClaimDeferred? || a.DoClaimSelfHeal? || a.DoCoReviewWait? {
        ClaimKeepsHolds(f, w.state, a);
      } else if IsTriggerStep(a) {
        TriggerKeepsHolds(f, w.state, a);
      } else {
        ProgressKeepsHolds(f, w.state, a);
      }
    }
  }

  /** From the moment any hold commits until it is released, no write in any run
      reserves or claims for that pull request. */
  lemma {:induction false} HoldIsABarrier(f: Fleet, w: World, actions: seq<Action>, pr: PR)
    requires FleetOk(f) && Inv(f, w) && LegalRun(f, w, actions)
    requires pr in w.state.holds && DoUnhold(pr) !in actions
    ensures NeverGranted(f, w, actions, pr) && pr in After(f, w, actions).state.holds
    decreases |actions|
  {
    hide Inv, FleetOk, Legal, Effect;
    if actions != [] {
      var a := actions[0];
      assert a in actions;
      LegalIsShaped(f, w, a);
      NoGrantWhileHeld(f, w, a, pr);
      HoldsOnlyGrow(f, w, a, pr);
      StepKeeps(f, w, a);
      HoldIsABarrier(f, Step(f, w, a), actions[1..], pr);
    }
  }

  lemma NoGrantWhileHeld(f: Fleet, w: World, a: Action, pr: PR)
    requires Shaped(a) && Inv(f, w) && pr in w.state.holds
    ensures !GrantsTo(w.state, Effect(f, w.state, a).events, pr)
  {
    hide Inv, Effect;
    DistinctHere(f, w);
    forall e | e in Effect(f, w.state, a).events && Grants(e)
      ensures pr in w.state.rounds ==> w.state.rounds[pr].birth != e.birth
    {
      GrantsAreUnheld(f, w, a, e);
    }
  }

  lemma DistinctHere(f: Fleet, w: World)
    requires Inv(f, w)
    ensures DistinctBirths(w.state.rounds)
  {
    hide LogOk, RoundOk, DistinctBirths;
  }

  // ---- Answered heads

  /** The round an answer is written for: at the head its worker had, when it named one, and
      with the Seq and head, or the token, it was read by. */
  predicate AnsweredAsRead(s: State, a: Action)
    requires a.DoTransition? || a.DoCompleteWait? || a.DoDedupe?
  {
    match a
    case DoCompleteWait(pr, head, _, _, _, _) =>
      pr in s.rounds && (head != "" ==> s.rounds[pr].head == head) && s.rounds[pr].phase in {Fired, Reviewing}
    case DoDedupe(want, cfg, _) => AsRead(s, want, cfg) && s.rounds[want.pr].phase in {Queued, AwaitingRetry}
    case DoTransition(pr, seen, tr, _, _, _, _, _) =>
      && tr.ToComplete? && pr in s.rounds && s.rounds[pr].phase in {Fired, Reviewing}
      && match seen
         case BySlot(token) => s.slot.Some? && s.slot.value.token == token
         case ByRound(want) => s.rounds[pr].order == want.order && s.rounds[pr].head == want.head
  }

  function RoundFor(a: Action): PR
    requires a.DoTransition? || a.DoCompleteWait? || a.DoDedupe?
  {
    if a.DoDedupe? then a.want.pr else a.pr
  }

  /** Whatever decides that a head is answered concerns the round its worker had before it,
      completes it, and was decided under the configuration that is current. */
  lemma AnswersAreCurrent(f: Fleet, w: World, a: Action, e: Event)
    requires Shaped(a) && e in Effect(f, w.state, a).events && e.Answered?
    requires FleetOk(f) && Reachable(f, w) && Legal(f, w, a)
    ensures (a.DoTransition? || a.DoCompleteWait? || a.DoDedupe?) && AnsweredAsRead(w.state, a)
    ensures var pr := RoundFor(a);
      && e.birth == w.state.rounds[pr].birth && e.config == CfgFor(f, w.state, pr.repo).config
      && pr in Effect(f, w.state, a).next.rounds && Effect(f, w.state, a).next.rounds[pr].phase == Completed
      && Effect(f, w.state, a).next.rounds[pr].head == w.state.rounds[pr].head
  {
    hide Inv, FleetOk, Reachable, CfgFor, Legit, Effect;
    ReachableOk(f, w);
    AnsweringSteps(f, w.state, a, e);
    KeysOk(f, w);
    if a.DoCompleteWait? {
      CompletedAsRead(f, w, a, e);
    } else if a.DoDedupe? {
      DedupedAsRead(f, w, a, e);
    } else {
      TransitedAsRead(f, w, a, e);
    }
  }

  lemma CompletedAsRead(f: Fleet, w: World, a: Action, e: Event)
    requires a.DoCompleteWait? && e in Effect(f, w.state, a).events && Legal(f, w, a) && Inv(f, w)
    requires a.pr in w.state.rounds ==> w.state.rounds[a.pr].pr == a.pr
    ensures AnsweredAsRead(w.state, a)
    ensures var next, r := Effect(f, w.state, a).next, w.state.rounds[a.pr];
      && e == Answered(r.birth, CfgFor(f, w.state, a.pr.repo).config)
      && a.pr in next.rounds && next.rounds[a.pr].phase == Completed && next.rounds[a.pr].head == r.head
  {
    hide Inv, CfgFor, Legit, ReviewersChanged, ReleaseSlot, HoldSlotUntil;
    UnchangedIsCurrent(f, w, a.pr.repo, a.cfg);
  }

  lemma DedupedAsRead(f: Fleet, w: World, a: Action, e: Event)
    requires a.DoDedupe? && e in Effect(f, w.state, a).events && Legal(f, w, a) && Inv(f, w)
    requires a.want.pr in w.state.rounds ==> w.state.rounds[a.want.pr].pr == a.want.pr
    ensures AnsweredAsRead(w.state, a)
    ensures var next, r := Effect(f, w.state, a).next, w.state.rounds[a.want.pr];
      && e == Answered(r.birth, CfgFor(f, w.state, a.want.pr.repo).config)
      && a.want.pr in next.rounds && next.rounds[a.want.pr].phase == Completed
      && next.rounds[a.want.pr].head == r.head
  {
    hide Inv, CfgFor, Legit;
    UnchangedIsCurrent(f, w, a.want.pr.repo, a.cfg);
  }

  lemma TransitedAsRead(f: Fleet, w: World, a: Action, e: Event)
    requires a.DoTransition? && e in Effect(f, w.state, a).events && Legal(f, w, a) && Inv(f, w)
    requires a.pr in w.state.rounds ==> w.state.rounds[a.pr].pr == a.pr
    ensures AnsweredAsRead(w.state, a)
    ensures var next, r := Effect(f, w.state, a).next, w.state.rounds[a.pr];
      && e == Answered(r.birth, CfgFor(f, w.state, a.pr.repo).config)
      && a.pr in next.rounds && next.rounds[a.pr].phase == Completed && next.rounds[a.pr].head == r.head
  {
    hide Inv, CfgFor, Legit, ReviewersChanged, ReleaseSlot, EndRound;
    CompletesExactly(w.state, a.pr, a.cfg, a.policyMoved, a.lagging, a.reviewed, a.now);
    UnchangedIsCurrent(f, w, a.pr.repo, a.cfg);
  }

  /** No other write decides that a head is answered. */
  lemma AnsweringSteps(f: Fleet, s: State, a: Action, e: Event)
    requires Shaped(a) && e in Effect(f, s, a).events && e.Answered?
    ensures a.DoTransition? || a.DoCompleteWait? || a.DoDedupe?
  {
    hide SetCo, Key, ClearAll, RecordAll, ClaimFree, ClaimAll, AdoptAll;
    if IsFireStep(a) || IsTriggerStep(a) {
      BookkeepingAnswersNothing(f, s, a, e);
    } else {
      hide ReviewersChanged, ReleaseSlot, EndRound, Under, ReopenedRounds, ClaimedTriggerRepo, SlotHeld, EditChanges,
        Confirmed, Supersede;
    }
  }

  lemma BookkeepingAnswersNothing(f: Fleet, s: State, a: Action, e: Event)
    requires Shaped(a) && e in Effect(f, s, a).events && (IsFireStep(a) || IsTriggerStep(a))
    ensures !e.Answered?
  {
    hide RecordFire, CoOnlyRecord, CoReviewWait, ClearArchived, AdoptFire, ClaimCoOnly, ClaimDeferred, ReleaseSlot,
      SlotHeld, ReviewersChanged, ArchivedAt, SetCo, Key, FireEligible, Still;
    if a.DoRecordFire? {
      RecordFireEvents(s, a, e);
    } else if a.DoAdopt? {
      AdoptEvents(s, a, e);
    } else if a.DoClaimCoOnly? || a.DoClaimDeferred? {
      ClaimEvents(s, a, e);
    } else if a.DoCoOnlyRecord? {
      CoOnlyRecordEvents(s, a, e);
    } else if a.DoCoReviewWait? {
      CoReviewWaitEvents(s, a, e);
    } else if a.DoCoOnlyFailed? && !Still(s, a.want) {
      ClearArchivedEvents(s, a.want, a.claims, e);
    } else if a.DoTriggerFailed? && !Still(s, a.want) {
      ClearArchivedEvents(s, a.want, [a.login], e);
    }
  }

  /** A completed round that is not marked was decided under reviewers that asked for
      everything the current ones do. */
  lemma MarkerNeverOutlivesItsReviewers(f: Fleet, w: World, pr: PR)
    requires FleetOk(f) && Reachable(f, w)
    requires pr in w.state.rounds && w.state.rounds[pr].phase == Completed && !w.state.rounds[pr].reviewersChanged
    ensures var answer := AnswerOf(w.log, w.state.rounds[pr].birth);
      answer.Some? && !Added(answer.value, CfgFor(f, w.state, pr.repo).config)
  {
    ReachableOk(f, w);
    hide Reachable, LogOk, ClaimsOk, TokenOk, HoldOk, NameOk, Added, CfgFor, Resolved, AnswerOf;
    assert AnswerOk(f, w.state, w.log, w.state.rounds[pr]);
  }

  /** So an enqueue takes a completed head for answered only when no reviewer was
      added since. */
  lemma EnqueueDedupesOnlyAnswered(f: Fleet, w: World, pr: PR, head: string, off: bool)
    requires FleetOk(f) && Reachable(f, w)
    requires EnqueueAnswer(w.state, pr, head, off) == Deduped && w.state.rounds[pr].phase == Completed
    ensures w.state.rounds[pr].head == head
    ensures var answer := AnswerOf(w.log, w.state.rounds[pr].birth);
      answer.Some? && !Added(answer.value, CfgFor(f, w.state, pr.repo).config)
  {
    hide FleetOk, Reachable, Added, CfgFor, AnswerOf;
    MarkerNeverOutlivesItsReviewers(f, w, pr);
  }

  // ---- Runs, one write longer

  lemma {:induction false} RunSnoc(f: Fleet, w: World, actions: seq<Action>, a: Action)
    requires LegalRun(f, w, actions) && Legal(f, After(f, w, actions), a)
    ensures LegalRun(f, w, actions + [a]) && After(f, w, actions + [a]) == Step(f, After(f, w, actions), a)
    decreases |actions|
  {
    hide Legal, Step;
    var longer := actions + [a];
    if actions == [] {
      assert longer[1..] == [];
    } else {
      assert longer[1..] == actions[1..] + [a];
      RunSnoc(f, Step(f, w, actions[0]), actions[1..], a);
    }
  }

  lemma ReachStep(f: Fleet, w: World, a: Action)
    requires Reachable(f, w) && Legal(f, w, a)
    ensures Reachable(f, Step(f, w, a))
  {
    hide Legal, Step;
    var actions :| LegalRun(f, START, actions) && After(f, START, actions) == w;
    RunSnoc(f, START, actions, a);
  }

  lemma StartReachable(f: Fleet)
    ensures Reachable(f, START)
  {
    assert LegalRun(f, START, []) && After(f, START, []) == START;
  }
}
