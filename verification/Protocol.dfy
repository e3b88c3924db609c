/** Every run of the fleet: workers interleave freely, and each write lands whole. */
module Protocol {
  import opened Text
  import opened Reviewers
  import opened ForRepo
  import opened Rounds
  import opened Closures
  import FireLog

  /** The shared state and everything the writes so far did. */
  datatype World = World(state: State, log: seq<Event>)

  // ---- What the history says

  /** The claim standing for a co-reviewer on a round, by the history. */
  function ClaimOf(log: seq<Event>, birth: nat, login: string): Option<Time> {
    if log == [] then None
    else
      match log[|log| - 1]
      case Granted(b, l, at) => if b == birth && l == login then Some(at) else ClaimOf(log[..|log| - 1], birth, login)
      case Restamped(b, l, at) => if b == birth && l == login then Some(at) else ClaimOf(log[..|log| - 1], birth, login)
      case Commanded(b, l, _) => if b == birth && l == login then None else ClaimOf(log[..|log| - 1], birth, login)
      case ClaimCleared(b, l) => if b == birth && l == login then None else ClaimOf(log[..|log| - 1], birth, login)
      case _ => ClaimOf(log[..|log| - 1], birth, login)
  }

  /** The command last recorded for a co-reviewer on a round, by the history; 0 for none. */
  function CommandOf(log: seq<Event>, birth: nat, login: string): int {
    if log == [] then 0
    else if log[|log| - 1].Commanded? && log[|log| - 1].birth == birth && log[|log| - 1].login == login
    then log[|log| - 1].id
    else CommandOf(log[..|log| - 1], birth, login)
  }

  /** The configuration under which a round was last decided to be answered. */
  function AnswerOf(log: seq<Event>, birth: nat): Option<Config> {
    if log == [] then None
    else if log[|log| - 1].Answered? && log[|log| - 1].birth == birth then Some(log[|log| - 1].config)
    else AnswerOf(log[..|log| - 1], birth)
  }

  function FireTimes(log: seq<Event>): seq<Time> {
    if log == [] then []
    else FireTimes(log[..|log| - 1]) + (if log[|log| - 1].FireLogged? then [log[|log| - 1].at] else [])
  }

  ghost predicate TokenKnown(log: seq<Event>, token: Token) {
    exists birth :: TokenReserved(token, birth) in log
  }

  ghost predicate TokenLogged(log: seq<Event>, token: Token) {
    exists birth, at :: FireLogged(token, birth, at) in log
  }

  ghost predicate StampKnown(log: seq<Event>, repo: string, at: Time) {
    exists config :: Edited(repo, at, config) in log
  }

  predicate Free(claim: Option<Time>, now: Time) { claim.None? || now - claim.value >= TRIGGER_CLAIM_TTL }

  /** What an event may be, after a history. */
  ghost predicate EventOk(log: seq<Event>, e: Event) {
    match e
    case TokenReserved(token, _) => token != 0 && !TokenKnown(log, token)
    case FireLogged(token, birth, _) => TokenReserved(token, birth) in log && !TokenLogged(log, token)
    case Granted(birth, login, at) => Free(ClaimOf(log, birth, login), at)
    case Edited(repo, at, _) => !StampKnown(log, repo, at)
    case _ => true
  }

  ghost predicate LogOk(log: seq<Event>) {
    forall i :: 0 <= i < |log| ==> EventOk(log[..i], log[i])
  }

  predicate Born(e: Event, birth: nat) { !e.Edited? && e.birth == birth }

  ghost predicate BornBelow(log: seq<Event>, bound: nat) {
    forall e :: e in log && !e.Edited? ==> e.birth <= bound
  }

  // ---- The invariant

  ghost predicate TokenOk(slot: Option<Slot>, log: seq<Event>, r: Round) {
    && (r.token != 0 ==> TokenReserved(r.token, r.birth) in log)
    && (r.phase in {Queued, AwaitingRetry, Expired} ==> r.token == 0)
    && (r.phase == Phase.Reserved ==>
          r.token != 0 && slot.Some? && slot.value.pr == r.pr && slot.value.token == r.token
          && !TokenLogged(log, r.token))
  }

  ghost predicate Quiet(r: Round) {
    r.phase != Phase.Reserved && forall key :: CoAt(r, key).claimedAt.None?
  }

  ghost predicate HoldOk(holds: map<PR, Hold>, r: Round) {
    r.pr in holds && holds[r.pr] == Manual ==> Quiet(r)
  }

  ghost predicate ClaimsOk(log: seq<Event>, r: Round) {
    forall key :: CoAt(r, key).claimedAt == ClaimOf(log, r.birth, key)
      && CoAt(r, key).command == CommandOf(log, r.birth, key)
  }

  ghost predicate AnswerOk(f: Fleet, s: State, log: seq<Event>, r: Round) {
    r.phase == Completed && !r.reviewersChanged ==>
      AnswerOf(log, r.birth).Some? && Resolved(AnswerOf(log, r.birth).value)
      && !Added(AnswerOf(log, r.birth).value, CfgFor(f, s, r.pr.repo).config)
  }

  predicate NameOk(nextSeq: nat, r: Round) {
    r.birth <= nextSeq && r.order != 0 && (r.order > 0 ==> r.order == r.birth)
  }

  ghost predicate RoundOk(f: Fleet, s: State, log: seq<Event>, r: Round) {
    NameOk(s.nextSeq, r) && TokenOk(s.slot, log, r) && HoldOk(s.holds, r) && ClaimsOk(log, r) && AnswerOk(f, s, log, r)
  }

  ghost predicate RoundsOk(f: Fleet, s: State, log: seq<Event>) {
    forall pr :: pr in s.rounds ==> s.rounds[pr].pr == pr && RoundOk(f, s, log, s.rounds[pr])
  }

  ghost predicate DistinctBirths(rounds: map<PR, Round>) {
    forall a, b :: a in rounds && b in rounds && rounds[a].birth == rounds[b].birth ==> a == b
  }

  /** Archived rounds keep the claims and commands they had, and no two rounds, live or
      archived, were created with one Seq. */
  ghost predicate ArchiveOk(s: State, log: seq<Event>) {
    && (forall i :: 0 <= i < |s.archive| ==> NameOk(s.nextSeq, s.archive[i]) && ClaimsOk(log, s.archive[i]))
    && (forall i, j :: 0 <= i < j < |s.archive| ==> s.archive[i].birth != s.archive[j].birth)
    && (forall i, pr :: 0 <= i < |s.archive| && pr in s.rounds ==> s.archive[i].birth != s.rounds[pr].birth)
  }

  ghost predicate EditsOk(f: Fleet, s: State, log: seq<Event>) {
    forall repo :: repo in s.overrides ==>
      Edited(repo, s.overrides[repo].at, Under(f.registry, f.base, s.overrides[repo].ov)) in log
  }

  ghost predicate Inv(f: Fleet, w: World) {
    && LogOk(w.log) && BornBelow(w.log, w.state.nextSeq)
    && RoundsOk(f, w.state, w.log) && DistinctBirths(w.state.rounds) && EditsOk(f, w.state, w.log)
    && ArchiveOk(w.state, w.log) && w.state.fires == FireLog.Stored(FireTimes(w.log))
  }

  ghost predicate FleetOk(f: Fleet) { Resolved(f.base) }

  // ---- Reading a longer history

  lemma LogSnoc(log: seq<Event>, e: Event)
    requires LogOk(log) && EventOk(log, e)
    ensures LogOk(log + [e])
  {
    hide EventOk;
    var longer := log + [e];
    forall i | 0 <= i < |longer| ensures EventOk(longer[..i], longer[i]) {
      if i < |log| {
        assert longer[..i] == log[..i];
      } else {
        assert longer[..i] == log;
      }
    }
  }

  lemma ClaimSnoc(log: seq<Event>, e: Event, birth: nat, login: string)
    ensures ClaimOf(log + [e], birth, login)
         == match e
            case Granted(b, l, at) => if b == birth && l == login then Some(at) else ClaimOf(log, birth, login)
            case Restamped(b, l, at) => if b == birth && l == login then Some(at) else ClaimOf(log, birth, login)
            case Commanded(b, l, _) => if b == birth && l == login then None else ClaimOf(log, birth, login)
            case ClaimCleared(b, l) => if b == birth && l == login then None else ClaimOf(log, birth, login)
            case _ => ClaimOf(log, birth, login)
    ensures CommandOf(log + [e], birth, login)
         == if e.Commanded? && e.birth == birth && e.login == login then e.id else CommandOf(log, birth, login)
  {
    assert (log + [e])[..|log|] == log;
  }

  lemma AnswerSnoc(log: seq<Event>, e: Event, birth: nat)
    ensures AnswerOf(log + [e], birth)
         == if e.Answered? && e.birth == birth then Some(e.config) else AnswerOf(log, birth)
  {
    assert (log + [e])[..|log|] == log;
  }

  lemma FireSnoc(log: seq<Event>, e: Event)
    ensures FireTimes(log + [e]) == FireTimes(log) + (if e.FireLogged? then [e.at] else [])
  {
    assert (log + [e])[..|log|] == log;
  }

  lemma AppendSnoc(log: seq<Event>, events: seq<Event>)
    requires events != []
    ensures log + events == (log + events[..|events| - 1]) + [events[|events| - 1]]
  {
  }

  /** Events about one round leave every other as the history had it. */
  lemma {:induction false} OthersUnmoved(log: seq<Event>, events: seq<Event>, birth: nat)
    requires forall e :: e in events ==> e.Edited? || e.birth != birth
    ensures AnswerOf(log + events, birth) == AnswerOf(log, birth)
    ensures forall login :: ClaimOf(log + events, birth, login) == ClaimOf(log, birth, login)
                         && CommandOf(log + events, birth, login) == CommandOf(log, birth, login)
    decreases |events|
  {
    if events == [] {
      assert log + events == log;
    } else {
      var rest, last := events[..|events| - 1], events[|events| - 1];
      OthersUnmoved(log, rest, birth);
      AppendSnoc(log, events);
      assert last in events;
      AnswerSnoc(log + rest, last, birth);
      forall login
        ensures ClaimOf(log + events, birth, login) == ClaimOf(log, birth, login)
             && CommandOf(log + events, birth, login) == CommandOf(log, birth, login)
      {
        ClaimSnoc(log + rest, last, birth, login);
      }
    }
  }

  /** A round not yet created has neither claims nor an answer. */
  lemma {:induction false} Unborn(log: seq<Event>, birth: nat, bound: nat)
    requires BornBelow(log, bound) && bound < birth
    ensures AnswerOf(log, birth).None?
         && forall login :: ClaimOf(log, birth, login).None? && CommandOf(log, birth, login) == 0
  {
    assert [] + log == log;
    OthersUnmoved([], log, birth);
  }

  lemma Earlier(log: seq<Event>, i: nat, j: nat)
    requires i < j < |log|
    ensures log[i] in log[..j]
  {
    assert log[..j][i] == log[i];
  }

  /** A token is reserved at most once. */
  lemma ReservedOnce(log: seq<Event>, i: nat, j: nat)
    requires LogOk(log) && i < j < |log| && log[i].TokenReserved? && log[j].TokenReserved?
    ensures log[i].token != log[j].token
  {
    Earlier(log, i, j);
    assert TokenReserved(log[i].token, log[i].birth) in log[..j];
    assert EventOk(log[..j], log[j]);
  }

  lemma TokensUnique(log: seq<Event>, token: Token, a: nat, b: nat)
    requires LogOk(log) && TokenReserved(token, a) in log && TokenReserved(token, b) in log
    ensures a == b
  {
    hide LogOk;
    var i :| 0 <= i < |log| && log[i] == TokenReserved(token, a);
    var j :| 0 <= j < |log| && log[j] == TokenReserved(token, b);
    if i < j {
      ReservedOnce(log, i, j);
    } else if j < i {
      ReservedOnce(log, j, i);
    }
  }

  lemma LoggedWasReserved(log: seq<Event>, token: Token, birth: nat, at: Time)
    requires LogOk(log) && FireLogged(token, birth, at) in log
    ensures TokenReserved(token, birth) in log
  {
    var i :| 0 <= i < |log| && log[i] == FireLogged(token, birth, at);
    assert EventOk(log[..i], log[i]);
  }

  // ---- One write changes one round

  /** The slot still belongs to whom it belonged. */
  predicate SameOwner(a: Option<Slot>, b: Option<Slot>) {
    a.Some? && b.Some? && a.value.pr == b.value.pr && a.value.token == b.value.token
  }

  ghost predicate OthersKeepSlot(s: State, next: State, pr: PR) {
    forall q :: q in s.rounds && q != pr && s.rounds[q].phase == Phase.Reserved ==> SameOwner(s.slot, next.slot)
  }

  /** The round was filed, and whatever takes its place is new. */
  ghost predicate Archives(s: State, next: State, pr: PR) {
    && pr in s.rounds && next.archive == Filed(s.archive, Abandon(s.rounds[pr]))
    && (pr in next.rounds ==> next.rounds[pr].birth > s.nextSeq)
  }

  /** The write concerns one pull request's round and says nothing about any other. */
  ghost predicate Local(s: State, next: State, events: seq<Event>, pr: PR) {
    && (next.archive == s.archive || (events == [] && Archives(s, next, pr)))
    && next.rounds - {pr} == s.rounds - {pr}
    && next.holds == s.holds && next.overrides == s.overrides && s.nextSeq <= next.nextSeq
    && (events != [] ==> pr in s.rounds && forall e :: e in events ==> Born(e, s.rounds[pr].birth))
  }

  lemma LoggedBefore(log: seq<Event>, events: seq<Event>, token: Token, birth: nat)
    requires LogOk(log + events) && TokenReserved(token, birth) in log && TokenLogged(log + events, token)
    requires forall e :: e in events ==> e.Edited? || e.birth != birth
    ensures TokenLogged(log, token)
  {
    var longer := log + events;
    var b, at :| FireLogged(token, b, at) in longer;
    LoggedWasReserved(longer, token, b, at);
    TokensUnique(longer, token, b, birth);
  }

  lemma OtherToken(slot: Option<Slot>, next: Option<Slot>, log: seq<Event>, events: seq<Event>, r: Round)
    requires TokenOk(slot, log, r) && LogOk(log + events) && (r.phase == Phase.Reserved ==> SameOwner(slot, next))
    requires forall e :: e in events ==> e.Edited? || e.birth != r.birth
    ensures TokenOk(next, log + events, r)
  {
    hide LogOk, TokenLogged;
    if r.phase == Phase.Reserved && TokenLogged(log + events, r.token) {
      LoggedBefore(log, events, r.token, r.birth);
    }
  }

  lemma OtherRound(f: Fleet, s: State, next: State, log: seq<Event>, events: seq<Event>, r: Round)
    requires RoundOk(f, s, log, r) && LogOk(log + events)
    requires next.holds == s.holds && next.overrides == s.overrides && s.nextSeq <= next.nextSeq
    requires r.phase == Phase.Reserved ==> SameOwner(s.slot, next.slot)
    requires forall e :: e in events ==> e.Edited? || e.birth != r.birth
    ensures RoundOk(f, next, log + events, r)
  {
    hide TokenOk, LogOk, HoldOk, Resolved, Added, Under;
    OtherToken(s.slot, next.slot, log, events, r);
    OthersUnmoved(log, events, r.birth);
  }

  lemma {:induction false} FireTimesAppend(log: seq<Event>, events: seq<Event>)
    ensures FireTimes(log + events) == FireTimes(log) + FireTimes(events)
    decreases |events|
  {
    if events == [] {
      assert log + events == log;
    } else {
      var rest, last := events[..|events| - 1], events[|events| - 1];
      FireTimesAppend(log, rest);
      AppendSnoc(log, events);
      FireSnoc(log + rest, last);
    }
  }

  lemma BornAppend(log: seq<Event>, events: seq<Event>, bound: nat, next: nat)
    requires BornBelow(log, bound) && bound <= next
    requires forall e :: e in events && !e.Edited? ==> e.birth <= next
    ensures BornBelow(log + events, next)
  {
  }

  /** The invariant is kept by a local write that leaves its own round in order. */
  lemma LocalKeeps(f: Fleet, w: World, next: State, events: seq<Event>, pr: PR)
    requires Inv(f, w) && Local(w.state, next, events, pr) && OthersKeepSlot(w.state, next, pr)
    requires LogOk(w.log + events) && next.fires == FireLog.NoteFires(w.state.fires, FireTimes(events))
    requires pr in next.rounds ==>
      next.rounds[pr].pr == pr && RoundOk(f, next, w.log + events, next.rounds[pr])
    requires pr in next.rounds ==>
      || (pr in w.state.rounds && next.rounds[pr].birth == w.state.rounds[pr].birth)
      || next.rounds[pr].birth > w.state.nextSeq
    ensures Inv(f, World(next, w.log + events))
  {
    hide LogOk, RoundsOk, FireTimes, Under, RoundOk, FireLog.NoteFires, FireLog.Stored, ArchiveOk, DistinctBirths,
      Local;
    LocalRounds(f, w, next, events, pr);
    BirthBound(f, w.state, w.log);
    LocalAside(f, w, next, events, pr);
    LocalDistinct(f, w, next, events, pr);
    OwnClaims(f, w.state, w.log, pr);
    ArchiveLocal(w, next, events, pr);
  }

  lemma LocalRounds(f: Fleet, w: World, next: State, events: seq<Event>, pr: PR)
    requires RoundsOk(f, w.state, w.log) && Local(w.state, next, events, pr) && OthersKeepSlot(w.state, next, pr)
    requires DistinctBirths(w.state.rounds) && LogOk(w.log + events)
    requires pr in next.rounds ==>
      next.rounds[pr].pr == pr && RoundOk(f, next, w.log + events, next.rounds[pr])
    ensures RoundsOk(f, next, w.log + events)
  {
    hide RoundOk, LogOk, Archives;
    var s, log := w.state, w.log + events;
    forall q | q in next.rounds
      ensures next.rounds[q].pr == q && RoundOk(f, next, log, next.rounds[q])
    {
      if q != pr {
        assert q in next.rounds - {pr};
        assert q in s.rounds - {pr} && (next.rounds - {pr})[q] == (s.rounds - {pr})[q];
        assert next.rounds[q] == s.rounds[q];
        OtherRound(f, s, next, w.log, events, s.rounds[q]);
      }
    }
  }

  /** The parts of the invariant that look at no round. */
  lemma LocalAside(f: Fleet, w: World, next: State, events: seq<Event>, pr: PR)
    requires Local(w.state, next, events, pr) && BornBelow(w.log, w.state.nextSeq) && EditsOk(f, w.state, w.log)
    requires forall q :: q in w.state.rounds ==> w.state.rounds[q].birth <= w.state.nextSeq
    requires w.state.fires == FireLog.Stored(FireTimes(w.log))
    requires next.fires == FireLog.NoteFires(w.state.fires, FireTimes(events))
    ensures BornBelow(w.log + events, next.nextSeq) && EditsOk(f, next, w.log + events)
    ensures next.fires == FireLog.Stored(FireTimes(w.log + events))
  {
    hide FireTimes, FireLog.NoteFires, FireLog.Stored, Under, Archives;
    BornAppend(w.log, events, w.state.nextSeq, next.nextSeq);
    FireTimesAppend(w.log, events);
    FireLog.NotedAreStored(FireTimes(w.log), FireTimes(events));
  }

  lemma OwnClaims(f: Fleet, s: State, log: seq<Event>, pr: PR)
    requires RoundsOk(f, s, log)
    ensures pr in s.rounds ==> ClaimsOk(log, s.rounds[pr]) && NameOk(s.nextSeq, s.rounds[pr])
  {
    hide ClaimsOk, TokenOk, HoldOk, AnswerOk;
  }

  /** Events about other rounds leave an archived round as the history had it. */
  lemma FiledRound(log: seq<Event>, events: seq<Event>, r: Round)
    requires ClaimsOk(log, r) && forall e :: e in events ==> e.Edited? || e.birth != r.birth
    ensures ClaimsOk(log + events, r)
  {
    hide ClaimOf, CommandOf, CoAt;
    OthersUnmoved(log, events, r.birth);
  }

  lemma ArchiveLocal(w: World, next: State, events: seq<Event>, pr: PR)
    requires ArchiveOk(w.state, w.log) && DistinctBirths(w.state.rounds) && Local(w.state, next, events, pr)
    requires forall q :: q in w.state.rounds ==> w.state.rounds[q].birth <= w.state.nextSeq
    requires pr in w.state.rounds ==> ClaimsOk(w.log, w.state.rounds[pr]) && NameOk(w.state.nextSeq, w.state.rounds[pr])
    requires pr in next.rounds ==>
      || (pr in w.state.rounds && next.rounds[pr].birth == w.state.rounds[pr].birth)
      || next.rounds[pr].birth > w.state.nextSeq
    ensures ArchiveOk(next, w.log + events)
  {
    hide ClaimsOk;
    var s := w.state;
    forall q | q in next.rounds && q != pr ensures q in s.rounds && next.rounds[q] == s.rounds[q] {
      assert q in next.rounds - {pr};
      assert q in s.rounds - {pr} && (next.rounds - {pr})[q] == (s.rounds - {pr})[q];
    }
    if next.archive == s.archive {
      forall i | 0 <= i < |s.archive| ensures ClaimsOk(w.log + events, s.archive[i]) {
        FiledRound(w.log, events, s.archive[i]);
      }
    } else {
      assert w.log + [] == w.log;
      AbandonedClaims(w.log, s.rounds[pr]);
      FiledOk(s, w.log, pr, Abandon(s.rounds[pr]));
      ArchivedRounds(s, next, w.log, pr);
    }
  }

  lemma AbandonedClaims(log: seq<Event>, r: Round)
    requires ClaimsOk(log, r)
    ensures ClaimsOk(log, Abandon(r))
  {
    assert forall key :: CoAt(Abandon(r), key) == CoAt(r, key);
  }

  lemma ArchivedRounds(s: State, next: State, log: seq<Event>, pr: PR)
    requires Archives(s, next, pr) && s.nextSeq <= next.nextSeq
    requires ArchiveOk(s.(archive := Filed(s.archive, Abandon(s.rounds[pr])), rounds := s.rounds - {pr}), log)
    requires forall q :: q in next.rounds && q != pr ==> q in s.rounds && next.rounds[q] == s.rounds[q]
    ensures ArchiveOk(next, log)
  {
    hide ClaimsOk, Filed, Abandon;
    assert forall q :: q in next.rounds && q != pr ==> q in s.rounds - {pr} && (s.rounds - {pr})[q] == next.rounds[q];
  }

  /** The archive with one more round in it. */
  lemma FiledOk(s: State, log: seq<Event>, pr: PR, r: Round)
    requires ArchiveOk(s, log) && DistinctBirths(s.rounds) && pr in s.rounds && r.birth == s.rounds[pr].birth
    requires ClaimsOk(log, r)
    requires NameOk(s.nextSeq, r)
    ensures ArchiveOk(s.(archive := Filed(s.archive, r), rounds := s.rounds - {pr}), log)
  {
    hide ClaimsOk;
  }

  lemma BirthBound(f: Fleet, s: State, log: seq<Event>)
    requires RoundsOk(f, s, log)
    ensures forall pr :: pr in s.rounds ==> s.rounds[pr].birth <= s.nextSeq
  {
    hide TokenOk, HoldOk, ClaimsOk, AnswerOk;
  }

  lemma LocalDistinct(f: Fleet, w: World, next: State, events: seq<Event>, pr: PR)
    requires DistinctBirths(w.state.rounds) && Local(w.state, next, events, pr)
    requires forall q :: q in w.state.rounds ==> w.state.rounds[q].birth <= w.state.nextSeq
    requires pr in next.rounds ==>
      || (pr in w.state.rounds && next.rounds[pr].birth == w.state.rounds[pr].birth)
      || next.rounds[pr].birth > w.state.nextSeq
    ensures DistinctBirths(next.rounds)
  {
    var s := w.state;
    forall q | q in next.rounds && q != pr ensures q in s.rounds && next.rounds[q] == s.rounds[q] {
      assert q in next.rounds - {pr};
      assert q in s.rounds - {pr} && (next.rounds - {pr})[q] == (s.rounds - {pr})[q];
    }
  }

  // ---- Bookkeeping writes

  predicate CoEvent(e: Event) { e.Granted? || e.Restamped? || e.Commanded? || e.ClaimCleared? }

  function ClaimAfter(e: Event): Option<Time>
    requires CoEvent(e)
  {
    if e.Granted? || e.Restamped? then Some(e.at) else None
  }

  function CommandAfter(e: Event, before: int): int { if e.Commanded? then e.id else before }

  /** The history follows the claims of the round through these writes. */
  ghost predicate NotedOk(log: seq<Event>, r: Round, done: Noted) {
    && done.round.(cos := r.cos) == r
    && (forall e :: e in done.events ==> CoEvent(e) && e.birth == r.birth)
    && LogOk(log + done.events) && ClaimsOk(log + done.events, done.round)
  }

  /** No claim but those the round had. */
  ghost predicate Calmer(r: Round, next: Round) {
    forall key :: CoAt(next, key).claimedAt.None? || CoAt(next, key).claimedAt == CoAt(r, key).claimedAt
  }

  lemma CoWrite(log: seq<Event>, r: Round, login: string, co: Co, e: Event)
    requires LogOk(log) && ClaimsOk(log, r) && EventOk(log, e)
    requires CoEvent(e) && e.birth == r.birth && e.login == Key(login) && co.claimedAt == ClaimAfter(e)
    requires co.command == CommandAfter(e, CoOf(r, login).command)
    ensures LogOk(log + [e]) && ClaimsOk(log + [e], SetCo(r, login, co))
  {
    hide Key, LogOk, EventOk, ClaimOf, SetCo, CommandOf;
    LogSnoc(log, e);
    var next := SetCo(r, login, co);
    forall key
      ensures CoAt(next, key).claimedAt == ClaimOf(log + [e], next.birth, key)
           && CoAt(next, key).command == CommandOf(log + [e], next.birth, key)
    {
      ClaimSnoc(log, e, r.birth, key);
    }
  }

  lemma NothingNoted(log: seq<Event>, r: Round)
    requires LogOk(log) && ClaimsOk(log, r)
    ensures NotedOk(log, r, Noted(r, []))
  {
    assert log + [] == log;
  }

  /** One write, and then the rest. */
  lemma NotedCons(log: seq<Event>, r: Round, login: string, co: Co, e: Event, rest: Noted)
    requires CoEvent(e) && e.birth == r.birth && NotedOk(log + [e], SetCo(r, login, co), rest)
    ensures NotedOk(log, r, Before([e], rest))
  {
    hide LogOk, ClaimsOk, SetCo;
    assert (log + [e]) + rest.events == log + ([e] + rest.events);
  }

  lemma {:induction false} ClaimFreeNoted(log: seq<Event>, r: Round, logins: seq<string>, now: Time)
    requires LogOk(log) && ClaimsOk(log, r)
    ensures NotedOk(log, r, ClaimFree(r, logins, now))
    decreases |logins|
  {
    hide Key, LogOk, SetCo, NotedOk, ClaimOf, CommandOf;
    if logins == [] {
      NothingNoted(log, r);
    } else if CoOf(r, logins[0]).command != 0 || ClaimLive(CoOf(r, logins[0]), now) {
      ClaimFreeNoted(log, r, logins[1..], now);
    } else {
      var e := Granted(r.birth, Key(logins[0]), now);
      CoWrite(log, r, logins[0], CoOf(r, logins[0]).(claimedAt := Some(now)), e);
      ClaimFreeNoted(log + [e], ClaimCo(r, logins[0], now), logins[1..], now);
      NotedCons(log, r, logins[0], CoOf(r, logins[0]).(claimedAt := Some(now)), e, ClaimFree(ClaimCo(r, logins[0],
                now), logins[1..], now));
    }
  }

  lemma {:induction false} ClaimAllNoted(log: seq<Event>, r: Round, logins: seq<string>, now: Time)
    requires LogOk(log) && ClaimsOk(log, r)
    ensures NotedOk(log, r, ClaimAll(r, logins, now))
    decreases |logins|
  {
    hide Key, LogOk, SetCo, NotedOk, ClaimOf, CommandOf;
    if logins == [] {
      NothingNoted(log, r);
    } else {
      var e := Restamped(r.birth, Key(logins[0]), now);
      CoWrite(log, r, logins[0], CoOf(r, logins[0]).(claimedAt := Some(now)), e);
      ClaimAllNoted(log + [e], ClaimCo(r, logins[0], now), logins[1..], now);
      NotedCons(log, r, logins[0], CoOf(r, logins[0]).(claimedAt := Some(now)), e, ClaimAll(ClaimCo(r, logins[0],
                now), logins[1..], now));
    }
  }

  lemma {:induction false} RecordAllNoted(log: seq<Event>, r: Round, posts: seq<CoPost>, skip: seq<string>)
    requires LogOk(log) && ClaimsOk(log, r)
    ensures NotedOk(log, r, RecordAll(r, posts, skip)) && Calmer(r, RecordAll(r, posts, skip).round)
    decreases |posts|
  {
    hide Key, LogOk, SetCo, NotedOk, ClaimOf, ContainsBot, CommandOf;
    if posts == [] {
      NothingNoted(log, r);
    } else if ContainsBot(skip, posts[0].login) || CoOf(r, posts[0].login).command != 0 {
      RecordAllNoted(log, r, posts[1..], skip);
    } else {
      var p := posts[0];
      var e := Commanded(r.birth, Key(p.login), p.id);
      CoWrite(log, r, p.login, Co(p.id, Some(p.at), None), e);
      RecordAllNoted(log + [e], SetCoCommand(r, p.login, p.id, p.at), posts[1..], skip);
      NotedCons(log, r, p.login, Co(p.id, Some(p.at), None), e, RecordAll(SetCoCommand(r, p.login, p.id, p.at),
                posts[1..], skip));
    }
  }

  lemma {:induction false} AdoptAllNoted(log: seq<Event>, r: Round, posts: seq<CoPost>, now: Time)
    requires LogOk(log) && ClaimsOk(log, r)
    ensures NotedOk(log, r, AdoptAll(r, posts, now))
    decreases |posts|
  {
    hide Key, LogOk, SetCo, NotedOk, ClaimOf, CommandOf;
    if posts == [] {
      NothingNoted(log, r);
    } else if CoOf(r, posts[0].login).command != 0 || ClaimLive(CoOf(r, posts[0].login), now) {
      AdoptAllNoted(log, r, posts[1..], now);
    } else {
      var p := posts[0];
      var e := Commanded(r.birth, Key(p.login), p.id);
      CoWrite(log, r, p.login, Co(p.id, Some(p.at), None), e);
      AdoptAllNoted(log + [e], SetCoCommand(r, p.login, p.id, p.at), posts[1..], now);
      NotedCons(log, r, p.login, Co(p.id, Some(p.at), None), e, AdoptAll(SetCoCommand(r, p.login, p.id, p.at),
                posts[1..], now));
    }
  }

  lemma NotedTwice(log: seq<Event>, r: Round, a: Noted, b: Noted)
    requires NotedOk(log, r, a) && NotedOk(log + a.events, a.round, b)
    ensures NotedOk(log, r, Noted(b.round, a.events + b.events))
  {
    hide LogOk, ClaimsOk;
    assert (log + a.events) + b.events == log + (a.events + b.events);
  }

  lemma {:induction false} CoEventsAside(log: seq<Event>, events: seq<Event>, birth: nat)
    requires forall e :: e in events ==> CoEvent(e)
    ensures FireTimes(events) == [] && AnswerOf(log + events, birth) == AnswerOf(log, birth)
    decreases |events|
  {
    if events == [] {
      assert log + events == log;
    } else {
      var rest, last := events[..|events| - 1], events[|events| - 1];
      CoEventsAside(log, rest, birth);
      AppendSnoc(log, events);
      assert last in events;
      AnswerSnoc(log + rest, last, birth);
    }
  }

  lemma NotedRoundOk(f: Fleet, s: State, log: seq<Event>, r: Round, done: Noted)
    requires RoundOk(f, s, log, r) && NotedOk(log, r, done) && (r.pr in s.holds ==> Calmer(r, done.round))
    ensures RoundOk(f, Put(s, done.round), log + done.events, done.round)
  {
    hide LogOk, ClaimOf, AnswerOf, FireTimes, Under, Resolved, Added, CommandOf;
    CoEventsAside(log, done.events, r.birth);
  }

  lemma NotedKeeps(f: Fleet, w: World, pr: PR, done: Noted)
    requires pr in w.state.rounds && (pr in w.state.holds ==> Calmer(w.state.rounds[pr], done.round))
    requires NotedOk(w.log, w.state.rounds[pr], done) && Inv(f, w)
    ensures Inv(f, World(Put(w.state, done.round), w.log + done.events))
  {
    hide LogOk, ClaimOf, AnswerOf, FireTimes, Under, RoundOk, Calmer, ClaimsOk, BornBelow, CommandOf;
    var s, r := w.state, w.state.rounds[pr];
    NotedRoundOk(f, s, w.log, r, done);
    CoEventsAside(w.log, done.events, r.birth);
    SlotUntouched(f, s, w.log, pr);
    LocalKeeps(f, w, Put(s, done.round), done.events, pr);
  }

  // ---- Moving a round along

  /** A transition that neither reserves nor decides that a head is answered. */
  predicate Moved(r: Round, next: Round) {
    && next.pr == r.pr && next.birth == r.birth && next.cos == r.cos && (next.order == r.order || next.order < 0)
    && (next.token == 0 || next.token == r.token)
    && (next.phase in {Queued, AwaitingRetry, Expired} ==> next.token == 0)
    && next.phase != Phase.Reserved && (next.phase == Completed ==> next.reviewersChanged)
  }

  /** The write leaves everything but the slot and its anchors alone. */
  predicate SameAround(s: State, next: State) {
    next.holds == s.holds && next.overrides == s.overrides && next.nextSeq == s.nextSeq && next.fires == s.fires
    && next.archive == s.archive
  }

  lemma MovedRoundOk(f: Fleet, s: State, next: State, log: seq<Event>, r: Round, to: Round)
    requires RoundOk(f, s, log, r) && Moved(r, to) && SameAround(s, next)
    ensures RoundOk(f, next, log, to)
  {
    hide LogOk, ClaimOf, AnswerOf, CommandOf;
    assert forall key :: CoAt(to, key) == CoAt(r, key);
  }

  lemma MovedKeeps(f: Fleet, w: World, next: State, pr: PR, to: Round)
    requires pr in w.state.rounds && Moved(w.state.rounds[pr], to)
    requires next.rounds == w.state.rounds[pr := to] && SameAround(w.state, next) && OthersKeepSlot(w.state, next, pr)
    requires Inv(f, w)
    ensures Inv(f, World(next, w.log))
  {
    hide LogOk, ClaimOf, AnswerOf, Under, RoundOk, BornBelow, CommandOf;
    MovedRoundOk(f, w.state, next, w.log, w.state.rounds[pr], to);
    assert w.log + [] == w.log;
    LocalKeeps(f, w, next, [], pr);
  }

  lemma SlotOfOthers(f: Fleet, s: State, log: seq<Event>, pr: PR, token: Token)
    requires RoundsOk(f, s, log)
    ensures OthersKeepSlot(s, ReleaseSlot(s, pr, token), pr)
    ensures SameAround(s, ReleaseSlot(s, pr, token)) && ReleaseSlot(s, pr, token).rounds == s.rounds
  {
    hide ClaimsOk, AnswerOk, HoldOk;
  }

  lemma SlotUntouched(f: Fleet, s: State, log: seq<Event>, pr: PR)
    requires RoundsOk(f, s, log)
    ensures forall next: State :: next.slot == s.slot ==> OthersKeepSlot(s, next, pr)
  {
    hide ClaimsOk, AnswerOk, HoldOk;
  }

  lemma DroppedKeeps(f: Fleet, w: World, next: State, pr: PR)
    requires Inv(f, w) && next.rounds == w.state.rounds - {pr} && SameAround(w.state, next.(archive := w.state.archive))
    requires next.archive
        == if pr in w.state.rounds then Filed(w.state.archive, Abandon(w.state.rounds[pr])) else w.state.archive
    requires OthersKeepSlot(w.state, next, pr)
    ensures Inv(f, World(next, w.log))
  {
    hide LogOk, ClaimOf, AnswerOf, Under, RoundOk, BornBelow, CommandOf;
    assert w.log + [] == w.log;
    LocalKeeps(f, w, next, [], pr);
  }

  lemma FreshRoundOk(f: Fleet, s: State, log: seq<Event>, r: Round)
    requires r.birth > 0 && BornBelow(log, r.birth - 1) && r.birth <= s.nextSeq && r.order == r.birth
    requires r.phase == Queued && r.token == 0 && r.cos == map[]
    ensures RoundOk(f, s, log, r)
  {
    hide LogOk, ClaimOf, AnswerOf, CommandOf;
    Unborn(log, r.birth, r.birth - 1);
  }

  lemma SupersedeKeeps(f: Fleet, w: World, pr: PR, head: string)
    requires Inv(f, w)
    ensures Inv(f, World(Supersede(w.state, pr, head), w.log))
  {
    hide LogOk, ClaimOf, AnswerOf, Under, RoundOk, BornBelow, CommandOf;
    var s, next := w.state, Supersede(w.state, pr, head);
    FreshRoundOk(f, next, w.log, next.rounds[pr]);
    SlotUntouched(f, s, w.log, pr);
    assert w.log + [] == w.log;
    LocalKeeps(f, w, next, [], pr);
  }

  // ---- Answering a head

  /** A configuration a worker can hold: one current at some earlier point of the run. */
  ghost predicate Legit(f: Fleet, log: seq<Event>, repo: string, cfg: Cfg) {
    cfg == Cfg(f.base, None) || (cfg.overrideAt.Some? && Edited(repo, cfg.overrideAt.value, cfg.config) in log)
  }

  lemma EditsUnique(log: seq<Event>, repo: string, at: Time, a: Config, b: Config)
    requires LogOk(log) && Edited(repo, at, a) in log && Edited(repo, at, b) in log
    ensures a == b
  {
    hide LogOk;
    var i :| 0 <= i < |log| && log[i] == Edited(repo, at, a);
    var j :| 0 <= j < |log| && log[j] == Edited(repo, at, b);
    if i < j {
      EditedOnce(log, i, j);
    } else if j < i {
      EditedOnce(log, j, i);
    }
  }

  lemma EditedOnce(log: seq<Event>, i: nat, j: nat)
    requires LogOk(log) && i < j < |log| && log[i].Edited? && log[j].Edited?
    ensures log[i].repo != log[j].repo || log[i].at != log[j].at
  {
    Earlier(log, i, j);
    assert Edited(log[i].repo, log[i].at, log[i].config) in log[..j];
    assert EventOk(log[..j], log[j]);
  }

  /** With distinct edit stamps, an unchanged stamp means an unchanged configuration. */
  lemma UnchangedIsCurrent(f: Fleet, w: World, repo: string, cfg: Cfg)
    requires Inv(f, w) && Legit(f, w.log, repo, cfg) && !ReviewersChanged(w.state, repo, cfg)
    ensures cfg == CfgFor(f, w.state, repo)
  {
    hide LogOk, RoundsOk, DistinctBirths, BornBelow, FireTimes, Under, ArchiveOk;
    if repo in w.state.overrides {
      EditsUnique(w.log, repo, cfg.overrideAt.value, cfg.config, CfgFor(f, w.state, repo).config);
    }
  }

  lemma CurrentResolved(f: Fleet, s: State, repo: string)
    requires FleetOk(f)
    ensures Resolved(CfgFor(f, s, repo).config) && CfgFor(f, s, repo).config.bot == f.base.bot
  {
    hide Resolved, Under;
    if repo in s.overrides {
      UnderResolved(f.registry, f.base, s.overrides[repo].ov);
    }
  }

  predicate AnsweredTo(r: Round, to: Round) {
    && to.pr == r.pr && to.birth == r.birth && to.order == r.order && to.cos == r.cos
    && to.phase == Completed && (to.token == 0 || to.token == r.token)
  }

  lemma AnsweredRoundOk(f: Fleet, s: State, next: State, log: seq<Event>, r: Round, to: Round)
    requires AnsweredTo(r, to) && SameAround(s, next) && FleetOk(f) && RoundOk(f, s, log, r)
    ensures RoundOk(f, next, log + [Answered(r.birth, CfgFor(f, s, r.pr.repo).config)], to)
  {
    hide LogOk, ClaimOf, AnswerOf, Resolved, Added, Under, CommandOf;
    assert forall key :: CoAt(to, key) == CoAt(r, key);
    var e := Answered(r.birth, CfgFor(f, s, r.pr.repo).config);
    CurrentResolved(f, s, r.pr.repo);
    AddsNothingToItself(e.config);
    AnswerSnoc(log, e, r.birth);
    forall key
      ensures ClaimOf(log + [e], r.birth, key) == ClaimOf(log, r.birth, key)
           && CommandOf(log + [e], r.birth, key) == CommandOf(log, r.birth, key)
    {
      ClaimSnoc(log, e, r.birth, key);
    }
  }

  lemma AnsweredKeeps(f: Fleet, w: World, next: State, pr: PR, to: Round)
    requires pr in w.state.rounds && AnsweredTo(w.state.rounds[pr], to)
    requires next.rounds == w.state.rounds[pr := to] && SameAround(w.state, next) && OthersKeepSlot(w.state, next, pr)
    requires FleetOk(f) && Inv(f, w)
    ensures Inv(f, World(next, w.log + [Answered(to.birth, CfgFor(f, w.state, pr.repo).config)]))
  {
    hide LogOk, ClaimOf, AnswerOf, Under, RoundOk, BornBelow, CfgFor, FleetOk, EditsOk, DistinctBirths, CommandOf,
      ArchiveOk;
    var e := Answered(to.birth, CfgFor(f, w.state, pr.repo).config);
    AnsweredRoundOk(f, w.state, next, w.log, w.state.rounds[pr], to);
    LogSnoc(w.log, e);
    FireSnoc([], e);
    assert [] + [e] == [e];
    LocalKeeps(f, w, next, [e], pr);
  }

  /** The archive, the slot's hold and the pacing anchors carry no obligation. */
  lemma AsideKeeps(f: Fleet, w: World, next: State)
    requires Inv(f, w) && next.rounds == w.state.rounds && SameAround(w.state, next)
    requires forall q :: q in next.rounds && next.rounds[q].phase == Phase.Reserved ==>
      SameOwner(w.state.slot, next.slot)
    ensures Inv(f, World(next, w.log))
  {
    hide LogOk, ClaimOf, AnswerOf, Under, RoundOk, BornBelow, SameOwner, CommandOf;
    assert w.log + [] == w.log;
    forall pr | pr in next.rounds ensures RoundOk(f, next, w.log, next.rounds[pr]) {
      OtherRound(f, w.state, next, w.log, [], next.rounds[pr]);
    }
  }

  lemma SameSlotOwner(f: Fleet, s: State, log: seq<Event>)
    requires RoundsOk(f, s, log)
    ensures forall q :: q in s.rounds && s.rounds[q].phase == Phase.Reserved ==> SameOwner(s.slot, s.slot)
  {
    hide ClaimsOk, AnswerOk, HoldOk;
  }

  /** While the slot is free no round is reserved. */
  lemma FreeSlot(f: Fleet, s: State, log: seq<Event>)
    requires RoundsOk(f, s, log) && !SlotRound(s)
    ensures forall q :: q in s.rounds ==> s.rounds[q].phase != Phase.Reserved
  {
    hide ClaimsOk, AnswerOk, HoldOk;
  }

  lemma UnknownUnlogged(log: seq<Event>, token: Token)
    requires LogOk(log) && !TokenKnown(log, token)
    ensures !TokenLogged(log, token)
  {
    hide LogOk;
    if birth, at :| FireLogged(token, birth, at) in log {
      LoggedWasReserved(log, token, birth, at);
    }
  }

  // ---- Each write keeps the invariant

  lemma EnqueueKeeps(f: Fleet, w: World, pr: PR, head: string, off: bool)
    requires Inv(f, w)
    ensures var done := Enqueue(w.state, pr, head, off);
      Inv(f, World(done.next, w.log + done.events))
  {
    assert w.log + [] == w.log;
    hide RoundOk, LogOk, BornBelow, EditsOk, DistinctBirths, ArchiveOk;
    if !(pr in w.state.holds || off) {
      if pr in w.state.rounds && w.state.rounds[pr].head == head {
        if w.state.rounds[pr].phase == Completed && w.state.rounds[pr].reviewersChanged {
          SlotUntouched(f, w.state, w.log, pr);
          MovedKeeps(f, w, Enqueue(w.state, pr, head, off).next, pr, Reopen(w.state.rounds[pr]).value);
        }
      } else {
        SupersedeKeeps(f, w, pr, head);
      }
    }
  }

  /** What the round's own part of the invariant says of its token. */
  lemma WaitingHasNoToken(f: Fleet, w: World, pr: PR)
    requires Inv(f, w) && pr in w.state.rounds
    ensures w.state.rounds[pr].pr == pr && NameOk(w.state.nextSeq, w.state.rounds[pr])
    ensures w.state.rounds[pr].phase in {Queued, AwaitingRetry} ==> w.state.rounds[pr].token == 0
    ensures TokenOk(w.state.slot, w.log, w.state.rounds[pr])
    ensures ClaimsOk(w.log, w.state.rounds[pr])
  {
    hide LogOk, ClaimsOk, AnswerOk, HoldOk;
  }

  lemma PrioritizeKeeps(f: Fleet, w: World, pr: PR, low: int)
    requires Inv(f, w) && LowestSeq(w.state, low)
    ensures var done := Prioritize(w.state, pr, low);
      Inv(f, World(done.next, w.log + done.events))
  {
    assert w.log + [] == w.log;
    hide RoundOk, LogOk, BornBelow, EditsOk, DistinctBirths, ClaimsOk, TokenOk, ArchiveOk;
    if pr in w.state.rounds && w.state.rounds[pr].phase in {Queued, AwaitingRetry} {
      WaitingHasNoToken(f, w, pr);
      SlotUntouched(f, w.state, w.log, pr);
      MovedKeeps(f, w, Prioritize(w.state, pr, low).next, pr, w.state.rounds[pr].(order := low - 1));
    }
  }

  lemma EndKeeps(f: Fleet, w: World, pr: PR, token: Token)
    requires Inv(f, w)
    ensures Inv(f, World(ReleaseSlot(EndRound(w.state, pr), pr, token), w.log))
  {
    hide RoundOk, LogOk, BornBelow, EditsOk, DistinctBirths, ArchiveOk;
    SlotOfOthers(f, w.state, w.log, pr, token);
    DroppedKeeps(f, w, ReleaseSlot(EndRound(w.state, pr), pr, token), pr);
  }

  lemma FreedKeeps(f: Fleet, w: World, pr: PR)
    requires pr in w.state.rounds && w.state.rounds[pr].phase in {Fired, Reviewing}
    requires Inv(f, w)
    ensures Inv(f, World(ReleaseSlot(w.state, pr, w.state.rounds[pr].token), w.log))
  {
    hide RoundOk, LogOk, BornBelow, EditsOk, DistinctBirths, ClaimsOk, TokenOk, ArchiveOk;
    var s := w.state;
    SlotOfOthers(f, s, w.log, pr, s.rounds[pr].token);
    assert s.rounds == s.rounds[pr := s.rounds[pr]];
    MovedKeeps(f, w, ReleaseSlot(s, pr, s.rounds[pr].token), pr, s.rounds[pr]);
  }

  lemma ConfirmedKeeps(f: Fleet, w: World, pr: PR, head: string, now: Time)
    requires w.state.slot.Some? && w.state.slot.value.pr == pr && pr in w.state.rounds
        ==> w.state.rounds[pr].phase in {Fired, Reviewing}
    requires Inv(f, w)
    ensures Inv(f, World(Confirmed(w.state, pr, head, now), w.log))
  {
    hide Inv, ReleaseSlot, EndRound;
    var s := w.state;
    var mine := pr in s.rounds && s.slot.Some? && s.slot.value.pr == pr;
    if mine {
      FreedKeeps(f, w, pr);
    }
    var freed := if mine then ReleaseSlot(s, pr, s.rounds[pr].token) else s;
    SupersedeKeeps(f, World(freed, w.log), pr, head);
    var next := Supersede(freed, pr, head);
    StampedKeeps(f, World(next, w.log), pr, next.rounds[pr].(confirmationAfter := Some(now),
                 lastAttemptAt := Some(now)));
  }

  lemma ConfirmKeeps(f: Fleet, w: World, want: Round, known: bool, cfg: Cfg, now: Time)
    requires Inv(f, w)
    ensures var done := Confirm(w.state, want, known, cfg, now);
      Inv(f, World(done.next, w.log + done.events))
  {
    assert w.log + [] == w.log;
    hide Inv, Confirmed;
    if Confirmable(w.state, want, known, cfg) {
      ConfirmedKeeps(f, w, want.pr, want.head, now);
    }
  }

  lemma StampedKeeps(f: Fleet, w: World, pr: PR, to: Round)
    requires pr in w.state.rounds && Moved(w.state.rounds[pr], to)
    requires Inv(f, w)
    ensures Inv(f, World(w.state.(rounds := w.state.rounds[pr := to]), w.log))
  {
    hide RoundOk, LogOk, BornBelow, EditsOk, DistinctBirths, Moved, ArchiveOk;
    SlotUntouched(f, w.state, w.log, pr);
    MovedKeeps(f, w, w.state.(rounds := w.state.rounds[pr := to]), pr, to);
  }

  lemma DispatchedKeeps(f: Fleet, w: World, pr: PR, phase: Phase, dispatch: Option<Dispatch>, retryAt: Option<Time>,
                        dispatchRetryAt: Option<Time>)
    requires Inv(f, w)
    ensures var done := Dispatched(w.state, pr, phase, dispatch, retryAt, dispatchRetryAt);
      Inv(f, World(done.next, w.log + done.events))
  {
    assert w.log + [] == w.log;
    hide RoundOk, LogOk, BornBelow, EditsOk, DistinctBirths, ClaimsOk, TokenOk, ArchiveOk;
    var s, next := w.state, Dispatched(w.state, pr, phase, dispatch, retryAt, dispatchRetryAt).next;
    if pr in s.rounds {
      WaitingHasNoToken(f, w, pr);
      SlotUntouched(f, s, w.log, pr);
      if s.rounds[pr].phase in {Queued, AwaitingRetry} && phase in {Queued, AwaitingRetry} {
        MovedKeeps(f, w, next, pr, next.rounds[pr]);
      } else {
        WorkedOnKeeps(f, w, pr, dispatch, dispatchRetryAt);
      }
    }
  }

  /** Who works on a round is no part of the invariant. */
  lemma WorkedOnKeeps(f: Fleet, w: World, pr: PR, dispatch: Option<Dispatch>, dispatchRetryAt: Option<Time>)
    requires Inv(f, w) && pr in w.state.rounds && w.state.rounds[pr].pr == pr
    ensures Inv(f, World(Put(w.state, w.state.rounds[pr].(dispatch := dispatch, dispatchRetryAt := dispatchRetryAt)),
                         w.log))
  {
    hide LogOk, BornBelow, EditsOk, DistinctBirths, RoundOk, ArchiveOk;
    var r := w.state.rounds[pr];
    var to := r.(dispatch := dispatch, dispatchRetryAt := dispatchRetryAt);
    WorkedOnOk(f, w.state, w.log, r, to);
    SlotUntouched(f, w.state, w.log, pr);
    assert w.log + [] == w.log;
    LocalKeeps(f, w, Put(w.state, to), [], pr);
  }

  lemma WorkedOnOk(f: Fleet, s: State, log: seq<Event>, r: Round, to: Round)
    requires RoundOk(f, s, log, r) && to.(dispatch := r.dispatch, dispatchRetryAt := r.dispatchRetryAt) == r
    ensures RoundOk(f, Put(s, to), log, to)
  {
    hide LogOk, ClaimOf, AnswerOf, CommandOf;
    assert forall key :: CoAt(to, key) == CoAt(r, key);
  }

  lemma ReplaceKeeps(f: Fleet, w: World, pr: PR, head: string)
    requires Inv(f, w)
    ensures var done := Replace(w.state, pr, head); Inv(f, World(done.next, w.log + done.events))
  {
    assert w.log + [] == w.log;
    hide Inv, Supersede;
    SupersedeKeeps(f, w, pr, head);
  }

  lemma RepairKeeps(f: Fleet, w: World, pr: PR, head: string)
    requires Inv(f, w)
    ensures var done := Repair(w.state, pr, head); Inv(f, World(done.next, w.log + done.events))
  {
    assert w.log + [] == w.log;
    hide RoundOk, LogOk, BornBelow, EditsOk, DistinctBirths, ArchiveOk;
    SlotUntouched(f, w.state, w.log, pr);
    if Repair(w.state, pr, head) != NoChange(w.state) {
      DroppedKeeps(f, w, EndRound(w.state, pr), pr);
    }
  }

  lemma HoldsKeep(f: Fleet, w: World, holds: map<PR, Hold>)
    requires Inv(f, w) && forall pr :: pr in w.state.rounds ==> HoldOk(holds, w.state.rounds[pr])
    ensures Inv(f, World(w.state.(holds := holds), w.log))
  {
    hide LogOk, ClaimsOk, TokenOk, HoldOk, Added, Resolved, Under, AnswerOf;
  }

  lemma PlaceHoldKeeps(f: Fleet, w: World, pr: PR, owner: Option<Owner>, led: bool, now: Time)
    requires Inv(f, w)
    ensures var done := PlaceHold(w.state, pr, owner, led, now);
      Inv(f, World(done.next, w.log + done.events))
  {
    assert w.log + [] == w.log;
    hide LogOk, ClaimsOk, TokenOk, AnswerOk, NameOk, EditsOk, DistinctBirths, BornBelow, ArchiveOk;
    var next := PlaceHold(w.state, pr, owner, led, now).next;
    if next != w.state {
      HoldsKeep(f, w, next.holds);
    }
  }

  lemma BudgetHoldKeeps(f: Fleet, w: World, want: Round, spent: bool)
    requires Inv(f, w)
    ensures var done := BudgetHold(w.state, want, spent);
      Inv(f, World(done.next, w.log + done.events))
  {
    assert w.log + [] == w.log;
    hide LogOk, ClaimsOk, TokenOk, AnswerOk, NameOk, EditsOk, DistinctBirths, BornBelow, Quiet, ArchiveOk;
    var next := BudgetHold(w.state, want, spent).next;
    if next != w.state {
      HoldsKeep(f, w, next.holds);
    }
  }

  lemma UnholdKeeps(f: Fleet, w: World, pr: PR)
    requires Inv(f, w)
    ensures var done := Unhold(w.state, pr);
      Inv(f, World(done.next, w.log + done.events))
  {
    assert w.log + [] == w.log;
    hide LogOk, ClaimsOk, TokenOk, AnswerOk, NameOk, EditsOk, DistinctBirths, BornBelow, Quiet, ArchiveOk;
    HoldsKeep(f, w, Unhold(w.state, pr).next.holds);
  }

  lemma ReservedRoundOk(f: Fleet, s: State, next: State, log: seq<Event>, r: Round, to: Round, token: Token)
    requires RoundOk(f, s, log, r) && LogOk(log) && r.pr !in s.holds && token != 0 && !TokenKnown(log, token)
    requires to.(phase := r.phase, token := r.token, reservedAt := r.reservedAt) == r
    requires to.phase == Phase.Reserved && to.token == token
    requires next.nextSeq == s.nextSeq && next.holds == s.holds
    requires next.slot.Some? && next.slot.value.pr == r.pr && next.slot.value.token == token
    ensures RoundOk(f, next, log + [TokenReserved(token, r.birth)], to)
    ensures LogOk(log + [TokenReserved(token, r.birth)])
  {
    hide LogOk, ClaimOf, AnswerOf, CommandOf;
    var e := TokenReserved(token, r.birth);
    LogSnoc(log, e);
    UnknownUnlogged(log, token);
    assert forall key :: CoAt(to, key) == CoAt(r, key);
    forall key
      ensures ClaimOf(log + [e], r.birth, key) == ClaimOf(log, r.birth, key)
           && CommandOf(log + [e], r.birth, key) == CommandOf(log, r.birth, key)
    {
      ClaimSnoc(log, e, r.birth, key);
    }
  }

  lemma ReserveKeeps(f: Fleet, w: World, want: Round, token: Token, cfg: Cfg, now: Time)
    requires Inv(f, w) && token != 0 && !TokenKnown(w.log, token)
    ensures var done := ReserveFire(w.state, want, token, cfg, now);
      Inv(f, World(done.next, w.log + done.events))
  {
    hide LogOk, BornBelow, EditsOk, DistinctBirths, ClaimsOk, TokenOk, ClaimOf, AnswerOk, HoldOk, NameOk, CommandOf,
      ArchiveOk;
    var s, done := w.state, ReserveFire(w.state, want, token, cfg, now);
    assert w.log + [] == w.log;
    if done.events != [] {
      var pr, r := want.pr, s.rounds[want.pr];
      FreeSlot(f, s, w.log);
      ReservedRoundOk(f, s, done.next, w.log, r, done.next.rounds[pr], token);
      FireSnoc([], done.events[0]);
      assert [] + [done.events[0]] == done.events;
      LocalKeeps(f, w, done.next, done.events, pr);
    }
  }

  predicate FiredTo(r: Round, to: Round, token: Token) {
    && to.pr == r.pr && to.birth == r.birth && to.order == r.order && to.cos == r.cos
    && to.phase == Fired && to.token == token
  }

  lemma FiredRoundOk(f: Fleet, s: State, next: State, log: seq<Event>, r: Round, to: Round, token: Token, at: Time)
    requires RoundOk(f, s, log, r) && LogOk(log) && TokenReserved(token, r.birth) in log && !TokenLogged(log, token)
    requires FiredTo(r, to, token)
    requires next.nextSeq == s.nextSeq && next.holds == s.holds
    ensures RoundOk(f, next, log + [FireLogged(token, r.birth, at)], to)
    ensures LogOk(log + [FireLogged(token, r.birth, at)])
  {
    hide LogOk, ClaimOf, AnswerOf, CommandOf;
    var e := FireLogged(token, r.birth, at);
    LogSnoc(log, e);
    assert forall key :: CoAt(to, key) == CoAt(r, key);
    forall key
      ensures ClaimOf(log + [e], r.birth, key) == ClaimOf(log, r.birth, key)
           && CommandOf(log + [e], r.birth, key) == CommandOf(log, r.birth, key)
    {
      ClaimSnoc(log, e, r.birth, key);
    }
  }

  /** Once the slot's own round is fired, the fire is in the log. */
  lemma FiredKeeps(f: Fleet, w: World, next: State, pr: PR, to: Round, token: Token, at: Time)
    requires pr in w.state.rounds && FiredTo(w.state.rounds[pr], to, token)
    requires TokenReserved(token, w.state.rounds[pr].birth) in w.log && !TokenLogged(w.log, token)
    requires next.rounds == w.state.rounds[pr := to]
    requires next.holds == w.state.holds && next.overrides == w.state.overrides && next.nextSeq == w.state.nextSeq
    requires next.slot == w.state.slot && next.archive == w.state.archive
    requires next.fires == FireLog.NoteFire(w.state.fires, at)
    requires Inv(f, w)
    ensures Inv(f, World(next, w.log + [FireLogged(token, w.state.rounds[pr].birth, at)]))
  {
    hide LogOk, BornBelow, EditsOk, DistinctBirths, RoundOk, ArchiveOk, FireLog.NoteFire, FireLog.NoteFires,
      FireLog.Stored;
    var e := FireLogged(token, w.state.rounds[pr].birth, at);
    FiredRoundOk(f, w.state, next, w.log, w.state.rounds[pr], to, token, at);
    SlotUntouched(f, w.state, w.log, pr);
    FireSnoc([], e);
    assert [] + [e] == [e] && [] + [at] == [at];
    FireLog.NoteOne(w.state.fires, at);
    LocalKeeps(f, w, next, [e], pr);
  }

  lemma PutTwice(rounds: map<PR, Round>, pr: PR, a: Round, b: Round)
    ensures rounds[pr := a][pr := b] == rounds[pr := b]
  {
  }

  lemma AdoptKeeps(f: Fleet, w: World, want: Round, token: Token, cfg: Cfg, command: int, firedAt: Time, deadline: Time,
                   posts: seq<string>, seen: seq<CoPost>, now: Time)
    requires Inv(f, w) && token != 0 && !TokenKnown(w.log, token)
    ensures var done := AdoptFire(w.state, want, token, cfg, command, firedAt, deadline, posts, seen, now);
      Inv(f, World(done.next, w.log + done.events))
  {
    hide Inv, LogOk, ClaimAll, RecordAll, SetCo;
    var s, pr := w.state, want.pr;
    var done := AdoptFire(s, want, token, cfg, command, firedAt, deadline, posts, seen, now);
    assert w.log + [] == w.log;
    if done.events != [] {
      ReserveKeeps(f, w, want, token, cfg, now);
      KeysOk(f, w);
      var w1 := World(ReserveFire(s, want, token, cfg, now).next, w.log + [TokenReserved(token, s.rounds[pr].birth)]);
      var r1 := w1.state.rounds[pr];
      var fired := Fire(r1, command, firedAt).value.(waitDeadline := Some(deadline));
      var next := w1.state.(rounds := w1.state.rounds[pr := fired], lastFired := Some(firedAt),
                            fires := FireLog.NoteFire(s.fires, firedAt));
      StillUnlogged(f, w1, pr);
      FiredKeeps(f, w1, next, pr, fired, token, firedAt);
      var e := FireLogged(token, fired.birth, firedAt);
      var w2 := World(next, w1.log + [e]);
      NotedLists(f, w2, pr, fired, posts, seen, now);
      var claimed := ClaimAll(fired, posts, now);
      var last := RecordAll(claimed.round, seen, posts);
      assert w.log + done.events == w2.log + (claimed.events + last.events);
      PutTwice(s.rounds, pr, r1, fired);
      PutTwice(s.rounds, pr, fired, last.round);
      assert done.next == Put(next, last.round);
    }
  }

  lemma KeysOk(f: Fleet, w: World)
    requires Inv(f, w)
    ensures forall pr :: pr in w.state.rounds ==> w.state.rounds[pr].pr == pr
  {
    hide RoundOk, LogOk;
  }

  /** A reserved round's token is its own and its fire is not yet logged. */
  lemma StillUnlogged(f: Fleet, w: World, pr: PR)
    requires pr in w.state.rounds && w.state.rounds[pr].phase == Phase.Reserved && Inv(f, w)
    ensures TokenReserved(w.state.rounds[pr].token, w.state.rounds[pr].birth) in w.log
    ensures !TokenLogged(w.log, w.state.rounds[pr].token) && w.state.rounds[pr].pr == pr
  {
    hide LogOk, ClaimsOk, AnswerOk, HoldOk;
  }

  lemma NotedLists(f: Fleet, w: World, pr: PR, r: Round, posts: seq<string>, seen: seq<CoPost>, now: Time)
    requires pr in w.state.rounds && r == w.state.rounds[pr] && pr !in w.state.holds && Inv(f, w)
    ensures var claimed := ClaimAll(r, posts, now);
      var done := RecordAll(claimed.round, seen, posts);
      Inv(f, World(Put(w.state, done.round), w.log + (claimed.events + done.events))) && done.round.pr == pr
  {
    hide RoundOk, BornBelow, EditsOk, DistinctBirths, ClaimAll, RecordAll, LogOk, ClaimsOk, ArchiveOk;
    WaitingHasNoToken(f, w, pr);
    ClaimAllNoted(w.log, r, posts, now);
    var claimed := ClaimAll(r, posts, now);
    RecordAllNoted(w.log + claimed.events, claimed.round, seen, posts);
    var done := RecordAll(claimed.round, seen, posts);
    NotedTwice(w.log, r, claimed, done);
    NotedKeeps(f, w, pr, Noted(done.round, claimed.events + done.events));
  }

  /** Recording posts keeps the invariant, held or not. */
  lemma RecordsKeep(f: Fleet, w: World, pr: PR, r: Round, posts: seq<CoPost>)
    requires pr in w.state.rounds && r == w.state.rounds[pr] && Inv(f, w)
    ensures var done := RecordAll(r, posts, []);
      Inv(f, World(Put(w.state, done.round), w.log + done.events)) && done.round.pr == pr
  {
    hide RoundOk, BornBelow, EditsOk, DistinctBirths, RecordAll, LogOk, ClaimsOk, ArchiveOk;
    WaitingHasNoToken(f, w, pr);
    RecordAllNoted(w.log, r, posts, []);
    NotedKeeps(f, w, pr, RecordAll(r, posts, []));
  }

  lemma PostFailedKeeps(f: Fleet, w: World, pr: PR, token: Token, now: Time)
    requires Inv(f, w)
    ensures var done := PostFailed(w.state, pr, token, now);
      Inv(f, World(done.next, w.log + done.events))
  {
    assert w.log + [] == w.log;
    hide RoundOk, LogOk, BornBelow, EditsOk, DistinctBirths, ReleaseSlot, OthersKeepSlot, ArchiveOk;
    var s, next := w.state, PostFailed(w.state, pr, token, now).next;
    if next != s {
      KeysOk(f, w);
      SlotOfOthers(f, s, w.log, pr, token);
      SameSlotAfter(s, ReleaseSlot(s, pr, token), next, pr);
      MovedKeeps(f, w, next, pr, next.rounds[pr]);
    }
  }

  lemma SameSlotAfter(s: State, freed: State, next: State, pr: PR)
    requires OthersKeepSlot(s, freed, pr) && next.slot == freed.slot
    ensures OthersKeepSlot(s, next, pr)
  {
  }

  lemma RecordFireKeeps(f: Fleet, w: World, want: Round, token: Token, command: int, posts: seq<CoPost>, firedAt: Time,
                        deadline: Time)
    requires Inv(f, w) && token != 0
    ensures var done := RecordFire(w.state, want, token, command, posts, firedAt, deadline);
      Inv(f, World(done.next, w.log + done.events))
  {
    hide Inv, RecordAll, LogOk;
    var s, pr := w.state, want.pr;
    var done := RecordFire(s, want, token, command, posts, firedAt, deadline);
    assert w.log + [] == w.log;
    if done.events != [] {
      WaitingHasNoToken(f, w, pr);
      StillUnlogged(f, w, pr);
      var fired := Fire(s.rounds[pr], command, firedAt).value.(waitDeadline := Some(deadline));
      var next := s.(rounds := s.rounds[pr := fired], lastFired := Some(firedAt), fires := FireLog.NoteFire(s.fires,
                     firedAt));
      FiredKeeps(f, w, next, pr, fired, token, firedAt);
      var e := FireLogged(token, fired.birth, firedAt);
      RecordsKeep(f, World(next, w.log + [e]), pr, fired, posts);
      var last := RecordAll(fired, posts, []);
      assert w.log + done.events == (w.log + [e]) + last.events;
      PutTwice(s.rounds, pr, fired, last.round);
      assert done.next == Put(next, last.round);
    }
  }

  lemma ClaimCoOnlyKeeps(f: Fleet, w: World, want: Round, logins: seq<string>, cfg: Cfg, now: Time)
    requires Inv(f, w)
    ensures var done := ClaimCoOnly(w.state, want, logins, cfg, now);
      Inv(f, World(done.next, w.log + done.events))
  {
    hide RoundOk, BornBelow, EditsOk, DistinctBirths, ClaimFree, LogOk, ClaimsOk, TokenOk, ArchiveOk;
    var s := w.state;
    assert w.log + [] == w.log;
    if ClaimCoOnly(s, want, logins, cfg, now).events != [] {
      WaitingHasNoToken(f, w, want.pr);
      ClaimFreeNoted(w.log, s.rounds[want.pr], logins, now);
      NotedKeeps(f, w, want.pr, ClaimFree(s.rounds[want.pr], logins, now));
    }
  }

  /** Bookkeeping on an archived round leaves every live one alone. */
  lemma RefileKeeps(f: Fleet, w: World, i: nat, done: Noted)
    requires Inv(f, w) && i < |w.state.archive| && NotedOk(w.log, w.state.archive[i], done)
    ensures var next := Refile(w.state, i, done);
      Inv(f, World(next.next, w.log + next.events))
  {
    hide RoundOk, LogOk, EditsOk, DistinctBirths, ClaimsOk, FireTimes, RoundsOk;
    var s, next := w.state, w.state.(archive := w.state.archive[i := done.round]);
    assert done.round.birth == s.archive[i].birth;
    CoEventsAside(w.log, done.events, 0);
    FireTimesAppend(w.log, done.events);
    assert FireTimes(w.log) + [] == FireTimes(w.log);
    RefiledRounds(f, w, next, i, done.events);
    forall j | 0 <= j < |s.archive| && j != i ensures ClaimsOk(w.log + done.events, s.archive[j]) {
      FiledRound(w.log, done.events, s.archive[j]);
    }
    EditsKept(f, s, next, w.log, done.events);
    BornAppend(w.log, done.events, s.nextSeq, s.nextSeq);
  }

  lemma EditsKept(f: Fleet, s: State, next: State, log: seq<Event>, events: seq<Event>)
    requires EditsOk(f, s, log) && next.overrides == s.overrides
    ensures EditsOk(f, next, log + events)
  {
    hide Under;
  }

  lemma RefiledRounds(f: Fleet, w: World, next: State, i: nat, events: seq<Event>)
    requires RoundsOk(f, w.state, w.log) && ArchiveOk(w.state, w.log) && i < |w.state.archive| && LogOk(w.log + events)
    requires next == w.state.(archive := next.archive)
    requires forall e :: e in events ==> e.Edited? || e.birth == w.state.archive[i].birth
    ensures RoundsOk(f, next, w.log + events)
  {
    hide RoundOk, LogOk, ClaimsOk;
    SameSlotOwner(f, w.state, w.log);
    forall pr | pr in next.rounds
      ensures next.rounds[pr].pr == pr && RoundOk(f, next, w.log + events, next.rounds[pr]) {
      OtherRound(f, w.state, next, w.log, events, w.state.rounds[pr]);
    }
  }

  lemma {:induction false} ClearAllNoted(log: seq<Event>, r: Round, logins: seq<string>)
    requires LogOk(log) && ClaimsOk(log, r)
    ensures NotedOk(log, r, ClearAll(r, logins))
    decreases |logins|
  {
    hide Key, LogOk, SetCo, NotedOk, ClaimOf, CommandOf;
    if logins == [] {
      NothingNoted(log, r);
    } else {
      var e := ClaimCleared(r.birth, Key(logins[0]));
      CoWrite(log, r, logins[0], CoOf(r, logins[0]).(claimedAt := None), e);
      ClearAllNoted(log + [e], ClearCoClaim(r, logins[0]), logins[1..]);
      NotedCons(log, r, logins[0], CoOf(r, logins[0]).(claimedAt := None), e, ClearAll(ClearCoClaim(r, logins[0]),
                logins[1..]));
    }
  }

  lemma FiledClaims(f: Fleet, w: World, i: nat)
    requires Inv(f, w) && i < |w.state.archive|
    ensures LogOk(w.log) && ClaimsOk(w.log, w.state.archive[i])
  {
    hide LogOk, ClaimsOk, RoundOk, DistinctBirths;
  }

  lemma ClearArchivedKeeps(f: Fleet, w: World, want: Round, claimed: seq<string>)
    requires Inv(f, w)
    ensures var done := ClearArchived(w.state, want, claimed);
      Inv(f, World(done.next, w.log + done.events))
  {
    hide Inv, ClearAll, NotedOk, LogOk, ClaimsOk;
    assert w.log + [] == w.log;
    var at := ArchivedAt(w.state.archive, want);
    if at.Some? {
      FiledClaims(f, w, at.value);
      ClearAllNoted(w.log, w.state.archive[at.value], claimed);
      RefileKeeps(f, w, at.value, ClearAll(w.state.archive[at.value], claimed));
    }
  }

  lemma ClearThenRecordNoted(log: seq<Event>, r: Round, claimed: seq<string>, posts: seq<CoPost>)
    requires LogOk(log) && ClaimsOk(log, r)
    ensures NotedOk(log, r, ClearThenRecord(r, claimed, posts))
  {
    hide ClearAll, RecordAll, LogOk, ClaimsOk;
    ClearAllNoted(log, r, claimed);
    var cleared := ClearAll(r, claimed);
    RecordAllNoted(log + cleared.events, cleared.round, posts, []);
    NotedTwice(log, r, cleared, RecordAll(cleared.round, posts, []));
  }

  lemma CoOnlyFailedKeeps(f: Fleet, w: World, want: Round, claimed: seq<string>, token: Token, now: Time)
    requires Inv(f, w)
    ensures var done := CoOnlyFailed(w.state, want, claimed, token, now);
      Inv(f, World(done.next, w.log + done.events))
  {
    assert w.log + [] == w.log;
    hide Inv, ClearArchived;
    var s, next := w.state, CoOnlyFailed(w.state, want, claimed, token, now).next;
    if !Still(s, want) {
      ClearArchivedKeeps(f, w, want, claimed);
    } else if next != s {
      KeysOk(f, w);
      StampedKeeps(f, w, want.pr, next.rounds[want.pr]);
    }
  }

  lemma CoOnlyRecordKeeps(f: Fleet, w: World, want: Round, claimed: seq<string>, posts: seq<CoPost>, token: Token,
                          deadline: Time, now: Time)
    requires posts != [] && Inv(f, w)
    ensures var done := CoOnlyRecord(w.state, want, claimed, posts, token, deadline, now);
      Inv(f, World(done.next, w.log + done.events))
  {
    hide Inv, ClearThenRecord, RecordAll, NotedOk, LogOk, ClaimsOk;
    var s, done := w.state, CoOnlyRecord(w.state, want, claimed, posts, token, deadline, now);
    assert w.log + [] == w.log;
    var at := ArchivedAt(s.archive, want);
    if !Still(s, want) {
      if at.Some? {
        FiledClaims(f, w, at.value);
        ClearThenRecordNoted(w.log, s.archive[at.value], claimed, posts);
        RefileKeeps(f, w, at.value, ClearThenRecord(s.archive[at.value], claimed, posts));
      }
    } else {
      KeysOk(f, w);
      var r, pr := s.rounds[want.pr], want.pr;
      if FireEligible(r, now) {
        var fired := Fire(Reserve(r, token, now).value, posts[0].id, posts[0].at).value
                     .(token := 0, waitDeadline := Some(deadline));
        StampedKeeps(f, w, pr, fired);
        var next := s.(rounds := s.rounds[pr := fired]);
        RecordsKeep(f, World(next, w.log), pr, fired, posts);
        PutTwice(s.rounds, pr, fired, RecordAll(fired, posts, []).round);
        assert done.next == Put(next, RecordAll(fired, posts, []).round);
      } else {
        RecordsKeep(f, w, pr, r, posts);
      }
    }
  }

  lemma ClaimDeferredKeeps(f: Fleet, w: World, want: Round, adopts: seq<CoPost>, logins: seq<string>, cfg: Cfg,
                           now: Time)
    requires Inv(f, w)
    ensures var done := ClaimDeferred(w.state, want, adopts, logins, cfg, now);
      Inv(f, World(done.next, w.log + done.events))
  {
    hide RoundOk, BornBelow, EditsOk, DistinctBirths, ClaimFree, AdoptAll, LogOk, ClaimsOk, TokenOk, ArchiveOk;
    var s, done := w.state, ClaimDeferred(w.state, want, adopts, logins, cfg, now);
    assert w.log + [] == w.log;
    if done.events != [] {
      var r := s.rounds[want.pr];
      WaitingHasNoToken(f, w, want.pr);
      AdoptAllNoted(w.log, r, adopts, now);
      var adopted := AdoptAll(r, adopts, now);
      ClaimFreeNoted(w.log + adopted.events, adopted.round, logins, now);
      var claimed := ClaimFree(adopted.round, logins, now);
      NotedTwice(w.log, r, adopted, claimed);
      NotedKeeps(f, w, want.pr, Noted(claimed.round, adopted.events + claimed.events));
    }
  }

  lemma OneNoted(log: seq<Event>, r: Round, login: string, co: Co, e: Event)
    requires LogOk(log) && ClaimsOk(log, r) && EventOk(log, e)
    requires CoEvent(e) && e.birth == r.birth && e.login == Key(login) && co.claimedAt == ClaimAfter(e)
    requires co.command == CommandAfter(e, CoOf(r, login).command)
    ensures NotedOk(log, r, Noted(SetCo(r, login, co), [e]))
  {
    hide Key, LogOk, EventOk, ClaimsOk, SetCo;
    CoWrite(log, r, login, co, e);
  }

  lemma ClaimSelfHealKeeps(f: Fleet, w: World, want: Round, login: string, cfg: Cfg, now: Time)
    requires Inv(f, w)
    ensures var done := ClaimSelfHeal(w.state, want, login, cfg, now);
      Inv(f, World(done.next, w.log + done.events))
  {
    hide RoundOk, BornBelow, EditsOk, DistinctBirths, LogOk, TokenOk, Key, SetCo, ArchiveOk;
    var s, done := w.state, ClaimSelfHeal(w.state, want, login, cfg, now);
    assert w.log + [] == w.log;
    if done.events != [] {
      var r := s.rounds[want.pr];
      WaitingHasNoToken(f, w, want.pr);
      OneNoted(w.log, r, login, CoOf(r, login).(claimedAt := Some(now)), done.events[0]);
      NotedKeeps(f, w, want.pr, Noted(ClaimCo(r, login, now), done.events));
    }
  }

  lemma TriggerRecordedKeeps(f: Fleet, w: World, want: Round, login: string, id: int, time: Time)
    requires Inv(f, w)
    ensures var done := TriggerRecorded(w.state, want, login, id, time);
      Inv(f, World(done.next, w.log + done.events))
  {
    hide Inv, TriggerNoted, NotedOk, LogOk, ClaimsOk, Calmer;
    var s, done := w.state, TriggerRecorded(w.state, want, login, id, time);
    assert w.log + [] == w.log;
    var at := ArchivedAt(s.archive, want);
    if !Still(s, want) {
      if at.Some? {
        FiledClaims(f, w, at.value);
        TriggerNotedOk(w.log, s.archive[at.value], want, login, id, time);
        RefileKeeps(f, w, at.value, TriggerNoted(s.archive[at.value], want, login, id, time));
      }
    } else {
      WaitingHasNoToken(f, w, want.pr);
      LogIsOk(f, w);
      TriggerNotedOk(w.log, s.rounds[want.pr], want, login, id, time);
      NotedKeeps(f, w, want.pr, TriggerNoted(s.rounds[want.pr], want, login, id, time));
    }
  }

  lemma TriggerNotedOk(log: seq<Event>, r: Round, want: Round, login: string, id: int, at: Time)
    requires LogOk(log) && ClaimsOk(log, r)
    ensures var done := TriggerNoted(r, want, login, id, at); NotedOk(log, r, done) && Calmer(r, done.round)
  {
    hide LogOk, ClaimsOk, Key, SetCo, NotedOk;
    var done := TriggerNoted(r, want, login, id, at);
    var co := if CoOf(r, login).command == CoOf(want, login).command then Co(id, Some(at), None)
              else CoOf(r, login).(claimedAt := None);
    OneNoted(log, r, login, co, done.events[0]);
  }

  lemma CoReviewWaitKeeps(f: Fleet, w: World, want: Round, adopts: seq<CoPost>, deadline: Time, anchor: Time, now: Time)
    requires Inv(f, w)
    ensures var done := CoReviewWait(w.state, want, adopts, deadline, anchor, now);
      Inv(f, World(done.next, w.log + done.events))
  {
    hide Inv, RecordAll;
    var s, done := w.state, CoReviewWait(w.state, want, adopts, deadline, anchor, now);
    assert w.log + [] == w.log;
    if Still(s, want) && Firable(s, s.rounds[want.pr], now) {
      KeysOk(f, w);
      var pr, to := want.pr, AwaitCoReview(s.rounds[want.pr], deadline, anchor).value;
      StampedKeeps(f, w, pr, to);
      var next := s.(rounds := s.rounds[pr := to]);
      RecordsKeep(f, World(next, w.log), pr, to, adopts);
      PutTwice(s.rounds, pr, to, RecordAll(to, adopts, []).round);
      assert done.next == Put(next, RecordAll(to, adopts, []).round);
    }
  }

  lemma AnsweredFreed(f: Fleet, w: World, pr: PR, to: Round, cfg: Cfg, token: Token)
    requires pr in w.state.rounds && AnsweredTo(w.state.rounds[pr], to)
    requires FleetOk(f) && Inv(f, w) && Legit(f, w.log, pr.repo, cfg) && !ReviewersChanged(w.state, pr.repo, cfg)
    ensures Inv(f, World(ReleaseSlot(w.state, pr, token).(rounds := w.state.rounds[pr := to]),
                         w.log + [Answered(to.birth, cfg.config)]))
  {
    hide RoundOk, LogOk, BornBelow, EditsOk, DistinctBirths, ReleaseSlot, OthersKeepSlot, AnsweredTo, FleetOk,
      CfgFor, ArchiveOk;
    SlotOfOthers(f, w.state, w.log, pr, token);
    var freed := ReleaseSlot(w.state, pr, token);
    var next := freed.(rounds := w.state.rounds[pr := to]);
    SameSlotAfter(w.state, freed, next, pr);
    UnchangedIsCurrent(f, w, pr.repo, cfg);
    AnsweredKeeps(f, w, next, pr, to);
  }

  lemma MovedFreed(f: Fleet, w: World, pr: PR, to: Round, token: Token)
    requires pr in w.state.rounds && Moved(w.state.rounds[pr], to)
    requires Inv(f, w)
    ensures Inv(f, World(ReleaseSlot(w.state, pr, token).(rounds := w.state.rounds[pr := to]), w.log))
  {
    hide RoundOk, LogOk, BornBelow, EditsOk, DistinctBirths, ReleaseSlot, OthersKeepSlot, Moved, ArchiveOk;
    SlotOfOthers(f, w.state, w.log, pr, token);
    var freed := ReleaseSlot(w.state, pr, token);
    SameSlotAfter(w.state, freed, freed.(rounds := w.state.rounds[pr := to]), pr);
    MovedKeeps(f, w, freed.(rounds := w.state.rounds[pr := to]), pr, to);
  }

  lemma ProgressedMoves(r: Round, tr: Progress, now: Time)
    requires Progressed(r, tr, now).Some? && !tr.ToComplete? && r.phase != Completed
    ensures Moved(r, Progressed(r, tr, now).value)
  {
  }

  lemma TransitionKeeps(f: Fleet, w: World, pr: PR, seen: Seen, tr: Progress, cfg: Cfg, policyMoved: bool,
                        lagging: bool,
                        reviewed: bool,
                        now: Time)
    requires FleetOk(f) && Inv(f, w) && Legit(f, w.log, pr.repo, cfg)
    ensures var done := Transition(w.state, pr, seen, tr, cfg, policyMoved, lagging, reviewed, now);
      Inv(f, World(done.next, w.log + done.events))
  {
    hide Inv, FleetOk, Legit, ReviewersChanged;
    var s, done := w.state, Transition(w.state, pr, seen, tr, cfg, policyMoved, lagging, reviewed, now);
    assert w.log + [] == w.log;
    if done != NoChange(s) {
      KeysOk(f, w);
      var r := s.rounds[pr];
      if tr.ToAbandon? || (tr.ToRetry? && !reviewed) {
        EndKeeps(f, w, pr, r.token);
      } else if tr.ToComplete? {
        AnsweredFreed(f, w, pr, Complete(r).value, cfg, r.token);
        assert done.next == ReleaseSlot(s, pr, r.token).(rounds := s.rounds[pr := Complete(r).value]);
      } else {
        ProgressedMoves(r, tr, now);
        MovedFreed(f, w, pr, Progressed(r, tr, now).value, r.token);
        assert done.next == ReleaseSlot(s, pr, r.token).(rounds := s.rounds[pr := Progressed(r, tr, now).value]);
      }
    }
  }

  lemma CompleteWaitKeeps(f: Fleet, w: World, pr: PR, head: string, holdUnacked: bool, cfg: Cfg, inflight: Time,
                          now: Time)
    requires FleetOk(f) && Inv(f, w) && Legit(f, w.log, pr.repo, cfg)
    ensures var done := CompleteWait(w.state, pr, head, holdUnacked, cfg, inflight, now);
      Inv(f, World(done.next, w.log + done.events))
  {
    hide Inv, FleetOk, Legit, ReviewersChanged;
    var s, done := w.state, CompleteWait(w.state, pr, head, holdUnacked, cfg, inflight, now);
    assert w.log + [] == w.log;
    if done != NoChange(s) {
      KeysOk(f, w);
      var r := s.rounds[pr];
      if done.events == [] {
        SlotHeldLonger(f, w, r.firedAt.value + inflight);
      } else {
        AnsweredFreed(f, w, pr, Complete(r).value, cfg, r.token);
        assert done.next == ReleaseSlot(s, pr, r.token).(rounds := s.rounds[pr := Complete(r).value]);
      }
    }
  }

  lemma SlotHeldLonger(f: Fleet, w: World, until: Time)
    requires Inv(f, w)
    ensures Inv(f, World(HoldSlotUntil(w.state, until), w.log))
  {
    hide RoundOk, LogOk, BornBelow, EditsOk, DistinctBirths, ArchiveOk;
    SameSlotOwner(f, w.state, w.log);
    AsideKeeps(f, w, HoldSlotUntil(w.state, until));
  }

  lemma DedupeRoundKeeps(f: Fleet, w: World, want: Round, cfg: Cfg, now: Time)
    requires FleetOk(f) && Inv(f, w) && Legit(f, w.log, want.pr.repo, cfg)
    ensures var done := DedupeRound(w.state, want, cfg, now);
      Inv(f, World(done.next, w.log + done.events))
  {
    hide Inv, FleetOk, Legit, ReviewersChanged;
    var s, pr, done := w.state, want.pr, DedupeRound(w.state, want, cfg, now);
    assert w.log + [] == w.log;
    if done != NoChange(s) {
      KeysOk(f, w);
      AnsweredPut(f, w, pr, Dedupe(s.rounds[pr], now).value, cfg);
    }
  }

  lemma AnsweredPut(f: Fleet, w: World, pr: PR, to: Round, cfg: Cfg)
    requires pr in w.state.rounds && AnsweredTo(w.state.rounds[pr], to)
    requires FleetOk(f) && Inv(f, w) && Legit(f, w.log, pr.repo, cfg) && !ReviewersChanged(w.state, pr.repo, cfg)
    ensures Inv(f, World(w.state.(rounds := w.state.rounds[pr := to]), w.log + [Answered(to.birth, cfg.config)]))
  {
    hide RoundOk, LogOk, BornBelow, EditsOk, DistinctBirths, AnsweredTo, FleetOk, CfgFor, ArchiveOk;
    SlotUntouched(f, w.state, w.log, pr);
    UnchangedIsCurrent(f, w, pr.repo, cfg);
    AnsweredKeeps(f, w, w.state.(rounds := w.state.rounds[pr := to]), pr, to);
  }

  lemma NormalizeKeeps(f: Fleet, w: World, now: Time)
    requires Inv(f, w)
    ensures Inv(f, World(Normalize(w.state, now), w.log))
  {
    hide RoundOk, LogOk, BornBelow, EditsOk, DistinctBirths, ArchiveOk;
    var s := w.state;
    SameSlotOwner(f, s, w.log);
    if !SlotRound(s) {
      FreeSlot(f, s, w.log);
    }
    AsideKeeps(f, w, Normalize(s, now));
  }

  // ---- Editing the reviewers

  /** What reopening does to a round of the repository. */
  lemma ReopenedKeeps(f: Fleet, s: State, next: State, log: seq<Event>, r: Round, open: bool)
    requires RoundOk(f, s, log, r) && next.slot == s.slot && next.holds == s.holds && next.nextSeq == s.nextSeq
    ensures var to := Reopened(r, open);
      to.pr == r.pr && to.birth == r.birth && NameOk(next.nextSeq, to) && TokenOk(next.slot, log, to)
      && HoldOk(next.holds, to)
      && ClaimsOk(log, to) && (to.phase == Completed ==> to.reviewersChanged)
  {
    hide LogOk, ClaimOf, AnswerOf, Added, Resolved, CommandOf;
    assert forall key :: CoAt(Reopened(r, open), key) == CoAt(r, key);
  }

  /** A decision that asked for everything the old reviewers did asks for everything
      the new ones do, unless the edit added something. */
  lemma NarrowedStands(f: Fleet, s: State, next: State, log: seq<Event>, r: Round, before: Config, after: Config)
    requires AnswerOk(f, s, log, r) && CfgFor(f, s, r.pr.repo).config == before
    requires CfgFor(f, next, r.pr.repo).config == after
    requires SameReviewers(before, after) || !Added(before, after)
    requires Resolved(before) && Resolved(after) && before.bot == after.bot
    ensures AnswerOk(f, next, log, r)
  {
    hide CfgFor, Added, Resolved, SameReviewers, AnswerOf;
    if SameReviewers(before, after) {
      SameReviewersAddNothing(before, after);
    }
    if r.phase == Completed && !r.reviewersChanged {
      AddsNothingTransitive(AnswerOf(log, r.birth).value, before, after);
    }
  }

  /** One edited repository: every round stays in order under the new configuration. */
  lemma EditedRoundOk(f: Fleet, s: State, next: State, log: seq<Event>, repo: string, before: Config, after: Config,
                      open: set<nat>, pr: PR)
    requires pr in s.rounds && s.rounds[pr].pr == pr && RoundOk(f, s, log, s.rounds[pr])
    requires next.slot == s.slot && next.holds == s.holds && next.nextSeq == s.nextSeq
    requires next.rounds == ReopenedRounds(s.rounds, repo, before, after, open)
    requires CfgFor(f, s, repo).config == before && CfgFor(f, next, repo).config == after
    requires forall other :: other != repo ==> CfgFor(f, s, other) == CfgFor(f, next, other)
    requires Resolved(before) && Resolved(after) && before.bot == after.bot
    ensures pr in next.rounds && next.rounds[pr].pr == pr && next.rounds[pr].birth == s.rounds[pr].birth
    ensures RoundOk(f, next, log, next.rounds[pr])
  {
    hide CfgFor, Added, Resolved, SameReviewers, TokenOk, HoldOk, ClaimsOk, AnswerOf;
    var r := s.rounds[pr];
    if next.rounds[pr] == r {
      if pr.repo == repo && (SameReviewers(before, after) || !Added(before, after)) {
        NarrowedStands(f, s, next, log, r, before, after);
      }
    }
    ReopenedKeeps(f, s, next, log, r, pr.number in open);
  }

  /** An edit, and what it records, keep the invariant. */
  lemma EditKeeps(f: Fleet, w: World, next: State, events: seq<Event>, repo: string, before: Config, after: Config,
                  open: set<nat>)
    requires FleetOk(f) && Inv(f, w) && CfgFor(f, w.state, repo).config == before
    requires CfgFor(f, next, repo).config == after
    requires next == w.state.(overrides := next.overrides,
                           rounds := ReopenedRounds(w.state.rounds, repo, before, after, open))
    requires next.overrides - {repo} == w.state.overrides - {repo}
    requires forall e :: e in events ==> e.Edited?
    requires LogOk(w.log + events) && FireTimes(events) == []
    requires repo in next.overrides ==>
      Edited(repo, next.overrides[repo].at, Under(f.registry, f.base, next.overrides[repo].ov)) in w.log + events
    ensures Inv(f, World(next, w.log + events))
  {
    hide LogOk, RoundOk, Added, Resolved, SameReviewers, ReopenedRounds, Under, FireTimes;
    var s, log := w.state, w.log + events;
    CurrentResolved(f, s, repo);
    CurrentResolved(f, next, repo);
    OtherOverrides(s, next, repo);
    forall pr | pr in s.rounds
      ensures pr in next.rounds && next.rounds[pr].pr == pr && next.rounds[pr].birth == s.rounds[pr].birth
      ensures RoundOk(f, next, log, next.rounds[pr])
    {
      EditedEvents(f, s, w.log, events, s.rounds[pr]);
      EditedRoundOk(f, s, next, log, repo, before, after, open, pr);
    }
    SameKeys(s, next, repo, before, after, open);
    BornAppend(w.log, events, s.nextSeq, next.nextSeq);
    FireTimesAppend(w.log, events);
    assert FireTimes(w.log) + [] == FireTimes(w.log);
    EditsStay(f, w, next, events, repo);
    EditedArchive(w, next, events);
  }

  lemma EditedArchive(w: World, next: State, events: seq<Event>)
    requires ArchiveOk(w.state, w.log) && next.archive == w.state.archive && next.nextSeq == w.state.nextSeq
    requires next.rounds.Keys == w.state.rounds.Keys
    requires forall pr :: pr in next.rounds ==>
      pr in w.state.rounds && next.rounds[pr].birth == w.state.rounds[pr].birth
    requires forall e :: e in events ==> e.Edited?
    ensures ArchiveOk(next, w.log + events)
  {
    hide ClaimsOk;
    forall i | 0 <= i < |w.state.archive| ensures ClaimsOk(w.log + events, w.state.archive[i]) {
      FiledRound(w.log, events, w.state.archive[i]);
    }
  }

  lemma OtherOverrides(s: State, next: State, repo: string)
    requires next.overrides - {repo} == s.overrides - {repo}
    ensures forall other :: other != repo ==> (other in s.overrides <==> other in next.overrides)
    ensures forall other :: other != repo && other in s.overrides ==> next.overrides[other] == s.overrides[other]
  {
    forall other | other != repo
      ensures other in s.overrides <==> other in next.overrides
      ensures other in s.overrides ==> next.overrides[other] == s.overrides[other]
    {
      assert other in s.overrides <==> other in s.overrides - {repo};
      assert other in next.overrides <==> other in next.overrides - {repo};
      if other in s.overrides {
        assert (s.overrides - {repo})[other] == (next.overrides - {repo})[other];
      }
    }
  }

  lemma EditedEvents(f: Fleet, s: State, log: seq<Event>, events: seq<Event>, r: Round)
    requires RoundOk(f, s, log, r) && LogOk(log + events) && forall e :: e in events ==> e.Edited?
    ensures RoundOk(f, s, log + events, r)
  {
    hide LogOk, HoldOk, Added, Resolved, Under, TokenOk;
    OthersUnmoved(log, events, r.birth);
    OwnToken(s.slot, log, events, r);
  }

  lemma OwnToken(slot: Option<Slot>, log: seq<Event>, events: seq<Event>, r: Round)
    requires TokenOk(slot, log, r) && forall e :: e in events ==> e.Edited?
    ensures TokenOk(slot, log + events, r)
  {
  }

  lemma SameKeys(s: State, next: State, repo: string, before: Config, after: Config, open: set<nat>)
    requires next.rounds == ReopenedRounds(s.rounds, repo, before, after, open)
    ensures next.rounds.Keys == s.rounds.Keys
  {
    hide Added, SameReviewers;
  }

  lemma EditsStay(f: Fleet, w: World, next: State, events: seq<Event>, repo: string)
    requires EditsOk(f, w.state, w.log)
    requires next.overrides - {repo} == w.state.overrides - {repo}
    requires repo in next.overrides ==>
      Edited(repo, next.overrides[repo].at, Under(f.registry, f.base, next.overrides[repo].ov)) in w.log + events
    ensures EditsOk(f, next, w.log + events)
  {
    hide Under;
    OtherOverrides(w.state, next, repo);
  }

  lemma SetReviewersKeeps(f: Fleet, w: World, repo: string, ov: Override, open: set<nat>, now: Time)
    requires FleetOk(f) && Inv(f, w) && !StampKnown(w.log, repo, now)
    ensures var done := SetReviewers(f, w.state, repo, ov, open, now);
      Inv(f, World(done.next, w.log + done.events))
  {
    hide Inv, FleetOk, Under, ReopenedRounds, EditChanges, LogOk, ClaimedTriggerRepo, StampKnown, FireTimes;
    var s, done := w.state, SetReviewers(f, w.state, repo, ov, open, now);
    assert w.log + [] == w.log;
    if done != NoChange(s) {
      EditLogged(f, w, repo, ov, now);
      InheritsBase(f, ov);
      assert done.next.overrides - {repo} == s.overrides - {repo};
      EditKeeps(f, w, done.next, done.events, repo, CfgFor(f, s, repo).config, Under(f.registry, f.base, ov), open);
    }
  }

  lemma InheritsBase(f: Fleet, ov: Override)
    ensures Inherits(ov) ==> Under(f.registry, f.base, ov) == f.base
  {
    hide CoBotsUnder, RequiredUnder;
  }

  lemma EditLogged(f: Fleet, w: World, repo: string, ov: Override, now: Time)
    requires Inv(f, w) && !StampKnown(w.log, repo, now)
    ensures var events := if Inherits(ov) then [] else [Edited(repo, now, Under(f.registry, f.base, ov))];
      LogOk(w.log + events) && FireTimes(events) == []
  {
    hide Inv, LogOk, Under;
    LogIsOk(f, w);
    assert w.log + [] == w.log;
    if !Inherits(ov) {
      var e := Edited(repo, now, Under(f.registry, f.base, ov));
      LogSnoc(w.log, e);
      FireSnoc([], e);
      assert [] + [e] == [e];
    }
  }

  lemma LogIsOk(f: Fleet, w: World)
    requires Inv(f, w)
    ensures LogOk(w.log)
  {
    hide LogOk, RoundOk;
  }

  lemma ClearReviewersKeeps(f: Fleet, w: World, repo: string, open: set<nat>, now: Time)
    requires FleetOk(f) && Inv(f, w)
    ensures var done := ClearReviewers(f, w.state, repo, open, now);
      Inv(f, World(done.next, w.log + done.events))
  {
    assert w.log + [] == w.log;
    hide Inv, FleetOk, Under, ReopenedRounds, LogOk;
    var s, next := w.state, ClearReviewers(f, w.state, repo, open, now).next;
    assert w.log + [] == w.log;
    if next != s {
      LogIsOk(f, w);
      assert next.overrides - {repo} == s.overrides - {repo};
      EditKeeps(f, w, next, [], repo, CfgFor(f, s, repo).config, f.base, open);
    }
  }

  lemma CancelKeeps(f: Fleet, w: World, pr: PR)
    requires Inv(f, w)
    ensures var done := Cancel(w.state, pr);
      Inv(f, World(done.next, w.log + done.events))
  {
    assert w.log + [] == w.log;
    hide Inv, ReleaseSlot, EndRound;
    if pr in w.state.rounds {
      EndKeeps(f, w, pr, w.state.rounds[pr].token);
    }
  }

  // ---- Runs

  /** One write of one worker. The parameters are what the worker brings to it. */
  datatype Action =
    | DoEnqueue(pr: PR, head: string, off: bool)
    | DoPrioritize(pr: PR, low: int)
    | DoSupersede(want: Round, head: string)
    | DoAbandon(want: Round)
    | DoCancel(pr: PR)
    | DoConfirm(want: Round, known: bool, cfg: Cfg, now: Time)
    | DoDispatch(pr: PR, phase: Phase, dispatch: Option<Dispatch>, retryAt: Option<Time>, dispatchRetryAt: Option<Time>)
    | DoReplace(pr: PR, head: string)
    | DoRepair(pr: PR, head: string)
    | DoHold(pr: PR, owner: Option<Owner>, led: bool, now: Time)
    | DoBudgetHold(want: Round, spent: bool)
    | DoUnhold(pr: PR)
    | DoReserve(want: Round, token: Token, cfg: Cfg, now: Time)
    | DoAdopt(want: Round, token: Token, cfg: Cfg, command: int, firedAt: Time, deadline: Time, claims: seq<string>,
              posts: seq<CoPost>, now: Time)
    | DoPostFailed(pr: PR, token: Token, now: Time)
    | DoRecordFire(want: Round, token: Token, command: int, posts: seq<CoPost>, firedAt: Time, deadline: Time)
    | DoClaimCoOnly(want: Round, claims: seq<string>, cfg: Cfg, now: Time)
    | DoCoOnlyFailed(want: Round, claims: seq<string>, token: Token, now: Time)
    | DoCoOnlyRecord(want: Round, claims: seq<string>, posts: seq<CoPost>, token: Token, deadline: Time, now: Time)
    | DoClaimDeferred(want: Round, posts: seq<CoPost>, claims: seq<string>, cfg: Cfg, now: Time)
    | DoClaimSelfHeal(want: Round, login: string, cfg: Cfg, now: Time)
    | DoTriggerFailed(want: Round, login: string)
    | DoTriggerRecorded(want: Round, login: string, id: int, at: Time)
    | DoCoReviewWait(want: Round, posts: seq<CoPost>, deadline: Time, anchor: Time, now: Time)
    | DoTransition(pr: PR, seen: Seen, tr: Progress, cfg: Cfg, policyMoved: bool, lagging: bool,
                   reviewed: bool, now: Time)
    | DoCompleteWait(pr: PR, head: string, holdUnacked: bool, cfg: Cfg, inflight: Time, now: Time)
    | DoDedupe(want: Round, cfg: Cfg, now: Time)
    | DoSetReviewers(repo: string, ov: Override, open: set<nat>, now: Time)
    | DoClearReviewers(repo: string, open: set<nat>, now: Time)
    | DoNormalize(now: Time)

  /** What a worker can bring: a token nobody drew before, a configuration read from
      some earlier state, an edit stamp no edit of the repository had before. The
      observed round, the clock reading and every decision are unconstrained. */
  ghost predicate Legal(f: Fleet, w: World, a: Action) {
    match a
    case DoPrioritize(_, low) => LowestSeq(w.state, low)
    case DoReserve(_, token, _, _) => token != 0 && !TokenKnown(w.log, token)
    case DoAdopt(_, token, _, _, _, _, _, _, _) => token != 0 && !TokenKnown(w.log, token)
    case DoRecordFire(_, token, _, _, _, _) => token != 0
    case DoCoOnlyRecord(_, _, posts, _, _, _) => posts != []
    case DoTransition(pr, _, _, cfg, _, _, _, _) => Legit(f, w.log, pr.repo, cfg)
    case DoCompleteWait(pr, _, _, cfg, _, _) => Legit(f, w.log, pr.repo, cfg)
    case DoDedupe(want, cfg, _) => Legit(f, w.log, want.pr.repo, cfg)
    case DoSetReviewers(repo, _, _, now) => !StampKnown(w.log, repo, now)
    case _ => true
  }

  predicate Shaped(a: Action) { a.DoCoOnlyRecord? ==> a.posts != [] }

  lemma LegalIsShaped(f: Fleet, w: World, a: Action)
    requires Legal(f, w, a)
    ensures Shaped(a)
  {
  }

  ghost function Effect(f: Fleet, s: State, a: Action): Outcome
    requires Shaped(a)
  {
    match a
    case DoEnqueue(pr, head, off) => Enqueue(s, pr, head, off)
    case DoPrioritize(pr, low) => Prioritize(s, pr, low)
    case DoSupersede(want, head) => SupersedeRound(s, want, head)
    case DoAbandon(want) => AbandonRound(s, want)
    case DoCancel(pr) => Cancel(s, pr)
    case DoConfirm(want, known, cfg, now) => Confirm(s, want, known, cfg, now)
    case DoDispatch(pr, phase, dispatch, retryAt, dispatchRetryAt) =>
      Dispatched(s, pr, phase, dispatch, retryAt, dispatchRetryAt)
    case DoReplace(pr, head) => Replace(s, pr, head)
    case DoRepair(pr, head) => Repair(s, pr, head)
    case DoHold(pr, owner, led, now) => PlaceHold(s, pr, owner, led, now)
    case DoBudgetHold(want, spent) => BudgetHold(s, want, spent)
    case DoUnhold(pr) => Unhold(s, pr)
    case DoReserve(want, token, cfg, now) => ReserveFire(s, want, token, cfg, now)
    case DoAdopt(want, token, cfg, command, firedAt, deadline, claims, posts, now) =>
      AdoptFire(s, want, token, cfg, command, firedAt, deadline, claims, posts, now)
    case DoPostFailed(pr, token, now) => PostFailed(s, pr, token, now)
    case DoRecordFire(want, token, command, posts, firedAt, deadline) =>
      RecordFire(s, want, token, command, posts, firedAt, deadline)
    case DoClaimCoOnly(want, claims, cfg, now) => ClaimCoOnly(s, want, claims, cfg, now)
    case DoCoOnlyFailed(want, claims, token, now) => CoOnlyFailed(s, want, claims, token, now)
    case DoCoOnlyRecord(want, claims, posts, token, deadline, now) =>
      CoOnlyRecord(s, want, claims, posts, token, deadline, now)
    case DoClaimDeferred(want, posts, claims, cfg, now) => ClaimDeferred(s, want, posts, claims, cfg, now)
    case DoClaimSelfHeal(want, login, cfg, now) => ClaimSelfHeal(s, want, login, cfg, now)
    case DoTriggerFailed(want, login) => TriggerFailed(s, want, login)
    case DoTriggerRecorded(want, login, id, at) => TriggerRecorded(s, want, login, id, at)
    case DoCoReviewWait(want, posts, deadline, anchor, now) => CoReviewWait(s, want, posts, deadline, anchor, now)
    case DoTransition(pr, seen, tr, cfg, policyMoved, lagging, reviewed, now) =>
      Transition(s, pr, seen, tr, cfg, policyMoved, lagging, reviewed, now)
    case DoCompleteWait(pr, head, holdUnacked, cfg, inflight, now) =>
      CompleteWait(s, pr, head, holdUnacked, cfg, inflight, now)
    case DoDedupe(want, cfg, now) => DedupeRound(s, want, cfg, now)
    case DoSetReviewers(repo, ov, open, now) => SetReviewers(f, s, repo, ov, open, now)
    case DoClearReviewers(repo, open, now) => ClearReviewers(f, s, repo, open, now)
    case DoNormalize(now) => NoChange(Normalize(s, now))
  }

  ghost function Step(f: Fleet, w: World, a: Action): World
    requires Legal(f, w, a)
  {
    var done := Effect(f, w.state, a);
    World(done.next, w.log + done.events)
  }

  predicate IsQueueStep(a: Action) {
    || a.DoEnqueue? || a.DoPrioritize? || a.DoSupersede? || a.DoAbandon? || a.DoCancel? || a.DoConfirm? || a.DoDispatch?
    || a.DoReplace? || a.DoRepair?
  }

  predicate IsHoldStep(a: Action) {
    a.DoHold? || a.DoBudgetHold? || a.DoUnhold? || a.DoNormalize?
  }

  predicate IsFireStep(a: Action) {
    a.DoReserve? || a.DoAdopt? || a.DoPostFailed? || a.DoRecordFire?
  }

  predicate IsTriggerStep(a: Action) {
    || a.DoClaimCoOnly? || a.DoCoOnlyFailed? || a.DoCoOnlyRecord? || a.DoClaimDeferred? || a.DoClaimSelfHeal?
    || a.DoTriggerFailed? || a.DoTriggerRecorded? || a.DoCoReviewWait?
  }

  predicate IsProgressStep(a: Action) {
    a.DoTransition? || a.DoCompleteWait? || a.DoDedupe? || a.DoSetReviewers? || a.DoClearReviewers?
  }

  lemma QueueStepKeeps(f: Fleet, w: World, a: Action)
    requires IsQueueStep(a) && Legal(f, w, a) && FleetOk(f) && Inv(f, w)
    ensures Inv(f, Step(f, w, a))
  {
    hide Inv, FleetOk, Legit, TokenKnown, StampKnown, LowestSeq, Confirm, Enqueue, PlaceHold, ReserveFire,
      AdoptFire, RecordFire, ClaimDeferred, ClaimSelfHeal, CoReviewWait, Transition, CompleteWait, DedupeRound,
      SetReviewers, ClearReviewers, Normalize, CoOnlyFailed, CoOnlyRecord, TriggerRecorded, ArchivedAt, ClearAll,
      ReleaseSlot, Supersede, EndRound, Prioritize, ClaimCoOnly, PostFailed, BudgetHold, Unhold, Dispatched,
      Replace, Repair, Cancel;
    assert w.log + [] == w.log;
    match a
    case DoEnqueue(pr, head, off) => EnqueueKeeps(f, w, pr, head, off);
    case DoPrioritize(pr, low) => PrioritizeKeeps(f, w, pr, low);
    case DoSupersede(want, head) => SupersedeKeeps(f, w, want.pr, head);
    case DoAbandon(want) => EndKeeps(f, w, want.pr, want.token);
    case DoCancel(pr) => CancelKeeps(f, w, pr);
    case DoConfirm(want, known, cfg, now) => ConfirmKeeps(f, w, want, known, cfg, now);
    case DoDispatch(pr, phase, dispatch, retryAt, dispatchRetryAt) =>
      DispatchedKeeps(f, w, pr, phase, dispatch, retryAt, dispatchRetryAt);
    case DoReplace(pr, head) => ReplaceKeeps(f, w, pr, head);
    case DoRepair(pr, head) => RepairKeeps(f, w, pr, head);
  }

  lemma HoldStepKeeps(f: Fleet, w: World, a: Action)
    requires IsHoldStep(a) && Legal(f, w, a) && FleetOk(f) && Inv(f, w)
    ensures Inv(f, Step(f, w, a))
  {
    hide Inv, FleetOk, Legit, TokenKnown, StampKnown, LowestSeq, Confirm, Enqueue, PlaceHold, ReserveFire,
      AdoptFire, RecordFire, ClaimDeferred, ClaimSelfHeal, CoReviewWait, Transition, CompleteWait, DedupeRound,
      SetReviewers, ClearReviewers, Normalize, CoOnlyFailed, CoOnlyRecord, TriggerRecorded, ArchivedAt, ClearAll,
      ReleaseSlot, Supersede, EndRound, Prioritize, ClaimCoOnly, PostFailed, BudgetHold, Unhold, Dispatched,
      Replace, Repair, Cancel;
    assert w.log + [] == w.log;
    match a
    case DoHold(pr, owner, led, now) => PlaceHoldKeeps(f, w, pr, owner, led, now);
    case DoBudgetHold(want, spent) => BudgetHoldKeeps(f, w, want, spent);
    case DoUnhold(pr) => UnholdKeeps(f, w, pr);
    case DoNormalize(now) => NormalizeKeeps(f, w, now);
  }

  lemma FireStepKeeps(f: Fleet, w: World, a: Action)
    requires IsFireStep(a) && Legal(f, w, a) && FleetOk(f) && Inv(f, w)
    ensures Inv(f, Step(f, w, a))
  {
    hide Inv, FleetOk, Legit, TokenKnown, StampKnown, LowestSeq, Confirm, Enqueue, PlaceHold, ReserveFire,
      AdoptFire, RecordFire, ClaimDeferred, ClaimSelfHeal, CoReviewWait, Transition, CompleteWait, DedupeRound,
      SetReviewers, ClearReviewers, Normalize, CoOnlyFailed, CoOnlyRecord, TriggerRecorded, ArchivedAt, ClearAll,
      ReleaseSlot, Supersede, EndRound, Prioritize, ClaimCoOnly, PostFailed, BudgetHold, Unhold, Dispatched,
      Replace, Repair, Cancel;
    assert w.log + [] == w.log;
    match a
    case DoReserve(want, token, cfg, now) => ReserveKeeps(f, w, want, token, cfg, now);
    case DoAdopt(want, token, cfg, command, firedAt, deadline, claims, posts, now) =>
      AdoptKeeps(f, w, want, token, cfg, command, firedAt, deadline, claims, posts, now);
    case DoPostFailed(pr, token, now) => PostFailedKeeps(f, w, pr, token, now);
    case DoRecordFire(want, token, command, posts, firedAt, deadline) =>
      RecordFireKeeps(f, w, want, token, command, posts, firedAt, deadline);
  }

  lemma TriggerStepKeeps(f: Fleet, w: World, a: Action)
    requires IsTriggerStep(a) && Legal(f, w, a) && FleetOk(f) && Inv(f, w)
    ensures Inv(f, Step(f, w, a))
  {
    hide Inv, FleetOk, Legit, TokenKnown, StampKnown, LowestSeq, Confirm, Enqueue, PlaceHold, ReserveFire,
      AdoptFire, RecordFire, ClaimDeferred, ClaimSelfHeal, CoReviewWait, Transition, CompleteWait, DedupeRound,
      SetReviewers, ClearReviewers, Normalize, CoOnlyFailed, CoOnlyRecord, TriggerRecorded, ArchivedAt, ClearAll,
      ReleaseSlot, Supersede, EndRound, Prioritize, ClaimCoOnly, PostFailed, BudgetHold, Unhold, Dispatched,
      Replace, Repair, Cancel;
    assert w.log + [] == w.log;
    match a
    case DoClaimCoOnly(want, claims, cfg, now) => ClaimCoOnlyKeeps(f, w, want, claims, cfg, now);
    case DoCoOnlyFailed(want, claims, token, now) => CoOnlyFailedKeeps(f, w, want, claims, token, now);
    case DoCoOnlyRecord(want, claims, posts, token, deadline, now) =>
      CoOnlyRecordKeeps(f, w, want, claims, posts, token, deadline, now);
    case DoClaimDeferred(want, posts, claims, cfg, now) => ClaimDeferredKeeps(f, w, want, posts, claims, cfg, now);
    case DoClaimSelfHeal(want, login, cfg, now) => ClaimSelfHealKeeps(f, w, want, login, cfg, now);
    case DoTriggerFailed(want, login) => ClearArchivedKeeps(f, w, want, [login]);
    case DoTriggerRecorded(want, login, id, at) => TriggerRecordedKeeps(f, w, want, login, id, at);
    case DoCoReviewWait(want, posts, deadline, anchor, now) =>
      CoReviewWaitKeeps(f, w, want, posts, deadline, anchor, now);
  }

  lemma ProgressStepKeeps(f: Fleet, w: World, a: Action)
    requires IsProgressStep(a) && Legal(f, w, a) && FleetOk(f) && Inv(f, w)
    ensures Inv(f, Step(f, w, a))
  {
    hide Inv, FleetOk, Legit, TokenKnown, StampKnown, LowestSeq, Confirm, Enqueue, PlaceHold, ReserveFire,
      AdoptFire, RecordFire, ClaimDeferred, ClaimSelfHeal, CoReviewWait, Transition, CompleteWait, DedupeRound,
      SetReviewers, ClearReviewers, Normalize, CoOnlyFailed, CoOnlyRecord, TriggerRecorded, ArchivedAt, ClearAll,
      ReleaseSlot, Supersede, EndRound, Prioritize, ClaimCoOnly, PostFailed, BudgetHold, Unhold, Dispatched,
      Replace, Repair, Cancel;
    assert w.log + [] == w.log;
    match a
    case DoTransition(pr, seen, tr, cfg, policyMoved, lagging, reviewed, now) =>
      TransitionKeeps(f, w, pr, seen, tr, cfg, policyMoved, lagging, reviewed, now);
    case DoCompleteWait(pr, head, holdUnacked, cfg, inflight, now) =>
      CompleteWaitKeeps(f, w, pr, head, holdUnacked, cfg, inflight, now);
    case DoDedupe(want, cfg, now) => DedupeRoundKeeps(f, w, want, cfg, now);
    case DoSetReviewers(repo, ov, open, now) => SetReviewersKeeps(f, w, repo, ov, open, now);
    case DoClearReviewers(repo, open, now) => ClearReviewersKeeps(f, w, repo, open, now);
  }

  /** Every modelled write of every worker keeps the invariant. Not among them: the
      writes that complete a round without a configuration, and those that touch only what
      no guard here reads. */
  lemma StepKeeps(f: Fleet, w: World, a: Action)
    requires Legal(f, w, a) && FleetOk(f) && Inv(f, w)
    ensures Inv(f, Step(f, w, a))
  {
    hide Inv, Legal, FleetOk, Step;
    if IsQueueStep(a) {
      QueueStepKeeps(f, w, a);
    } else if IsHoldStep(a) {
      HoldStepKeeps(f, w, a);
    } else if IsFireStep(a) {
      FireStepKeeps(f, w, a);
    } else if IsTriggerStep(a) {
      TriggerStepKeeps(f, w, a);
    } else {
      ProgressStepKeeps(f, w, a);
    }
  }
}
