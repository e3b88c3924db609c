/** What each compare-and-swap write of internal/crq does to the shared state. A
    write decides on the state it lands on; everything a worker brings to it (the
    round it observed, its token, its clock reading, its configuration) was sampled
    earlier and may be stale. Each function also says what the write did, as events. */
module Closures {
  import opened Text
  import opened Reviewers
  import opened ForRepo
  import opened Rounds
  import FireLog

  /** What never changes in a run: this fleet's configuration and the registry. */
  datatype Fleet = Fleet(base: Config, registry: seq<CoReviewer>)

  /** A resolved configuration and the override stamp it was resolved under. */
  datatype Cfg = Cfg(config: Config, overrideAt: Option<Time>)

  datatype Event =
    | TokenReserved(token: Token, birth: nat)
    | FireLogged(token: Token, birth: nat, at: Time)
    | Granted(birth: nat, login: string, at: Time)
    | Restamped(birth: nat, login: string, at: Time)
    | Commanded(birth: nat, login: string, id: int)
    | ClaimCleared(birth: nat, login: string)
    | Answered(birth: nat, config: Config)
    | Edited(repo: string, at: Time, config: Config)

  datatype Outcome = Outcome(next: State, events: seq<Event>)

  /** A round after a list of bookkeeping writes, and what they were. */
  datatype Noted = Noted(round: Round, events: seq<Event>)

  /** A trigger comment that was posted or seen. */
  datatype CoPost = CoPost(login: string, id: int, at: Time)

  function NoChange(s: State): Outcome { Outcome(s, []) }

  function CfgFor(f: Fleet, s: State, repo: string): Cfg {
    if repo in s.overrides then Cfg(Under(f.registry, f.base, s.overrides[repo].ov), Some(s.overrides[repo].at))
    else Cfg(f.base, None)
  }

  /** reviewersChanged: the override stamp is not the one the configuration has. */
  predicate ReviewersChanged(s: State, repo: string, cfg: Cfg) {
    (if repo in s.overrides then Some(s.overrides[repo].at) else None) != cfg.overrideAt
  }

  /** The live round is still the one this worker observed. */
  predicate Still(s: State, want: Round) { want.pr in s.rounds && SameRound(s.rounds[want.pr], want) }

  // ---- Lists of bookkeeping writes

  function Before(events: seq<Event>, noted: Noted): Noted { Noted(noted.round, events + noted.events) }

  /** Claim every login that has neither a command nor a live claim. */
  function ClaimFree(r: Round, logins: seq<string>, now: Time): Noted
    decreases |logins|
  {
    if logins == [] then Noted(r, [])
    else if CoOf(r, logins[0]).command != 0 || ClaimLive(CoOf(r, logins[0]), now) then ClaimFree(r, logins[1..], now)
    else Before([Granted(r.birth, Key(logins[0]), now)], ClaimFree(ClaimCo(r, logins[0], now), logins[1..], now))
  }

  /** Claim every login, whatever is there. */
  function ClaimAll(r: Round, logins: seq<string>, now: Time): Noted
    decreases |logins|
  {
    if logins == [] then Noted(r, [])
    else Before([Restamped(r.birth, Key(logins[0]), now)], ClaimAll(ClaimCo(r, logins[0], now), logins[1..], now))
  }

  /** Record each trigger comment whose login has no command yet and is not skipped. */
  function RecordAll(r: Round, posts: seq<CoPost>, skip: seq<string>): Noted
    decreases |posts|
  {
    if posts == [] then Noted(r, [])
    else if ContainsBot(skip, posts[0].login) || CoOf(r, posts[0].login).command != 0 then
      RecordAll(r, posts[1..], skip)
    else Before([Commanded(r.birth, Key(posts[0].login), posts[0].id)],
                RecordAll(SetCoCommand(r, posts[0].login, posts[0].id, posts[0].at), posts[1..], skip))
  }

  /** Adopt each trigger comment whose login has neither a command nor a live claim. */
  function AdoptAll(r: Round, posts: seq<CoPost>, now: Time): Noted
    decreases |posts|
  {
    if posts == [] then Noted(r, [])
    else if CoOf(r, posts[0].login).command != 0 || ClaimLive(CoOf(r, posts[0].login), now) then
      AdoptAll(r, posts[1..], now)
    else Before([Commanded(r.birth, Key(posts[0].login), posts[0].id)],
                AdoptAll(SetCoCommand(r, posts[0].login, posts[0].id, posts[0].at), posts[1..], now))
  }

  /** Clear claims on a round that has left the queue. */
  function ClearAll(r: Round, logins: seq<string>): Noted
    decreases |logins|
  {
    if logins == [] then Noted(r, [])
    else Before([ClaimCleared(r.birth, Key(logins[0]))], ClearAll(ClearCoClaim(r, logins[0]), logins[1..]))
  }

  // ---- The queue

  datatype Enqueued = NowQueued | AlreadyQueued | Deduped | Refused

  /** Enqueue, and one item of enqueueBatch. off: the repository is turned off. */
  function Enqueue(s: State, pr: PR, head: string, off: bool): Outcome {
    if pr in s.holds || off then NoChange(s)
    else if pr in s.rounds && s.rounds[pr].head == head then
      if s.rounds[pr].phase == Completed && s.rounds[pr].reviewersChanged then
        Outcome(Put(s, Reopen(s.rounds[pr]).value), [])
      else NoChange(s)
    else Outcome(Supersede(s, pr, head), [])
  }

  function EnqueueAnswer(s: State, pr: PR, head: string, off: bool): Enqueued {
    if pr in s.holds || off then Refused
    else if pr in s.rounds && s.rounds[pr].head == head then
      if s.rounds[pr].phase == Completed && s.rounds[pr].reviewersChanged then NowQueued
      else if s.rounds[pr].phase in {Fired, Reviewing, Completed, Expired} then Deduped
      else AlreadyQueued
    else NowQueued
  }

  /** low is the least Seq of the live rounds, or 0 when none is negative. */
  ghost predicate LowestSeq(s: State, low: int) {
    && low <= 0 && (low == 0 || exists pr :: pr in s.rounds && s.rounds[pr].order == low)
    && forall pr :: pr in s.rounds ==> low <= s.rounds[pr].order
  }

  /** MoveToFront. */
  function Prioritize(s: State, pr: PR, low: int): Outcome {
    if pr !in s.rounds || s.rounds[pr].phase !in {Queued, AwaitingRetry} then NoChange(s)
    else Outcome(Put(s, s.rounds[pr].(order := low - 1)), [])
  }

  function SupersedeRound(s: State, want: Round, head: string): Outcome {
    if Still(s, want) then Outcome(Supersede(s, want.pr, head), []) else NoChange(s)
  }

  function AbandonRound(s: State, want: Round): Outcome {
    if Still(s, want) then Outcome(ReleaseSlot(EndRound(s, want.pr), want.pr, want.token), []) else NoChange(s)
  }

  function Cancel(s: State, pr: PR): Outcome {
    if pr !in s.rounds then NoChange(s)
    else Outcome(ReleaseSlot(EndRound(s, pr), pr, s.rounds[pr].token), [])
  }

  /** queueConfirmation: the round it observed still stands, or there is still none. */
  predicate Confirmable(s: State, want: Round, known: bool, cfg: Cfg) {
    && (want.pr in s.rounds) == known
    && (known ==> SameRound(s.rounds[want.pr], want) && s.rounds[want.pr].confirmationAfter.None?)
    && !ReviewersChanged(s, want.pr.repo, cfg) && want.pr !in s.holds
    && (s.slot.Some? && s.slot.value.pr == want.pr ==>
          known && s.slot.value.token == s.rounds[want.pr].token && s.rounds[want.pr].phase in {Fired, Reviewing})
  }

  /** One more pass over the same head, on a fresh round. */
  function Confirmed(s: State, pr: PR, head: string, now: Time): State {
    var mine := pr in s.rounds && s.slot.Some? && s.slot.value.pr == pr;
    var freed := if mine then ReleaseSlot(s, pr, s.rounds[pr].token) else s;
    var next := Supersede(freed, pr, head);
    Put(next, next.rounds[pr].(confirmationAfter := Some(now), lastAttemptAt := Some(now)))
  }

  function Confirm(s: State, want: Round, known: bool, cfg: Cfg, now: Time): Outcome {
    if Confirmable(s, want, known, cfg) then Outcome(Confirmed(s, want.pr, want.head, now), []) else NoChange(s)
  }

  /** What a fix session's claim does to a round, and letting go of it: it hides a waiting
      round from the queue and shows it again, in whatever way; on any other it only
      changes who works on it. */
  function Dispatched(s: State, pr: PR, phase: Phase, dispatch: Option<Dispatch>, retryAt: Option<Time>,
                      dispatchRetryAt: Option<Time>): Outcome {
    if pr !in s.rounds then NoChange(s)
    else if s.rounds[pr].phase in {Queued, AwaitingRetry} && phase in {Queued, AwaitingRetry} then
      Outcome(Put(s, s.rounds[pr].(phase := phase, dispatch := dispatch, retryAt := retryAt,
                                   dispatchRetryAt := dispatchRetryAt)), [])
    else
      Outcome(Put(s, s.rounds[pr].(dispatch := dispatch, dispatchRetryAt := dispatchRetryAt)), [])
  }

  /** A dismissal or a fix session's claim at a head the queue is not tracking: neither asks
      for a hold. What else they ask only makes the write rarer. */
  function Replace(s: State, pr: PR, head: string): Outcome {
    if pr in s.rounds && s.rounds[pr].head == head then NoChange(s) else Outcome(Supersede(s, pr, head), [])
  }

  /** The repair of a completed round whose head nobody reviewed; it leaves the slot. */
  function Repair(s: State, pr: PR, head: string): Outcome {
    if pr in s.rounds && s.rounds[pr].head == head && s.rounds[pr].phase == Completed then Outcome(EndRound(s, pr), [])
    else NoChange(s)
  }

  // ---- Holds

  /** A session that owns the dispatch claim of a round. */
  datatype Owner = Owner(head: string, token: Token)

  /** hold and holdDispatch. led: a live leader understands holds. */
  ghost predicate Holdable(s: State, pr: PR, owner: Option<Owner>, led: bool, now: Time) {
    && (owner.Some? ==>
          pr in s.rounds && s.rounds[pr].head == owner.value.head && s.rounds[pr].dispatch.Some?
          && s.rounds[pr].dispatch.value.token == owner.value.token && DispatchHeld(s.rounds[pr], now))
    && led && (pr in s.rounds ==> !TriggerPostClaimed(s.rounds[pr]))
  }

  ghost function PlaceHold(s: State, pr: PR, owner: Option<Owner>, led: bool, now: Time): Outcome {
    if Holdable(s, pr, owner, led, now) then Outcome(s.(holds := s.holds[pr := Manual]), []) else NoChange(s)
  }

  /** The review budget's hold. spent: the budget is still spent when the write lands. */
  predicate BudgetHoldable(s: State, want: Round, spent: bool) {
    Still(s, want) && spent && want.pr !in s.holds
  }

  function BudgetHold(s: State, want: Round, spent: bool): Outcome {
    if BudgetHoldable(s, want, spent) then Outcome(s.(holds := s.holds[want.pr := Budget]), []) else NoChange(s)
  }

  function Unhold(s: State, pr: PR): Outcome { Outcome(s.(holds := s.holds - {pr}), []) }

  // ---- Firing the primary

  /** The slot is free, the observed round still stands and may fire, and its reviewers
      are those it was decided under. */
  predicate MayFire(s: State, want: Round, cfg: Cfg, now: Time) {
    && !SlotHeld(s, now) && Still(s, want) && Firable(s, s.rounds[want.pr], now)
    && !ReviewersChanged(s, want.pr.repo, cfg)
  }

  /** fireRound: reserve the slot before posting. */
  function ReserveFire(s: State, want: Round, token: Token, cfg: Cfg, now: Time): Outcome {
    if !MayFire(s, want, cfg, now) then NoChange(s)
    else
      var r := Reserve(s.rounds[want.pr], token, now).value;
      Outcome(Put(s, r).(slot := Some(Slot(want.pr, token, now, None))), [TokenReserved(token, r.birth)])
  }

  /** fireRound: adopt a command already on the pull request, in one write. posts are
      claimed; seen are the live trigger comments of the other co-reviewers. */
  function AdoptFire(s: State, want: Round, token: Token, cfg: Cfg, command: int, firedAt: Time, deadline: Time,
                     posts: seq<string>, seen: seq<CoPost>, now: Time): Outcome {
    if !MayFire(s, want, cfg, now) then NoChange(s)
    else
      var fired := Fire(Reserve(s.rounds[want.pr], token, now).value, command, firedAt).value
                   .(waitDeadline := Some(deadline));
      var claimed := ClaimAll(fired, posts, now);
      var done := RecordAll(claimed.round, seen, posts);
      Outcome(Put(s, done.round).(slot := Some(Slot(want.pr, token, now, None)), lastFired := Some(firedAt),
                                  fires := FireLog.NoteFire(s.fires, firedAt)),
              [TokenReserved(token, fired.birth), FireLogged(token, fired.birth,
                                                             firedAt)] + claimed.events + done.events)
  }


  /** fireRound: the command could not be posted. */
  function PostFailed(s: State, pr: PR, token: Token, now: Time): Outcome {
    if pr !in s.rounds || s.rounds[pr].token != token || AwaitRetry(s.rounds[pr], now + BACKOFF, now).None? then
      NoChange(s)
    else Outcome(Put(ReleaseSlot(s, pr, token), AwaitRetry(s.rounds[pr], now + BACKOFF, now).value), [])
  }

  const BACKOFF: Time := 120 * SECOND

  /** The observed round and the slot still hold the worker's token, and can be fired. */
  predicate MayRecord(s: State, want: Round, token: Token) {
    && Still(s, want) && s.slot.Some? && s.slot.value.token == token && s.rounds[want.pr].token == token
    && s.rounds[want.pr].phase in {Phase.Reserved, Queued}
  }

  /** recordFire. */
  function RecordFire(s: State, want: Round, token: Token, command: int, posts: seq<CoPost>, firedAt: Time,
                      deadline: Time): Outcome {
    if !MayRecord(s, want, token) then NoChange(s)
    else
      var fired := Fire(s.rounds[want.pr], command, firedAt).value.(waitDeadline := Some(deadline));
      var done := RecordAll(fired, posts, []);
      Outcome(Put(s, done.round).(lastFired := Some(firedAt), fires := FireLog.NoteFire(s.fires, firedAt)),
              [FireLogged(token, fired.birth, firedAt)] + done.events)
  }

  // ---- Co-reviewer triggers

  /** The observed round still stands and may fire, under the reviewers it was decided for. */
  predicate MayClaim(s: State, want: Round, cfg: Cfg, now: Time) {
    Still(s, want) && Firable(s, s.rounds[want.pr], now) && !ReviewersChanged(s, want.pr.repo, cfg)
  }

  /** fireCoOnly: the claims that authorize its posts. */
  function ClaimCoOnly(s: State, want: Round, logins: seq<string>, cfg: Cfg, now: Time): Outcome {
    if !MayClaim(s, want, cfg, now) then NoChange(s)
    else
      var done := ClaimFree(s.rounds[want.pr], logins, now);
      if done.events == [] then NoChange(s) else Outcome(Put(s, done.round), done.events)
  }

  /** fireCoOnly: every post failed. */
  function CoOnlyFailed(s: State, want: Round, claimed: seq<string>, token: Token, now: Time): Outcome {
    if !Still(s, want) then ClearArchived(s, want, claimed)
    else
      var live := s.rounds[want.pr];
      var r := if FireEligible(live, now) then Reserve(live, token, now).value else live;
      if AwaitRetry(r, now + BACKOFF, now).None? then NoChange(s)
      else Outcome(Put(s, AwaitRetry(r, now + BACKOFF, now).value), [])
  }

  /** Bookkeeping on an archived round. */
  function Refile(s: State, i: nat, done: Noted): Outcome
    requires i < |s.archive|
  {
    Outcome(s.(archive := s.archive[i := done.round]), done.events)
  }

  function ClearArchived(s: State, want: Round, claimed: seq<string>): Outcome {
    match ArchivedAt(s.archive, want)
    case None => NoChange(s)
    case Some(i) => Refile(s, i, ClearAll(s.archive[i], claimed))
  }

  /** Clear the claims of a round, then record its posts. */
  function ClearThenRecord(r: Round, claimed: seq<string>, posts: seq<CoPost>): Noted {
    var cleared := ClearAll(r, claimed);
    Before(cleared.events, RecordAll(cleared.round, posts, []))
  }

  /** fireCoOnly: record the posts, the first as the round's command. */
  function CoOnlyRecord(s: State, want: Round, claimed: seq<string>, posts: seq<CoPost>, token: Token, deadline: Time,
                        now: Time): Outcome
    requires posts != []
  {
    if !Still(s, want) then
      match ArchivedAt(s.archive, want)
      case None => NoChange(s)
      case Some(i) => Refile(s, i, ClearThenRecord(s.archive[i], claimed, posts))
    else
      var r := s.rounds[want.pr];
      var fired := if !FireEligible(r, now) then r
                   else Fire(Reserve(r, token, now).value, posts[0].id, posts[0].at).value
                        .(token := 0, waitDeadline := Some(deadline));
      var done := RecordAll(fired, posts, []);
      Outcome(Put(s, done.round), done.events)
  }

  /** fireCoDeferred: adopt and claim while the primary waits. */
  function ClaimDeferred(s: State, want: Round, adopts: seq<CoPost>, logins: seq<string>, cfg: Cfg,
                         now: Time): Outcome {
    if !Still(s, want) || s.rounds[want.pr].phase !in {Queued, AwaitingRetry} || ReviewersChanged(s, want.pr.repo, cfg)
       || want.pr in s.holds then NoChange(s)
    else
      var adopted := AdoptAll(s.rounds[want.pr], adopts, now);
      var done := ClaimFree(adopted.round, logins, now);
      if adopted.events + done.events == [] then NoChange(s)
      else Outcome(Put(s, done.round), adopted.events + done.events)
  }

  /** The command is the one the worker judged, nothing holds the pull request, and no
      claim for the bot is live. */
  predicate MayHeal(s: State, want: Round, login: string, cfg: Cfg, now: Time) {
    && Still(s, want) && CoOf(s.rounds[want.pr], login).command == CoOf(want, login).command
    && !ReviewersChanged(s, want.pr.repo, cfg) && want.pr !in s.holds && !ClaimLive(CoOf(s.rounds[want.pr], login), now)
  }

  /** selfHealCoReviewers: claim one re-post. */
  function ClaimSelfHeal(s: State, want: Round, login: string, cfg: Cfg, now: Time): Outcome {
    if !MayHeal(s, want, login, cfg, now) then NoChange(s)
    else
      var r := s.rounds[want.pr];
      Outcome(Put(s, ClaimCo(r, login, now)), [Granted(r.birth, Key(login), now)])
  }

  /** fireCoTrigger: the post failed; only an archived round's claim is cleared. */
  function TriggerFailed(s: State, want: Round, login: string): Outcome {
    if Still(s, want) then NoChange(s) else ClearArchived(s, want, [login])
  }

  /** fireCoTrigger: what a returned post does to a round: it records its command when
      the one it was decided against still stands, and otherwise only lets go. */
  function TriggerNoted(r: Round, want: Round, login: string, id: int, at: Time): Noted {
    if CoOf(r, login).command == CoOf(want, login).command then
      Noted(SetCoCommand(r, login, id, at), [Commanded(r.birth, Key(login), id)])
    else Noted(ClearCoClaim(r, login), [ClaimCleared(r.birth, Key(login))])
  }

  /** fireCoTrigger: the post returned a comment. */
  function TriggerRecorded(s: State, want: Round, login: string, id: int, at: Time): Outcome {
    if Still(s, want) then
      var done := TriggerNoted(s.rounds[want.pr], want, login, id, at);
      Outcome(Put(s, done.round), done.events)
    else
      match ArchivedAt(s.archive, want)
      case None => NoChange(s)
      case Some(i) => Refile(s, i, TriggerNoted(s.archive[i], want, login, id, at))
  }

  predicate MayWait(s: State, want: Round, now: Time) { Still(s, want) && Firable(s, s.rounds[want.pr], now) }

  /** fireCoReviewWait: park a queued round until its co-reviewers answer. */
  function CoReviewWait(s: State, want: Round, adopts: seq<CoPost>, deadline: Time, anchor: Time, now: Time): Outcome {
    if !MayWait(s, want, now) then NoChange(s)
    else
      var done := RecordAll(AwaitCoReview(s.rounds[want.pr], deadline, anchor).value, adopts, []);
      Outcome(Put(s, done.round), done.events)
  }

  // ---- Progress and completion

  datatype Progress = ToComplete | ToExpire | ToReviewing | ToRetry(retryAt: Time) | ToRelease | ToAbandon

  /** The round transition an outcome asks for; None where it ends the round. */
  function Progressed(r: Round, tr: Progress, now: Time): Option<Round> {
    match tr
    case ToComplete => Complete(r)
    case ToExpire => Expire(r)
    case ToReviewing => Acknowledge(r)
    case ToRetry(retryAt) => AwaitRetry(r, retryAt, now)
    case ToRelease => ReleaseToQueue(r, now)
    case ToAbandon => None
  }

  predicate StampsMatter(tr: Progress) { !tr.ToReviewing? && !tr.ToAbandon? }

  /** What a worker finds its round again by: the slot's token, or the round it read. */
  datatype Seen = BySlot(token: Token) | ByRound(want: Round)

  /** Some round is live, and it passes for the one the worker saw. */
  predicate Passes(s: State, pr: PR, seen: Seen) {
    pr in s.rounds && match seen
      case BySlot(token) => s.slot.Some? && s.slot.value.token == token
      case ByRound(want) => SameRound(s.rounds[pr], want) && s.rounds[pr].phase in {Fired, Reviewing}
  }

  /** applyTransition. policyMoved: a setting a retry was decided from changed; lagging: an
      older writer is about; reviewed: the repository is still turned on. */
  function Applied(s: State, pr: PR, tr: Progress, cfg: Cfg, policyMoved: bool, lagging: bool, reviewed: bool,
                   now: Time): Outcome
    requires pr in s.rounds
  {
    if (StampsMatter(tr) && ReviewersChanged(s, pr.repo, cfg)) || (tr.ToRetry? && policyMoved)
       || (tr.ToExpire? && lagging)
    then NoChange(s)
    else
      var r := s.rounds[pr];
      if tr.ToAbandon? || (tr.ToRetry? && !reviewed) then Outcome(ReleaseSlot(EndRound(s, pr), pr, r.token), [])
      else match Progressed(r, tr, now)
        case None => NoChange(s)
        case Some(next) =>
          Outcome(ReleaseSlot(Put(s, next), pr, r.token),
                  if tr.ToComplete? then [Answered(r.birth, cfg.config)] else [])
  }

  /** The write of either caller of applyTransition, under its guard. */
  function Transition(s: State, pr: PR, seen: Seen, tr: Progress, cfg: Cfg, policyMoved: bool, lagging: bool,
                      reviewed: bool, now: Time): Outcome {
    if Passes(s, pr, seen) then Applied(s, pr, tr, cfg, policyMoved, lagging, reviewed, now) else NoChange(s)
  }

  /** The slot is as it was, or it was this round's and is free; it is not this round's now. */
  predicate SlotLetGo(s: State, next: State, pr: PR, token: Token) {
    && (next.slot == s.slot
        || (s.slot.Some? && s.slot.value.pr == pr && s.slot.value.token == token && next.slot.None?))
    && !(next.slot.Some? && next.slot.value.pr == pr && next.slot.value.token == token)
  }

  /** The round left the queue for the end of the archive, and the slot it held is free. */
  predicate Left(s: State, next: State, pr: PR)
    requires pr in s.rounds
  {
    && next.rounds == s.rounds - {pr} && SlotLetGo(s, next, pr, s.rounds[pr].token)
    && 0 < |next.archive| && next.archive[|next.archive| - 1] == s.rounds[pr].(phase := Abandoned, token := 0)
  }

  /** Completing: a fired or reviewing round, under the reviewers it was decided for. */
  lemma CompletesExactly(s: State, pr: PR, cfg: Cfg, policyMoved: bool, lagging: bool, reviewed: bool, now: Time)
    requires pr in s.rounds && s.rounds[pr].pr == pr
    ensures var r, next := s.rounds[pr], Applied(s, pr, ToComplete, cfg, policyMoved, lagging, reviewed, now).next;
      if r.phase in {Fired, Reviewing} && !ReviewersChanged(s, pr.repo, cfg) then
        next.rounds == s.rounds[pr := r.(phase := Completed)] && SlotLetGo(s, next, pr, r.token)
      else next == s
  {
    hide ReviewersChanged;
  }

  /** Expiring: a reviewing round, under the reviewers it was decided for, with no older writer about. */
  lemma ExpiresExactly(s: State, pr: PR, cfg: Cfg, policyMoved: bool, lagging: bool, reviewed: bool, now: Time)
    requires pr in s.rounds && s.rounds[pr].pr == pr
    ensures var r, next := s.rounds[pr], Applied(s, pr, ToExpire, cfg, policyMoved, lagging, reviewed, now).next;
      if r.phase == Reviewing && !ReviewersChanged(s, pr.repo, cfg) && !lagging then
        && next.rounds == s.rounds[pr := r.(phase := Expired, token := 0, reservedAt := None)]
        && SlotLetGo(s, next, pr, r.token)
      else next == s
  {
    hide ReviewersChanged;
  }

  /** An acknowledgement lands under whatever reviewers. */
  lemma AcknowledgesExactly(s: State, pr: PR, cfg: Cfg, policyMoved: bool, lagging: bool, reviewed: bool, now: Time)
    requires pr in s.rounds && s.rounds[pr].pr == pr
    ensures var r, next := s.rounds[pr], Applied(s, pr, ToReviewing, cfg, policyMoved, lagging, reviewed, now).next;
      if r.phase in {Fired, Reviewing} then
        next.rounds == s.rounds[pr := r.(phase := Reviewing)] && SlotLetGo(s, next, pr, r.token)
      else next == s
  {
    hide ReviewersChanged;
  }

  /** A retry waits out its time, before which the round cannot fire; in a repository turned off
      it ends the round instead. */
  lemma RetriesExactly(s: State, pr: PR, retryAt: Time, cfg: Cfg, policyMoved: bool, lagging: bool, reviewed: bool,
                       now: Time)
    requires pr in s.rounds && s.rounds[pr].pr == pr
    ensures var r := s.rounds[pr];
      var next := Applied(s, pr, ToRetry(retryAt), cfg, policyMoved, lagging, reviewed, now).next;
      if ReviewersChanged(s, pr.repo, cfg) || policyMoved then next == s
      else if !reviewed then Left(s, next, pr)
      else if r.phase in {Phase.Reserved, Fired, Reviewing} then
        && next.rounds == s.rounds[pr := r.(phase := AwaitingRetry, retryAt := Some(retryAt),
                                            lastAttemptAt := Some(now), token := 0, reservedAt := None)]
        && SlotLetGo(s, next, pr, r.token) && forall t :: t < retryAt ==> !FireEligible(next.rounds[pr], t)
      else next == s
  {
    hide ReviewersChanged;
  }

  /** A reservation that was not used goes back to the queue, and counts as an attempt. */
  lemma ReleasesExactly(s: State, pr: PR, cfg: Cfg, policyMoved: bool, lagging: bool, reviewed: bool, now: Time)
    requires pr in s.rounds && s.rounds[pr].pr == pr
    ensures var r, next := s.rounds[pr], Applied(s, pr, ToRelease, cfg, policyMoved, lagging, reviewed, now).next;
      if r.phase == Phase.Reserved && !ReviewersChanged(s, pr.repo, cfg) then
        && next.rounds == s.rounds[pr := r.(phase := Queued, token := 0, reservedAt := None,
                                            attempts := r.attempts + 1, lastAttemptAt := Some(now))]
        && SlotLetGo(s, next, pr, r.token)
      else next == s
  {
    hide ReviewersChanged;
  }

  /** An abandonment lands under whatever reviewers. */
  lemma AbandonsExactly(s: State, pr: PR, cfg: Cfg, policyMoved: bool, lagging: bool, reviewed: bool, now: Time)
    requires pr in s.rounds && s.rounds[pr].pr == pr
    ensures var r, next := s.rounds[pr], Applied(s, pr, ToAbandon, cfg, policyMoved, lagging, reviewed, now).next;
      Left(s, next, pr)
  {
    hide ReviewersChanged;
  }

  /** completeWaitRound, with a configuration. */
  function CompleteWait(s: State, pr: PR, head: string, holdUnacked: bool, cfg: Cfg, inflight: Time,
                        now: Time): Outcome {
    if pr !in s.rounds || s.rounds[pr].phase !in {Fired, Reviewing} || (head != "" && s.rounds[pr].head != head)
       || ReviewersChanged(s, pr.repo, cfg) then NoChange(s)
    else
      var r := s.rounds[pr];
      if holdUnacked && s.slot.Some? && s.slot.value.pr == pr then
        if r.firedAt.Some? && r.firedAt.value + inflight > now
           && (s.slot.value.holdUntil.None? || s.slot.value.holdUntil.value < r.firedAt.value + inflight) then
          Outcome(HoldSlotUntil(s, r.firedAt.value + inflight), [])
        else NoChange(s)
      else Outcome(Put(ReleaseSlot(s, pr, r.token), Complete(r).value), [Answered(r.birth, cfg.config)])
  }

  /** The end of a wait: it concerns a fired or reviewing round, at the waiter's head when it
      names one, under the reviewers it was decided for. While the slot is still this pull
      request's and an answer is owed, the slot is held for exactly the rest of the in-flight
      window, never shorter than it was; otherwise the round is completed. */
  lemma WaitEndsExactly(s: State, pr: PR, head: string, holdUnacked: bool, cfg: Cfg, inflight: Time, now: Time)
    requires pr in s.rounds ==> s.rounds[pr].pr == pr
    ensures var next := CompleteWait(s, pr, head, holdUnacked, cfg, inflight, now).next;
      if pr !in s.rounds || s.rounds[pr].phase !in {Fired, Reviewing} || ReviewersChanged(s, pr.repo, cfg)
         || (head != "" && s.rounds[pr].head != head) then next == s
      else if holdUnacked && s.slot.Some? && s.slot.value.pr == pr then
        var at, until := s.rounds[pr].firedAt, s.slot.value.holdUntil;
        if at.Some? && now < at.value + inflight && (until.Some? ==> until.value < at.value + inflight) then
          && next.rounds == s.rounds && next.slot == Some(s.slot.value.(holdUntil := Some(at.value + inflight)))
          && forall t :: t < at.value + inflight ==> SlotHeld(next, t)
        else next == s
      else
        && next.rounds == s.rounds[pr := s.rounds[pr].(phase := Completed)]
        && SlotLetGo(s, next, pr, s.rounds[pr].token)
  {
    hide ReviewersChanged;
  }

  /** dedupeRound. */
  function DedupeRound(s: State, want: Round, cfg: Cfg, now: Time): Outcome {
    if !MayClaim(s, want, cfg, now) then NoChange(s)
    else
      var r := s.rounds[want.pr];
      Outcome(Put(s, Dedupe(r, now).value), [Answered(r.birth, cfg.config)])
  }

  // ---- Changing the reviewers

  /** reopenForChangedReviewers, on one round of the repository. */
  function Reopened(r: Round, open: bool): Round {
    if r.phase != Completed then r
    else if !open then r.(reviewersChanged := true)
    else Reopen(r).value
  }

  function ReopenedIn(rounds: map<PR, Round>, repo: string, open: set<nat>): map<PR, Round> {
    map pr | pr in rounds :: if pr.repo == repo then Reopened(rounds[pr], pr.number in open) else rounds[pr]
  }

  ghost function ReopenedRounds(rounds: map<PR, Round>, repo: string, before: Config, after: Config,
                                open: set<nat>): map<PR, Round> {
    if SameReviewers(before, after) || !Added(before, after) then rounds else ReopenedIn(rounds, repo, open)
  }

  /** The edit asks for something other than what is recorded. */
  ghost predicate EditChanges(was: Override, now: Override) {
    || now.setCoBots != was.setCoBots || now.setRequired != was.setRequired || now.primaryOff != was.primaryOff
    || !SameLogins(now.coBots, was.coBots) || !SameLogins(now.required, was.required)
  }

  const NO_OVERRIDE := Override(false, [], false, [], false)

  function OverrideOf(s: State, repo: string): Override {
    if repo in s.overrides then s.overrides[repo].ov else NO_OVERRIDE
  }

  /** SetReviewersAt. */
  ghost function SetReviewers(f: Fleet, s: State, repo: string, ov: Override, open: set<nat>, now: Time): Outcome {
    var before, after := CfgFor(f, s, repo).config, Under(f.registry, f.base, ov);
    if after.requiredBots == [] || !EditChanges(OverrideOf(s, repo), ov) || ClaimedTriggerRepo(s, repo, now) then
      NoChange(s)
    else if Inherits(ov) then
      Outcome(s.(overrides := s.overrides - {repo}, rounds := ReopenedRounds(s.rounds, repo, before, after, open)), [])
    else
      Outcome(s.(overrides := s.overrides[repo := Stamped(ov, now)],
                 rounds := ReopenedRounds(s.rounds, repo, before, after, open)),
              [Edited(repo, now, after)])
  }

  /** ClearReviewersAt. */
  ghost function ClearReviewers(f: Fleet, s: State, repo: string, open: set<nat>, now: Time): Outcome {
    if repo !in s.overrides || ClaimedTriggerRepo(s, repo, now) then NoChange(s)
    else
      Outcome(s.(overrides := s.overrides - {repo},
                 rounds := ReopenedRounds(s.rounds, repo, CfgFor(f, s, repo).config, f.base, open)), [])
  }
}
