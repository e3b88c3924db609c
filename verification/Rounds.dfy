/** The review rounds every worker shares, and their transitions
    (internal/state/state.go). Times are nanoseconds. */
module Rounds {
  import opened Text
  import Reviewers
  import ForRepo
  import FireLog

  type Time = int
  /** A reservation token; 0 is the empty string. */
  type Token = nat

  const SECOND: Time := 1_000_000_000
  const DISPATCH_TTL: Time := 600 * SECOND
  const TRIGGER_CLAIM_TTL: Time := 120 * SECOND
  const ARCHIVE_MAX := 50

  datatype PR = PR(repo: string, number: nat)

  datatype Phase = Queued | Reserved | Fired | Reviewing | AwaitingRetry | Completed | Expired | Abandoned

  /** A co-reviewer's bookkeeping inside a round; command 0 means none. */
  datatype Co = Co(command: int, commandedAt: Option<Time>, claimedAt: Option<Time>)

  const NO_CO := Co(0, None, None)

  datatype Dispatch = Dispatch(token: Token, heartbeat: Time)

  /** One review cycle for a pull request at one head. order is its Seq. birth
      is the Seq it was created with: the source does not store that, and nothing here
      decides by it; it names the round when its Seq is reused. */
  datatype Round = Round(
    pr: PR, head: string, order: int, birth: nat, phase: Phase, command: int,
    firedAt: Option<Time>, reservedAt: Option<Time>, attempts: nat,
    retryAt: Option<Time>, lastAttemptAt: Option<Time>, waitDeadline: Option<Time>,
    dispatch: Option<Dispatch>, dispatchRetryAt: Option<Time>,
    cos: map<string, Co>, reviewersChanged: bool,
    confirmationAfter: Option<Time>, token: Token)

  // ---- Co-reviewer bookkeeping, keyed by login without "[bot]"

  function CoAt(r: Round, key: string): Co {
    if key in r.cos then r.cos[key] else NO_CO
  }

  function CoOf(r: Round, login: string): Co { CoAt(r, Reviewers.Key(login)) }

  function SetCo(r: Round, login: string, co: Co): (next: Round)
    ensures next.(cos := r.cos) == r
    ensures forall key :: CoAt(next, key) == if key == Reviewers.Key(login) then co else CoAt(r, key)
  {
    if co == NO_CO then r.(cos := r.cos - {Reviewers.Key(login)}) else r.(cos := r.cos[Reviewers.Key(login) := co])
  }

  function SetCoCommand(r: Round, login: string, command: int, at: Time): Round {
    SetCo(r, login, Co(command, Some(at), None))
  }

  function ClaimCo(r: Round, login: string, now: Time): Round {
    SetCo(r, login, CoOf(r, login).(claimedAt := Some(now)))
  }

  function ClearCoClaim(r: Round, login: string): Round {
    SetCo(r, login, CoOf(r, login).(claimedAt := None))
  }

  /** A claim whose poster may still be inside its network call. */
  predicate ClaimLive(co: Co, now: Time) {
    co.claimedAt.Some? && now - co.claimedAt.value < TRIGGER_CLAIM_TTL
  }

  // ---- Transitions; None is the illegal edge

  predicate DispatchHeld(r: Round, now: Time) {
    r.dispatch.Some? && now - r.dispatch.value.heartbeat < DISPATCH_TTL
  }

  predicate RetryEligible(r: Round, now: Time) {
    r.phase == AwaitingRetry && r.retryAt.Some? && now >= r.retryAt.value
    && (r.dispatchRetryAt.None? || now >= r.dispatchRetryAt.value)
  }

  predicate FireEligible(r: Round, now: Time) {
    !DispatchHeld(r, now) && (r.phase == Queued || RetryEligible(r, now))
  }

  function Reserve(r: Round, token: Token, now: Time): Option<Round> {
    if r.phase != Queued && !RetryEligible(r, now) then None
    else Some(r.(phase := Reserved, token := token, reservedAt := Some(now)))
  }

  function Fire(r: Round, command: int, at: Time): Option<Round> {
    if r.phase != Reserved && r.phase != Queued then None
    else Some(r.(phase := Fired, command := command, firedAt := Some(at), attempts := r.attempts + 1))
  }


  function ReleaseToQueue(r: Round, now: Time): Option<Round> {
    if r.phase != Reserved then None
    else Some(r.(phase := Queued, token := 0, reservedAt := None, attempts := r.attempts + 1,
                 lastAttemptAt := Some(now)))
  }

  function Reopen(r: Round): Option<Round> {
    if r.phase != Completed then None
    else Some(r.(phase := Queued, token := 0, reservedAt := None, waitDeadline := None, retryAt := None,
                 reviewersChanged := false))
  }

  function Acknowledge(r: Round): Option<Round> {
    if r.phase == Reviewing then Some(r)
    else if r.phase != Fired then None
    else Some(r.(phase := Reviewing))
  }

  function AwaitRetry(r: Round, retryAt: Time, now: Time): Option<Round> {
    if r.phase !in {Fired, Reviewing, Reserved} then None
    else Some(r.(phase := AwaitingRetry, retryAt := Some(retryAt), lastAttemptAt := Some(now), token := 0,
                 reservedAt := None))
  }

  function AwaitCoReview(r: Round, deadline: Time, anchor: Time): Option<Round> {
    if r.phase !in {Queued, AwaitingRetry, Fired, Reviewing} then None
    else Some(r.(phase := Reviewing, waitDeadline := Some(deadline),
                 firedAt := if r.firedAt.None? then Some(anchor) else r.firedAt, token := 0, reservedAt := None))
  }

  function Complete(r: Round): Option<Round> {
    if r.phase != Fired && r.phase != Reviewing then None else Some(r.(phase := Completed))
  }

  function Expire(r: Round): Option<Round> {
    if r.phase != Reviewing then None else Some(r.(phase := Expired, token := 0, reservedAt := None))
  }

  function Dedupe(r: Round, now: Time): Option<Round> {
    if r.phase != Queued && r.phase != Reserved && !RetryEligible(r, now) then None
    else Some(r.(phase := Completed, token := 0, reservedAt := None))
  }

  function Abandon(r: Round): Round { r.(phase := Abandoned, token := 0) }

  /** triggerPostClaimed: a reservation, or a claim whose command is not recorded. */
  ghost predicate TriggerPostClaimed(r: Round) {
    r.phase == Reserved || exists key :: key in r.cos && r.cos[key].claimedAt.Some?
  }

  /** sameRound: the stored round is still the one a worker observed, by Seq and head. */
  predicate SameRound(r: Round, want: Round) { r.order == want.order && r.head == want.head }

  // ---- The shared state

  /** The single global reservation. */
  datatype Slot = Slot(pr: PR, token: Token, since: Time, holdUntil: Option<Time>)

  /** A hold an operator or an agent placed, or the review budget's own. */
  datatype Hold = Manual | Budget

  /** A repository's reviewer override and when it was written. */
  datatype Stamped = Stamped(ov: ForRepo.Override, at: Time)

  datatype State = State(
    rounds: map<PR, Round>, archive: seq<Round>, slot: Option<Slot>,
    slotHoldUntil: Option<Time>, slotHoldLastFired: Option<Time>, lastFired: Option<Time>,
    holds: map<PR, Hold>, overrides: map<string, Stamped>, fires: seq<Time>, nextSeq: nat)

  function Put(s: State, r: Round): State { s.(rounds := s.rounds[r.pr := r]) }

  function Filed(archive: seq<Round>, r: Round): (filed: seq<Round>)
    ensures |filed| <= ARCHIVE_MAX || |filed| == |archive|
  {
    var all := archive + [r];
    if |all| > ARCHIVE_MAX then all[|all| - ARCHIVE_MAX..] else all
  }

  function EndRound(s: State, pr: PR): (next: State)
    ensures next.holds == s.holds && next.overrides == s.overrides
  {
    if pr !in s.rounds then s
    else s.(rounds := s.rounds - {pr}, archive := Filed(s.archive, Abandon(s.rounds[pr])))
  }

  function Fresh(pr: PR, head: string, order: nat): Round {
    Round(pr, head, order, order, Queued, 0, None, None, 0, None, None, None, None, None, map[], false, None, 0)
  }

  function NewRound(s: State, pr: PR, head: string): State
    requires pr !in s.rounds
  {
    Put(s, Fresh(pr, head, s.nextSeq + 1)).(nextSeq := s.nextSeq + 1)
  }

  function Supersede(s: State, pr: PR, head: string): (next: State)
    ensures next.holds == s.holds && next.overrides == s.overrides
  {
    NewRound(EndRound(s, pr), pr, head)
  }

  // ---- The fire slot

  /** The round holding the slot, when it still does. */
  predicate SlotRound(s: State) {
    s.slot.Some? && s.slot.value.pr in s.rounds
    && s.rounds[s.slot.value.pr].phase in {Reserved, Fired}
    && s.rounds[s.slot.value.pr].token == s.slot.value.token
  }

  predicate SlotHeld(s: State, now: Time) {
    || SlotRound(s)
    || (s.slotHoldUntil.Some? && s.slotHoldUntil.value > now)
    || (s.slot.Some? && s.slot.value.holdUntil.Some? && s.slot.value.holdUntil.value > now)
  }

  function ClearSlotHold(s: State): (next: State)
    ensures next.holds == s.holds && next.overrides == s.overrides
  {
    s.(lastFired := if s.slotHoldUntil.Some? && s.lastFired == s.slotHoldUntil then s.slotHoldLastFired
                    else s.lastFired,
       slotHoldUntil := None, slotHoldLastFired := None)
  }

  /** releaseSlot: only the claim stored under this key and token. */
  function ReleaseSlot(s: State, pr: PR, token: Token): (next: State)
    ensures next.holds == s.holds && next.overrides == s.overrides
  {
    if s.slot.Some? && s.slot.value.pr == pr && s.slot.value.token == token then
      ClearSlotHold(s.(slot := None))
    else s
  }

  function HoldSlotUntil(s: State, until: Time): (next: State)
    ensures next.holds == s.holds && next.overrides == s.overrides
  {
    if s.slot.None? then s
    else
      s.(slot := Some(s.slot.value.(holdUntil := Some(until))),
         slotHoldUntil := Some(until),
         slotHoldLastFired := if s.slotHoldUntil.Some? && s.lastFired == s.slotHoldUntil then s.slotHoldLastFired
                              else s.lastFired,
         lastFired := if s.lastFired.None? || s.lastFired.value < until then Some(until) else s.lastFired)
  }

  /** A hold stands in as the pacing anchor, and clearing it puts the anchor back: only a
      hold that cuts a standing one short loses it. */
  lemma HoldThenClear(s: State, until: Time)
    ensures ClearSlotHold(HoldSlotUntil(s, until)).(slot := s.slot) == ClearSlotHold(s)
      <==> !(s.slot.Some? && s.slotHoldUntil.Some? && s.lastFired == s.slotHoldUntil
             && until < s.slotHoldUntil.value && s.slotHoldLastFired != s.lastFired)
  {
  }

  function Later(a: Option<Time>, b: Option<Time>): Option<Time> {
    if b.Some? && (a.None? || a.value < b.value) then b else a
  }

  /** Normalize, as far as the slot goes: fold the two records of a hold, then drop a
      slot nothing holds. */
  function Normalize(s: State, now: Time): State {
    var held := if s.slot.Some? then Later(s.slotHoldUntil, s.slot.value.holdUntil) else s.slotHoldUntil;
    var folded := s.(slotHoldUntil := held,
                     slot := if s.slot.Some? then Some(s.slot.value.(holdUntil := Later(s.slot.value.holdUntil, held)))
                             else None);
    if SlotHeld(folded, now) then folded else ClearSlotHold(folded.(slot := None))
  }

  /** Normalizing decides nothing: the slot is held after it exactly when it was before,
      and a second time changes nothing. */
  lemma NormalizeIsNeutral(s: State, now: Time)
    ensures SlotHeld(Normalize(s, now), now) <==> SlotHeld(s, now)
    ensures Normalize(Normalize(s, now), now) == Normalize(s, now)
    ensures Normalize(s, now).slot.Some? ==> SlotHeld(s, now)
  {
  }

  // ---- The fire guard

  /** firable: eligible, and its pull request is not held. */
  predicate Firable(s: State, r: Round, now: Time) {
    FireEligible(r, now) && r.pr !in s.holds
  }

  /** archivedRound: the newest archived round with the Seq and head a worker saw. */
  function ArchivedAt(archive: seq<Round>, want: Round): (at: Option<nat>)
    ensures at.Some? ==> at.value < |archive| && SameRound(archive[at.value], want)
    ensures at.Some? ==> forall i :: at.value < i < |archive| ==> !SameRound(archive[i], want)
    ensures at.None? ==> forall i :: 0 <= i < |archive| ==> !SameRound(archive[i], want)
  {
    if archive == [] then None
    else if SameRound(archive[|archive| - 1], want) then Some(|archive| - 1)
    else ArchivedAt(archive[..|archive| - 1], want)
  }

  /** archivedTriggerPostClaimed. */
  ghost predicate ArchivedPostClaimed(r: Round, now: Time) {
    || (r.reservedAt.Some? && now < r.reservedAt.value + TRIGGER_CLAIM_TTL)
    || (exists key :: key in r.cos && r.cos[key].claimedAt.Some?
          && now < r.cos[key].claimedAt.value + TRIGGER_CLAIM_TTL)
  }

  /** claimedTriggerRepo: some trigger of this repository is being posted. */
  ghost predicate ClaimedTriggerRepo(s: State, repo: string, now: Time) {
    || (exists pr :: pr in s.rounds && pr.repo == repo && TriggerPostClaimed(s.rounds[pr]))
    || (exists r :: r in s.archive && r.pr.repo == repo && ArchivedPostClaimed(r, now))
  }
}
