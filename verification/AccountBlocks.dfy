/** The account-wide review window (internal/crq/service.go, internal/engine/engine.go):
    three sources of evidence write it, none owns it. */
module AccountBlocks {
  import opened Text

  /** The zero time is 0 and precedes every other. */
  type Time = nat

  datatype Quota = Quota(blockedUntil: Option<Time>, remaining: Option<int>, checkedAt: Option<Time>,
                         calibAskedAt: Option<Time>, noticeId: int, noticeUpdated: Option<Time>)

  /** A rate-limit notice on a pull request; id 0 means it has no comment. */
  datatype Notice = Notice(until: Time, id: int, updated: Time)

  /** What a calibration probe read. */
  datatype Reading = Reading(blockedUntil: Option<Time>, remaining: Option<int>, calibAskedAt: Option<Time>)

  /** AcceptAccountBlock: a block only ever extends. */
  predicate Accepts(standing: Option<Time>, observed: Time) {
    observed != 0 && (standing.None? || observed > standing.value)
  }

  /** observedAccountBlockChanges. */
  predicate Changes(q: Quota, n: Notice) {
    || Accepts(q.blockedUntil, n.until)
    || (q.blockedUntil == Some(n.until) && n.id != 0 && (q.noticeUpdated.None? || n.updated > q.noticeUpdated.value))
  }

  /** applyAccountBlock for a notice. */
  function Noticed(q: Quota, n: Notice, now: Time): Quota {
    var seen := n.id != 0 && (q.noticeUpdated.None? || n.updated > q.noticeUpdated.value);
    q.(blockedUntil := Some(n.until), remaining := Some(0), checkedAt := Some(now),
       noticeId := if seen then n.id else q.noticeId,
       noticeUpdated := if seen then Some(n.updated) else q.noticeUpdated)
  }

  /** applyAccountBlock for the local CLI's refusal. */
  function Refused(q: Quota, until: Time, now: Time): Quota {
    Quota(Some(until), None, Some(now), None, 0, None)
  }

  /** The account reports itself available. */
  predicate ReviewsLeft(r: Reading) {
    r.remaining.Some? && r.remaining.value > 0 && r.blockedUntil.None? && r.calibAskedAt.None?
  }

  /** RefreshQuota's write. */
  function Calibrated(q: Quota, r: Reading, now: Time): Quota {
    var next := q.(blockedUntil := r.blockedUntil, remaining := r.remaining, checkedAt := Some(now),
                    calibAskedAt := r.calibAskedAt);
    if !ReviewsLeft(r) && q.blockedUntil.Some? && q.blockedUntil.value > now
       && (r.blockedUntil.None? || q.blockedUntil.value > r.blockedUntil.value) then
      next.(blockedUntil := q.blockedUntil, remaining := if r.remaining.None? then q.remaining else r.remaining)
    else next
  }

  /** RefreshQuota's last check before it writes: a conclusive reading is still fresh. */
  predicate StillFresh(q: Quota, now: Time, ttl: Time) {
    q.calibAskedAt.None? && q.checkedAt.Some? && now < q.checkedAt.value + ttl
  }

  class Account {
    var quota: Quota

    constructor ()
      ensures quota == Quota(None, None, None, None, 0, None)
    {
      quota := Quota(None, None, None, None, 0, None);
    }

    /** recordObservedBlock. */
    method RecordObserved(n: Notice, now: Time) returns (wrote: bool)
      modifies this
      ensures wrote <==>
        || (n.until != 0 && (old(quota).blockedUntil.None? || old(quota).blockedUntil.value < n.until))
        || (n.id != 0 && old(quota).blockedUntil == Some(n.until)
            && (old(quota).noticeUpdated.None? || old(quota).noticeUpdated.value < n.updated))
      ensures wrote <==> Changes(old(quota), n)
      ensures quota == if wrote then Noticed(old(quota), n, now) else old(quota)
    {
      if !Changes(quota, n) {
        return false;
      }
      ApplyNotice(n, now);
      return true;
    }

    /** The store write recordObservedBlock and applyTransition share. */
    method ApplyNotice(n: Notice, now: Time)
      modifies this
      ensures quota == Noticed(old(quota), n, now)
      ensures quota.blockedUntil == Some(n.until) && quota.remaining == Some(0) && quota.checkedAt == Some(now)
      ensures quota.calibAskedAt == old(quota).calibAskedAt
      ensures
        if n.id != 0 && (old(quota).noticeUpdated.None? || old(quota).noticeUpdated.value < n.updated) then
          quota.noticeId == n.id && quota.noticeUpdated == Some(n.updated)
        else quota.noticeId == old(quota).noticeId && quota.noticeUpdated == old(quota).noticeUpdated
    {
      quota := quota.(blockedUntil := Some(n.until), remaining := Some(0), checkedAt := Some(now));
      if n.id != 0 && (quota.noticeUpdated.None? || n.updated > quota.noticeUpdated.value) {
        quota := quota.(noticeId := n.id, noticeUpdated := Some(n.updated));
      }
    }

    /** The write behind RecordCLIQuota. matches: the CLI's organisation is still the
        fleet's. */
    method RecordCli(until: Time, now: Time, matches: bool) returns (applied: bool)
      modifies this
      ensures applied <==>
        matches && until != 0 && (old(quota).blockedUntil.None? || old(quota).blockedUntil.value < until)
      ensures quota == if applied then Refused(old(quota), until, now) else old(quota)
      ensures applied ==> quota == Quota(Some(until), None, Some(now), None, 0, None)
    {
      if !matches || !Accepts(quota.blockedUntil, until) {
        return false;
      }
      quota := quota.(blockedUntil := Some(until), checkedAt := Some(now), remaining := None);
      quota := quota.(noticeId := 0, noticeUpdated := None, calibAskedAt := None);
      return true;
    }

    /** RefreshQuota's write. moved: the fleet record or the evidence went stale while
        the probe was read. */
    method RecordReading(r: Reading, now: Time, ttl: Time, moved: bool) returns (wrote: bool)
      modifies this
      ensures wrote <==>
        !moved && (old(quota).calibAskedAt.Some? || old(quota).checkedAt.None?
                   || old(quota).checkedAt.value + ttl <= now)
      ensures quota == if wrote then Calibrated(old(quota), r, now) else old(quota)
      ensures wrote ==>
        var available := r.remaining.Some? && r.remaining.value > 0 && r.blockedUntil.None? && r.calibAskedAt.None?;
        var standing := old(quota).blockedUntil;
        var stands := !available && standing.Some? && now < standing.value
          && (r.blockedUntil.Some? ==> r.blockedUntil.value < standing.value);
        && quota.checkedAt == Some(now) && quota.calibAskedAt == r.calibAskedAt
        && quota.blockedUntil == (if stands then standing else r.blockedUntil)
        && quota.remaining == (if stands && r.remaining.None? then old(quota).remaining else r.remaining)
        && quota.noticeId == old(quota).noticeId && quota.noticeUpdated == old(quota).noticeUpdated
    {
      if moved || StillFresh(quota, now, ttl) {
        return false;
      }
      var prevBlock, prevRemaining := quota.blockedUntil, quota.remaining;
      quota := quota.(blockedUntil := r.blockedUntil, remaining := r.remaining);
      quota := quota.(checkedAt := Some(now), calibAskedAt := r.calibAskedAt);
      var reviewsLeft := quota.remaining.Some? && quota.remaining.value > 0 && quota.blockedUntil.None?
        && quota.calibAskedAt.None?;
      if !reviewsLeft && prevBlock.Some? && prevBlock.value > now
         && (quota.blockedUntil.None? || prevBlock.value > quota.blockedUntil.value) {
        quota := quota.(blockedUntil := prevBlock);
        if quota.remaining.None? {
          quota := quota.(remaining := prevRemaining);
        }
      }
      return true;
    }
  }

  // ---- Runs of the writers

  datatype World = World(clock: Time, quota: Quota)

  /** One write. now is the writer's reading, taken no later than the write. Retry is
      applyTransition's, which applies the notice without asking. */
  datatype Action =
    | Tick(to: Time)
    | Observe(notice: Notice, now: Time)
    | Cli(until: Time, now: Time, matches: bool)
    | Refresh(reading: Reading, now: Time, ttl: Time, moved: bool)
    | Retry(notice: Notice, now: Time)

  predicate Legal(w: World, a: Action) {
    if a.Tick? then a.to >= w.clock else a.now <= w.clock
  }

  function Step(w: World, a: Action): World {
    match a
    case Tick(to) => w.(clock := to)
    case Observe(n, now) => if Changes(w.quota, n) then w.(quota := Noticed(w.quota, n, now)) else w
    case Cli(until, now, matches) =>
      if matches && Accepts(w.quota.blockedUntil, until) then w.(quota := Refused(w.quota, until, now)) else w
    case Refresh(r, now, ttl, moved) =>
      if !moved && !StillFresh(w.quota, now, ttl) then w.(quota := Calibrated(w.quota, r, now)) else w
    case Retry(n, now) => w.(quota := Noticed(w.quota, n, now))
  }

  ghost predicate LegalRun(w: World, actions: seq<Action>)
    decreases |actions|
  {
    actions != [] ==> Legal(w, actions[0]) && LegalRun(Step(w, actions[0]), actions[1..])
  }

  function After(w: World, actions: seq<Action>): World
    decreases |actions|
  {
    if actions == [] then w else After(Step(w, actions[0]), actions[1..])
  }

  /** The window of before ends earlier in after. */
  predicate Shortened(before: Quota, after: Quota) {
    before.blockedUntil.Some?
    && (after.blockedUntil.None? || after.blockedUntil.value < before.blockedUntil.value)
  }

  /** What cuts a standing window: a probe that read reviews are left, or a retry whose
      notice ends before the window does. */
  predicate Cuts(w: World, a: Action) {
    || (a.Refresh? && !a.moved && !StillFresh(w.quota, a.now, a.ttl) && ReviewsLeft(a.reading))
    || (a.Retry? && w.quota.blockedUntil.Some? && a.notice.until < w.quota.blockedUntil.value)
  }

  /** A window that has not run out is shortened by a write exactly when the write is
      one of those two; the observed notices and the local CLI never shorten it. */
  lemma ShortenedExactly(w: World, a: Action)
    requires Legal(w, a) && w.quota.blockedUntil.Some? && w.quota.blockedUntil.value > w.clock
    ensures Shortened(w.quota, Step(w, a).quota) <==> Cuts(w, a)
  {
    if a.Refresh? && ReviewsLeft(a.reading) {
      assert Calibrated(w.quota, a.reading, a.now).blockedUntil == None;
    }
  }

  predicate NeverCut(w: World, actions: seq<Action>)
    decreases |actions|
  {
    actions == [] || (!Cuts(w, actions[0]) && NeverCut(Step(w, actions[0]), actions[1..]))
  }

  /** The window up to end is over, or still stands at least that long. */
  predicate Covers(w: World, end: Time) {
    end <= w.clock || (w.quota.blockedUntil.Some? && w.quota.blockedUntil.value >= end)
  }

  /** Over any interleaving, a window that has not run out never ends earlier than it
      did, unless a write of the run cuts it. */
  lemma {:induction false} WindowNeverShortened(w: World, actions: seq<Action>, end: Time)
    requires LegalRun(w, actions) && NeverCut(w, actions) && Covers(w, end)
    ensures Covers(After(w, actions), end)
    decreases |actions|
  {
    if actions != [] {
      if end > w.clock {
        ShortenedExactly(w, actions[0]);
      }
      WindowNeverShortened(Step(w, actions[0]), actions[1..], end);
    }
  }

  // ---- One write per notice

  /** The notice has nothing more to say to this quota. */
  predicate Spent(q: Quota, n: Notice) {
    && q.blockedUntil.Some?
    && (n.until == 0 || q.blockedUntil.value >= n.until)
    && (q.blockedUntil.value == n.until && n.id != 0 ==> q.noticeUpdated.Some? && n.updated <= q.noticeUpdated.value)
  }

  lemma SpentExactly(q: Quota, n: Notice)
    requires q.blockedUntil.Some?
    ensures Spent(q, n) <==> !Changes(q, n)
  {
  }

  /** Once applied, a notice is spent. */
  lemma AppliedIsSpent(q: Quota, n: Notice, now: Time)
    ensures !Changes(Noticed(q, n, now), n)
  {
    SpentExactly(Noticed(q, n, now), n);
  }

  lemma StepSpent(w: World, a: Action, n: Notice)
    requires Legal(w, a) && !Cuts(w, a) && Spent(w.quota, n) && n.until > w.clock
    ensures Spent(Step(w, a).quota, n)
  {
    ShortenedExactly(w, a);
  }

  /** How many times the run writes because of this observed notice. */
  function WritesOf(w: World, actions: seq<Action>, n: Notice): nat
    decreases |actions|
  {
    if actions == [] then 0
    else
      (if actions[0].Observe? && actions[0].notice == n && Changes(w.quota, n) then 1 else 0)
      + WritesOf(Step(w, actions[0]), actions[1..], n)
  }

  lemma {:induction false} SpentCostsNothing(w: World, actions: seq<Action>, n: Notice)
    requires LegalRun(w, actions) && NeverCut(w, actions)
    requires Spent(w.quota, n) && n.until > After(w, actions).clock
    ensures WritesOf(w, actions, n) == 0
    decreases |actions|
  {
    if actions != [] {
      ClockGrows(w, actions);
      StepSpent(w, actions[0], n);
      SpentExactly(w.quota, n);
      SpentCostsNothing(Step(w, actions[0]), actions[1..], n);
    }
  }

  lemma {:induction false} ClockGrows(w: World, actions: seq<Action>)
    requires LegalRun(w, actions)
    ensures w.clock <= After(w, actions).clock
    decreases |actions|
  {
    if actions != [] {
      ClockGrows(Step(w, actions[0]), actions[1..]);
    }
  }

  /** While its window runs, a notice costs at most one write, however often and by
      however many workers it is observed. */
  lemma {:induction false} OneWritePerNotice(w: World, actions: seq<Action>, n: Notice)
    requires LegalRun(w, actions) && NeverCut(w, actions)
    requires n.until > After(w, actions).clock
    ensures WritesOf(w, actions, n) <= 1
    decreases |actions|
  {
    if actions != [] {
      var a, next := actions[0], Step(w, actions[0]);
      if a.Observe? && a.notice == n && Changes(w.quota, n) {
        AppliedIsSpent(w.quota, n, a.now);
        SpentExactly(next.quota, n);
        SpentCostsNothing(next, actions[1..], n);
      } else {
        OneWritePerNotice(next, actions[1..], n);
      }
    }
  }
}
