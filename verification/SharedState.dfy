/** The shared state as one mutable object, and each compare-and-swap closure of
    internal/crq as a method on it. A method's whole effect is the function of the
    same name in Closures, about which the run theorems are proved; the other clauses
    say what a caller can rely on. */
module SharedState {
  import opened Text
  import opened Reviewers
  import opened ForRepo
  import opened Rounds
  import C = Closures
  import opened Closures
  import FireLog

  class Store {
    var rounds: map<PR, Round>
    var archive: seq<Round>
    var slot: Option<Slot>
    var slotHoldUntil: Option<Time>
    var slotHoldLastFired: Option<Time>
    var lastFired: Option<Time>
    var holds: map<PR, Hold>
    var overrides: map<string, Stamped>
    var fires: seq<Time>
    var nextSeq: nat

    function View(): State
      reads this
    {
      State(rounds, archive, slot, slotHoldUntil, slotHoldLastFired, lastFired, holds, overrides, fires, nextSeq)
    }

    /** Every round is stored under its own pull request. */
    ghost predicate Valid()
      reads this
    {
      forall pr :: pr in rounds ==> rounds[pr].pr == pr
    }

    /** Nothing but this pull request's round changed in the queue. */
    twostate predicate OnlyRound(pr: PR)
      reads this
    {
      forall q :: q != pr ==> (q in rounds <==> q in old(rounds)) && (q in rounds ==> rounds[q] == old(rounds)[q])
    }

    /** The slot changed only if it was this pull request's, held under this token. */
    twostate predicate OnlySlotOf(pr: PR, token: Token)
      reads this
    {
      slot == old(slot) || (old(slot).Some? && old(slot).value.pr == pr && old(slot).value.token == token && slot.None?)
    }

    /** The slot is not claimed under this key and token. */
    predicate LetGo(pr: PR, token: Token)
      reads this
    {
      !(slot.Some? && slot.value.pr == pr && slot.value.token == token)
    }

    constructor ()
      ensures Valid() && View() == State(map[], [], None, None, None, None, map[], map[], [], 0)
    {
      rounds, archive, slot := map[], [], None;
      slotHoldUntil, slotHoldLastFired, lastFired := None, None, None;
      holds, overrides, fires, nextSeq := map[], map[], [], 0;
    }

    // ---- State operations

    method PutRound(r: Round)
      requires Valid()
      modifies this`rounds
      ensures Valid() && View() == Put(old(View()), r)
      ensures OnlyRound(r.pr) && r.pr in rounds && rounds[r.pr] == r
    {
      rounds := rounds[r.pr := r];
    }

    method EndRound(pr: PR)
      requires Valid()
      modifies this
      ensures Valid()
      ensures View() == Rounds.EndRound(old(View()), pr)
      ensures rounds == old(rounds) - {pr} && unchanged(`slot, `slotHoldUntil, `lastFired, `holds, `overrides, `nextSeq)
      ensures unchanged(`slotHoldLastFired, `fires) && (pr !in old(rounds) ==> unchanged(`archive))
      ensures pr in old(rounds) ==>
        0 < |archive| <= ARCHIVE_MAX
        && archive[|archive| - 1] == old(rounds)[pr].(phase := Abandoned, token := 0)
      ensures pr in old(rounds) ==>
        |archive| <= |old(archive)| + 1 && archive[..|archive| - 1] == old(archive)[|old(archive)| + 1 - |archive|..]
      ensures pr in old(rounds) && |archive| < ARCHIVE_MAX ==> |archive| == |old(archive)| + 1
    {
      if pr in rounds {
        var r := Abandon(rounds[pr]);
        rounds := rounds - {pr};
        archive := archive + [r];
        if |archive| > ARCHIVE_MAX {
          archive := archive[|archive| - ARCHIVE_MAX..];
        }
      }
    }

    method Supersede(pr: PR, head: string)
      requires Valid()
      modifies this
      ensures Valid()
      ensures View() == Rounds.Supersede(old(View()), pr, head)
      ensures OnlyRound(pr) && unchanged(`slot, `slotHoldUntil, `lastFired, `holds, `overrides)
      ensures nextSeq == old(nextSeq) + 1 && pr in rounds && rounds[pr].head == head && rounds[pr].order == nextSeq
      ensures rounds[pr].phase == Queued && rounds[pr].token == 0 && rounds[pr].cos == map[]
      ensures rounds[pr].attempts == 0 && rounds[pr].command == 0
      ensures rounds[pr].firedAt.None? && rounds[pr].dispatch.None?
      ensures rounds[pr].retryAt.None? && rounds[pr].waitDeadline.None? && rounds[pr].confirmationAfter.None?
      ensures !rounds[pr].reviewersChanged && (forall now :: FireEligible(rounds[pr], now))
      ensures pr in old(rounds) ==>
        0 < |archive| && archive[|archive| - 1] == old(rounds)[pr].(phase := Abandoned, token := 0)
      ensures pr !in old(rounds) ==> unchanged(`archive)
    {
      EndRound(pr);
      nextSeq := nextSeq + 1;
      rounds := rounds[pr := Fresh(pr, head, nextSeq)];
    }

    method ClearSlotHold()
      requires Valid()
      modifies this
      ensures Valid()
      ensures View() == Rounds.ClearSlotHold(old(View()))
      ensures unchanged(`rounds, `archive, `slot, `holds, `overrides, `fires, `nextSeq)
      ensures forall now :: SlotHeld(View(), now) ==> SlotHeld(old(View()), now)
    {
      if slotHoldUntil.Some? && lastFired == slotHoldUntil {
        lastFired := slotHoldLastFired;
      }
      slotHoldUntil, slotHoldLastFired := None, None;
    }

    method ReleaseSlot(pr: PR, token: Token)
      requires Valid()
      modifies this
      ensures Valid()
      ensures View() == Rounds.ReleaseSlot(old(View()), pr, token)
      ensures unchanged(`rounds, `archive, `holds, `overrides, `fires, `nextSeq)
      ensures old(slot).Some? && old(slot).value.pr == pr && old(slot).value.token == token ==>
        slot.None? && forall now :: !SlotHeld(View(), now)
      ensures !(old(slot).Some? && old(slot).value.pr == pr && old(slot).value.token == token) ==> View() == old(View())
    {
      if slot.Some? && slot.value.pr == pr && slot.value.token == token {
        slot := None;
        ClearSlotHold();
      }
    }

    /** End the round and let go of the slot it held under this token. */
    method EndAndRelease(pr: PR, token: Token)
      requires Valid()
      modifies this
      ensures Valid()
      ensures View() == Rounds.ReleaseSlot(Rounds.EndRound(old(View()), pr), pr, token)
      ensures rounds == old(rounds) - {pr} && OnlyRound(pr) && unchanged(`holds, `overrides, `fires)
      ensures OnlySlotOf(pr, token) && LetGo(pr, token)
      ensures pr in old(rounds) ==>
        0 < |archive| && archive[|archive| - 1] == old(rounds)[pr].(phase := Abandoned, token := 0)
    {
      EndRound(pr);
      ReleaseSlot(pr, token);
    }

    /** Store the round and let go of the slot it held under this token. */
    method PutAndRelease(r: Round, token: Token)
      requires Valid()
      modifies this
      ensures Valid()
      ensures View() == Rounds.ReleaseSlot(Put(old(View()), r), r.pr, token)
      ensures rounds == old(rounds)[r.pr := r] && OnlyRound(r.pr) && OnlySlotOf(r.pr, token) && LetGo(r.pr, token)
      ensures unchanged(`archive, `holds, `overrides, `fires)
    {
      PutRound(r);
      ReleaseSlot(r.pr, token);
    }

    method HoldSlotUntil(until: Time)
      requires Valid()
      modifies this
      ensures Valid()
      ensures View() == Rounds.HoldSlotUntil(old(View()), until)
      ensures unchanged(`rounds, `archive, `holds, `overrides, `fires, `nextSeq)
      ensures slot.Some? <==> old(slot).Some?
      ensures slot.Some? ==>
        slot.value == old(slot).value.(holdUntil := Some(until)) && slotHoldUntil == Some(until)
        && (forall now :: now < until ==> SlotHeld(View(), now))
        && lastFired.Some? && lastFired.value >= until && (lastFired == old(lastFired) || lastFired == Some(until))
      ensures slot.None? ==> View() == old(View())
    {
      if slot.None? {
        return;
      }
      var before := lastFired;
      if slotHoldUntil.Some? && lastFired == slotHoldUntil {
        before := slotHoldLastFired;
      }
      slot := Some(slot.value.(holdUntil := Some(until)));
      slotHoldUntil, slotHoldLastFired := Some(until), before;
      if lastFired.None? || lastFired.value < until {
        lastFired := Some(until);
      }
    }

    method Normalize(now: Time)
      requires Valid()
      modifies this
      ensures Valid()
      ensures View() == Rounds.Normalize(old(View()), now)
      ensures SlotHeld(View(), now) <==> SlotHeld(old(View()), now)
      ensures slot.Some? <==> old(slot).Some? && SlotHeld(old(View()), now)
      ensures slot.Some? ==> slot.value.(holdUntil := None) == old(slot).value.(holdUntil := None)
      ensures slot.Some? ==> slot.value.holdUntil == slotHoldUntil
      ensures forall t :: now <= t ==> (SlotHeld(View(), t) <==> SlotHeld(old(View()), t))
      ensures unchanged(`rounds, `archive, `holds, `overrides, `fires, `nextSeq)
    {
      if slot.Some? && slot.value.holdUntil.Some?
         && (slotHoldUntil.None? || slotHoldUntil.value < slot.value.holdUntil.value) {
        slotHoldUntil := slot.value.holdUntil;
      }
      if slotHoldUntil.Some? && slot.Some?
         && (slot.value.holdUntil.None? || slot.value.holdUntil.value < slotHoldUntil.value) {
        slot := Some(slot.value.(holdUntil := slotHoldUntil));
      }
      if !SlotHeld(View(), now) {
        slot := None;
        ClearSlotHold();
      }
    }

    /** noteFire. The sort is the library's. */
    method NoteFire(at: Time)
      requires Valid()
      modifies this
      ensures Valid()
      ensures View() == old(View()).(fires := FireLog.NoteFire(old(fires), at))
      ensures |fires| <= FireLog.MAX_ENTRIES && multiset(fires) <= multiset(old(fires)) + multiset{at}
    {
      hide FireLog.Sort, FireLog.After;
      FireLog.StoredIsNoted(fires + [at]);
      var sorted := FireLog.Sort(fires + [at]);
      FireLog.SortSorts(fires + [at]);
      assert at in multiset(sorted);
      var keep := FireLater(sorted, sorted[|sorted| - 1] - FireLog.WINDOW);
      if |keep| > FireLog.MAX_ENTRIES {
        keep := keep[|keep| - FireLog.MAX_ENTRIES..];
      }
      assert multiset(fires + [at]) == multiset(fires) + multiset{at};
      fires := keep;
    }

    static method FireLater(sorted: seq<Time>, cutoff: Time) returns (keep: seq<Time>)
      ensures keep == FireLog.After(sorted, cutoff)
    {
      keep := [];
      for i := 0 to |sorted|
        invariant keep == FireLog.After(sorted[..i], cutoff)
      {
        assert sorted[..i + 1][..i] == sorted[..i];
        if sorted[i] > cutoff {
          keep := keep + [sorted[i]];
        }
      }
      assert sorted[..|sorted|] == sorted;
    }

    // ---- The queue

    method Enqueue(pr: PR, head: string, off: bool) returns (answer: Enqueued)
      requires Valid()
      modifies this
      ensures Valid()
      ensures View() == C.Enqueue(old(View()), pr, head, off).next
      ensures answer == EnqueueAnswer(old(View()), pr, head, off)
      ensures OnlyRound(pr) && unchanged(`slot, `holds, `overrides, `fires)
      ensures answer.Refused? <==> pr in holds || off
      ensures answer.NowQueued? <==>
        !(pr in holds || off)
        && (pr !in old(rounds) || old(rounds)[pr].head != head
            || (old(rounds)[pr].phase == Completed && old(rounds)[pr].reviewersChanged))
      ensures answer.Deduped? <==>
        !(pr in holds || off) && pr in old(rounds) && old(rounds)[pr].head == head
        && (old(rounds)[pr].phase in {Fired, Reviewing, Expired}
            || (old(rounds)[pr].phase == Completed && !old(rounds)[pr].reviewersChanged))
      ensures answer.NowQueued? ==>
        pr in rounds && rounds[pr].head == head && rounds[pr].phase == Queued && !rounds[pr].reviewersChanged
        && rounds[pr].token == 0
      ensures answer.NowQueued? && pr in old(rounds) && old(rounds)[pr].head == head ==>
        SameRound(rounds[pr], old(rounds)[pr]) && rounds[pr].cos == old(rounds)[pr].cos && unchanged(`archive, `nextSeq)
      ensures answer.NowQueued? && !(pr in old(rounds) && old(rounds)[pr].head == head) ==>
        rounds[pr].order == nextSeq == old(nextSeq) + 1 && rounds[pr].cos == map[]
      ensures !answer.NowQueued? ==> View() == old(View())
    {
      if pr in holds || off {
        return Refused;
      }
      if pr in rounds && rounds[pr].head == head {
        var r := rounds[pr];
        if r.phase == Completed && r.reviewersChanged {
          var next := Reopen(r).value;
          PutRound(next);
          return NowQueued;
        }
        match r.phase
        case Fired | Reviewing | Completed | Expired => return Deduped;
        case _ => return AlreadyQueued;
      }
      Supersede(pr, head);
      return NowQueued;
    }

    method LowestOrder() returns (low: int)
      ensures low <= 0 && (low == 0 || exists pr :: pr in rounds && rounds[pr].order == low)
      ensures forall pr :: pr in rounds ==> low <= rounds[pr].order
    {
      low := 0;
      var left := rounds.Keys;
      while left != {}
        invariant left <= rounds.Keys && low <= 0
        invariant low == 0 || exists pr :: pr in rounds && rounds[pr].order == low
        invariant forall pr :: pr in rounds && pr !in left ==> low <= rounds[pr].order
        decreases |left|
      {
        var pr :| pr in left;
        if rounds[pr].order < low {
          low := rounds[pr].order;
        }
        left := left - {pr};
      }
    }

    method Prioritize(pr: PR) returns (low: int)
      requires Valid()
      modifies this
      ensures Valid()
      ensures LowestSeq(old(View()), low) && View() == C.Prioritize(old(View()), pr, low).next
      ensures OnlyRound(pr) && unchanged(`archive, `slot, `holds, `overrides, `fires)
      ensures pr in rounds && rounds[pr].phase in {Queued, AwaitingRetry} ==>
        rounds == old(rounds)[pr := old(rounds)[pr].(order := rounds[pr].order)] && rounds[pr].order < 0
        && forall q :: q in rounds && q != pr ==> rounds[pr].order < rounds[q].order
      ensures !(pr in rounds && rounds[pr].phase in {Queued, AwaitingRetry}) ==> View() == old(View())
    {
      low := LowestOrder();
      if pr in rounds && rounds[pr].phase in {Queued, AwaitingRetry} {
        var r := rounds[pr].(order := low - 1);
        PutRound(r);
      }
    }

    method SupersedeRound(want: Round, head: string)
      requires Valid()
      modifies this
      ensures Valid()
      ensures View() == C.SupersedeRound(old(View()), want, head).next
      ensures OnlyRound(want.pr) && unchanged(`slot, `holds, `overrides, `fires)
      ensures want.pr in old(rounds) && old(rounds)[want.pr].order == want.order
              && old(rounds)[want.pr].head == want.head ==>
        want.pr in rounds && rounds[want.pr].head == head && rounds[want.pr].order == nextSeq > old(nextSeq)
        && rounds[want.pr].phase == Queued && rounds[want.pr].cos == map[]
      ensures !(want.pr in old(rounds) && old(rounds)[want.pr].order == want.order
                && old(rounds)[want.pr].head == want.head) ==>
        View() == old(View())
    {
      if want.pr in rounds && SameRound(rounds[want.pr], want) {
        Supersede(want.pr, head);
      }
    }

    method AbandonRound(want: Round)
      requires Valid()
      modifies this
      ensures Valid()
      ensures View() == C.AbandonRound(old(View()), want).next
      ensures OnlyRound(want.pr) && OnlySlotOf(want.pr, want.token) && unchanged(`holds, `overrides, `fires)
      ensures Still(old(View()), want) ==>
        rounds == old(rounds) - {want.pr} && LetGo(want.pr, want.token)
      ensures !Still(old(View()), want) ==>
        View() == old(View())
    {
      if want.pr in rounds && SameRound(rounds[want.pr], want) {
        EndAndRelease(want.pr, want.token);
      }
    }

    method Cancel(pr: PR)
      requires Valid()
      modifies this
      ensures Valid()
      ensures View() == C.Cancel(old(View()), pr).next
      ensures rounds == old(rounds) - {pr} && unchanged(`holds, `overrides, `fires)
      ensures pr in old(rounds) ==>
        OnlySlotOf(pr, old(rounds)[pr].token) && LetGo(pr, old(rounds)[pr].token)
        && 0 < |archive| && archive[|archive| - 1] == old(rounds)[pr].(phase := Abandoned, token := 0)
      ensures pr !in old(rounds) ==> View() == old(View())
    {
      if pr in rounds {
        var token := rounds[pr].token;
        EndAndRelease(pr, token);
      }
    }

    method Confirm(want: Round, known: bool, cfg: Cfg, now: Time) returns (queued: bool)
      requires Valid()
      modifies this
      ensures Valid()
      ensures View() == C.Confirm(old(View()), want, known, cfg, now).next
      ensures queued <==>
        && (want.pr in old(rounds)) == known && want.pr !in holds && !ReviewersChanged(old(View()), want.pr.repo, cfg)
        && (known ==> old(rounds)[want.pr].order == want.order && old(rounds)[want.pr].head == want.head
                      && old(rounds)[want.pr].confirmationAfter.None?)
        && (old(slot).Some? && old(slot).value.pr == want.pr ==>
              known && old(slot).value.token == old(rounds)[want.pr].token
              && old(rounds)[want.pr].phase in {Fired, Reviewing})
      ensures OnlyRound(want.pr) && unchanged(`holds, `overrides, `fires)
      ensures old(slot).Some? && old(slot).value.pr != want.pr ==> slot == old(slot)
      ensures queued ==> !(slot.Some? && slot.value.pr == want.pr)
      ensures queued ==>
        want.pr in rounds && rounds[want.pr].head == want.head && rounds[want.pr].order == nextSeq > old(nextSeq)
        && rounds[want.pr].confirmationAfter == Some(now) && FireEligible(rounds[want.pr], now)
      ensures queued ==>
        && rounds[want.pr].phase == Queued && rounds[want.pr].token == 0 && rounds[want.pr].cos == map[]
        && rounds[want.pr].attempts == 0 && rounds[want.pr].lastAttemptAt == Some(now)
      ensures queued && known ==>
        0 < |archive| && archive[|archive| - 1] == old(rounds)[want.pr].(phase := Abandoned, token := 0)
      ensures !queued ==> View() == old(View())
    {
      var pr := want.pr;
      if (pr in rounds && (!known || !SameRound(rounds[pr], want) || rounds[pr].confirmationAfter.Some?))
         || (pr !in rounds && known) || ReviewersChanged(View(), pr.repo, cfg) || pr in holds {
        return false;
      }
      if slot.Some? && slot.value.pr == pr {
        if pr !in rounds || slot.value.token != rounds[pr].token || rounds[pr].phase !in {Fired, Reviewing} {
          return false;
        }
        ReleaseSlot(pr, rounds[pr].token);
      }
      QueueConfirmation(pr, want.head, now);
      return true;
    }

    /** A new round at this head, queued behind every other to confirm the one before it. */
    method QueueConfirmation(pr: PR, head: string, now: Time)
      requires Valid()
      modifies this
      ensures Valid()
      ensures var next := Rounds.Supersede(old(View()), pr, head);
        View() == Rounds.Put(next, next.rounds[pr].(confirmationAfter := Some(now), lastAttemptAt := Some(now)))
      ensures OnlyRound(pr) && unchanged(`slot, `holds, `overrides, `fires)
      ensures pr in rounds && rounds[pr].head == head && rounds[pr].order == nextSeq > old(nextSeq)
      ensures rounds[pr].phase == Queued && rounds[pr].token == 0 && rounds[pr].cos == map[]
      ensures rounds[pr].attempts == 0 && rounds[pr].lastAttemptAt == rounds[pr].confirmationAfter == Some(now)
      ensures FireEligible(rounds[pr], now)
      ensures pr in old(rounds) ==>
        0 < |archive| && archive[|archive| - 1] == old(rounds)[pr].(phase := Abandoned, token := 0)
    {
      Supersede(pr, head);
      PutRound(rounds[pr].(confirmationAfter := Some(now), lastAttemptAt := Some(now)));
    }

    /** A fix session claims or lets go of a round. */
    method DispatchRound(pr: PR, phase: Phase, dispatch: Option<Dispatch>, retryAt: Option<Time>,
                         dispatchRetryAt: Option<Time>)
      requires Valid()
      modifies this
      ensures Valid()
      ensures View() == C.Dispatched(old(View()), pr, phase, dispatch, retryAt, dispatchRetryAt).next
      ensures OnlyRound(pr) && unchanged(`archive, `slot, `holds, `overrides, `fires)
      ensures pr !in old(rounds) ==> View() == old(View())
      ensures pr in old(rounds) ==>
        var r, waits := old(rounds)[pr], {Queued, AwaitingRetry};
        rounds[pr] == if r.phase in waits && phase in waits then
                        r.(phase := phase, dispatch := dispatch, retryAt := retryAt, dispatchRetryAt := dispatchRetryAt)
                      else r.(dispatch := dispatch, dispatchRetryAt := dispatchRetryAt)
    {
      if pr !in rounds {
        return;
      }
      var r := rounds[pr].(dispatch := dispatch, dispatchRetryAt := dispatchRetryAt);
      if r.phase in {Queued, AwaitingRetry} && phase in {Queued, AwaitingRetry} {
        r := r.(phase := phase, retryAt := retryAt);
      }
      PutRound(r);
    }

    /** A dismissal or a fix session at a head the queue is not tracking. */
    method Replace(pr: PR, head: string)
      requires Valid()
      modifies this
      ensures Valid()
      ensures View() == C.Replace(old(View()), pr, head).next
      ensures OnlyRound(pr) && unchanged(`slot, `holds, `overrides, `fires)
      ensures pr in rounds && rounds[pr].head == head
      ensures pr in old(rounds) && old(rounds)[pr].head == head ==> View() == old(View())
      ensures !(pr in old(rounds) && old(rounds)[pr].head == head) ==>
        rounds[pr].order == nextSeq == old(nextSeq) + 1 && rounds[pr].phase == Queued && rounds[pr].cos == map[]
      ensures pr in old(rounds) && old(rounds)[pr].head != head ==>
        0 < |archive| && archive[|archive| - 1] == old(rounds)[pr].(phase := Abandoned, token := 0)
    {
      if pr !in rounds || rounds[pr].head != head {
        Supersede(pr, head);
      }
    }

    /** The repair of a completed round whose head nobody reviewed. */
    method Repair(pr: PR, head: string)
      requires Valid()
      modifies this
      ensures Valid()
      ensures View() == C.Repair(old(View()), pr, head).next
      ensures OnlyRound(pr) && unchanged(`slot, `holds, `overrides, `fires)
      ensures pr in rounds ==> !(rounds[pr].head == head && rounds[pr].phase == Completed)
      ensures pr in old(rounds) && !(old(rounds)[pr].head == head && old(rounds)[pr].phase == Completed) ==>
        View() == old(View())
      ensures pr in old(rounds) && pr !in rounds ==>
        0 < |archive| && archive[|archive| - 1] == old(rounds)[pr].(phase := Abandoned, token := 0)
    {
      if pr in rounds && rounds[pr].head == head && rounds[pr].phase == Completed {
        EndRound(pr);
      }
    }

    // ---- Holds

    method PostClaimed(r: Round) returns (claimed: bool)
      ensures claimed <==> r.phase == Phase.Reserved || exists key :: key in r.cos && r.cos[key].claimedAt.Some?
    {
      if r.phase == Phase.Reserved {
        return true;
      }
      var left := r.cos.Keys;
      while left != {}
        invariant left <= r.cos.Keys
        invariant forall key :: key in r.cos && key !in left ==> r.cos[key].claimedAt.None?
        decreases |left|
      {
        var key :| key in left;
        if r.cos[key].claimedAt.Some? {
          return true;
        }
        left := left - {key};
      }
      return false;
    }

    method PlaceHold(pr: PR, owner: Option<Owner>, led: bool, now: Time) returns (held: bool)
      requires Valid()
      modifies this
      ensures Valid()
      ensures View() == C.PlaceHold(old(View()), pr, owner, led, now).next
      ensures held <==>
        && (owner.Some? ==>
              pr in rounds && rounds[pr].head == owner.value.head && rounds[pr].dispatch.Some?
              && rounds[pr].dispatch.value.token == owner.value.token
              && now < rounds[pr].dispatch.value.heartbeat + DISPATCH_TTL)
        && led && (pr in rounds ==> !TriggerPostClaimed(rounds[pr]))
      ensures if held then holds == old(holds)[pr := Manual] else holds == old(holds)
      ensures holds - {pr} == old(holds) - {pr} && unchanged(`rounds, `archive, `slot, `overrides, `fires)
    {
      if owner.Some? {
        if pr !in rounds || rounds[pr].head != owner.value.head || rounds[pr].dispatch.None?
           || rounds[pr].dispatch.value.token != owner.value.token || !DispatchHeld(rounds[pr], now) {
          return false;
        }
      }
      if !led {
        return false;
      }
      if pr in rounds {
        var claimed := PostClaimed(rounds[pr]);
        if claimed {
          return false;
        }
      }
      holds := holds[pr := Manual];
      return true;
    }

    method BudgetHold(want: Round, spent: bool) returns (held: bool)
      requires Valid()
      modifies this
      ensures Valid()
      ensures View() == C.BudgetHold(old(View()), want, spent).next
      ensures held <==>
        && want.pr in rounds && rounds[want.pr].order == want.order && rounds[want.pr].head == want.head
        && spent && want.pr !in old(holds)
      ensures if held then holds == old(holds)[want.pr := Budget] else holds == old(holds)
      ensures holds - {want.pr} == old(holds) - {want.pr} && unchanged(`rounds, `archive, `slot, `overrides, `fires)
    {
      if want.pr !in rounds || !SameRound(rounds[want.pr], want) || !spent || want.pr in holds {
        return false;
      }
      holds := holds[want.pr := Budget];
      return true;
    }

    method Unhold(pr: PR) returns (released: bool)
      requires Valid()
      modifies this
      ensures Valid()
      ensures View() == C.Unhold(old(View()), pr).next
      ensures released <==> pr in old(holds)
      ensures holds == old(holds) - {pr} && unchanged(`rounds, `archive, `slot, `overrides, `fires)
    {
      if pr !in holds {
        assert holds - {pr} == holds;
        return false;
      }
      holds := holds - {pr};
      return true;
    }

    // ---- Firing the primary

    /** Store a fired round, the pacing anchor, and the fire. */
    method PutFired(r: Round, firedAt: Time)
      requires Valid()
      modifies this
      ensures Valid() && OnlyRound(r.pr) && r.pr in rounds && rounds[r.pr] == r
      ensures View() == Put(old(View()), r).(lastFired := Some(firedAt), fires := FireLog.NoteFire(old(fires), firedAt))
      ensures unchanged(`archive, `slot, `holds, `overrides)
    {
      hide FireLog.NoteFire;
      lastFired := Some(firedAt);
      NoteFire(firedAt);
      PutRound(r);
    }

    method ReserveFire(want: Round, token: Token, cfg: Cfg, now: Time) returns (won: bool)
      requires Valid()
      modifies this
      ensures Valid()
      ensures View() == C.ReserveFire(old(View()), want, token, cfg, now).next
      ensures won <==>
        && (forall pr :: pr in old(rounds) && old(slot).Some? && old(slot).value.pr == pr
                         && old(slot).value.token == old(rounds)[pr].token ==>
              old(rounds)[pr].phase !in {Phase.Reserved, Fired})
        && (forall until :: old(slotHoldUntil) == Some(until) ==> until <= now)
        && (forall until :: old(slot).Some? && old(slot).value.holdUntil == Some(until) ==> until <= now)
        && want.pr in old(rounds) && old(rounds)[want.pr].order == want.order && old(rounds)[want.pr].head == want.head
        && old(rounds)[want.pr].phase in {Queued, AwaitingRetry} && want.pr !in holds
        && (old(rounds)[want.pr].phase == AwaitingRetry ==>
              old(rounds)[want.pr].retryAt.Some? && old(rounds)[want.pr].retryAt.value <= now
              && (old(rounds)[want.pr].dispatchRetryAt.Some? ==> old(rounds)[want.pr].dispatchRetryAt.value <= now))
        && (old(rounds)[want.pr].dispatch.Some? ==>
              old(rounds)[want.pr].dispatch.value.heartbeat + DISPATCH_TTL <= now)
        && cfg.overrideAt == if want.pr.repo in overrides then Some(overrides[want.pr.repo].at) else None
      ensures OnlyRound(want.pr) && unchanged(`archive, `holds, `overrides, `fires)
      ensures won ==>
        rounds == old(rounds)[want.pr := old(rounds)[want.pr].(phase := Phase.Reserved, token := token,
                                                               reservedAt := Some(now))]
        && slot == Some(Slot(want.pr, token, now, None)) && forall t :: SlotHeld(View(), t)
      ensures !won ==> View() == old(View())
    {
      if SlotHeld(View(), now) {
        return false;
      }
      if want.pr !in rounds || !SameRound(rounds[want.pr], want) || !Firable(View(), rounds[want.pr], now)
         || ReviewersChanged(View(), want.pr.repo, cfg) {
        return false;
      }
      var r := Reserve(rounds[want.pr], token, now).value;
      slot := Some(Slot(want.pr, token, now, None));
      PutRound(r);
      return true;
    }

    method AdoptFire(want: Round, token: Token, cfg: Cfg, command: int, firedAt: Time, deadline: Time,
                     posts: seq<string>,
                     seen: seq<CoPost>, now: Time) returns (recorded: bool)
      requires Valid()
      modifies this
      ensures Valid()
      ensures View() == C.AdoptFire(old(View()), want, token, cfg, command, firedAt, deadline, posts, seen, now).next
      ensures recorded <==>
        && !SlotHeld(old(View()), now)
        && Still(old(View()), want)
        && FireEligible(old(rounds)[want.pr], now) && want.pr !in holds
        && !ReviewersChanged(old(View()), want.pr.repo, cfg)
      ensures OnlyRound(want.pr) && unchanged(`archive, `holds, `overrides)
      ensures recorded ==>
        want.pr in rounds
        && rounds[want.pr] == old(rounds)[want.pr].(
             phase := Fired, token := token, reservedAt := Some(now), command := command, firedAt := Some(firedAt),
             attempts := old(rounds)[want.pr].attempts + 1, waitDeadline := Some(deadline), cos := rounds[want.pr].cos)
        && slot == Some(Slot(want.pr, token, now, None)) && lastFired == Some(firedAt)
      ensures recorded ==>
        forall login :: login in posts ==>
          CoOf(rounds[want.pr], login) == CoOf(old(rounds)[want.pr], login).(claimedAt := Some(now))
      ensures !recorded ==> View() == old(View())
    {
      hide RecordAll, ClaimAll, SlotHeld, ReviewersChanged, FireLog.NoteFire, Key;
      if SlotHeld(View(), now) {
        return false;
      }
      if want.pr !in rounds || !SameRound(rounds[want.pr], want) || !Firable(View(), rounds[want.pr], now)
         || ReviewersChanged(View(), want.pr.repo, cfg) {
        return false;
      }
      var fired := Fire(Reserve(rounds[want.pr], token, now).value, command, firedAt).value;
      assert fired.cos == rounds[want.pr].cos;
      assert forall login :: CoOf(fired, login) == CoOf(rounds[want.pr], login);
      var r := AdoptedRound(fired, deadline, posts, seen, now);
      PutFired(r, firedAt);
      slot := Some(Slot(want.pr, token, now, None));
      return true;
    }

    /** What an adopted fire notes on its round. */
    static method AdoptedRound(fired: Round, deadline: Time, posts: seq<string>, seen: seq<CoPost>, now: Time)
      returns (r: Round)
      ensures var claimed := ClaimAll(fired.(waitDeadline := Some(deadline)), posts, now).round;
        r == RecordAll(claimed, seen, posts).round
      ensures r.(cos := fired.cos) == fired.(waitDeadline := Some(deadline))
      ensures forall login :: login in posts ==> CoOf(r, login) == CoOf(fired, login).(claimedAt := Some(now))
    {
      hide Key, SetCo, ClaimAll, RecordAll;
      forall login | login in posts ensures Key(login) in Keys(posts) {
        var i :| 0 <= i < |posts| && posts[i] == login;
        assert Keys(posts)[i] == Key(login);
      }
      r := ClaimEvery(fired.(waitDeadline := Some(deadline)), posts, now);
      r := RecordPosts(r, seen, posts);
    }

    method PostFailed(pr: PR, token: Token, now: Time)
      requires Valid()
      modifies this
      ensures Valid()
      ensures View() == C.PostFailed(old(View()), pr, token, now).next
      ensures OnlyRound(pr) && OnlySlotOf(pr, token) && unchanged(`archive, `holds, `overrides, `fires)
      ensures
        if pr in old(rounds) && old(rounds)[pr].token == token
           && old(rounds)[pr].phase in {Phase.Reserved, Fired, Reviewing} then
          rounds == old(rounds)[pr := old(rounds)[pr].(phase := AwaitingRetry, retryAt := Some(now + 120 * SECOND),
                                                       lastAttemptAt := Some(now), token := 0, reservedAt := None)]
          && LetGo(pr, token) && forall t :: t < now + 120 * SECOND ==> !FireEligible(rounds[pr], t)
        else View() == old(View())
    {
      if pr !in rounds || rounds[pr].token != token {
        return;
      }
      var r := AwaitRetry(rounds[pr], now + BACKOFF, now);
      if r.Some? {
        ReleaseSlot(pr, token);
        PutRound(r.value);
      }
    }

    method RecordFire(want: Round, token: Token, command: int, posts: seq<CoPost>, firedAt: Time, deadline: Time)
      returns (recorded: bool)
      requires Valid()
      modifies this
      ensures Valid()
      ensures View() == C.RecordFire(old(View()), want, token, command, posts, firedAt, deadline).next
      ensures recorded <==>
        && Still(old(View()), want)
        && old(rounds)[want.pr].token == token && old(rounds)[want.pr].phase in {Phase.Reserved, Queued}
        && slot.Some? && slot.value.token == token
      ensures OnlyRound(want.pr) && unchanged(`archive, `slot, `holds, `overrides)
      ensures recorded ==>
        want.pr in rounds
        && rounds[want.pr] == old(rounds)[want.pr].(
             phase := Fired, command := command, firedAt := Some(firedAt),
             attempts := old(rounds)[want.pr].attempts + 1, waitDeadline := Some(deadline), cos := rounds[want.pr].cos)
        && lastFired == Some(firedAt)
      ensures recorded ==>
        forall key :: CoAt(old(rounds)[want.pr], key).command != 0 ==>
          CoAt(rounds[want.pr], key) == CoAt(old(rounds)[want.pr], key)
      ensures recorded ==>
        forall i ::
          0 <= i < |posts| && Leads(posts, i, []) && CoOf(old(rounds)[want.pr], posts[i].login).command == 0 ==>
          CoOf(rounds[want.pr], posts[i].login) == Co(posts[i].id, Some(posts[i].at), None)
      ensures !recorded ==> View() == old(View())
    {
      hide RecordAll, FireLog.NoteFire;
      if want.pr !in rounds || !SameRound(rounds[want.pr], want) || slot.None? || slot.value.token != token
         || rounds[want.pr].token != token {
        return false;
      }
      var fired := Fire(rounds[want.pr], command, firedAt);
      if fired.None? {
        return false;
      }
      var r := RecordPosts(fired.value.(waitDeadline := Some(deadline)), posts, []);
      PutFired(r, firedAt);
      return true;
    }

    // ---- Co-reviewer triggers

    static lemma {:induction false} EveryIsClaimed(r: Round, logins: seq<string>, now: Time, key: string)
      ensures CoAt(ClaimAll(r, logins, now).round, key)
           == if key in Keys(logins) then CoAt(r, key).(claimedAt := Some(now)) else CoAt(r, key)
      decreases |logins|
    {
      hide Key, SetCo;
      if logins != [] {
        assert Keys(logins) == [Key(logins[0])] + Keys(logins[1..]);
        EveryIsClaimed(ClaimCo(r, logins[0], now), logins[1..], now, key);
      }
    }

    static method ClaimEvery(round: Round, logins: seq<string>, now: Time) returns (r: Round)
      ensures r == ClaimAll(round, logins, now).round
      ensures r.(cos := round.cos) == round
      ensures forall key ::
        CoAt(r, key) == if key in Keys(logins) then CoAt(round, key).(claimedAt := Some(now)) else CoAt(round, key)
    {
      hide Key, SetCo;
      forall key {
        EveryIsClaimed(round, logins, now, key);
      }
      r := round;
      for i := 0 to |logins|
        invariant ClaimAll(r, logins[i..], now).round == ClaimAll(round, logins, now).round
        invariant r.(cos := round.cos) == round
      {
        assert logins[i..][1..] == logins[i + 1..];
        r := ClaimCo(r, logins[i], now);
      }
    }

    /** A bot without a command, and without a claim younger than a claim lifetime. */
    static ghost predicate Claimable(co: Co, now: Time) {
      co.command == 0 && (co.claimedAt.Some? ==> co.claimedAt.value + TRIGGER_CLAIM_TTL <= now)
    }

    /** Of the comments that skip leaves for a login, the first that is one. */
    static ghost predicate Leads(posts: seq<CoPost>, i: nat, skip: seq<string>)
      requires i < |posts|
    {
      Key(posts[i].login) !in Keys(skip) && posts[i].id != 0
      && forall j :: 0 <= j < i && Key(posts[j].login) == Key(posts[i].login) ==> posts[j].id == 0
    }

    /** These logins' claims carry this reading; nothing else of the round or state changed. */
    ghost predicate ClaimedOnly(s: State, pr: PR, claimed: seq<string>, now: Time)
      reads this
    {
      && pr in s.rounds && pr in rounds && View() == s.(rounds := s.rounds[pr := s.rounds[pr].(cos := rounds[pr].cos)])
      && forall key ::
           CoAt(rounds[pr], key)
           == if key in Keys(claimed) then CoAt(s.rounds[pr], key).(claimedAt := Some(now)) else CoAt(s.rounds[pr], key)
    }

    /** The claims that authorize posting for each of these logins. */
    static function Grants(birth: nat, logins: seq<string>, now: Time): seq<Event> {
      seq(|logins|, i requires 0 <= i < |logins| => Granted(birth, Key(logins[i]), now))
    }

    static lemma GrantsSnoc(birth: nat, logins: seq<string>, login: string, now: Time, rest: seq<Event>)
      ensures Grants(birth, logins + [login], now) + rest
           == Grants(birth, logins, now) + ([Granted(birth, Key(login), now)] + rest)
    {
      hide Key;
    }

    static lemma GrantedKeys(birth: nat, logins: seq<string>, now: Time, key: string)
      ensures Granted(birth, key, now) in Grants(birth, logins, now) <==> key in Keys(logins)
    {
      hide Key;
      if key in Keys(logins) {
        var i :| 0 <= i < |logins| && Keys(logins)[i] == key;
        assert Grants(birth, logins, now)[i] == Granted(birth, key, now);
      }
    }

    /** A bot is claimed exactly when it is named and can be claimed. */
    static lemma {:induction false} FreeIsClaimed(r: Round, logins: seq<string>, now: Time, key: string)
      ensures var done := ClaimFree(r, logins, now);
        && (Granted(r.birth, key, now) in done.events <==> key in Keys(logins) && Claimable(CoAt(r, key), now))
        && CoAt(done.round, key)
           == if Granted(r.birth, key, now) in done.events then CoAt(r, key).(claimedAt := Some(now)) else CoAt(r, key)
      decreases |logins|
    {
      hide Key, SetCo;
      if logins != [] {
        assert Keys(logins) == [Key(logins[0])] + Keys(logins[1..]);
        if CoOf(r, logins[0]).command != 0 || ClaimLive(CoOf(r, logins[0]), now) {
          FreeIsClaimed(r, logins[1..], now, key);
        } else {
          FreeIsClaimed(ClaimCo(r, logins[0], now), logins[1..], now, key);
        }
      }
    }

    static method ClaimWhereFree(round: Round, logins: seq<string>, now: Time) returns (r: Round, claimed: seq<string>)
      ensures r == ClaimFree(round, logins, now).round
      ensures r.(cos := round.cos) == round
      ensures Grants(round.birth, claimed, now) == ClaimFree(round, logins, now).events
      ensures forall login :: login in claimed ==> login in logins
      ensures forall key :: key in Keys(claimed) <==> key in Keys(logins) && Claimable(CoAt(round, key), now)
      ensures forall key ::
        CoAt(r, key) == if key in Keys(claimed) then CoAt(round, key).(claimedAt := Some(now)) else CoAt(round, key)
    {
      hide Key, SetCo;
      r, claimed := round, [];
      for i := 0 to |logins|
        invariant r.(cos := round.cos) == round
        invariant ClaimFree(r, logins[i..], now).round == ClaimFree(round, logins, now).round
        invariant Grants(round.birth, claimed, now) + ClaimFree(r, logins[i..], now).events
               == ClaimFree(round, logins, now).events
        invariant forall login :: login in claimed ==> login in logins
      {
        assert logins[i..][1..] == logins[i + 1..];
        var co := CoOf(r, logins[i]);
        if co.command != 0 || ClaimLive(co, now) {
          continue;
        }
        GrantsSnoc(round.birth, claimed, logins[i], now, ClaimFree(ClaimCo(r, logins[i], now), logins[i + 1..],
                   now).events);
        r := ClaimCo(r, logins[i], now);
        claimed := claimed + [logins[i]];
      }
      assert Grants(round.birth, claimed, now) + [] == Grants(round.birth, claimed, now);
      forall key
        ensures key in Keys(claimed) <==> key in Keys(logins) && Claimable(CoAt(round, key), now)
        ensures CoAt(r, key)
             == if key in Keys(claimed) then CoAt(round, key).(claimedAt := Some(now)) else CoAt(round, key)
      {
        FreeIsClaimed(round, logins, now, key);
        GrantedKeys(round.birth, claimed, now, key);
      }
    }

    static lemma {:induction false} RecordedStays(r: Round, posts: seq<CoPost>, skip: seq<string>, key: string)
      requires CoAt(r, key).command != 0
      ensures CoAt(RecordAll(r, posts, skip).round, key) == CoAt(r, key)
      decreases |posts|
    {
      hide Key, SetCo, ContainsBot;
      if posts != [] {
        var p := posts[0];
        if ContainsBot(skip, p.login) || CoOf(r, p.login).command != 0 {
          RecordedStays(r, posts[1..], skip, key);
        } else {
          RecordedStays(SetCoCommand(r, p.login, p.id, p.at), posts[1..], skip, key);
        }
      }
    }

    static lemma {:induction false} FirstIsRecorded(r: Round, posts: seq<CoPost>, skip: seq<string>, i: nat)
      requires i < |posts| && Leads(posts, i, skip) && CoOf(r, posts[i].login).command == 0
      ensures CoOf(RecordAll(r, posts, skip).round, posts[i].login) == Co(posts[i].id, Some(posts[i].at), None)
      decreases |posts|
    {
      hide Key, SetCo, ContainsBot;
      var p := posts[0];
      ContainsKey(skip, p.login);
      if i == 0 {
        RecordedStays(SetCoCommand(r, p.login, p.id, p.at), posts[1..], skip, Key(p.login));
      } else {
        assert Leads(posts[1..], i - 1, skip);
        if ContainsBot(skip, p.login) || CoOf(r, p.login).command != 0 {
          FirstIsRecorded(r, posts[1..], skip, i - 1);
        } else {
          FirstIsRecorded(SetCoCommand(r, p.login, p.id, p.at), posts[1..], skip, i - 1);
        }
      }
    }

    static method RecordPosts(round: Round, posts: seq<CoPost>, skip: seq<string>) returns (r: Round)
      ensures r == RecordAll(round, posts, skip).round
      ensures r.(cos := round.cos) == round
      ensures forall key :: CoAt(round, key).command != 0 || key in Keys(skip) ==> CoAt(r, key) == CoAt(round, key)
      ensures forall key :: (forall j :: 0 <= j < |posts| ==> Key(posts[j].login) != key) ==>
        CoAt(r, key) == CoAt(round, key)
      ensures forall i :: 0 <= i < |posts| && Leads(posts, i, skip) && CoOf(round, posts[i].login).command == 0 ==>
        CoOf(r, posts[i].login) == Co(posts[i].id, Some(posts[i].at), None)
    {
      hide Key, SetCo, ContainsBot;
      forall i | 0 <= i < |posts| && Leads(posts, i, skip) && CoOf(round, posts[i].login).command == 0
        ensures CoOf(RecordAll(round, posts, skip).round, posts[i].login) == Co(posts[i].id, Some(posts[i].at), None)
      {
        FirstIsRecorded(round, posts, skip, i);
      }
      r := round;
      for i := 0 to |posts|
        invariant forall key :: key in Keys(skip) ==> CoAt(r, key) == CoAt(round, key)
        invariant forall key :: (forall j :: 0 <= j < i ==> Key(posts[j].login) != key) ==>
          CoAt(r, key) == CoAt(round, key)
        invariant RecordAll(r, posts[i..], skip).round == RecordAll(round, posts, skip).round
        invariant r.(cos := round.cos) == round
        invariant forall key :: CoAt(round, key).command != 0 ==> CoAt(r, key) == CoAt(round, key)
      {
        assert posts[i..][1..] == posts[i + 1..];
        var p := posts[i];
        ContainsKey(skip, p.login);
        if ContainsBot(skip, p.login) || CoOf(r, p.login).command != 0 {
          continue;
        }
        r := SetCoCommand(r, p.login, p.id, p.at);
      }
    }

    static lemma {:induction false} AdoptedStays(r: Round, posts: seq<CoPost>, now: Time, key: string)
      requires !Claimable(CoAt(r, key), now)
      ensures CoAt(AdoptAll(r, posts, now).round, key) == CoAt(r, key)
      decreases |posts|
    {
      hide Key, SetCo;
      if posts != [] {
        var p := posts[0];
        if CoOf(r, p.login).command != 0 || ClaimLive(CoOf(r, p.login), now) {
          AdoptedStays(r, posts[1..], now, key);
        } else {
          AdoptedStays(SetCoCommand(r, p.login, p.id, p.at), posts[1..], now, key);
        }
      }
    }

    static lemma {:induction false} FirstIsAdopted(r: Round, posts: seq<CoPost>, now: Time, i: nat)
      requires i < |posts| && Leads(posts, i, []) && Claimable(CoOf(r, posts[i].login), now)
      ensures CoOf(AdoptAll(r, posts, now).round, posts[i].login) == Co(posts[i].id, Some(posts[i].at), None)
      decreases |posts|
    {
      hide Key, SetCo;
      var p := posts[0];
      if i == 0 {
        AdoptedStays(SetCoCommand(r, p.login, p.id, p.at), posts[1..], now, Key(p.login));
      } else {
        assert Leads(posts[1..], i - 1, []);
        if CoOf(r, p.login).command != 0 || ClaimLive(CoOf(r, p.login), now) {
          FirstIsAdopted(r, posts[1..], now, i - 1);
        } else {
          FirstIsAdopted(SetCoCommand(r, p.login, p.id, p.at), posts[1..], now, i - 1);
        }
      }
    }

    static method AdoptPosts(round: Round, posts: seq<CoPost>, now: Time) returns (r: Round, adopted: nat)
      ensures r == AdoptAll(round, posts, now).round && adopted == |AdoptAll(round, posts, now).events|
      ensures r.(cos := round.cos) == round
      ensures forall key :: !Claimable(CoAt(round, key), now) ==> CoAt(r, key) == CoAt(round, key)
      ensures forall key :: (forall j :: 0 <= j < |posts| ==> Key(posts[j].login) != key) ==>
        CoAt(r, key) == CoAt(round, key)
      ensures forall i :: 0 <= i < |posts| && Leads(posts, i, []) && Claimable(CoOf(round, posts[i].login), now) ==>
        CoOf(r, posts[i].login) == Co(posts[i].id, Some(posts[i].at), None)
    {
      hide Key, SetCo;
      forall i | 0 <= i < |posts| && Leads(posts, i, []) && Claimable(CoOf(round, posts[i].login), now)
        ensures CoOf(AdoptAll(round, posts, now).round, posts[i].login) == Co(posts[i].id, Some(posts[i].at), None)
      {
        FirstIsAdopted(round, posts, now, i);
      }
      r, adopted := round, 0;
      for i := 0 to |posts|
        invariant r.(cos := round.cos) == round
        invariant forall key :: !Claimable(CoAt(round, key), now) ==> CoAt(r, key) == CoAt(round, key)
        invariant forall key :: (forall j :: 0 <= j < i ==> Key(posts[j].login) != key) ==>
          CoAt(r, key) == CoAt(round, key)
        invariant AdoptAll(r, posts[i..], now).round == AdoptAll(round, posts, now).round
        invariant adopted + |AdoptAll(r, posts[i..], now).events| == |AdoptAll(round, posts, now).events|
      {
        assert posts[i..][1..] == posts[i + 1..];
        var p := posts[i];
        if CoOf(r, p.login).command != 0 || ClaimLive(CoOf(r, p.login), now) {
          continue;
        }
        r := SetCoCommand(r, p.login, p.id, p.at);
        adopted := adopted + 1;
      }
    }

    static lemma {:induction false} EveryIsCleared(r: Round, logins: seq<string>, key: string)
      ensures CoAt(ClearAll(r, logins).round, key)
           == if key in Keys(logins) then CoAt(r, key).(claimedAt := None) else CoAt(r, key)
      decreases |logins|
    {
      hide Key, SetCo;
      if logins != [] {
        assert Keys(logins) == [Key(logins[0])] + Keys(logins[1..]);
        EveryIsCleared(ClearCoClaim(r, logins[0]), logins[1..], key);
      }
    }

    static method ClearClaims(round: Round, logins: seq<string>) returns (r: Round)
      ensures r == ClearAll(round, logins).round
      ensures r.(cos := round.cos) == round
      ensures forall key ::
        CoAt(r, key) == if key in Keys(logins) then CoAt(round, key).(claimedAt := None) else CoAt(round, key)
    {
      hide Key, SetCo;
      forall key {
        EveryIsCleared(round, logins, key);
      }
      r := round;
      for i := 0 to |logins|
        invariant ClearAll(r, logins[i..]).round == ClearAll(round, logins).round
        invariant r.(cos := round.cos) == round
      {
        assert logins[i..][1..] == logins[i + 1..];
        r := ClearCoClaim(r, logins[i]);
      }
    }

    method ArchivedRound(want: Round) returns (at: Option<nat>)
      ensures at == ArchivedAt(archive, want)
      ensures at.Some? ==>
        at.value < |archive| && archive[at.value].order == want.order && archive[at.value].head == want.head
      ensures forall i :: (if at.Some? then at.value < i else 0 <= i) && i < |archive| ==>
        archive[i].order != want.order || archive[i].head != want.head
    {
      var i := |archive|;
      assert archive[..i] == archive;
      while i > 0
        invariant 0 <= i <= |archive| && ArchivedAt(archive[..i], want) == ArchivedAt(archive, want)
      {
        i := i - 1;
        assert archive[..i + 1][..i] == archive[..i];
        if SameRound(archive[i], want) {
          return Some(i);
        }
      }
      return None;
    }

    method ClaimCoOnly(want: Round, logins: seq<string>, cfg: Cfg, now: Time) returns (claimed: seq<string>)
      requires Valid()
      modifies this
      ensures Valid()
      ensures View() == C.ClaimCoOnly(old(View()), want, logins, cfg, now).next
      ensures
        if Still(old(View()), want)
           && FireEligible(old(rounds)[want.pr], now) && want.pr !in holds
           && !ReviewersChanged(old(View()), want.pr.repo, cfg) then
          && (forall key ::
                key in Keys(claimed) <==> key in Keys(logins) && Claimable(CoAt(old(rounds)[want.pr], key), now))
          && ClaimedOnly(old(View()), want.pr, claimed, now)
        else claimed == [] && View() == old(View())
      ensures C.ClaimCoOnly(old(View()), want, logins, cfg, now).events
           == if claimed == [] then [] else Grants(old(rounds)[want.pr].birth, claimed, now)
      ensures OnlyRound(want.pr) && unchanged(`slot, `holds, `overrides, `fires)
      ensures forall login :: login in claimed ==> login in logins
    {
      hide ClaimFree, ReviewersChanged;
      claimed := [];
      if want.pr !in rounds || !SameRound(rounds[want.pr], want) || !Firable(View(), rounds[want.pr], now)
         || ReviewersChanged(View(), want.pr.repo, cfg) {
        return;
      }
      var r;
      r, claimed := ClaimWhereFree(rounds[want.pr], logins, now);
      if claimed != [] {
        PutRound(r);
      }
    }

    /** Of the archive only the newest round with this Seq and head changed, and of it only
        these claims, which are gone, and the commands the posts gave it. */
    ghost predicate Refiled(before: seq<Round>, want: Round, cleared: seq<string>, posts: seq<CoPost>)
      reads this
    {
      var at := ArchivedAt(before, want);
      if at.None? then archive == before
      else
        && |archive| == |before| && archive == before[at.value := archive[at.value]]
        && archive[at.value].(cos := before[at.value].cos) == before[at.value]
        && (forall login :: login in cleared && CoOf(before[at.value], login).command != 0 ==>
              CoOf(archive[at.value], login) == CoOf(before[at.value], login).(claimedAt := None))
        && (forall key :: key !in Keys(cleared) && (forall p :: p in posts ==> Key(p.login) != key) ==>
              CoAt(archive[at.value], key) == CoAt(before[at.value], key))
        && (posts == [] ==>
              forall key :: key in Keys(cleared) ==>
                CoAt(archive[at.value], key) == CoAt(before[at.value], key).(claimedAt := None))
        && (forall i | 0 <= i < |posts| && Leads(posts, i, []) && CoOf(before[at.value], posts[i].login).command == 0 ::
              CoOf(archive[at.value], posts[i].login) == Co(posts[i].id, Some(posts[i].at), None))
    }

    method CoOnlyFailed(want: Round, claimed: seq<string>, token: Token, now: Time)
      requires Valid()
      modifies this
      ensures Valid()
      ensures View() == C.CoOnlyFailed(old(View()), want, claimed, token, now).next
      ensures OnlyRound(want.pr) && unchanged(`slot, `holds, `overrides, `fires)
      ensures Still(old(View()), want) ==>
        if FireEligible(old(rounds)[want.pr], now)
           || old(rounds)[want.pr].phase in {Phase.Reserved, Fired, Reviewing} then
          && rounds[want.pr] == old(rounds)[want.pr].(phase := AwaitingRetry, retryAt := Some(now + 120 * SECOND),
                                                      lastAttemptAt := Some(now), token := 0, reservedAt := None)
          && unchanged(`archive)
        else View() == old(View())
      ensures !Still(old(View()), want) ==>
        rounds == old(rounds) && Refiled(old(archive), want, claimed, [])
    {
      if want.pr !in rounds || !SameRound(rounds[want.pr], want) {
        var at := ArchivedRound(want);
        if at.Some? {
          var cleared := ClearClaims(archive[at.value], claimed);
          archive := archive[at.value := cleared];
        }
        return;
      }
      var r := rounds[want.pr];
      if FireEligible(r, now) {
        r := Reserve(r, token, now).value;
      }
      var parked := AwaitRetry(r, now + BACKOFF, now);
      if parked.Some? {
        PutRound(parked.value);
      }
    }

    method CoOnlyRecord(want: Round, claimed: seq<string>, posts: seq<CoPost>, token: Token, deadline: Time, now: Time)
      requires posts != []
      requires Valid()
      modifies this
      ensures Valid()
      ensures View() == C.CoOnlyRecord(old(View()), want, claimed, posts, token, deadline, now).next
      ensures OnlyRound(want.pr) && unchanged(`slot, `holds, `overrides, `fires)
      ensures Still(old(View()), want) ==>
        unchanged(`archive) && CoOnlyFired(old(rounds)[want.pr], rounds[want.pr], posts, deadline, now)
      ensures !Still(old(View()), want) ==>
        rounds == old(rounds) && Refiled(old(archive), want, claimed, posts)
    {
      hide RecordAll, ClearAll, ArchivedAt, Key, SetCo, CoOnlyFired, FireEligible;
      if want.pr !in rounds || !SameRound(rounds[want.pr], want) {
        var at := ArchivedRound(want);
        if at.Some? {
          var cleared := ClearClaims(archive[at.value], claimed);
          cleared := RecordPosts(cleared, posts, []);
          archive := archive[at.value := cleared];
        }
        return;
      }
      var r := FireCoOnly(rounds[want.pr], posts, token, deadline, now);
      PutRound(r);
    }

    /** A round that may fire is fired on its first comment, without a token; every comment
        is recorded where its login has none. */
    static ghost predicate CoOnlyFired(r: Round, next: Round, posts: seq<CoPost>, deadline: Time, now: Time)
      requires posts != []
    {
      && next.(cos := r.cos)
         == (if FireEligible(r, now) then
               r.(phase := Fired, token := 0, reservedAt := Some(now), command := posts[0].id,
                  firedAt := Some(posts[0].at), attempts := r.attempts + 1, waitDeadline := Some(deadline))
             else r)
      && (forall key :: CoAt(r, key).command != 0 ==> CoAt(next, key) == CoAt(r, key))
      && forall i :: 0 <= i < |posts| && Leads(posts, i, []) && CoOf(r, posts[i].login).command == 0 ==>
           CoOf(next, posts[i].login) == Co(posts[i].id, Some(posts[i].at), None)
    }

    static method FireCoOnly(live: Round, posts: seq<CoPost>, token: Token, deadline: Time, now: Time)
      returns (r: Round)
      requires posts != []
      ensures CoOnlyFired(live, r, posts, deadline, now) && r.pr == live.pr
      ensures r == RecordAll(if !FireEligible(live, now) then live
                             else Fire(Reserve(live, token, now).value, posts[0].id, posts[0].at).value
                                  .(token := 0, waitDeadline := Some(deadline)), posts, []).round
    {
      hide RecordAll, Key;
      r := live;
      if FireEligible(r, now) {
        r := Fire(Reserve(r, token, now).value, posts[0].id, posts[0].at).value;
        r := r.(token := 0, waitDeadline := Some(deadline));
      }
      assert forall login :: CoOf(r, login) == CoOf(live, login);
      r := RecordPosts(r, posts, []);
    }

    /** Each bot that can be claimed takes the first comment offered for it, and when there is
        none and it is named, a claim; the bots claimed are reported. */
    static ghost predicate AdoptedThenClaimed(r: Round, next: Round, adopts: seq<CoPost>, logins: seq<string>,
                                              claimed: seq<string>, now: Time)
    {
      && next.(cos := r.cos) == r
      && (forall i :: 0 <= i < |adopts| && Leads(adopts, i, []) && Claimable(CoOf(r, adopts[i].login), now) ==>
            CoOf(next, adopts[i].login) == Co(adopts[i].id, Some(adopts[i].at), None))
      && (forall key :: !Claimable(CoAt(r, key), now) ==> CoAt(next, key) == CoAt(r, key) && key !in Keys(claimed))
      && (forall key :: (forall j :: 0 <= j < |adopts| ==> Key(adopts[j].login) != key) ==>
            && (key in Keys(claimed) <==> key in Keys(logins) && Claimable(CoAt(r, key), now))
            && CoAt(next, key) == if key in Keys(claimed) then CoAt(r, key).(claimedAt := Some(now)) else CoAt(r, key))
    }

    method ClaimDeferred(want: Round, adopts: seq<CoPost>, logins: seq<string>, cfg: Cfg, now: Time)
      returns (adopted: nat, claimed: seq<string>)
      requires Valid()
      modifies this
      ensures Valid()
      ensures View() == C.ClaimDeferred(old(View()), want, adopts, logins, cfg, now).next
      ensures adopted > 0 || claimed != [] ==> want.pr in old(rounds)
      ensures OnlyRound(want.pr) && unchanged(`slot, `holds, `overrides, `fires)
      ensures var events := C.ClaimDeferred(old(View()), want, adopts, logins, cfg, now).events;
        adopted <= |events| && (forall i :: 0 <= i < adopted ==> events[i].Commanded?)
        && events[adopted..] == if claimed == [] then [] else Grants(old(rounds)[want.pr].birth, claimed, now)
      ensures forall login :: login in claimed ==> login in logins
      ensures
        if Still(old(View()), want) && old(rounds)[want.pr].phase in {Queued, AwaitingRetry} && want.pr !in holds
           && !ReviewersChanged(old(View()), want.pr.repo, cfg) then
          unchanged(`archive) && AdoptedThenClaimed(old(rounds)[want.pr], rounds[want.pr], adopts, logins, claimed, now)
        else adopted == 0 && claimed == [] && View() == old(View())
    {
      hide AdoptAll, ClaimFree, ReviewersChanged, Key, AdoptedThenClaimed;
      adopted, claimed := 0, [];
      if want.pr !in rounds || !SameRound(rounds[want.pr], want) || rounds[want.pr].phase !in {Queued, AwaitingRetry}
         || ReviewersChanged(View(), want.pr.repo, cfg) || want.pr in holds {
        return;
      }
      var r;
      r, adopted, claimed := AdoptThenClaim(rounds[want.pr], adopts, logins, now);
      if adopted != 0 || claimed != [] {
        PutRound(r);
      }
    }

    static method AdoptThenClaim(round: Round, adopts: seq<CoPost>, logins: seq<string>, now: Time)
      returns (r: Round, adopted: nat, claimed: seq<string>)
      ensures var first := AdoptAll(round, adopts, now);
        var last := ClaimFree(first.round, logins, now);
        && r == last.round && adopted == |first.events| && (forall e :: e in first.events ==> e.Commanded?)
        && last.events == Grants(round.birth, claimed, now)
      ensures AdoptedThenClaimed(round, r, adopts, logins, claimed, now) && r.pr == round.pr
      ensures adopted == 0 && claimed == [] ==> r == round
      ensures forall login :: login in claimed ==> login in logins
    {
      hide Key, SetCo, AdoptAll, ClaimFree;
      AdoptSame(round, adopts, now);
      r, adopted := AdoptPosts(round, adopts, now);
      NothingFree(r, logins, now);
      r, claimed := ClaimWhereFree(r, logins, now);
    }

    static lemma {:induction false} NothingFree(r: Round, logins: seq<string>, now: Time)
      ensures ClaimFree(r, logins, now).events == [] ==> ClaimFree(r, logins, now).round == r
      decreases |logins|
    {
      hide Key, SetCo;
      if logins != [] && (CoOf(r, logins[0]).command != 0 || ClaimLive(CoOf(r, logins[0]), now)) {
        NothingFree(r, logins[1..], now);
      }
    }

    /** Adopting changes nothing but the bots' entries, and only records commands. */
    static lemma {:induction false} AdoptSame(r: Round, posts: seq<CoPost>, now: Time)
      ensures var done := AdoptAll(r, posts, now);
        done.round.(cos := r.cos) == r && (done.events == [] ==> done.round == r)
      ensures forall e :: e in AdoptAll(r, posts, now).events ==> e.Commanded?
      decreases |posts|
    {
      hide Key, SetCo;
      if posts != [] {
        var p := posts[0];
        if CoOf(r, p.login).command != 0 || ClaimLive(CoOf(r, p.login), now) {
          AdoptSame(r, posts[1..], now);
        } else {
          AdoptSame(SetCoCommand(r, p.login, p.id, p.at), posts[1..], now);
        }
      }
    }

    method ClaimSelfHeal(want: Round, login: string, cfg: Cfg, now: Time) returns (claimed: bool)
      requires Valid()
      modifies this
      ensures Valid()
      ensures View() == C.ClaimSelfHeal(old(View()), want, login, cfg, now).next
      ensures OnlyRound(want.pr) && unchanged(`slot, `holds, `overrides, `fires)
      ensures claimed <==>
        && Still(old(View()), want)
        && CoOf(old(rounds)[want.pr], login).command == CoOf(want, login).command && want.pr !in holds
        && !ClaimLive(CoOf(old(rounds)[want.pr], login), now) && !ReviewersChanged(old(View()), want.pr.repo, cfg)
      ensures claimed ==>
        rounds[want.pr].(cos := old(rounds)[want.pr].cos) == old(rounds)[want.pr]
        && forall key :: CoAt(rounds[want.pr], key)
             == if key == Key(login) then CoAt(old(rounds)[want.pr], key).(claimedAt := Some(now))
                else CoAt(old(rounds)[want.pr], key)
      ensures !claimed ==> View() == old(View())
    {
      if want.pr !in rounds || !SameRound(rounds[want.pr], want)
         || CoOf(rounds[want.pr], login).command != CoOf(want, login).command
         || ReviewersChanged(View(), want.pr.repo, cfg) || want.pr in holds
         || ClaimLive(CoOf(rounds[want.pr], login), now) {
        return false;
      }
      var r := ClaimCo(rounds[want.pr], login, now);
      PutRound(r);
      return true;
    }

    method TriggerFailed(want: Round, login: string)
      requires Valid()
      modifies this
      ensures Valid()
      ensures View() == C.TriggerFailed(old(View()), want, login).next
      ensures unchanged(`rounds, `slot, `holds, `overrides, `fires)
      ensures if Still(old(View()), want) then archive == old(archive) else Refiled(old(archive), want, [login], [])
    {
      if want.pr in rounds && SameRound(rounds[want.pr], want) {
        return;
      }
      var at := ArchivedRound(want);
      if at.Some? {
        var cleared := ClearClaims(archive[at.value], [login]);
        archive := archive[at.value := cleared];
      }
    }

    /** The bot's claim is let go, and its command is the posted one exactly when it was still
        the one the worker had seen; no other bot's entry changed. */
    static ghost predicate TriggerLanded(r: Round, next: Round, want: Round, login: string, id: int, at: Time) {
      && next.(cos := r.cos) == r && (forall key :: key != Key(login) ==> CoAt(next, key) == CoAt(r, key))
      && CoOf(next, login)
         == if CoOf(r, login).command == CoOf(want, login).command then Co(id, Some(at), None)
            else CoOf(r, login).(claimedAt := None)
    }

    static method NoteTrigger(round: Round, want: Round, login: string, id: int, at: Time) returns (r: Round)
      ensures r == TriggerNoted(round, want, login, id, at).round && r.pr == round.pr
      ensures TriggerLanded(round, r, want, login, id, at)
    {
      hide Key;
      if CoOf(round, login).command == CoOf(want, login).command {
        r := SetCoCommand(round, login, id, at);
      } else {
        r := ClearCoClaim(round, login);
      }
    }

    method TriggerRecorded(want: Round, login: string, id: int, at: Time)
      requires Valid()
      modifies this
      ensures Valid()
      ensures View() == C.TriggerRecorded(old(View()), want, login, id, at).next
      ensures OnlyRound(want.pr) && unchanged(`slot, `holds, `overrides, `fires)
      ensures Still(old(View()), want) ==>
        archive == old(archive) && TriggerLanded(old(rounds)[want.pr], rounds[want.pr], want, login, id, at)
      ensures !Still(old(View()), want) ==>
        var filed := ArchivedAt(old(archive), want);
        && rounds == old(rounds) && |archive| == |old(archive)|
        && (filed.None? ==> archive == old(archive))
        && (filed.Some? ==>
              archive == old(archive)[filed.value := archive[filed.value]]
              && TriggerLanded(old(archive)[filed.value], archive[filed.value], want, login, id, at))
    {
      hide ArchivedAt, Key, SetCo, TriggerNoted;
      if want.pr in rounds && SameRound(rounds[want.pr], want) {
        var r := NoteTrigger(rounds[want.pr], want, login, id, at);
        PutRound(r);
      } else {
        var filed := ArchivedRound(want);
        if filed.Some? {
          var r := NoteTrigger(archive[filed.value], want, login, id, at);
          archive := archive[filed.value := r];
        }
      }
    }

    method CoReviewWait(want: Round, adopts: seq<CoPost>, deadline: Time, anchor: Time,
                        now: Time) returns (changed: bool)
      requires Valid()
      modifies this
      ensures Valid()
      ensures View() == C.CoReviewWait(old(View()), want, adopts, deadline, anchor, now).next
      ensures changed <==>
        && Still(old(View()), want)
        && FireEligible(old(rounds)[want.pr], now) && want.pr !in holds
      ensures OnlyRound(want.pr) && unchanged(`slot, `holds, `overrides, `fires)
      ensures changed ==>
        rounds[want.pr] == old(rounds)[want.pr].(
          phase := Reviewing, waitDeadline := Some(deadline), token := 0, reservedAt := None,
          firedAt := if old(rounds)[want.pr].firedAt.None? then Some(anchor) else old(rounds)[want.pr].firedAt,
          cos := rounds[want.pr].cos)
      ensures changed ==>
        forall key :: CoAt(old(rounds)[want.pr], key).command != 0 ==>
          CoAt(rounds[want.pr], key) == CoAt(old(rounds)[want.pr], key)
      ensures changed ==>
        forall i ::
          0 <= i < |adopts| && Leads(adopts, i, []) && CoOf(old(rounds)[want.pr], adopts[i].login).command == 0 ==>
          CoOf(rounds[want.pr], adopts[i].login) == Co(adopts[i].id, Some(adopts[i].at), None)
      ensures !changed ==> View() == old(View())
    {
      if want.pr !in rounds || !SameRound(rounds[want.pr], want) || !Firable(View(), rounds[want.pr], now) {
        return false;
      }
      var r := AwaitCoReview(rounds[want.pr], deadline, anchor).value;
      r := RecordPosts(r, adopts, []);
      PutRound(r);
      return true;
    }

    // ---- Progress and completion

    method Transition(pr: PR, seen: Seen, tr: Progress, cfg: Cfg, policyMoved: bool, lagging: bool, reviewed: bool,
                      now: Time)
      requires Valid()
      modifies this
      ensures Valid()
      ensures View() == C.Transition(old(View()), pr, seen, tr, cfg, policyMoved, lagging, reviewed, now).next
      ensures OnlyRound(pr) && (pr in old(rounds) ==> OnlySlotOf(pr, old(rounds)[pr].token))
      ensures unchanged(`holds, `overrides, `fires)
      ensures var s := old(View());
        if pr !in s.rounds
           || (match seen
               case BySlot(token) => s.slot.None? || s.slot.value.token != token
               case ByRound(want) =>
                 s.rounds[pr].order != want.order || s.rounds[pr].head != want.head
                 || s.rounds[pr].phase !in {Fired, Reviewing})
        then View() == s
        else View() == Applied(s, pr, tr, cfg, policyMoved, lagging, reviewed, now).next
    {
      hide Applied;
      if pr !in rounds {
        return;
      }
      match seen {
        case BySlot(expected) =>
          if slot.None? || slot.value.token != expected { return; }
        case ByRound(want) =>
          if !SameRound(rounds[pr], want) || rounds[pr].phase !in {Fired, Reviewing} { return; }
      }
      ApplyTransition(pr, tr, cfg, policyMoved, lagging, reviewed, now);
    }

    method ApplyTransition(pr: PR, tr: Progress, cfg: Cfg, policyMoved: bool, lagging: bool, reviewed: bool, now: Time)
      requires Valid() && pr in rounds
      modifies this
      ensures Valid()
      ensures View() == Applied(old(View()), pr, tr, cfg, policyMoved, lagging, reviewed, now).next
      ensures OnlyRound(pr) && OnlySlotOf(pr, old(rounds)[pr].token) && unchanged(`holds, `overrides, `fires)
    {
      hide ReviewersChanged, Rounds.ReleaseSlot, Rounds.EndRound;
      var r, token := rounds[pr], rounds[pr].token;
      var changed := ReviewersChanged(View(), pr.repo, cfg);
      var next: Option<Round>;
      match tr {
        case ToComplete =>
          if changed { return; }
          next := Complete(r);
        case ToExpire =>
          if changed || lagging { return; }
          next := Expire(r);
        case ToReviewing =>
          next := Acknowledge(r);
        case ToRetry(retryAt) =>
          if changed || policyMoved { return; }
          if !reviewed {
            EndAndRelease(pr, token);
            return;
          }
          next := AwaitRetry(r, retryAt, now);
        case ToRelease =>
          if changed { return; }
          next := ReleaseToQueue(r, now);
        case ToAbandon =>
          EndAndRelease(pr, token);
          return;
      }
      if next.Some? {
        PutAndRelease(next.value, token);
      }
    }

    method CompleteWait(pr: PR, head: string, holdUnacked: bool, cfg: Cfg, inflight: Time, now: Time)
      requires Valid()
      modifies this
      ensures Valid()
      ensures View() == C.CompleteWait(old(View()), pr, head, holdUnacked, cfg, inflight, now).next
      ensures OnlyRound(pr) && unchanged(`archive, `holds, `overrides, `fires)
      ensures head != "" && pr in old(rounds) && old(rounds)[pr].head != head ==> View() == old(View())
      ensures rounds != old(rounds) ==> pr in rounds && rounds[pr].phase == Completed
    {
      if pr !in rounds || rounds[pr].phase !in {Fired, Reviewing} || (head != "" && rounds[pr].head != head)
         || ReviewersChanged(View(), pr.repo, cfg) {
        return;
      }
      var r := rounds[pr];
      if holdUnacked && slot.Some? && slot.value.pr == pr {
        if r.firedAt.Some? {
          var until := r.firedAt.value + inflight;
          if until > now && (slot.value.holdUntil.None? || slot.value.holdUntil.value < until) {
            HoldSlotUntil(until);
          }
        }
        return;
      }
      var done := Complete(r).value;
      ReleaseSlot(pr, r.token);
      PutRound(done);
    }

    method DedupeRound(want: Round, cfg: Cfg, now: Time) returns (deduped: bool)
      requires Valid()
      modifies this
      ensures Valid()
      ensures View() == C.DedupeRound(old(View()), want, cfg, now).next
      ensures OnlyRound(want.pr) && unchanged(`slot, `holds, `overrides, `fires)
      ensures deduped <==>
        && Still(old(View()), want)
        && FireEligible(old(rounds)[want.pr], now) && want.pr !in holds
        && !ReviewersChanged(old(View()), want.pr.repo, cfg)
      ensures deduped ==>
        rounds[want.pr] == old(rounds)[want.pr].(phase := Completed, token := 0, reservedAt := None)
      ensures !deduped ==> View() == old(View())
    {
      if want.pr !in rounds || !SameRound(rounds[want.pr], want) || !Firable(View(), rounds[want.pr], now)
         || ReviewersChanged(View(), want.pr.repo, cfg) {
        return false;
      }
      var r := Dedupe(rounds[want.pr], now).value;
      PutRound(r);
      return true;
    }

    // ---- Changing the reviewers

    static method ArchivedClaimed(r: Round, now: Time) returns (claimed: bool)
      ensures claimed <==>
        || (r.reservedAt.Some? && now < r.reservedAt.value + TRIGGER_CLAIM_TTL)
        || (exists key :: key in r.cos && r.cos[key].claimedAt.Some?
              && now < r.cos[key].claimedAt.value + TRIGGER_CLAIM_TTL)
    {
      if r.reservedAt.Some? && now < r.reservedAt.value + TRIGGER_CLAIM_TTL {
        return true;
      }
      var left := r.cos.Keys;
      while left != {}
        invariant left <= r.cos.Keys
        invariant forall key :: key in r.cos && key !in left ==>
          r.cos[key].claimedAt.None? || now >= r.cos[key].claimedAt.value + TRIGGER_CLAIM_TTL
        decreases |left|
      {
        var key :| key in left;
        if r.cos[key].claimedAt.Some? && now < r.cos[key].claimedAt.value + TRIGGER_CLAIM_TTL {
          return true;
        }
        left := left - {key};
      }
      return false;
    }

    method ClaimedRepo(repo: string, now: Time) returns (claimed: bool)
      ensures claimed <==> ClaimedTriggerRepo(View(), repo, now)
      ensures claimed <==>
        || (exists pr :: pr in rounds && pr.repo == repo && TriggerPostClaimed(rounds[pr]))
        || (exists r :: r in archive && r.pr.repo == repo && ArchivedPostClaimed(r, now))
    {
      var left := rounds.Keys;
      while left != {}
        invariant left <= rounds.Keys
        invariant forall pr :: pr in rounds && pr !in left && pr.repo == repo ==> !TriggerPostClaimed(rounds[pr])
        decreases |left|
      {
        var pr :| pr in left;
        if pr.repo == repo {
          var posting := PostClaimed(rounds[pr]);
          if posting {
            return true;
          }
        }
        left := left - {pr};
      }
      for i := 0 to |archive|
        invariant forall j :: 0 <= j < i && archive[j].pr.repo == repo ==> !ArchivedPostClaimed(archive[j], now)
      {
        if archive[i].pr.repo == repo {
          var posting := ArchivedClaimed(archive[i], now);
          if posting {
            return true;
          }
        }
      }
      return false;
    }

    static method SameAsBefore(before: Config, after: Config) returns (same: bool)
      ensures same <==> SameReviewers(before, after)
    {
      var required := CompareLogins(before.requiredBots, after.requiredBots);
      if !required {
        return false;
      }
      var logins := CompareLogins(Logins(before.reviewers), Logins(after.reviewers));
      return logins && SameTriggerSettings(before.reviewers, after.reviewers);
    }

    static method ReopenOne(r: Round, open: bool) returns (next: Round)
      ensures next == Reopened(r, open)
      ensures r.phase != Completed ==> next == r
      ensures r.phase == Completed && !open ==> next == r.(reviewersChanged := true)
      ensures r.phase == Completed && open ==>
        && next == r.(phase := Queued, token := 0, reservedAt := None, waitDeadline := None, retryAt := None,
                      reviewersChanged := false)
        && forall now :: FireEligible(next, now) <==> !DispatchHeld(r, now)
    {
      next := r;
      if r.phase == Completed {
        if open {
          next := Reopen(r).value;
        } else {
          next := r.(reviewersChanged := true);
        }
      }
    }

    /** One round once its repository is reopened. */
    static function ReopenedAt(pr: PR, r: Round, repo: string, open: set<nat>): Round {
      if pr.repo == repo then Reopened(r, pr.number in open) else r
    }

    static lemma ReopenedMap(rounds: map<PR, Round>, next: map<PR, Round>, repo: string, open: set<nat>)
      requires next.Keys == rounds.Keys && forall pr :: pr in rounds ==>
        next[pr] == ReopenedAt(pr, rounds[pr], repo, open)
      ensures next == ReopenedIn(rounds, repo, open)
    {
      hide Reopened;
    }

    static method ReopenAll(rounds: map<PR, Round>, repo: string, open: set<nat>) returns (next: map<PR, Round>)
      ensures next == ReopenedIn(rounds, repo, open)
    {
      hide Reopened, ReopenedIn, ReopenedAt;
      next := rounds;
      var left := rounds.Keys;
      while left != {}
        invariant left <= rounds.Keys && next.Keys == rounds.Keys
        invariant forall pr :: pr in left ==> next[pr] == rounds[pr]
        invariant forall pr :: pr in rounds && pr !in left ==> next[pr] == ReopenedAt(pr, rounds[pr], repo, open)
        decreases |left|
      {
        var pr :| pr in left;
        var r := ReopenIn(pr, rounds[pr], repo, open);
        next := next[pr := r];
        left := left - {pr};
      }
      ReopenedMap(rounds, next, repo, open);
    }

    static method ReopenIn(pr: PR, round: Round, repo: string, open: set<nat>) returns (r: Round)
      ensures r == ReopenedAt(pr, round, repo, open)
    {
      r := round;
      if pr.repo == repo {
        r := ReopenOne(round, pr.number in open);
      }
    }

    /** Reopening touches the repository's completed rounds and no other: those of open pull
        requests wait again, and the others are marked. */
    static ghost predicate ReopenedOnly(rounds: map<PR, Round>, next: map<PR, Round>, repo: string, open: set<nat>) {
      next.Keys == rounds.Keys && forall pr :: pr in rounds ==>
        var r := rounds[pr];
        next[pr] == if pr.repo != repo || r.phase != Completed then r
                    else if pr.number !in open then r.(reviewersChanged := true)
                    else r.(phase := Queued, token := 0, reservedAt := None, waitDeadline := None, retryAt := None,
                            reviewersChanged := false)
    }

    static lemma ReopenedExactly(rounds: map<PR, Round>, repo: string, open: set<nat>)
      ensures ReopenedOnly(rounds, ReopenedIn(rounds, repo, open), repo, open)
    {
    }

    method ReopenForChangedReviewers(repo: string, before: Config, after: Config, open: set<nat>)
      requires Valid()
      modifies this
      ensures Valid()
      ensures View() == old(View()).(rounds := ReopenedRounds(old(rounds), repo, before, after, open))
      ensures unchanged(`archive, `slot, `holds, `overrides, `fires, `nextSeq) && rounds.Keys == old(rounds).Keys
      ensures if SameReviewers(before, after) || !Added(before, after) then rounds == old(rounds)
              else ReopenedOnly(old(rounds), rounds, repo, open)
    {
      hide Added, SameReviewers, LoginsOf, ReopenedIn;
      var same := SameAsBefore(before, after);
      if same {
        return;
      }
      var added := AddedReviewers(before, after, LoginsOf(before.reviewers, false), LoginsOf(after.reviewers, false));
      if !added {
        return;
      }
      ReopenedExactly(rounds, repo, open);
      rounds := ReopenAll(rounds, repo, open);
    }

    method SetReviewers(f: Fleet, repo: string, ov: Override, open: set<nat>, now: Time)
      requires Valid()
      modifies this
      ensures Valid()
      ensures View() == C.SetReviewers(f, old(View()), repo, ov, open, now).next
      ensures unchanged(`archive, `slot, `holds, `fires, `nextSeq) && rounds.Keys == old(rounds).Keys
      ensures var before, after := CfgFor(f, old(View()), repo).config, Under(f.registry, f.base, ov);
        var was := if repo in old(overrides) then old(overrides)[repo].ov else Override(false, [], false, [], false);
        if after.requiredBots == [] || ClaimedTriggerRepo(old(View()), repo, now)
           || (ov.setCoBots == was.setCoBots && ov.setRequired == was.setRequired && ov.primaryOff == was.primaryOff
               && SameLogins(ov.coBots, was.coBots) && SameLogins(ov.required, was.required)) then
          View() == old(View())
        else
          && overrides == (if !ov.setCoBots && !ov.setRequired && !ov.primaryOff then old(overrides) - {repo}
                           else old(overrides)[repo := Stamped(ov, now)])
          && if SameReviewers(before, after) || !Added(before, after) then rounds == old(rounds)
             else ReopenedOnly(old(rounds), rounds, repo, open)
    {
      hide Under, ReopenedRounds, ClaimedTriggerRepo, SameLogins, ReopenedOnly, Added, SameReviewers;
      var before, was := f.base, NO_OVERRIDE;
      if repo in overrides {
        was := overrides[repo].ov;
        before := ForRepo.ForRepo(f.registry, f.base, was);
      }
      var after := ForRepo.ForRepo(f.registry, f.base, ov);
      var coSame := CompareLogins(ov.coBots, was.coBots);
      var requiredSame := CompareLogins(ov.required, was.required);
      var claimed := ClaimedRepo(repo, now);
      if after.requiredBots == [] || claimed
         || (ov.setCoBots == was.setCoBots && ov.setRequired == was.setRequired && ov.primaryOff == was.primaryOff
             && coSame && requiredSame) {
        return;
      }
      if Inherits(ov) {
        overrides := overrides - {repo};
      } else {
        overrides := overrides[repo := Stamped(ov, now)];
      }
      ReopenForChangedReviewers(repo, before, after, open);
    }

    method ClearReviewers(f: Fleet, repo: string, open: set<nat>, now: Time)
      requires Valid()
      modifies this
      ensures Valid()
      ensures View() == C.ClearReviewers(f, old(View()), repo, open, now).next
      ensures unchanged(`archive, `slot, `holds, `fires, `nextSeq) && rounds.Keys == old(rounds).Keys
      ensures
        if repo !in old(overrides) || ClaimedTriggerRepo(old(View()), repo, now) then View() == old(View())
        else
          var before := Under(f.registry, f.base, old(overrides)[repo].ov);
          && overrides == old(overrides) - {repo}
          && if SameReviewers(before, f.base) || !Added(before, f.base) then rounds == old(rounds)
             else ReopenedOnly(old(rounds), rounds, repo, open)
    {
      hide Under, ReopenedRounds, ClaimedTriggerRepo, ReopenedOnly, Added, SameReviewers;
      if repo !in overrides {
        return;
      }
      var before := ForRepo.ForRepo(f.registry, f.base, overrides[repo].ov);
      var claimed := ClaimedRepo(repo, now);
      if claimed {
        return;
      }
      overrides := overrides - {repo};
      ReopenForChangedReviewers(repo, before, f.base, open);
    }
  }
}
