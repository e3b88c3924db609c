/** What sameRound identifies: a worker finds the round it read again by Seq and head. */
module Identity {
  import opened Text
  import opened Reviewers
  import opened ForRepo
  import opened Rounds
  import opened Closures
  import opened Protocol
  import opened Runs

  /** want is a round as some worker read it from an earlier state, and sameRound now
      accepts the live round for it. */
  ghost predicate Mistakable(f: Fleet, w: World, earlier: World, want: Round) {
    && Reachable(f, w) && Reachable(f, earlier)
    && want.pr in earlier.state.rounds && earlier.state.rounds[want.pr] == want && Still(w.state, want)
  }

  /** A round that was never moved to the front is identified by its Seq. */
  lemma SeqIdentifies(f: Fleet, w: World, earlier: World, want: Round)
    requires FleetOk(f) && Mistakable(f, w, earlier, want) && want.order > 0
    ensures w.state.rounds[want.pr].birth == want.birth
  {
    hide Inv, Reachable;
    ReachableOk(f, w);
    ReachableOk(f, earlier);
    WaitingHasNoToken(f, earlier, want.pr);
    WaitingHasNoToken(f, w, want.pr);
  }

  // ---- A Seq is given out again

  /** One round is live, waiting, and nothing is in flight. */
  ghost predicate Lone(w: World, r: Round) {
    && w.state.rounds == map[r.pr := r] && r.phase == Queued && r.head == "head" && w.log == []
    && w.state.slot.None? && w.state.holds == map[] && w.state.overrides == map[]
  }

  /** The same world with the round at another Seq. */
  function At(w: World, r: Round, n: int): World {
    World(w.state.(rounds := map[r.pr := r.(order := n)]), w.log)
  }

  lemma FrontStep(f: Fleet, w: World, r: Round, low: int)
    requires Lone(w, r) && low <= 0 && (low == 0 ==> r.order > 0) && (low < 0 ==> r.order == low)
    ensures Legal(f, w, DoPrioritize(r.pr, low)) && Step(f, w, DoPrioritize(r.pr, low)) == At(w, r, low - 1)
  {
    assert w.log + [] == w.log;
    assert r.pr in w.state.rounds && w.state.rounds[r.pr].order == r.order;
  }

  /** Moved to the front n times, a round comes to Seq -n. */
  lemma {:induction false} FrontReached(f: Fleet, w: World, r: Round, n: int)
    requires Reachable(f, w) && Lone(w, r) && r.order > 0 && n > 0
    ensures Reachable(f, At(w, r, -n)) && Lone(At(w, r, -n), r.(order := -n))
    decreases n
  {
    hide Reachable, Legal, Step;
    if n == 1 {
      FrontStep(f, w, r, 0);
      ReachStep(f, w, DoPrioritize(r.pr, 0));
    } else {
      FrontReached(f, w, r, n - 1);
      var before, moved := At(w, r, 1 - n), r.(order := 1 - n);
      FrontStep(f, before, moved, 1 - n);
      ReachStep(f, before, DoPrioritize(r.pr, 1 - n));
      assert At(before, moved, -n) == At(w, r, -n);
    }
  }

  lemma FirstRound(f: Fleet, pr: PR) returns (w: World)
    ensures Reachable(f, w) && Lone(w, Fresh(pr, "head", 1)) && w.state.nextSeq == 1 && w.state.archive == []
  {
    StartReachable(f);
    ReachStep(f, START, DoEnqueue(pr, "head", false));
    w := Step(f, START, DoEnqueue(pr, "head", false));
    assert [] + [] == START.log;
  }

  /** A confirmation replaces the round, at the same head, by one of the next Seq. */
  lemma ConfirmedRound(f: Fleet, w: World, r: Round) returns (next: World, to: Round)
    requires Reachable(f, w) && Lone(w, r) && r.confirmationAfter.None?
    ensures Reachable(f, next) && Lone(next, to)
    ensures to.pr == r.pr && to.head == r.head && to.birth == w.state.nextSeq + 1 && to.order == to.birth
    ensures next.state.archive == Filed(w.state.archive, Abandon(r))
  {
    hide Reachable;
    to := ConfirmedEffect(f, w.state, r);
    var confirm := DoConfirm(r, true, Cfg(f.base, None), 5);
    ReachStep(f, w, confirm);
    next := Step(f, w, confirm);
    assert w.log + [] == w.log;
  }

  lemma ConfirmedEffect(f: Fleet, s: State, r: Round) returns (to: Round)
    requires s.rounds == map[r.pr := r] && r.confirmationAfter.None?
    requires s.slot.None? && s.holds == map[] && s.overrides == map[]
    ensures var done := Confirm(s, r, true, Cfg(f.base, None), 5);
      done.events == [] && done.next.rounds == map[r.pr := to] && done.next.slot.None? && done.next.holds == map[]
      && done.next.overrides == map[] && done.next.archive == Filed(s.archive, Abandon(r))
    ensures to.pr == r.pr && to.head == r.head && to.phase == Queued && to.birth == s.nextSeq + 1
    ensures to.order == to.birth
  {
    assert Rounds.EndRound(s, r.pr).rounds == map[];
    to := Fresh(r.pr, r.head, s.nextSeq + 1).(confirmationAfter := Some(5), lastAttemptAt := Some(5));
  }

  /** Any negative Seq is given out twice, at one head: the round is moved to the front n
      times, confirmed, and its replacement moved there n times. */
  lemma SeqIsReused(f: Fleet, pr: PR, n: int) returns (w: World, earlier: World, want: Round)
    requires n > 0
    ensures Mistakable(f, w, earlier, want) && want.pr == pr && want.order == -n
    ensures w.state.rounds[pr].birth != want.birth
  {
    hide Reachable, Legal, Step;
    var first := FirstRound(f, pr);
    var r := Fresh(pr, "head", 1);
    FrontReached(f, first, r, n);
    earlier, want := At(first, r, -n), r.(order := -n);
    var again, to := ConfirmedRound(f, earlier, want);
    FrontReached(f, again, to, n);
    w := At(again, to, -n);
  }

  /** A Seq some reachable round holds. */
  ghost predicate Held(f: Fleet, n: int) {
    exists w, pr :: Reachable(f, w) && pr in w.state.rounds && w.state.rounds[pr].order == n
  }

  /** Whatever run it is, sameRound accepts for a round of this Seq no other round. */
  ghost predicate Identifies(f: Fleet, n: int) {
    forall w, earlier, want :: Mistakable(f, w, earlier, want) && want.order == n ==>
      w.state.rounds[want.pr].birth == want.birth
  }

  /** A Seq and a head identify a round exactly when the Seq is positive: when the round
      was never moved to the front. */
  lemma IdentifiesExactly(f: Fleet, n: int)
    requires FleetOk(f) && Held(f, n)
    ensures Identifies(f, n) <==> n > 0
  {
    hide Reachable, Inv;
    if n > 0 {
      forall w, earlier, want | Mistakable(f, w, earlier, want) && want.order == n
        ensures w.state.rounds[want.pr].birth == want.birth
      {
        SeqIdentifies(f, w, earlier, want);
      }
    } else {
      var held, pr :| Reachable(f, held) && pr in held.state.rounds && held.state.rounds[pr].order == n;
      ReachableOk(f, held);
      WaitingHasNoToken(f, held, pr);
      var w, earlier, want := SeqIsReused(f, pr, -n);
    }
  }

  // ---- The archived round a poster is sent to

  /** want is a round as some worker read it from an earlier state; it is live no longer,
      and archivedRound answers. */
  ghost predicate Redirected(f: Fleet, w: World, earlier: World, want: Round) {
    && Reachable(f, w) && Reachable(f, earlier)
    && want.pr in earlier.state.rounds && earlier.state.rounds[want.pr] == want
    && !Still(w.state, want) && ArchivedAt(w.state.archive, want).Some?
  }

  /** Whatever run it is, archivedRound answers with no other round of any pull request. */
  ghost predicate IdentifiesArchived(f: Fleet, n: int) {
    forall w, earlier, want :: Redirected(f, w, earlier, want) && want.order == n ==>
      w.state.archive[ArchivedAt(w.state.archive, want).value].birth == want.birth
  }

  lemma ArchivedSeq(f: Fleet, w: World, i: nat)
    requires FleetOk(f) && Reachable(f, w) && i < |w.state.archive| && w.state.archive[i].order > 0
    ensures w.state.archive[i].birth == w.state.archive[i].order
  {
    ReachableOk(f, w);
    hide Reachable, LogOk, ClaimsOk, RoundOk, DistinctBirths;
  }

  lemma LiveSeq(f: Fleet, w: World, pr: PR)
    requires FleetOk(f) && Reachable(f, w) && pr in w.state.rounds && w.state.rounds[pr].order > 0
    ensures w.state.rounds[pr].birth == w.state.rounds[pr].order
  {
    hide Inv, Reachable;
    ReachableOk(f, w);
    WaitingHasNoToken(f, w, pr);
  }

  /** A poster whose round has been replaced, and moved to the front alike, is sent to the
      archived one that had its Seq and head before. */
  lemma PosterIsMisled(f: Fleet, pr: PR, n: int) returns (w: World, earlier: World, want: Round)
    requires n > 0
    ensures Redirected(f, w, earlier, want) && want.order == -n
    ensures w.state.archive[ArchivedAt(w.state.archive, want).value].birth != want.birth
  {
    hide Reachable, Legal, Step;
    var first := FirstRound(f, pr);
    var r := Fresh(pr, "head", 1);
    FrontReached(f, first, r, n);
    var moved, old1 := At(first, r, -n), r.(order := -n);
    var again, to := ConfirmedRound(f, moved, old1);
    FrontReached(f, again, to, n);
    earlier, want := At(again, to, -n), to.(order := -n);
    FrontStep(f, earlier, want, -n);
    ReachStep(f, earlier, DoPrioritize(pr, -n));
    w := At(earlier, want, -n - 1);
    OnlyArchived(w.state.archive, want, Abandon(old1));
  }

  lemma OnlyArchived(archive: seq<Round>, want: Round, r: Round)
    requires archive == Filed([], r) && SameRound(r, want)
    ensures ArchivedAt(archive, want) == Some(0) && archive[0] == r
  {
    assert [] + [r] == [r];
  }

  /** archivedRound sends a poster to the very round it read, in all runs and across all
      pull requests, exactly when the Seq is positive. */
  lemma IdentifiesArchivedExactly(f: Fleet, n: int)
    requires FleetOk(f) && Held(f, n)
    ensures IdentifiesArchived(f, n) <==> n > 0
  {
    hide Reachable, Inv, ArchivedAt, FleetOk;
    if n > 0 {
      forall w, earlier, want | Redirected(f, w, earlier, want) && want.order == n
        ensures w.state.archive[ArchivedAt(w.state.archive, want).value].birth == want.birth
      {
        ArchivedSeq(f, w, ArchivedAt(w.state.archive, want).value);
        LiveSeq(f, earlier, want.pr);
      }
    } else {
      var held, pr :| Reachable(f, held) && pr in held.state.rounds && held.state.rounds[pr].order == n;
      ReachableOk(f, held);
      WaitingHasNoToken(f, held, pr);
      var w, earlier, want := PosterIsMisled(f, pr, -n);
    }
  }
}
