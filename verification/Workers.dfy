/** The shared object under any number of workers: each write is a call of one of its
    methods, and what a run of calls leaves is a state of the runs in Runs. */
module Workers {
  import opened Text
  import opened Rounds
  import C = Closures
  import opened Closures
  import opened Protocol
  import opened Runs
  import opened SharedState

  /** What the caller of a method has to know: MoveToFront works out the least Seq itself. */
  ghost predicate Ready(s: State, a: Action) {
    Shaped(a) && (a.DoPrioritize? ==> LowestSeq(s, a.low))
  }

  lemma LowestIsOne(s: State, a: int, b: int)
    requires LowestSeq(s, a) && LowestSeq(s, b)
    ensures a == b
  {
  }

  method PerformQueue(f: Fleet, store: Store, a: Action)
    requires store.Valid() && IsQueueStep(a) && Ready(store.View(), a)
    modifies store
    ensures store.Valid() && store.View() == Effect(f, old(store.View()), a).next
  {
    hide Replace, Repair, Enqueue, Prioritize, SupersedeRound, AbandonRound, Cancel, Confirm, Dispatched, PlaceHold,
      BudgetHold, Unhold, ReserveFire, AdoptFire, PostFailed, RecordFire, ClaimCoOnly, CoOnlyFailed, CoOnlyRecord,
      ClaimDeferred, ClaimSelfHeal, TriggerFailed, TriggerRecorded, CoReviewWait, Transition, CompleteWait,
      DedupeRound, SetReviewers, ClearReviewers, Normalize, EnqueueAnswer, Confirmable, Holdable, BudgetHoldable,
      Passes, MayFire, MayWait, MayRecord, MayClaim, MayHeal, Still, SlotHeld, FireEligible, ReviewersChanged,
      ClaimLive, SameRound, TriggerPostClaimed, CoOf, CoAt, ArchivedAt, Applied, Store.Claimable, Store.Leads,
      Store.ClaimedOnly, Store.Refiled, Store.CoOnlyFired, Store.AdoptedThenClaimed, Store.TriggerLanded,
      Store.ReopenedOnly, Store.Grants;
    match a
    case DoEnqueue(pr, head, off) => var _ := store.Enqueue(pr, head, off);
    case DoPrioritize(pr, low) =>
      var least := store.Prioritize(pr);
      LowestIsOne(old(store.View()), least, low);
    case DoSupersede(want, head) => store.SupersedeRound(want, head);
    case DoAbandon(want) => store.AbandonRound(want);
    case DoCancel(pr) => store.Cancel(pr);
    case DoConfirm(want, known, cfg, now) => var _ := store.Confirm(want, known, cfg, now);
    case DoDispatch(pr, phase, dispatch, retryAt, dispatchRetryAt) =>
      store.DispatchRound(pr, phase, dispatch, retryAt, dispatchRetryAt);
    case DoReplace(pr, head) => store.Replace(pr, head);
    case DoRepair(pr, head) => store.Repair(pr, head);
  }

  method PerformHold(f: Fleet, store: Store, a: Action)
    requires store.Valid() && IsHoldStep(a)
    modifies store
    ensures store.Valid() && store.View() == Effect(f, old(store.View()), a).next
  {
    hide Replace, Repair, Enqueue, Prioritize, SupersedeRound, AbandonRound, Cancel, Confirm, Dispatched, PlaceHold,
      BudgetHold, Unhold, ReserveFire, AdoptFire, PostFailed, RecordFire, ClaimCoOnly, CoOnlyFailed, CoOnlyRecord,
      ClaimDeferred, ClaimSelfHeal, TriggerFailed, TriggerRecorded, CoReviewWait, Transition, CompleteWait,
      DedupeRound, SetReviewers, ClearReviewers, Normalize, EnqueueAnswer, Confirmable, Holdable, BudgetHoldable,
      Passes, MayFire, MayWait, MayRecord, MayClaim, MayHeal, Still, SlotHeld, FireEligible, ReviewersChanged,
      ClaimLive, SameRound, TriggerPostClaimed, CoOf, CoAt, ArchivedAt, Applied, Store.Claimable, Store.Leads,
      Store.ClaimedOnly, Store.Refiled, Store.CoOnlyFired, Store.AdoptedThenClaimed, Store.TriggerLanded,
      Store.ReopenedOnly, Store.Grants;
    match a
    case DoHold(pr, owner, led, now) => var _ := store.PlaceHold(pr, owner, led, now);
    case DoBudgetHold(want, spent) => var _ := store.BudgetHold(want, spent);
    case DoUnhold(pr) => var _ := store.Unhold(pr);
    case DoNormalize(now) => store.Normalize(now);
  }

  method PerformFire(f: Fleet, store: Store, a: Action)
    requires store.Valid() && IsFireStep(a)
    modifies store
    ensures store.Valid() && store.View() == Effect(f, old(store.View()), a).next
  {
    hide Replace, Repair, Enqueue, Prioritize, SupersedeRound, AbandonRound, Cancel, Confirm, Dispatched, PlaceHold,
      BudgetHold, Unhold, ReserveFire, AdoptFire, PostFailed, RecordFire, ClaimCoOnly, CoOnlyFailed, CoOnlyRecord,
      ClaimDeferred, ClaimSelfHeal, TriggerFailed, TriggerRecorded, CoReviewWait, Transition, CompleteWait,
      DedupeRound, SetReviewers, ClearReviewers, Normalize, EnqueueAnswer, Confirmable, Holdable, BudgetHoldable,
      Passes, MayFire, MayWait, MayRecord, MayClaim, MayHeal, Still, SlotHeld, FireEligible, ReviewersChanged,
      ClaimLive, SameRound, TriggerPostClaimed, CoOf, CoAt, ArchivedAt, Applied, Store.Claimable, Store.Leads,
      Store.ClaimedOnly, Store.Refiled, Store.CoOnlyFired, Store.AdoptedThenClaimed, Store.TriggerLanded,
      Store.ReopenedOnly, Store.Grants;
    match a
    case DoReserve(want, token, cfg, now) => var _ := store.ReserveFire(want, token, cfg, now);
    case DoAdopt(want, token, cfg, command, firedAt, deadline, claims, posts, now) =>
      var _ := store.AdoptFire(want, token, cfg, command, firedAt, deadline, claims, posts, now);
    case DoPostFailed(pr, token, now) => store.PostFailed(pr, token, now);
    case DoRecordFire(want, token, command, posts, firedAt, deadline) =>
      var _ := store.RecordFire(want, token, command, posts, firedAt, deadline);
  }

  lemma ClaimEffect(f: Fleet, s: State, a: Action)
    ensures a.DoClaimCoOnly? ==> Effect(f, s, a) == C.ClaimCoOnly(s, a.want, a.claims, a.cfg, a.now)
    ensures a.DoClaimDeferred? ==> Effect(f, s, a) == C.ClaimDeferred(s, a.want, a.posts, a.claims, a.cfg, a.now)
    ensures a.DoClaimSelfHeal? ==> Effect(f, s, a) == C.ClaimSelfHeal(s, a.want, a.login, a.cfg, a.now)
    ensures a.DoCoReviewWait? ==>
      Effect(f, s, a) == C.CoReviewWait(s, a.want, a.posts, a.deadline, a.anchor, a.now)
  {
  }

  method PerformClaim(f: Fleet, store: Store, a: Action)
    requires store.Valid() && (a.DoClaimCoOnly? || a.DoClaimDeferred? || a.DoClaimSelfHeal? || a.DoCoReviewWait?)
    modifies store
    ensures store.Valid() && store.View() == Effect(f, old(store.View()), a).next
  {
    ClaimEffect(f, store.View(), a);
    hide Effect;
    hide Replace, Repair, Enqueue, Prioritize, SupersedeRound, AbandonRound, Cancel, Confirm, Dispatched, PlaceHold,
      BudgetHold, Unhold, ReserveFire, AdoptFire, PostFailed, RecordFire, ClaimCoOnly, CoOnlyFailed, CoOnlyRecord,
      ClaimDeferred, ClaimSelfHeal, TriggerFailed, TriggerRecorded, CoReviewWait, Transition, CompleteWait,
      DedupeRound, SetReviewers, ClearReviewers, Normalize, EnqueueAnswer, Confirmable, Holdable, BudgetHoldable,
      Passes, MayFire, MayWait, MayRecord, MayClaim, MayHeal, Still, SlotHeld, FireEligible, ReviewersChanged,
      ClaimLive, SameRound, TriggerPostClaimed, CoOf, CoAt, ArchivedAt, Applied, Store.Claimable, Store.Leads,
      Store.ClaimedOnly, Store.Refiled, Store.CoOnlyFired, Store.AdoptedThenClaimed, Store.TriggerLanded,
      Store.ReopenedOnly, Store.Grants;
    match a
    case DoClaimCoOnly(want, claims, cfg, now) => var _ := store.ClaimCoOnly(want, claims, cfg, now);
    case DoClaimDeferred(want, posts, claims, cfg, now) =>
      var _, _ := store.ClaimDeferred(want, posts, claims, cfg, now);
    case DoClaimSelfHeal(want, login, cfg, now) => var _ := store.ClaimSelfHeal(want, login, cfg, now);
    case DoCoReviewWait(want, posts, deadline, anchor, now) =>
      var _ := store.CoReviewWait(want, posts, deadline, anchor, now);
  }

  method PerformPosted(f: Fleet, store: Store, a: Action)
    requires store.Valid() && Shaped(a)
    requires a.DoCoOnlyFailed? || a.DoCoOnlyRecord? || a.DoTriggerFailed? || a.DoTriggerRecorded?
    modifies store
    ensures store.Valid() && store.View() == Effect(f, old(store.View()), a).next
  {
    hide Replace, Repair, Enqueue, Prioritize, SupersedeRound, AbandonRound, Cancel, Confirm, Dispatched, PlaceHold,
      BudgetHold, Unhold, ReserveFire, AdoptFire, PostFailed, RecordFire, ClaimCoOnly, CoOnlyFailed, CoOnlyRecord,
      ClaimDeferred, ClaimSelfHeal, TriggerFailed, TriggerRecorded, CoReviewWait, Transition, CompleteWait,
      DedupeRound, SetReviewers, ClearReviewers, Normalize, EnqueueAnswer, Confirmable, Holdable, BudgetHoldable,
      Passes, MayFire, MayWait, MayRecord, MayClaim, MayHeal, Still, SlotHeld, FireEligible, ReviewersChanged,
      ClaimLive, SameRound, TriggerPostClaimed, CoOf, CoAt, ArchivedAt, Applied, Store.Claimable, Store.Leads,
      Store.ClaimedOnly, Store.Refiled, Store.CoOnlyFired, Store.AdoptedThenClaimed, Store.TriggerLanded,
      Store.ReopenedOnly, Store.Grants;
    match a
    case DoCoOnlyFailed(want, claims, token, now) => store.CoOnlyFailed(want, claims, token, now);
    case DoCoOnlyRecord(want, claims, posts, token, deadline, now) =>
      store.CoOnlyRecord(want, claims, posts, token, deadline, now);
    case DoTriggerFailed(want, login) => store.TriggerFailed(want, login);
    case DoTriggerRecorded(want, login, id, at) => store.TriggerRecorded(want, login, id, at);
  }

  method PerformProgress(f: Fleet, store: Store, a: Action)
    requires store.Valid() && (a.DoTransition? || a.DoCompleteWait? || a.DoDedupe?)
    modifies store
    ensures store.Valid() && store.View() == Effect(f, old(store.View()), a).next
  {
    hide Replace, Repair, Enqueue, Prioritize, SupersedeRound, AbandonRound, Cancel, Confirm, Dispatched, PlaceHold,
      BudgetHold, Unhold, ReserveFire, AdoptFire, PostFailed, RecordFire, ClaimCoOnly, CoOnlyFailed, CoOnlyRecord,
      ClaimDeferred, ClaimSelfHeal, TriggerFailed, TriggerRecorded, CoReviewWait, Transition, CompleteWait,
      DedupeRound, SetReviewers, ClearReviewers, Normalize, EnqueueAnswer, Confirmable, Holdable, BudgetHoldable,
      Passes, MayFire, MayWait, MayRecord, MayClaim, MayHeal, Still, SlotHeld, FireEligible, ReviewersChanged,
      ClaimLive, SameRound, TriggerPostClaimed, CoOf, CoAt, ArchivedAt, Applied, Store.Claimable, Store.Leads,
      Store.ClaimedOnly, Store.Refiled, Store.CoOnlyFired, Store.AdoptedThenClaimed, Store.TriggerLanded,
      Store.ReopenedOnly, Store.Grants;
    match a
    case DoTransition(pr, seen, tr, cfg, policyMoved, lagging, reviewed, now) =>
      store.Transition(pr, seen, tr, cfg, policyMoved, lagging, reviewed, now);
    case DoCompleteWait(pr, head, holdUnacked, cfg, inflight, now) =>
      store.CompleteWait(pr, head, holdUnacked, cfg, inflight, now);
    case DoDedupe(want, cfg, now) => var _ := store.DedupeRound(want, cfg, now);
  }

  lemma EditEffect(f: Fleet, s: State, a: Action)
    ensures a.DoSetReviewers? ==> Effect(f, s, a) == C.SetReviewers(f, s, a.repo, a.ov, a.open, a.now)
    ensures a.DoClearReviewers? ==> Effect(f, s, a) == C.ClearReviewers(f, s, a.repo, a.open, a.now)
  {
  }

  method PerformEdit(f: Fleet, store: Store, a: Action)
    requires store.Valid() && (a.DoSetReviewers? || a.DoClearReviewers?)
    modifies store
    ensures store.Valid() && store.View() == Effect(f, old(store.View()), a).next
  {
    EditEffect(f, store.View(), a);
    hide Effect;
    hide Replace, Repair, Enqueue, Prioritize, SupersedeRound, AbandonRound, Cancel, Confirm, Dispatched, PlaceHold,
      BudgetHold, Unhold, ReserveFire, AdoptFire, PostFailed, RecordFire, ClaimCoOnly, CoOnlyFailed, CoOnlyRecord,
      ClaimDeferred, ClaimSelfHeal, TriggerFailed, TriggerRecorded, CoReviewWait, Transition, CompleteWait,
      DedupeRound, SetReviewers, ClearReviewers, Normalize, EnqueueAnswer, Confirmable, Holdable, BudgetHoldable,
      Passes, MayFire, MayWait, MayRecord, MayClaim, MayHeal, Still, SlotHeld, FireEligible, ReviewersChanged,
      ClaimLive, SameRound, TriggerPostClaimed, CoOf, CoAt, ArchivedAt, Applied, Store.Claimable, Store.Leads,
      Store.ClaimedOnly, Store.Refiled, Store.CoOnlyFired, Store.AdoptedThenClaimed, Store.TriggerLanded,
      Store.ReopenedOnly, Store.Grants;
    match a
    case DoSetReviewers(repo, ov, open, now) => store.SetReviewers(f, repo, ov, open, now);
    case DoClearReviewers(repo, open, now) => store.ClearReviewers(f, repo, open, now);
  }

  /** Every write is a call on the shared object, and does to it what the run theorems say. */
  method Perform(f: Fleet, store: Store, a: Action)
    requires store.Valid() && Ready(store.View(), a)
    modifies store
    ensures store.Valid() && store.View() == Effect(f, old(store.View()), a).next
  {
    hide Effect;
    if IsQueueStep(a) {
      PerformQueue(f, store, a);
    } else if IsHoldStep(a) {
      PerformHold(f, store, a);
    } else if IsFireStep(a) {
      PerformFire(f, store, a);
    } else if a.DoClaimCoOnly? || a.DoClaimDeferred? || a.DoClaimSelfHeal? || a.DoCoReviewWait? {
      PerformClaim(f, store, a);
    } else if IsTriggerStep(a) {
      PerformPosted(f, store, a);
    } else if a.DoTransition? || a.DoCompleteWait? || a.DoDedupe? {
      PerformProgress(f, store, a);
    } else {
      PerformEdit(f, store, a);
    }
  }

  lemma LegalIsReady(f: Fleet, w: World, a: Action)
    requires Legal(f, w, a)
    ensures Ready(w.state, a)
  {
  }

  /** The workers of a fleet, in whatever order their writes land: what the object holds
      is the state of the run, and so in order. */
  method Run(f: Fleet, actions: seq<Action>) returns (store: Store)
    requires FleetOk(f) && LegalRun(f, START, actions)
    ensures fresh(store) && store.Valid() && store.View() == After(f, START, actions).state
    ensures Inv(f, World(store.View(), After(f, START, actions).log))
  {
    hide Inv, FleetOk, Legal, Effect;
    StartOk(f);
    RunKeeps(f, START, actions);
    store := new Store();
    ghost var w := START;
    for i := 0 to |actions|
      invariant fresh(store) && store.Valid() && store.View() == w.state
      invariant LegalRun(f, w, actions[i..]) && After(f, w, actions[i..]) == After(f, START, actions)
    {
      assert actions[i..][0] == actions[i] && actions[i..][1..] == actions[i + 1..];
      LegalIsReady(f, w, actions[i]);
      LegalIsShaped(f, w, actions[i]);
      Perform(f, store, actions[i]);
      w := Step(f, w, actions[i]);
    }
    assert actions[|actions|..] == [];
  }
}
