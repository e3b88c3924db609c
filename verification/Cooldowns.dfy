/** A cooldown is waited out in every run. */
module Cooldowns {
  import opened Text
  import opened Reviewers
  import opened ForRepo
  import opened Rounds
  import opened Closures
  import opened Protocol
  import opened Runs
  import FireLog

  /** The clock a write is decided on, where a parked round could move by it. */
  function ReadingOf(a: Action): Option<Time> {
    if a.DoReserve? || a.DoAdopt? || a.DoClaimCoOnly? || a.DoCoOnlyFailed? || a.DoCoOnlyRecord? || a.DoCoReviewWait?
       || a.DoDedupe?
    then Some(a.now) else None
  }

  /** The write is no fix session's on this pull request, and its reading is before then. */
  predicate Early(a: Action, pr: PR, until: Time) {
    (a.DoDispatch? ==> a.pr != pr) && (ReadingOf(a).Some? ==> ReadingOf(a).value < until)
  }

  /** The round is no longer live, or it is parked until then. */
  predicate Parked(s: State, pr: PR, birth: nat, until: Time) {
    pr in s.rounds && s.rounds[pr].birth == birth ==>
      s.rounds[pr].phase == AwaitingRetry && s.rounds[pr].retryAt == Some(until)
  }

  lemma {:induction false} ClaimFreeCos(r: Round, logins: seq<string>, now: Time)
    ensures ClaimFree(r, logins, now).round.(cos := r.cos) == r
    decreases |logins|
  {
    hide SetCo, Key;
    if logins != [] {
      ClaimFreeCos(r, logins[1..], now);
      ClaimFreeCos(ClaimCo(r, logins[0], now), logins[1..], now);
    }
  }

  lemma {:induction false} RecordAllCos(r: Round, posts: seq<CoPost>, skip: seq<string>)
    ensures RecordAll(r, posts, skip).round.(cos := r.cos) == r
    decreases |posts|
  {
    hide SetCo, Key;
    if posts != [] {
      RecordAllCos(r, posts[1..], skip);
      RecordAllCos(SetCoCommand(r, posts[0].login, posts[0].id, posts[0].at), posts[1..], skip);
    }
  }

  lemma {:induction false} AdoptAllCos(r: Round, posts: seq<CoPost>, now: Time)
    ensures AdoptAll(r, posts, now).round.(cos := r.cos) == r
    decreases |posts|
  {
    hide SetCo, Key;
    if posts != [] {
      AdoptAllCos(r, posts[1..], now);
      AdoptAllCos(SetCoCommand(r, posts[0].login, posts[0].id, posts[0].at), posts[1..], now);
    }
  }

  lemma ParkedIsNotDue(s: State, pr: PR, birth: nat, until: Time, now: Time)
    requires Parked(s, pr, birth, until) && pr in s.rounds && s.rounds[pr].birth == birth && now < until
    ensures !FireEligible(s.rounds[pr], now) && !Due(s.rounds[pr], now)
  {
  }

  /** The write leaves alone every round but this pull request's, and its own where it is
      parked until then; or it replaces it. */
  lemma RoundLeaves(s: State, next: State, own: PR, pr: PR, birth: nat, until: Time)
    requires Parked(s, pr, birth, until) && next.rounds - {own} == s.rounds - {own}
    requires own == pr && own in next.rounds && next.rounds[own].birth == birth ==>
      next.rounds[own].phase == AwaitingRetry && next.rounds[own].retryAt == Some(until)
    ensures Parked(next, pr, birth, until)
  {
    if pr != own && pr in next.rounds {
      assert pr in next.rounds - {own};
      assert pr in s.rounds - {own} && (next.rounds - {own})[pr] == (s.rounds - {own})[pr];
    }
  }

  lemma SupersedeLeaves(s: State, own: PR, head: string, pr: PR, birth: nat, until: Time)
    requires Parked(s, pr, birth, until) && birth <= s.nextSeq
    ensures Parked(Supersede(s, own, head), pr, birth, until)
  {
    RoundLeaves(s, Supersede(s, own, head), own, pr, birth, until);
  }

  lemma EndLeaves(s: State, own: PR, token: Token, pr: PR, birth: nat, until: Time)
    requires Parked(s, pr, birth, until)
    ensures Parked(ReleaseSlot(EndRound(s, own), own, token), pr, birth, until)
    ensures Parked(EndRound(s, own), pr, birth, until)
  {
  }

  lemma EnqueueLeaves(s: State, own: PR, head: string, off: bool, pr: PR, birth: nat, until: Time)
    requires Parked(s, pr, birth, until) && birth <= s.nextSeq && (own in s.rounds ==> s.rounds[own].pr == own)
    ensures Parked(Enqueue(s, own, head, off).next, pr, birth, until)
  {
    hide Supersede;
    SupersedeLeaves(s, own, head, pr, birth, until);
  }

  lemma ConfirmLeaves(s: State, want: Round, known: bool, cfg: Cfg, now: Time, pr: PR, birth: nat, until: Time)
    requires Parked(s, pr, birth, until) && birth <= s.nextSeq
    ensures Parked(Confirm(s, want, known, cfg, now).next, pr, birth, until)
  {
    hide Confirmable, EndRound, ReleaseSlot;
    if Confirmable(s, want, known, cfg) {
      var own := want.pr;
      var mine := own in s.rounds && s.slot.Some? && s.slot.value.pr == own;
      var freed := if mine then ReleaseSlot(s, own, s.rounds[own].token) else s;
      FreedLeaves(s, own, if own in s.rounds then s.rounds[own].token else 0);
      SupersedeLeaves(freed, own, want.head, pr, birth, until);
      var next := Supersede(freed, own, want.head);
      RoundLeaves(next, Confirmed(s, own, want.head, now), own, pr, birth, until);
    }
  }

  lemma FreedLeaves(s: State, own: PR, token: Token)
    ensures ReleaseSlot(s, own, token).rounds == s.rounds && ReleaseSlot(s, own, token).nextSeq == s.nextSeq
  {
  }

  lemma MovesLeave(s: State, a: Action, pr: PR, birth: nat, until: Time)
    requires (a.DoPrioritize? || a.DoDispatch?) && Early(a, pr, until) && Parked(s, pr, birth, until)
    requires forall q :: q in s.rounds ==> s.rounds[q].pr == q
    ensures a.DoPrioritize? ==> Parked(Prioritize(s, a.pr, a.low).next, pr, birth, until)
    ensures a.DoDispatch? ==>
      Parked(Dispatched(s, a.pr, a.phase, a.dispatch, a.retryAt, a.dispatchRetryAt).next, pr, birth, until)
  {
  }

  lemma EndsLeave(s: State, a: Action, pr: PR, birth: nat, until: Time)
    requires (a.DoAbandon? || a.DoCancel? || a.DoRepair?) && Parked(s, pr, birth, until)
    ensures a.DoAbandon? ==> Parked(AbandonRound(s, a.want).next, pr, birth, until)
    ensures a.DoCancel? ==> Parked(Cancel(s, a.pr).next, pr, birth, until)
    ensures a.DoRepair? ==> Parked(Repair(s, a.pr, a.head).next, pr, birth, until)
  {
    hide EndRound, ReleaseSlot, Still;
    var own := if a.DoAbandon? then a.want.pr else a.pr;
    EndLeaves(s, own, if a.DoAbandon? then a.want.token else if own in s.rounds then s.rounds[own].token else 0,
              pr, birth, until);
  }

  lemma NewHeadsLeave(s: State, a: Action, pr: PR, birth: nat, until: Time)
    requires (a.DoSupersede? || a.DoReplace?) && Parked(s, pr, birth, until) && birth <= s.nextSeq
    ensures a.DoSupersede? ==> Parked(SupersedeRound(s, a.want, a.head).next, pr, birth, until)
    ensures a.DoReplace? ==> Parked(Replace(s, a.pr, a.head).next, pr, birth, until)
  {
    hide Supersede, Still;
    SupersedeLeaves(s, if a.DoSupersede? then a.want.pr else a.pr, a.head, pr, birth, until);
  }

  lemma QueueLeavesParked(f: Fleet, s: State, a: Action, pr: PR, birth: nat, until: Time)
    requires IsQueueStep(a) && Early(a, pr, until) && Parked(s, pr, birth, until) && birth <= s.nextSeq
    requires forall q :: q in s.rounds ==> s.rounds[q].pr == q
    ensures Parked(Effect(f, s, a).next, pr, birth, until)
  {
    hide Replace, Repair, Enqueue, Prioritize, SupersedeRound, AbandonRound, Cancel, Confirm, Dispatched, PlaceHold,
      BudgetHold, Unhold, ReserveFire, AdoptFire, PostFailed, RecordFire, ClaimCoOnly, CoOnlyFailed, CoOnlyRecord,
      ClaimDeferred, ClaimSelfHeal, TriggerFailed, TriggerRecorded, CoReviewWait, Transition, CompleteWait,
      DedupeRound, SetReviewers, ClearReviewers, Normalize;
    if a.DoEnqueue? {
      EnqueueLeaves(s, a.pr, a.head, a.off, pr, birth, until);
    } else if a.DoConfirm? {
      ConfirmLeaves(s, a.want, a.known, a.cfg, a.now, pr, birth, until);
    } else if a.DoSupersede? || a.DoReplace? {
      NewHeadsLeave(s, a, pr, birth, until);
    } else if a.DoPrioritize? || a.DoDispatch? {
      MovesLeave(s, a, pr, birth, until);
    } else {
      EndsLeave(s, a, pr, birth, until);
    }
  }

  lemma {:induction false} ClaimAllCos(r: Round, logins: seq<string>, now: Time)
    ensures ClaimAll(r, logins, now).round.(cos := r.cos) == r
    decreases |logins|
  {
    hide SetCo, Key;
    if logins != [] {
      ClaimAllCos(ClaimCo(r, logins[0], now), logins[1..], now);
    }
  }

  lemma AdoptLeaves(s: State, a: Action, pr: PR, birth: nat, until: Time)
    requires a.DoAdopt? && Early(a, pr, until) && Parked(s, pr, birth, until)
    requires forall q :: q in s.rounds ==> s.rounds[q].pr == q
    ensures Parked(AdoptFire(s, a.want, a.token, a.cfg, a.command, a.firedAt, a.deadline, a.claims, a.posts,
                             a.now).next, pr, birth, until)
  {
    hide RecordAll, ClaimAll, SlotHeld, ReviewersChanged, FireLog.NoteFire;
    if MayFire(s, a.want, a.cfg, a.now) {
      var own := a.want.pr;
      var fired := Fire(Reserve(s.rounds[own], a.token, a.now).value, a.command, a.firedAt).value
                   .(waitDeadline := Some(a.deadline));
      ClaimAllCos(fired, a.claims, a.now);
      RecordAllCos(ClaimAll(fired, a.claims, a.now).round, a.posts, a.claims);
      hide MayFire, Parked;
      NotThisOne(s, own, pr, birth, until, a.now);
      RoundLeaves(s, AdoptFire(s, a.want, a.token, a.cfg, a.command, a.firedAt, a.deadline, a.claims, a.posts,
                               a.now).next, own, pr, birth, until);
    }
  }

  /** A round that can fire is not the parked one. */
  lemma NotThisOne(s: State, own: PR, pr: PR, birth: nat, until: Time, now: Time)
    requires Parked(s, pr, birth, until) && now < until && own in s.rounds && FireEligible(s.rounds[own], now)
    ensures own == pr ==> s.rounds[own].birth != birth
  {
  }

  lemma RecordLeaves(s: State, a: Action, pr: PR, birth: nat, until: Time)
    requires a.DoRecordFire? && Parked(s, pr, birth, until)
    requires forall q :: q in s.rounds ==> s.rounds[q].pr == q
    ensures Parked(RecordFire(s, a.want, a.token, a.command, a.posts, a.firedAt, a.deadline).next, pr, birth, until)
  {
    hide RecordAll, FireLog.NoteFire;
    if MayRecord(s, a.want, a.token) {
      var own := a.want.pr;
      RecordAllCos(Fire(s.rounds[own], a.command, a.firedAt).value.(waitDeadline := Some(a.deadline)), a.posts, []);
      RoundLeaves(s, RecordFire(s, a.want, a.token, a.command, a.posts, a.firedAt, a.deadline).next, own, pr, birth,
                  until);
    }
  }

  lemma PostsLeave(s: State, a: Action, pr: PR, birth: nat, until: Time)
    requires (a.DoReserve? || a.DoPostFailed?) && Early(a, pr, until) && Parked(s, pr, birth, until)
    requires forall q :: q in s.rounds ==> s.rounds[q].pr == q
    ensures a.DoReserve? ==> Parked(ReserveFire(s, a.want, a.token, a.cfg, a.now).next, pr, birth, until)
    ensures a.DoPostFailed? ==> Parked(PostFailed(s, a.pr, a.token, a.now).next, pr, birth, until)
  {
    hide SlotHeld, ReviewersChanged, ReleaseSlot;
    if a.DoPostFailed? {
      FreedLeaves(s, a.pr, a.token);
    }
  }

  lemma FireLeavesParked(f: Fleet, s: State, a: Action, pr: PR, birth: nat, until: Time)
    requires IsFireStep(a) && Early(a, pr, until) && Parked(s, pr, birth, until)
    requires forall q :: q in s.rounds ==> s.rounds[q].pr == q
    ensures Parked(Effect(f, s, a).next, pr, birth, until)
  {
    hide Replace, Repair, Enqueue, Prioritize, SupersedeRound, AbandonRound, Cancel, Confirm, Dispatched, PlaceHold,
      BudgetHold, Unhold, ReserveFire, AdoptFire, PostFailed, RecordFire, ClaimCoOnly, CoOnlyFailed, CoOnlyRecord,
      ClaimDeferred, ClaimSelfHeal, TriggerFailed, TriggerRecorded, CoReviewWait, Transition, CompleteWait,
      DedupeRound, SetReviewers, ClearReviewers, Normalize;
    if a.DoAdopt? {
      AdoptLeaves(s, a, pr, birth, until);
    } else if a.DoRecordFire? {
      RecordLeaves(s, a, pr, birth, until);
    } else {
      PostsLeave(s, a, pr, birth, until);
    }
  }

  lemma ClaimLeaves(s: State, a: Action, pr: PR, birth: nat, until: Time)
    requires (a.DoClaimCoOnly? || a.DoClaimDeferred?) && Parked(s, pr, birth, until)
    requires forall q :: q in s.rounds ==> s.rounds[q].pr == q
    ensures a.DoClaimCoOnly? ==> Parked(ClaimCoOnly(s, a.want, a.claims, a.cfg, a.now).next, pr, birth, until)
    ensures a.DoClaimDeferred? ==>
      Parked(ClaimDeferred(s, a.want, a.posts, a.claims, a.cfg, a.now).next, pr, birth, until)
  {
    hide ClaimFree, AdoptAll, ReviewersChanged, FireEligible;
    if a.want.pr in s.rounds {
      var r := s.rounds[a.want.pr];
      ClaimFreeCos(r, a.claims, a.now);
      if a.DoClaimDeferred? {
        AdoptAllCos(r, a.posts, a.now);
        ClaimFreeCos(AdoptAll(r, a.posts, a.now).round, a.claims, a.now);
      }
    }
  }

  lemma CoOnlyLeaves(s: State, a: Action, pr: PR, birth: nat, until: Time)
    requires a.DoCoOnlyRecord? && a.posts != [] && Early(a, pr, until) && Parked(s, pr, birth, until)
    requires forall q :: q in s.rounds ==> s.rounds[q].pr == q
    ensures Parked(CoOnlyRecord(s, a.want, a.claims, a.posts, a.token, a.deadline, a.now).next, pr, birth, until)
  {
    hide RecordAll, ClearAll, ArchivedAt;
    if Still(s, a.want) {
      var own := a.want.pr;
      var r := s.rounds[own];
      if FireEligible(r, a.now) {
        NotThisOne(s, own, pr, birth, until, a.now);
        RecordAllCos(Fire(Reserve(r, a.token, a.now).value, a.posts[0].id, a.posts[0].at).value
                     .(token := 0, waitDeadline := Some(a.deadline)), a.posts, []);
      } else {
        RecordAllCos(r, a.posts, []);
      }
      hide FireEligible;
      RoundLeaves(s, CoOnlyRecord(s, a.want, a.claims, a.posts, a.token, a.deadline, a.now).next, own, pr, birth,
                  until);
    }
  }

  lemma CoWaitLeaves(s: State, a: Action, pr: PR, birth: nat, until: Time)
    requires a.DoCoReviewWait? && Early(a, pr, until) && Parked(s, pr, birth, until)
    requires forall q :: q in s.rounds ==> s.rounds[q].pr == q
    ensures Parked(CoReviewWait(s, a.want, a.posts, a.deadline, a.anchor, a.now).next, pr, birth, until)
  {
    hide RecordAll;
    if MayWait(s, a.want, a.now) {
      NotThisOne(s, a.want.pr, pr, birth, until, a.now);
      RecordAllCos(AwaitCoReview(s.rounds[a.want.pr], a.deadline, a.anchor).value, a.posts, []);
      hide FireEligible, Parked;
      RoundLeaves(s, CoReviewWait(s, a.want, a.posts, a.deadline, a.anchor, a.now).next, a.want.pr, pr, birth, until);
    }
  }

  lemma CoFailLeaves(s: State, a: Action, pr: PR, birth: nat, until: Time)
    requires a.DoCoOnlyFailed? && Early(a, pr, until) && Parked(s, pr, birth, until)
    requires forall q :: q in s.rounds ==> s.rounds[q].pr == q
    ensures Parked(CoOnlyFailed(s, a.want, a.claims, a.token, a.now).next, pr, birth, until)
  {
    hide ClearAll, ArchivedAt;
  }

  lemma TriggersLeave(s: State, a: Action, pr: PR, birth: nat, until: Time)
    requires (a.DoClaimSelfHeal? || a.DoTriggerFailed? || a.DoTriggerRecorded?) && Parked(s, pr, birth, until)
    requires forall q :: q in s.rounds ==> s.rounds[q].pr == q
    ensures a.DoClaimSelfHeal? ==> Parked(ClaimSelfHeal(s, a.want, a.login, a.cfg, a.now).next, pr, birth, until)
    ensures a.DoTriggerFailed? ==> Parked(TriggerFailed(s, a.want, a.login).next, pr, birth, until)
    ensures a.DoTriggerRecorded? ==> Parked(TriggerRecorded(s, a.want, a.login, a.id, a.at).next, pr, birth, until)
  {
    hide ClearAll, ArchivedAt, SetCo, Key, ReviewersChanged, ClaimLive;
  }

  lemma TriggerLeavesParked(f: Fleet, s: State, a: Action, pr: PR, birth: nat, until: Time)
    requires IsTriggerStep(a) && Shaped(a) && Early(a, pr, until) && Parked(s, pr, birth, until)
    requires forall q :: q in s.rounds ==> s.rounds[q].pr == q
    ensures Parked(Effect(f, s, a).next, pr, birth, until)
  {
    hide Replace, Repair, Enqueue, Prioritize, SupersedeRound, AbandonRound, Cancel, Confirm, Dispatched, PlaceHold,
      BudgetHold, Unhold, ReserveFire, AdoptFire, PostFailed, RecordFire, ClaimCoOnly, CoOnlyFailed, CoOnlyRecord,
      ClaimDeferred, ClaimSelfHeal, TriggerFailed, TriggerRecorded, CoReviewWait, Transition, CompleteWait,
      DedupeRound, SetReviewers, ClearReviewers, Normalize;
    if a.DoClaimCoOnly? || a.DoClaimDeferred? {
      ClaimLeaves(s, a, pr, birth, until);
    } else if a.DoCoOnlyRecord? {
      CoOnlyLeaves(s, a, pr, birth, until);
    } else if a.DoCoReviewWait? {
      CoWaitLeaves(s, a, pr, birth, until);
    } else if a.DoCoOnlyFailed? {
      CoFailLeaves(s, a, pr, birth, until);
    } else {
      TriggersLeave(s, a, pr, birth, until);
    }
  }

  lemma OutcomeLeaves(s: State, a: Action, pr: PR, birth: nat, until: Time)
    requires a.DoTransition? && Parked(s, pr, birth, until)
    requires forall q :: q in s.rounds ==> s.rounds[q].pr == q
    ensures Parked(Transition(s, a.pr, a.seen, a.tr, a.cfg, a.policyMoved, a.lagging, a.reviewed, a.now).next,
                   pr, birth, until)
  {
    hide ReviewersChanged, EndRound, ReleaseSlot, Progressed, StampsMatter;
    if a.pr in s.rounds {
      EndLeaves(s, a.pr, s.rounds[a.pr].token, pr, birth, until);
      ProgressedOf(s.rounds[a.pr], a.tr, a.now);
      var next := Progressed(s.rounds[a.pr], a.tr, a.now);
      if next.Some? {
        FreedLeaves(Put(s, next.value), a.pr, s.rounds[a.pr].token);
      }
    }
  }

  /** No outcome moves a round that waits. */
  lemma ProgressedOf(r: Round, tr: Progress, now: Time)
    ensures var next := Progressed(r, tr, now);
      next.Some? ==> next.value.pr == r.pr && next.value.birth == r.birth && r.phase != AwaitingRetry
  {
  }

  lemma WaitLeaves(s: State, a: Action, pr: PR, birth: nat, until: Time)
    requires a.DoCompleteWait? && Parked(s, pr, birth, until)
    requires forall q :: q in s.rounds ==> s.rounds[q].pr == q
    ensures Parked(CompleteWait(s, a.pr, a.head, a.holdUnacked, a.cfg, a.inflight, a.now).next, pr, birth, until)
  {
    hide ReviewersChanged, ReleaseSlot;
    if a.pr in s.rounds {
      FreedLeaves(s, a.pr, s.rounds[a.pr].token);
    }
  }

  lemma EditLeaves(rounds: map<PR, Round>, repo: string, before: Config, after: Config, open: set<nat>, pr: PR)
    ensures pr in ReopenedRounds(rounds, repo, before, after, open) ==>
      pr in rounds && (ReopenedRounds(rounds, repo, before, after, open)[pr] == rounds[pr]
                       || (rounds[pr].phase == Completed
                           && ReopenedRounds(rounds, repo, before, after, open)[pr].birth == rounds[pr].birth))
  {
    hide Added, SameReviewers;
  }

  lemma DedupeLeaves(s: State, a: Action, pr: PR, birth: nat, until: Time)
    requires a.DoDedupe? && Early(a, pr, until) && Parked(s, pr, birth, until)
    requires forall q :: q in s.rounds ==> s.rounds[q].pr == q
    ensures Parked(DedupeRound(s, a.want, a.cfg, a.now).next, pr, birth, until)
  {
    hide ReviewersChanged;
  }

  lemma EditsLeave(f: Fleet, s: State, a: Action, pr: PR, birth: nat, until: Time)
    requires (a.DoSetReviewers? || a.DoClearReviewers?) && Parked(s, pr, birth, until)
    ensures a.DoSetReviewers? ==> Parked(SetReviewers(f, s, a.repo, a.ov, a.open, a.now).next, pr, birth, until)
    ensures a.DoClearReviewers? ==> Parked(ClearReviewers(f, s, a.repo, a.open, a.now).next, pr, birth, until)
  {
    hide Under, ReopenedRounds, EditChanges, ClaimedTriggerRepo, CfgFor;
    var before := CfgFor(f, s, a.repo).config;
    if a.DoSetReviewers? {
      EditLeaves(s.rounds, a.repo, before, Under(f.registry, f.base, a.ov), a.open, pr);
    } else {
      EditLeaves(s.rounds, a.repo, before, f.base, a.open, pr);
    }
  }

  lemma ProgressLeavesParked(f: Fleet, s: State, a: Action, pr: PR, birth: nat, until: Time)
    requires IsProgressStep(a) && Early(a, pr, until) && Parked(s, pr, birth, until)
    requires forall q :: q in s.rounds ==> s.rounds[q].pr == q
    ensures Parked(Effect(f, s, a).next, pr, birth, until)
  {
    hide Replace, Repair, Enqueue, Prioritize, SupersedeRound, AbandonRound, Cancel, Confirm, Dispatched, PlaceHold,
      BudgetHold, Unhold, ReserveFire, AdoptFire, PostFailed, RecordFire, ClaimCoOnly, CoOnlyFailed, CoOnlyRecord,
      ClaimDeferred, ClaimSelfHeal, TriggerFailed, TriggerRecorded, CoReviewWait, Transition, CompleteWait,
      DedupeRound, SetReviewers, ClearReviewers, Normalize;
    if a.DoTransition? {
      OutcomeLeaves(s, a, pr, birth, until);
    } else if a.DoCompleteWait? {
      WaitLeaves(s, a, pr, birth, until);
    } else if a.DoDedupe? {
      DedupeLeaves(s, a, pr, birth, until);
    } else {
      EditsLeave(f, s, a, pr, birth, until);
    }
  }

  lemma ParkedStays(f: Fleet, w: World, a: Action, pr: PR, birth: nat, until: Time)
    requires Inv(f, w) && Legal(f, w, a) && Early(a, pr, until) && Parked(w.state, pr, birth, until)
    requires birth <= w.state.nextSeq
    ensures Parked(Step(f, w, a).state, pr, birth, until) && birth <= Step(f, w, a).state.nextSeq
  {
    KeysOk(f, w);
    LegalIsShaped(f, w, a);
    SeqGrows(f, w.state, a);
    hide Inv, Legal, Effect, Parked;
    if IsQueueStep(a) {
      QueueLeavesParked(f, w.state, a, pr, birth, until);
    } else if IsFireStep(a) {
      FireLeavesParked(f, w.state, a, pr, birth, until);
    } else if IsTriggerStep(a) {
      TriggerLeavesParked(f, w.state, a, pr, birth, until);
    } else if IsHoldStep(a) {
      HoldLeavesRounds(f, w.state, a);
      SameRounds(w.state, Effect(f, w.state, a).next, pr, birth, until);
    } else {
      ProgressLeavesParked(f, w.state, a, pr, birth, until);
    }
  }

  lemma HoldLeavesRounds(f: Fleet, s: State, a: Action)
    requires IsHoldStep(a)
    ensures Effect(f, s, a).next.rounds == s.rounds
  {
    hide Still, TriggerPostClaimed, SlotHeld;
  }

  lemma SameRounds(s: State, next: State, pr: PR, birth: nat, until: Time)
    requires next.rounds == s.rounds && Parked(s, pr, birth, until)
    ensures Parked(next, pr, birth, until)
  {
  }

  lemma QueueSeqGrows(f: Fleet, s: State, a: Action)
    requires Shaped(a) && IsQueueStep(a)
    ensures s.nextSeq <= Effect(f, s, a).next.nextSeq
  {
    hide ReviewersChanged, Under, ReopenedRounds, EditChanges, ClaimedTriggerRepo, SlotHeld, RecordAll, ClaimAll,
      ClaimFree, AdoptAll, ClearAll, ArchivedAt, FireEligible, Confirmable, SetCo, FireLog.NoteFire, Filed, Still,
      Progressed, TriggerPostClaimed, CfgFor;
  }

  lemma FireSeqGrows(f: Fleet, s: State, a: Action)
    requires Shaped(a) && (IsFireStep(a) || IsHoldStep(a))
    ensures s.nextSeq <= Effect(f, s, a).next.nextSeq
  {
    hide ReviewersChanged, Under, ReopenedRounds, EditChanges, ClaimedTriggerRepo, SlotHeld, RecordAll, ClaimAll,
      ClaimFree, AdoptAll, ClearAll, ArchivedAt, FireEligible, Confirmable, SetCo, FireLog.NoteFire, Filed, Still,
      Progressed, TriggerPostClaimed, CfgFor;
  }

  lemma TriggerSeqGrows(f: Fleet, s: State, a: Action)
    requires Shaped(a) && IsTriggerStep(a)
    ensures s.nextSeq <= Effect(f, s, a).next.nextSeq
  {
    hide ReviewersChanged, Under, ReopenedRounds, EditChanges, ClaimedTriggerRepo, SlotHeld, RecordAll, ClaimAll,
      ClaimFree, AdoptAll, ClearAll, ArchivedAt, FireEligible, Confirmable, SetCo, FireLog.NoteFire, Filed, Still,
      Progressed, TriggerPostClaimed, CfgFor;
  }

  lemma OutcomeSeqGrows(s: State, a: Action)
    requires a.DoTransition? && a.pr in s.rounds
    ensures Applied(s, a.pr, a.tr, a.cfg, a.policyMoved, a.lagging, a.reviewed, a.now).next.nextSeq == s.nextSeq
  {
    hide ReviewersChanged, StampsMatter, Progressed, Filed;
  }

  lemma ProgressSeqGrows(f: Fleet, s: State, a: Action)
    requires Shaped(a) && IsProgressStep(a)
    ensures s.nextSeq <= Effect(f, s, a).next.nextSeq
  {
    hide ReviewersChanged, Under, ReopenedRounds, EditChanges, ClaimedTriggerRepo, SlotHeld, RecordAll, ClaimAll,
      ClaimFree, AdoptAll, ClearAll, ArchivedAt, FireEligible, Confirmable, SetCo, FireLog.NoteFire, Filed, Still,
      TriggerPostClaimed, CfgFor, Applied;
    if a.DoTransition? && a.pr in s.rounds {
      OutcomeSeqGrows(s, a);
    }
  }

  lemma SeqGrows(f: Fleet, s: State, a: Action)
    requires Shaped(a)
    ensures s.nextSeq <= Effect(f, s, a).next.nextSeq
  {
    hide Effect;
    if IsQueueStep(a) {
      QueueSeqGrows(f, s, a);
    } else if IsFireStep(a) || IsHoldStep(a) {
      FireSeqGrows(f, s, a);
    } else if IsTriggerStep(a) {
      TriggerSeqGrows(f, s, a);
    } else {
      ProgressSeqGrows(f, s, a);
    }
  }

  /** No write of the run reserves the round parked until then. */
  ghost predicate WaitsItOut(f: Fleet, w: World, actions: seq<Action>, pr: PR, birth: nat)
    requires LegalRun(f, w, actions)
    decreases |actions|
  {
    actions == []
    || (!ReservesLive(w.state, Effect(f, w.state, actions[0]).events, pr, birth)
        && WaitsItOut(f, Step(f, w, actions[0]), actions[1..], pr, birth))
  }

  ghost predicate ReservesLive(s: State, events: seq<Event>, pr: PR, birth: nat) {
    pr in s.rounds && s.rounds[pr].birth == birth && exists e :: e in events && e.TokenReserved? && e.birth == birth
  }

  lemma NotReservedEarly(f: Fleet, w: World, a: Action, pr: PR, birth: nat, until: Time)
    requires Inv(f, w) && Shaped(a) && Early(a, pr, until) && Parked(w.state, pr, birth, until)
    ensures !ReservesLive(w.state, Effect(f, w.state, a).events, pr, birth)
  {
    hide Inv, Effect, Due;
    var s := w.state;
    if ReservesLive(s, Effect(f, s, a).events, pr, birth) {
      var e :| e in Effect(f, s, a).events && e.TokenReserved? && e.birth == birth;
      DistinctHere(f, w);
      GrantsAreUnheld(f, w, a, e);
      ReservingStep(f, s, a, e);
      ReservationIsDue(f, s, a);
      ParkedIsNotDue(s, pr, birth, until, a.now);
    }
  }

  lemma ReservingStep(f: Fleet, s: State, a: Action, e: Event)
    requires (a.DoReserve? || a.DoAdopt?) && e in Effect(f, s, a).events
    ensures a.DoReserve? ==> ReserveFire(s, a.want, a.token, a.cfg, a.now).events != []
    ensures a.DoAdopt? ==>
      AdoptFire(s, a.want, a.token, a.cfg, a.command, a.firedAt, a.deadline, a.claims, a.posts, a.now).events != []
  {
  }

  /** A cooldown is waited out: over any run of writes decided before its end, and without a
      fix session taking the round, a parked round is not reserved, and it stays parked for as
      long as it is live. */
  lemma {:induction false} CooldownIsWaitedOut(f: Fleet, w: World, actions: seq<Action>, pr: PR, birth: nat,
                                               until: Time)
    requires FleetOk(f) && Inv(f, w) && LegalRun(f, w, actions) && birth <= w.state.nextSeq
    requires Parked(w.state, pr, birth, until) && forall a :: a in actions ==> Early(a, pr, until)
    ensures WaitsItOut(f, w, actions, pr, birth) && Parked(After(f, w, actions).state, pr, birth, until)
    decreases |actions|
  {
    hide Inv, FleetOk, Legal, Effect, Parked, Early;
    if actions != [] {
      var a := actions[0];
      assert a in actions;
      LegalIsShaped(f, w, a);
      NotReservedEarly(f, w, a, pr, birth, until);
      ParkedStays(f, w, a, pr, birth, until);
      StepKeeps(f, w, a);
      CooldownIsWaitedOut(f, Step(f, w, a), actions[1..], pr, birth, until);
    }
  }
}
