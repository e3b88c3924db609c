/** store.Update of internal/state/store.go: a write that loses the compare-and-swap is
    replayed on the state that won. What a closure leaves in a captured variable
    survives the replay, unless the closure resets it. */
module Retries {
  import opened Text
  import opened Rounds
  import opened Closures

  const ATTEMPTS := 12

  /** The state one attempt loads, and whether another writer got in before it. */
  datatype Attempt = Attempt(seen: State, beaten: bool)

  /** What a worker wants to write: the claims of selfHealCoReviewers, fireCoOnly or
      fireCoDeferred, the last with the commands it adopts. */
  datatype Ask =
    | SelfHeal(want: Round, login: string, cfg: Cfg, now: Time)
    | CoOnly(want: Round, logins: seq<string>, cfg: Cfg, now: Time)
    | Deferred(want: Round, adopts: seq<CoPost>, logins: seq<string>, cfg: Cfg, now: Time)

  /** What the closure writes on a state, in the order it writes it. */
  function Writes(ask: Ask, s: State): seq<Event> {
    match ask
    case SelfHeal(want, login, cfg, now) => ClaimSelfHeal(s, want, login, cfg, now).events
    case CoOnly(want, logins, cfg, now) => ClaimCoOnly(s, want, logins, cfg, now).events
    case Deferred(want, adopts, logins, cfg, now) => ClaimDeferred(s, want, adopts, logins, cfg, now).events
  }

  predicate Claims(ask: Ask, a: Attempt) { Writes(ask, a.seen) != [] }

  /** An attempt that ends the update: it has nothing to write, or its write lands. */
  predicate Settles(ask: Ask, a: Attempt) { !Claims(ask, a) || !a.beaten }

  /** The attempt that ends the update. */
  function Settled(ask: Ask, attempts: seq<Attempt>): (n: nat)
    ensures n <= |attempts|
    ensures n < |attempts| ==> Settles(ask, attempts[n])
    ensures forall i :: 0 <= i < n ==> !Settles(ask, attempts[i])
  {
    if attempts == [] || Settles(ask, attempts[0]) then 0 else 1 + Settled(ask, attempts[1..])
  }

  /** The claim is in the state. */
  predicate Landed(ask: Ask, attempts: seq<Attempt>) {
    var n := Settled(ask, attempts);
    n < |attempts| && Claims(ask, attempts[n])
  }

  /** selfHealCoReviewers: its closure sets claimed and never clears it, so the worker
      posts when its claim landed, or when an attempt was beaten before another worker's
      claim stopped it. */
  method SelfHealUpdate(ask: Ask, attempts: seq<Attempt>) returns (posts: bool, landed: bool)
    requires ask.SelfHeal? && |attempts| == ATTEMPTS
    ensures landed <==> Landed(ask, attempts)
    ensures posts <==> landed || 0 < Settled(ask, attempts) < ATTEMPTS
  {
    var claimed := false;
    for i := 0 to ATTEMPTS
      invariant i <= Settled(ask, attempts)
      invariant claimed <==> i > 0
    {
      SettledFrom(ask, attempts, i);
      if !Claims(ask, attempts[i]) {
        return claimed, false;
      }
      claimed := true;
      if !attempts[i].beaten {
        return claimed, true;
      }
    }
    return false, false;
  }

  lemma SettledFrom(ask: Ask, attempts: seq<Attempt>, i: nat)
    requires i < |attempts| && i <= Settled(ask, attempts)
    ensures Settles(ask, attempts[i]) <==> Settled(ask, attempts) == i
  {
    hide Settles;
  }

  /** fireCoOnly and fireCoDeferred: the closure starts by forgetting what it claimed and
      adopted, so the worker acts on exactly what landed. */
  method ResettingUpdate(ask: Ask, attempts: seq<Attempt>) returns (wrote: seq<Event>, landed: bool)
    requires !ask.SelfHeal? && |attempts| == ATTEMPTS
    ensures landed <==> Landed(ask, attempts)
    ensures wrote == if landed then Writes(ask, attempts[Settled(ask, attempts)].seen) else []
  {
    hide Writes;
    wrote := [];
    for i := 0 to ATTEMPTS
      invariant i <= Settled(ask, attempts)
    {
      SettledFrom(ask, attempts, i);
      wrote := [];
      if !Claims(ask, attempts[i]) {
        return wrote, false;
      }
      wrote := Writes(ask, attempts[i].seen);
      if !attempts[i].beaten {
        return wrote, true;
      }
    }
    return [], false;
  }

  /** The worker posts while another's claim stands. */
  ghost predicate PostsUnclaimed(ask: Ask, attempts: seq<Attempt>, pr: PR) {
    && ask.SelfHeal? && |attempts| == ATTEMPTS && 0 < Settled(ask, attempts) < ATTEMPTS && !Landed(ask, attempts)
    && pr in attempts[Settled(ask, attempts)].seen.rounds
    && ClaimLive(CoOf(attempts[Settled(ask, attempts)].seen.rounds[pr], ask.login), ask.now)
  }

  /** Two workers race for one claim: the one that is beaten finds it taken, and its
      sticky flag still lets it post. */
  lemma BeatenWorkerPosts(pr: PR, cfg: Cfg)
    requires cfg.overrideAt == None
    ensures exists ask, attempts: seq<Attempt> :: PostsUnclaimed(ask, attempts, pr)
  {
    var r := Fresh(pr, "head", 1);
    var open := State(map[pr := r], [], None, None, None, None, map[], map[], [], 1);
    var taken := Put(open, ClaimCo(r, "bot", 10));
    var ask := SelfHeal(r, "bot", cfg, 10);
    var attempts := [Attempt(open, true)] + seq(ATTEMPTS - 1, _ => Attempt(taken, false));
    assert Claims(ask, attempts[0]) && !Claims(ask, attempts[1]);
    assert Settled(ask, attempts) == 1;
    assert PostsUnclaimed(ask, attempts, pr);
  }
}
