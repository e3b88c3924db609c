/** The autoreview leader lease (internal/crq/auto.go). Workers read one shared clock,
    but decide on a reading taken before their write commits, which the replays of a
    lost compare-and-swap can leave far behind. skew is how far ahead of the clock a
    reading may be; the source assumes none. */
module Leadership {
  import opened Text

  type Time = int
  type Token = nat

  datatype Lease = Lease(token: Token, expiresAt: Time, updatedAt: Time)

  /** What a renewal leaves in the state. */
  function Renewed(leader: Option<Lease>, token: Token, now: Time, ttl: Time): Option<Lease> {
    if leader.Some? && leader.value.expiresAt > now && leader.value.token != token then leader
    else Some(Lease(token, now + ttl, now))
  }

  function Released(leader: Option<Lease>, token: Token): Option<Lease> {
    if leader.Some? && leader.value.token == token then None else leader
  }

  class LeaderStore {
    var leader: Option<Lease>

    constructor ()
      ensures leader == None
    {
      leader := None;
    }

    /** renewLeader: the first claim, the in-pass heartbeat, and the steal of an
        expired lease. */
    method RenewLeader(token: Token, now: Time, ttl: Time) returns (held: bool)
      modifies this
      ensures leader == Renewed(old(leader), token, now, ttl)
      ensures !held <==>
        old(leader).Some? && old(leader).value.token != token && old(leader).value.expiresAt > now
      ensures leader == if held then Some(Lease(token, now + ttl, now)) else old(leader)
    {
      if leader.Some? && leader.value.expiresAt > now && leader.value.token != token {
        return false;
      }
      leader := Some(Lease(token, now + ttl, now));
      return true;
    }

    method ReleaseLeader(token: Token) returns (released: bool)
      modifies this
      ensures leader == Released(old(leader), token)
      ensures released <==> old(leader).Some? && old(leader).value.token == token
      ensures leader == if released then None else old(leader)
    {
      if leader.None? || leader.value.token != token {
        return false;
      }
      leader := None;
      return true;
    }
  }

  // ---- Runs

  /** written: the lease a token's last successful renewal wrote, until it learns it
      lost or gives it up. believed: the part of that the worker has been told. */
  datatype World = World(clock: Time, leader: Option<Lease>, written: map<Token, Time>, believed: map<Token, Time>)

  datatype Action =
    | Tick(to: Time)
    | Renew(token: Token, now: Time, ttl: Time)
    | Learn(token: Token)
    | Release(token: Token)

  ghost predicate Legal(w: World, a: Action, skew: nat) {
    match a
    case Tick(to) => to >= w.clock
    case Renew(_, now, _) => now <= w.clock + skew
    case Learn(token) => token in w.written
    case Release(_) => true
  }

  function Step(w: World, a: Action): World
    requires a.Learn? ==> a.token in w.written
  {
    match a
    case Tick(to) => w.(clock := to)
    case Renew(token, now, ttl) =>
      var leader := Renewed(w.leader, token, now, ttl);
      if leader == Some(Lease(token, now + ttl, now)) then
        w.(leader := leader, written := w.written[token := now + ttl], believed := w.believed - {token})
      else w.(written := w.written - {token}, believed := w.believed - {token})
    case Learn(token) => w.(believed := w.believed[token := w.written[token]])
    case Release(token) =>
      w.(leader := Released(w.leader, token), written := w.written - {token}, believed := w.believed - {token})
  }

  /** A lease that no reading can take for expired is the one in the state. */
  ghost predicate Inv(w: World, skew: nat) {
    && (forall t :: t in w.believed ==> t in w.written && w.believed[t] == w.written[t])
    && (forall t :: t in w.written && w.written[t] > w.clock + skew ==>
          w.leader.Some? && w.leader.value.token == t && w.leader.value.expiresAt == w.written[t])
  }

  lemma StepKeeps(w: World, a: Action, skew: nat)
    requires Legal(w, a, skew) && Inv(w, skew)
    ensures Inv(Step(w, a), skew)
  {
  }

  ghost predicate LegalRun(w: World, actions: seq<Action>, skew: nat)
    decreases |actions|
  {
    actions != [] ==> Legal(w, actions[0], skew) && LegalRun(Step(w, actions[0]), actions[1..], skew)
  }

  ghost function After(w: World, actions: seq<Action>, skew: nat): World
    requires LegalRun(w, actions, skew)
    decreases |actions|
  {
    if actions == [] then w else After(Step(w, actions[0]), actions[1..], skew)
  }

  lemma {:induction false} RunKeeps(w: World, actions: seq<Action>, skew: nat)
    requires LegalRun(w, actions, skew) && Inv(w, skew)
    ensures Inv(After(w, actions, skew), skew)
    decreases |actions|
  {
    if actions != [] {
      StepKeeps(w, actions[0], skew);
      RunKeeps(Step(w, actions[0]), actions[1..], skew);
    }
  }

  const START := World(0, None, map[], map[])

  ghost predicate Reachable(w: World, skew: nat) {
    exists actions :: LegalRun(START, actions, skew) && After(START, actions, skew) == w
  }

  /** The worker with this token takes itself for the leader. */
  predicate Leads(w: World, token: Token) { token in w.believed && w.believed[token] > w.clock }

  ghost predicate OneLeader(w: World) {
    forall a, b :: Leads(w, a) && Leads(w, b) ==> a == b
  }

  /** Whatever the lease lengths, the heartbeats, the releases and the steals, two
      workers never hold leases that both outlast every clock reading. */
  lemma LeasesNeverOverlap(w: World, skew: nat, a: Token, b: Token)
    requires Reachable(w, skew) && a in w.believed && b in w.believed
    requires w.believed[a] > w.clock + skew && w.believed[b] > w.clock + skew
    ensures a == b && w.leader.Some? && w.leader.value.token == a
  {
    var actions :| LegalRun(START, actions, skew) && After(START, actions, skew) == w;
    RunKeeps(START, actions, skew);
  }

  /** A fast clock reading steals a lease its holder still trusts. */
  lemma SkewMakesTwoLeaders(skew: nat)
    requires skew > 0
    ensures exists w :: Reachable(w, skew) && !OneLeader(w)
  {
    var a, b, c, d := Renew(1, 0, 1), Learn(1), Renew(2, 1, 1), Learn(2);
    var w1 := Step(START, a);
    var w2 := Step(w1, b);
    var w3 := Step(w2, c);
    var w4 := Step(w3, d);
    assert [a, b, c, d][1..] == [b, c, d] && [b, c, d][1..] == [c, d] && [c, d][1..] == [d] && [d][1..] == [];
    assert LegalRun(w4, [], skew) && LegalRun(w3, [d], skew) && LegalRun(w2, [c, d], skew);
    assert LegalRun(w1, [b, c, d], skew) && LegalRun(START, [a, b, c, d], skew);
    assert After(w3, [d], skew) == w4 && After(w2, [c, d], skew) == w4 && After(w1, [b, c, d], skew) == w4;
    assert After(START, [a, b, c, d], skew) == w4;
    assert Leads(w4, 1) && Leads(w4, 2);
    assert Reachable(w4, skew) && !OneLeader(w4);
  }

  /** At every instant of every run at most one worker takes itself for the leader,
      exactly when no clock reading is ahead of the clock. */
  lemma OneLeaderExactly(skew: nat)
    ensures (forall w :: Reachable(w, skew) ==> OneLeader(w)) <==> skew == 0
  {
    if skew > 0 {
      SkewMakesTwoLeaders(skew);
    } else {
      forall w, a, b | Reachable(w, skew) && Leads(w, a) && Leads(w, b) ensures a == b {
        LeasesNeverOverlap(w, skew, a, b);
      }
    }
  }
}
