/** The bounded, rotating sweeps of internal/crq/service.go: one inspects the next key
    after the last, one observes a window of three and steps on. */
module Sweeps {
  import opened Text

  // ---- One key per pump (sweepMergedHold, sweepParkedClosed)

  /** Keys stand for the sorted map keys; only their order matters. */
  predicate Sorted(keys: seq<int>) {
    forall i, j :: 0 <= i < j < |keys| ==> keys[i] < keys[j]
  }

  function KeySet(keys: seq<int>): set<int> { set k | k in keys }

  /** The key after last, or the first. */
  ghost predicate IsNext(keys: set<int>, last: int, next: int) {
    && next in keys
    && if exists k :: k in keys && k > last
       then next > last && forall k :: k in keys && k > last ==> next <= k
       else forall k :: k in keys ==> next <= k
  }

  class Cursor {
    var last: int

    constructor (start: int)
      ensures last == start
    {
      last := start;
    }

    /** Pick the key to inspect, and remember it. */
    method Advance(keys: seq<int>) returns (next: int)
      requires keys != [] && Sorted(keys)
      modifies this
      ensures last == next && IsNext(KeySet(keys), old(last), next)
    {
      next := keys[0];
      ghost var found := false;
      for i := 0 to |keys|
        invariant next == keys[0]
        invariant forall j :: 0 <= j < i ==> keys[j] <= last
      {
        if keys[i] > last {
          next := keys[i];
          found := true;
          break;
        }
      }
      NextFound(keys, last, next, found);
      last := next;
    }
  }


  lemma NextFound(keys: seq<int>, last: int, next: int, found: bool)
    requires keys != [] && Sorted(keys)
    requires found ==>
      exists i :: 0 <= i < |keys| && next == keys[i] > last && forall j :: 0 <= j < i ==> keys[j] <= last
    requires !found ==> next == keys[0] && forall j :: 0 <= j < |keys| ==> keys[j] <= last
    ensures IsNext(KeySet(keys), last, next)
  {
  }

  /** The keys of the universe that come after last and not after k, going round. */
  function Ahead(universe: set<int>, last: int, k: int): set<int> {
    set u | u in universe && (if last < k then last < u <= k else u > last || u <= k)
  }

  /** A sweep that inspects some other key comes closer to k. */
  lemma Closer(universe: set<int>, keys: set<int>, last: int, next: int, k: int)
    requires keys <= universe && k in keys && IsNext(keys, last, next) && next != k
    ensures |Ahead(universe, next, k)| < |Ahead(universe, last, k)|
  {
    var before, after := Ahead(universe, last, k), Ahead(universe, next, k);
    assert next in before && next !in after;
    assert forall u :: u in after ==> u in before;
    SmallerSet(after, before, next);
  }

  lemma SmallerSet(a: set<int>, b: set<int>, x: int)
    requires a <= b && x in b && x !in a
    ensures |a| < |b|
  {
    assert a <= b - {x};
    SubsetSize(a, b - {x});
  }

  lemma {:induction false} SubsetSize<T>(a: set<T>, b: set<T>)
    requires a <= b
    ensures |a| <= |b|
  {
    if a != {} {
      var x :| x in a;
      SubsetSize(a - {x}, b - {x});
    }
  }

  /** inspected is what the sweeps over these snapshots inspect, one after another. */
  ghost predicate Sweeping(snapshots: seq<set<int>>, last: int, inspected: seq<int>)
    decreases |snapshots|
  {
    && |inspected| == |snapshots|
    && (snapshots != [] ==>
          IsNext(snapshots[0], last, inspected[0]) && Sweeping(snapshots[1..], inspected[0], inspected[1..]))
  }

  /** A key that is there at every sweep is inspected within as many sweeps as the
      universe has keys, however the others come and go. */
  lemma {:induction false} EveryKeyInspected(universe: set<int>, snapshots: seq<set<int>>, last: int,
                                             inspected: seq<int>, k: int)
    requires Sweeping(snapshots, last, inspected)
    requires forall i :: 0 <= i < |snapshots| ==> snapshots[i] <= universe && k in snapshots[i]
    requires |snapshots| >= |Ahead(universe, last, k)| && k in universe
    ensures FoundWithin(inspected, k, |Ahead(universe, last, k)|)
    decreases |snapshots|
  {
    assert k in Ahead(universe, last, k);
    if inspected[0] != k {
      Closer(universe, snapshots[0], last, inspected[0], k);
      var rest, bound := inspected[1..], |Ahead(universe, inspected[0], k)|;
      EveryKeyInspected(universe, snapshots[1..], inspected[0], rest, k);
      var i :| 0 <= i < bound && i < |rest| && rest[i] == k;
      assert inspected[i + 1] == k;
    }
  }

  ghost predicate FoundWithin(inspected: seq<int>, k: int, bound: nat) {
    exists i :: 0 <= i < bound && i < |inspected| && inspected[i] == k
  }

  /** The bound in terms of the universe alone. */
  lemma InspectedWithinUniverse(universe: set<int>, snapshots: seq<set<int>>, last: int, inspected: seq<int>, k: int)
    requires Sweeping(snapshots, last, inspected) && |snapshots| >= |universe| && k in universe
    requires forall i :: 0 <= i < |snapshots| ==> snapshots[i] <= universe && k in snapshots[i]
    ensures FoundWithin(inspected, k, |universe|)
  {
    SubsetSize(Ahead(universe, last, k), universe);
    EveryKeyInspected(universe, snapshots, last, inspected, k);
  }

  // ---- A window per pump (sweepQuotaFree)

  const SCAN_BUDGET := 3

  function Scanned(n: nat): nat { if n < SCAN_BUDGET then n else SCAN_BUDGET }

  /** The i-th position of a sweep that starts at offset. */
  function At(n: nat, offset: nat, i: nat): (p: nat)
    requires n > 0
    ensures p < n
  {
    (offset + i) % n
  }

  /** The positions one sweep over n rounds observes, when none of them is the skipped
      round and none resolves. */
  predicate Observes(n: nat, offset: nat, p: nat)
    requires n > 0
  {
    exists i :: 0 <= i < Scanned(n) && At(n, offset, i) == p
  }

  /** Of the first m positions from an offset on, around the queue, those not skipped. */
  function Window(queue: seq<int>, skip: int, offset: nat, m: nat): seq<nat>
    requires queue != []
  {
    if m == 0 then []
    else
      var p := At(|queue|, offset, m - 1);
      Window(queue, skip, offset, m - 1) + if queue[p] == skip then [] else [p]
  }

  lemma NothingSeen(queue: seq<int>, skip: int, offset: nat)
    requires queue != []
    ensures Window(queue, skip, offset, 0) == []
  {
  }

  lemma OneMoreSeen(queue: seq<int>, skip: int, offset: nat, m: nat, p: nat)
    requires p < |queue| && p == (m + offset) % |queue|
    ensures Window(queue, skip, offset, m + 1)
         == Window(queue, skip, offset, m) + if queue[p] == skip then [] else [p]
  {
  }

  /** Those are all of the first m, and m is all, or the sweep had observed its share or
      resolved a round. */
  ghost predicate SweptTo(queue: seq<int>, skip: int, offset: nat, observed: seq<nat>, resolved: bool, m: nat)
    requires queue != []
  {
    && m <= |queue| && observed == Window(queue, skip, offset, m)
    && (m == |queue| || |observed| == SCAN_BUDGET || resolved)
  }

  class Scanner {
    var scanOffset: nat

    constructor ()
      ensures scanOffset == 0
    {
      scanOffset := 0;
    }

    /** sweepQuotaFree over a queue: skip is the round already decided about, free says
        which rounds have a verdict that spends no quota. It reports the positions it
        observed and the one it resolved. */
    method Sweep(queue: seq<int>, skip: int, free: seq<bool>) returns (observed: seq<nat>, resolved: Option<nat>)
      requires queue != [] && |free| == |queue|
      modifies this
      ensures |observed| <= SCAN_BUDGET && scanOffset == (old(scanOffset) + |observed| + 1) % |queue|
      ensures forall p :: p in observed ==> p < |queue| && queue[p] != skip
      ensures resolved.Some? ==>
        && observed != [] && resolved.value == observed[|observed| - 1] < |queue| && free[resolved.value]
      ensures forall i :: 0 <= i < |observed| && (resolved.None? || i < |observed| - 1) ==>
        observed[i] < |queue| && !free[observed[i]]
      ensures exists m: nat :: SweptTo(queue, skip, old(scanOffset), observed, resolved.Some?, m)
      ensures skip !in queue && resolved.None? ==>
        |observed| == Scanned(|queue|)
        && forall i :: 0 <= i < |observed| ==> observed[i] == (old(scanOffset) + i) % |queue|
    {
      hide Window, At;
      var n := |queue|;
      observed, resolved := [], None;
      NothingSeen(queue, skip, scanOffset);
      ghost var seen := 0;
      for i := 0 to n
        invariant |observed| <= SCAN_BUDGET && |observed| <= i && scanOffset == old(scanOffset)
        invariant seen == i && observed == Window(queue, skip, scanOffset, seen)
        invariant resolved.None?
        invariant forall j :: 0 <= j < |observed| ==>
          observed[j] < n && queue[observed[j]] != skip && !free[observed[j]]
        invariant skip !in queue ==> |observed| == i
        invariant skip !in queue ==> forall j :: 0 <= j < |observed| ==> observed[j] == (old(scanOffset) + j) % n
      {
        var p := (i + scanOffset) % n;
        OneMoreSeen(queue, skip, scanOffset, i, p);
        if queue[p] == skip {
          seen := i + 1;
          continue;
        }
        if |observed| >= SCAN_BUDGET {
          break;
        }
        observed := observed + [p];
        seen := i + 1;
        if free[p] {
          resolved := Some(p);
          break;
        }
      }
      assert SweptTo(queue, skip, scanOffset, observed, resolved.Some?, seen);
      scanOffset := (scanOffset + |observed| + 1) % n;
    }
  }

  /** Where the t-th sweep starts, over a fixed queue of rounds that all spend quota. */
  function OffsetAt(n: nat, start: nat, t: nat): nat
    requires n > 0
  {
    if t == 0 then start else (OffsetAt(n, start, t - 1) + Scanned(n) + 1) % n
  }

  predicate Reaches(n: nat, start: nat, p: nat, t: nat)
    requires n > 0
  {
    Observes(n, OffsetAt(n, start, t), p)
  }

  /** The position is observed by some sweep. */
  ghost predicate EventuallyObserved(n: nat, start: nat, p: nat)
    requires n > 0
  {
    exists t :: Reaches(n, start, p, t)
  }

  lemma Wraps(x: nat, n: nat)
    requires 0 < n && x < 2 * n
    ensures x % n == if x < n then x else x - n
  {
  }

  lemma MultipleBound(k: int, n: int)
    requires n > 0
    ensures k <= -1 ==> k * n <= -n
    ensures k >= 2 ==> k * n >= 2 * n
  {
  }

  lemma Multiple(x: int, k: int, n: int)
    requires n > 0 && x == k * n && -n < x < 2 * n
    ensures x == 0 || x == n
  {
    MultipleBound(k, n);
  }

  /** Four steps a sweep, less the laps. */
  lemma {:induction false} OffsetSum(n: nat, start: nat, t: nat) returns (laps: nat)
    requires n >= 4 && start < n
    ensures OffsetAt(n, start, t) < n && start + 4 * t == OffsetAt(n, start, t) + laps * n
  {
    if t == 0 {
      laps := 0;
    } else {
      var before := OffsetSum(n, start, t - 1);
      var offset := OffsetAt(n, start, t - 1);
      Wraps(offset + 4, n);
      laps := if offset + 4 < n then before else before + 1;
      assert (before + 1) * n == before * n + n;
    }
  }

  /** A multiple of four steps that lands within the window of p. */
  lemma Lands(n: nat, start: nat, p: nat, t: nat, i: nat, q: int)
    requires n >= 4 && start < n && p < n && i < SCAN_BUDGET && 4 * t + i == p - start + q * n
    ensures Reaches(n, start, p, t)
  {
    var laps := OffsetSum(n, start, t);
    var offset := OffsetAt(n, start, t);
    assert offset + i - p == (q - laps) * n;
    Multiple(offset + i - p, q - laps, n);
    Wraps(offset + i, n);
    assert At(n, offset, i) == p;
  }

  lemma Scaled(d: nat, a: nat, r: nat, n: nat)
    requires n == 4 * a + r
    ensures d * n == 4 * (d * a) + d * r && d * (a + 1) == d * a + d && d * (3 * a + 1) == 3 * (d * a) + d
  {
  }

  lemma Laps(lap: nat, d: nat, n: nat)
    ensures (lap + d) * n == lap * n + d * n && (lap + 3 * d) * n == lap * n + 3 * (d * n)
  {
  }

  lemma ReachedThree(a: nat, n: nat, start: nat, p: nat, lap: nat, d: nat)
    requires n == 4 * a + 3 && n >= 4 && start < n && p < n && d == p - start + lap * n
    ensures EventuallyObserved(n, start, p)
  {
    Scaled(d, a, 3, n);
    Laps(lap, d, n);
    Lands(n, start, p, d * (a + 1), 0, lap + d);
  }

  lemma ReachedOne(a: nat, n: nat, start: nat, p: nat, lap: nat, d: nat)
    requires n == 4 * a + 1 && n >= 4 && start < n && p < n && d == p - start + lap * n
    ensures EventuallyObserved(n, start, p)
  {
    Scaled(d, a, 1, n);
    Laps(lap, d, n);
    Lands(n, start, p, d * (3 * a + 1), 0, lap + 3 * d);
  }

  lemma ReachedTwo(a: nat, n: nat, start: nat, p: nat, lap: nat, h: nat, i: nat)
    requires n == 4 * a + 2 && n >= 4 && start < n && p < n && 2 * h + i == p - start + lap * n && i < 2
    ensures EventuallyObserved(n, start, p)
  {
    Scaled(h, a, 2, n);
    Laps(lap, h, n);
    Lands(n, start, p, h * (a + 1), i, lap + h);
  }

  /** Unless the queue's length is a multiple of four, every position comes up. */
  lemma EveryPositionReached(n: nat, start: nat, p: nat)
    requires n > 0 && start < n && p < n && n % 4 != 0
    ensures EventuallyObserved(n, start, p)
  {
    var lap, a, rest := if p >= start then 0 else 1, n / 4, n % 4;
    var d := p - start + (if p >= start then 0 else n);
    assert n == 4 * a + rest && d == p - start + lap * n;
    if n < 4 {
      SmallQueue(n, start, p);
    } else if rest == 3 {
      ReachedThree(a, n, start, p, lap, d);
    } else if rest == 1 {
      ReachedOne(a, n, start, p, lap, d);
    } else {
      ReachedTwo(a, n, start, p, lap, d / 2, d % 2);
    }
  }

  lemma SmallQueue(n: nat, start: nat, p: nat)
    requires 0 < n < 4 && start < n && p < n
    ensures Reaches(n, start, p, 0)
  {
    var i := if p >= start then p - start else p + n - start;
    Wraps(start + i, n);
    assert At(n, OffsetAt(n, start, 0), i) == p;
  }

  lemma QuadLaps(laps: nat, m: nat, n: nat)
    requires n == 4 * m
    ensures laps * n == 4 * (laps * m)
  {
  }

  lemma FourApart(start: nat, t: nat, offset: nat, groups: nat, m: nat, i: nat, a: nat, b: nat)
    requires start + 4 * t == offset + 4 * groups && i < 3 && a <= 1 && b <= 1
    ensures start + 3 - (if a == 0 then 0 else 4 * m) != offset + i - (if b == 0 then 0 else 4 * m)
  {
  }

  /** With a length that is a multiple of four, a sweep starts at the same place modulo
      four every time, and the fourth position of each group is never observed. */
  lemma StarvedPosition(m: nat, n: nat, start: nat, t: nat)
    requires n == 4 * m && n > 0 && start < n
    ensures !Reaches(n, start, At(n, start, 3), t)
  {
    var laps := OffsetSum(n, start, t);
    QuadLaps(laps, m, n);
    var offset, groups := OffsetAt(n, start, t), laps * m;
    Wraps(start + 3, n);
    forall i: nat | i < SCAN_BUDGET ensures At(n, offset, i) != At(n, start, 3) {
      Wraps(offset + i, n);
      FourApart(start, t, offset, groups, m, i, if start + 3 < n then 0 else 1, if offset + i < n then 0 else 1);
    }
  }

  /** Over a fixed queue of rounds that spend quota, every position is eventually
      observed, wherever the rotation starts, exactly when the queue's length is not a
      multiple of four. */
  lemma EveryPositionExactly(n: nat, start: nat)
    requires n > 0 && start < n
    ensures (forall p :: 0 <= p < n ==> EventuallyObserved(n, start, p)) <==> n % 4 != 0
  {
    if n % 4 != 0 {
      forall p | 0 <= p < n ensures EventuallyObserved(n, start, p) {
        EveryPositionReached(n, start, p);
      }
    } else {
      forall t: nat ensures !Reaches(n, start, At(n, start, 3), t) {
        StarvedPosition(n / 4, n, start, t);
      }
      assert !EventuallyObserved(n, start, At(n, start, 3));
    }
  }
}
