/** The fire log of internal/state/firelog.go: when metered reviews were asked for. It is
    sorted, and keeps a window and at most so many entries. */
module FireLog {
  const WINDOW: int := 14 * 24 * 3600 * 1_000_000_000
  const MAX_ENTRIES := 1000

  ghost predicate Sorted(s: seq<int>) {
    forall i, j :: 0 <= i < j < |s| ==> s[i] <= s[j]
  }

  /** t placed after every entry that is not later. */
  function Insert(s: seq<int>, t: int): seq<int> {
    if s == [] || s[|s| - 1] <= t then s + [t] else Insert(s[..|s| - 1], t) + [s[|s| - 1]]
  }

  function Sort(s: seq<int>): seq<int> {
    if s == [] then [] else Insert(Sort(s[..|s| - 1]), s[|s| - 1])
  }

  /** The entries after a time. */
  function After(s: seq<int>, cutoff: int): seq<int> {
    if s == [] then []
    else After(s[..|s| - 1], cutoff) + (if s[|s| - 1] > cutoff then [s[|s| - 1]] else [])
  }

  /** The newest entries, as many as the log holds. */
  function Newest(s: seq<int>): seq<int> {
    if |s| > MAX_ENTRIES then s[|s| - MAX_ENTRIES..] else s
  }

  /** What trimFireLog keeps of a sorted log. */
  function Trimmed(s: seq<int>): seq<int> {
    if s == [] then [] else Newest(After(s, s[|s| - 1] - WINDOW))
  }

  /** noteFire: append, sort, trim. */
  function NoteFire(fires: seq<int>, t: int): seq<int> {
    Trimmed(Sort(fires + [t]))
  }

  function NoteFires(fires: seq<int>, times: seq<int>): seq<int> {
    if times == [] then fires else NoteFire(NoteFires(fires, times[..|times| - 1]), times[|times| - 1])
  }

  /** The log one would keep if every fire were known at once. */
  function Stored(times: seq<int>): seq<int> { Trimmed(Sort(times)) }

  /** FiresSince. */
  function CountSince(s: seq<int>, t: int): nat {
    if s == [] then 0 else CountSince(s[..|s| - 1], t) + (if s[|s| - 1] >= t then 1 else 0)
  }

  // ---- Sorting

  lemma {:induction false} InsertHolds(s: seq<int>, t: int)
    ensures multiset(Insert(s, t)) == multiset(s) + multiset{t} && |Insert(s, t)| == |s| + 1
  {
    if s != [] && s[|s| - 1] > t {
      InsertHolds(s[..|s| - 1], t);
      assert s == s[..|s| - 1] + [s[|s| - 1]];
    }
  }

  lemma InsertBounded(s: seq<int>, t: int, bound: int)
    requires t <= bound && forall i :: 0 <= i < |s| ==> s[i] <= bound
    ensures forall i :: 0 <= i < |Insert(s, t)| ==> Insert(s, t)[i] <= bound
  {
    hide Insert;
    InsertHolds(s, t);
    forall i | 0 <= i < |Insert(s, t)| ensures Insert(s, t)[i] <= bound {
      assert Insert(s, t)[i] in multiset(Insert(s, t));
    }
  }

  lemma SortedSnoc(s: seq<int>, last: int)
    requires Sorted(s) && forall i :: 0 <= i < |s| ==> s[i] <= last
    ensures Sorted(s + [last])
  {
  }

  lemma SortedParts(d: seq<int>, k: seq<int>)
    requires Sorted(d + k)
    ensures Sorted(d) && Sorted(k)
  {
    assert forall i :: 0 <= i < |d| ==> d[i] == (d + k)[i];
    assert forall i :: 0 <= i < |k| ==> k[i] == (d + k)[|d| + i];
  }

  lemma {:induction false} InsertSorted(s: seq<int>, t: int)
    requires Sorted(s)
    ensures Sorted(Insert(s, t))
  {
    if s == [] || s[|s| - 1] <= t {
      SortedSnoc(s, t);
    } else {
      var init, last := s[..|s| - 1], s[|s| - 1];
      assert s == init + [last];
      SortedParts(init, [last]);
      InsertSorted(init, t);
      LastIsMost(s);
      InsertBounded(init, t, last);
      SortedSnoc(Insert(init, t), last);
    }
  }

  lemma LastIsMost(s: seq<int>)
    requires Sorted(s) && s != []
    ensures forall i :: 0 <= i < |s| ==> s[i] <= s[|s| - 1]
  {
  }

  lemma {:induction false} SortSorts(s: seq<int>)
    ensures Sorted(Sort(s)) && multiset(Sort(s)) == multiset(s)
  {
    if s != [] {
      SortSorts(s[..|s| - 1]);
      InsertHolds(Sort(s[..|s| - 1]), s[|s| - 1]);
      InsertSorted(Sort(s[..|s| - 1]), s[|s| - 1]);
      assert s == s[..|s| - 1] + [s[|s| - 1]];
    }
  }

  lemma {:induction false} SortedSorts(s: seq<int>)
    requires Sorted(s)
    ensures Sort(s) == s
  {
    if s != [] {
      SortedSorts(s[..|s| - 1]);
      assert s == s[..|s| - 1] + [s[|s| - 1]];
    }
  }

  lemma SortSnoc(s: seq<int>, t: int)
    ensures Sort(s + [t]) == Insert(Sort(s), t)
  {
    assert (s + [t])[..|s|] == s;
  }

  lemma {:induction false} InsertBack(d: seq<int>, k: seq<int>, t: int)
    requires Sorted(k) && k != [] && k[0] <= t
    ensures Insert(d + k, t) == d + Insert(k, t)
    decreases |k|
  {
    var last := k[|k| - 1];
    if last <= t {
      assert d + k + [t] == d + (k + [t]);
    } else {
      InsertBack(d, k[..|k| - 1], t);
      assert (d + k)[..|d + k| - 1] == d + k[..|k| - 1];
      assert (d + Insert(k[..|k| - 1], t)) + [last] == d + (Insert(k[..|k| - 1], t) + [last]);
    }
  }

  lemma {:induction false} InsertFront(d: seq<int>, k: seq<int>, t: int)
    requires Sorted(k) && (k != [] ==> t < k[0])
    ensures Insert(d + k, t) == Insert(d, t) + k
    decreases |k|
  {
    if k == [] {
      assert d + k == d && Insert(d, t) + k == Insert(d, t);
    } else {
      var init, last := k[..|k| - 1], k[|k| - 1];
      assert k == init + [last];
      SortedParts(init, [last]);
      assert init != [] ==> init[0] == k[0];
      LastIsMost(k);
      hide Insert, Sorted;
      InsertFront(d, init, t);
      InsertBefore(d + init, last, t);
      Assoc(d, init, [last]);
      Assoc(Insert(d, t), init, [last]);
    }
  }

  lemma Assoc(a: seq<int>, b: seq<int>, c: seq<int>)
    ensures a + b + c == a + (b + c)
  {
  }

  lemma InsertBefore(s: seq<int>, last: int, t: int)
    requires t < last
    ensures Insert(s + [last], t) == Insert(s, t) + [last]
  {
    assert (s + [last])[..|s|] == s;
  }

  // ---- Trimming

  lemma {:induction false} AfterAppend(a: seq<int>, b: seq<int>, cutoff: int)
    ensures After(a + b, cutoff) == After(a, cutoff) + After(b, cutoff)
    decreases |b|
  {
    if b == [] {
      assert a + b == a;
    } else {
      AfterAppend(a, b[..|b| - 1], cutoff);
      assert (a + b)[..|a + b| - 1] == a + b[..|b| - 1];
    }
  }

  lemma {:induction false} AfterNone(s: seq<int>, cutoff: int)
    requires forall i :: 0 <= i < |s| ==> s[i] <= cutoff
    ensures After(s, cutoff) == []
  {
    if s != [] {
      AfterNone(s[..|s| - 1], cutoff);
    }
  }

  lemma {:induction false} AfterAll(s: seq<int>, cutoff: int)
    requires forall i :: 0 <= i < |s| ==> s[i] > cutoff
    ensures After(s, cutoff) == s
  {
    if s != [] {
      AfterAll(s[..|s| - 1], cutoff);
      assert s == s[..|s| - 1] + [s[|s| - 1]];
    }
  }

  /** Of a sorted log, the entries after a time are its end. */
  lemma {:induction false} AfterIsEnd(s: seq<int>, cutoff: int) returns (n: nat)
    requires Sorted(s)
    ensures n <= |s| && After(s, cutoff) == s[n..]
    ensures (forall i :: 0 <= i < n ==> s[i] <= cutoff) && (n < |s| ==> s[n] > cutoff)
  {
    n := 0;
    while n < |s| && s[n] <= cutoff
      invariant n <= |s| && forall i :: 0 <= i < n ==> s[i] <= cutoff
    {
      n := n + 1;
    }
    AfterNone(s[..n], cutoff);
    AfterAll(s[n..], cutoff);
    AfterAppend(s[..n], s[n..], cutoff);
    assert s[..n] + s[n..] == s;
  }

  /** The first are out of a window that ends at newest, or enough come after them. */
  ghost predicate Forgettable(d: seq<int>, kept: nat, newest: int) {
    kept >= MAX_ENTRIES || forall i :: 0 <= i < |d| ==> d[i] <= newest - WINDOW
  }

  /** Entries that are out of the window, or beyond the count, make no difference. */
  lemma TrimForgets(d: seq<int>, k: seq<int>)
    requires Sorted(d + k) && k != [] && Forgettable(d, |k|, k[|k| - 1])
    ensures Trimmed(d + k) == Trimmed(k)
  {
    hide After, Sorted;
    var cutoff := k[|k| - 1] - WINDOW;
    assert (d + k)[|d + k| - 1] == k[|k| - 1];
    AfterAppend(d, k, cutoff);
    if forall i :: 0 <= i < |d| ==> d[i] <= cutoff {
      AfterNone(d, cutoff);
      assert [] + After(k, cutoff) == After(k, cutoff);
    } else {
      var i :| 0 <= i < |d| && d[i] > cutoff;
      LaterThan(d, k, i);
      AfterAll(k, cutoff);
      NewestOfEnd(After(d, cutoff), k);
    }
  }

  lemma LaterThan(d: seq<int>, k: seq<int>, i: nat)
    requires Sorted(d + k) && i < |d|
    ensures forall j :: 0 <= j < |k| ==> k[j] >= d[i]
  {
    forall j | 0 <= j < |k| ensures k[j] >= d[i] {
      assert (d + k)[i] <= (d + k)[|d| + j];
    }
  }

  lemma NewestOfEnd(d: seq<int>, k: seq<int>)
    requires |k| >= MAX_ENTRIES
    ensures Newest(d + k) == Newest(k)
  {
    assert (d + k)[|d + k| - MAX_ENTRIES..] == k[|k| - MAX_ENTRIES..];
  }

  /** What a trim drops from a sorted log stays dropped. */
  lemma TrimIsEnd(s: seq<int>) returns (n: nat)
    requires Sorted(s) && s != []
    ensures n < |s| && Trimmed(s) == s[n..]
    ensures Forgettable(s[..n], |s| - n, s[|s| - 1])
  {
    var kept := AfterIsEnd(s, s[|s| - 1] - WINDOW);
    n := if |s| - kept > MAX_ENTRIES then |s| - MAX_ENTRIES else kept;
    assert s[n..] == s[kept..][n - kept..];
  }

  lemma TrimmedSorted(s: seq<int>)
    requires Sorted(s)
    ensures Sorted(Trimmed(s)) && |Trimmed(s)| <= MAX_ENTRIES
  {
    if s != [] {
      var n := TrimIsEnd(s);
    }
  }

  /** A fire noted in a trimmed log leaves what it would have in the whole log. */
  lemma TrimThenInsert(s: seq<int>, t: int)
    requires Sorted(s)
    ensures Trimmed(Insert(Trimmed(s), t)) == Trimmed(Insert(s, t))
  {
    if s != [] {
      hide Insert, Trimmed;
      var n := TrimIsEnd(s);
      var d, k := s[..n], s[n..];
      assert s == d + k;
      SortedParts(d, k);
      if k[0] <= t {
        InsertSorted(s, t);
        InsertBack(d, k, t);
        LaterNewest(k, t);
        TrimForgets(d, Insert(k, t));
      } else {
        EarlierForgotten(d, k, t);
      }
    }
  }

  lemma LaterNewest(k: seq<int>, t: int)
    requires Sorted(k) && k != []
    ensures |Insert(k, t)| == |k| + 1 && Insert(k, t)[|k|] >= k[|k| - 1]
  {
    InsertSorted(k, t);
    InsertHolds(k, t);
    assert k[|k| - 1] in multiset(Insert(k, t));
    LastIsMost(Insert(k, t));
  }

  /** An early fire is dropped from the whole log when it is from the trimmed one. */
  lemma EarlierForgotten(d: seq<int>, k: seq<int>, t: int)
    requires Sorted(d + k) && k != [] && t < k[0] && Forgettable(d, |k|, k[|k| - 1])
    ensures Trimmed(Insert(k, t)) == Trimmed(Insert(d + k, t))
  {
    hide Insert, Trimmed, Sorted;
    SortedParts(d, k);
    InsertFront(d, k, t);
    InsertFront([], k, t);
    InsertNone(t);
    InsertSorted(d + k, t);
    InsertSorted(k, t);
    assert [] + k == k;
    if |k| >= MAX_ENTRIES || t <= k[|k| - 1] - WINDOW {
      DroppedAnyway(d, k, t);
    } else {
      KeptAnyway(d, k, t);
    }
  }

  lemma InsertNone(t: int)
    ensures Insert([], t) == [t]
  {
  }

  lemma DroppedAnyway(d: seq<int>, k: seq<int>, t: int)
    requires Sorted(d) && Sorted(Insert(d, t) + k) && Sorted([t] + k) && k != [] && Forgettable(d, |k|, k[|k| - 1])
    requires |k| >= MAX_ENTRIES || t <= k[|k| - 1] - WINDOW
    ensures Trimmed([t] + k) == Trimmed(Insert(d, t) + k)
  {
    hide Insert, Trimmed, Sorted;
    TrimForgets([t], k);
    if |k| < MAX_ENTRIES {
      InsertBounded(d, t, k[|k| - 1] - WINDOW);
    }
    TrimForgets(Insert(d, t), k);
  }

  lemma KeptAnyway(d: seq<int>, k: seq<int>, t: int)
    requires Sorted(Insert(d, t) + k) && k != [] && Forgettable(d, |k|, k[|k| - 1])
    requires |k| < MAX_ENTRIES && t > k[|k| - 1] - WINDOW
    ensures Trimmed([t] + k) == Trimmed(Insert(d, t) + k)
  {
    assert Insert(d, t) == d + [t];
    hide Insert, Trimmed, Sorted;
    Assoc(d, [t], k);
    assert ([t] + k)[|[t] + k| - 1] == k[|k| - 1];
    TrimForgets(d, [t] + k);
  }

  /** Noting fires one by one stores what noting them at once would. */
  lemma NotedIsStored(times: seq<int>, t: int)
    ensures NoteFire(Stored(times), t) == Stored(times + [t])
  {
    hide Sort, Insert, Trimmed;
    SortSorts(times);
    TrimmedSorted(Sort(times));
    SortSnoc(times, t);
    SortSnoc(Stored(times), t);
    SortedSorts(Stored(times));
    TrimThenInsert(Sort(times), t);
  }

  lemma {:induction false} NotedAreStored(times: seq<int>, more: seq<int>)
    ensures NoteFires(Stored(times), more) == Stored(times + more)
    decreases |more|
  {
    hide Stored, NoteFire;
    if more == [] {
      assert times + more == times;
    } else {
      NotedAreStored(times, more[..|more| - 1]);
      NotedIsStored(times + more[..|more| - 1], more[|more| - 1]);
      assert times + more[..|more| - 1] + [more[|more| - 1]] == times + more;
    }
  }

  lemma NoteOne(fires: seq<int>, t: int)
    ensures NoteFires(fires, [t]) == NoteFire(fires, t)
  {
    hide NoteFire;
    assert [t][..0] == [];
  }

  /** The log is sorted, bounded, and holds no time more often than it was noted. */
  lemma StoredIsNoted(times: seq<int>)
    ensures Sorted(Stored(times)) && |Stored(times)| <= MAX_ENTRIES
    ensures multiset(Stored(times)) <= multiset(times)
  {
    SortSorts(times);
    TrimmedSorted(Sort(times));
    if times != [] {
      assert Sort(times) != [] by { assert times[0] in multiset(Sort(times)); }
      var s := Sort(times);
      var n := TrimIsEnd(s);
      assert s == s[..n] + s[n..];
    }
  }

  // ---- Counting

  lemma {:induction false} CountAppend(a: seq<int>, b: seq<int>, t: int)
    ensures CountSince(a + b, t) == CountSince(a, t) + CountSince(b, t)
    decreases |b|
  {
    if b == [] {
      assert a + b == a;
    } else {
      CountAppend(a, b[..|b| - 1], t);
      assert (a + b)[..|a + b| - 1] == a + b[..|b| - 1];
    }
  }

  lemma {:induction false} CountInsert(s: seq<int>, x: int, t: int)
    ensures CountSince(Insert(s, x), t) == CountSince(s, t) + (if x >= t then 1 else 0)
  {
    if s == [] || s[|s| - 1] <= x {
      assert (s + [x])[..|s|] == s;
    } else {
      var init := s[..|s| - 1];
      CountInsert(init, x, t);
      assert (Insert(init, x) + [s[|s| - 1]])[..|Insert(init, x)|] == Insert(init, x);
    }
  }

  lemma {:induction false} CountSort(s: seq<int>, t: int)
    ensures CountSince(Sort(s), t) == CountSince(s, t)
  {
    if s != [] {
      CountSort(s[..|s| - 1], t);
      CountInsert(Sort(s[..|s| - 1]), s[|s| - 1], t);
    }
  }

  lemma {:induction false} CountNone(s: seq<int>, t: int)
    requires forall i :: 0 <= i < |s| ==> s[i] < t
    ensures CountSince(s, t) == 0
  {
    if s != [] {
      CountNone(s[..|s| - 1], t);
    }
  }

  lemma {:induction false} CountBound(s: seq<int>, t: int)
    ensures CountSince(s, t) <= |s|
    ensures (forall i :: 0 <= i < |s| ==> s[i] >= t) ==> CountSince(s, t) == |s|
  {
    if s != [] {
      CountBound(s[..|s| - 1], t);
    }
  }

  /** The count since any time inside the window is the number of fires noted since,
      up to what the log holds. */
  lemma CountIsExact(times: seq<int>, t: int)
    requires forall i :: 0 <= i < |times| ==> times[i] < t + WINDOW
    ensures CountSince(Stored(times), t)
       == if CountSince(times, t) <= MAX_ENTRIES then CountSince(times, t) else MAX_ENTRIES
  {
    hide CountSince, Sort, Trimmed;
    var s := Sort(times);
    SortSorts(times);
    CountSort(times, t);
    if times == [] {
      NothingSorted();
      CountNone([], t);
    } else {
      assert times[0] in multiset(s);
      NewestIsNoted(times, s);
      CountKept(s, t);
    }
  }

  lemma NothingSorted()
    ensures Sort([]) == [] && Stored([]) == []
  {
  }

  lemma NewestIsNoted(times: seq<int>, s: seq<int>)
    requires multiset(s) == multiset(times) && s != []
    ensures exists i :: 0 <= i < |times| && times[i] == s[|s| - 1]
  {
    assert s[|s| - 1] in multiset(s);
    assert s[|s| - 1] in times;
  }

  lemma CountKept(s: seq<int>, t: int)
    requires Sorted(s) && s != [] && s[|s| - 1] < t + WINDOW
    ensures CountSince(Trimmed(s), t) == if CountSince(s, t) <= MAX_ENTRIES then CountSince(s, t) else MAX_ENTRIES
  {
    hide CountSince, Trimmed, Sorted;
    var n := TrimIsEnd(s);
    TrimmedSorted(s);
    assert s == s[..n] + s[n..];
    CountIsKept(s[..n], s[n..], t);
  }

  lemma CountIsKept(d: seq<int>, k: seq<int>, t: int)
    requires Sorted(d + k) && k != [] && |k| <= MAX_ENTRIES && Forgettable(d, |k|, k[|k| - 1])
    requires k[|k| - 1] < t + WINDOW
    ensures CountSince(k, t) == if CountSince(d + k, t) <= MAX_ENTRIES then CountSince(d + k, t) else MAX_ENTRIES
  {
    hide CountSince, Sorted;
    CountAppend(d, k, t);
    CountBound(k, t);
    if i :| 0 <= i < |d| && d[i] >= t {
      LaterThan(d, k, i);
    } else {
      CountNone(d, t);
    }
  }
}
