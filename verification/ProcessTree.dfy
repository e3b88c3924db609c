/** killDescendants of internal/crq/reaper_linux.go: the child map built from one
    reading of /proc and the breadth-first walk that signals every process below
    this one. */
module ProcessTree {
  import opened Text

  /** One readable /proc entry: a process and the parent its stat line names. */
  datatype Process = Process(pid: int, parent: int)

  /** A directory lists each pid once, so every process has one parent. */
  ghost predicate Snapshot(table: seq<Process>) {
    forall i, j :: 0 <= i < j < |table| ==> table[i].pid != table[j].pid
  }

  function ChildrenOf(table: seq<Process>, pid: int): seq<int> {
    if table == [] then []
    else
      var rest := ChildrenOf(table[..|table| - 1], pid);
      if table[|table| - 1].parent == pid then rest + [table[|table| - 1].pid] else rest
  }

  ghost predicate IsChild(table: seq<Process>, parent: int, pid: int) {
    exists i :: 0 <= i < |table| && table[i] == Process(pid, parent)
  }

  /** pid lies n generations below ancestor. */
  ghost predicate Below(table: seq<Process>, ancestor: int, pid: int, n: nat)
    decreases n
  {
    if n == 0 then pid == ancestor
    else exists parent :: IsChild(table, parent, pid) && Below(table, ancestor, parent, n - 1)
  }

  /** A strict descendant. */
  ghost predicate Descends(table: seq<Process>, ancestor: int, pid: int) {
    exists n: nat :: n > 0 && Below(table, ancestor, pid, n)
  }

  lemma {:induction false} ChildrenAreChildren(table: seq<Process>, pid: int)
    requires Snapshot(table)
    ensures forall c :: c in ChildrenOf(table, pid) <==> IsChild(table, pid, c)
    ensures Distinct(ChildrenOf(table, pid))
  {
    if table != [] {
      var init, last := table[..|table| - 1], table[|table| - 1];
      ChildrenAreChildren(init, pid);
      assert table == init + [last];
      assert !IsChild(init, pid, last.pid);
      forall c ensures IsChild(table, pid, c) <==> IsChild(init, pid, c) || last == Process(c, pid) {
        if IsChild(init, pid, c) {
          var i :| 0 <= i < |init| && init[i] == Process(c, pid);
          assert table[i] == Process(c, pid);
        }
      }
    }
  }

  ghost predicate Distinct(s: seq<int>) {
    forall i, j :: 0 <= i < j < |s| ==> s[i] != s[j]
  }

  lemma OneParent(table: seq<Process>, a: int, b: int, pid: int)
    requires Snapshot(table) && IsChild(table, a, pid) && IsChild(table, b, pid)
    ensures a == b
  {
    var i :| 0 <= i < |table| && table[i] == Process(pid, a);
    var j :| 0 <= j < |table| && table[j] == Process(pid, b);
    assert i == j;
  }

  /** The walk so far: who was signalled, in order, and who is queued. */
  datatype Walk = Walk(signalled: seq<int>, queue: seq<int>) {
    /** Everybody ever queued, in queueing order. */
    function Met(): seq<int> { signalled + queue }
  }

  function Start(table: seq<Process>, self: int): Walk {
    Walk([], ChildrenOf(table, self))
  }

  function Next(table: seq<Process>, w: Walk): Walk
    requires w.queue != []
  {
    Walk(w.signalled + [w.queue[0]], w.queue[1..] + ChildrenOf(table, w.queue[0]))
  }

  /** The walk after n rounds of the queue loop, or where it stopped before that. */
  function After(table: seq<Process>, self: int, n: nat): Walk {
    if n == 0 then Start(table, self)
    else
      var w := After(table, self, n - 1);
      if w.queue == [] then w else Next(table, w)
  }

  ghost predicate Sound(table: seq<Process>, self: int, w: Walk) {
    && Distinct(w.Met())
    && (forall p :: p in w.Met() ==> Descends(table, self, p))
    && (forall c :: IsChild(table, self, c) ==> c in w.Met())
    && (forall p, c :: p in w.signalled && IsChild(table, p, c) ==> c in w.Met())
    && (forall j :: 0 <= j < |w.Met()| ==> ParentFirst(table, self, w, j))
  }

  /** The j-th process met has a parent that is this process or was signalled before it. */
  ghost predicate ParentFirst(table: seq<Process>, self: int, w: Walk, j: nat)
    requires j < |w.Met()|
  {
    || IsChild(table, self, w.Met()[j])
    || exists i :: 0 <= i < j && i < |w.signalled| && IsChild(table, w.signalled[i], w.Met()[j])
  }

  lemma DescendsChild(table: seq<Process>, self: int, p: int, c: int)
    requires (p == self || Descends(table, self, p)) && IsChild(table, p, c)
    ensures Descends(table, self, c)
  {
    if p == self {
      assert Below(table, self, self, 0);
      assert Below(table, self, c, 1);
    } else {
      var n: nat :| n > 0 && Below(table, self, p, n);
      assert Below(table, self, c, n + 1);
    }
  }

  lemma StartSound(table: seq<Process>, self: int)
    requires Snapshot(table)
    ensures Sound(table, self, Start(table, self))
  {
    ChildrenAreChildren(table, self);
    var w := Start(table, self);
    assert w.Met() == ChildrenOf(table, self);
    forall p | p in w.Met() ensures Descends(table, self, p) {
      DescendsChild(table, self, self, p);
    }
  }

  /** A new child was never met before: its one parent was unsignalled until now. */
  lemma NewChildUnmet(table: seq<Process>, self: int, w: Walk, c: int)
    requires Snapshot(table) && !Descends(table, self, self)
    requires Sound(table, self, w) && w.queue != [] && IsChild(table, w.queue[0], c)
    ensures c !in w.Met()
  {
    var met, p := w.Met(), w.queue[0];
    assert p == met[|w.signalled|] && p in met;
    assert forall i :: 0 <= i < |w.signalled| ==> met[i] == w.signalled[i] && met[i] != p;
    forall i | 0 <= i < |w.signalled| ensures !IsChild(table, w.signalled[i], c) {
      if IsChild(table, w.signalled[i], c) {
        OneParent(table, w.signalled[i], p, c);
      }
    }
    if IsChild(table, self, c) {
      OneParent(table, self, p, c);
    }
    assert forall j :: 0 <= j < |met| && met[j] == c ==> ParentFirst(table, self, w, j);
  }

  lemma NextSound(table: seq<Process>, self: int, w: Walk)
    requires Snapshot(table) && !Descends(table, self, self)
    requires Sound(table, self, w) && w.queue != []
    ensures Sound(table, self, Next(table, w))
  {
    var p := w.queue[0];
    var kids := ChildrenOf(table, p);
    var next := Next(table, w);
    var met := w.Met();
    ChildrenAreChildren(table, p);
    assert next.Met() == met + kids;
    assert p == met[|w.signalled|];
    forall c | c in kids ensures c !in met && Descends(table, self, c) {
      NewChildUnmet(table, self, w, c);
      DescendsChild(table, self, p, c);
    }
    DistinctAppend(met, kids);
    forall j | 0 <= j < |next.Met()| ensures ParentFirst(table, self, next, j) {
      if j < |met| {
        assert next.Met()[j] == met[j];
        assert ParentFirst(table, self, w, j);
        if !IsChild(table, self, met[j]) {
          var i :| 0 <= i < j && i < |w.signalled| && IsChild(table, w.signalled[i], met[j]);
          assert next.signalled[i] == w.signalled[i];
        }
      } else {
        assert next.signalled[|w.signalled|] == p;
        assert next.Met()[j] == kids[j - |met|];
      }
    }
  }

  lemma DistinctAppend(a: seq<int>, b: seq<int>)
    requires Distinct(a) && Distinct(b) && forall x :: x in b ==> x !in a
    ensures Distinct(a + b)
  {
    forall i, j | 0 <= i < j < |a + b| ensures (a + b)[i] != (a + b)[j] {
      assert (a + b)[i] == if i < |a| then a[i] else b[i - |a|];
      assert (a + b)[j] == if j < |a| then a[j] else b[j - |a|];
      assert |a| <= j ==> b[j - |a|] in b;
    }
  }

  lemma {:induction false} DistinctSize(s: seq<int>, pool: set<int>)
    requires Distinct(s) && forall x :: x in s ==> x in pool
    ensures |s| <= |pool|
  {
    if s != [] {
      var last := s[|s| - 1];
      forall x | x in s[..|s| - 1] ensures x in pool - {last} {
        var i :| 0 <= i < |s| - 1 && s[i] == x;
        assert s[i] == x && x in s && x != last;
      }
      DistinctSize(s[..|s| - 1], pool - {last});
    }
  }

  lemma {:induction false} PidsSize(table: seq<Process>)
    ensures |set i | 0 <= i < |table| :: table[i].pid| <= |table|
  {
    if table != [] {
      var init := table[..|table| - 1];
      PidsSize(init);
      assert (set i | 0 <= i < |table| :: table[i].pid)
          == (set i | 0 <= i < |init| :: init[i].pid) + {table[|table| - 1].pid};
    }
  }

  lemma MetFits(table: seq<Process>, self: int, w: Walk)
    requires Sound(table, self, w)
    ensures |w.signalled| + |w.queue| <= |table|
  {
    var pids := set i | 0 <= i < |table| :: table[i].pid;
    forall p | p in w.Met() ensures p in pids {
      var n: nat :| n > 0 && Below(table, self, p, n);
      var parent :| IsChild(table, parent, p) && Below(table, self, parent, n - 1);
    }
    DistinctSize(w.Met(), pids);
    PidsSize(table);
  }

  /** Once the queue is empty, every descendant has been signalled. */
  lemma {:induction false} AllMet(table: seq<Process>, self: int, w: Walk, p: int, n: nat)
    requires Sound(table, self, w) && w.queue == [] && n > 0 && Below(table, self, p, n)
    ensures p in w.signalled
    decreases n
  {
    var parent :| IsChild(table, parent, p) && Below(table, self, parent, n - 1);
    assert w.Met() == w.signalled;
    if n > 1 {
      AllMet(table, self, w, parent, n - 1);
    }
  }

  method BuildChildren(table: seq<Process>) returns (children: map<int, seq<int>>)
    ensures forall pid :: (if pid in children then children[pid] else []) == ChildrenOf(table, pid)
  {
    children := map[];
    for i := 0 to |table|
      invariant forall pid :: (if pid in children then children[pid] else []) == ChildrenOf(table[..i], pid)
    {
      var parent := table[i].parent;
      var siblings := if parent in children then children[parent] else [];
      children := children[parent := siblings + [table[i].pid]];
      assert table[..i + 1][..i] == table[..i];
    }
    assert table[..|table|] == table;
  }

  /** Signals exactly the strict descendants, each once and after its parent. */
  method KillDescendants(table: seq<Process>, self: int) returns (signalled: seq<int>)
    requires Snapshot(table) && !Descends(table, self, self)
    ensures Distinct(signalled)
    ensures forall p :: p in signalled <==> Descends(table, self, p)
    ensures forall j :: 0 <= j < |signalled| ==>
      IsChild(table, self, signalled[j]) || exists i :: 0 <= i < j && IsChild(table, signalled[i], signalled[j])
  {
    var children := BuildChildren(table);
    var queue := if self in children then children[self] else [];
    signalled := [];
    StartSound(table, self);
    while queue != []
      invariant Sound(table, self, Walk(signalled, queue))
      decreases |table| - |signalled|
    {
      NextSound(table, self, Walk(signalled, queue));
      MetFits(table, self, Walk(signalled, queue));
      var pid := queue[0];
      queue := queue[1..] + (if pid in children then children[pid] else []);
      signalled := signalled + [pid];
    }
    var w := Walk(signalled, queue);
    assert w.Met() == signalled;
    forall p | Descends(table, self, p) ensures p in signalled {
      var n: nat :| n > 0 && Below(table, self, p, n);
      AllMet(table, self, w, p, n);
    }
    forall j | 0 <= j < |signalled|
      ensures IsChild(table, self, signalled[j]) || exists i :: 0 <= i < j && IsChild(table, signalled[i], signalled[j])
    {
      assert ParentFirst(table, self, w, j);
    }
  }

  // ----- exactly when the queue loop ends -----------------------------------------

  /** p is queued and this process is p or lies below it. */
  ghost predicate OnCycle(table: seq<Process>, self: int, p: int) {
    exists n: nat :: Below(table, p, self, n)
  }

  /** Peeling the youngest generation is the same as peeling the eldest. */
  lemma {:induction false} TopChild(table: seq<Process>, p: int, q: int, n: nat) returns (c: int)
    requires n > 0 && Below(table, p, q, n)
    ensures IsChild(table, p, c) && Below(table, c, q, n - 1)
    decreases n
  {
    var parent :| IsChild(table, parent, q) && Below(table, p, parent, n - 1);
    if n == 1 {
      c := q;
    } else {
      c := TopChild(table, p, parent, n - 1);
      assert Below(table, c, q, n - 1);
    }
  }

  lemma CycleChild(table: seq<Process>, self: int, p: int) returns (c: int)
    requires Descends(table, self, self) && OnCycle(table, self, p)
    ensures IsChild(table, p, c) && OnCycle(table, self, c)
  {
    var n: nat :| Below(table, p, self, n);
    if n == 0 {
      var m: nat :| m > 0 && Below(table, self, self, m);
      c := TopChild(table, self, self, m);
    } else {
      c := TopChild(table, p, self, n);
    }
  }

  lemma {:induction false} CycleKeepsQueue(table: seq<Process>, self: int, n: nat)
    requires Snapshot(table) && Descends(table, self, self)
    ensures exists p :: p in After(table, self, n).queue && OnCycle(table, self, p)
  {
    if n == 0 {
      assert Below(table, self, self, 0);
      var c := CycleChild(table, self, self);
      ChildrenAreChildren(table, self);
    } else {
      CycleKeepsQueue(table, self, n - 1);
      var w := After(table, self, n - 1);
      var p :| p in w.queue && OnCycle(table, self, p);
      if p == w.queue[0] {
        var c := CycleChild(table, self, p);
        ChildrenAreChildren(table, p);
        assert c in Next(table, w).queue;
      } else {
        assert p in w.queue[1..];
        assert p in Next(table, w).queue;
      }
    }
  }

  lemma {:induction false} AfterSound(table: seq<Process>, self: int, n: nat)
    requires Snapshot(table) && !Descends(table, self, self)
    ensures Sound(table, self, After(table, self, n))
    ensures After(table, self, n).queue == [] || |After(table, self, n).signalled| == n
  {
    if n == 0 {
      StartSound(table, self);
    } else {
      AfterSound(table, self, n - 1);
      var w := After(table, self, n - 1);
      if w.queue != [] {
        NextSound(table, self, w);
      }
    }
  }

  /** The loop ends, and after at most one round per entry, exactly when this
      process is not its own ancestor; otherwise its queue is never empty. */
  lemma EndsExactlyWithoutCycle(table: seq<Process>, self: int)
    requires Snapshot(table)
    ensures !Descends(table, self, self) <==> exists n: nat :: After(table, self, n).queue == []
    ensures !Descends(table, self, self) ==> After(table, self, |table|).queue == []
  {
    if Descends(table, self, self) {
      forall n: nat ensures After(table, self, n).queue != [] {
        CycleKeepsQueue(table, self, n);
      }
    } else {
      AfterSound(table, self, |table|);
      MetFits(table, self, After(table, self, |table|));
    }
  }
}
