/** What one pass of a write open does, connection by connection and entry by entry. */
module WriteLaws {
  import opened Filtering
  import opened WriteOpen

  // ----- the scan ----------------------------------------------------------------------

  /** Entry `i` of the registry names a live connection and another inode than the path's. */
  predicate StaleAt(w: World, i: nat) {
    i < |w.writers| && w.writers[i].0 < |w.conns| && w.conns[w.writers[i].0].alive && w.writers[i].1 != w.path
  }

  /** The close of a stale connection raises. */
  ghost predicate Sticks(w: World, stuck: set<ConnId>) { exists i: nat :: StaleAt(w, i) && w.writers[i].0 in stuck }

  lemma {:induction false} KeptAt(w: World, entries: seq<(ConnId, Inode)>) returns (at: seq<nat>)
    ensures StandsAt(Kept(w, entries), entries, at)
    ensures forall i: nat :: i in at <==>
      i < |entries| && entries[i].0 < |w.conns| && w.conns[entries[i].0].alive && entries[i].1 == w.path
  {
    if entries == [] {
      at := [];
    } else {
      var rest := KeptAt(w, entries[1..]);
      assert entries == [entries[0]] + entries[1..];
      at := FrontStands(Kept(w, entries[1..]), entries[1..], rest, entries[0], IsAlive(w, entries[0].0) && entries[0].1 == w.path);
    }
  }

  /** Closing in turn from entry `i` on: all of them up to the first that sticks. */
  predicate ClosedOf(w: World, stale: seq<(ConnId, Inode)>, stuck: set<ConnId>, d: ConnId) {
    exists k | 0 <= k < |stale| :: stale[k].0 == d && forall j | 0 <= j <= k :: stale[j].0 !in stuck
  }

  lemma {:induction false} CloseEachIs(w: World, stale: seq<(ConnId, Inode)>, stuck: set<ConnId>)
    ensures var (w1, ok) := CloseEach(w, stale, stuck);
            && (w1.path, w1.next, w1.writers) == (w.path, w.next, w.writers) && |w1.conns| == |w.conns|
            && (ok <==> forall k | 0 <= k < |stale| :: stale[k].0 !in stuck)
            && forall d | 0 <= d < |w.conns| ::
                 w1.conns[d] == if ClosedOf(w, stale, stuck, d) then w.conns[d].(open := false) else w.conns[d]
    decreases |stale|
  {
    if stale != [] && stale[0].0 !in stuck {
      var c := stale[0].0;
      CloseEachIs(Close(w, c), stale[1..], stuck);
      forall d | 0 <= d < |w.conns| ensures ClosedOf(w, stale, stuck, d) <==> d == c || ClosedOf(w, stale[1..], stuck, d) {
        ClosedOfTail(w, stale, stuck, d);
      }
      forall d | 0 <= d < |w.conns|
        ensures ClosedOf(Close(w, c), stale[1..], stuck, d) <==> ClosedOf(w, stale[1..], stuck, d) {
      }
      assert forall k | 0 < k < |stale| :: stale[k] == stale[1..][k - 1];
    }
  }

  lemma ClosedOfTail(w: World, stale: seq<(ConnId, Inode)>, stuck: set<ConnId>, d: ConnId)
    requires stale != [] && stale[0].0 !in stuck
    ensures ClosedOf(w, stale, stuck, d) <==> d == stale[0].0 || ClosedOf(w, stale[1..], stuck, d)
  {
    var rest := stale[1..];
    if ClosedOf(w, stale, stuck, d) && d != stale[0].0 {
      var k :| 0 <= k < |stale| && stale[k].0 == d && forall j | 0 <= j <= k :: stale[j].0 !in stuck;
      assert rest[k - 1].0 == d && forall j | 0 <= j <= k - 1 :: rest[j] == stale[j + 1];
    }
    if ClosedOf(w, rest, stuck, d) {
      var k :| 0 <= k < |rest| && rest[k].0 == d && forall j | 0 <= j <= k :: rest[j].0 !in stuck;
      assert stale[k + 1].0 == d;
      forall j | 0 <= j <= k + 1 ensures stale[j].0 !in stuck {
        assert j > 0 ==> rest[j - 1] == stale[j];
      }
    }
  }

  /** The connections of the scan's first entries are closed before an entry that sticks. */
  ghost predicate ScanCloses(w: World, stuck: set<ConnId>, d: ConnId) {
    exists i: nat :: StaleAt(w, i) && w.writers[i].0 == d && forall j | 0 <= j <= i :: StaleAt(w, j) ==> w.writers[j].0 !in stuck
  }

  lemma {:induction false} StaleEntriesAt(w: World, entries: seq<(ConnId, Inode)>) returns (at: seq<nat>)
    ensures StandsAt(StaleEntries(w, entries), entries, at)
    ensures forall i: nat :: i in at <==>
      i < |entries| && entries[i].0 < |w.conns| && w.conns[entries[i].0].alive && entries[i].1 != w.path
  {
    if entries == [] {
      at := [];
    } else {
      var rest := StaleEntriesAt(w, entries[1..]);
      assert entries == [entries[0]] + entries[1..];
      at := FrontStands(StaleEntries(w, entries[1..]), entries[1..], rest, entries[0], IsAlive(w, entries[0].0) && entries[0].1 != w.path);
    }
  }

  /** Registry entries after the scan: those of live connections with the path's inode, in order. */
  ghost predicate PresentAt(w: World, left: seq<(ConnId, Inode)>, at: seq<nat>) {
    && StandsAt(left, w.writers, at)
    && forall i: nat :: i in at <==>
         i < |w.writers| && w.writers[i].0 < |w.conns| && w.conns[w.writers[i].0].alive && w.writers[i].1 == w.path
  }

  /** The scan: what it unregisters, what it closes, and when it raises. */
  lemma ScanIs(w: World, stuck: set<ConnId>)
    ensures var (w1, ok) := CloseStale(w, stuck);
            && (w1.path, w1.next) == (w.path, w.next) && |w1.conns| == |w.conns|
            && (exists at: seq<nat> :: PresentAt(w, w1.writers, at))
            && (ok <==> !Sticks(w, stuck))
            && forall d | 0 <= d < |w.conns| ::
                 w1.conns[d] == if ScanCloses(w, stuck, d) then w.conns[d].(open := false) else w.conns[d]
  {
    var at := KeptAt(w, w.writers);
    var w0 := w.(writers := Kept(w, w.writers));
    var stale, st := StaleOf(w);
    CloseEachIs(w0, stale, stuck);
    assert PresentAt(w, w0.writers, at);
    SticksIff(w, stuck, stale, st);
    forall d | 0 <= d < |w.conns| ensures ClosedOf(w0, stale, stuck, d) <==> ScanCloses(w, stuck, d) {
      ClosedByScan(w, stuck, d, stale, st);
    }
  }

  lemma StaleOf(w: World) returns (stale: seq<(ConnId, Inode)>, st: seq<nat>)
    ensures stale == StaleEntries(w, w.writers) && StandsAt(stale, w.writers, st)
    ensures forall i: nat :: StaleAt(w, i) <==> i in st
  {
    stale := StaleEntries(w, w.writers);
    st := StaleEntriesAt(w, w.writers);
  }

  lemma SticksIff(w: World, stuck: set<ConnId>, stale: seq<(ConnId, Inode)>, st: seq<nat>)
    requires StandsAt(stale, w.writers, st) && forall i: nat :: StaleAt(w, i) <==> i in st
    ensures Sticks(w, stuck) <==> exists k | 0 <= k < |stale| :: stale[k].0 in stuck
  {
    if Sticks(w, stuck) {
      var i: nat :| StaleAt(w, i) && w.writers[i].0 in stuck;
      assert i in st;
      var k :| 0 <= k < |st| && st[k] == i;
      assert stale[k].0 in stuck;
    }
    if k :| 0 <= k < |stale| && stale[k].0 in stuck {
      assert st[k] in st && StaleAt(w, st[k]);
    }
  }

  lemma ClosedByScan(w: World, stuck: set<ConnId>, d: ConnId, stale: seq<(ConnId, Inode)>, st: seq<nat>)
    requires StandsAt(stale, w.writers, st)
    requires forall i: nat :: StaleAt(w, i) <==> i in st
    ensures ClosedOf(w, stale, stuck, d) <==> ScanCloses(w, stuck, d)
  {
    forall k | 0 <= k < |st| ensures StaleAt(w, st[k]) && stale[k] == w.writers[st[k]] {
      assert st[k] in st;
    }
    if ClosedOf(w, stale, stuck, d) {
      var k :| 0 <= k < |stale| && stale[k].0 == d && forall j | 0 <= j <= k :: stale[j].0 !in stuck;
      forall j: nat | j <= st[k] && StaleAt(w, j) ensures w.writers[j].0 !in stuck {
        assert j in st;
        var h :| 0 <= h < |st| && st[h] == j;
      }
      assert StaleAt(w, st[k]);
    }
    if ScanCloses(w, stuck, d) {
      var i: nat :| StaleAt(w, i) && w.writers[i].0 == d && forall j | 0 <= j <= i :: StaleAt(w, j) ==> w.writers[j].0 !in stuck;
      assert i in st;
      var k :| 0 <= k < |st| && st[k] == i;
      forall j | 0 <= j <= k ensures stale[j].0 !in stuck {
        assert StaleAt(w, st[j]) && st[j] <= st[k];
      }
    }
  }

  // ----- the connects ------------------------------------------------------------------

  /** The connect that ends the wait: all before it are refused. */
  predicate EndsAt(tries: seq<(Env, Try)>, i: nat) {
    i < |tries| && !tries[i].1.Refused? && forall j | 0 <= j < i :: tries[j].1.Refused?
  }

  predicate TakenBy(e: Env, d: ConnId) { d in e.closed || d in e.collected }

  /** Tries up to `i`: what the environment has done by then. */
  ghost predicate WaitedTo(w: World, tries: seq<(Env, Try)>, i: nat, w1: World)
    requires i < |tries|
  {
    && w1.writers == w.writers && |w1.conns| == |w.conns| && w.next <= w1.next && w1.path < w1.next
    && ((forall j | 0 <= j <= i :: !tries[j].0.replaced) ==> w1.path == w.path)
    && ((exists j | 0 <= j <= i :: tries[j].0.replaced) ==> w.next <= w1.path)
    && forall d | 0 <= d < |w.conns| ::
         && w1.conns[d].bound == w.conns[d].bound
         && (w1.conns[d].open <==> w.conns[d].open && forall j | 0 <= j <= i :: !TakenBy(tries[j].0, d))
         && (w1.conns[d].alive <==> w.conns[d].alive && forall j | 0 <= j <= i :: d !in tries[j].0.collected)
  }

  /** The wait ends with the first connect that is not refused, and succeeds if that one connects;
    * meanwhile only the environment acts. */
  lemma {:induction false} WaitIs(w: World, tries: seq<(Env, Try)>)
    requires w.path < w.next
    ensures var (w1, ok) := ConnectLoop(w, tries);
            && (ok <==> exists i: nat :: EndsAt(tries, i) && tries[i].1.Connects?)
            && forall i: nat | EndsAt(tries, i) :: WaitedTo(w, tries, i, w1)
    decreases |tries|
  {
    if tries != [] {
      var w1 := Disturb(w, tries[0].0);
      if tries[0].1.Refused? {
        WaitIs(w1, tries[1..]);
        var r := ConnectLoop(w1, tries[1..]);
        forall i: nat | EndsAt(tries, i) ensures WaitedTo(w, tries, i, r.0) && EndsAt(tries[1..], i - 1) {
          OneTryLater(tries, i);
          WaitedOnce(w, tries, i, w1, r.0);
        }
        if r.1 {
          var i: nat :| EndsAt(tries[1..], i) && tries[1..][i].1.Connects?;
          OneTryLater(tries, i + 1);
        }
      } else {
        assert EndsAt(tries, 0);
        forall i: nat | EndsAt(tries, i) ensures i == 0 {
        }
      }
    }
  }

  lemma OneTryLater(tries: seq<(Env, Try)>, i: nat)
    requires tries != [] && tries[0].1.Refused?
    ensures EndsAt(tries, i) <==> i > 0 && EndsAt(tries[1..], i - 1)
  {
    assert forall j | 0 < j < |tries| :: tries[j] == tries[1..][j - 1];
    if i > 0 && EndsAt(tries[1..], i - 1) {
      forall j | 0 <= j < i ensures tries[j].1.Refused? {
        assert j > 0 ==> tries[1..][j - 1].1.Refused?;
      }
    }
    if EndsAt(tries, i) && i > 0 {
      forall j | 0 <= j < i - 1 ensures tries[1..][j].1.Refused? {
        assert tries[j + 1].1.Refused?;
      }
    }
  }

  lemma WaitedOnce(w: World, tries: seq<(Env, Try)>, i: nat, w1: World, w2: World)
    requires 0 < i < |tries| && w.path < w.next && w1 == Disturb(w, tries[0].0) && WaitedTo(w1, tries[1..], i - 1, w2)
    ensures WaitedTo(w, tries, i, w2)
  {
    var rest := tries[1..];
    assert forall j | 0 < j < |tries| :: tries[j] == rest[j - 1];
    assert forall j | 0 <= j < |rest| :: rest[j] == tries[j + 1];
    forall d | 0 <= d < |w.conns|
      ensures (forall j | 0 <= j <= i :: !TakenBy(tries[j].0, d))
        <==> !TakenBy(tries[0].0, d) && forall j | 0 <= j <= i - 1 :: !TakenBy(rest[j].0, d)
    {
    }
  }

  // ----- one pass ----------------------------------------------------------------------

  /** The entries that the scan keeps and that are live at the end. */
  lemma {:induction false} KeptAliveAt(w: World, w1: World, entries: seq<(ConnId, Inode)>) returns (at: seq<nat>)
    ensures StandsAt(Alive(w1, Kept(w, entries)), entries, at)
    ensures forall i: nat :: i in at <==>
      i < |entries| && entries[i].0 < |w.conns| && w.conns[entries[i].0].alive && entries[i].1 == w.path
      && entries[i].0 < |w1.conns| && w1.conns[entries[i].0].alive
  {
    if entries == [] {
      at := [];
    } else {
      var rest := KeptAliveAt(w, w1, entries[1..]);
      assert entries == [entries[0]] + entries[1..];
      var kept := IsAlive(w, entries[0].0) && entries[0].1 == w.path;
      if kept {
        assert Kept(w, entries)[1..] == Kept(w, entries[1..]);
      }
      at := FrontStands(Alive(w1, Kept(w, entries[1..])), entries[1..], rest, entries[0], kept && IsAlive(w1, entries[0].0));
    }
  }

  /** The registry a returned open leaves: the live entries of the path's file, in order, and its own. */
  ghost predicate RegisteredAt(w: World, w1: World, c: ConnId, at: seq<nat>) {
    && w1.writers != [] && w1.writers[|w1.writers| - 1] == (c, w1.path)
    && StandsAt(w1.writers[..|w1.writers| - 1], w.writers, at)
    && forall i: nat :: i in at <==>
         i < |w.writers| && w.writers[i].1 == w.path && w.writers[i].0 < |w.conns| && w.conns[w.writers[i].0].alive
         && w.writers[i].0 < |w1.conns| && w1.conns[w.writers[i].0].alive
  }

  /** Nothing in the pass closes or collects connection `d` but perhaps the scan. */
  predicate Untouched(p: Pass, i: nat, d: ConnId)
    requires i < |p.tries|
  {
    !TakenBy(p.window, d) && !TakenBy(p.finish, d) && forall j | 0 <= j <= i :: !TakenBy(p.tries[j].0, d)
  }

  predicate ReplacedBy(p: Pass, i: nat)
    requires i < |p.tries|
  {
    p.finish.replaced || exists j | 0 <= j <= i :: p.tries[j].0.replaced
  }

  /** A pass whose wait ends with connect `i`: of the older connections exactly those stay open that
    * were open, that nobody closed, and that no live entry showed to the scan as stale; the new one
    * stays open exactly when the file was not replaced after the `before` read. */
  ghost predicate PassDoes(w: World, w0: World, p: Pass, i: nat, w1: World, r: Outcome)
    requires i < |p.tries| && |w0.conns| == |w.conns|
  {
    && (r.Replaced? <==> ReplacedBy(p, i)) && (r.Opened? <==> !ReplacedBy(p, i))
    && |w1.conns| == |w.conns| + 1
    && (forall d | 0 <= d < |w.conns| ::
          && w1.conns[d].bound == w0.conns[d].bound
          && (w1.conns[d].open <==> w0.conns[d].open && !ScanCloses(w0, p.stuck, d) && Untouched(p, i, d)))
    && (w1.conns[|w.conns|].open <==> r.Opened?)
    && (r.Opened? ==> r.c == |w.conns| && exists at: seq<nat> :: RegisteredAt(w0, w1, r.c, at))
  }

  lemma PassIs(w: World, p: Pass)
    requires w.path < w.next
    ensures var (w1, r) := RunPass(w, p); var w0 := Disturb(w, p.start);
            && (r.Raised? <==> Sticks(w0, p.stuck) || !exists i: nat :: EndsAt(p.tries, i) && p.tries[i].1.Connects?)
            && forall i: nat | EndsAt(p.tries, i) && !r.Raised? :: PassDoes(w, w0, p, i, w1, r)
  {
    var w0 := Disturb(w, p.start);
    var (w1, closed) := CloseStale(w0, p.stuck);
    ScanIs(w0, p.stuck);
    if closed {
      CloseEachIs(w0.(writers := Kept(w0, w0.writers)), StaleEntries(w0, w0.writers), p.stuck);
      var w2 := Disturb(w1, p.window);
      WaitIs(w2, p.tries);
      var (w3, ok) := ConnectLoop(w2, p.tries);
      if ok {
        forall i: nat | EndsAt(p.tries, i) ensures PassDoes(w, w0, p, i, RunPass(w, p).0, RunPass(w, p).1) {
          var w5, r := SettleDoes(w, w0, p, i, w1, w2, w3);
        }
      }
    }
  }

  lemma SettleDoes(w: World, w0: World, p: Pass, i: nat, w1: World, w2: World, w3: World)
    returns (w5: World, r: Outcome)
    requires i < |p.tries| && |w.conns| == |w0.conns| == |w1.conns| && w1.path < w1.next
    requires forall d | 0 <= d < |w0.conns| ::
      w1.conns[d] == if ScanCloses(w0, p.stuck, d) then w0.conns[d].(open := false) else w0.conns[d]
    requires w1.writers == Kept(w0, w0.writers) && w2 == Disturb(w1, p.window) && WaitedTo(w2, p.tries, i, w3)
    ensures (w5, r) == Settle(w3, w0.path, w2.path, p.finish) && PassDoes(w, w0, p, i, w5, r)
  {
    ReplacedIff(p, i, w2, w3);
    OldConns(w0, p, i, w1, w2, w3);
    var w4;
    w5, r, w4 := SettleParts(w3, w0.path, w2.path, p.finish);
    if r.Opened? {
      RegisteredIn(w0, w4, w5, r.c);
    }
  }

  lemma ReplacedIff(p: Pass, i: nat, w2: World, w3: World)
    requires i < |p.tries| && w2.path < w2.next && WaitedTo(w2, p.tries, i, w3)
    ensures !p.finish.replaced && w3.path == w2.path <==> !ReplacedBy(p, i)
    ensures w2.path <= w3.path < w3.next
  {
  }

  /** The older connections once the wait is over. */
  lemma OldConns(w0: World, p: Pass, i: nat, w1: World, w2: World, w3: World)
    requires i < |p.tries| && |w0.conns| == |w1.conns|
    requires forall d | 0 <= d < |w0.conns| ::
      w1.conns[d] == if ScanCloses(w0, p.stuck, d) then w0.conns[d].(open := false) else w0.conns[d]
    requires w2 == Disturb(w1, p.window) && WaitedTo(w2, p.tries, i, w3)
    ensures |w3.conns| == |w0.conns|
    ensures forall d | 0 <= d < |w0.conns| ::
      && w3.conns[d].bound == w0.conns[d].bound
      && (w3.conns[d].open && !TakenBy(p.finish, d)
          <==> w0.conns[d].open && !ScanCloses(w0, p.stuck, d) && Untouched(p, i, d))
  {
  }

  /** What settling makes of the connections and of the file, before the registry is written. */
  lemma SettleParts(w3: World, now: Inode, before: Inode, finish: Env) returns (w5: World, r: Outcome, w4: World)
    requires w3.path < w3.next && before <= w3.path
    ensures (w5, r) == Settle(w3, now, before, finish) && !r.Raised?
    ensures r.Opened? <==> !finish.replaced && w3.path == before
    ensures |w5.conns| == |w3.conns| + 1 && (w5.conns[|w3.conns|].open <==> r.Opened?)
    ensures forall d | 0 <= d < |w3.conns| ::
      w5.conns[d].bound == w3.conns[d].bound && (w5.conns[d].open <==> w3.conns[d].open && !TakenBy(finish, d))
    ensures w4.writers == w3.writers
    ensures r.Opened? ==> r.c == |w3.conns| && w5 == w4.(writers := Alive(w4, w4.writers) + [(r.c, w4.path)])
  {
    var c := |w3.conns|;
    w4 := Disturb(Connect(w3), Env(finish.replaced, finish.closed - {c}, finish.collected - {c}));
    w5, r := Settle(w3, now, before, finish).0, Settle(w3, now, before, finish).1;
  }

  lemma RegisteredIn(w0: World, w4: World, w5: World, c: ConnId)
    requires w4.writers == Kept(w0, w0.writers) && w5 == w4.(writers := Alive(w4, w4.writers) + [(c, w4.path)])
    ensures exists at: seq<nat> :: RegisteredAt(w0, w5, c, at)
  {
    var at := KeptAliveAt(w0, w4, w0.writers);
    assert w5.writers[..|w5.writers| - 1] == Alive(w4, w4.writers);
    assert RegisteredAt(w0, w5, c, at);
  }

  // ----- the retry loop ----------------------------------------------------------------

  /** The worlds between the passes, of which every one found the file replaced. */
  predicate AllReplaced(passes: seq<Pass>, ws: seq<World>) {
    && 1 <= |ws| <= |passes| + 1
    && forall k | 0 <= k < |ws| - 1 :: RunPass(ws[k], passes[k]) == (ws[k + 1], Replaced)
  }

  lemma OneMoreReplaced(passes: seq<Pass>, w: World, ws: seq<World>)
    requires passes != [] && AllReplaced(passes[1..], ws) && RunPass(w, passes[0]) == (ws[0], Replaced)
    ensures AllReplaced(passes, [w] + ws)
  {
    var all := [w] + ws;
    forall k | 0 <= k < |all| - 1 ensures RunPass(all[k], passes[k]) == (all[k + 1], Replaced) {
      if k > 0 {
        assert passes[1..][k - 1] == passes[k] && all[k] == ws[k - 1];
      }
    }
  }

  /** Every pass but the last finds the file replaced, and the open returns or raises what the last
    * one does; when none is left it raises. */
  lemma {:induction false} OpenIs(w: World, passes: seq<Pass>) returns (ws: seq<World>)
    ensures AllReplaced(passes, ws) && ws[0] == w
    ensures var n := |ws| - 1;
            if n == |passes| then OpenWrite(w, passes) == (ws[n], Raised)
            else OpenWrite(w, passes) == RunPass(ws[n], passes[n]) && !RunPass(ws[n], passes[n]).1.Replaced?
    decreases |passes|
  {
    ws := [w];
    if passes != [] && RunPass(w, passes[0]).1.Replaced? {
      var rest := OpenIs(RunPass(w, passes[0]).0, passes[1..]);
      OneMoreReplaced(passes, w, rest);
      ws := [w] + rest;
    }
  }
}
