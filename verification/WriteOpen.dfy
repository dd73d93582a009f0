/** Opening one existing path for writing (`_open_write`, `_close_stale_holders`,
  * `release_duckdb`), with the file replaced underneath between any two steps.
  *
  * DuckDB is an environment with one rule, the one the opener is written around: while any
  * write connection to the path is open in the process, a new connect joins that database,
  * whatever file is at the path by then; otherwise it opens the file at the path.  Inode
  * numbers are never reused: every replacement takes the next one.
  */
module WriteOpen {
  import opened Filtering

  type Inode = nat
  type ConnId = nat

  /** A raw write connection: the file it is bound to, whether it is open, and whether it is
    * still referenced (`r() is not None`). */
  datatype Conn = Conn(bound: Inode, open: bool, alive: bool)

  /** `writers` is `_WRITERS[key]`. */
  datatype World = World(path: Inode, next: Inode, conns: seq<Conn>, writers: seq<(ConnId, Inode)>)

  /** What happens between two steps: the file may be replaced, owners may close their
    * connections, and unreferenced connections may be collected. */
  datatype Env = Env(replaced: bool, closed: set<ConnId>, collected: set<ConnId>)

  /** One call of `duckdb.connect`: refused because of another holder, failing otherwise, or connecting. */
  datatype Try = Refused | Broken | Connects

  /** Everything one pass of the retry loop meets: before the scan, stale connections whose
    * close raises, between the scan and the `before` read, before each connect, after it. */
  datatype Pass = Pass(start: Env, stuck: set<ConnId>, window: Env, tries: seq<(Env, Try)>, finish: Env)

  datatype Outcome =
    | Opened(c: ConnId, now: Inode, before: Inode, after: Inode, joined: bool)
    | Replaced
    | Raised

  function Disturb(w: World, e: Env): World {
    w.(path := if e.replaced then w.next else w.path,
       next := if e.replaced then w.next + 1 else w.next,
       conns := seq(|w.conns|, c requires 0 <= c < |w.conns| =>
         w.conns[c].(open := w.conns[c].open && c !in e.closed && c !in e.collected,
                     alive := w.conns[c].alive && c !in e.collected)))
  }

  predicate IsOpen(w: World, c: ConnId) {
    c < |w.conns| && w.conns[c].open
  }

  predicate AnyOpen(w: World) {
    exists c | 0 <= c < |w.conns| :: w.conns[c].open
  }

  /** The file the process-wide database instance of the path is bound to. */
  function FirstBound(conns: seq<Conn>): Inode
    requires exists c | 0 <= c < |conns| :: conns[c].open
  {
    if conns[0].open then conns[0].bound else FirstBound(conns[1..])
  }

  /** The entries kept by the scan: still referenced and bound to the present file. */
  function Kept(w: World, entries: seq<(ConnId, Inode)>): seq<(ConnId, Inode)> {
    if entries == [] then []
    else if IsAlive(w, entries[0].0) && entries[0].1 == w.path then [entries[0]] + Kept(w, entries[1..])
    else Kept(w, entries[1..])
  }

  predicate IsAlive(w: World, c: ConnId) {
    c < |w.conns| && w.conns[c].alive
  }

  /** The entries whose connection is still referenced but bound to a replaced file. */
  function StaleEntries(w: World, entries: seq<(ConnId, Inode)>): seq<(ConnId, Inode)> {
    if entries == [] then []
    else if IsAlive(w, entries[0].0) && entries[0].1 != w.path then [entries[0]] + StaleEntries(w, entries[1..])
    else StaleEntries(w, entries[1..])
  }

  /** Close the stale connections in turn; the first one that cannot be closed raises. */
  function CloseEach(w: World, stale: seq<(ConnId, Inode)>, stuck: set<ConnId>): (World, bool)
    decreases |stale|
  {
    if stale == [] then (w, true)
    else if stale[0].0 in stuck then (w, false)
    else CloseEach(Close(w, stale[0].0), stale[1..], stuck)
  }

  /** `_close_stale_holders`: unregister the writers of a replaced file, then close them. */
  function CloseStale(w: World, stuck: set<ConnId>): (World, bool) {
    CloseEach(w.(writers := Kept(w, w.writers)), StaleEntries(w, w.writers), stuck)
  }

  function Connect(w: World): World {
    w.(conns := w.conns + [Conn(if AnyOpen(w) then FirstBound(w.conns) else w.path, true, true)])
  }

  function Close(w: World, c: ConnId): World {
    if c < |w.conns| then w.(conns := w.conns[c := w.conns[c].(open := false)]) else w
  }

  /** The live entries, then the new connection. */
  function Alive(w: World, entries: seq<(ConnId, Inode)>): seq<(ConnId, Inode)> {
    if entries == [] then []
    else if IsAlive(w, entries[0].0) then [entries[0]] + Alive(w, entries[1..])
    else Alive(w, entries[1..])
  }

  /** The inner loop: connect until it succeeds, is refused past the deadline, or fails. */
  function ConnectLoop(w: World, tries: seq<(Env, Try)>): (World, bool)
    decreases |tries|
  {
    if tries == [] then (w, false)
    else
      var w1 := Disturb(w, tries[0].0);
      match tries[0].1
      case Connects => (w1, true)
      case Broken => (w1, false)
      case Refused => ConnectLoop(w1, tries[1..])
  }

  /** One pass of the retry loop. */
  function RunPass(w: World, p: Pass): (World, Outcome) {
    var w0 := Disturb(w, p.start);
    var now := w0.path;
    var (w1, closed) := CloseStale(w0, p.stuck);
    if !closed then (w1, Raised)
    else
      var w2 := Disturb(w1, p.window);
      var before := w2.path;
      var (w3, ok) := ConnectLoop(w2, p.tries);
      if !ok then (w3, Raised)
      else Settle(w3, now, before, p.finish)
  }

  /** Connect, read the inode again, and register the connection if it is still the same. */
  function Settle(w: World, now: Inode, before: Inode, finish: Env): (World, Outcome) {
    var c := |w.conns|;
    var w1 := Disturb(Connect(w), Env(finish.replaced, finish.closed - {c}, finish.collected - {c}));
    var after := w1.path;
    if after != before then (Close(w1, c), Replaced)
    else (w1.(writers := Alive(w1, w1.writers) + [(c, after)]), Opened(c, now, before, after, AnyOpen(w)))
  }

  const OPEN_RETRIES := 3

  /** `_open_write`: passes until one does not see the file replaced under its connect. */
  function OpenWrite(w: World, passes: seq<Pass>): (World, Outcome)
    decreases |passes|
  {
    if passes == [] then (w, Raised)
    else
      var (w1, r) := RunPass(w, passes[0]);
      if r.Replaced? then OpenWrite(w1, passes[1..]) else (w1, r)
  }

  function Without(entries: seq<(ConnId, Inode)>, w: World, c: ConnId): seq<(ConnId, Inode)> {
    if entries == [] then []
    else if IsAlive(w, entries[0].0) && entries[0].0 != c then [entries[0]] + Without(entries[1..], w, c)
    else Without(entries[1..], w, c)
  }

  /** `release_duckdb` of a write connection. */
  function Release(w: World, c: ConnId): World {
    Close(w.(writers := Without(w.writers, w, c)), c)
  }

  // ----- what every step keeps ---------------------------------------------------------

  /** Every open connection is registered, entries name the file their connection is bound
    * to, and all open connections share one database. */
  predicate Valid(w: World) {
    && w.path < w.next
    && (forall c | 0 <= c < |w.conns| :: w.conns[c].bound < w.next && (w.conns[c].open ==> w.conns[c].alive))
    && (forall e | e in w.writers :: e.0 < |w.conns| && e.1 == w.conns[e.0].bound)
    && (forall c | 0 <= c < |w.conns| && w.conns[c].open :: (c, w.conns[c].bound) in w.writers)
    && (forall c, d | 0 <= c < |w.conns| && 0 <= d < |w.conns| && w.conns[c].open && w.conns[d].open ::
          w.conns[c].bound == w.conns[d].bound)
  }

  /** What no failure breaks: all open connections share one database, and are still referenced. */
  predicate Base(w: World) {
    && w.path < w.next
    && (forall c | 0 <= c < |w.conns| :: w.conns[c].bound < w.next && (w.conns[c].open ==> w.conns[c].alive))
    && (forall e | e in w.writers :: e.0 < |w.conns|)
    && (forall c, d | 0 <= c < |w.conns| && 0 <= d < |w.conns| && w.conns[c].open && w.conns[d].open ::
          w.conns[c].bound == w.conns[d].bound)
  }

  /** An open connection to a replaced file that the registry does not show as such: the scan misses it. */
  predicate Escapes(w: World, c: ConnId) {
    IsOpen(w, c) && w.conns[c].bound != w.path && forall e | e in w.writers && e.0 == c :: e.1 == w.path
  }

  predicate SomeEscapes(w: World) { exists c | 0 <= c < |w.conns| :: Escapes(w, c) }

  /** A complete and truthful registry misses none. */
  lemma ValidNeverEscapes(w: World)
    requires Valid(w)
    ensures Base(w) && !SomeEscapes(w)
  {
  }

  /** `Valid` but for connection `c`, just made and not yet registered. */
  predicate ValidBut(w: World, c: ConnId) {
    && w.path < w.next
    && (forall c | 0 <= c < |w.conns| :: w.conns[c].bound < w.next && (w.conns[c].open ==> w.conns[c].alive))
    && (forall e | e in w.writers :: e.0 < |w.conns| && e.1 == w.conns[e.0].bound)
    && (forall d | 0 <= d < |w.conns| && w.conns[d].open && d != c :: (d, w.conns[d].bound) in w.writers)
    && (forall d, e | 0 <= d < |w.conns| && 0 <= e < |w.conns| && w.conns[d].open && w.conns[e].open ::
          w.conns[d].bound == w.conns[e].bound)
  }

  lemma DisturbKeeps(w: World, e: Env, c: ConnId)
    ensures Valid(w) ==> Valid(Disturb(w, e))
    ensures ValidBut(w, c) ==> ValidBut(Disturb(w, e), c)
    ensures w.path < w.next ==> w.path <= Disturb(w, e).path < Disturb(w, e).next
  {
  }

  lemma {:induction false} KeptIs(w: World, entries: seq<(ConnId, Inode)>, e: (ConnId, Inode))
    ensures e in Kept(w, entries) <==> e in entries && IsAlive(w, e.0) && e.1 == w.path
  {
    if entries != [] {
      KeptIs(w, entries[1..], e);
    }
  }

  lemma {:induction false} StaleEntriesIs(w: World, entries: seq<(ConnId, Inode)>, e: (ConnId, Inode))
    ensures e in StaleEntries(w, entries) <==> e in entries && IsAlive(w, e.0) && e.1 != w.path
  {
    if entries != [] {
      StaleEntriesIs(w, entries[1..], e);
    }
  }

  lemma {:induction false} AliveIs(w: World, entries: seq<(ConnId, Inode)>, e: (ConnId, Inode))
    ensures e in Alive(w, entries) <==> e in entries && IsAlive(w, e.0)
  {
    if entries != [] {
      AliveIs(w, entries[1..], e);
    }
  }

  lemma {:induction false} WithoutIs(entries: seq<(ConnId, Inode)>, w: World, c: ConnId, e: (ConnId, Inode))
    ensures e in Without(entries, w, c) <==> e in entries && IsAlive(w, e.0) && e.0 != c
  {
    if entries != [] {
      WithoutIs(entries[1..], w, c, e);
    }
  }

  /** Closing in turn only closes; when nothing is stuck, all of `stale` ends up closed. */
  lemma {:induction false} CloseEachCloses(w: World, stale: seq<(ConnId, Inode)>, stuck: set<ConnId>)
    ensures var (w1, ok) := CloseEach(w, stale, stuck);
            && (w1.path, w1.next, w1.writers) == (w.path, w.next, w.writers) && |w1.conns| == |w.conns|
            && (forall c | 0 <= c < |w.conns| ::
                  w1.conns[c].(open := w.conns[c].open) == w.conns[c] && (w1.conns[c].open ==> w.conns[c].open))
            && (ok ==> forall e | e in stale && e.0 < |w.conns| :: !w1.conns[e.0].open)
    decreases |stale|
  {
    if stale != [] && stale[0].0 !in stuck {
      CloseEachCloses(Close(w, stale[0].0), stale[1..], stuck);
    }
  }

  /** After a scan that closed what it found, every open connection reads the present file. */
  lemma ScanLeavesPresent(w: World, stuck: set<ConnId>)
    requires Valid(w) && CloseStale(w, stuck).1
    ensures var w1 := CloseStale(w, stuck).0;
            && Valid(w1) && (w1.path, w1.next) == (w.path, w.next)
            && forall c | 0 <= c < |w1.conns| && w1.conns[c].open :: w1.conns[c].bound == w.path
  {
    var w1 := CloseStale(w, stuck).0;
    CloseEachCloses(w.(writers := Kept(w, w.writers)), StaleEntries(w, w.writers), stuck);
    forall e | e in w1.writers ensures e in w.writers {
      KeptIs(w, w.writers, e);
    }
    forall c | 0 <= c < |w1.conns| && w1.conns[c].open
      ensures w1.conns[c].bound == w.path && (c, w1.conns[c].bound) in w1.writers
    {
      var e := (c, w.conns[c].bound);
      assert e in w.writers;
      StaleEntriesIs(w, w.writers, e);
      KeptIs(w, w.writers, e);
    }
  }

  lemma {:induction false} FirstBoundIs(conns: seq<Conn>)
    requires exists c | 0 <= c < |conns| :: conns[c].open
    ensures exists c | 0 <= c < |conns| :: conns[c].open && FirstBound(conns) == conns[c].bound
  {
    if !conns[0].open {
      var c :| 0 <= c < |conns| && conns[c].open;
      assert conns[1..][c - 1].open;
      FirstBoundIs(conns[1..]);
      var d :| 0 <= d < |conns[1..]| && conns[1..][d].open && FirstBound(conns[1..]) == conns[1..][d].bound;
      assert conns[d + 1].open;
    }
  }

  lemma ConnectKeeps(w: World)
    requires Valid(w)
    ensures ValidBut(Connect(w), |w.conns|)
    ensures !AnyOpen(w) ==> Connect(w).conns[|w.conns|].bound == w.path
    ensures forall c | 0 <= c < |w.conns| && w.conns[c].open :: Connect(w).conns[|w.conns|].bound == w.conns[c].bound
  {
    if AnyOpen(w) {
      FirstBoundIs(w.conns);
    }
  }

  /** The connects of one pass: whatever is open afterwards was open, unchanged, before. */
  lemma {:induction false} ConnectLoopKeeps(w: World, tries: seq<(Env, Try)>)
    requires Valid(w)
    ensures var w1 := ConnectLoop(w, tries).0;
            && Valid(w1) && w.path <= w1.path && |w1.conns| == |w.conns|
            && forall c | 0 <= c < |w.conns| ::
                 w1.conns[c].bound == w.conns[c].bound && (w1.conns[c].open ==> w.conns[c].open)
    decreases |tries|
  {
    if tries != [] {
      DisturbKeeps(w, tries[0].0, 0);
      if tries[0].1.Refused? {
        ConnectLoopKeeps(Disturb(w, tries[0].0), tries[1..]);
      }
    }
  }

  // ----- one open, whatever failed before ----------------------------------------------

  lemma DisturbKeepsBase(w: World, e: Env)
    requires Base(w)
    ensures Base(Disturb(w, e)) && w.next <= Disturb(w, e).next
    ensures Disturb(w, e).path == w.path || w.next <= Disturb(w, e).path
  {
  }

  lemma ScanKeepsBase(w: World, stuck: set<ConnId>)
    requires Base(w)
    ensures var (w1, ok) := CloseStale(w, stuck);
            && Base(w1) && (w1.path, w1.next) == (w.path, w.next) && |w1.conns| == |w.conns|
            && (forall c | 0 <= c < |w.conns| :: w1.conns[c].bound == w.conns[c].bound && (w1.conns[c].open ==> w.conns[c].open))
            && (ok ==> forall c | 0 <= c < |w1.conns| && w1.conns[c].open :: w.conns[c].bound == w.path || Escapes(w, c))
  {
    var (w1, ok) := CloseStale(w, stuck);
    CloseEachCloses(w.(writers := Kept(w, w.writers)), StaleEntries(w, w.writers), stuck);
    forall e | e in w1.writers ensures e in w.writers {
      KeptIs(w, w.writers, e);
    }
    if ok {
      forall c | 0 <= c < |w1.conns| && w1.conns[c].open && w.conns[c].bound != w.path ensures Escapes(w, c) {
        forall e | e in w.writers && e.0 == c ensures e.1 == w.path {
          StaleEntriesIs(w, w.writers, e);
        }
      }
    }
  }

  /** The connects of one pass: paths only move on, and whatever is open afterwards was open before. */
  lemma {:induction false} ConnectLoopKeepsBase(w: World, tries: seq<(Env, Try)>)
    requires Base(w)
    ensures var w1 := ConnectLoop(w, tries).0;
            && Base(w1) && w.next <= w1.next && (w1.path == w.path || w.next <= w1.path) && |w1.conns| == |w.conns|
            && forall c | 0 <= c < |w.conns| ::
                 w1.conns[c].bound == w.conns[c].bound && (w1.conns[c].open ==> w.conns[c].open)
    decreases |tries|
  {
    if tries != [] {
      DisturbKeepsBase(w, tries[0].0);
      if tries[0].1.Refused? {
        ConnectLoopKeepsBase(Disturb(w, tries[0].0), tries[1..]);
      }
    }
  }

  lemma ConnectKeepsBase(w: World)
    requires Base(w)
    ensures Base(Connect(w)) && IsOpen(Connect(w), |w.conns|)
    ensures !AnyOpen(w) ==> Connect(w).conns[|w.conns|].bound == w.path
    ensures forall c | 0 <= c < |w.conns| && w.conns[c].open :: Connect(w).conns[|w.conns|].bound == w.conns[c].bound
  {
    if AnyOpen(w) {
      FirstBoundIs(w.conns);
    }
  }

  /** Settling: the new connection reads the present file, unless it joined another one's database. */
  lemma SettleIs(w: World, now: Inode, before: Inode, finish: Env)
    requires Base(w) && before < w.next && before <= w.path
    requires before == w.path || before < w.path
    ensures var (w1, r) := Settle(w, now, before, finish);
            && Base(w1) && !r.Raised?
            && (r.Opened? ==>
                  && IsOpen(w1, r.c) && r.after == w1.path && r.before == r.after == before == w.path && r.now == now
                  && r.joined == AnyOpen(w) && (!r.joined ==> w1.conns[r.c].bound == before)
                  && forall c | 0 <= c < |w.conns| && w.conns[c].open :: w1.conns[r.c].bound == w.conns[c].bound)
  {
    var c := |w.conns|;
    ConnectKeepsBase(w);
    var e := Env(finish.replaced, finish.closed - {c}, finish.collected - {c});
    DisturbKeepsBase(Connect(w), e);
    var w1 := Disturb(Connect(w), e);
    assert IsOpen(w1, c) && w1.conns[c].bound == Connect(w).conns[c].bound;
    forall x | x in Alive(w1, w1.writers) ensures x in w1.writers {
      AliveIs(w1, w1.writers, x);
    }
  }

  /** What a pass that returns a connection found on the way: it is bound to the inode read last if
    * and only if it joined nothing, or the scan saw that same inode and missed no connection. */
  lemma PassIsExact(w: World, p: Pass)
    requires Base(w)
    ensures var (w1, r) := RunPass(w, p);
            && Base(w1)
            && (r.Opened? ==>
                  && IsOpen(w1, r.c) && r.after == w1.path && r.before == r.after
                  && (w1.conns[r.c].bound == r.after
                      <==> !r.joined || (r.now == r.before && !SomeEscapes(Disturb(w, p.start)))))
  {
    var w0 := Disturb(w, p.start);
    DisturbKeepsBase(w, p.start);
    ScanKeepsBase(w0, p.stuck);
    var (w1, closed) := CloseStale(w0, p.stuck);
    if closed {
      var w2 := Disturb(w1, p.window);
      DisturbKeepsBase(w1, p.window);
      ConnectLoopKeepsBase(w2, p.tries);
      var (w3, ok) := ConnectLoop(w2, p.tries);
      if ok {
        SettleIs(w3, w0.path, w2.path, p.finish);
        if AnyOpen(w3) {
          var c :| 0 <= c < |w3.conns| && w3.conns[c].open;
          JoinedIsExact(w0, w2.path, c);
        }
      }
    }
  }

  /** The database of connection `c`, open when the scan ran and missed by it if stale. */
  lemma JoinedIsExact(w0: World, before: Inode, c: ConnId)
    requires Base(w0) && IsOpen(w0, c) && (w0.conns[c].bound == w0.path || Escapes(w0, c))
    requires before == w0.path || w0.next <= before
    ensures w0.conns[c].bound == before <==> w0.path == before && !SomeEscapes(w0)
  {
    if SomeEscapes(w0) {
      var d :| 0 <= d < |w0.conns| && Escapes(w0, d);
      assert w0.conns[c].bound == w0.conns[d].bound;
    }
  }

  /** The world that the last pass's scan saw. */
  function LastScan(w: World, passes: seq<Pass>): World
    requires passes != []
    decreases |passes|
  {
    var (w1, r) := RunPass(w, passes[0]);
    if r.Replaced? && |passes| > 1 then LastScan(w1, passes[1..]) else Disturb(w, passes[0].start)
  }

  /** A returned connection is bound to the inode of its last read exactly when it did not join an
    * open database, or that database reads the file that both the scan and the `before` read saw. */
  lemma {:induction false} OpenWriteIsExact(w: World, passes: seq<Pass>)
    requires Base(w)
    ensures var (w1, r) := OpenWrite(w, passes);
            && Base(w1)
            && (r.Opened? ==>
                  && passes != [] && IsOpen(w1, r.c) && r.after == w1.path
                  && (w1.conns[r.c].bound == r.after
                      <==> !r.joined || (r.now == r.before && !SomeEscapes(LastScan(w, passes)))))
    decreases |passes|
  {
    if passes != [] {
      PassIsExact(w, passes[0]);
      if RunPass(w, passes[0]).1.Replaced? {
        OpenWriteIsExact(RunPass(w, passes[0]).0, passes[1..]);
      }
    }
  }

  // ----- one open with a complete registry ---------------------------------------------

  lemma RegisterKeeps(w: World, c: ConnId)
    requires ValidBut(w, c) && IsOpen(w, c) && w.conns[c].bound == w.path
    ensures Valid(w.(writers := Alive(w, w.writers) + [(c, w.path)]))
  {
    var w1 := w.(writers := Alive(w, w.writers) + [(c, w.path)]);
    forall e | e in w1.writers ensures e.0 < |w.conns| && e.1 == w.conns[e.0].bound {
      AliveIs(w, w.writers, e);
    }
    forall d | 0 <= d < |w.conns| && w.conns[d].open ensures (d, w.conns[d].bound) in w1.writers {
      AliveIs(w, w.writers, (d, w.conns[d].bound));
    }
  }

  lemma SettleIsExact(w: World, now: Inode, before: Inode, finish: Env)
    requires Valid(w) && before <= w.path
    requires forall c | 0 <= c < |w.conns| && w.conns[c].open :: w.conns[c].bound == now
    ensures var (w1, r) := Settle(w, now, before, finish);
            && !r.Raised?
            && (r.Opened? ==>
                  && IsOpen(w1, r.c) && r.after == w1.path && r.before == r.after == before && r.now == now
                  && (w1.conns[r.c].bound == r.after <==> !r.joined || r.now == r.before)
                  && (w1.conns[r.c].bound == r.after ==> Valid(w1)))
            && (r.Replaced? ==> Valid(w1))
  {
    var c := |w.conns|;
    ConnectKeeps(w);
    var e := Env(finish.replaced, finish.closed - {c}, finish.collected - {c});
    DisturbKeeps(Connect(w), e, c);
    var w1 := Disturb(Connect(w), e);
    assert ValidBut(w1, c) && IsOpen(w1, c);
    if w1.path == before && w1.conns[c].bound == w1.path {
      RegisterKeeps(w1, c);
    }
  }

  /** With a complete registry, and until a close fails or the window is hit, it stays complete. */
  lemma PassKeeps(w: World, p: Pass)
    requires Valid(w)
    ensures var (w1, r) := RunPass(w, p);
            && (r.Opened? ==>
                  && IsOpen(w1, r.c) && r.after == w1.path && r.before == r.after
                  && (w1.conns[r.c].bound == r.after <==> !r.joined || r.now == r.before)
                  && (!p.window.replaced ==> r.now == r.before)
                  && (w1.conns[r.c].bound == r.after ==> Valid(w1)))
            && (r.Replaced? ==> Valid(w1))
            && (p.stuck == {} && r.Raised? ==> Valid(w1))
  {
    var w0 := Disturb(w, p.start);
    DisturbKeeps(w, p.start, 0);
    var (w1, closed) := CloseStale(w0, p.stuck);
    if !closed {
      CloseEachStops(w0.(writers := Kept(w0, w0.writers)), StaleEntries(w0, w0.writers), p.stuck);
      return;
    }
    ScanLeavesPresent(w0, p.stuck);
    var w2 := Disturb(w1, p.window);
    DisturbKeeps(w1, p.window, 0);
    ConnectLoopKeeps(w2, p.tries);
    var (w3, ok) := ConnectLoop(w2, p.tries);
    if ok {
      forall c | 0 <= c < |w3.conns| && w3.conns[c].open ensures w3.conns[c].bound == w0.path {
        assert w1.conns[c].open;
      }
      SettleIsExact(w3, w0.path, w2.path, p.finish);
    }
  }

  lemma {:induction false} CloseEachStops(w: World, stale: seq<(ConnId, Inode)>, stuck: set<ConnId>)
    ensures !CloseEach(w, stale, stuck).1 ==> stuck != {}
    decreases |stale|
  {
    if stale != [] && stale[0].0 !in stuck {
      CloseEachStops(Close(w, stale[0].0), stale[1..], stuck);
    }
  }

  /** No replacement in that window: the connection is bound to the present file, never to a
    * replaced one, and so is every other open write connection. */
  lemma {:induction false} QuietWindowOpensPresent(w: World, passes: seq<Pass>)
    requires Valid(w) && forall p | p in passes :: !p.window.replaced
    ensures var (w1, r) := OpenWrite(w, passes);
            r.Opened? ==>
              && Valid(w1) && IsOpen(w1, r.c) && w1.conns[r.c].bound == r.after == w1.path
              && forall c | 0 <= c < |w1.conns| && w1.conns[c].open :: w1.conns[c].bound == w1.path
    decreases |passes|
  {
    if passes != [] {
      PassKeeps(w, passes[0]);
      if RunPass(w, passes[0]).1.Replaced? {
        QuietWindowOpensPresent(RunPass(w, passes[0]).0, passes[1..]);
      }
    }
  }

  // ----- runs --------------------------------------------------------------------------

  datatype Op = Open(passes: seq<Pass>) | Drop(c: ConnId) | Between(e: Env)

  function Do(w: World, op: Op): World {
    match op
    case Open(passes) => OpenWrite(w, passes).0
    case Drop(c) => Release(w, c)
    case Between(e) => Disturb(w, e)
  }

  function DoAll(w: World, ops: seq<Op>): World
    decreases |ops|
  {
    if ops == [] then w else DoAll(Do(w, ops[0]), ops[1..])
  }

  predicate Undisturbed(op: Op) {
    op.Open? ==> forall p | p in op.passes :: !p.window.replaced && p.stuck == {}
  }

  lemma DoKeepsBase(w: World, op: Op)
    requires Base(w)
    ensures Base(Do(w, op))
  {
    match op
    case Open(passes) => OpenWriteIsExact(w, passes);
    case Drop(c) => ReleaseKeeps(w, c);
    case Between(e) => DisturbKeepsBase(w, e);
  }

  /** Over any run at all, failed closes and replacements in the window included, the next open
    * obeys the exact condition. */
  lemma {:induction false} EveryOpenIsExact(w: World, ops: seq<Op>, passes: seq<Pass>)
    requires Base(w)
    ensures Base(DoAll(w, ops))
    ensures var v := DoAll(w, ops); var (w1, r) := OpenWrite(v, passes);
            r.Opened? ==>
              && passes != [] && IsOpen(w1, r.c) && r.after == w1.path
              && (w1.conns[r.c].bound == r.after
                  <==> !r.joined || (r.now == r.before && !SomeEscapes(LastScan(v, passes))))
    decreases |ops|
  {
    if ops == [] {
      OpenWriteIsExact(w, passes);
    } else {
      DoKeepsBase(w, ops[0]);
      EveryOpenIsExact(Do(w, ops[0]), ops[1..], passes);
    }
  }

  lemma {:induction false} OpenKeeps(w: World, passes: seq<Pass>)
    requires Valid(w) && forall p | p in passes :: !p.window.replaced && p.stuck == {}
    ensures Valid(OpenWrite(w, passes).0)
    decreases |passes|
  {
    if passes != [] {
      PassKeeps(w, passes[0]);
      if RunPass(w, passes[0]).1.Replaced? {
        OpenKeeps(RunPass(w, passes[0]).0, passes[1..]);
      }
    }
  }

  /** `after` is `before` with connection `c` closed and forgotten: every other connection is as it was,
    * and the entries left are the live ones of other connections, in their order. */
  ghost predicate Freed(before: World, after: World, c: ConnId) {
    && (after.path, after.next) == (before.path, before.next) && |after.conns| == |before.conns|
    && (forall d | 0 <= d < |before.conns| && d != c :: after.conns[d] == before.conns[d])
    && (c < |before.conns| ==> after.conns[c] == Conn(before.conns[c].bound, false, before.conns[c].alive))
    && exists at: seq<nat> :: OthersAt(before, after, c, at)
  }

  ghost predicate OthersAt(before: World, after: World, c: ConnId, at: seq<nat>) {
    && StandsAt(after.writers, before.writers, at)
    && forall i: nat :: i in at <==>
         i < |before.writers| && before.writers[i].0 != c
         && before.writers[i].0 < |before.conns| && before.conns[before.writers[i].0].alive
  }

  lemma {:induction false} WithoutAt(entries: seq<(ConnId, Inode)>, w: World, c: ConnId) returns (at: seq<nat>)
    ensures StandsAt(Without(entries, w, c), entries, at)
    ensures forall i: nat :: i in at <==>
      i < |entries| && entries[i].0 != c && entries[i].0 < |w.conns| && w.conns[entries[i].0].alive
  {
    if entries == [] {
      at := [];
    } else {
      var rest := WithoutAt(entries[1..], w, c);
      assert entries == [entries[0]] + entries[1..];
      at := FrontStands(Without(entries[1..], w, c), entries[1..], rest, entries[0], IsAlive(w, entries[0].0) && entries[0].0 != c);
    }
  }

  /** A release frees its connection and nothing else, and the registry stays what it was. */
  lemma ReleaseKeeps(w: World, c: ConnId)
    requires Base(w)
    ensures Freed(w, Release(w, c), c)
    ensures Base(Release(w, c)) && !IsOpen(Release(w, c), c)
    ensures Valid(w) ==> Valid(Release(w, c))
  {
    var w1 := Release(w, c);
    var at := WithoutAt(w.writers, w, c);
    assert OthersAt(w, w1, c, at);
    forall e | e in w1.writers ensures e in w.writers {
      WithoutIs(w.writers, w, c, e);
    }
    if Valid(w) {
      forall d | 0 <= d < |w1.conns| && w1.conns[d].open ensures (d, w1.conns[d].bound) in w1.writers {
        WithoutIs(w.writers, w, c, (d, w1.conns[d].bound));
      }
    }
  }

  /** Over any run of serialised opens, releases and replacements the registry stays
    * complete, and the next open, if it returns, reads the present file. */
  lemma {:induction false} EveryOpenReadsPresent(w: World, ops: seq<Op>, passes: seq<Pass>)
    requires Valid(w) && forall op | op in ops :: Undisturbed(op)
    requires forall p | p in passes :: !p.window.replaced
    ensures Valid(DoAll(w, ops))
    ensures var (w1, r) := OpenWrite(DoAll(w, ops), passes);
            r.Opened? ==> IsOpen(w1, r.c) && w1.conns[r.c].bound == r.after == w1.path
    decreases |ops|
  {
    if ops == [] {
      QuietWindowOpensPresent(w, passes);
    } else {
      assert Undisturbed(ops[0]);
      match ops[0] {
        case Open(ps) => OpenKeeps(w, ps);
        case Drop(c) => ReleaseKeeps(w, c);
        case Between(e) => DisturbKeeps(w, e, 0);
      }
      EveryOpenReadsPresent(Do(w, ops[0]), ops[1..], passes);
    }
  }

  // ----- the two ways out of that guarantee --------------------------------------------

  const Nothing := Env(false, {}, {})
  const Swap := Env(true, {}, {})
  const OneWriter := World(1, 2, [Conn(1, true, true)], [(0, 1)])

  /** A replacement between the two inode reads that are not compared: the open joins the
    * old database although `before` and `after` agree on the new file. */
  lemma WindowReplacementServesOldFile() returns (p: Pass)
    ensures Valid(OneWriter) && p.stuck == {} && p.window.replaced
    ensures var (w1, r) := OpenWrite(OneWriter, [p]);
            r.Opened? && r.joined && IsOpen(w1, r.c) && w1.conns[r.c].bound == 1 && r.before == r.after == 2
  {
    p := Pass(Nothing, {}, Swap, [(Nothing, Connects)], Nothing);
    var w1 := CloseStale(OneWriter, {}).0;
    assert w1 == OneWriter by {
      assert Kept(OneWriter, OneWriter.writers) == [(0, 1)];
      assert StaleEntries(OneWriter, OneWriter.writers) == [];
    }
    assert Disturb(OneWriter, Nothing) == OneWriter;
    var w2 := Disturb(w1, Swap);
    assert w2.conns == [Conn(1, true, true)] && w2.path == 2;
    assert Disturb(w2, Nothing) == w2;
    assert ConnectLoop(w2, [(Nothing, Connects)]) == (w2, true);
    assert w2.conns[0].open && AnyOpen(w2);
    PassKeeps(OneWriter, p);
  }

  /** A stale connection whose close raises is already unregistered: the open that meets it
    * raises, and the next one joins the replaced file's database without a word. */
  lemma FailedCloseServesOldFile() returns (p: Pass, q: Pass)
    ensures Valid(OneWriter) && !p.window.replaced && !q.window.replaced && q.stuck == {}
    ensures OpenWrite(OneWriter, [p]).1 == Raised
    ensures var (w2, r) := OpenWrite(OpenWrite(OneWriter, [p]).0, [q]);
            r.Opened? && IsOpen(w2, r.c) && w2.conns[r.c].bound == 1 && r.now == r.before == r.after == 2
  {
    p := Pass(Swap, {0}, Nothing, [], Nothing);
    q := Pass(Nothing, {}, Nothing, [(Nothing, Connects)], Nothing);
    var w0 := Disturb(OneWriter, Swap);
    assert w0 == World(2, 3, [Conn(1, true, true)], [(0, 1)]);
    assert Kept(w0, w0.writers) == [] && StaleEntries(w0, w0.writers) == [(0, 1)];
    var w1 := World(2, 3, [Conn(1, true, true)], []);
    assert RunPass(OneWriter, p) == (w1, Raised);
    assert Disturb(w1, Nothing) == w1;
    assert CloseStale(w1, {}) == (w1, true);
    assert ConnectLoop(w1, [(Nothing, Connects)]) == (w1, true);
    assert w1.conns[0].open && AnyOpen(w1);
    var w3 := Connect(w1);
    assert w3.conns == [Conn(1, true, true), Conn(1, true, true)];
    assert Disturb(w3, Env(false, {} - {1}, {} - {1})) == w3;
  }
}
