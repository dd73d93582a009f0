/** Reads that overlap.  A read lists its cursors, selects channel by channel, and only then writes
  * its cursors under the lock; anything may happen between those steps.  `BusRuns` has it as one step. */
module BusOverlap {
  import opened Options
  import opened BusModel
  import opened BusRuns
  import opened StableSort

  /** A message returned to an agent by a read that began after `since` earlier deliveries. */
  datatype Delivery = Delivery(agent: string, id: string, since: nat)

  /** A read in progress: the cursors it saw, the channels to come, the rows it found, and those it
    * passed over because they were not active. */
  datatype Reader = Reader(agent: string, n: Option<int>, since: nat, seen: Cursors, todo: set<string>,
                           found: seq<Row>, dark: set<Row>)

  datatype State = State(t: Table, used: set<string>, got: seq<Delivery>, hidden: set<(string, string)>,
                         readers: map<nat, Reader>)

  /** `Begin` reads the cursors, for whatever channels were listed before. */
  datatype Move =
    | Whole(op: Op)
    | Begin(k: nat, agent: string, want: set<string>, n: Option<int>)
    | Select(k: nat, channel: string)
    | Finish(k: nat)

  const Start := State(Table([], map[]), {}, [], {}, map[])

  predicate CanMove(s: State, m: Move) {
    match m
    case Whole(op) => !op.Read? && (op.Publish? ==> op.id !in s.used)
    case Begin(k, _, _, _) => k !in s.readers
    case Select(k, c) => k in s.readers && c in s.readers[k].todo
    case Finish(k) => k in s.readers && s.readers[k].todo == {}
  }

  /** The state without its reads, as a history that has seen none. */
  function Plain(s: State): History { History(s.t, s.used, [], {}, {}) }

  function Dark(rows: seq<Row>, rd: Reader, c: string): set<Row> {
    set r | r in rows && r.channel == c && r.status != Active && Cursor(rd.seen, rd.agent, c) < r.num
  }

  function Selected(rows: seq<Row>, rd: Reader, c: string): Reader {
    rd.(todo := rd.todo - {c}, found := rd.found + UnreadOf(rows, rd.seen, rd.agent, {c}), dark := rd.dark + Dark(rows, rd, c))
  }

  function NumKey(): Row -> real { (r: Row) => r.num as real }

  function Out(rd: Reader): seq<Row> { Capped(Sort(rd.found, NumKey()), rd.n) }

  function Written(cursors: Cursors, rd: Reader): Cursors {
    CursorsAfter(cursors, rd.agent, ChannelsOf(rd.found), rd.found, Out(rd))
  }

  function Passed(cursors: Cursors, rd: Reader): set<(string, string)> {
    set q | q in rd.dark && Cursor(cursors, rd.agent, q.channel) < q.num
                         <= Cursor(Written(cursors, rd), rd.agent, q.channel) :: (rd.agent, q.id)
  }

  function Returned(rd: Reader, out: seq<Row>): seq<Delivery> {
    seq(|out|, i requires 0 <= i < |out| => Delivery(rd.agent, out[i].id, rd.since))
  }

  function Finished(s: State, k: nat): State
    requires k in s.readers
  {
    var rd := s.readers[k];
    State(s.t.(cursors := Written(s.t.cursors, rd)), s.used, s.got + Returned(rd, Out(rd)),
          s.hidden + Passed(s.t.cursors, rd), s.readers - {k})
  }

  function After(s: State, m: Move): State
    requires CanMove(s, m)
  {
    match m
    case Whole(op) => s.(t := Step(Plain(s), op).t, used := Step(Plain(s), op).used)
    case Begin(k, agent, want, n) => s.(readers := s.readers[k := Reader(agent, n, |s.got|, s.t.cursors, want, [], {})])
    case Select(k, c) => s.(readers := s.readers[k := Selected(s.t.rows, s.readers[k], c)])
    case Finish(k) => Finished(s, k)
  }

  predicate Possible(s: State, ms: seq<Move>)
    decreases |ms|
  {
    ms == [] || (CanMove(s, ms[0]) && Possible(After(s, ms[0]), ms[1..]))
  }

  function AfterAll(s: State, ms: seq<Move>): State
    requires Possible(s, ms)
    decreases |ms|
  {
    if ms == [] then s else AfterAll(After(s, ms[0]), ms[1..])
  }

  // ----- what a read in progress knows -------------------------------------------------

  predicate InChannelOrder(rows: seq<Row>) {
    forall i, j | 0 <= i < j < |rows| && rows[i].channel == rows[j].channel :: rows[i].num < rows[j].num
  }

  predicate DistinctIds(rows: seq<Row>) { forall i, j | 0 <= i < j < |rows| :: rows[i].id != rows[j].id }

  /** Wherever a row of this id is in the table, it is this row. */
  predicate Stands(rows: seq<Row>, used: set<string>, q: Row) {
    q.id in used && forall r | r in rows && r.id == q.id :: SamePlace(r, q)
  }

  /** A message is at or below a cursor, if it is in the table at all. */
  predicate IsBehind(rows: seq<Row>, cursors: Cursors, agent: string, id: string) {
    forall r | r in rows && r.id == id :: r.num <= Cursor(cursors, agent, r.channel)
  }

  predicate FoundOk(rows: seq<Row>, used: set<string>, rd: Reader) {
    && InChannelOrder(rd.found) && DistinctIds(rd.found)
    && forall q | q in rd.found :: Stands(rows, used, q) && q.channel !in rd.todo
  }

  /** What had been returned to the agent when the read began lies behind the cursors it saw. */
  predicate SinceOk(s: State, rd: Reader) {
    && rd.since <= |s.got|
    && forall i | 0 <= i < rd.since && s.got[i].agent == rd.agent ::
         IsBehind(s.t.rows, rd.seen, rd.agent, s.got[i].id) && forall q | q in rd.found :: q.id != s.got[i].id
  }

  ghost predicate SeenOk(cursors: Cursors, rd: Reader) {
    forall c :: Cursor(rd.seen, rd.agent, c) <= Cursor(cursors, rd.agent, c)
  }

  ghost predicate ReaderOk(s: State, rd: Reader) {
    FoundOk(s.t.rows, s.used, rd) && SinceOk(s, rd) && SeenOk(s.t.cursors, rd)
  }

  /** Two deliveries of one message to one agent: the earlier was made after the later read began. */
  predicate OnlyOverlapping(got: seq<Delivery>) {
    forall i, j | 0 <= i < j < |got| && got[i].agent == got[j].agent && got[i].id == got[j].id :: got[j].since <= i
  }

  predicate RowsOk(t: Table, used: set<string>) {
    Ordered(t.rows) && IdsNameRows(t.rows) && forall r | r in t.rows :: r.id in used
  }

  ghost predicate Sound(s: State) {
    && RowsOk(s.t, s.used)
    && (forall d | d in s.got :: d.id in s.used && IsBehind(s.t.rows, s.t.cursors, d.agent, d.id))
    && OnlyOverlapping(s.got)
    && forall k | k in s.readers :: ReaderOk(s, s.readers[k])
  }

  // ----- the other operations ----------------------------------------------------------

  /** Rows of known ids stand where they stood. */
  ghost predicate Onward(rows: seq<Row>, used: set<string>, rows': seq<Row>) {
    forall r | r in rows' && r.id in used :: exists q | q in rows :: SamePlace(r, q)
  }

  lemma WholeIs(s: State, op: Op)
    requires RowsOk(s.t, s.used) && CanMove(s, Whole(op))
    ensures var s' := After(s, Whole(op));
            RowsOk(s'.t, s'.used) && s.used <= s'.used && s'.t.cursors == s.t.cursors && Onward(s.t.rows, s.used, s'.t.rows)
  {
    var h := Plain(s);
    StepKeepsInv(h, op);
    match op
    case Publish(_, _, _, _) =>
      forall r | r in Step(h, op).t.rows && r.id in s.used ensures exists q | q in s.t.rows :: SamePlace(r, q) {
        assert SamePlace(r, r);
      }
    case Purge(status, on, before) =>
      UnpurgedIs(s.t.rows, status, on, before);
      FewerAreWithin(Step(h, op).t.rows, s.t.rows);
    case _ =>
      StatusStep(h, op);
      PlacesKeepIds(s.t.rows, Step(h, op).t.rows);
  }

  lemma BehindStays(rows: seq<Row>, used: set<string>, rows': seq<Row>, cursors: Cursors, agent: string, id: string)
    requires Onward(rows, used, rows') && id in used && IsBehind(rows, cursors, agent, id)
    ensures IsBehind(rows', cursors, agent, id)
  {
    forall r | r in rows' && r.id == id ensures r.num <= Cursor(cursors, agent, r.channel) {
      var q :| q in rows && SamePlace(r, q);
    }
  }

  lemma StandsStays(rows: seq<Row>, used: set<string>, rows': seq<Row>, used': set<string>, q: Row)
    requires Onward(rows, used, rows') && used <= used' && Stands(rows, used, q)
    ensures Stands(rows', used', q)
  {
    forall r | r in rows' && r.id == q.id ensures SamePlace(r, q) {
      var p :| p in rows && SamePlace(r, p);
    }
  }

  lemma ReaderStays(s: State, s': State, rd: Reader)
    requires ReaderOk(s, rd) && s.used <= s'.used && s'.t.cursors == s.t.cursors && Onward(s.t.rows, s.used, s'.t.rows)
    requires s'.got == s.got && forall d | d in s.got :: d.id in s.used
    ensures ReaderOk(s', rd)
  {
    forall q | q in rd.found ensures Stands(s'.t.rows, s'.used, q) {
      StandsStays(s.t.rows, s.used, s'.t.rows, s'.used, q);
    }
    forall i | 0 <= i < rd.since && s.got[i].agent == rd.agent
      ensures IsBehind(s'.t.rows, rd.seen, rd.agent, s.got[i].id) {
      BehindStays(s.t.rows, s.used, s'.t.rows, rd.seen, rd.agent, s.got[i].id);
    }
  }

  lemma WholeIsSound(s: State, op: Op)
    requires Sound(s) && CanMove(s, Whole(op))
    ensures Sound(After(s, Whole(op)))
  {
    WholeIs(s, op);
    var s' := After(s, Whole(op));
    forall d | d in s.got ensures d.id in s'.used && IsBehind(s'.t.rows, s'.t.cursors, d.agent, d.id) {
      BehindStays(s.t.rows, s.used, s'.t.rows, s.t.cursors, d.agent, d.id);
    }
    forall k | k in s'.readers ensures ReaderOk(s', s'.readers[k]) {
      ReaderStays(s, s', s.readers[k]);
    }
  }

  // ----- the steps of a read -----------------------------------------------------------

  lemma BeginIsSound(s: State, m: Move)
    requires Sound(s) && CanMove(s, m) && m.Begin?
    ensures Sound(After(s, m))
  {
    var s' := After(s, m);
    forall k | k in s'.readers ensures ReaderOk(s', s'.readers[k]) {
      if k != m.k {
        assert ReaderOk(s, s.readers[k]);
      } else {
        forall i | 0 <= i < |s.got| ensures IsBehind(s.t.rows, s.t.cursors, s.got[i].agent, s.got[i].id) {
          assert s.got[i] in s.got;
        }
      }
    }
  }

  lemma SelectFound(t: Table, used: set<string>, rd: Reader, c: string)
    requires RowsOk(t, used) && FoundOk(t.rows, used, rd) && c in rd.todo
    ensures FoundOk(t.rows, used, Selected(t.rows, rd, c))
  {
    var more := UnreadOf(t.rows, rd.seen, rd.agent, {c});
    UnreadOfIs(t.rows, rd.seen, rd.agent, {c});
    JoinFound(t, used, rd.found, more, rd.todo, c);
  }

  lemma JoinFound(t: Table, used: set<string>, found: seq<Row>, more: seq<Row>, todo: set<string>, c: string)
    requires RowsOk(t, used) && c in todo && InChannelOrder(found) && DistinctIds(found)
    requires forall q | q in found :: Stands(t.rows, used, q) && q.channel !in todo
    requires Ordered(more) && forall r | r in more :: r in t.rows && r.channel == c
    ensures InChannelOrder(found + more) && DistinctIds(found + more)
    ensures forall q | q in found + more :: Stands(t.rows, used, q) && q.channel !in todo - {c}
  {
    var all := found + more;
    forall i, j | 0 <= i < j < |all|
      ensures all[i].id != all[j].id && (all[i].channel == all[j].channel ==> all[i].num < all[j].num) {
      if i < |found| <= j {
        assert all[i] in found && all[j] in more;
      } else if |found| <= i {
        assert all[i] in more && all[j] in more && more[i - |found|].num < more[j - |found|].num;
      }
    }
  }

  lemma SelectSince(s: State, rd: Reader, c: string)
    requires SinceOk(s, rd) && RowsOk(s.t, s.used)
    ensures SinceOk(s, Selected(s.t.rows, rd, c))
  {
    var more := UnreadOf(s.t.rows, rd.seen, rd.agent, {c});
    UnreadOfIs(s.t.rows, rd.seen, rd.agent, {c});
    forall i, q | 0 <= i < rd.since && s.got[i].agent == rd.agent && q in more ensures q.id != s.got[i].id {
      assert IsBehind(s.t.rows, rd.seen, rd.agent, s.got[i].id);
    }
  }

  lemma SelectIsSound(s: State, m: Move)
    requires Sound(s) && CanMove(s, m) && m.Select?
    ensures Sound(After(s, m))
  {
    var s', rd := After(s, m), s.readers[m.k];
    SelectFound(s.t, s.used, rd, m.channel);
    SelectSince(s, rd, m.channel);
    forall k | k in s'.readers ensures ReaderOk(s', s'.readers[k]) {
      assert k != m.k ==> ReaderOk(s, s.readers[k]);
    }
  }

  lemma {:induction false} LastNumTops(rows: seq<Row>, c: string)
    requires InChannelOrder(rows) && exists r | r in rows :: r.channel == c
    ensures exists r | r in rows :: r.channel == c && r.num == LastNum(rows, c)
    ensures forall r | r in rows && r.channel == c :: r.num <= LastNum(rows, c)
  {
    var last := rows[|rows| - 1];
    assert rows == rows[..|rows| - 1] + [last];
    if last.channel != c {
      LastNumTops(rows[..|rows| - 1], c);
    }
  }

  lemma {:induction false} InsertMembers(x: Row, s: seq<Row>)
    ensures forall r :: r in Insert(x, s, NumKey()) <==> r == x || r in s
  {
    InsertKeeps(x, s, NumKey());
    forall r ensures r in Insert(x, s, NumKey()) <==> r == x || r in s {
      assert r in Insert(x, s, NumKey()) <==> r in multiset(Insert(x, s, NumKey()));
    }
  }

  lemma {:induction false} InsertDistinct(x: Row, s: seq<Row>)
    requires DistinctIds(s) && forall r | r in s :: r.id != x.id
    ensures DistinctIds(Insert(x, s, NumKey()))
  {
    if s != [] && NumKey()(x) > NumKey()(s[0]) {
      InsertDistinct(x, s[1..]);
      InsertMembers(x, s[1..]);
      assert forall r | r in s[1..] :: r.id != s[0].id;
    }
  }

  /** Sorted, the found rows are the same ones, still without repeats. */
  lemma {:induction false} SortedFound(s: seq<Row>)
    requires DistinctIds(s)
    ensures DistinctIds(Sort(s, NumKey())) && Rising(Sort(s, NumKey()), NumKey())
    ensures forall r :: r in Sort(s, NumKey()) <==> r in s
  {
    SortIs(s, NumKey(), 0.0);
    forall r ensures r in Sort(s, NumKey()) <==> r in s {
      assert r in Sort(s, NumKey()) <==> r in multiset(Sort(s, NumKey()));
    }
    if s != [] {
      SortedFound(s[1..]);
      assert forall r | r in s[1..] :: r.id != s[0].id;
      InsertDistinct(s[0], Sort(s[1..], NumKey()));
    }
  }

  lemma OutIs(rd: Reader)
    requires DistinctIds(rd.found)
    ensures DistinctIds(Out(rd)) && forall q | q in Out(rd) :: q in rd.found
    ensures forall q | q in Out(rd) :: q.num <= Out(rd)[|Out(rd)| - 1].num
  {
    var all, out := Sort(rd.found, NumKey()), Out(rd);
    SortedFound(rd.found);
    assert out <= all;
    forall q | q in out ensures q in rd.found && q.num <= out[|out| - 1].num {
      var i :| 0 <= i < |out| && out[i] == q;
      assert all[i] == q && all[|out| - 1] == out[|out| - 1];
      assert i < |out| - 1 ==> NumKey()(all[i]) <= NumKey()(all[|out| - 1]);
    }
  }

  lemma CursorWritten(cursors: Cursors, rd: Reader, a: string, c: string)
    ensures Cursor(Written(cursors, rd), a, c) ==
              if a == rd.agent && c in ChannelsOf(rd.found)
              then MovedTo(cursors, rd.agent, c, Advance(rd.found, Out(rd), c)) else Cursor(cursors, a, c)
  {
  }

  lemma WritesForward(cursors: Cursors, rd: Reader, a: string, c: string)
    ensures Cursor(cursors, a, c) <= Cursor(Written(cursors, rd), a, c)
  {
    CursorWritten(cursors, rd, a, c);
  }

  /** What a read returns lies behind the cursors it writes. */
  lemma ReturnedAreBehind(t: Table, used: set<string>, rd: Reader, q: Row)
    requires FoundOk(t.rows, used, rd) && q in Out(rd)
    ensures q.id in used && IsBehind(t.rows, Written(t.cursors, rd), rd.agent, q.id)
  {
    OutIs(rd);
    assert q in rd.found && Stands(t.rows, used, q);
    LastNumTops(rd.found, q.channel);
    CursorWritten(t.cursors, rd, rd.agent, q.channel);
  }

  lemma ReturnedIs(rd: Reader, d: Delivery)
    requires d in Returned(rd, Out(rd))
    ensures exists q | q in Out(rd) :: d == Delivery(rd.agent, q.id, rd.since)
  {
    var i :| 0 <= i < |Out(rd)| && Returned(rd, Out(rd))[i] == d;
    assert Out(rd)[i] in Out(rd);
  }

  lemma BehindForward(rows: seq<Row>, cursors: Cursors, rd: Reader, agent: string, id: string)
    requires IsBehind(rows, cursors, agent, id)
    ensures IsBehind(rows, Written(cursors, rd), agent, id)
  {
    forall r | r in rows && r.id == id ensures r.num <= Cursor(Written(cursors, rd), agent, r.channel) {
      WritesForward(cursors, rd, agent, r.channel);
    }
  }

  lemma DeliveredBehind(s: State, k: nat, d: Delivery)
    requires Sound(s) && k in s.readers && d in s.got + Returned(s.readers[k], Out(s.readers[k]))
    ensures d.id in s.used && IsBehind(s.t.rows, Written(s.t.cursors, s.readers[k]), d.agent, d.id)
  {
    var rd := s.readers[k];
    assert ReaderOk(s, rd);
    if d in s.got {
      BehindForward(s.t.rows, s.t.cursors, rd, d.agent, d.id);
    } else {
      ReturnedIs(rd, d);
      var q :| q in Out(rd) && d == Delivery(rd.agent, q.id, rd.since);
      ReturnedAreBehind(s.t, s.used, rd, q);
    }
  }

  /** The deliveries of one read repeat only what was delivered since it began. */
  lemma ReturnedOverlap(s: State, rd: Reader)
    requires ReaderOk(s, rd) && OnlyOverlapping(s.got)
    ensures OnlyOverlapping(s.got + Returned(rd, Out(rd)))
  {
    var out, more, n := Out(rd), Returned(rd, Out(rd)), |s.got|;
    var all := s.got + more;
    OutIs(rd);
    forall i, j | 0 <= i < j < |all| && all[i].agent == all[j].agent && all[i].id == all[j].id ensures all[j].since <= i {
      if n <= j {
        assert all[j] == more[j - n] && out[j - n] in out;
        if i < n {
          assert all[i] == s.got[i];
        }
      }
    }
  }

  lemma FinishKeepsReader(s: State, k: nat, rd: Reader)
    requires k in s.readers && ReaderOk(s, rd)
    ensures ReaderOk(Finished(s, k), rd)
  {
    var s' := Finished(s, k);
    forall c ensures Cursor(rd.seen, rd.agent, c) <= Cursor(s'.t.cursors, rd.agent, c) {
      WritesForward(s.t.cursors, s.readers[k], rd.agent, c);
    }
    assert forall i | 0 <= i < rd.since :: s'.got[i] == s.got[i];
  }

  lemma FinishIsSound(s: State, k: nat)
    requires Sound(s) && k in s.readers
    ensures Sound(Finished(s, k))
  {
    var s' := Finished(s, k);
    forall d | d in s'.got ensures d.id in s'.used && IsBehind(s'.t.rows, s'.t.cursors, d.agent, d.id) {
      DeliveredBehind(s, k, d);
    }
    ReturnedOverlap(s, s.readers[k]);
    forall j | j in s'.readers ensures ReaderOk(s', s'.readers[j]) {
      FinishKeepsReader(s, k, s.readers[j]);
    }
  }

  lemma MoveIsSound(s: State, m: Move)
    requires Sound(s) && CanMove(s, m)
    ensures Sound(After(s, m))
  {
    match m
    case Whole(op) => WholeIsSound(s, op);
    case Begin(_, _, _, _) => BeginIsSound(s, m);
    case Select(_, _) => SelectIsSound(s, m);
    case Finish(k) => FinishIsSound(s, k);
  }

  lemma {:induction false} RunIsSound(s: State, ms: seq<Move>)
    requires Sound(s) && Possible(s, ms)
    ensures Sound(AfterAll(s, ms))
    decreases |ms|
  {
    if ms != [] {
      MoveIsSound(s, ms[0]);
      RunIsSound(After(s, ms[0]), ms[1..]);
    }
  }

  /** However reads overlap and whatever is purged: a message returned twice to one agent was returned
    * the first time while the second read was under way. */
  lemma TwiceOnlyByOverlap(ms: seq<Move>)
    requires Possible(Start, ms)
    ensures OnlyOverlapping(AfterAll(Start, ms).got)
  {
    RunIsSound(Start, ms);
  }

  // ----- an agent that reads one at a time ---------------------------------------------

  predicate Alone(s: State, m: Move) {
    m.Begin? ==> forall k | k in s.readers :: s.readers[k].agent != m.agent
  }

  predicate AllAlone(s: State, ms: seq<Move>)
    requires Possible(s, ms)
    decreases |ms|
  {
    ms == [] || (Alone(s, ms[0]) && AllAlone(After(s, ms[0]), ms[1..]))
  }

  /** An agent has one read under way at most, and nothing was returned to it since that began. */
  ghost predicate Single(s: State) {
    && (forall j, k | j in s.readers && k in s.readers && j != k :: s.readers[j].agent != s.readers[k].agent)
    && (forall k | k in s.readers :: NoneSince(s.got, s.readers[k]))
  }

  predicate NoneSince(got: seq<Delivery>, rd: Reader) {
    forall i | rd.since <= i < |got| :: got[i].agent != rd.agent
  }

  predicate NoTwice(got: seq<Delivery>) {
    forall i, j | 0 <= i < j < |got| :: Differ(got[i], got[j])
  }

  lemma ReturnedAlone(s: State, rd: Reader, out: seq<Row>, more: seq<Delivery>)
    requires ReaderOk(s, rd) && NoneSince(s.got, rd) && NoTwice(s.got) && out == Out(rd) && more == Returned(rd, out)
    ensures NoTwice(s.got + more)
  {
    OutIs(rd);
    var n := |s.got|;
    forall i, j | 0 <= i < n && 0 <= j < |more| && s.got[i].agent == rd.agent ensures s.got[i].id != more[j].id {
      assert out[j] in rd.found;
    }
    assert NoTwice(more);
    forall i, j | 0 <= i < j < n + |more| ensures Differ((s.got + more)[i], (s.got + more)[j]) {
      if i < n <= j {
        assert (s.got + more)[j] == more[j - n];
      }
    }
  }

  predicate Differ(d: Delivery, e: Delivery) { d.agent != e.agent || d.id != e.id }

  lemma FinishAlone(s: State, k: nat)
    requires Sound(s) && Single(s) && NoTwice(s.got) && k in s.readers
    ensures Single(Finished(s, k)) && NoTwice(Finished(s, k).got)
  {
    var s', rd := Finished(s, k), s.readers[k];
    assert ReaderOk(s, rd) && NoneSince(s.got, rd);
    ReturnedAlone(s, rd, Out(rd), Returned(rd, Out(rd)));
    forall j | j in s'.readers ensures NoneSince(s'.got, s'.readers[j]) {
      assert NoneSince(s.got, s.readers[j]) && s.readers[j].agent != rd.agent;
    }
  }

  lemma MoveAlone(s: State, m: Move)
    requires Sound(s) && Single(s) && NoTwice(s.got) && CanMove(s, m) && Alone(s, m)
    ensures Single(After(s, m)) && NoTwice(After(s, m).got)
  {
    match m
    case Finish(k) => FinishAlone(s, k);
    case Select(k, c) =>
      forall j | j in s.readers ensures NoneSince(s.got, After(s, m).readers[j]) {
        assert NoneSince(s.got, s.readers[j]);
      }
    case _ =>
      forall j | j in After(s, m).readers ensures NoneSince(s.got, After(s, m).readers[j]) {
        assert j in s.readers ==> NoneSince(s.got, s.readers[j]);
      }
  }

  lemma {:induction false} RunAlone(s: State, ms: seq<Move>)
    requires Sound(s) && Single(s) && NoTwice(s.got) && Possible(s, ms) && AllAlone(s, ms)
    ensures NoTwice(AfterAll(s, ms).got)
    decreases |ms|
  {
    if ms != [] {
      MoveIsSound(s, ms[0]);
      MoveAlone(s, ms[0]);
      RunAlone(After(s, ms[0]), ms[1..]);
    }
  }

  /** When no agent begins a read while another of its own is under way, no message is returned to it twice. */
  lemma AloneNeverTwice(ms: seq<Move>)
    requires Possible(Start, ms) && AllAlone(Start, ms)
    ensures NoTwice(AfterAll(Start, ms).got)
  {
    RunAlone(Start, ms);
  }

  // ----- nothing lost ------------------------------------------------------------------

  /** Caps are positive, and purges spare the row with the highest number. */
  predicate Mindful(s: State, m: Move) {
    match m
    case Begin(_, _, _, n) => GoodCap(n)
    case Whole(op) => Careful(Plain(s), op)
    case _ => true
  }

  predicate AllMindful(s: State, ms: seq<Move>)
    requires Possible(s, ms)
    decreases |ms|
  {
    ms == [] || (Mindful(s, ms[0]) && AllMindful(After(s, ms[0]), ms[1..]))
  }

  predicate WasReturned(s: State, a: string, id: string) {
    exists d | d in s.got :: d.agent == a && d.id == id
  }

  /** A message that the cursor of `a` has passed was returned to `a` or was not active when selected. */
  predicate Settles(s: State, a: string, r: Row) {
    r.num <= Cursor(s.t.cursors, a, r.channel) ==> WasReturned(s, a, r.id) || (a, r.id) in s.hidden
  }

  predicate HasPlace(rows: seq<Row>, r: Row) { exists q | q in rows :: SamePlace(r, q) }

  predicate HasDark(rows: set<Row>, r: Row) { exists q | q in rows :: SamePlace(r, q) }

  /** Between the cursor it saw and the last row it found, the read has seen every row. */
  predicate Covers(rows: seq<Row>, rd: Reader) {
    forall r | r in rows && r.channel in ChannelsOf(rd.found)
               && Cursor(rd.seen, rd.agent, r.channel) < r.num <= LastNum(rd.found, r.channel) ::
      HasPlace(rd.found, r) || HasDark(rd.dark, r)
  }

  /** The found rows' numbers are given to no other row. */
  predicate NumsKept(rows: seq<Row>, rd: Reader) {
    && DistinctNumbers(rd.found)
    && forall q | q in rd.found :: q.num < NextNum(rows) && forall r | r in rows && r.num == q.num :: SamePlace(r, q)
  }

  predicate DistinctNumbers(rows: seq<Row>) { forall i, j | 0 <= i < j < |rows| :: rows[i].num != rows[j].num }

  predicate KeepsAll(rows: seq<Row>, rd: Reader) { GoodCap(rd.n) && NumsKept(rows, rd) && Covers(rows, rd) }

  ghost predicate Complete(s: State) {
    && CursorsBelow(s.t)
    && (forall a, r | r in s.t.rows :: Settles(s, a, r))
    && (forall k | k in s.readers :: KeepsAll(s.t.rows, s.readers[k]))
  }

  /** No number is given out again. */
  ghost predicate NumsOnward(rows: seq<Row>, rows': seq<Row>) {
    NextNum(rows) <= NextNum(rows') && forall r | r in rows' && r.num < NextNum(rows) :: exists q | q in rows :: SamePlace(r, q)
  }

  lemma WholeKeepsNums(s: State, op: Op)
    requires RowsOk(s.t, s.used) && CanMove(s, Whole(op)) && Careful(Plain(s), op)
    ensures NumsOnward(s.t.rows, After(s, Whole(op)).t.rows)
  {
    var h := Plain(s);
    WholeIs(s, op);
    NextKeeps(h, op);
    var rows' := Step(h, op).t.rows;
    forall r | r in rows' && r.num < NextNum(s.t.rows) ensures exists q | q in s.t.rows :: SamePlace(r, q) {
      if r in s.t.rows {
        assert SamePlace(r, r);
      }
    }
  }

  lemma KeepsAllStays(rows: seq<Row>, rows': seq<Row>, rd: Reader)
    requires NumsOnward(rows, rows') && KeepsAll(rows, rd) && InChannelOrder(rd.found)
    ensures KeepsAll(rows', rd)
  {
    forall q, r | q in rd.found && r in rows' && r.num == q.num ensures SamePlace(r, q) {
      var p :| p in rows && SamePlace(r, p);
    }
    forall r | r in rows' && r.channel in ChannelsOf(rd.found)
               && Cursor(rd.seen, rd.agent, r.channel) < r.num <= LastNum(rd.found, r.channel)
      ensures HasPlace(rd.found, r) || HasDark(rd.dark, r) {
      LastNumTops(rd.found, r.channel);
      var p :| p in rows && SamePlace(r, p);
      assert HasPlace(rd.found, p) || HasDark(rd.dark, p);
    }
  }

  lemma WholeIsComplete(s: State, op: Op)
    requires Sound(s) && Complete(s) && CanMove(s, Whole(op)) && Careful(Plain(s), op)
    ensures Complete(After(s, Whole(op)))
  {
    var s' := After(s, Whole(op));
    WholeKeepsNums(s, op);
    WholeIs(s, op);
    forall a, r | r in s'.t.rows ensures Settles(s', a, r) {
      if r.num <= Cursor(s.t.cursors, a, r.channel) {
        assert Cursor(s.t.cursors, a, r.channel) < NextNum(s.t.rows);
        var q :| q in s.t.rows && SamePlace(r, q);
        assert Settles(s, a, q);
      }
    }
    forall a, c ensures Cursor(s'.t.cursors, a, c) < NextNum(s'.t.rows) {
      assert Cursor(s.t.cursors, a, c) < NextNum(s.t.rows);
    }
    forall k | k in s'.readers ensures KeepsAll(s'.t.rows, s'.readers[k]) {
      assert ReaderOk(s, s.readers[k]);
      KeepsAllStays(s.t.rows, s'.t.rows, s.readers[k]);
    }
  }

  lemma SelectKeepsNums(t: Table, used: set<string>, rd: Reader, c: string)
    requires RowsOk(t, used) && FoundOk(t.rows, used, rd) && c in rd.todo && NumsKept(t.rows, rd)
    ensures NumsKept(t.rows, Selected(t.rows, rd, c))
  {
    var more := UnreadOf(t.rows, rd.seen, rd.agent, {c});
    UnreadOfIs(t.rows, rd.seen, rd.agent, {c});
    var all := rd.found + more;
    forall i, j | 0 <= i < j < |all| ensures all[i].num != all[j].num {
      if i < |rd.found| <= j {
        assert all[i] in rd.found && all[j] in more;
      }
    }
    forall q | q in more ensures q.num < NextNum(t.rows) && forall r | r in t.rows && r.num == q.num :: SamePlace(r, q) {
      NumBelowNext(t.rows, q);
      assert forall r | r in t.rows && r.num == q.num :: r == q;
    }
  }

  lemma LastOfOther(a: seq<Row>, b: seq<Row>, c: string)
    requires InChannelOrder(a) && InChannelOrder(a + b) && c in ChannelsOf(a) && forall r | r in b :: r.channel != c
    ensures c in ChannelsOf(a + b) && LastNum(a + b, c) == LastNum(a, c)
  {
    var r :| r in a && r.channel == c;
    assert r in a + b;
    LastNumTops(a, c);
    LastNumTops(a + b, c);
  }

  lemma SelectCovers(t: Table, used: set<string>, rd: Reader, c: string, r: Row)
    requires RowsOk(t, used) && FoundOk(t.rows, used, rd) && c in rd.todo && Covers(t.rows, rd)
    requires r in t.rows && r.channel in ChannelsOf(Selected(t.rows, rd, c).found)
    requires Cursor(rd.seen, rd.agent, r.channel) < r.num <= LastNum(Selected(t.rows, rd, c).found, r.channel)
    ensures HasPlace(Selected(t.rows, rd, c).found, r) || HasDark(Selected(t.rows, rd, c).dark, r)
  {
    var rd', more := Selected(t.rows, rd, c), UnreadOf(t.rows, rd.seen, rd.agent, {c});
    UnreadOfIs(t.rows, rd.seen, rd.agent, {c});
    if r.channel == c {
      assert r in more || r in Dark(t.rows, rd, c);
      assert SamePlace(r, r);
    } else {
      SelectFound(t, used, rd, c);
      LastOfOther(rd.found, more, r.channel);
      assert HasPlace(rd.found, r) || HasDark(rd.dark, r);
    }
  }

  lemma SelectIsComplete(s: State, m: Move)
    requires Sound(s) && Complete(s) && CanMove(s, m) && m.Select?
    ensures Complete(After(s, m))
  {
    var s', rd := After(s, m), s.readers[m.k];
    assert ReaderOk(s, rd);
    SelectKeepsNums(s.t, s.used, rd, m.channel);
    var rd' := Selected(s.t.rows, rd, m.channel);
    forall r | r in s.t.rows && r.channel in ChannelsOf(rd'.found)
               && Cursor(rd'.seen, rd'.agent, r.channel) < r.num <= LastNum(rd'.found, r.channel)
      ensures HasPlace(rd'.found, r) || HasDark(rd'.dark, r) {
      SelectCovers(s.t, s.used, rd, m.channel, r);
    }
    forall a, r | r in s'.t.rows ensures Settles(s', a, r) {
      assert Settles(s, a, r);
    }
  }

  /** What the new cursor passes among the found rows was returned. */
  lemma PassedWasReturned(rd: Reader, q: Row)
    requires InChannelOrder(rd.found) && DistinctIds(rd.found) && DistinctNumbers(rd.found) && GoodCap(rd.n)
    requires q in rd.found && q.num <= Advance(rd.found, Out(rd), q.channel)
    ensures q in Out(rd)
  {
    var all, out := Sort(rd.found, NumKey()), Out(rd);
    SortedFound(rd.found);
    forall i, j | 0 <= i < j < |all| ensures all[i].num < all[j].num {
      assert NumKey()(all[i]) <= NumKey()(all[j]);
      assert all[i] in rd.found && all[j] in rd.found && all[i].id != all[j].id;
    }
    assert out <= all && q in all && out != [];
    CapIs(all, out, q);
  }

  lemma FinishSettles(s: State, k: nat, a: string, r: Row)
    requires Sound(s) && Complete(s) && k in s.readers && r in s.t.rows
    ensures Settles(Finished(s, k), a, r)
  {
    var s', rd := Finished(s, k), s.readers[k];
    assert ReaderOk(s, rd) && KeepsAll(s.t.rows, rd) && Settles(s, a, r);
    CursorWritten(s.t.cursors, rd, a, r.channel);
    if Cursor(s.t.cursors, a, r.channel) < r.num <= Cursor(s'.t.cursors, a, r.channel) {
      FinishPasses(s, k, r);
    } else if r.num <= Cursor(s.t.cursors, a, r.channel) && (a, r.id) !in s.hidden {
      var d :| d in s.got && d.agent == a && d.id == r.id;
      assert d in s'.got;
    }
  }

  lemma OutIsReturned(rd: Reader, q: Row)
    requires q in Out(rd)
    ensures Delivery(rd.agent, q.id, rd.since) in Returned(rd, Out(rd))
  {
    var i :| 0 <= i < |Out(rd)| && Out(rd)[i] == q;
    assert Returned(rd, Out(rd))[i] == Delivery(rd.agent, q.id, rd.since);
  }

  lemma FinishPasses(s: State, k: nat, r: Row)
    requires Sound(s) && Complete(s) && k in s.readers && r in s.t.rows
    requires var rd := s.readers[k];
             Cursor(s.t.cursors, rd.agent, r.channel) < r.num <= Cursor(Written(s.t.cursors, rd), rd.agent, r.channel)
    ensures var rd := s.readers[k]; WasReturned(Finished(s, k), rd.agent, r.id) || (rd.agent, r.id) in Finished(s, k).hidden
  {
    var rd := s.readers[k];
    var out := Out(rd);
    assert ReaderOk(s, rd) && KeepsAll(s.t.rows, rd);
    CursorWritten(s.t.cursors, rd, rd.agent, r.channel);
    assert r.num <= Advance(rd.found, out, r.channel) <= LastNum(rd.found, r.channel);
    assert Cursor(rd.seen, rd.agent, r.channel) < r.num;
    if HasPlace(rd.found, r) {
      var q :| q in rd.found && SamePlace(r, q);
      PassedWasReturned(rd, q);
      OutIsReturned(rd, q);
      assert Delivery(rd.agent, r.id, rd.since) in Finished(s, k).got;
    } else {
      var q :| q in rd.dark && SamePlace(r, q);
      assert (rd.agent, q.id) in Passed(s.t.cursors, rd);
    }
  }

  lemma FinishStaysBelow(s: State, k: nat, a: string, c: string)
    requires Sound(s) && Complete(s) && k in s.readers
    ensures Cursor(Finished(s, k).t.cursors, a, c) < NextNum(s.t.rows)
  {
    var rd := s.readers[k];
    assert ReaderOk(s, rd) && KeepsAll(s.t.rows, rd) && Cursor(s.t.cursors, a, c) < NextNum(s.t.rows);
    CursorWritten(s.t.cursors, rd, a, c);
    if c in ChannelsOf(rd.found) {
      LastNumTops(rd.found, c);
    }
  }

  lemma FinishIsComplete(s: State, k: nat)
    requires Sound(s) && Complete(s) && k in s.readers
    ensures Complete(Finished(s, k))
  {
    forall a, r | r in s.t.rows ensures Settles(Finished(s, k), a, r) {
      FinishSettles(s, k, a, r);
    }
    forall a, c ensures Cursor(Finished(s, k).t.cursors, a, c) < NextNum(s.t.rows) {
      FinishStaysBelow(s, k, a, c);
    }
  }

  lemma MoveIsComplete(s: State, m: Move)
    requires Sound(s) && Complete(s) && CanMove(s, m) && Mindful(s, m)
    ensures Complete(After(s, m))
  {
    match m
    case Whole(op) => WholeIsComplete(s, op);
    case Begin(_, _, _, _) =>
      forall a, r | r in s.t.rows ensures Settles(After(s, m), a, r) {
        assert Settles(s, a, r);
      }
    case Select(_, _) => SelectIsComplete(s, m);
    case Finish(k) => FinishIsComplete(s, k);
  }

  lemma {:induction false} RunIsComplete(s: State, ms: seq<Move>)
    requires Sound(s) && Complete(s) && Possible(s, ms) && AllMindful(s, ms)
    ensures Complete(AfterAll(s, ms))
    decreases |ms|
  {
    if ms != [] {
      MoveIsSound(s, ms[0]);
      MoveIsComplete(s, ms[0]);
      RunIsComplete(After(s, ms[0]), ms[1..]);
    }
  }

  /** Overlapping reads lose nothing: every message that an agent's cursor has passed was returned to
    * it, or was not active when a read of it selected from the channel. */
  lemma OverlapLosesNothing(ms: seq<Move>, a: string, r: Row)
    requires Possible(Start, ms) && AllMindful(Start, ms) && r in AfterAll(Start, ms).t.rows
    ensures Settles(AfterAll(Start, ms), a, r)
  {
    RunIsComplete(Start, ms);
  }

  // ----- a read that nothing interrupts ------------------------------------------------

  /** The steps of a read once it has begun. */
  function Steps(k: nat, chans: seq<string>): seq<Move> {
    if chans == [] then [Finish(k)] else [Select(k, chans[0])] + Steps(k, chans[1..])
  }

  function SelectAll(rows: seq<Row>, rd: Reader, chans: seq<string>): Reader
    decreases |chans|
  {
    if chans == [] then rd else SelectAll(rows, Selected(rows, rd, chans[0]), chans[1..])
  }

  function Listed(chans: seq<string>): set<string> { set c | c in chans }

  lemma TailIsListed(chans: seq<string>)
    requires chans != [] && NoRepeats(chans)
    ensures NoRepeats(chans[1..]) && Listed(chans[1..]) == Listed(chans) - {chans[0]}
  {
    assert forall c | c in chans[1..] :: c != chans[0];
    assert chans == [chans[0]] + chans[1..];
  }

  lemma {:induction false} StepsRun(s: State, k: nat, chans: seq<string>)
    requires k in s.readers && NoRepeats(chans) && s.readers[k].todo == Listed(chans)
    ensures Possible(s, Steps(k, chans))
    ensures AfterAll(s, Steps(k, chans)) ==
              Finished(s.(readers := s.readers[k := SelectAll(s.t.rows, s.readers[k], chans)]), k)
    decreases |chans|
  {
    var rest := Steps(k, chans)[1..];
    if chans == [] {
      assert s.readers[k := s.readers[k]] == s.readers;
      assert rest == [];
    } else {
      TailIsListed(chans);
      var s' := After(s, Select(k, chans[0]));
      StepsRun(s', k, chans[1..]);
      assert rest == Steps(k, chans[1..]);
      assert s'.readers[k := SelectAll(s.t.rows, s'.readers[k], chans[1..])]
          == s.readers[k := SelectAll(s.t.rows, s.readers[k], chans)];
    }
  }

  lemma {:induction false} SelectAllIs(t: Table, used: set<string>, rd: Reader, chans: seq<string>)
    requires RowsOk(t, used) && FoundOk(t.rows, used, rd) && NoRepeats(chans) && rd.todo == Listed(chans)
    ensures var rd' := SelectAll(t.rows, rd, chans);
            && FoundOk(t.rows, used, rd') && rd' == rd.(todo := {}, found := rd'.found, dark := rd'.dark)
            && (forall r :: r in rd'.found <==> r in rd.found || (r in t.rows && r.channel in chans && IsUnread(rd.seen, rd.agent, r)))
            && (forall r :: r in rd'.dark <==> r in rd.dark || (r.channel in chans && r in Dark(t.rows, rd, r.channel)))
    decreases |chans|
  {
    if chans != [] {
      TailIsListed(chans);
      SelectFound(t, used, rd, chans[0]);
      UnreadOfIs(t.rows, rd.seen, rd.agent, {chans[0]});
      SelectAllIs(t, used, Selected(t.rows, rd, chans[0]), chans[1..]);
      assert forall c :: c in chans <==> c == chans[0] || c in chans[1..];
    }
  }

  /** What one read finds, when nothing interrupts it, is the unread messages. */
  lemma FoundIsUnread(t: Table, rd: Reader, u: seq<Row>)
    requires Ordered(t.rows) && Ordered(u) && DistinctIds(rd.found) && InChannelOrder(rd.found)
    requires (forall r | r in u :: r in t.rows) && forall r :: r in rd.found <==> r in u
    ensures Sort(rd.found, NumKey()) == u && ChannelsOf(rd.found) == ChannelsOf(u)
    ensures forall c | c in ChannelsOf(u) :: LastNum(rd.found, c) == LastNum(u, c)
  {
    var all := Sort(rd.found, NumKey());
    SortedFound(rd.found);
    forall i, j | 0 <= i < j < |all| ensures all[i].num < all[j].num {
      assert NumKey()(all[i]) <= NumKey()(all[j]);
      assert all[i] in t.rows && all[j] in t.rows && all[i].id != all[j].id;
    }
    OrderedUnique(all, u);
    forall c | c in ChannelsOf(u) ensures LastNum(rd.found, c) == LastNum(u, c) {
      var r :| r in u && r.channel == c;
      assert r in rd.found;
      LastNumTops(rd.found, c);
      LastNumIs(u, c);
    }
  }

  lemma SameWrites(cursors: Cursors, rd: Reader, u: seq<Row>, out: seq<Row>)
    requires out == Out(rd) && ChannelsOf(rd.found) == ChannelsOf(u)
    requires forall c | c in ChannelsOf(u) :: LastNum(rd.found, c) == LastNum(u, c)
    ensures Written(cursors, rd) == CursorsAfter(cursors, rd.agent, ChannelsOf(u), u, out)
  {
  }

  lemma SamePassed(t: Table, rd: Reader, chans: seq<string>)
    requires rd.seen == t.cursors && forall q | q in rd.found :: q.channel in chans
    requires forall r :: r in rd.dark <==> r.channel in chans && r in Dark(t.rows, rd, r.channel)
    ensures Passed(t.cursors, rd) == Hidden(t, t.(cursors := Written(t.cursors, rd)), rd.agent)
  {
    var t' := t.(cursors := Written(t.cursors, rd));
    forall d ensures d in Passed(t.cursors, rd) <==> d in Hidden(t, t', rd.agent) {
      if d in Hidden(t, t', rd.agent) {
        var r :| r in t.rows && r.status != Active && d == (rd.agent, r.id)
                 && Cursor(t.cursors, rd.agent, r.channel) < r.num <= Cursor(t'.cursors, rd.agent, r.channel);
        CursorWritten(t.cursors, rd, rd.agent, r.channel);
        assert r in rd.dark;
      }
    }
  }

  /** Uninterrupted, and whatever the order of the channels, the steps are the one step of `BusRuns`. */
  lemma UninterruptedIsRead(s: State, k: nat, agent: string, patterns: seq<string>, chans: seq<string>, n: Option<int>)
    requires RowsOk(s.t, s.used) && k !in s.readers && NoRepeats(chans) && Listed(chans) == Want(s.t.rows, patterns)
    ensures var ms := [Begin(k, agent, Listed(chans), n)] + Steps(k, chans);
            var h := Step(Plain(s), Read(agent, patterns, false, n));
            && Possible(s, ms)
            && AfterAll(s, ms) == State(h.t, s.used,
                 s.got + seq(|h.got|, i requires 0 <= i < |h.got| => Delivery(agent, h.got[i].1, |s.got|)),
                 s.hidden + h.hidden, s.readers)
  {
    var ms := [Begin(k, agent, Listed(chans), n)] + Steps(k, chans);
    var s1 := After(s, ms[0]);
    assert ms[1..] == Steps(k, chans);
    StepsRun(s1, k, chans);
    var rd := SelectedAll(s.t, s.used, agent, n, |s.got|, chans);
    FinishAfter(s1, k, s.readers, rd, Listed(chans));
  }

  /** A read that has selected everything at once writes and returns what the one step does. */
  lemma SelectedAll(t: Table, used: set<string>, agent: string, n: Option<int>, since: nat, chans: seq<string>)
    returns (rd: Reader)
    requires RowsOk(t, used) && NoRepeats(chans)
    ensures rd == SelectAll(t.rows, Reader(agent, n, since, t.cursors, Listed(chans), [], {}), chans)
    ensures rd.agent == agent && rd.since == since && rd.n == n && Out(rd) == ReadOut(t, agent, Listed(chans), n)
    ensures t.(cursors := Written(t.cursors, rd)) == AfterRead(t, agent, Listed(chans), n)
    ensures Passed(t.cursors, rd) == Hidden(t, AfterRead(t, agent, Listed(chans), n), agent)
  {
    var rd0 := Reader(agent, n, since, t.cursors, Listed(chans), [], {});
    rd := SelectAll(t.rows, rd0, chans);
    SelectAllIs(t, used, rd0, chans);
    var u := Unread(t, agent, Listed(chans));
    UnreadOfIs(t.rows, t.cursors, agent, Listed(chans));
    FoundIsUnread(t, rd, u);
    SameWrites(t.cursors, rd, u, Out(rd));
    SamePassed(t, rd, chans);
  }

  lemma FinishAfter(s: State, k: nat, before: map<nat, Reader>, rd: Reader, want: set<string>)
    requires k !in before && s.readers.Keys == before.Keys + {k} && forall j | j in before :: s.readers[j] == before[j]
    requires rd.since == |s.got| && Out(rd) == ReadOut(s.t, rd.agent, want, rd.n)
    requires s.t.(cursors := Written(s.t.cursors, rd)) == AfterRead(s.t, rd.agent, want, rd.n)
    requires Passed(s.t.cursors, rd) == Hidden(s.t, AfterRead(s.t, rd.agent, want, rd.n), rd.agent)
    ensures var h := DoRead(Plain(s), rd.agent, want, rd.n);
            Finished(s.(readers := s.readers[k := rd]), k) == State(h.t, s.used,
              s.got + seq(|h.got|, i requires 0 <= i < |h.got| => Delivery(rd.agent, h.got[i].1, |s.got|)),
              s.hidden + h.hidden, before)
  {
    var h := DoRead(Plain(s), rd.agent, want, rd.n);
    assert h.got == Deliveries(rd.agent, Out(rd));
    SameReturned(rd, Out(rd), h.got);
    assert {} + Passed(s.t.cursors, rd) == h.hidden;
    assert s.readers[k := rd] - {k} == before;
  }

  lemma SameReturned(rd: Reader, out: seq<Row>, got: seq<(string, string)>)
    requires got == Deliveries(rd.agent, out)
    ensures Returned(rd, out) == seq(|got|, i requires 0 <= i < |got| => Delivery(rd.agent, got[i].1, rd.since))
  {
  }

  // ----- two reads at once -------------------------------------------------------------

  const CHAT := "global:chat"

  const Both: seq<Move> :=
    [Whole(Publish("m1", CHAT, 0, "hello")), Begin(1, "a", {CHAT}, None), Begin(2, "a", {CHAT}, None),
     Select(1, CHAT), Select(2, CHAT), Finish(1), Finish(2)]

  const Fresh := Reader("a", None, 0, map[], {CHAT}, [], {})
  const Full := Reader("a", None, 0, map[], {}, [First], {})

  lemma FirstFound()
    ensures Selected([First], Fresh, CHAT) == Full
    ensures Out(Full) == [First]
  {
    assert IsUnread(map[], "a", First) && First.channel in {CHAT};
    assert [First][1..] == [] && UnreadOf([], map[], "a", {CHAT}) == [];
    assert Sort<Row>([], NumKey()) == [];
  }

  lemma OverlapRuns(s1: State, s3: State, s5: State, s6: State)
    requires s1 == State(Table([First], map[]), {"m1"}, [], {}, map[])
    requires s3 == s1.(readers := map[1 := Fresh, 2 := Fresh])
    requires s5 == s1.(readers := map[1 := Full, 2 := Full])
    requires s6 == Finished(s5, 1)
    ensures Possible(Start, Both) && AfterAll(Start, Both) == Finished(s6, 2)
  {
    OverlapEnds(s5, s6);
    OverlapSelects(s1, s3, s5);
    OverlapStarts(s1, s3);
  }

  lemma OverlapSelects(s1: State, s3: State, s5: State)
    requires s1.t.rows == [First] && s3 == s1.(readers := map[1 := Fresh, 2 := Fresh])
    requires s5 == s1.(readers := map[1 := Full, 2 := Full]) && Possible(s5, Both[5..])
    ensures Possible(s3, Both[3..]) && AfterAll(s3, Both[3..]) == AfterAll(s5, Both[5..])
  {
    var s4 := s1.(readers := map[1 := Full, 2 := Fresh]);
    assert s4.readers[2 := Full] == s5.readers && s3.readers[1 := Full] == s4.readers;
    SelectsFirst(s4, 2, Both[4..], s5);
    SelectsFirst(s3, 1, Both[3..], s4);
  }

  lemma SelectsFirst(s: State, k: nat, ms: seq<Move>, s': State)
    requires s.t.rows == [First] && k in s.readers && s.readers[k] == Fresh && s' == s.(readers := s.readers[k := Full])
    requires ms != [] && ms[0] == Select(k, CHAT) && Possible(s', ms[1..])
    ensures Possible(s, ms) && AfterAll(s, ms) == AfterAll(s', ms[1..])
  {
    FirstFound();
    OneMove(s, ms, s');
  }

  lemma OverlapEnds(s5: State, s6: State)
    requires s5.readers == map[1 := Full, 2 := Full] && s6 == Finished(s5, 1)
    ensures Possible(s5, Both[5..]) && AfterAll(s5, Both[5..]) == Finished(s6, 2)
  {
    OneMove(s6, Both[6..], Finished(s6, 2));
    OneMove(s5, Both[5..], s6);
  }

  lemma OverlapStarts(s1: State, s3: State)
    requires s1 == State(Table([First], map[]), {"m1"}, [], {}, map[])
    requires s3 == s1.(readers := map[1 := Fresh, 2 := Fresh]) && Possible(s3, Both[3..])
    ensures Possible(Start, Both) && AfterAll(Start, Both) == AfterAll(s3, Both[3..])
  {
    var s2 := s1.(readers := map[1 := Fresh]);
    OneMove(s2, Both[2..], s3);
    OneMove(s1, Both[1..], s2);
    OneMove(Start, Both, s1);
  }

  lemma OneMove(s: State, ms: seq<Move>, s': State)
    requires ms != [] && CanMove(s, ms[0]) && After(s, ms[0]) == s' && Possible(s', ms[1..])
    ensures Possible(s, ms) && AfterAll(s, ms) == AfterAll(s', ms[1..])
  {
  }

  /** Two reads of one agent that select before either writes its cursors both return the message. */
  lemma OverlapDeliversTwice()
    ensures Possible(Start, Both)
    ensures AfterAll(Start, Both).got == [Delivery("a", "m1", 0), Delivery("a", "m1", 0)]
  {
    var s1 := State(Table([First], map[]), {"m1"}, [], {}, map[]);
    var s5 := s1.(readers := map[1 := Full, 2 := Full]);
    OverlapRuns(s1, s1.(readers := map[1 := Fresh, 2 := Fresh]), s5, Finished(s5, 1));
    FirstFound();
    assert Returned(Full, [First]) == [Delivery("a", "m1", 0)];
  }
}
