/** Delivery over whole runs of the bus: publishes, reads, status changes and purges by any
  * number of agents, in any order.  `mark_read`, which sets a cursor outright, is not part
  * of a run. */
module BusRuns {
  import opened Options
  import opened BusModel

  datatype Op =
    | Publish(id: string, channel: string, ts: int, body: string)
    | Read(agent: string, patterns: seq<string>, peek: bool, n: Option<int>)
    | Delete(id: string)
    | Archive(what: Option<string>, on: Option<string>, before: Option<int>)
    | Unarchive(id: string)
    | Purge(status: Option<Status>, on: Option<string>, before: Option<int>)

  /** The table, the ids handed out, what each agent's reads returned, in order, the messages
    * that were not active when an agent's cursor passed them, and the messages that were
    * published with a number the agent's cursor had passed already. */
  datatype History = History(t: Table, used: set<string>, got: seq<(string, string)>, hidden: set<(string, string)>,
                             below: set<(string, string)>)

  const Empty := History(Table([], map[]), {}, [], {}, {})

  /** Message ids are fresh (`uuid4`). */
  predicate Enabled(h: History, op: Op) {
    op.Publish? ==> op.id !in h.used
  }

  function Deliveries(agent: string, out: seq<Row>): seq<(string, string)> {
    seq(|out|, i requires 0 <= i < |out| => (agent, out[i].id))
  }

  function Hidden(t: Table, t': Table, agent: string): set<(string, string)> {
    set r | r in t.rows && r.status != Active
            && Cursor(t.cursors, agent, r.channel) < r.num <= Cursor(t'.cursors, agent, r.channel) :: (agent, r.id)
  }

  /** The agents whose cursor on the channel has passed the next number. */
  function Below(t: Table, id: string, channel: string): set<(string, string)> {
    set k | k in t.cursors && k.1 == channel && NextNum(t.rows) <= t.cursors[k] :: (k.0, id)
  }

  function DoRead(h: History, agent: string, want: set<string>, n: Option<int>): History {
    var t' := AfterRead(h.t, agent, want, n);
    h.(t := t', got := h.got + Deliveries(agent, ReadOut(h.t, agent, want, n)),
       hidden := h.hidden + Hidden(h.t, t', agent))
  }

  function Step(h: History, op: Op): History {
    match op
    case Publish(id, channel, ts, body) =>
      h.(t := AfterPublish(h.t, id, channel, ts, body), used := h.used + {id}, below := h.below + Below(h.t, id, channel))
    case Read(agent, patterns, peek, n) => if peek then h else DoRead(h, agent, Want(h.t.rows, patterns), n)
    case Delete(id) => h.(t := AfterDelete(h.t, id))
    case Archive(id, channel, before) => h.(t := AfterArchive(h.t, id, channel, before))
    case Unarchive(id) => h.(t := AfterUnarchive(h.t, id))
    case Purge(status, channel, before) => h.(t := AfterPurge(h.t, status, channel, before))
  }

  predicate Runs(h: History, ops: seq<Op>)
    decreases |ops|
  {
    ops == [] || (Enabled(h, ops[0]) && Runs(Step(h, ops[0]), ops[1..]))
  }

  function AfterRun(h: History, ops: seq<Op>): History
    decreases |ops|
  {
    if ops == [] then h else AfterRun(Step(h, ops[0]), ops[1..])
  }

  // ----- changes of the table that keep every row in its place -------------------------

  /** Rows with one id are one row. */
  predicate IdsNameRows(rows: seq<Row>) {
    forall r, q | r in rows && q in rows && r.id == q.id :: r == q
  }

  /** Every row of `rows'` stands for a row of `rows`, whatever its status. */
  ghost predicate Within(rows': seq<Row>, rows: seq<Row>) {
    forall r | r in rows' :: exists q | q in rows :: SamePlace(r, q)
  }

  lemma PlacesKeepIds(rows: seq<Row>, rows': seq<Row>)
    requires Ordered(rows) && IdsNameRows(rows) && SamePlaces(rows, rows')
    ensures IdsNameRows(rows') && Within(rows', rows)
  {
    forall r | r in rows' ensures exists q | q in rows :: SamePlace(r, q) {
      var i :| 0 <= i < |rows'| && rows'[i] == r;
      assert SamePlace(r, rows[i]);
    }
    forall r, q | r in rows' && q in rows' && r.id == q.id ensures r == q {
      var i :| 0 <= i < |rows'| && rows'[i] == r;
      var j :| 0 <= j < |rows'| && rows'[j] == q;
      assert SamePlace(r, rows[i]) && SamePlace(q, rows[j]);
      assert rows[i] == rows[j];
    }
  }

  // ----- no message twice --------------------------------------------------------------

  predicate NoRepeats<T(==)>(s: seq<T>) {
    forall i, j | 0 <= i < j < |s| :: s[i] != s[j]
  }

  /** Whatever an agent got stays at or below its cursor. */
  predicate GotIsPassed(h: History, d: (string, string)) {
    d.1 in h.used && forall r | r in h.t.rows && r.id == d.1 :: r.num <= Cursor(h.t.cursors, d.0, r.channel)
  }

  predicate Inv(h: History) {
    && Ordered(h.t.rows) && IdsNameRows(h.t.rows)
    && (forall r | r in h.t.rows :: r.id in h.used)
    && (forall d | d in h.got :: GotIsPassed(h, d))
    && NoRepeats(h.got)
  }

  lemma GotStaysPassed(h: History, h': History)
    requires Inv(h) && Within(h'.t.rows, h.t.rows) && h.used <= h'.used
    requires forall a, c :: Cursor(h.t.cursors, a, c) <= Cursor(h'.t.cursors, a, c)
    ensures forall d | d in h.got :: GotIsPassed(h', d)
    ensures forall r | r in h'.t.rows :: r.id in h'.used
  {
    forall d | d in h.got ensures GotIsPassed(h', d) {
      assert GotIsPassed(h, d);
      forall r | r in h'.t.rows && r.id == d.1 ensures r.num <= Cursor(h'.t.cursors, d.0, r.channel) {
        var q :| q in h.t.rows && SamePlace(r, q);
      }
    }
    forall r | r in h'.t.rows ensures r.id in h'.used {
      var q :| q in h.t.rows && SamePlace(r, q);
    }
  }

  lemma StatusKeepsInv(h: History, rows': seq<Row>)
    requires Inv(h) && SamePlaces(h.t.rows, rows')
    ensures Inv(h.(t := h.t.(rows := rows')))
  {
    PlacesKeepOrder(h.t.rows, rows');
    PlacesKeepIds(h.t.rows, rows');
    GotStaysPassed(h, h.(t := h.t.(rows := rows')));
  }

  lemma PublishKeepsInv(h: History, op: Op)
    requires Inv(h) && op.Publish? && Enabled(h, op)
    ensures Inv(Step(h, op))
  {
    var h' := Step(h, op);
    forall r | r in h.t.rows ensures r.num < NextNum(h.t.rows) {
      NumBelowNext(h.t.rows, r);
    }
    assert Ordered(h'.t.rows);
    forall d | d in h'.got ensures GotIsPassed(h', d) {
      assert GotIsPassed(h, d);
    }
  }

  lemma PurgeKeepsInv(h: History, op: Op)
    requires Inv(h) && op.Purge?
    ensures Inv(Step(h, op))
  {
    var h' := Step(h, op);
    UnpurgedIs(h.t.rows, op.status, op.on, op.before);
    forall r | r in h'.t.rows ensures exists q | q in h.t.rows :: SamePlace(r, q) {
      assert SamePlace(r, r);
    }
    GotStaysPassed(h, h');
  }

  lemma DeliveriesAreNew(h: History, agent: string, want: set<string>, n: Option<int>)
    requires Inv(h)
    ensures var ds := Deliveries(agent, ReadOut(h.t, agent, want, n));
            NoRepeats(ds) && forall d | d in ds :: d !in h.got
  {
    var out := ReadOut(h.t, agent, want, n);
    DeliveriesDiffer(h, agent, want, n);
    var ds := Deliveries(agent, out);
    forall d | d in ds ensures d !in h.got {
      var i :| 0 <= i < |ds| && ds[i] == d;
      ReadPassesReturned(h.t, agent, want, n, out[i]);
      assert d in h.got ==> GotIsPassed(h, d);
    }
  }

  lemma DeliveriesDiffer(h: History, agent: string, want: set<string>, n: Option<int>)
    requires Inv(h)
    ensures NoRepeats(Deliveries(agent, ReadOut(h.t, agent, want, n)))
  {
    var out, u := ReadOut(h.t, agent, want, n), Unread(h.t, agent, want);
    UnreadOfIs(h.t.rows, h.t.cursors, agent, want);
    assert forall i | 0 <= i < |out| :: out[i] == u[i];
    var ds := Deliveries(agent, out);
    forall i, j | 0 <= i < j < |ds| ensures ds[i] != ds[j] {
      assert out[i] in u && out[j] in u && u[i].num < u[j].num;
    }
  }

  lemma NoRepeatsAppend<T>(a: seq<T>, b: seq<T>)
    requires NoRepeats(a) && NoRepeats(b) && forall x | x in b :: x !in a
    ensures NoRepeats(a + b)
  {
    forall i, j | 0 <= i < j < |a + b| ensures (a + b)[i] != (a + b)[j] {
      assert (a + b)[i] == if i < |a| then a[i] else b[i - |a|];
      assert (a + b)[j] == if j < |a| then a[j] else b[j - |a|];
      assert |a| <= j ==> b[j - |a|] in b;
    }
  }

  lemma DeliveriesArePassed(h: History, agent: string, want: set<string>, n: Option<int>, d: (string, string))
    requires Inv(h) && d in Deliveries(agent, ReadOut(h.t, agent, want, n))
    ensures GotIsPassed(DoRead(h, agent, want, n), d)
  {
    var out := ReadOut(h.t, agent, want, n);
    var i :| 0 <= i < |out| && d == (agent, out[i].id);
    ReadPassesReturned(h.t, agent, want, n, out[i]);
  }

  lemma ReadKeepsInv(h: History, agent: string, want: set<string>, n: Option<int>)
    requires Inv(h)
    ensures Inv(DoRead(h, agent, want, n))
  {
    var h' := DoRead(h, agent, want, n);
    var ds := Deliveries(agent, ReadOut(h.t, agent, want, n));
    DeliveriesAreNew(h, agent, want, n);
    NoRepeatsAppend(h.got, ds);
    forall a, c ensures Cursor(h.t.cursors, a, c) <= Cursor(h'.t.cursors, a, c) {
      ReadMovesForward(h.t, agent, want, n, a, c);
    }
    assert Within(h'.t.rows, h.t.rows) by {
      assert forall r | r in h.t.rows :: SamePlace(r, r);
    }
    GotStaysPassed(h, h');
    forall d | d in ds ensures GotIsPassed(h', d) {
      DeliveriesArePassed(h, agent, want, n, d);
    }
  }

  lemma StepKeepsInv(h: History, op: Op)
    requires Inv(h) && Enabled(h, op)
    ensures Inv(Step(h, op))
  {
    match op
    case Publish(_, _, _, _) => PublishKeepsInv(h, op);
    case Read(agent, patterns, peek, n) => ReadKeepsInv(h, agent, Want(h.t.rows, patterns), n);
    case Delete(id) => StatusKeepsInv(h, Step(h, op).t.rows);
    case Archive(_, _, _) => StatusKeepsInv(h, Step(h, op).t.rows);
    case Unarchive(_) => StatusKeepsInv(h, Step(h, op).t.rows);
    case Purge(_, _, _) => PurgeKeepsInv(h, op);
  }

  lemma {:induction false} RunKeepsInv(h: History, ops: seq<Op>)
    requires Inv(h) && Runs(h, ops)
    ensures Inv(AfterRun(h, ops))
    decreases |ops|
  {
    if ops != [] {
      StepKeepsInv(h, ops[0]);
      RunKeepsInv(Step(h, ops[0]), ops[1..]);
    }
  }

  /** Over any run, however reads are capped and whatever is purged, no agent's reads return
    * a message twice. */
  lemma NothingDeliveredTwice(ops: seq<Op>)
    requires Runs(Empty, ops)
    ensures NoRepeats(AfterRun(Empty, ops).got)
  {
    RunKeepsInv(Empty, ops);
  }

  // ----- no message lost ---------------------------------------------------------------

  /** A positive cap, or none. */
  predicate GoodCap(n: Option<int>) {
    n.Some? ==> 1 <= n.value
  }

  predicate GoodCaps(ops: seq<Op>) { forall op | op in ops :: op.Read? ==> GoodCap(op.n) }

  /** A message the cursor of `a` has passed was returned to `a` or was not active then. */
  predicate Accounted(h: History, a: string, r: Row) {
    r.num <= Cursor(h.t.cursors, a, r.channel) ==> (a, r.id) in h.got || (a, r.id) in h.hidden
  }

  /** ... or it was published at or below that cursor. */
  predicate Settled(h: History, a: string, r: Row) { Accounted(h, a, r) || (a, r.id) in h.below }

  /** A message published at or below the agent's cursor stays there, out of the agent's reach. */
  predicate StaysBelow(h: History, d: (string, string)) {
    && d.1 in h.used && d !in h.got && d !in h.hidden
    && forall r | r in h.t.rows && r.id == d.1 :: r.num <= Cursor(h.t.cursors, d.0, r.channel)
  }

  ghost predicate AllSettled(h: History) {
    && (forall a, r | r in h.t.rows :: Settled(h, a, r))
    && (forall d | d in h.below :: StaysBelow(h, d))
    && (forall d | d in h.hidden :: d.1 in h.used)
  }

  /** Fewer rows, or other statuses. */
  lemma SettledStays(h: History, rows': seq<Row>)
    requires AllSettled(h) && Within(rows', h.t.rows)
    ensures AllSettled(h.(t := h.t.(rows := rows')))
  {
    var h' := h.(t := h.t.(rows := rows'));
    forall a, r | r in rows' ensures Settled(h', a, r) {
      var q :| q in h.t.rows && SamePlace(r, q);
      assert Settled(h, a, q);
    }
    forall d | d in h.below ensures StaysBelow(h', d) {
      assert StaysBelow(h, d);
      forall r | r in rows' && r.id == d.1 ensures r.num <= Cursor(h.t.cursors, d.0, r.channel) {
        var q :| q in h.t.rows && SamePlace(r, q);
      }
    }
  }

  lemma BelowIs(t: Table, id: string, channel: string, a: string)
    ensures (a, id) in Below(t, id, channel) <==> NextNum(t.rows) <= Cursor(t.cursors, a, channel) && (a, channel) in t.cursors
    ensures forall d | d in Below(t, id, channel) :: d.1 == id
  {
    var k := (a, channel);
    assert k in t.cursors ==> (k.0, id) == (a, id);
  }

  lemma NextIsPositive(rows: seq<Row>)
    requires Ordered(rows)
    ensures 1 <= NextNum(rows)
  {
  }

  lemma PublishSettles(h: History, op: Op)
    requires Inv(h) && AllSettled(h) && op.Publish? && Enabled(h, op)
    ensures AllSettled(Step(h, op))
  {
    var h' := Step(h, op);
    NextIsPositive(h.t.rows);
    forall a, r | r in h'.t.rows ensures Settled(h', a, r) {
      BelowIs(h.t, op.id, op.channel, a);
      assert r in h.t.rows ==> Settled(h, a, r);
    }
    forall d | d in h'.below ensures StaysBelow(h', d) {
      BelowIs(h.t, op.id, op.channel, d.0);
      assert d in h.below ==> StaysBelow(h, d);
      assert d in h.got ==> GotIsPassed(h, d);
    }
  }

  lemma FewerAreWithin(rows': seq<Row>, rows: seq<Row>)
    requires forall r | r in rows' :: r in rows
    ensures Within(rows', rows)
  {
    forall r | r in rows' ensures exists q | q in rows :: SamePlace(r, q) {
      assert SamePlace(r, r);
    }
  }

  lemma PurgeSettles(h: History, op: Op)
    requires Inv(h) && AllSettled(h) && op.Purge?
    ensures AllSettled(Step(h, op))
  {
    UnpurgedIs(h.t.rows, op.status, op.on, op.before);
    FewerAreWithin(Step(h, op).t.rows, h.t.rows);
    SettledStays(h, Step(h, op).t.rows);
  }

  lemma ReadAccounts(h: History, agent: string, want: set<string>, n: Option<int>, a: string, r: Row)
    requires Inv(h) && Settled(h, a, r) && GoodCap(n) && r in h.t.rows
    ensures Settled(DoRead(h, agent, want, n), a, r)
  {
    var h' := DoRead(h, agent, want, n);
    var out := ReadOut(h.t, agent, want, n);
    ReadMovesForward(h.t, agent, want, n, a, r.channel);
    if a == agent && r.num <= Cursor(h'.t.cursors, a, r.channel) && Cursor(h.t.cursors, a, r.channel) < r.num {
      if r.status == Active {
        ReadLeavesTheRest(h.t, agent, want, n, r);
        var i :| 0 <= i < |out| && out[i] == r;
        assert Deliveries(agent, out)[i] == (a, r.id);
      } else {
        assert (a, r.id) in Hidden(h.t, h'.t, agent);
      }
    }
  }

  /** What lies at or below the cursor is neither returned nor passed by a read. */
  lemma ReadLeavesBelow(h: History, agent: string, want: set<string>, n: Option<int>, d: (string, string))
    requires Inv(h) && StaysBelow(h, d)
    ensures StaysBelow(DoRead(h, agent, want, n), d)
  {
    var h' := DoRead(h, agent, want, n);
    var out := ReadOut(h.t, agent, want, n);
    if d in Deliveries(agent, out) {
      var i :| 0 <= i < |out| && d == (agent, out[i].id);
      ReadPassesReturned(h.t, agent, want, n, out[i]);
      assert false;
    }
    assert d !in Hidden(h.t, h'.t, agent);
    forall r | r in h.t.rows && r.id == d.1 ensures r.num <= Cursor(h'.t.cursors, d.0, r.channel) {
      ReadMovesForward(h.t, agent, want, n, d.0, r.channel);
    }
  }

  lemma ReadSettles(h: History, agent: string, want: set<string>, n: Option<int>)
    requires Inv(h) && AllSettled(h) && GoodCap(n)
    ensures AllSettled(DoRead(h, agent, want, n))
  {
    forall a, r | r in h.t.rows ensures Settled(DoRead(h, agent, want, n), a, r) {
      assert Settled(h, a, r);
      ReadAccounts(h, agent, want, n, a, r);
    }
    forall d | d in h.below ensures StaysBelow(DoRead(h, agent, want, n), d) {
      assert StaysBelow(h, d);
      ReadLeavesBelow(h, agent, want, n, d);
    }
  }

  lemma StatusSettles(h: History, rows': seq<Row>)
    requires Inv(h) && AllSettled(h) && SamePlaces(h.t.rows, rows')
    ensures AllSettled(h.(t := h.t.(rows := rows')))
  {
    PlacesKeepIds(h.t.rows, rows');
    SettledStays(h, rows');
  }

  lemma StepSettles(h: History, op: Op)
    requires Inv(h) && AllSettled(h) && Enabled(h, op) && (op.Read? ==> GoodCap(op.n))
    ensures AllSettled(Step(h, op))
  {
    match op
    case Publish(_, _, _, _) => PublishSettles(h, op);
    case Read(agent, patterns, peek, n) => ReadSettles(h, agent, Want(h.t.rows, patterns), n);
    case Delete(id) => StatusSettles(h, Step(h, op).t.rows);
    case Archive(_, _, _) => StatusSettles(h, Step(h, op).t.rows);
    case Unarchive(_) => StatusSettles(h, Step(h, op).t.rows);
    case Purge(_, _, _) => PurgeSettles(h, op);
  }

  lemma {:induction false} RunSettles(h: History, ops: seq<Op>)
    requires Inv(h) && AllSettled(h) && Runs(h, ops) && GoodCaps(ops)
    ensures AllSettled(AfterRun(h, ops)) && h.below <= AfterRun(h, ops).below
    decreases |ops|
  {
    if ops != [] {
      assert ops[0] in ops;
      StepKeepsInv(h, ops[0]);
      StepSettles(h, ops[0]);
      RunSettles(Step(h, ops[0]), ops[1..]);
    }
  }

  /** Whatever is purged: a message in the table is accounted for with an agent if and only if it was
    * not published with a number that the agent's cursor had passed already. */
  lemma AccountedIff(ops: seq<Op>, a: string, r: Row)
    requires Runs(Empty, ops) && GoodCaps(ops) && r in AfterRun(Empty, ops).t.rows
    ensures var h := AfterRun(Empty, ops);
            && (Accounted(h, a, r) <==> (a, r.id) !in h.below)
            && (r.status == Active ==>
                  IsUnread(h.t.cursors, a, r) || (a, r.id) in h.got || (a, r.id) in h.hidden || (a, r.id) in h.below)
  {
    RunSettles(Empty, ops);
    var h := AfterRun(Empty, ops);
    assert Settled(h, a, r);
    assert (a, r.id) in h.below ==> StaysBelow(h, (a, r.id));
  }

  /** Every message in the table is accounted for with every agent if and only if none of them was
    * published at or below a cursor. */
  lemma EveryoneAccountedIff(ops: seq<Op>)
    requires Runs(Empty, ops) && GoodCaps(ops)
    ensures var h := AfterRun(Empty, ops);
            (forall a, r | r in h.t.rows :: Accounted(h, a, r))
            <==> forall d, r | d in h.below && r in h.t.rows :: r.id != d.1
  {
    var h := AfterRun(Empty, ops);
    forall a, r | r in h.t.rows ensures Accounted(h, a, r) <==> (a, r.id) !in h.below {
      AccountedIff(ops, a, r);
    }
    if d, r :| d in h.below && r in h.t.rows && r.id == d.1 {
      assert !Accounted(h, d.0, r) by { assert d == (d.0, r.id); }
    }
  }

  /** A message published at or below an agent's cursor is returned by no later read of that agent. */
  lemma BelowIsNeverReturned(ops: seq<Op>, more: seq<Op>, d: (string, string))
    requires Runs(Empty, ops) && GoodCaps(ops) && d in AfterRun(Empty, ops).below
    requires Runs(AfterRun(Empty, ops), more) && GoodCaps(more)
    ensures d !in AfterRun(AfterRun(Empty, ops), more).got
  {
    RunKeepsInv(Empty, ops);
    RunSettles(Empty, ops);
    RunSettles(AfterRun(Empty, ops), more);
    assert StaysBelow(AfterRun(AfterRun(Empty, ops), more), d);
  }

  /** The step at which that is decided. */
  lemma PublishedBelowIff(h: History, op: Op, a: string)
    requires Inv(h) && AllSettled(h) && op.Publish? && Enabled(h, op)
    ensures (a, op.id) in Step(h, op).below <==> NextNum(h.t.rows) <= Cursor(h.t.cursors, a, op.channel)
  {
    NextIsPositive(h.t.rows);
    BelowIs(h.t, op.id, op.channel, a);
    assert (a, op.id) in h.below ==> StaysBelow(h, (a, op.id));
  }

  // ----- when no number is given out again ---------------------------------------------

  /** The purge spares the row with the highest number. */
  predicate Careful(h: History, op: Op) {
    op.Purge? && h.t.rows != [] ==> !Purges(h.t.rows[|h.t.rows| - 1], op.status, op.on, op.before)
  }

  predicate CarefulRun(h: History, ops: seq<Op>)
    decreases |ops|
  {
    ops == [] || (Careful(h, ops[0]) && CarefulRun(Step(h, ops[0]), ops[1..]))
  }

  ghost predicate CursorsBelow(t: Table) {
    forall a, c :: Cursor(t.cursors, a, c) < NextNum(t.rows)
  }

  lemma {:induction false} UnpurgedKeepsLast(rows: seq<Row>, status: Option<Status>, on: Option<string>, before: Option<int>)
    requires rows != [] && !Purges(rows[|rows| - 1], status, on, before)
    ensures var rows' := Unpurged(rows, status, on, before); rows' != [] && rows'[|rows'| - 1] == rows[|rows| - 1]
  {
    if |rows| > 1 {
      UnpurgedKeepsLast(rows[1..], status, on, before);
    }
  }

  lemma PurgeKeepsNext(h: History, op: Op)
    requires op.Purge? && Careful(h, op)
    ensures NextNum(Step(h, op).t.rows) == NextNum(h.t.rows)
  {
    if h.t.rows != [] {
      UnpurgedKeepsLast(h.t.rows, op.status, op.on, op.before);
    }
  }

  lemma CarefulKeeps(h: History, op: Op)
    requires Inv(h) && CursorsBelow(h.t) && h.below == {} && Enabled(h, op) && Careful(h, op)
    ensures CursorsBelow(Step(h, op).t) && Step(h, op).below == {}
  {
    forall a, c ensures Cursor(Step(h, op).t.cursors, a, c) < NextNum(Step(h, op).t.rows) {
      CarefulKeepsOne(h, op, a, c);
    }
    if op.Publish? {
      NoneBelow(h.t, op.id, op.channel);
    }
  }

  lemma CarefulKeepsOne(h: History, op: Op, a: string, c: string)
    requires Inv(h) && CursorsBelow(h.t) && Enabled(h, op) && Careful(h, op)
    ensures Cursor(Step(h, op).t.cursors, a, c) < NextNum(Step(h, op).t.rows)
  {
    assert Cursor(h.t.cursors, a, c) < NextNum(h.t.rows);
    if op.Read? {
      ReadStaysBelow(h.t, op.agent, Want(h.t.rows, op.patterns), op.n, a, c);
    } else {
      NextKeeps(h, op);
    }
  }

  /** The next number never falls. */
  lemma NextKeeps(h: History, op: Op)
    requires Inv(h) && Careful(h, op) && !op.Read?
    ensures NextNum(h.t.rows) <= NextNum(Step(h, op).t.rows) && Step(h, op).t.cursors == h.t.cursors
  {
    if op.Purge? {
      PurgeKeepsNext(h, op);
    } else if !op.Publish? {
      StatusStep(h, op);
      PlacesKeepOrder(h.t.rows, Step(h, op).t.rows);
    }
  }

  lemma StatusStep(h: History, op: Op)
    requires op.Delete? || op.Archive? || op.Unarchive?
    ensures SamePlaces(h.t.rows, Step(h, op).t.rows) && Step(h, op).t.cursors == h.t.cursors
  {
  }

  lemma NoneBelow(t: Table, id: string, channel: string)
    requires CursorsBelow(t)
    ensures Below(t, id, channel) == {}
  {
    if d :| d in Below(t, id, channel) {
      BelowIs(t, id, channel, d.0);
    }
  }

  lemma {:induction false} CarefulRunKeeps(h: History, ops: seq<Op>)
    requires Inv(h) && CursorsBelow(h.t) && h.below == {} && Runs(h, ops) && CarefulRun(h, ops)
    ensures AfterRun(h, ops).below == {}
    decreases |ops|
  {
    if ops != [] {
      StepKeepsInv(h, ops[0]);
      CarefulKeeps(h, ops[0]);
      CarefulRunKeeps(Step(h, ops[0]), ops[1..]);
    }
  }

  /** When purges spare the highest row, every message still in the table is unread, was returned to
    * the agent, or was not active when the agent's cursor passed it or is not active now. */
  lemma NothingIsLost(ops: seq<Op>, a: string, r: Row)
    requires Runs(Empty, ops) && GoodCaps(ops) && CarefulRun(Empty, ops) && r in AfterRun(Empty, ops).t.rows
    ensures var h := AfterRun(Empty, ops);
            && Accounted(h, a, r)
            && (r.status == Active ==>
                  IsUnread(h.t.cursors, a, r) || (a, r.id) in h.got || (a, r.id) in h.hidden)
  {
    CarefulRunKeeps(Empty, ops);
    AccountedIff(ops, a, r);
  }

  const First := Row(1, "m1", "global:chat", 0, "hello", Active)
  const Second := Row(1, "m2", "global:chat", 0, "again", Active)

  /** Publish, read, delete, purge, publish. */
  const PurgeRun: seq<Op> :=
    [Publish("m1", "global:chat", 0, "hello"), Read("a", ["*"], false, None), Delete("m1"),
     Purge(Some(Deleted), None, None), Publish("m2", "global:chat", 0, "again")]

  const Delivered := History(Table([First], map[("a", "global:chat") := 1]), {"m1"}, [("a", "m1")], {}, {})

  lemma FirstIsDelivered()
    ensures DoRead(History(Table([First], map[]), {"m1"}, [], {}, {}), "a", Want([First], ["*"]), None) == Delivered
  {
    var t := Table([First], map[]);
    assert Matches("*", "global:chat") && "*" in ["*"];
    assert First in [First];
    var want := Want([First], ["*"]);
    assert want == {"global:chat"};
    assert [First][1..] == [];
    assert UnreadOf([], t.cursors, "a", want) == [];
    assert IsUnread(t.cursors, "a", First) && First.channel in want;
    assert Unread(t, "a", want) == [First];
    assert ChannelsOf([First]) == {"global:chat"};
    assert ReadCursors(t, "a", want, None) == map[("a", "global:chat") := 1];
    assert Deliveries("a", [First]) == [("a", "m1")];
  }

  /** When the highest row is purged its number is given out again: the second message is
    * active, was never returned, and is not unread either. */
  lemma PurgedNumberLosesMessage()
    ensures Runs(Empty, PurgeRun)
    ensures var h := AfterRun(Empty, PurgeRun);
            h.t.rows == [Second] && !IsUnread(h.t.cursors, "a", Second) && ("a", "m2") !in h.got && ("a", "m2") !in h.hidden
            && ("a", "m2") in h.below
  {
    DeliveredFirst();
    PurgedThen();
    var h1 := Step(Empty, PurgeRun[0]);
    var h2 := Step(h1, PurgeRun[1]);
    var h3 := Step(h2, PurgeRun[2]);
    var h4 := Step(h3, PurgeRun[3]);
    RunsFive(h1, h2, h3, h4, Step(h4, PurgeRun[4]));
  }

  lemma DeliveredFirst()
    ensures Step(Step(Empty, PurgeRun[0]), PurgeRun[1]) == Delivered
  {
    var h1 := Step(Empty, PurgeRun[0]);
    assert h1 == History(Table([First], map[]), {"m1"}, [], {}, {});
    FirstIsDelivered();
  }

  const Bare := Delivered.(t := Table([], Delivered.t.cursors))

  lemma PurgedThen()
    ensures Step(Step(Delivered, PurgeRun[2]), PurgeRun[3]) == Bare
    ensures var h5 := Step(Bare, PurgeRun[4]);
            && h5.t == Table([Second], Delivered.t.cursors) && h5.got == Delivered.got && h5.hidden == {}
            && ("a", "m2") in h5.below
  {
    var h3 := Step(Delivered, PurgeRun[2]);
    var gone := First.(status := Deleted);
    assert h3.t.rows == [gone];
    var h4 := Step(h3, PurgeRun[3]);
    assert [gone][1..] == [] && Purges(gone, Some(Deleted), None, None);
    assert Unpurged([gone], Some(Deleted), None, None) == [];
    assert PurgeRun[3] == Purge(Some(Deleted), None, None);
    BelowIs(Bare.t, "m2", "global:chat", "a");
  }

  lemma RunsFive(h1: History, h2: History, h3: History, h4: History, h5: History)
    requires h1 == Step(Empty, PurgeRun[0]) && h2 == Step(h1, PurgeRun[1]) && h3 == Step(h2, PurgeRun[2])
    requires h4 == Step(h3, PurgeRun[3]) && h5 == Step(h4, PurgeRun[4])
    requires h4.used == {"m1"}
    ensures Runs(Empty, PurgeRun) && AfterRun(Empty, PurgeRun) == h5
  {
    assert PurgeRun[1..][0] == PurgeRun[1] && PurgeRun[1..][1..] == PurgeRun[2..];
    assert PurgeRun[2..][1..] == PurgeRun[3..] && PurgeRun[3..][1..] == PurgeRun[4..] && PurgeRun[4..][1..] == [];
    assert Runs(h4, PurgeRun[4..]) && AfterRun(h4, PurgeRun[4..]) == h5;
    assert Runs(h3, PurgeRun[3..]) && AfterRun(h3, PurgeRun[3..]) == h5;
    assert Runs(h2, PurgeRun[2..]) && AfterRun(h2, PurgeRun[2..]) == h5;
    assert Runs(h1, PurgeRun[1..]) && AfterRun(h1, PurgeRun[1..]) == h5;
  }
}
