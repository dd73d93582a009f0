/** The message table and the read cursors of the bus, as values: what each operation does
  * to them.  `Bus` is the class whose methods carry the operations out. */
module BusModel {
  import opened Options

  datatype Status = Active | Archived | Deleted

  /** `num` is the row's `seq`; `ts` any ordered time stamp. */
  datatype Row = Row(num: nat, id: string, channel: string, ts: int, body: string, status: Status)

  type Cursors = map<(string, string), nat>

  datatype Table = Table(rows: seq<Row>, cursors: Cursors)

  /** Rows are kept in the order of their numbers. */
  predicate Ordered(rows: seq<Row>) {
    forall i, j | 0 <= i < j < |rows| :: rows[i].num < rows[j].num
  }

  predicate Matches(pattern: string, channel: string) {
    if pattern == "*" || pattern == "" then true
    else if pattern[|pattern| - 1] == '*' then pattern[..|pattern| - 1] <= channel
    else if pattern[|pattern| - 1] == ':' then pattern <= channel
    else channel == pattern
  }

  predicate Wanted(patterns: seq<string>, channel: string) {
    exists p | p in patterns :: Matches(p, channel)
  }

  function Cursor(cursors: Cursors, agent: string, channel: string): nat {
    if (agent, channel) in cursors then cursors[(agent, channel)] else 0
  }

  predicate IsUnread(cursors: Cursors, agent: string, r: Row) {
    r.status == Active && Cursor(cursors, agent, r.channel) < r.num
  }

  function ChannelsOf(rows: seq<Row>): set<string> {
    set r | r in rows :: r.channel
  }

  /** The channels holding an active message that some pattern matches. */
  function Want(rows: seq<Row>, patterns: seq<string>): set<string> {
    set r | r in rows && r.status == Active && Wanted(patterns, r.channel) :: r.channel
  }

  /** The active messages the agent has not seen on the wanted channels, in order. */
  function UnreadOf(rows: seq<Row>, cursors: Cursors, agent: string, want: set<string>): seq<Row> {
    if rows == [] then []
    else if rows[0].channel in want && IsUnread(cursors, agent, rows[0])
    then [rows[0]] + UnreadOf(rows[1..], cursors, agent, want)
    else UnreadOf(rows[1..], cursors, agent, want)
  }

  function Unread(t: Table, agent: string, want: set<string>): seq<Row> {
    UnreadOf(t.rows, t.cursors, agent, want)
  }

  /** `out[:n]`: a negative bound counts from the end. */
  function Capped(out: seq<Row>, n: Option<int>): seq<Row> {
    match n
    case None => out
    case Some(k) =>
      if 0 <= k then (if k <= |out| then out[..k] else out)
      else if -k <= |out| then out[..|out| + k] else []
  }

  /** The number of the last row of channel `c`. */
  function LastNum(rows: seq<Row>, c: string): nat
    requires exists r | r in rows :: r.channel == c
  {
    if rows[|rows| - 1].channel == c then rows[|rows| - 1].num
    else
      assert rows == rows[..|rows| - 1] + [rows[|rows| - 1]];
      LastNum(rows[..|rows| - 1], c)
  }

  function Min(a: nat, b: nat): nat { if a <= b then a else b }

  /** How far the cursor of a channel with unread messages moves. */
  function Advance(unread: seq<Row>, out: seq<Row>, c: string): nat
    requires exists r | r in unread :: r.channel == c
  {
    if out == [] then LastNum(unread, c) else Min(LastNum(unread, c), out[|out| - 1].num)
  }

  /** The upsert of one cursor: it only ever moves forward. */
  function MovedTo(cursors: Cursors, agent: string, c: string, to: nat): nat {
    if (agent, c) in cursors && to <= cursors[(agent, c)] then cursors[(agent, c)] else to
  }

  /** The cursors once those of the channels `moved` have advanced. */
  function CursorsAfter(cursors: Cursors, agent: string, moved: set<string>, unread: seq<Row>, out: seq<Row>): Cursors
    requires moved <= ChannelsOf(unread)
  {
    map k | k in cursors.Keys + set c | c in moved :: (agent, c) ::
      if k.0 == agent && k.1 in moved then MovedTo(cursors, agent, k.1, Advance(unread, out, k.1)) else cursors[k]
  }

  function ReadCursors(t: Table, agent: string, want: set<string>, n: Option<int>): Cursors {
    var unread := Unread(t, agent, want);
    CursorsAfter(t.cursors, agent, ChannelsOf(unread), unread, Capped(unread, n))
  }

  function ReadOut(t: Table, agent: string, want: set<string>, n: Option<int>): seq<Row> {
    Capped(Unread(t, agent, want), n)
  }

  function AfterRead(t: Table, agent: string, want: set<string>, n: Option<int>): Table {
    t.(cursors := ReadCursors(t, agent, want, n))
  }

  /** The number SQLite gives the next row: one more than the largest in the table. */
  function NextNum(rows: seq<Row>): nat {
    if rows == [] then 1 else rows[|rows| - 1].num + 1
  }

  function AfterPublish(t: Table, id: string, channel: string, ts: int, body: string): Table {
    t.(rows := t.rows + [Row(NextNum(t.rows), id, channel, ts, body, Active)])
  }

  function SetStatus(rows: seq<Row>, pick: Row -> bool, to: Status): (r: seq<Row>)
    ensures |r| == |rows|
    ensures forall i | 0 <= i < |rows| :: r[i] == if pick(rows[i]) then rows[i].(status := to) else rows[i]
  {
    if rows == [] then []
    else [if pick(rows[0]) then rows[0].(status := to) else rows[0]] + SetStatus(rows[1..], pick, to)
  }

  predicate Picks(r: Row, id: Option<string>, channel: Option<string>, before: Option<int>) {
    && (id.Some? && id.value != "" ==> r.id == id.value)
    && (channel.Some? && channel.value != "" ==> r.channel == channel.value)
    && (before.Some? ==> r.ts < before.value)
  }

  function AfterDelete(t: Table, id: string): Table {
    t.(rows := SetStatus(t.rows, (r: Row) => r.id == id && r.status != Deleted, Deleted))
  }

  function AfterArchive(t: Table, id: Option<string>, channel: Option<string>, before: Option<int>): Table {
    if (id == None || id == Some("")) && (channel == None || channel == Some("")) then t
    else t.(rows := SetStatus(t.rows, (r: Row) => r.status == Active && Picks(r, id, channel, before), Archived))
  }

  function AfterUnarchive(t: Table, id: string): Table {
    t.(rows := SetStatus(t.rows, (r: Row) => r.id == id && r.status == Archived, Active))
  }

  /** `status` absent stands for `status='all'`. */
  predicate Purges(r: Row, status: Option<Status>, channel: Option<string>, before: Option<int>) {
    (status.Some? ==> r.status == status.value) && Picks(r, None, channel, before)
  }

  function Unpurged(rows: seq<Row>, status: Option<Status>, channel: Option<string>, before: Option<int>): seq<Row> {
    if rows == [] then []
    else if Purges(rows[0], status, channel, before) then Unpurged(rows[1..], status, channel, before)
    else [rows[0]] + Unpurged(rows[1..], status, channel, before)
  }

  function AfterPurge(t: Table, status: Option<Status>, channel: Option<string>, before: Option<int>): Table {
    t.(rows := Unpurged(t.rows, status, channel, before))
  }

  // ----- what a read returns and leaves unread -----------------------------------------

  lemma OrderedCons(x: Row, rest: seq<Row>)
    requires Ordered(rest) && forall r | r in rest :: x.num < r.num
    ensures Ordered([x] + rest)
  {
  }

  lemma OrderedTail(rows: seq<Row>)
    requires Ordered(rows) && rows != []
    ensures Ordered(rows[1..]) && forall r | r in rows[1..] :: rows[0].num < r.num
  {
  }

  lemma {:induction false} UnreadOfIs(rows: seq<Row>, cursors: Cursors, agent: string, want: set<string>)
    requires Ordered(rows)
    ensures var u := UnreadOf(rows, cursors, agent, want);
            && Ordered(u)
            && forall r :: r in u <==> r in rows && r.channel in want && IsUnread(cursors, agent, r)
  {
    if rows != [] {
      OrderedTail(rows);
      UnreadOfIs(rows[1..], cursors, agent, want);
      OrderedCons(rows[0], UnreadOf(rows[1..], cursors, agent, want));
      assert rows == [rows[0]] + rows[1..];
    }
  }

  /** Read with patterns, the unread messages are those of every matching channel. */
  lemma UnreadMatches(t: Table, agent: string, patterns: seq<string>, r: Row)
    requires Ordered(t.rows)
    ensures r in Unread(t, agent, Want(t.rows, patterns)) <==> ToRead(t, agent, patterns, r)
  {
    UnreadOfIs(t.rows, t.cursors, agent, Want(t.rows, patterns));
    forall p | p in patterns ensures Matches(p, r.channel) <==> Accepts(p, r.channel) {
      MatchesIs(p, r.channel);
    }
  }

  /** What a pattern stands for: every channel; with a star or a colon at its end, what goes on from
    * there; else itself. */
  ghost predicate Accepts(pattern: string, channel: string) {
    || pattern == ""
    || (exists start, rest :: pattern == start + "*" && channel == start + rest)
    || (exists start, rest :: pattern == start + ":" && channel == start + ":" + rest)
    || pattern == channel
  }

  /** An active message above the agent's cursor, on a channel that one of the patterns stands for. */
  ghost predicate ToRead(t: Table, agent: string, patterns: seq<string>, r: Row) {
    && r in t.rows && r.status == Active
    && (exists p :: p in patterns && Accepts(p, r.channel))
    && (if (agent, r.channel) in t.cursors then t.cursors[(agent, r.channel)] < r.num else 0 < r.num)
  }

  lemma MatchesIs(pattern: string, channel: string)
    ensures Matches(pattern, channel) <==> Accepts(pattern, channel)
  {
    if pattern != "" {
      var start := pattern[..|pattern| - 1];
      assert pattern == start + [pattern[|pattern| - 1]];
      if Matches(pattern, channel) {
        if pattern[|pattern| - 1] == '*' {
          assert pattern == start + "*" && channel == start + channel[|start|..];
        } else if pattern[|pattern| - 1] == ':' {
          assert pattern == start + ":" && channel == start + ":" + channel[|pattern|..];
        }
      }
      if s, rest :| pattern == s + "*" && channel == s + rest {
        assert pattern[|s|] == '*' && s == start;
      }
      if s, rest :| pattern == s + ":" && channel == s + ":" + rest {
        assert pattern[|s|] == ':' && s == start && pattern <= channel;
      }
    }
  }

  lemma {:induction false} LastNumIs(rows: seq<Row>, c: string)
    requires Ordered(rows) && exists r | r in rows :: r.channel == c
    ensures exists r | r in rows :: r.channel == c && r.num == LastNum(rows, c)
    ensures forall r | r in rows && r.channel == c :: r.num <= LastNum(rows, c)
  {
    var last := rows[|rows| - 1];
    assert rows == rows[..|rows| - 1] + [last];
    if last.channel != c {
      LastNumIs(rows[..|rows| - 1], c);
    }
  }

  /** Two lists in number order with the same members are the same list. */
  lemma {:induction false} OrderedUnique(a: seq<Row>, b: seq<Row>)
    requires Ordered(a) && Ordered(b)
    requires forall r :: r in a <==> r in b
    ensures a == b
  {
    assert b != [] ==> b[0] in b;
    if a != [] {
      assert a[0] in b && b != [] && b[0] in a;
      assert a[0] == b[0];
      forall r ensures r in a[1..] <==> r in b[1..] {
        assert r in a[1..] <==> r in a && r != a[0];
        assert r in b[1..] <==> r in b && r != b[0];
      }
      OrderedUnique(a[1..], b[1..]);
      assert a == [a[0]] + a[1..] && b == [b[0]] + b[1..];
    }
  }

  /** The cursor a read leaves behind. */
  lemma ReadCursorIs(t: Table, agent: string, want: set<string>, n: Option<int>, a: string, c: string)
    ensures var u := Unread(t, agent, want);
            Cursor(ReadCursors(t, agent, want, n), a, c) ==
              if a == agent && c in ChannelsOf(u)
              then MovedTo(t.cursors, agent, c, Advance(u, Capped(u, n), c))
              else Cursor(t.cursors, a, c)
  {
  }

  /** A prefix of an ordered list holds its members up to the number of the last one. */
  lemma CapIs(u: seq<Row>, out: seq<Row>, r: Row)
    requires Ordered(u) && out <= u && out != [] && r in u
    ensures r in out <==> r.num <= out[|out| - 1].num
  {
    var i :| 0 <= i < |u| && u[i] == r;
    assert forall k | 0 <= k < |out| :: out[k] == u[k];
    if r in out {
      var j :| 0 <= j < |out| && out[j] == r;
      assert u[j] == r;
    }
  }

  /** Among the unread messages of a channel, the returned ones are those the new cursor passes. */
  lemma AdvanceSplits(u: seq<Row>, out: seq<Row>, r: Row)
    requires Ordered(u) && out <= u && out != [] && r in u
    ensures r in out <==> r.num <= Advance(u, out, r.channel)
  {
    LastNumIs(u, r.channel);
    CapIs(u, out, r);
  }

  /** How many of `k` messages a cap lets through; a negative one leaves so many behind. */
  function Let(n: Option<int>, k: nat): nat {
    if n.None? then k else if n.value < 0 then (if -n.value < k then k + n.value else 0) else if n.value < k then n.value else k
  }

  /** A read returns the lowest-numbered unread messages over all matching channels, as many as the
    * cap lets through, in the order of their numbers. */
  lemma ReadReturnsLowest(t: Table, agent: string, want: set<string>, n: Option<int>)
    requires Ordered(t.rows)
    ensures var u := Unread(t, agent, want); var out := ReadOut(t, agent, want, n);
            && out <= u && |out| == Let(n, |u|) && Ordered(out)
            && forall r, q | r in out && q in u && q !in out :: r.num < q.num
  {
    var u := Unread(t, agent, want);
    var out := ReadOut(t, agent, want, n);
    UnreadOfIs(t.rows, t.cursors, agent, want);
    forall r, q | r in out && q in u && q !in out ensures r.num < q.num {
      assert out <= u && r in u;
      CapIs(u, out, r);
      CapIs(u, out, q);
    }
  }

  lemma ReadLeavesTheRest(t: Table, agent: string, want: set<string>, n: Option<int>, r: Row)
    requires Ordered(t.rows) && r in t.rows
    requires (n.Some? ==> 1 <= n.value) || ReadOut(t, agent, want, n) != []
    ensures var t' := AfterRead(t, agent, want, n);
            IsUnread(t'.cursors, agent, r) <==> IsUnread(t.cursors, agent, r) && r !in ReadOut(t, agent, want, n)
  {
    var u := Unread(t, agent, want);
    var out := ReadOut(t, agent, want, n);
    UnreadOfIs(t.rows, t.cursors, agent, want);
    ReadCursorIs(t, agent, want, n, agent, r.channel);
    assert out <= u && (u != [] ==> out != []);
    if r in u {
      PassesReturned(t.cursors, AfterRead(t, agent, want, n).cursors, agent, u, out, r);
    }
  }

  lemma PassesReturned(cursors: Cursors, cursors': Cursors, agent: string, u: seq<Row>, out: seq<Row>, r: Row)
    requires Ordered(u) && out <= u && out != [] && r in u && IsUnread(cursors, agent, r)
    requires Cursor(cursors', agent, r.channel) == MovedTo(cursors, agent, r.channel, Advance(u, out, r.channel))
    ensures IsUnread(cursors', agent, r) <==> r !in out
  {
    AdvanceSplits(u, out, r);
  }

  predicate LeavesTheRest(t: Table, agent: string, want: set<string>, n: Option<int>) {
    forall r | r in t.rows ::
      IsUnread(AfterRead(t, agent, want, n).cursors, agent, r)
      <==> IsUnread(t.cursors, agent, r) && r !in ReadOut(t, agent, want, n)
  }

  /** Whatever the cap: a read leaves what it does not return unread if and only if there was nothing
    * unread or the cap leaves something to return. */
  lemma LeavesTheRestIff(t: Table, agent: string, want: set<string>, n: Option<int>)
    requires Ordered(t.rows)
    ensures LeavesTheRest(t, agent, want, n)
            <==> Unread(t, agent, want) == [] || n == None || 1 <= n.value || (n.value < 0 && -n.value < |Unread(t, agent, want)|)
  {
    var u, out := Unread(t, agent, want), ReadOut(t, agent, want, n);
    assert out != [] <==> u != [] && (n == None || 1 <= n.value || (n.value < 0 && -n.value < |u|));
    UnreadOfIs(t.rows, t.cursors, agent, want);
    if out != [] {
      forall r | r in t.rows
        ensures IsUnread(AfterRead(t, agent, want, n).cursors, agent, r) <==> IsUnread(t.cursors, agent, r) && r !in out {
        ReadLeavesTheRest(t, agent, want, n, r);
      }
    } else if u == [] {
      NothingUnread(t, agent, want, n);
    } else {
      var r := u[0];
      assert r in u;
      ReadCursorIs(t, agent, want, n, agent, r.channel);
      LastNumIs(u, r.channel);
      assert !IsUnread(AfterRead(t, agent, want, n).cursors, agent, r);
    }
  }

  lemma NothingUnread(t: Table, agent: string, want: set<string>, n: Option<int>)
    requires Unread(t, agent, want) == []
    ensures LeavesTheRest(t, agent, want, n)
  {
    forall r | r in t.rows
      ensures IsUnread(AfterRead(t, agent, want, n).cursors, agent, r) <==> IsUnread(t.cursors, agent, r) {
      ReadCursorIs(t, agent, want, n, agent, r.channel);
    }
  }

  /** A read moves no other agent's cursor, and its own only forward. */
  lemma ReadMovesForward(t: Table, agent: string, want: set<string>, n: Option<int>, a: string, c: string)
    ensures var t' := AfterRead(t, agent, want, n);
            && Cursor(t.cursors, a, c) <= Cursor(t'.cursors, a, c)
            && (a != agent ==> Cursor(t.cursors, a, c) == Cursor(t'.cursors, a, c))
  {
    ReadCursorIs(t, agent, want, n, a, c);
  }

  /** A row returned by any read, whatever its cap, is at or below the cursor afterwards. */
  lemma ReadPassesReturned(t: Table, agent: string, want: set<string>, n: Option<int>, r: Row)
    requires Ordered(t.rows) && r in ReadOut(t, agent, want, n)
    ensures r in t.rows && IsUnread(t.cursors, agent, r)
    ensures r.num <= Cursor(AfterRead(t, agent, want, n).cursors, agent, r.channel)
  {
    var u := Unread(t, agent, want);
    UnreadOfIs(t.rows, t.cursors, agent, want);
    AdvancePasses(u, ReadOut(t, agent, want, n), r);
    ReadCursorIs(t, agent, want, n, agent, r.channel);
  }

  lemma AdvancePasses(u: seq<Row>, out: seq<Row>, r: Row)
    requires Ordered(u) && out <= u && r in out
    ensures r in u && r.channel in ChannelsOf(u) && r.num <= Advance(u, out, r.channel)
  {
    assert r in u;
    AdvanceSplits(u, out, r);
  }

  lemma NumBelowNext(rows: seq<Row>, r: Row)
    requires Ordered(rows) && r in rows
    ensures r.num < NextNum(rows)
  {
    var i :| 0 <= i < |rows| && rows[i] == r;
  }

  lemma AdvanceBelowNext(t: Table, agent: string, want: set<string>, out: seq<Row>, c: string)
    requires Ordered(t.rows) && c in ChannelsOf(Unread(t, agent, want))
    ensures Advance(Unread(t, agent, want), out, c) < NextNum(t.rows)
  {
    var u := Unread(t, agent, want);
    UnreadOfIs(t.rows, t.cursors, agent, want);
    LastNumIs(u, c);
    var r :| r in u && r.channel == c && r.num == LastNum(u, c);
    NumBelowNext(t.rows, r);
  }

  /** A read never moves a cursor past the largest number in the table. */
  lemma ReadStaysBelow(t: Table, agent: string, want: set<string>, n: Option<int>, a: string, c: string)
    requires Ordered(t.rows) && Cursor(t.cursors, a, c) < NextNum(t.rows)
    ensures Cursor(AfterRead(t, agent, want, n).cursors, a, c) < NextNum(t.rows)
  {
    ReadCursorIs(t, agent, want, n, a, c);
    if a == agent && c in ChannelsOf(Unread(t, agent, want)) {
      AdvanceBelowNext(t, agent, want, ReadOut(t, agent, want, n), c);
    }
  }

  // ----- status changes and purges -----------------------------------------------------

  predicate SamePlace(r: Row, q: Row) {
    r.num == q.num && r.id == q.id && r.channel == q.channel
  }

  predicate SamePlaces(rows: seq<Row>, rows': seq<Row>) {
    |rows| == |rows'| && forall i | 0 <= i < |rows| :: SamePlace(rows'[i], rows[i])
  }

  lemma PlacesKeepOrder(rows: seq<Row>, rows': seq<Row>)
    requires Ordered(rows) && SamePlaces(rows, rows')
    ensures Ordered(rows') && NextNum(rows') == NextNum(rows)
  {
    assert rows != [] ==> SamePlace(rows'[|rows| - 1], rows[|rows| - 1]);
    forall i, j | 0 <= i < j < |rows| ensures rows'[i].num < rows'[j].num {
      assert SamePlace(rows'[i], rows[i]) && SamePlace(rows'[j], rows[j]);
    }
  }

  lemma SetStatusKeeps(rows: seq<Row>, pick: Row -> bool, to: Status)
    ensures SamePlaces(rows, SetStatus(rows, pick, to))
  {
  }

  lemma {:induction false} UnpurgedIs(rows: seq<Row>, status: Option<Status>, on: Option<string>, before: Option<int>)
    ensures var rows' := Unpurged(rows, status, on, before);
            && (forall r :: r in rows' <==> r in rows && !Purges(r, status, on, before))
            && (Ordered(rows) ==> Ordered(rows'))
  {
    if rows != [] {
      UnpurgedIs(rows[1..], status, on, before);
      if Ordered(rows) {
        OrderedTail(rows);
        OrderedCons(rows[0], Unpurged(rows[1..], status, on, before));
      }
      assert rows == [rows[0]] + rows[1..];
    }
  }

  // ----- counting ----------------------------------------------------------------------

  function CountIn(rows: seq<Row>, c: string): nat {
    if rows == [] then 0 else (if rows[0].channel == c then 1 else 0) + CountIn(rows[1..], c)
  }

  lemma {:induction false} CountInAppend(a: seq<Row>, b: seq<Row>, c: string)
    ensures CountIn(a + b, c) == CountIn(a, c) + CountIn(b, c)
  {
    if a == [] {
      assert a + b == b;
    } else {
      CountInAppend(a[1..], b, c);
      assert (a + b)[1..] == a[1..] + b;
    }
  }

  lemma RowFirst(r: Row, a: seq<Row>, b: seq<Row>)
    ensures [r] + (a + b) == [r] + a + b
  {
  }

  lemma {:induction false} UnreadAppend(a: seq<Row>, b: seq<Row>, cursors: Cursors, agent: string, want: set<string>)
    ensures UnreadOf(a + b, cursors, agent, want) == UnreadOf(a, cursors, agent, want) + UnreadOf(b, cursors, agent, want)
  {
    if a == [] {
      assert a + b == b;
    } else {
      var rest := UnreadOf(a[1..], cursors, agent, want);
      UnreadAppend(a[1..], b, cursors, agent, want);
      assert (a + b)[1..] == a[1..] + b && (a + b)[0] == a[0];
      RowFirst(a[0], rest, UnreadOf(b, cursors, agent, want));
    }
  }
}
