/** The message bus as the object the code keeps: the two tables, updated by its methods. */
module Bus {
  import opened Options
  import opened BusModel

  /** What a read returns, message by message: in order, those to read, up to the cap the first ones. */
  ghost predicate Returns(t: Table, agent: string, patterns: seq<string>, n: Option<int>, out: seq<Row>) {
    && Ordered(out) && (forall r | r in out :: ToRead(t, agent, patterns, r))
    && (n == None ==> forall r | ToRead(t, agent, patterns, r) :: r in out)
    && (n.Some? && 0 <= n.value ==>
          |out| <= n.value && forall r | ToRead(t, agent, patterns, r) && r !in out ::
            |out| == n.value && forall q | q in out :: q.num < r.num)
  }

  lemma ReadIs(t: Table, agent: string, patterns: seq<string>, n: Option<int>)
    requires Ordered(t.rows)
    ensures Returns(t, agent, patterns, n, ReadOut(t, agent, Want(t.rows, patterns), n))
  {
    var want := Want(t.rows, patterns);
    var u, out := Unread(t, agent, want), ReadOut(t, agent, want, n);
    ReadReturnsLowest(t, agent, want, n);
    forall r ensures r in u <==> ToRead(t, agent, patterns, r) {
      UnreadMatches(t, agent, patterns, r);
    }
    assert forall r | r in out :: r in u;
    if |out| == |u| {
      assert out == u;
    }
  }

  predicate DistinctNums(rows: seq<Row>) {
    forall i, j | 0 <= i < j < |rows| :: rows[i].num != rows[j].num
  }

  /** `out.sort(key=seq)` for rows with distinct numbers. */
  method SortByNum(rows: seq<Row>) returns (sorted: seq<Row>)
    requires DistinctNums(rows)
    ensures Ordered(sorted) && forall r :: r in sorted <==> r in rows
  {
    sorted := [];
    var i := 0;
    while i < |rows|
      invariant i <= |rows| && Ordered(sorted)
      invariant forall r :: r in sorted <==> r in rows[..i]
    {
      var k := 0;
      while k < |sorted| && sorted[k].num < rows[i].num
        invariant k <= |sorted|
        invariant forall j | 0 <= j < k :: sorted[j].num < rows[i].num
      {
        k := k + 1;
      }
      InsertKeeps(sorted, k, rows[i]) by {
        assert forall r | r in sorted :: r.num != rows[i].num;
      }
      sorted := Inserted(sorted, k, rows[i]);
      assert rows[..i + 1] == rows[..i] + [rows[i]];
      i := i + 1;
    }
    assert rows[..i] == rows;
  }

  function Inserted(s: seq<Row>, k: nat, x: Row): (r: seq<Row>)
    requires k <= |s|
    ensures |r| == |s| + 1
    ensures forall i | 0 <= i < |r| :: r[i] == if i < k then s[i] else if i == k then x else s[i - 1]
  {
    s[..k] + [x] + s[k..]
  }

  lemma InsertedMembers(s: seq<Row>, k: nat, x: Row)
    requires k <= |s|
    ensures forall r :: r in Inserted(s, k, x) <==> r in s || r == x
  {
    var t := Inserted(s, k, x);
    forall r ensures r in t <==> r in s || r == x {
      if r in s {
        var i :| 0 <= i < |s| && s[i] == r;
        assert t[if i < k then i else i + 1] == r;
      }
      assert t[k] == x;
    }
  }

  lemma InsertKeeps(s: seq<Row>, k: nat, x: Row)
    requires Ordered(s) && k <= |s|
    requires forall j | 0 <= j < k :: s[j].num < x.num
    requires k < |s| ==> x.num <= s[k].num
    requires forall r | r in s :: r.num != x.num
    ensures Ordered(Inserted(s, k, x))
    ensures forall r :: r in Inserted(s, k, x) <==> r in s || r == x
  {
    InsertedMembers(s, k, x);
    assert k < |s| ==> s[k] in s;
    var t := Inserted(s, k, x);
    forall i, j | 0 <= i < j < |t| ensures t[i].num < t[j].num {
      assert j > k ==> s[k].num <= s[j - 1].num;
    }
  }

  class Bus {
    var rows: seq<Row>
    var cursors: Cursors

    function View(): Table
      reads this
    {
      Table(rows, cursors)
    }

    predicate Valid()
      reads this
    {
      Ordered(rows)
    }

    constructor ()
      ensures Valid() && View() == Table([], map[])
    {
      rows, cursors := [], map[];
    }

    method Publish(id: string, channel: string, ts: int, body: string) returns (msg: Row)
      requires Valid()
      modifies this`rows
      ensures Valid() && View() == AfterPublish(old(View()), id, channel, ts, body)
      ensures rows == old(rows) + [msg] && msg == Row(msg.num, id, channel, ts, body, Active)
      ensures forall r | r in old(rows) :: r.num < msg.num
      ensures if old(rows) == [] then msg.num == 1 else exists r :: r in old(rows) && msg.num == r.num + 1
    {
      assert rows != [] ==> rows[|rows| - 1] in rows;
      forall r | r in rows ensures r.num < NextNum(rows) {
        NumBelowNext(rows, r);
      }
      msg := Row(NextNum(rows), id, channel, ts, body, Active);
      rows := rows + [msg];
    }

    /** The rows of every wanted channel, channel by channel, and each channel's last number. */
    method Gather(agent: string, want: set<string>) returns (out: seq<Row>, last: map<string, nat>)
      requires Valid()
      ensures DistinctNums(out)
      ensures forall r :: r in out <==> r in Unread(View(), agent, want)
      ensures last.Keys == ChannelsOf(Unread(View(), agent, want))
      ensures forall c | c in last :: last[c] == LastNum(Unread(View(), agent, want), c)
    {
      out, last := [], map[];
      var left := want;
      ghost var u := Unread(View(), agent, want);
      UnreadOfIs(rows, cursors, agent, want);
      while left != {}
        invariant left <= want
        invariant DistinctNums(out)
        invariant forall r :: r in out <==> r in u && r.channel !in left
        invariant last.Keys == ChannelsOf(u) - left
        invariant forall c | c in last :: last[c] == LastNum(u, c)
        decreases left
      {
        var c :| c in left;
        var found := UnreadOf(rows, cursors, agent, {c});
        UnreadOfIs(rows, cursors, agent, {c});
        assert forall r | r in u && r.channel == c :: r in found;
        if found != [] {
          FoundIs(u, found, c);
          JoinDistinct(out, found, rows);
          out := out + found;
          last := last[c := found[|found| - 1].num];
        }
        left := left - {c};
      }
    }

    /** The upserts of one read: each listed channel's cursor moves to its advance. */
    method AdvanceCursors(agent: string, last: map<string, nat>, ghost u: seq<Row>, out: seq<Row>)
      requires last.Keys == ChannelsOf(u) && forall c | c in last :: last[c] == LastNum(u, c)
      modifies this`cursors
      ensures cursors == CursorsAfter(old(cursors), agent, ChannelsOf(u), u, out)
    {
      ghost var was := cursors;
      var left := last.Keys;
      while left != {}
        invariant left <= last.Keys
        invariant cursors == CursorsAfter(was, agent, last.Keys - left, u, out)
        decreases left
      {
        var c :| c in left;
        var to := if out == [] then last[c] else Min(last[c], out[|out| - 1].num);
        CursorsStep(was, agent, last.Keys - left, c, u, out);
        assert last.Keys - (left - {c}) == (last.Keys - left) + {c};
        if (agent, c) !in cursors || cursors[(agent, c)] < to {
          cursors := cursors[(agent, c) := to];
        }
        left := left - {c};
      }
      assert last.Keys - {} == ChannelsOf(u);
    }

    method Read(agent: string, patterns: seq<string>, peek: bool, n: Option<int>) returns (out: seq<Row>)
      requires Valid()
      modifies this`cursors
      ensures Valid() && out == ReadOut(old(View()), agent, Want(rows, patterns), n)
      ensures View() == if peek then old(View()) else AfterRead(old(View()), agent, Want(rows, patterns), n)
      ensures Returns(old(View()), agent, patterns, n, out)
    {
      ReadIs(View(), agent, patterns, n);
      var want := Want(rows, patterns);
      var all, last := Gather(agent, want);
      var sorted := SortByNum(all);
      ghost var u := Unread(View(), agent, want);
      UnreadOfIs(rows, cursors, agent, want);
      OrderedUnique(sorted, u);
      out := Capped(sorted, n);
      if !peek && last != map[] {
        AdvanceCursors(agent, last, u, out);
      } else if !peek {
        assert last.Keys == {};
      }
    }

    method MarkRead(agent: string, channel: string, upto: Option<nat>) returns (lastSeq: nat)
      requires Valid()
      modifies this`cursors
      ensures Valid() && rows == old(rows) && cursors == old(cursors)[(agent, channel) := lastSeq]
      ensures upto.Some? ==> lastSeq == upto.value
      ensures upto == None ==> forall r | r in rows && r.channel == channel && r.status == Active :: r.num <= lastSeq
      ensures upto == None && lastSeq != 0 ==>
                exists r | r in rows :: r.channel == channel && r.status == Active && r.num == lastSeq
    {
      lastSeq := 0;
      if upto.Some? {
        lastSeq := upto.value;
      } else {
        var i := 0;
        while i < |rows|
          invariant i <= |rows|
          invariant forall r | r in rows[..i] && r.channel == channel && r.status == Active :: r.num <= lastSeq
          invariant lastSeq != 0 ==>
                      exists r | r in rows :: r.channel == channel && r.status == Active && r.num == lastSeq
        {
          if rows[i].channel == channel && rows[i].status == Active && lastSeq < rows[i].num {
            assert rows[i] in rows;
            lastSeq := rows[i].num;
          }
          assert rows[..i + 1] == rows[..i] + [rows[i]];
          i := i + 1;
        }
        assert rows[..i] == rows;
      }
      cursors := cursors[(agent, channel) := lastSeq];
    }

    /** Per channel, how many rows an uncapped peek would return. */
    method UnreadCount(agent: string, patterns: seq<string>) returns (counts: map<string, nat>)
      requires Valid()
      ensures var pats := if patterns == [] then ["*"] else patterns;
              && Counted(counts, ReadOut(View(), agent, Want(rows, pats), None))
              && forall c :: (c in counts <==> UnreadAt(View(), agent, pats, c, |rows|) != {})
                             && (c in counts ==> counts[c] == |UnreadAt(View(), agent, pats, c, |rows|)|)
    {
      counts := map[];
      var pats := if patterns == [] then ["*"] else patterns;
      ghost var want := Want(rows, pats);
      var i := 0;
      while i < |rows|
        invariant i <= |rows| && Counted(counts, UnreadOf(rows[..i], cursors, agent, want))
      {
        var r := rows[i];
        assert rows[..i + 1] == rows[..i] + [r];
        UnreadNext(rows[..i], r, cursors, agent, want);
        if r.status == Active && (exists p | p in pats :: Matches(p, r.channel)) {
          assert r.channel in want;
          var seen := if (agent, r.channel) in cursors then cursors[(agent, r.channel)] else 0;
          if seen < r.num {
            CountedMore(counts, UnreadOf(rows[..i], cursors, agent, want), r);
            counts := counts[r.channel := (if r.channel in counts then counts[r.channel] else 0) + 1];
          }
        }
        i := i + 1;
      }
      assert rows[..i] == rows;
      forall c ensures CountIn(Unread(View(), agent, want), c) == |UnreadAt(View(), agent, pats, c, |rows|)| {
        CountedAt(View(), agent, pats, c, |rows|);
      }
    }

    method Delete(id: string) returns (deleted: nat)
      requires Valid()
      modifies this`rows
      ensures Valid() && View() == AfterDelete(old(View()), id)
      ensures |rows| == |old(rows)| && forall i | 0 <= i < |rows| ::
                rows[i] == if old(rows[i]).id == id then old(rows[i]).(status := Deleted) else old(rows[i])
      ensures deleted == |Where(old(rows), (r: Row) => r.id == id && r.status != Deleted)|
    {
      var pick := (r: Row) => r.id == id && r.status != Deleted;
      CountIs(rows, pick);
      var now;
      now, deleted := UpdateRows(rows, pick, Deleted);
      PlacesKeepOrder(rows, now);
      rows := now;
    }

    method Archive(id: Option<string>, channel: Option<string>, before: Option<int>) returns (ok: bool, archived: nat)
      requires Valid()
      modifies this`rows
      ensures Valid() && View() == AfterArchive(old(View()), id, channel, before)
      ensures !ok <==> (id == None || id == Some("")) && (channel == None || channel == Some(""))
      ensures !ok ==> rows == old(rows) && archived == 0
      ensures ok ==> |rows| == |old(rows)| && forall i | 0 <= i < |rows| ::
                rows[i] == if ToArchive(old(rows[i]), id, channel, before)
                           then old(rows[i]).(status := Archived) else old(rows[i])
      ensures ok ==> archived == |Where(old(rows), (r: Row) => ToArchive(r, id, channel, before))|
    {
      if (id == None || id == Some("")) && (channel == None || channel == Some("")) {
        return false, 0;
      }
      archived := ArchivePicked(id, channel, before);
      ok := true;
    }

    method ArchivePicked(id: Option<string>, channel: Option<string>, before: Option<int>) returns (archived: nat)
      requires Valid()
      modifies this`rows
      ensures Valid() && |rows| == |old(rows)|
      ensures rows == SetStatus(old(rows), (r: Row) => r.status == Active && Picks(r, id, channel, before), Archived)
      ensures archived == |Where(old(rows), (r: Row) => ToArchive(r, id, channel, before))|
    {
      var pick := (r: Row) => r.status == Active && Picks(r, id, channel, before);
      CountIs(rows, pick);
      assert Where(rows, pick) == Where(rows, (r: Row) => ToArchive(r, id, channel, before));
      var now;
      now, archived := UpdateRows(rows, pick, Archived);
      PlacesKeepOrder(rows, now);
      rows := now;
    }

    method Unarchive(id: string) returns (restored: nat)
      requires Valid()
      modifies this`rows
      ensures Valid() && View() == AfterUnarchive(old(View()), id)
      ensures |rows| == |old(rows)| && forall i | 0 <= i < |rows| ::
                rows[i] == if old(rows[i]).id == id && old(rows[i]).status == Archived
                           then old(rows[i]).(status := Active) else old(rows[i])
      ensures restored == |Where(old(rows), (r: Row) => r.id == id && r.status == Archived)|
    {
      var pick := (r: Row) => r.id == id && r.status == Archived;
      CountIs(rows, pick);
      var now;
      now, restored := UpdateRows(rows, pick, Active);
      PlacesKeepOrder(rows, now);
      rows := now;
    }

    method Purge(status: Option<Status>, channel: Option<string>, before: Option<int>) returns (purged: nat)
      requires Valid()
      modifies this`rows
      ensures Valid() && View() == AfterPurge(old(View()), status, channel, before)
      ensures forall r :: r in rows <==>
                r in old(rows) && ((status.Some? && r.status != status.value)
                                   || (channel.Some? && channel.value != "" && r.channel != channel.value)
                                   || (before.Some? && before.value <= r.ts))
      ensures |rows| + purged == |old(rows)|
    {
      UnpurgedIs(rows, status, channel, before);
      var kept;
      kept, purged := DeleteRows(rows, status, channel, before);
      rows := kept;
    }
  }

  /** Active, of the id and the channel given, and before the moment given. */
  ghost predicate ToArchive(r: Row, id: Option<string>, channel: Option<string>, before: Option<int>) {
    && r.status == Active && !(id.Some? && id.value != "" && r.id != id.value)
    && !(channel.Some? && channel.value != "" && r.channel != channel.value)
    && !(before.Some? && before.value <= r.ts)
  }

  /** `UPDATE bus_messages SET status=... WHERE ...`, and the number of rows it met. */
  method UpdateRows(was: seq<Row>, pick: Row -> bool, to: Status) returns (rows: seq<Row>, n: nat)
    ensures rows == SetStatus(was, pick, to) && n == CountOf(was, pick)
  {
    rows, n := was, 0;
    for i := 0 to |was|
      invariant |rows| == |was| && n == CountOf(was[..i], pick)
      invariant forall j | 0 <= j < i :: rows[j] == if pick(was[j]) then was[j].(status := to) else was[j]
      invariant forall j | i <= j < |was| :: rows[j] == was[j]
    {
      assert was[..i + 1] == was[..i] + [was[i]];
      CountOneMore(was[..i], was[i], pick);
      if pick(was[i]) {
        rows, n := rows[i := was[i].(status := to)], n + 1;
      }
    }
    assert was[..|was|] == was;
  }

  /** `DELETE FROM bus_messages WHERE ...` */
  method DeleteRows(rows: seq<Row>, status: Option<Status>, channel: Option<string>, before: Option<int>)
    returns (kept: seq<Row>, purged: nat)
    ensures kept == Unpurged(rows, status, channel, before) && |kept| + purged == |rows|
  {
    kept, purged := [], 0;
    assert rows[0..] == rows;
    for i := 0 to |rows|
      invariant kept + Unpurged(rows[i..], status, channel, before) == Unpurged(rows, status, channel, before)
      invariant |kept| + purged == i
    {
      assert rows[i..][1..] == rows[i + 1..];
      if Purges(rows[i], status, channel, before) {
        purged := purged + 1;
      } else {
        RowThenRest(kept, rows[i], Unpurged(rows[i + 1..], status, channel, before));
        kept := kept + [rows[i]];
      }
    }
    assert kept + [] == kept;
  }

  lemma RowThenRest(a: seq<Row>, r: Row, b: seq<Row>)
    ensures a + ([r] + b) == a + [r] + b
  {
  }

  /** How many rows `pick` meets. */
  function CountOf(rows: seq<Row>, pick: Row -> bool): nat {
    if rows == [] then 0 else CountOf(rows[..|rows| - 1], pick) + if pick(rows[|rows| - 1]) then 1 else 0
  }

  lemma CountOneMore(rows: seq<Row>, r: Row, pick: Row -> bool)
    ensures CountOf(rows + [r], pick) == CountOf(rows, pick) + if pick(r) then 1 else 0
  {
    assert (rows + [r])[..|rows|] == rows;
  }

  /** Where `pick` meets a row. */
  ghost function Where(rows: seq<Row>, pick: Row -> bool): set<int> { set i | 0 <= i < |rows| && pick(rows[i]) }

  lemma {:induction false} CountIs(rows: seq<Row>, pick: Row -> bool)
    ensures CountOf(rows, pick) == |Where(rows, pick)|
  {
    if rows != [] {
      var n := |rows| - 1;
      CountIs(rows[..n], pick);
      assert Where(rows, pick) == Where(rows[..n], pick) + if pick(rows[n]) then {n} else {};
    }
  }

  /** Per channel, how many of `u` there are; a channel without any is left out. */
  ghost predicate Counted(counts: map<string, nat>, u: seq<Row>) {
    forall c :: (c in counts <==> 0 < CountIn(u, c)) && (c in counts ==> counts[c] == CountIn(u, c))
  }

  /** Where the messages of a channel stand that the agent has yet to read. */
  ghost function UnreadAt(t: Table, agent: string, patterns: seq<string>, c: string, n: nat): set<int>
    requires n <= |t.rows|
  {
    set i | 0 <= i < n && t.rows[i].channel == c && ToRead(t, agent, patterns, t.rows[i])
  }

  lemma {:induction false} CountedAt(t: Table, agent: string, patterns: seq<string>, c: string, n: nat)
    requires Ordered(t.rows) && n <= |t.rows|
    ensures CountIn(UnreadOf(t.rows[..n], t.cursors, agent, Want(t.rows, patterns)), c) == |UnreadAt(t, agent, patterns, c, n)|
  {
    if n > 0 {
      var r, want := t.rows[n - 1], Want(t.rows, patterns);
      CountedAt(t, agent, patterns, c, n - 1);
      assert t.rows[..n] == t.rows[..n - 1] + [r];
      UnreadNext(t.rows[..n - 1], r, t.cursors, agent, want);
      UnreadMatches(t, agent, patterns, r);
      UnreadOfIs(t.rows, t.cursors, agent, want);
      OneMoreCounted(UnreadOf(t.rows[..n - 1], t.cursors, agent, want), r, c);
      OneMoreAt(t, agent, patterns, c, n - 1);
    }
  }

  lemma OneMoreAt(t: Table, agent: string, patterns: seq<string>, c: string, n: nat)
    requires n < |t.rows|
    ensures |UnreadAt(t, agent, patterns, c, n + 1)|
      == |UnreadAt(t, agent, patterns, c, n)| + if t.rows[n].channel == c && ToRead(t, agent, patterns, t.rows[n]) then 1 else 0
  {
    var rest := UnreadAt(t, agent, patterns, c, n);
    assert UnreadAt(t, agent, patterns, c, n + 1)
        == if t.rows[n].channel == c && ToRead(t, agent, patterns, t.rows[n]) then rest + {n} else rest;
  }

  lemma OneMoreCounted(u: seq<Row>, r: Row, c: string)
    ensures CountIn(u + [r], c) == CountIn(u, c) + if c == r.channel then 1 else 0
  {
    assert [r][1..] == [];
    CountInAppend(u, [r], c);
  }

  lemma CountedMore(counts: map<string, nat>, u: seq<Row>, r: Row)
    requires Counted(counts, u)
    ensures Counted(counts[r.channel := (if r.channel in counts then counts[r.channel] else 0) + 1], u + [r])
  {
    forall c ensures CountIn(u + [r], c) == CountIn(u, c) + if c == r.channel then 1 else 0 {
      OneMoreCounted(u, r, c);
    }
  }

  /** One more row of the table. */
  lemma UnreadNext(before: seq<Row>, r: Row, cursors: Cursors, agent: string, want: set<string>)
    ensures UnreadOf(before + [r], cursors, agent, want)
      == if r.channel in want && IsUnread(cursors, agent, r) then UnreadOf(before, cursors, agent, want) + [r]
         else UnreadOf(before, cursors, agent, want)
  {
    assert [r][1..] == [];
    UnreadAppend(before, [r], cursors, agent, want);
  }

  /** One channel's unread rows are the unread rows of that channel. */
  lemma FoundIs(u: seq<Row>, found: seq<Row>, c: string)
    requires Ordered(u) && Ordered(found) && found != []
    requires forall r :: r in found <==> r in u && r.channel == c
    ensures c in ChannelsOf(u) && found[|found| - 1].num == LastNum(u, c)
  {
    var last := found[|found| - 1];
    assert last in u && last.channel == c;
    LastNumIs(u, c);
    var r :| r in u && r.channel == c && r.num == LastNum(u, c);
    assert r in found;
  }

  lemma JoinDistinct(a: seq<Row>, b: seq<Row>, rows: seq<Row>)
    requires Ordered(rows) && Ordered(b)
    requires DistinctNums(a)
    requires forall r | r in a || r in b :: r in rows
    requires forall r | r in b :: r !in a
    ensures DistinctNums(a + b)
  {
    var s := a + b;
    forall i, j | 0 <= i < j < |s| ensures s[i].num != s[j].num {
      assert s[i] == if i < |a| then a[i] else b[i - |a|];
      assert s[j] == if j < |a| then a[j] else b[j - |a|];
      if i < |a| <= j {
        assert s[i] in a && s[j] in b;
        var p :| 0 <= p < |rows| && rows[p] == s[i];
        var q :| 0 <= q < |rows| && rows[q] == s[j];
        assert p != q;
      }
    }
  }

  lemma CursorsStep(was: Cursors, agent: string, moved: set<string>, c: string, u: seq<Row>, out: seq<Row>)
    requires moved <= ChannelsOf(u) && c in ChannelsOf(u) && c !in moved
    ensures var now := CursorsAfter(was, agent, moved, u, out);
            CursorsAfter(was, agent, moved + {c}, u, out) == now[(agent, c) := MovedTo(now, agent, c, Advance(u, out, c))]
  {
  }
}
