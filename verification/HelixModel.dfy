/** The incremental index of recent touches: what it holds, and when it equals a full rebuild. */
module HelixModel {
  import opened Options
  import opened StableSort

  type Token = string
  type Stem = string

  /** One line of a ring: its timestamp (0 when it has none or does not parse) and normalised refs. */
  datatype Event = Event(ts: real, refs: seq<Token>)
  datatype Ring = Ring(stem: Stem, mtime: int)
  datatype Row = Row(ts: real, stem: Stem, line: nat)
  datatype Index = Index(stamp: map<Stem, int>, touch: map<Token, seq<Row>>)

  /** What a ring held while its modification time had a given value. */
  type Files = (Stem, int) -> seq<Event>

  const KEPT: nat := 8
  const EMPTY := Index(map[], map[])

  function Ts(): Row -> real { (r: Row) => r.ts }

  // ----- what one build computes -------------------------------------------------------

  /** The rows of one line: one for every occurrence of the token. */
  function LineRows(ts: real, stem: Stem, line: nat, refs: seq<Token>, tok: Token): seq<Row> {
    if refs == [] then []
    else
      LineRows(ts, stem, line, refs[..|refs| - 1], tok)
      + if ts != 0.0 && tok != "" && refs[|refs| - 1] == tok then [Row(ts, stem, line)] else []
  }

  function RingRows(stem: Stem, events: seq<Event>, tok: Token): seq<Row> {
    if events == [] then []
    else
      var i := |events| - 1;
      RingRows(stem, events[..i], tok) + LineRows(events[i].ts, stem, i, events[i].refs, tok)
  }

  function Fresh(files: Files, rings: seq<Ring>, tok: Token): seq<Row> {
    if rings == [] then []
    else
      var last := rings[|rings| - 1];
      Fresh(files, rings[..|rings| - 1], tok) + RingRows(last.stem, files(last.stem, last.mtime), tok)
  }

  function Times(rings: seq<Ring>): map<Stem, int> {
    if rings == [] then map[] else Times(rings[..|rings| - 1])[rings[|rings| - 1].stem := rings[|rings| - 1].mtime]
  }

  predicate IsChanged(r: Ring, stamp: map<Stem, int>, force: bool) {
    force || r.stem !in stamp || stamp[r.stem] != r.mtime
  }

  function Changed(rings: seq<Ring>, stamp: map<Stem, int>, force: bool): seq<Ring> {
    if rings == [] then []
    else
      Changed(rings[..|rings| - 1], stamp, force)
      + if IsChanged(rings[|rings| - 1], stamp, force) then [rings[|rings| - 1]] else []
  }

  function Without(rows: seq<Row>, stems: set<Stem>): seq<Row> {
    if rows == [] then [] else (if rows[0].stem in stems then [] else [rows[0]]) + Without(rows[1..], stems)
  }

  function Newest(rows: seq<Row>): seq<Row> {
    if |rows| <= KEPT then rows else rows[|rows| - KEPT..]
  }

  function Get(touch: map<Token, seq<Row>>, tok: Token): seq<Row> {
    if tok in touch then touch[tok] else []
  }

  /** A token's rows after the changed rings have been dropped and parsed again. */
  function NewRows(files: Files, old_: seq<Row>, changed: seq<Ring>, tok: Token): seq<Row> {
    Newest(Sort(Without(old_, Times(changed).Keys) + Fresh(files, changed, tok), Ts()))
  }

  ghost predicate Built(files: Files, cached: Index, rings: seq<Ring>, force: bool, out: Index) {
    var changed := Changed(rings, cached.stamp, force);
    if changed == [] then out == cached
    else
      && out.stamp == cached.stamp + Times(changed)
      && (forall tok :: Get(out.touch, tok) == NewRows(files, Get(cached.touch, tok), changed, tok))
      && (forall tok | tok in out.touch :: out.touch[tok] != [])
  }

  // ----- counting rows -----------------------------------------------------------------

  /** How many rows outside `stems` are no older than `t`. */
  function Count(rows: seq<Row>, stems: set<Stem>, t: real): nat {
    if rows == [] then 0
    else (if rows[0].stem !in stems && rows[0].ts >= t then 1 else 0) + Count(rows[1..], stems, t)
  }

  /** The same over everything the rings of `m` held at the times of `m`. */
  ghost function Total(files: Files, m: map<Stem, int>, tok: Token, t: real): nat {
    if m == map[] then 0
    else
      assert m.Keys != {};
      var s :| s in m.Keys;
      Count(RingRows(s, files(s, m[s]), tok), {}, t) + Total(files, m - {s}, tok, t)
  }

  lemma {:induction false} CountAdds(a: seq<Row>, b: seq<Row>, stems: set<Stem>, t: real)
    ensures Count(a + b, stems, t) == Count(a, stems, t) + Count(b, stems, t)
  {
    if a == [] {
      assert a + b == b;
    } else {
      CountAdds(a[1..], b, stems, t);
      assert (a + b)[1..] == a[1..] + b;
    }
  }

  lemma {:induction false} CountInsert(x: Row, s: seq<Row>, stems: set<Stem>, t: real)
    ensures Count(Insert(x, s, Ts()), stems, t) == Count([x] + s, stems, t)
  {
    assert ([x] + s)[1..] == s;
    if s != [] && x.ts > s[0].ts {
      CountInsert(x, s[1..], stems, t);
      assert ([x] + s[1..])[1..] == s[1..];
      assert ([s[0]] + Insert(x, s[1..], Ts()))[1..] == Insert(x, s[1..], Ts());
    }
  }

  lemma {:induction false} CountSort(s: seq<Row>, stems: set<Stem>, t: real)
    ensures Count(Sort(s, Ts()), stems, t) == Count(s, stems, t)
  {
    if s != [] {
      CountSort(s[1..], stems, t);
      CountInsert(s[0], Sort(s[1..], Ts()), stems, t);
      assert ([s[0]] + Sort(s[1..], Ts()))[1..] == Sort(s[1..], Ts());
    }
  }

  lemma {:induction false} CountWithout(rows: seq<Row>, dirty: set<Stem>, stems: set<Stem>, t: real)
    ensures Count(Without(rows, dirty), stems, t) == Count(rows, dirty + stems, t)
  {
    if rows != [] {
      CountWithout(rows[1..], dirty, stems, t);
      var rest := Without(rows[1..], dirty);
      assert ([rows[0]] + rest)[1..] == rest && [] + rest == rest;
    }
  }

  /** Disjoint exclusions together miss no row. */
  lemma {:induction false} CountCovers(rows: seq<Row>, a: set<Stem>, b: set<Stem>, t: real)
    requires a !! b
    ensures Count(rows, {}, t) <= Count(rows, a, t) + Count(rows, b, t)
  {
    if rows != [] {
      CountCovers(rows[1..], a, b, t);
    }
  }

  lemma {:induction false} CountAtMost(rows: seq<Row>, stems: set<Stem>, t: real)
    ensures Count(rows, stems, t) <= |rows|
  {
    if rows != [] {
      CountAtMost(rows[1..], stems, t);
    }
  }

  lemma {:induction false} CountEvery(rows: seq<Row>, t: real)
    requires forall i | 0 <= i < |rows| :: rows[i].ts >= t
    ensures Count(rows, {}, t) == |rows|
  {
    if rows != [] {
      CountEvery(rows[1..], t);
    }
  }

  function Min(a: nat, b: nat): nat { if a <= b then a else b }

  /** Of an ascending list, the last eight hold min(8, n) of the n rows from any time on. */
  lemma {:induction false} CountNewest(rows: seq<Row>, stems: set<Stem>, t: real)
    requires Rising(rows, Ts())
    ensures Count(Newest(rows), {}, t) == Min(8, Count(rows, {}, t))
    ensures Count(Newest(rows), stems, t) <= Count(rows, stems, t)
  {
    if |rows| <= KEPT {
      CountAtMost(rows, {}, t);
    } else {
      TailRises(rows);
      CountNewest(rows[1..], stems, t);
      assert Newest(rows) == Newest(rows[1..]);
      if rows[0].ts >= t {
        AllFrom(rows, t);
      }
    }
  }

  lemma TailRises(rows: seq<Row>)
    requires rows != [] && Rising(rows, Ts())
    ensures Rising(rows[1..], Ts())
  {
    var rest := rows[1..];
    forall i, j | 0 <= i < j < |rest| ensures Ts()(rest[i]) <= Ts()(rest[j]) {
      assert Ts()(rows[i + 1]) <= Ts()(rows[j + 1]);
    }
  }

  /** Once the oldest row is recent enough, every row is. */
  lemma AllFrom(rows: seq<Row>, t: real)
    requires rows != [] && Rising(rows, Ts()) && rows[0].ts >= t
    ensures Count(rows, {}, t) == |rows| && Count(rows[1..], {}, t) == |rows| - 1
  {
    forall i | 0 <= i < |rows| ensures rows[i].ts >= t {
      assert i > 0 ==> Ts()(rows[0]) <= Ts()(rows[i]);
    }
    CountEvery(rows, t);
    CountEvery(rows[1..], t);
  }

  lemma {:induction false} TotalRemove(files: Files, m: map<Stem, int>, tok: Token, t: real, s: Stem)
    requires s in m
    ensures Total(files, m, tok, t) == Count(RingRows(s, files(s, m[s]), tok), {}, t) + Total(files, m - {s}, tok, t)
    decreases |m|
  {
    var q :| q in m.Keys && Total(files, m, tok, t)
      == Count(RingRows(q, files(q, m[q]), tok), {}, t) + Total(files, m - {q}, tok, t);
    if q != s {
      Smaller(m, q);
      Smaller(m, s);
      TotalRemove(files, m - {q}, tok, t, s);
      TotalRemove(files, m - {s}, tok, t, q);
      assert m - {q} - {s} == m - {s} - {q};
    }
  }

  lemma Smaller(m: map<Stem, int>, s: Stem)
    requires s in m
    ensures |m - {s}| < |m|
  {
    assert (m - {s}).Keys == m.Keys - {s};
    assert |m.Keys - {s}| == |m.Keys| - 1;
  }

  lemma SplitOff(a: map<Stem, int>, b: map<Stem, int>, s: Stem)
    requires a.Keys !! b.Keys && s in a
    ensures (a - {s}).Keys !! b.Keys && (a + b) - {s} == (a - {s}) + b && (a + b)[s] == a[s]
  {
  }

  lemma {:induction false} TotalSplit(files: Files, a: map<Stem, int>, b: map<Stem, int>, tok: Token, t: real)
    requires a.Keys !! b.Keys
    ensures Total(files, a + b, tok, t) == Total(files, a, tok, t) + Total(files, b, tok, t)
    decreases |a|
  {
    if a == map[] {
      assert a + b == b;
    } else {
      assert a.Keys != {};
      var s :| s in a.Keys;
      Smaller(a, s);
      SplitOff(a, b, s);
      TotalSplit(files, a - {s}, b, tok, t);
      TotalRemove(files, a, tok, t, s);
      TotalRemove(files, a + b, tok, t, s);
    }
  }

  /** Rings only grow. */
  ghost predicate Behind(files: Files, m: map<Stem, int>, later: map<Stem, int>) {
    forall s | s in m :: s in later && files(s, m[s]) <= files(s, later[s])
  }

  lemma {:induction false} RowsGrow(stem: Stem, a: seq<Event>, b: seq<Event>, tok: Token)
    requires a <= b
    ensures RingRows(stem, a, tok) <= RingRows(stem, b, tok)
    decreases |b|
  {
    if |a| < |b| {
      RowsGrow(stem, a, b[..|b| - 1], tok);
    } else {
      assert a == b;
    }
  }

  lemma CountPrefix(a: seq<Row>, b: seq<Row>, stems: set<Stem>, t: real)
    requires a <= b
    ensures Count(a, stems, t) <= Count(b, stems, t)
  {
    assert b == a + b[|a|..];
    CountAdds(a, b[|a|..], stems, t);
  }

  lemma {:induction false} TotalGrows(files: Files, m: map<Stem, int>, later: map<Stem, int>, tok: Token, t: real)
    requires Behind(files, m, later)
    ensures Total(files, m, tok, t) <= Total(files, later, tok, t)
    decreases |m|
  {
    if m != map[] {
      assert m.Keys != {};
      var s :| s in m.Keys;
      Smaller(m, s);
      TotalGrows(files, m - {s}, later - {s}, tok, t);
      TotalRemove(files, m, tok, t, s);
      TotalRemove(files, later, tok, t, s);
      RowsGrow(s, files(s, m[s]), files(s, later[s]), tok);
      CountPrefix(RingRows(s, files(s, m[s]), tok), RingRows(s, files(s, later[s]), tok), {}, t);
    }
  }

  // ----- a good index ------------------------------------------------------------------

  ghost predicate Counts(files: Files, stamp: map<Stem, int>, rows: seq<Row>, tok: Token, t: real) {
    Count(rows, {}, t) == Min(8, Total(files, stamp, tok, t))
  }

  ghost predicate Within(files: Files, stamp: map<Stem, int>, rows: seq<Row>, tok: Token, stems: set<Stem>, t: real) {
    Count(rows, stems, t) <= Total(files, stamp - stems, tok, t)
  }

  ghost predicate IsRow(files: Files, stamp: map<Stem, int>, r: Row, tok: Token) {
    r.stem in stamp && r in RingRows(r.stem, files(r.stem, stamp[r.stem]), tok)
  }

  /** The rows are ascending, are real rows, and hold the eight newest of all rows, counted by time. */
  ghost predicate GoodRows(files: Files, stamp: map<Stem, int>, rows: seq<Row>, tok: Token) {
    && Rising(rows, Ts())
    && (forall t :: Counts(files, stamp, rows, tok, t))
    && (forall stems, t :: Within(files, stamp, rows, tok, stems, t))
    && (forall r | r in rows :: IsRow(files, stamp, r, tok))
  }

  ghost predicate Good(files: Files, idx: Index) {
    && (forall tok :: GoodRows(files, idx.stamp, Get(idx.touch, tok), tok))
    && (forall tok | tok in idx.touch :: idx.touch[tok] != [])
  }

  predicate DistinctStems(rings: seq<Ring>) {
    forall i, j | 0 <= i < j < |rings| :: rings[i].stem != rings[j].stem
  }

  lemma {:induction false} TimesIs(rings: seq<Ring>)
    ensures forall s :: s in Times(rings) <==> exists i :: 0 <= i < |rings| && rings[i].stem == s
    ensures DistinctStems(rings) ==> forall i | 0 <= i < |rings| :: Times(rings)[rings[i].stem] == rings[i].mtime
  {
    if rings != [] {
      TimesIs(rings[..|rings| - 1]);
    }
  }

  lemma {:induction false} ChangedIs(rings: seq<Ring>, stamp: map<Stem, int>, force: bool)
    requires DistinctStems(rings)
    ensures DistinctStems(Changed(rings, stamp, force))
    ensures forall r :: r in Changed(rings, stamp, force) <==> r in rings && IsChanged(r, stamp, force)
  {
    if rings != [] {
      var front, last := rings[..|rings| - 1], rings[|rings| - 1];
      ChangedIs(front, stamp, force);
      var c := Changed(front, stamp, force);
      assert rings == front + [last];
      forall i | 0 <= i < |c| ensures c[i].stem != last.stem {
        assert c[i] in front;
      }
    }
  }

  lemma TimesOf(rings: seq<Ring>, r: Ring)
    requires DistinctStems(rings)
    ensures r in rings <==> r.stem in Times(rings) && Times(rings)[r.stem] == r.mtime
  {
    TimesIs(rings);
    if r.stem in Times(rings) && Times(rings)[r.stem] == r.mtime {
      var i :| 0 <= i < |rings| && rings[i].stem == r.stem;
      assert rings[i] == r;
    }
  }

  /** The new stamps are the rings' own times; a ring that is gone keeps its stamp. */
  lemma StampsCatchUp(rings: seq<Ring>, stamp: map<Stem, int>, force: bool)
    requires DistinctStems(rings)
    ensures stamp + Times(Changed(rings, stamp, force)) == stamp + Times(rings)
  {
    var changed := Changed(rings, stamp, force);
    ChangedIs(rings, stamp, force);
    forall s
      ensures s in Times(changed) ==> s in Times(rings) && Times(changed)[s] == Times(rings)[s]
      ensures s in Times(rings) && s !in Times(changed) ==> s in stamp && stamp[s] == Times(rings)[s]
    {
      StampAt(rings, stamp, changed, force, s);
    }
    SameStamps(stamp, Times(changed), Times(rings));
  }

  lemma SameStamps(stamp: map<Stem, int>, a: map<Stem, int>, b: map<Stem, int>)
    requires forall s | s in a :: s in b && a[s] == b[s]
    requires forall s | s in b && s !in a :: s in stamp && stamp[s] == b[s]
    ensures stamp + a == stamp + b
  {
  }

  lemma OverTwice(a: map<Stem, int>, b: map<Stem, int>)
    ensures a + b == a + b + b
  {
  }

  lemma StampAt(rings: seq<Ring>, stamp: map<Stem, int>, changed: seq<Ring>, force: bool, s: Stem)
    requires DistinctStems(rings) && DistinctStems(changed)
    requires forall r :: r in changed <==> r in rings && IsChanged(r, stamp, force)
    ensures s in Times(changed) ==> s in Times(rings) && Times(changed)[s] == Times(rings)[s]
    ensures s in Times(rings) && s !in Times(changed) ==> s in stamp && stamp[s] == Times(rings)[s]
  {
    if s in Times(rings) {
      var r := Ring(s, Times(rings)[s]);
      TimesOf(rings, r);
      TimesOf(changed, r);
    }
    if s in Times(changed) {
      var r := Ring(s, Times(changed)[s]);
      TimesOf(changed, r);
      TimesOf(rings, r);
    }
  }

  lemma {:induction false} RowsOfStem(stem: Stem, events: seq<Event>, tok: Token)
    ensures forall r | r in RingRows(stem, events, tok) :: r.stem == stem
  {
    if events != [] {
      var i := |events| - 1;
      RowsOfStem(stem, events[..i], tok);
      LineRowsOfStem(events[i].ts, stem, i, events[i].refs, tok);
    }
  }

  lemma {:induction false} LineRowsOfStem(ts: real, stem: Stem, line: nat, refs: seq<Token>, tok: Token)
    ensures forall r | r in LineRows(ts, stem, line, refs, tok) :: r.stem == stem
  {
    if refs != [] {
      LineRowsOfStem(ts, stem, line, refs[..|refs| - 1], tok);
    }
  }

  lemma {:induction false} CountOfStem(rows: seq<Row>, stem: Stem, stems: set<Stem>, t: real)
    requires forall r | r in rows :: r.stem == stem
    ensures Count(rows, stems, t) == if stem in stems then 0 else Count(rows, {}, t)
  {
    if rows != [] {
      CountOfStem(rows[1..], stem, stems, t);
    }
  }

  /** The fresh rows are counted by the changed rings' times. */
  lemma {:induction false} FreshTotal(files: Files, rings: seq<Ring>, tok: Token, stems: set<Stem>, t: real)
    requires DistinctStems(rings)
    ensures Count(Fresh(files, rings, tok), stems, t) == Total(files, Times(rings) - stems, tok, t)
  {
    if rings == [] {
      assert Times(rings) - stems == map[];
    } else {
      var n := |rings| - 1;
      var last := rings[n];
      var rows := RingRows(last.stem, files(last.stem, last.mtime), tok);
      FreshTotal(files, rings[..n], tok, stems, t);
      CountAdds(Fresh(files, rings[..n], tok), rows, stems, t);
      RowsOfStem(last.stem, files(last.stem, last.mtime), tok);
      CountOfStem(rows, last.stem, stems, t);
      TimesIs(rings[..n]);
      var m := Times(rings) - stems;
      if last.stem in stems {
        assert m == Times(rings[..n]) - stems;
      } else {
        TotalRemove(files, m, tok, t, last.stem);
        assert m - {last.stem} == Times(rings[..n]) - stems;
      }
    }
  }

  /** Rows that were dropped can never be needed again: only arithmetic is left of the argument. */
  lemma DroppedStayOut(kept: nat, keptClean: nat, keptDirty: nat, clean: nat, dirtyBefore: nat, dirtyNow: nat, all: nat)
    requires all == clean + dirtyNow
    requires kept == Min(KEPT, clean + dirtyBefore) && kept <= keptClean + keptDirty
    requires keptClean <= clean && keptDirty <= dirtyBefore <= dirtyNow
    ensures Min(KEPT, keptClean + dirtyNow) == Min(KEPT, all)
  {
  }

  lemma {:induction false} InWithout(rows: seq<Row>, dirty: set<Stem>, r: Row)
    ensures r in Without(rows, dirty) <==> r in rows && r.stem !in dirty
  {
    if rows != [] {
      InWithout(rows[1..], dirty, r);
    }
  }

  lemma {:induction false} InFresh(files: Files, rings: seq<Ring>, tok: Token, r: Row)
    requires DistinctStems(rings) && r in Fresh(files, rings, tok)
    ensures IsRow(files, Times(rings), r, tok)
  {
    var n := |rings| - 1;
    var last := rings[n];
    TimesIs(rings[..n]);
    RowsOfStem(last.stem, files(last.stem, last.mtime), tok);
    if r in Fresh(files, rings[..n], tok) {
      InFresh(files, rings[..n], tok, r);
    }
  }

  /** The candidates for a token's new rows, before they are sorted and cut. */
  function Pool(files: Files, old_: seq<Row>, changed: seq<Ring>, tok: Token): seq<Row> {
    Without(old_, Times(changed).Keys) + Fresh(files, changed, tok)
  }

  lemma CountPool(files: Files, old_: seq<Row>, changed: seq<Ring>, tok: Token, stems: set<Stem>, t: real)
    requires DistinctStems(changed)
    ensures Count(Pool(files, old_, changed, tok), stems, t)
      == Count(old_, Times(changed).Keys + stems, t) + Total(files, Times(changed) - stems, tok, t)
  {
    var dirty := Times(changed).Keys;
    CountAdds(Without(old_, dirty), Fresh(files, changed, tok), stems, t);
    CountWithout(old_, dirty, stems, t);
    FreshTotal(files, changed, tok, stems, t);
  }

  lemma CountNew(files: Files, old_: seq<Row>, changed: seq<Ring>, tok: Token, stems: set<Stem>, t: real)
    ensures Count(NewRows(files, old_, changed, tok), {}, t) == Min(KEPT, Count(Pool(files, old_, changed, tok), {}, t))
    ensures Count(NewRows(files, old_, changed, tok), stems, t) <= Count(Pool(files, old_, changed, tok), stems, t)
    ensures Rising(NewRows(files, old_, changed, tok), Ts())
    ensures forall r | r in NewRows(files, old_, changed, tok) :: r in Pool(files, old_, changed, tok)
  {
    var pool := Pool(files, old_, changed, tok);
    var sorted := Sort(pool, Ts());
    SortIs(pool, Ts(), 0.0);
    CountSort(pool, {}, t);
    CountSort(pool, stems, t);
    CountNewest(sorted, stems, t);
    NewestOf(sorted);
    forall r | r in sorted ensures r in pool {
      assert r in multiset(sorted);
    }
  }

  lemma NewestOf(rows: seq<Row>)
    requires Rising(rows, Ts())
    ensures Rising(Newest(rows), Ts()) && forall r | r in Newest(rows) :: r in rows
  {
    if |rows| > KEPT {
      var d := |rows| - KEPT;
      forall i, j | 0 <= i < j < |Newest(rows)| ensures Ts()(Newest(rows)[i]) <= Ts()(Newest(rows)[j]) {
        assert Ts()(rows[d + i]) <= Ts()(rows[d + j]);
      }
    }
  }

  /** What a build replaces of the stamps. */
  ghost predicate Replaces(files: Files, stamp: map<Stem, int>, changed: seq<Ring>, now: map<Stem, int>) {
    && DistinctStems(changed) && now == stamp + Times(changed) && Behind(files, stamp, now)
  }

  lemma MapsSplit(m: map<Stem, int>, parsed: map<Stem, int>, stems: set<Stem>)
    ensures (m + parsed) - stems == (m - (parsed.Keys + stems)) + (parsed - stems)
    ensures (m - (parsed.Keys + stems)).Keys !! (parsed - stems).Keys
    ensures m == (m - parsed.Keys) + (m - (m.Keys - parsed.Keys))
    ensures (m - parsed.Keys).Keys !! (m - (m.Keys - parsed.Keys)).Keys
  {
  }

  /** Everything a build could draw on, without the stems of `stems`. */
  lemma TotalAfter(files: Files, m: map<Stem, int>, parsed: map<Stem, int>, stems: set<Stem>, tok: Token, t: real)
    ensures Total(files, (m + parsed) - stems, tok, t)
      == Total(files, m - (parsed.Keys + stems), tok, t) + Total(files, parsed - stems, tok, t)
  {
    MapsSplit(m, parsed, stems);
    TotalSplit(files, m - (parsed.Keys + stems), parsed - stems, tok, t);
  }

  /** The dirty part of the past is at most what its rings hold now. */
  lemma TotalBefore(files: Files, m: map<Stem, int>, parsed: map<Stem, int>, tok: Token, t: real)
    requires Behind(files, m, m + parsed)
    ensures Total(files, m, tok, t)
      == Total(files, m - parsed.Keys, tok, t) + Total(files, m - (m.Keys - parsed.Keys), tok, t)
    ensures Total(files, m - (m.Keys - parsed.Keys), tok, t) <= Total(files, parsed, tok, t)
  {
    MapsSplit(m, parsed, {});
    TotalSplit(files, m - parsed.Keys, m - (m.Keys - parsed.Keys), tok, t);
    TotalGrows(files, m - (m.Keys - parsed.Keys), parsed, tok, t);
  }

  lemma NewCount(files: Files, old_: seq<Row>, changed: seq<Ring>, tok: Token, t: real)
    returns (n: nat, keptClean: nat, dirtyNow: nat)
    requires DistinctStems(changed)
    ensures n == Count(NewRows(files, old_, changed, tok), {}, t)
    ensures keptClean == Count(old_, Times(changed).Keys, t) && dirtyNow == Total(files, Times(changed), tok, t)
    ensures n == Min(KEPT, keptClean + dirtyNow)
  {
    n := Count(NewRows(files, old_, changed, tok), {}, t);
    keptClean := Count(old_, Times(changed).Keys, t);
    dirtyNow := Total(files, Times(changed), tok, t);
    CountNew(files, old_, changed, tok, {}, t);
    CountPool(files, old_, changed, tok, {}, t);
    assert Times(changed).Keys + {} == Times(changed).Keys && Times(changed) - {} == Times(changed);
  }

  /** The old rows and the rings, as numbers: `clean` and `before` lie in the clean and the dirty rings. */
  lemma PastIs(files: Files, stamp: map<Stem, int>, old_: seq<Row>, m: map<Stem, int>, tok: Token, t: real)
    returns (clean: nat, before: nat, keptDirty: nat)
    requires Behind(files, stamp, stamp + m) && Counts(files, stamp, old_, tok, t)
    requires Within(files, stamp, old_, tok, m.Keys, t) && Within(files, stamp, old_, tok, stamp.Keys - m.Keys, t)
    ensures Total(files, stamp + m, tok, t) == clean + Total(files, m, tok, t)
    ensures Count(old_, {}, t) == Min(KEPT, clean + before)
    ensures Count(old_, {}, t) <= Count(old_, m.Keys, t) + keptDirty
    ensures Count(old_, m.Keys, t) <= clean && keptDirty <= before <= Total(files, m, tok, t)
  {
    clean := Total(files, stamp - m.Keys, tok, t);
    before := Total(files, stamp - (stamp.Keys - m.Keys), tok, t);
    keptDirty := Count(old_, stamp.Keys - m.Keys, t);
    CountCovers(old_, m.Keys, stamp.Keys - m.Keys, t);
    TotalBefore(files, stamp, m, tok, t);
    TotalNow(files, stamp, m, tok, t);
  }

  /** The count that matters: what is kept now, against all there is now. */
  lemma KeptCount(files: Files, stamp: map<Stem, int>, old_: seq<Row>, m: map<Stem, int>, tok: Token, t: real,
                  keptClean: nat, dirtyNow: nat, n: nat)
    requires Behind(files, stamp, stamp + m) && Counts(files, stamp, old_, tok, t)
    requires Within(files, stamp, old_, tok, m.Keys, t) && Within(files, stamp, old_, tok, stamp.Keys - m.Keys, t)
    requires keptClean == Count(old_, m.Keys, t)
    requires dirtyNow == Total(files, m, tok, t) && n == Min(KEPT, keptClean + dirtyNow)
    ensures n == Min(KEPT, Total(files, stamp + m, tok, t))
  {
    var clean, before, keptDirty := PastIs(files, stamp, old_, m, tok, t);
    DroppedStayOut(Count(old_, {}, t), keptClean, keptDirty, clean, before, dirtyNow,
                   Total(files, stamp + m, tok, t));
  }

  lemma TotalNow(files: Files, stamp: map<Stem, int>, m: map<Stem, int>, tok: Token, t: real)
    ensures Total(files, stamp + m, tok, t) == Total(files, stamp - m.Keys, tok, t) + Total(files, m, tok, t)
  {
    assert m.Keys + {} == m.Keys && m - {} == m && (stamp + m) - {} == stamp + m;
    TotalAfter(files, stamp, m, {}, tok, t);
  }

  lemma StepCounts(files: Files, stamp: map<Stem, int>, old_: seq<Row>, changed: seq<Ring>, now: map<Stem, int>,
                   tok: Token, t: real)
    requires Replaces(files, stamp, changed, now)
    requires Counts(files, stamp, old_, tok, t)
    requires Within(files, stamp, old_, tok, Times(changed).Keys, t)
    requires Within(files, stamp, old_, tok, stamp.Keys - Times(changed).Keys, t)
    ensures Counts(files, now, NewRows(files, old_, changed, tok), tok, t)
  {
    var m := Times(changed);
    var n, keptClean, dirtyNow := NewCount(files, old_, changed, tok, t);
    KeptCount(files, stamp, old_, m, tok, t, keptClean, dirtyNow, n);
  }

  lemma StepWithin(files: Files, stamp: map<Stem, int>, old_: seq<Row>, changed: seq<Ring>, now: map<Stem, int>,
                   tok: Token, stems: set<Stem>, t: real)
    requires Replaces(files, stamp, changed, now)
    requires Within(files, stamp, old_, tok, Times(changed).Keys + stems, t)
    ensures Within(files, now, NewRows(files, old_, changed, tok), tok, stems, t)
  {
    CountNew(files, old_, changed, tok, stems, t);
    CountPool(files, old_, changed, tok, stems, t);
    TotalAfter(files, stamp, Times(changed), stems, tok, t);
  }

  lemma StepRows(files: Files, stamp: map<Stem, int>, old_: seq<Row>, changed: seq<Ring>, now: map<Stem, int>,
                 tok: Token)
    requires Replaces(files, stamp, changed, now) && GoodRows(files, stamp, old_, tok)
    ensures GoodRows(files, now, NewRows(files, old_, changed, tok), tok)
  {
    var rows := NewRows(files, old_, changed, tok);
    CountNew(files, old_, changed, tok, {}, 0.0);
    forall t ensures Counts(files, now, rows, tok, t) {
      assert Counts(files, stamp, old_, tok, t) && Within(files, stamp, old_, tok, Times(changed).Keys, t)
             && Within(files, stamp, old_, tok, stamp.Keys - Times(changed).Keys, t);
      StepCounts(files, stamp, old_, changed, now, tok, t);
    }
    forall stems, t ensures Within(files, now, rows, tok, stems, t) {
      assert Within(files, stamp, old_, tok, Times(changed).Keys + stems, t);
      StepWithin(files, stamp, old_, changed, now, tok, stems, t);
    }
    forall r | r in rows ensures IsRow(files, now, r, tok) {
      PoolIsReal(files, stamp, old_, changed, now, tok, r);
    }
  }

  lemma PoolIsReal(files: Files, stamp: map<Stem, int>, old_: seq<Row>, changed: seq<Ring>, now: map<Stem, int>,
                   tok: Token, r: Row)
    requires Replaces(files, stamp, changed, now) && r in Pool(files, old_, changed, tok)
    requires forall q | q in old_ :: IsRow(files, stamp, q, tok)
    ensures IsRow(files, now, r, tok)
  {
    if r in Fresh(files, changed, tok) {
      InFresh(files, changed, tok, r);
    } else {
      InWithout(old_, Times(changed).Keys, r);
      assert IsRow(files, stamp, r, tok);
    }
  }

  /** One build turns a good index of the past into a good index of the present, and of the rings that
    * are gone as they were last seen. */
  lemma BuildIsGood(files: Files, cached: Index, rings: seq<Ring>, force: bool, out: Index)
    requires Good(files, cached) && Built(files, cached, rings, force, out)
    requires DistinctStems(rings) && Behind(files, cached.stamp, cached.stamp + Times(rings))
    ensures Good(files, out) && out.stamp == cached.stamp + Times(rings)
  {
    var changed := Changed(rings, cached.stamp, force);
    StampsCatchUp(rings, cached.stamp, force);
    ChangedIs(rings, cached.stamp, force);
    if changed == [] {
      assert cached.stamp + Times(changed) == cached.stamp;
    } else {
      forall tok ensures GoodRows(files, out.stamp, Get(out.touch, tok), tok) {
        assert GoodRows(files, cached.stamp, Get(cached.touch, tok), tok);
        StepRows(files, cached.stamp, Get(cached.touch, tok), changed, out.stamp, tok);
      }
    }
  }

  lemma EmptyIsGood(files: Files)
    ensures Good(files, EMPTY)
  {
    forall tok ensures GoodRows(files, EMPTY.stamp, Get(EMPTY.touch, tok), tok) {
      forall stems: set<Stem>, t ensures Within(files, EMPTY.stamp, Get(EMPTY.touch, tok), tok, stems, t) {
        assert EMPTY.stamp - stems == EMPTY.stamp;
      }
    }
  }

  // ----- equal times -------------------------------------------------------------------

  lemma {:induction false} NothingLater(rows: seq<Row>, t: real)
    requires forall i | 0 <= i < |rows| :: rows[i].ts < t
    ensures Count(rows, {}, t) == 0
  {
    if rows != [] {
      NothingLater(rows[1..], t);
    }
  }

  lemma LastCounts(rows: seq<Row>, t: real)
    requires rows != []
    ensures Count(rows, {}, t) == Count(rows[..|rows| - 1], {}, t) + if rows[|rows| - 1].ts >= t then 1 else 0
  {
    var front, last := rows[..|rows| - 1], rows[|rows| - 1..];
    assert rows == front + last;
    CountAdds(front, last, {}, t);
    assert last[1..] == [];
  }

  lemma LastIsNoEarlier(a: seq<Row>, b: seq<Row>)
    requires Rising(a, Ts()) && b != []
    requires Count(a, {}, b[|b| - 1].ts) == Count(b, {}, b[|b| - 1].ts)
    ensures a != [] && a[|a| - 1].ts >= b[|b| - 1].ts
  {
    var t := b[|b| - 1].ts;
    LastCounts(b, t);
    if a == [] || a[|a| - 1].ts < t {
      forall i | 0 <= i < |a| ensures a[i].ts < t {
        assert i < |a| - 1 ==> Ts()(a[i]) <= Ts()(a[|a| - 1]);
      }
      NothingLater(a, t);
      assert false;
    }
  }

  lemma FrontRises(a: seq<Row>)
    requires Rising(a, Ts()) && a != []
    ensures Rising(a[..|a| - 1], Ts())
  {
    var f := a[..|a| - 1];
    forall i, j | 0 <= i < j < |f| ensures Ts()(f[i]) <= Ts()(f[j]) {
      assert Ts()(a[i]) <= Ts()(a[j]);
    }
  }

  /** Ascending lists with the same counts have the same timestamps. */
  lemma {:induction false} SameTimes(a: seq<Row>, b: seq<Row>)
    requires Rising(a, Ts()) && Rising(b, Ts())
    requires forall t :: Count(a, {}, t) == Count(b, {}, t)
    ensures |a| == |b| && forall i | 0 <= i < |a| :: a[i].ts == b[i].ts
    decreases |a| + |b|
  {
    if b != [] { LastIsNoEarlier(a, b); }
    if a != [] {
      LastIsNoEarlier(b, a);
      var f, g := a[..|a| - 1], b[..|b| - 1];
      FrontRises(a);
      FrontRises(b);
      forall t ensures Count(f, {}, t) == Count(g, {}, t) {
        LastCounts(a, t);
        LastCounts(b, t);
      }
      SameTimes(f, g);
      forall i | 0 <= i < |a| ensures a[i].ts == b[i].ts {
        if i < |f| { assert f[i].ts == g[i].ts; }
      }
    }
  }

  /** No two rows of one token carry the same timestamp. */
  ghost predicate DistinctTimes(files: Files, stamp: map<Stem, int>, tok: Token) {
    forall r, q | IsRow(files, stamp, r, tok) && IsRow(files, stamp, q, tok) && r.ts == q.ts :: r == q
  }

  /** Two good indexes of the same rings agree on every token's timestamps, and on its rows without ties. */
  lemma GoodIndexesAgree(files: Files, a: Index, b: Index, tok: Token)
    requires Good(files, a) && Good(files, b) && a.stamp == b.stamp
    ensures |Get(a.touch, tok)| == |Get(b.touch, tok)|
    ensures forall i | 0 <= i < |Get(a.touch, tok)| :: Get(a.touch, tok)[i].ts == Get(b.touch, tok)[i].ts
    ensures DistinctTimes(files, a.stamp, tok) ==> Get(a.touch, tok) == Get(b.touch, tok)
    ensures tok in a.touch <==> tok in b.touch
  {
    var s, q := Get(a.touch, tok), Get(b.touch, tok);
    assert GoodRows(files, a.stamp, s, tok) && GoodRows(files, b.stamp, q, tok);
    forall t ensures Count(s, {}, t) == Count(q, {}, t) {
      assert Counts(files, a.stamp, s, tok, t) && Counts(files, b.stamp, q, tok, t);
    }
    SameTimes(s, q);
    if DistinctTimes(files, a.stamp, tok) {
      forall i | 0 <= i < |s| ensures s[i] == q[i] {
        assert s[i] in s && q[i] in q;
      }
    }
  }

  // ----- rings that are gone -----------------------------------------------------------

  /** No kept row is of a ring that is gone. */
  ghost predicate AllPresent(rows: seq<Row>, rings: seq<Ring>) {
    forall r | r in rows :: r.stem in Times(rings)
  }

  lemma {:induction false} CountPresent(rows: seq<Row>, gone: set<Stem>, t: real)
    requires forall r | r in rows :: r.stem !in gone
    ensures Count(rows, {}, t) == Count(rows, gone, t)
  {
    if rows != [] {
      CountPresent(rows[1..], gone, t);
    }
  }

  /** Rows of present rings only, and the counts over all rings: then the counts over the present ones too. */
  lemma PresentCounts(files: Files, stamp: map<Stem, int>, rows: seq<Row>, tok: Token, rings: seq<Ring>, t: real)
    requires GoodRows(files, stamp, rows, tok) && AllPresent(rows, rings) && stamp == stamp + Times(rings)
    ensures Counts(files, Times(rings), rows, tok, t)
  {
    var gone := stamp.Keys - Times(rings).Keys;
    assert stamp - gone == Times(rings);
    assert Counts(files, stamp, rows, tok, t) && Within(files, stamp, rows, tok, gone, t);
    CountPresent(rows, gone, t);
    CountAtMostTotal(files, stamp, gone, tok, t);
    CountAtMostEight(files, stamp, rows, tok, t);
  }

  lemma CountAtMostTotal(files: Files, stamp: map<Stem, int>, gone: set<Stem>, tok: Token, t: real)
    ensures Total(files, stamp - gone, tok, t) <= Total(files, stamp, tok, t)
  {
    var rest := stamp - (stamp.Keys - gone);
    assert (stamp - gone).Keys !! rest.Keys && (stamp - gone) + rest == stamp;
    TotalSplit(files, stamp - gone, rest, tok, t);
  }

  lemma CountAtMostEight(files: Files, stamp: map<Stem, int>, rows: seq<Row>, tok: Token, t: real)
    requires Counts(files, stamp, rows, tok, t)
    ensures Count(rows, {}, t) <= KEPT
  {
  }

  lemma PresentTimesDiffer(files: Files, stamp: map<Stem, int>, rings: seq<Ring>, tok: Token)
    requires DistinctTimes(files, stamp, tok) && stamp == stamp + Times(rings)
    ensures forall r | IsRow(files, Times(rings), r, tok) :: IsRow(files, stamp, r, tok)
  {
  }

  /** An index of these rings and of some that are gone, against one of these rings only: the same
    * timestamps when no kept row is of a ring that is gone, and without ties the same rows exactly then. */
  lemma GoneRingsIff(files: Files, a: Index, b: Index, rings: seq<Ring>, tok: Token)
    requires Good(files, a) && Good(files, b) && a.stamp == a.stamp + Times(rings) && b.stamp == Times(rings)
    ensures AllPresent(Get(a.touch, tok), rings) ==>
              |Get(a.touch, tok)| == |Get(b.touch, tok)|
              && forall i | 0 <= i < |Get(a.touch, tok)| :: Get(a.touch, tok)[i].ts == Get(b.touch, tok)[i].ts
    ensures DistinctTimes(files, a.stamp, tok) ==>
              (Get(a.touch, tok) == Get(b.touch, tok) <==> AllPresent(Get(a.touch, tok), rings))
  {
    var s, q := Get(a.touch, tok), Get(b.touch, tok);
    assert GoodRows(files, a.stamp, s, tok) && GoodRows(files, b.stamp, q, tok);
    if AllPresent(s, rings) {
      forall t ensures Count(s, {}, t) == Count(q, {}, t) {
        PresentCounts(files, a.stamp, s, tok, rings, t);
        assert Counts(files, b.stamp, q, tok, t);
      }
      SameTimes(s, q);
    }
    if DistinctTimes(files, a.stamp, tok) && AllPresent(s, rings) {
      PresentTimesDiffer(files, a.stamp, rings, tok);
      forall i | 0 <= i < |s| ensures s[i] == q[i] {
        assert s[i] in s && q[i] in q;
      }
    } else if s == q {
      forall r | r in s ensures r.stem in Times(rings) {
        assert IsRow(files, b.stamp, r, tok);
      }
    }
  }
}
