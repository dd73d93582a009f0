/** Builds over a whole history of growing rings, and the build itself. */
module Helix {
  import opened Picking
  import opened Options
  import opened StableSort
  import opened HelixModel

  /** One call: what it asks for, and whether the index file could be read and written. */
  datatype Call = Build(force: bool, readable: bool, saved: bool) | NewProcess

  /** The index file, and this process's memo of the last build. */
  datatype State = State(disk: Index, memo: Option<(seq<Ring>, Index)>)

  const INIT := State(EMPTY, None)

  ghost predicate Step(files: Files, rings: seq<Ring>, s: State, c: Call, next: State, out: Index) {
    if c.NewProcess? then next == s.(memo := None)
    else if !c.force && s.memo.Some? && s.memo.value.0 == rings then next == s && out == s.memo.value.1
    else
      var cached := if !c.force && c.readable then s.disk else EMPTY;
      && Built(files, cached, rings, c.force, out)
      && next.memo == Some((rings, out))
      && next.disk == if Changed(rings, cached.stamp, c.force) == [] || !c.saved then s.disk else out
  }

  /** Rings are only appended to, until they are gone: what a later snapshot finds in a ring extends
    * what an earlier one found. */
  ghost predicate AppendOnly(files: Files, history: seq<seq<Ring>>) {
    && (forall i | 0 <= i < |history| :: DistinctStems(history[i]))
    && (forall i, j | 0 <= i <= j < |history| ::
          Behind(files, Times(history[i]), Times(history[i]) + Times(history[j])))
  }

  /** Every ring of the snapshot has its stamp. */
  ghost predicate UpToDate(idx: Index, rings: seq<Ring>) { idx.stamp == idx.stamp + Times(rings) }

  /** Every stamp of an index was some earlier snapshot's. */
  ghost predicate From(stamp: map<Stem, int>, history: seq<seq<Ring>>) {
    forall s | s in stamp :: StampFrom(stamp, history, s)
  }

  ghost predicate StampFrom(stamp: map<Stem, int>, history: seq<seq<Ring>>, s: Stem)
    requires s in stamp
  {
    exists i :: 0 <= i < |history| && s in Times(history[i]) && Times(history[i])[s] == stamp[s]
  }

  ghost predicate Sound(files: Files, history: seq<seq<Ring>>, s: State) {
    && Good(files, s.disk) && From(s.disk.stamp, history)
    && (s.memo.Some? ==> Good(files, s.memo.value.1) && UpToDate(s.memo.value.1, s.memo.value.0)
                         && From(s.memo.value.1.stamp, history))
  }

  lemma FromIsBehind(files: Files, stamp: map<Stem, int>, history: seq<seq<Ring>>)
    requires AppendOnly(files, history) && history != [] && From(stamp, history)
    ensures Behind(files, stamp, stamp + Times(history[|history| - 1]))
  {
    var n := |history| - 1;
    forall s | s in stamp ensures files(s, stamp[s]) <= files(s, (stamp + Times(history[n]))[s]) {
      assert StampFrom(stamp, history, s);
      var i :| 0 <= i < |history| && s in Times(history[i]) && Times(history[i])[s] == stamp[s];
      assert Behind(files, Times(history[i]), Times(history[i]) + Times(history[n]));
    }
  }

  lemma FromGrows(stamp: map<Stem, int>, history: seq<seq<Ring>>, rings: seq<Ring>)
    requires From(stamp, history)
    ensures From(stamp, history + [rings])
  {
    forall s | s in stamp ensures StampFrom(stamp, history + [rings], s) {
      assert StampFrom(stamp, history, s);
      var i :| 0 <= i < |history| && s in Times(history[i]) && Times(history[i])[s] == stamp[s];
      assert (history + [rings])[i] == history[i];
    }
  }

  lemma FromNow(history: seq<seq<Ring>>, rings: seq<Ring>)
    ensures From(Times(rings), history + [rings])
  {
    forall s | s in Times(rings) ensures StampFrom(Times(rings), history + [rings], s) {
      assert (history + [rings])[|history|] == rings;
    }
  }

  lemma FromBoth(stamp: map<Stem, int>, history: seq<seq<Ring>>, rings: seq<Ring>)
    requires From(stamp, history + [rings])
    ensures From(stamp + Times(rings), history + [rings])
  {
    FromNow(history, rings);
    forall s | s in stamp + Times(rings) ensures StampFrom(stamp + Times(rings), history + [rings], s) {
      if s in Times(rings) {
        assert StampFrom(Times(rings), history + [rings], s);
      } else {
        assert StampFrom(stamp, history + [rings], s);
      }
    }
  }

  lemma SoundGrows(files: Files, history: seq<seq<Ring>>, rings: seq<Ring>, s: State)
    requires Sound(files, history, s)
    ensures Sound(files, history + [rings], s)
  {
    FromGrows(s.disk.stamp, history, rings);
    if s.memo.Some? {
      FromGrows(s.memo.value.1.stamp, history, rings);
    }
  }

  /** Every call keeps the state sound, and a build's answer is a good index of the rings as they are. */
  lemma StepIsSound(files: Files, history: seq<seq<Ring>>, rings: seq<Ring>, s: State, c: Call, next: State, out: Index)
    requires AppendOnly(files, history + [rings]) && Sound(files, history, s) && Step(files, rings, s, c, next, out)
    ensures Sound(files, history + [rings], next)
    ensures c.Build? ==> Good(files, out) && UpToDate(out, rings) && From(out.stamp, history + [rings])
  {
    SoundGrows(files, history, rings, s);
    if c.Build? && !(!c.force && s.memo.Some? && s.memo.value.0 == rings) {
      var cached := if !c.force && c.readable then s.disk else EMPTY;
      EmptyIsGood(files);
      BuildKeepsGood(files, history, rings, cached, c.force, out);
    }
  }

  lemma BuildKeepsGood(files: Files, history: seq<seq<Ring>>, rings: seq<Ring>, cached: Index, force: bool, out: Index)
    requires AppendOnly(files, history + [rings]) && Good(files, cached) && From(cached.stamp, history + [rings])
    requires Built(files, cached, rings, force, out)
    ensures Good(files, out) && UpToDate(out, rings) && From(out.stamp, history + [rings])
  {
    assert (history + [rings])[|history|] == rings;
    FromIsBehind(files, cached.stamp, history + [rings]);
    BuildIsGood(files, cached, rings, force, out);
    OverTwice(cached.stamp, Times(rings));
    FromBoth(cached.stamp, history, rings);
  }

  /** A run: the state before each call and the answers. */
  ghost predicate IsRun(files: Files, history: seq<seq<Ring>>, calls: seq<Call>, states: seq<State>, outs: seq<Index>) {
    && |calls| == |outs| == |history| && |states| == |calls| + 1 && states[0] == INIT
    && forall k | 0 <= k < |calls| :: Step(files, history[k], states[k], calls[k], states[k + 1], outs[k])
  }

  lemma {:induction false} RunIsSound(files: Files, history: seq<seq<Ring>>, calls: seq<Call>, states: seq<State>,
                                      outs: seq<Index>, k: nat)
    requires AppendOnly(files, history) && IsRun(files, history, calls, states, outs) && k <= |calls|
    ensures Sound(files, history[..k], states[k])
    ensures k < |calls| && calls[k].Build? ==>
              Good(files, outs[k]) && UpToDate(outs[k], history[k]) && From(outs[k].stamp, history[..k + 1])
    decreases k
  {
    if k == 0 {
      EmptyIsGood(files);
    } else {
      RunIsSound(files, history, calls, states, outs, k - 1);
      assert history[..k] == history[..k - 1] + [history[k - 1]];
      StepIsSound(files, history[..k - 1], history[k - 1], states[k - 1], calls[k - 1], states[k - 1 + 1], outs[k - 1]);
    }
    if k < |calls| {
      assert history[..k + 1] == history[..k] + [history[k]];
      StepIsSound(files, history[..k], history[k], states[k], calls[k], states[k + 1], outs[k]);
    }
  }

  /** After any history of appends, removed rings and calls, a build gives a token the timestamps a forced
    * rebuild would give it, when no row kept for it is of a ring that is gone; when none of its
    * timestamps are equal, it gives the same rows if and only if none is. */
  lemma BuiltIffPresent(files: Files, history: seq<seq<Ring>>, calls: seq<Call>, states: seq<State>,
                        outs: seq<Index>, k: nat, rebuilt: Index, tok: Token)
    requires AppendOnly(files, history) && IsRun(files, history, calls, states, outs)
    requires k < |calls| && calls[k].Build? && Built(files, EMPTY, history[k], true, rebuilt)
    ensures AllPresent(Get(outs[k].touch, tok), history[k]) ==>
              |Get(outs[k].touch, tok)| == |Get(rebuilt.touch, tok)|
              && forall i | 0 <= i < |Get(rebuilt.touch, tok)| ::
                   Get(outs[k].touch, tok)[i].ts == Get(rebuilt.touch, tok)[i].ts
    ensures DistinctTimes(files, outs[k].stamp, tok) ==>
              (Get(outs[k].touch, tok) == Get(rebuilt.touch, tok) <==> AllPresent(Get(outs[k].touch, tok), history[k]))
  {
    RunIsSound(files, history, calls, states, outs, k);
    RebuiltIsGood(files, history[k], rebuilt);
    GoneRingsIff(files, outs[k], rebuilt, history[k], tok);
  }

  lemma RebuiltIsGood(files: Files, rings: seq<Ring>, rebuilt: Index)
    requires DistinctStems(rings) && Built(files, EMPTY, rings, true, rebuilt)
    ensures Good(files, rebuilt) && rebuilt.stamp == Times(rings)
  {
    EmptyIsGood(files);
    BuildIsGood(files, EMPTY, rings, true, rebuilt);
    assert map[] + Times(rings) == Times(rings);
  }

  /** No ring of an earlier snapshot is missing from a later one. */
  ghost predicate RingsStay(history: seq<seq<Ring>>) {
    forall i, j | 0 <= i <= j < |history| :: Times(history[i]).Keys <= Times(history[j]).Keys
  }

  lemma StayingStamps(history: seq<seq<Ring>>, k: nat, idx: Index)
    requires RingsStay(history) && k < |history| && From(idx.stamp, history[..k + 1]) && UpToDate(idx, history[k])
    ensures idx.stamp == Times(history[k])
  {
    forall s | s in idx.stamp ensures s in Times(history[k]) {
      assert StampFrom(idx.stamp, history[..k + 1], s);
      var i :| 0 <= i < k + 1 && s in Times(history[..k + 1][i]);
      assert Times(history[i]).Keys <= Times(history[k]).Keys;
    }
  }

  /** After any history of appends and calls, a build gives every token the timestamps a forced
    * rebuild would give it, and the same rows when none of its timestamps are equal. */
  lemma IncrementalIsRebuild(files: Files, history: seq<seq<Ring>>, calls: seq<Call>, states: seq<State>,
                             outs: seq<Index>, k: nat, rebuilt: Index, tok: Token)
    requires AppendOnly(files, history) && RingsStay(history) && IsRun(files, history, calls, states, outs)
    requires k < |calls| && calls[k].Build? && Built(files, EMPTY, history[k], true, rebuilt)
    ensures |Get(outs[k].touch, tok)| == |Get(rebuilt.touch, tok)|
    ensures forall i | 0 <= i < |Get(rebuilt.touch, tok)| ::
      Get(outs[k].touch, tok)[i].ts == Get(rebuilt.touch, tok)[i].ts
    ensures DistinctTimes(files, Times(history[k]), tok) ==> Get(outs[k].touch, tok) == Get(rebuilt.touch, tok)
    ensures outs[k].stamp == rebuilt.stamp && (tok in outs[k].touch <==> tok in rebuilt.touch)
  {
    RunIsSound(files, history, calls, states, outs, k);
    RebuiltIsGood(files, history[k], rebuilt);
    StayingStamps(history, k, outs[k]);
    GoodIndexesAgree(files, outs[k], rebuilt, tok);
  }

  // ----- a ring that is gone -----------------------------------------------------------

  const RING := Ring("s", 1)
  const TOUCHED := Row(2.0, "s", 0)

  function OneLine(): Files { (s: Stem, m: int) => [Event(2.0, ["t"])] }

  lemma OneLineRows()
    ensures Fresh(OneLine(), [RING], "t") == [TOUCHED] && Times([RING]) == map["s" := 1]
    ensures NewRows(OneLine(), [], [RING], "t") == [TOUCHED]
    ensures forall tok | tok != "t" :: NewRows(OneLine(), [], [RING], tok) == []
  {
    var line := [Event(2.0, ["t"])];
    assert [RING][..0] == [] && line[..0] == [] && ["t"][..0] == [];
    forall tok
      ensures LineRows(2.0, "s", 0, ["t"], tok) == if tok == "t" then [TOUCHED] else []
    {
      assert LineRows(2.0, "s", 0, [], tok) == [];
    }
    forall tok ensures Fresh(OneLine(), [RING], tok) == if tok == "t" then [TOUCHED] else [] {
      assert RingRows("s", [], tok) == [] && Fresh(OneLine(), [], tok) == [];
      assert RingRows("s", line, tok) == LineRows(2.0, "s", 0, ["t"], tok);
    }
    assert [TOUCHED][1..] == [] && Sort<Row>([], Ts()) == [];
  }

  /** A ring is built into the index and removed: the next build still has its row, a rebuild has not. */
  lemma GoneRingStays()
    ensures (var files, idx := OneLine(), Index(map["s" := 1], map["t" := [TOUCHED]]);
             && Step(files, [RING], INIT, Build(false, true, true), State(idx, Some(([RING], idx))), idx)
             && Step(files, [], State(idx, Some(([RING], idx))), Build(false, true, true), State(idx, Some(([], idx))), idx)
             && Built(files, EMPTY, [], true, EMPTY)
             && AppendOnly(files, [[RING], []]))
  {
    var files, idx := OneLine(), Index(map["s" := 1], map["t" := [TOUCHED]]);
    OneLineRows();
    assert [RING][..0] == [];
    assert Changed([RING], map[], false) == [RING];
    assert map[] + Times([RING]) == idx.stamp;
    assert Built(files, EMPTY, [RING], false, idx);
    var history := [[RING], []];
    assert Times([]) == map[];
    forall i, j | 0 <= i <= j < |history| ensures Behind(files, Times(history[i]), Times(history[i]) + Times(history[j])) {
    }
  }

  // ----- the newest touch --------------------------------------------------------------

  /** `str.split("__", 1)[0]` */
  function BaseStem(s: string): string {
    if |s| < 2 then s else if s[0] == '_' && s[1] == '_' then "" else [s[0]] + BaseStem(s[1..])
  }

  predicate Excluded(r: Row, ex: Option<string>) {
    ex.Some? && ex.value != "" && BaseStem(r.stem) == BaseStem(ex.value)
  }

  /** Over all candidates: none when every kept row is excluded, else a newest one that is not. */
  ghost predicate Answers(idx: Index, candidates: seq<Token>, ex: Option<string>, best: Option<Row>) {
    && (best.None? <==> forall tok, r | tok in candidates && r in Get(idx.touch, tok) :: Excluded(r, ex))
    && (best.Some? ==>
          && !Excluded(best.value, ex)
          && (exists tok :: tok in candidates && best.value in Get(idx.touch, tok))
          && forall tok, r | tok in candidates && r in Get(idx.touch, tok) && !Excluded(r, ex) :: r.ts <= best.value.ts)
  }

  /** The newest row of the kept ones that is not excluded. */
  method LastTouch(idx: Index, candidates: seq<Token>, ex: Option<string>) returns (best: Option<Row>)
    requires forall tok | tok in idx.touch :: Rising(idx.touch[tok], Ts())
    ensures Answers(idx, candidates, ex, best)
  {
    best := None;
    for i := 0 to |candidates|
      invariant Answers(idx, candidates[..i], ex, best)
    {
      assert candidates[..i + 1] == candidates[..i] + [candidates[i]];
      var row := NewestRow(Get(idx.touch, candidates[i]), ex);
      if row.Some? && (best.None? || row.value.ts > best.value.ts) {
        best := row;
      }
    }
    assert candidates[..|candidates|] == candidates;
  }

  method NewestRow(rows: seq<Row>, ex: Option<string>) returns (row: Option<Row>)
    requires Rising(rows, Ts())
    ensures row.None? <==> forall r | r in rows :: Excluded(r, ex)
    ensures row.Some? ==> row.value in rows && !Excluded(row.value, ex)
    ensures row.Some? ==> forall r | r in rows && !Excluded(r, ex) :: r.ts <= row.value.ts
  {
    var k := |rows|;
    while k > 0
      invariant 0 <= k <= |rows| && forall i | k <= i < |rows| :: Excluded(rows[i], ex)
    {
      k := k - 1;
      if !Excluded(rows[k], ex) {
        forall r | r in rows && !Excluded(r, ex) ensures r.ts <= rows[k].ts {
          var i :| 0 <= i < |rows| && rows[i] == r;
          assert i < k ==> Ts()(rows[i]) <= Ts()(rows[k]);
        }
        return Some(rows[k]);
      }
    }
    return None;
  }

  lemma {:induction false} SomeRowCounts(rows: seq<Row>, r: Row, t: real)
    requires r in rows && r.ts >= t
    ensures Count(rows, {}, t) >= 1
  {
    if rows[0] != r {
      SomeRowCounts(rows[1..], r, t);
    }
  }

  lemma {:induction false} FullCount(rows: seq<Row>, t: real)
    requires Count(rows, {}, t) == |rows|
    ensures forall r | r in rows :: r.ts >= t
  {
    if rows != [] {
      CountAtMost(rows[1..], {}, t);
      FullCount(rows[1..], t);
    }
  }

  lemma {:induction false} CountFalls(rows: seq<Row>, t: real, u: real)
    requires t <= u
    ensures Count(rows, {}, u) <= Count(rows, {}, t)
    ensures forall r | r in rows && t <= r.ts < u :: Count(rows, {}, u) < Count(rows, {}, t)
  {
    if rows != [] {
      CountFalls(rows[1..], t, u);
    }
  }

  lemma {:induction false} TotalFalls(files: Files, m: map<Stem, int>, tok: Token, t: real, u: real)
    requires t <= u
    ensures Total(files, m, tok, u) <= Total(files, m, tok, t)
    decreases |m|
  {
    if m != map[] {
      assert m.Keys != {};
      var s :| s in m.Keys;
      Smaller(m, s);
      TotalFalls(files, m - {s}, tok, t, u);
      TotalRemove(files, m, tok, t, s);
      TotalRemove(files, m, tok, u, s);
      CountFalls(RingRows(s, files(s, m[s]), tok), t, u);
    }
  }

  /** Past a real row, strictly fewer rows are left. */
  lemma TotalFallsPast(files: Files, m: map<Stem, int>, tok: Token, r: Row, u: real)
    requires IsRow(files, m, r, tok) && r.ts < u
    ensures Total(files, m, tok, u) < Total(files, m, tok, r.ts)
  {
    TotalRemove(files, m, tok, r.ts, r.stem);
    TotalRemove(files, m, tok, u, r.stem);
    CountFalls(RingRows(r.stem, files(r.stem, m[r.stem]), tok), r.ts, u);
    TotalFalls(files, m - {r.stem}, tok, r.ts, u);
  }

  lemma {:induction false} SameCount(rows: seq<Row>, t: real, u: real)
    requires forall r | r in rows :: r.ts >= t <==> r.ts >= u
    ensures Count(rows, {}, t) == Count(rows, {}, u)
  {
    if rows != [] {
      SameCount(rows[1..], t, u);
    }
  }

  /** The first kept time from `t` on. */
  lemma FirstFrom(rows: seq<Row>, t: real) returns (i: nat)
    requires Rising(rows, Ts()) && Count(rows, {}, t) >= 1
    ensures i < |rows| && rows[i].ts >= t && forall r | r in rows :: r.ts >= t <==> r.ts >= rows[i].ts
  {
    i := 0;
    while i < |rows| && rows[i].ts < t
      invariant i <= |rows| && forall j | 0 <= j < i :: rows[j].ts < t
    {
      i := i + 1;
    }
    if i == |rows| {
      NothingLater(rows, t);
      assert false;
    }
    forall r | r in rows ensures r.ts >= t <==> r.ts >= rows[i].ts {
      var j :| 0 <= j < |rows| && rows[j] == r;
      assert j > i ==> Ts()(rows[i]) <= Ts()(rows[j]);
    }
  }

  /** A touch in the rings was kept, or eight newer ones were. */
  lemma KeptOrEightNewer(files: Files, idx: Index, tok: Token, r: Row)
    requires Good(files, idx) && IsRow(files, idx.stamp, r, tok) && DistinctTimes(files, idx.stamp, tok)
    ensures r in Get(idx.touch, tok)
            || (|Get(idx.touch, tok)| == 8 && forall q | q in Get(idx.touch, tok) :: r.ts < q.ts)
  {
    var rows, stamp := Get(idx.touch, tok), idx.stamp;
    assert GoodRows(files, stamp, rows, tok) && Counts(files, stamp, rows, tok, r.ts);
    TotalRemove(files, stamp, tok, r.ts, r.stem);
    SomeRowCounts(RingRows(r.stem, files(r.stem, stamp[r.stem]), tok), r, r.ts);
    var i := FirstFrom(rows, r.ts);
    var u := rows[i].ts;
    if u == r.ts {
      assert rows[i] in rows && IsRow(files, stamp, rows[i], tok);
    } else {
      SameCount(rows, r.ts, u);
      assert Counts(files, stamp, rows, tok, u);
      TotalFallsPast(files, stamp, tok, r, u);
      CountAtMost(rows, {}, u);
      AtMostEight(files, stamp, rows, tok);
      FullCount(rows, u);
    }
  }

  /** No token keeps more than eight rows. */
  lemma AtMostEight(files: Files, stamp: map<Stem, int>, rows: seq<Row>, tok: Token)
    requires GoodRows(files, stamp, rows, tok)
    ensures |rows| <= 8
  {
    if rows != [] {
      var t := rows[0].ts;
      forall i | 0 <= i < |rows| ensures rows[i].ts >= t {
        assert i > 0 ==> Ts()(rows[0]) <= Ts()(rows[i]);
      }
      CountEvery(rows, t);
      assert Counts(files, stamp, rows, tok, t);
    }
  }

  /** The excluded session alone fills all eight kept rows of the token, with newer ones than `r`. */
  predicate Crowded(idx: Index, tok: Token, ex: Option<string>, r: Row) {
    |Get(idx.touch, tok)| == 8 && forall q | q in Get(idx.touch, tok) :: Excluded(q, ex) && r.ts < q.ts
  }

  /** What is found is a row of the rings, and no row of any candidate outside the excluded session is
    * newer in the rings, except where that session alone fills the candidate's kept rows. */
  lemma LastTouchIsNewest(files: Files, idx: Index, candidates: seq<Token>, ex: Option<string>, best: Option<Row>)
    requires Good(files, idx) && Answers(idx, candidates, ex, best)
    requires forall tok | tok in candidates :: DistinctTimes(files, idx.stamp, tok)
    ensures best.Some? ==> exists tok :: tok in candidates && IsRow(files, idx.stamp, best.value, tok)
    ensures forall tok, r | tok in candidates && IsRow(files, idx.stamp, r, tok) && !Excluded(r, ex) ::
              (best.Some? && r.ts <= best.value.ts) || Crowded(idx, tok, ex, r)
  {
    if best.Some? {
      var tok :| tok in candidates && best.value in Get(idx.touch, tok);
      assert GoodRows(files, idx.stamp, Get(idx.touch, tok), tok);
      assert IsRow(files, idx.stamp, best.value, tok);
    }
    forall tok, r | tok in candidates && IsRow(files, idx.stamp, r, tok) && !Excluded(r, ex)
      ensures (best.Some? && r.ts <= best.value.ts) || Crowded(idx, tok, ex, r)
    {
      KeptOrEightNewer(files, idx, tok, r);
    }
  }

  // ----- the build ---------------------------------------------------------------------

  type Touch = map<Token, seq<Row>>

  ghost predicate NoEmpty(touch: Touch) {
    forall tok | tok in touch :: touch[tok] != []
  }

  /** `touch` is `before` with the rows of these rings, lines or refs appended. */
  ghost predicate RingsAdded(before: Touch, touch: Touch, files: Files, rings: seq<Ring>) {
    forall tok :: Get(touch, tok) == Get(before, tok) + Fresh(files, rings, tok)
  }

  ghost predicate LinesAdded(before: Touch, touch: Touch, stem: Stem, events: seq<Event>) {
    forall tok :: Get(touch, tok) == Get(before, tok) + RingRows(stem, events, tok)
  }

  ghost predicate RefsAdded(before: Touch, touch: Touch, ts: real, stem: Stem, line: nat, refs: seq<Token>) {
    forall tok :: Get(touch, tok) == Get(before, tok) + LineRows(ts, stem, line, refs, tok)
  }

  ghost predicate Dropped(before: Touch, touch: Touch, dirty: set<Stem>) {
    forall tok :: Get(touch, tok) == Without(Get(before, tok), dirty)
  }

  ghost predicate Trimmed(before: Touch, touch: Touch) {
    forall tok :: Get(touch, tok) == Newest(Sort(Get(before, tok), Ts()))
  }

  lemma AddRing(before: Touch, mid: Touch, touch: Touch, files: Files, rings: seq<Ring>, r: Ring)
    requires RingsAdded(before, mid, files, rings) && LinesAdded(mid, touch, r.stem, files(r.stem, r.mtime))
    ensures RingsAdded(before, touch, files, rings + [r])
  {
    assert (rings + [r])[..|rings|] == rings;
    forall tok ensures Get(touch, tok) == Get(before, tok) + Fresh(files, rings + [r], tok) {
      assert Get(mid, tok) == Get(before, tok) + Fresh(files, rings, tok);
      assert Get(touch, tok) == Get(mid, tok) + RingRows(r.stem, files(r.stem, r.mtime), tok);
    }
  }

  lemma AddLine(before: Touch, mid: Touch, touch: Touch, stem: Stem, events: seq<Event>, ev: Event)
    requires LinesAdded(before, mid, stem, events) && RefsAdded(mid, touch, ev.ts, stem, |events|, ev.refs)
    ensures LinesAdded(before, touch, stem, events + [ev])
  {
    assert (events + [ev])[..|events|] == events;
    forall tok ensures Get(touch, tok) == Get(before, tok) + RingRows(stem, events + [ev], tok) {
      assert Get(mid, tok) == Get(before, tok) + RingRows(stem, events, tok);
      assert Get(touch, tok) == Get(mid, tok) + LineRows(ev.ts, stem, |events|, ev.refs, tok);
    }
  }

  lemma Untouched(touch: Touch, files: Files, stem: Stem, line: nat, refs: seq<Token>)
    ensures RingsAdded(touch, touch, files, []) && LinesAdded(touch, touch, stem, [])
    ensures RefsAdded(touch, touch, 0.0, stem, line, refs)
  {
    forall tok ensures LineRows(0.0, stem, line, refs, tok) == [] {
      NoRowsAtZero(stem, line, refs, tok);
    }
  }

  lemma TrimmedIsBuilt(files: Files, cached: Index, rings: seq<Ring>, force: bool, changed: seq<Ring>,
                       kept: Touch, touch: Touch, out: Index)
    requires changed == Changed(rings, cached.stamp, force) && changed != []
    requires Dropped(cached.touch, kept, Times(changed).Keys)
    requires RingsAdded(kept, touch, files, changed) && Trimmed(touch, out.touch)
    requires NoEmpty(out.touch) && out.stamp == cached.stamp + Times(changed)
    ensures Built(files, cached, rings, force, out)
  {
    forall tok ensures Get(out.touch, tok) == NewRows(files, Get(cached.touch, tok), changed, tok) {
      assert Get(kept, tok) == Without(Get(cached.touch, tok), Times(changed).Keys);
      assert Get(touch, tok) == Get(kept, tok) + Fresh(files, changed, tok);
      assert Get(out.touch, tok) == Newest(Sort(Get(touch, tok), Ts()));
    }
  }

  /** Reads the changed rings again. */
  method ReadRings(files: Files, stamp0: map<Stem, int>, before: Touch, changed: seq<Ring>)
    returns (stamp: map<Stem, int>, touch: Touch)
    requires NoEmpty(before)
    ensures stamp == stamp0 + Times(changed) && RingsAdded(before, touch, files, changed) && NoEmpty(touch)
  {
    stamp, touch := stamp0, before;
    Untouched(touch, files, "", 0, []);
    for i := 0 to |changed|
      invariant stamp == stamp0 + Times(changed[..i])
      invariant RingsAdded(before, touch, files, changed[..i]) && NoEmpty(touch)
    {
      assert changed[..i + 1] == changed[..i] + [changed[i]];
      var r := changed[i];
      stamp := stamp[r.stem := r.mtime];
      ghost var mid := touch;
      touch := ReadRing(touch, files, r);
      AddRing(before, mid, touch, files, changed[..i], r);
    }
    assert changed[..|changed|] == changed;
  }

  /** Drops the changed rings' rows, reads those rings again, and cuts every token to its newest rows. */
  method Reparse(files: Files, cached: Index, rings: seq<Ring>, ghost force: bool, changed: seq<Ring>)
    returns (out: Index)
    requires changed == Changed(rings, cached.stamp, force) && changed != []
    ensures Built(files, cached, rings, force, out)
  {
    var kept := DropRings(cached.touch, changed);
    var stamp, parsed := ReadRings(files, cached.stamp, kept, changed);
    var touch := TrimAll(parsed);
    out := Index(stamp, touch);
    TrimmedIsBuilt(files, cached, rings, force, changed, kept, parsed, out);
  }

  class TouchIndex {
    var disk: Index
    var memo: Option<(seq<Ring>, Index)>

    function Now(): State reads this { State(disk, memo) }

    constructor ()
      ensures Now() == INIT
    {
      disk, memo := EMPTY, None;
    }

    method BuildIndex(files: Files, rings: seq<Ring>, force: bool, readable: bool, saved: bool) returns (out: Index)
      requires DistinctStems(rings)
      modifies this
      ensures Step(files, rings, old(Now()), Build(force, readable, saved), Now(), out)
    {
      if !force && memo.Some? && memo.value.0 == rings {
        return memo.value.1;
      }
      var cached := EMPTY;
      if !force && readable {
        cached := disk;
      }
      var changed := ChangedRings(rings, cached.stamp, force);
      if changed == [] {
        memo := Some((rings, cached));
        return cached;
      }
      out := Reparse(files, cached, rings, force, changed);
      if saved {
        disk := out;
      }
      memo := Some((rings, out));
    }
  }

  method ChangedRings(rings: seq<Ring>, stamp: map<Stem, int>, force: bool) returns (changed: seq<Ring>)
    ensures changed == Changed(rings, stamp, force)
  {
    changed := [];
    for i := 0 to |rings|
      invariant changed == Changed(rings[..i], stamp, force)
    {
      assert rings[..i + 1][..i] == rings[..i];
      if force || rings[i].stem !in stamp || stamp[rings[i].stem] != rings[i].mtime {
        changed := changed + [rings[i]];
      }
    }
    assert rings[..|rings|] == rings;
  }

  /** Drops the rows of the changed rings. */
  method DropRings(before: Touch, changed: seq<Ring>) returns (touch: Touch)
    ensures Dropped(before, touch, Times(changed).Keys) && NoEmpty(touch)
  {
    touch := map[];
    var dirty, todo := Times(changed).Keys, before.Keys;
    while todo != {}
      invariant todo <= before.Keys
      invariant forall tok :: Get(touch, tok) == if tok in todo then [] else Without(Get(before, tok), dirty)
      invariant NoEmpty(touch)
    {
      var tok := Pick(todo);
      var kept := Without(before[tok], dirty);
      if kept != [] {
        touch := touch[tok := kept];
      }
      todo := todo - {tok};
    }
  }

  /** Reads one ring, line by line and ref by ref. */
  method ReadRing(before: Touch, files: Files, r: Ring) returns (touch: Touch)
    requires NoEmpty(before)
    ensures LinesAdded(before, touch, r.stem, files(r.stem, r.mtime)) && NoEmpty(touch)
  {
    touch := before;
    var events := files(r.stem, r.mtime);
    Untouched(touch, files, r.stem, 0, []);
    for i := 0 to |events|
      invariant LinesAdded(before, touch, r.stem, events[..i]) && NoEmpty(touch)
    {
      assert events[..i + 1] == events[..i] + [events[i]];
      ghost var mid := touch;
      if events[i].ts != 0.0 {
        touch := ReadLine(touch, events[i], r.stem, i);
      } else {
        Untouched(touch, files, r.stem, i, events[i].refs);
      }
      AddLine(before, mid, touch, r.stem, events[..i], events[i]);
    }
    assert events[..|events|] == events;
  }

  lemma {:induction false} NoRowsAtZero(stem: Stem, line: nat, refs: seq<Token>, tok: Token)
    ensures LineRows(0.0, stem, line, refs, tok) == []
  {
    if refs != [] {
      NoRowsAtZero(stem, line, refs[..|refs| - 1], tok);
    }
  }

  lemma AddRef(before: Touch, touch: Touch, ts: real, stem: Stem, line: nat, refs: seq<Token>, ref: Token)
    requires RefsAdded(before, touch, ts, stem, line, refs) && ts != 0.0
    ensures ref == "" ==> RefsAdded(before, touch, ts, stem, line, refs + [ref])
    ensures ref != "" ==>
      RefsAdded(before, touch[ref := Get(touch, ref) + [Row(ts, stem, line)]], ts, stem, line, refs + [ref])
  {
    var more := refs + [ref];
    assert more[..|more| - 1] == refs;
    var after := if ref == "" then touch else touch[ref := Get(touch, ref) + [Row(ts, stem, line)]];
    forall tok ensures Get(after, tok) == Get(before, tok) + LineRows(ts, stem, line, more, tok) {
      assert Get(touch, tok) == Get(before, tok) + LineRows(ts, stem, line, refs, tok);
    }
  }

  method ReadLine(before: Touch, ev: Event, stem: Stem, line: nat) returns (touch: Touch)
    requires ev.ts != 0.0 && NoEmpty(before)
    ensures RefsAdded(before, touch, ev.ts, stem, line, ev.refs)
    ensures NoEmpty(touch)
  {
    touch := before;
    for i := 0 to |ev.refs|
      invariant RefsAdded(before, touch, ev.ts, stem, line, ev.refs[..i]) && NoEmpty(touch)
    {
      assert ev.refs[..i + 1] == ev.refs[..i] + [ev.refs[i]];
      AddRef(before, touch, ev.ts, stem, line, ev.refs[..i], ev.refs[i]);
      var tok := ev.refs[i];
      if tok != "" {
        touch := touch[tok := Get(touch, tok) + [Row(ev.ts, stem, line)]];
      }
    }
    assert ev.refs[..|ev.refs|] == ev.refs;
  }

  lemma NewestKeepsSome(rows: seq<Row>)
    requires rows != []
    ensures Newest(Sort(rows, Ts())) != []
  {
    SortKeepsLength(rows, Ts());
  }

  /** Sorts and cuts every token's rows. */
  method TrimAll(before: Touch) returns (touch: Touch)
    requires NoEmpty(before)
    ensures Trimmed(before, touch) && NoEmpty(touch)
  {
    touch := before;
    var todo := before.Keys;
    while todo != {}
      invariant todo <= before.Keys && touch.Keys == before.Keys
      invariant forall tok | tok in before :: touch[tok] == if tok in todo then before[tok]
                                                            else Newest(Sort(before[tok], Ts()))
      invariant NoEmpty(touch)
    {
      var tok := Pick(todo);
      NewestKeepsSome(before[tok]);
      touch := touch[tok := Newest(Sort(touch[tok], Ts()))];
      todo := todo - {tok};
    }
  }
}
