/** Concept similarity through an inverted index, and the fusion of its pairs with the dense ones. */
module ConceptSim {
  import opened Picking
  import opened SetSum
  import opened StableSort

  type Pair = (nat, nat)

  /** Each entity's concepts, each concept's idf, and the entities in row order. */
  datatype Input = Input(sets: map<int, set<int>>, idf: map<int, real>, ids: seq<int>)

  function Idf(x: Input, c: int): real { if c in x.idf then x.idf[c] else 0.0 }

  /** A concept weighs its squared idf. */
  function Worth(x: Input): int -> real { (c: int) => Idf(x, c) * Idf(x, c) }

  /** `{eid: i for i, eid in enumerate(ids)}`: the last row of an entity counts. */
  function Pos(ids: seq<int>): map<int, nat> {
    if ids == [] then map[] else Pos(ids[..|ids| - 1])[ids[|ids| - 1] := |ids| - 1]
  }

  /** The concepts of the entity in row `i`. */
  function ConceptsAt(x: Input, i: nat): set<int> {
    var pos := Pos(x.ids);
    if i < |x.ids| && x.ids[i] in pos && pos[x.ids[i]] == i && x.ids[i] in x.sets then x.sets[x.ids[i]] else {}
  }

  /** The direct form: the squared idf of every shared concept. */
  ghost function Shared(x: Input, i: nat, j: nat): real { Sum(Worth(x), ConceptsAt(x, i) * ConceptsAt(x, j)) }

  ghost function Mass(x: Input, i: nat): real { Sum(Worth(x), ConceptsAt(x, i)) }

  ghost predicate IsSqrt(f: real -> real) { forall y | y >= 0.0 :: RootOf(f, y) }

  ghost predicate RootOf(f: real -> real, y: real) { f(y) >= 0.0 && f(y) * f(y) == y }

  // ----- rows and columns --------------------------------------------------------------

  lemma {:induction false} PosIs(ids: seq<int>)
    ensures forall e :: e in Pos(ids) <==> e in ids
    ensures forall e | e in Pos(ids) :: Pos(ids)[e] < |ids| && ids[Pos(ids)[e]] == e
  {
    if ids != [] {
      var front, last := ids[..|ids| - 1], ids[|ids| - 1];
      PosIs(front);
      assert ids == front + [last];
    }
  }

  function Column(inverted: map<int, seq<nat>>, c: int): seq<nat> { if c in inverted then inverted[c] else [] }

  predicate Distinct(s: seq<nat>) { forall a, b | 0 <= a < b < |s| :: s[a] != s[b] }

  /** The rows in concept `c`'s column, for the entities outside `todo`. */
  ghost predicate ColumnOk(x: Input, col: seq<nat>, c: int, todo: set<int>) {
    && Distinct(col)
    && forall p: nat :: p in col <==> p < |x.ids| && c in ConceptsAt(x, p) && x.ids[p] !in todo
  }

  ghost predicate ColumnsOk(x: Input, inverted: map<int, seq<nat>>, todo: set<int>) {
    forall c :: ColumnOk(x, Column(inverted, c), c, todo)
  }

  lemma NoConceptsAt(x: Input, p: nat, eid: int)
    requires p < |x.ids| && x.ids[p] == eid && (eid !in Pos(x.ids) || Pos(x.ids)[eid] != p)
    ensures ConceptsAt(x, p) == {}
  {
  }

  ghost predicate Appended(before: map<int, seq<nat>>, after: map<int, seq<nat>>, cs: set<int>, row: nat) {
    forall c :: Column(after, c) == Column(before, c) + (if c in cs then [row] else [])
  }

  /** One more entity, with its concepts appended to their columns. */
  lemma EntityDone(x: Input, before: map<int, seq<nat>>, after: map<int, seq<nat>>, todo: set<int>, eid: int)
    requires ColumnsOk(x, before, todo) && eid in todo && eid in x.sets && todo <= x.sets.Keys
    requires eid in Pos(x.ids) ==> Appended(before, after, x.sets[eid], Pos(x.ids)[eid])
    requires eid !in Pos(x.ids) ==> after == before
    ensures ColumnsOk(x, after, todo - {eid})
  {
    PosIs(x.ids);
    forall c ensures ColumnOk(x, Column(after, c), c, todo - {eid}) {
      assert ColumnOk(x, Column(before, c), c, todo);
      if eid in Pos(x.ids) {
        assert Column(after, c) == Column(before, c) + (if c in x.sets[eid] then [Pos(x.ids)[eid]] else []);
        AppendRow(x, Column(before, c), Column(after, c), c, todo, eid, Pos(x.ids)[eid]);
      } else {
        forall p: nat | p < |x.ids| ensures x.ids[p] != eid {
          assert x.ids[p] in x.ids;
        }
      }
    }
  }

  lemma AppendRow(x: Input, col: seq<nat>, more: seq<nat>, c: int, todo: set<int>, eid: int, row: nat)
    requires ColumnOk(x, col, c, todo) && eid in todo && eid in x.sets
    requires eid in Pos(x.ids) && Pos(x.ids)[eid] == row && row < |x.ids| && x.ids[row] == eid
    requires more == col + if c in x.sets[eid] then [row] else []
    ensures ColumnOk(x, more, c, todo - {eid})
  {
    assert ConceptsAt(x, row) == x.sets[eid];
    assert row !in col;
    forall p: nat ensures p in more <==> p < |x.ids| && c in ConceptsAt(x, p) && x.ids[p] !in todo - {eid} {
      if p < |x.ids| && x.ids[p] == eid && p != row {
        NoConceptsAt(x, p, eid);
      }
    }
    forall a, b | 0 <= a < b < |more| ensures more[a] != more[b] {
      assert a < |col| ==> more[a] == col[a] && more[a] in col;
    }
  }

  method Positions(ids: seq<int>) returns (pos: map<int, nat>)
    ensures pos == Pos(ids)
  {
    pos := map[];
    for i := 0 to |ids|
      invariant pos == Pos(ids[..i])
    {
      assert ids[..i + 1][..i] == ids[..i];
      pos := pos[ids[i] := i];
    }
    assert ids[..|ids|] == ids;
  }

  method AppendAll(before: map<int, seq<nat>>, cs: set<int>, row: nat) returns (inverted: map<int, seq<nat>>)
    ensures Appended(before, inverted, cs, row)
    ensures inverted.Keys == before.Keys + cs
  {
    inverted := before;
    var todo := cs;
    while todo != {}
      invariant todo <= cs && inverted.Keys == before.Keys + (cs - todo)
      invariant Appended(before, inverted, cs - todo, row)
    {
      var c := Pick(todo);
      inverted := inverted[c := Column(inverted, c) + [row]];
      todo := todo - {c};
    }
  }

  method Invert(x: Input, pos: map<int, nat>) returns (inverted: map<int, seq<nat>>)
    requires pos == Pos(x.ids)
    ensures ColumnsOk(x, inverted, {})
  {
    inverted := map[];
    var todo := x.sets.Keys;
    while todo != {}
      invariant todo <= x.sets.Keys && ColumnsOk(x, inverted, todo)
    {
      var eid := Pick(todo);
      ghost var before := inverted;
      if eid in pos {
        inverted := AppendAll(inverted, x.sets[eid], pos[eid]);
      }
      EntityDone(x, before, inverted, todo, eid);
      todo := todo - {eid};
    }
  }

  // ----- accumulating ------------------------------------------------------------------

  function Got(num: map<Pair, real>, i: nat, j: nat): real { if (i, j) in num then num[(i, j)] else 0.0 }

  /** The shared worth over the concepts seen so far. */
  ghost function SoFar(x: Input, i: nat, j: nat, seen: set<int>): real {
    Sum(Worth(x), ConceptsAt(x, i) * ConceptsAt(x, j) * seen)
  }

  ghost predicate PairOk(x: Input, num: map<Pair, real>, i: nat, j: nat, seen: set<int>) {
    && Got(num, i, j) == (if i < j then SoFar(x, i, j, seen) else 0.0)
    && ((i, j) in num <==> i < j && SoFar(x, i, j, seen) > 0.0)
  }

  ghost predicate PairsOk(x: Input, num: map<Pair, real>, seen: set<int>) {
    forall i: nat, j: nat :: PairOk(x, num, i, j, seen)
  }

  lemma WorthIsPositive(x: Input)
    ensures NeverNegative(Worth(x))
  {
    forall c ensures Worth(x)(c) >= 0.0 {
      Square(Idf(x, c));
    }
  }

  lemma Square(a: real)
    ensures a * a >= 0.0
  {
  }

  lemma SeeOne(x: Input, i: nat, j: nat, seen: set<int>, c: int)
    requires c !in seen
    ensures SoFar(x, i, j, seen + {c})
      == SoFar(x, i, j, seen) + if c in ConceptsAt(x, i) && c in ConceptsAt(x, j) then Worth(x)(c) else 0.0
  {
    var both := ConceptsAt(x, i) * ConceptsAt(x, j);
    if c in both {
      assert both * (seen + {c}) == both * seen + {c};
      SumUnion(Worth(x), both * seen, {c});
      SumRemove(Worth(x), {c}, c);
      assert {c} - {c} == {};
    } else {
      assert both * (seen + {c}) == both * seen;
    }
  }

  lemma SoFarIsPositive(x: Input, i: nat, j: nat, seen: set<int>)
    ensures SoFar(x, i, j, seen) >= 0.0
  {
    WorthIsPositive(x);
    SumPositive(Worth(x), ConceptsAt(x, i) * ConceptsAt(x, j) * seen);
  }

  /** One concept's column adds its worth to every pair of its rows, and to no other pair. */
  lemma ConceptDone(x: Input, col: seq<nat>, before: map<Pair, real>, after: map<Pair, real>, seen: set<int>, c: int)
    requires PairsOk(x, before, seen) && c !in seen && ColumnOk(x, col, c, {})
    requires Worth(x)(c) > 0.0 && AddedAll(before, after, col, Worth(x)(c))
    ensures PairsOk(x, after, seen + {c})
  {
    forall i: nat, j: nat ensures PairOk(x, after, i, j, seen + {c}) {
      assert PairOk(x, before, i, j, seen) && Added(before, after, col, Worth(x)(c), i, j);
      SeeOne(x, i, j, seen, c);
      SoFarIsPositive(x, i, j, seen);
      assert ConceptsAt(x, i) != {} ==> i < |x.ids|;
      assert ConceptsAt(x, j) != {} ==> j < |x.ids|;
    }
  }

  /** A worthless concept, or one with a single row, changes no pair. */
  lemma ConceptSkipped(x: Input, col: seq<nat>, num: map<Pair, real>, seen: set<int>, c: int)
    requires PairsOk(x, num, seen) && c !in seen && ColumnOk(x, col, c, {})
    requires Worth(x)(c) <= 0.0 || |col| < 2
    ensures PairsOk(x, num, seen + {c})
  {
    WorthIsPositive(x);
    forall i: nat, j: nat ensures PairOk(x, num, i, j, seen + {c}) {
      assert PairOk(x, num, i, j, seen);
      SeeOne(x, i, j, seen, c);
      if i < j && c in ConceptsAt(x, i) && c in ConceptsAt(x, j) {
        assert i in col && j in col;
        TwoRows(col, i, j);
      }
    }
  }

  lemma TwoRows(col: seq<nat>, i: nat, j: nat)
    requires i in col && j in col && i != j
    ensures |col| >= 2
  {
    var a :| 0 <= a < |col| && col[a] == i;
    var b :| 0 <= b < |col| && col[b] == j;
  }

  /** `w` more on every ordered pair of members. */
  ghost predicate Added(before: map<Pair, real>, after: map<Pair, real>, members: seq<nat>, w: real, i: nat, j: nat) {
    var hit := i < j && i in members && j in members;
    && Got(after, i, j) == Got(before, i, j) + (if hit then w else 0.0)
    && ((i, j) in after <==> (i, j) in before || hit)
  }

  /** The pairs `(members[u], members[v])` with u < v that come before `(a, b)`. */
  ghost predicate Reached(members: seq<nat>, a: int, b: int, i: nat, j: nat) {
    exists u, v :: 0 <= u < v < |members| && members[u] == i && members[v] == j && (u < a || (u == a && v < b))
  }

  ghost predicate AddedSoFar(before: map<Pair, real>, num: map<Pair, real>, members: seq<nat>, w: real,
                             a: int, b: int, i: nat, j: nat) {
    && Got(num, i, j) == Got(before, i, j) + (if Reached(members, a, b, i, j) then w else 0.0)
    && ((i, j) in num <==> (i, j) in before || Reached(members, a, b, i, j))
  }

  ghost predicate AllAdded(before: map<Pair, real>, num: map<Pair, real>, members: seq<nat>, w: real, a: int, b: int) {
    forall i: nat, j: nat :: AddedSoFar(before, num, members, w, a, b, i, j)
  }

  predicate Ascending(s: seq<nat>) { forall a, b | 0 <= a < b < |s| :: s[a] < s[b] }

  lemma PlaceOf(members: seq<nat>, u: nat, v: nat)
    requires Ascending(members) && u < |members| && v < |members|
    ensures members[u] < members[v] <==> u < v
    ensures members[u] == members[v] <==> u == v
  {
  }

  lemma ReachOne(members: seq<nat>, a: nat, b: nat, i: nat, j: nat)
    requires Ascending(members) && a < b < |members|
    ensures Reached(members, a, b + 1, i, j) <==> Reached(members, a, b, i, j) || (i == members[a] && j == members[b])
    ensures !Reached(members, a, b, members[a], members[b])
  {
    forall u: nat, v: nat | u < v < |members| && members[u] == members[a] && members[v] == members[b]
      ensures u == a && v == b
    {
      PlaceOf(members, u, a);
      PlaceOf(members, v, b);
    }
  }

  lemma ReachRow(members: seq<nat>, a: nat, i: nat, j: nat)
    requires a < |members|
    ensures Reached(members, a, |members|, i, j) <==> Reached(members, a + 1, a + 2, i, j)
    ensures Reached(members, a + 1, a + 2, i, j) <==> Reached(members, a + 1, 0, i, j)
  {
    if Reached(members, a, |members|, i, j) {
      var u, v :| 0 <= u < v < |members| && members[u] == i && members[v] == j && (u < a || (u == a && v < |members|));
      assert u < a + 1;
    }
    if Reached(members, a + 1, a + 2, i, j) {
      var u, v :| 0 <= u < v < |members| && members[u] == i && members[v] == j && (u < a + 1 || (u == a + 1 && v < a + 2));
      assert u < a + 1;
    }
    if Reached(members, a + 1, 0, i, j) {
      var u, v :| 0 <= u < v < |members| && members[u] == i && members[v] == j && (u < a + 1 || (u == a + 1 && v < 0));
      assert u < a || (u == a && v < |members|);
    }
  }

  lemma ReachAll(members: seq<nat>, i: nat, j: nat)
    requires Ascending(members)
    ensures Reached(members, |members|, 0, i, j) <==> i < j && i in members && j in members
    ensures !Reached(members, 0, 1, i, j)
  {
    if i < j && i in members && j in members {
      var u :| 0 <= u < |members| && members[u] == i;
      var v :| 0 <= v < |members| && members[v] == j;
      PlaceOf(members, u, v);
    }
  }

  /** The double loop over one concept's sorted rows. */
  method AddPairs(before: map<Pair, real>, members: seq<nat>, w: real) returns (num: map<Pair, real>)
    requires Ascending(members)
    ensures AddedAll(before, num, members, w)
  {
    num := before;
    forall i: nat, j: nat ensures AddedSoFar(before, num, members, w, 0, 1, i, j) {
      ReachAll(members, i, j);
    }
    assert AllAdded(before, num, members, w, 0, 1);
    var a := 0;
    while a < |members|
      invariant 0 <= a <= |members| && AllAdded(before, num, members, w, a, a + 1)
    {
      num := AddRow(before, num, members, w, a);
      a := a + 1;
    }
    forall i: nat, j: nat ensures Added(before, num, members, w, i, j) {
      assert AddedSoFar(before, num, members, w, a, a + 1, i, j);
      ReachAll(members, i, j);
      assert Reached(members, |members|, 0, i, j) <==> Reached(members, |members|, |members| + 1, i, j);
    }
  }

  ghost predicate AddedAll(before: map<Pair, real>, after: map<Pair, real>, members: seq<nat>, w: real) {
    forall i: nat, j: nat :: Added(before, after, members, w, i, j)
  }

  lemma PairAdded(before: map<Pair, real>, mid: map<Pair, real>, members: seq<nat>, w: real, a: nat, b: nat, num: map<Pair, real>)
    requires Ascending(members) && a < b < |members| && AllAdded(before, mid, members, w, a, b)
    requires num == mid[(members[a], members[b]) := Got(mid, members[a], members[b]) + w]
    ensures AllAdded(before, num, members, w, a, b + 1)
  {
    var next := b + 1;
    forall i: nat, j: nat ensures AddedSoFar(before, num, members, w, a, next, i, j) {
      assert AddedSoFar(before, mid, members, w, a, b, i, j);
      ReachOne(members, a, b, i, j);
    }
  }

  method AddRow(ghost before: map<Pair, real>, start: map<Pair, real>, members: seq<nat>, w: real, a: nat)
    returns (num: map<Pair, real>)
    requires Ascending(members) && a < |members| && AllAdded(before, start, members, w, a, a + 1)
    ensures AllAdded(before, num, members, w, a + 1, a + 2)
  {
    num := start;
    var b := a + 1;
    while b < |members|
      invariant a < b <= |members| && AllAdded(before, num, members, w, a, b)
    {
      PairAdded(before, num, members, w, a, b, num[(members[a], members[b]) := Got(num, members[a], members[b]) + w]);
      num := num[(members[a], members[b]) := Got(num, members[a], members[b]) + w];
      b := b + 1;
    }
    var a1, a2 := a + 1, a + 2;
    forall i: nat, j: nat ensures AddedSoFar(before, num, members, w, a1, a2, i, j) {
      assert AddedSoFar(before, num, members, w, a, b, i, j);
      ReachRow(members, a, i, j);
    }
  }

  function AsReal(): nat -> real { (n: nat) => n as real }

  lemma SortedColumn(col: seq<nat>)
    requires Distinct(col)
    ensures Ascending(Sort(col, AsReal())) && forall p :: p in Sort(col, AsReal()) <==> p in col
  {
    var sorted := Sort(col, AsReal());
    SortIs(col, AsReal(), 0.0);
    forall p ensures p in sorted <==> p in col {
      assert p in multiset(sorted) <==> p in multiset(col);
    }
    SortKeepsLength(col, AsReal());
    StillDistinct(col, sorted);
    forall a, b | 0 <= a < b < |sorted| ensures sorted[a] < sorted[b] {
      assert AsReal()(sorted[a]) <= AsReal()(sorted[b]);
    }
  }

  lemma StillDistinct(a: seq<nat>, b: seq<nat>)
    requires Distinct(a) && multiset(a) == multiset(b)
    ensures Distinct(b)
  {
    forall i, j | 0 <= i < j < |b| ensures b[i] != b[j] {
      if b[i] == b[j] {
        assert b == b[..i] + [b[i]] + b[i + 1..j] + [b[j]] + b[j + 1..];
        assert multiset(b)[b[i]] >= 2;
        OnceOnly(a, b[i]);
        assert false;
      }
    }
  }

  lemma {:induction false} OnceOnly(a: seq<nat>, x: nat)
    requires Distinct(a)
    ensures multiset(a)[x] <= 1
  {
    if a != [] {
      var rest := a[1..];
      assert a == [a[0]] + rest;
      forall k | 0 <= k < |rest| ensures rest[k] != a[0] {
        assert rest[k] == a[k + 1];
      }
      OnceOnly(rest, x);
      assert a[0] !in multiset(rest);
    }
  }

  lemma AddedToColumn(before: map<Pair, real>, num: map<Pair, real>, members: seq<nat>, col: seq<nat>, w: real)
    requires AddedAll(before, num, members, w) && forall p :: p in members <==> p in col
    ensures AddedAll(before, num, col, w)
  {
    forall i: nat, j: nat ensures Added(before, num, col, w, i, j) {
      assert Added(before, num, members, w, i, j);
    }
  }

  /** One concept's column. */
  method AddConcept(x: Input, col: seq<nat>, before: map<Pair, real>, c: int, ghost seen: set<int>)
    returns (num: map<Pair, real>)
    requires ColumnOk(x, col, c, {}) && PairsOk(x, before, seen) && c !in seen
    ensures PairsOk(x, num, seen + {c})
  {
    num := before;
    var w := Idf(x, c) * Idf(x, c);
    if w <= 0.0 || |col| < 2 {
      ConceptSkipped(x, col, num, seen, c);
      return;
    }
    num := AddColumn(col, before, w);
    ConceptDone(x, col, before, num, seen, c);
  }

  method AddColumn(col: seq<nat>, before: map<Pair, real>, w: real) returns (num: map<Pair, real>)
    requires Distinct(col)
    ensures AddedAll(before, num, col, w)
  {
    SortedColumn(col);
    var members := Sort(col, AsReal());
    num := AddPairs(before, members, w);
    AddedToColumn(before, num, members, col, w);
  }

  method Accumulate(x: Input, inverted: map<int, seq<nat>>) returns (num: map<Pair, real>)
    requires ColumnsOk(x, inverted, {})
    ensures PairsOk(x, num, inverted.Keys)
  {
    num := map[];
    var todo := inverted.Keys;
    forall i: nat, j: nat ensures PairOk(x, num, i, j, {}) {
      assert ConceptsAt(x, i) * ConceptsAt(x, j) * {} == {};
    }
    assert inverted.Keys - todo == {};
    while todo != {}
      invariant todo <= inverted.Keys && PairsOk(x, num, inverted.Keys - todo)
    {
      var c := Pick(todo);
      assert ColumnOk(x, Column(inverted, c), c, {});
      assert inverted.Keys - (todo - {c}) == inverted.Keys - todo + {c};
      num := AddConcept(x, inverted[c], num, c, inverted.Keys - todo);
      todo := todo - {c};
    }
    assert inverted.Keys - {} == inverted.Keys;
  }

  // ----- masses and quotients ----------------------------------------------------------

  method SumSquares(x: Input, cs: set<int>) returns (total: real)
    ensures total == Sum(Worth(x), cs)
  {
    total := 0.0;
    var todo := cs;
    assert cs - todo == {};
    while todo != {}
      invariant todo <= cs && total == Sum(Worth(x), cs - todo)
    {
      var c := Pick(todo);
      SumRemove(Worth(x), cs - todo + {c}, c);
      assert cs - todo + {c} - {c} == cs - todo && cs - (todo - {c}) == cs - todo + {c};
      total := total + Idf(x, c) * Idf(x, c);
      todo := todo - {c};
    }
    assert cs - {} == cs;
  }

  lemma RootOfZero(f: real -> real)
    requires IsSqrt(f)
    ensures f(0.0) == 0.0
  {
    assert RootOf(f, 0.0);
    ZeroSquare(f(0.0));
  }

  lemma ZeroSquare(r: real)
    requires r >= 0.0 && r * r == 0.0
    ensures r == 0.0
  {
    if r != 0.0 {
      SquareOver(r);
    }
  }

  lemma SquareOver(r: real)
    requires r > 0.0
    ensures r * r / r == r
  {
  }

  lemma MassOfRow(x: Input, i: nat)
    ensures Sum(Worth(x), {}) == 0.0
    ensures ConceptsAt(x, i) == {} ==> Mass(x, i) == 0.0
  {
  }

  ghost predicate MassesOk(x: Input, sqrt: real -> real, mass: seq<real>) {
    |mass| == |x.ids| && forall i | 0 <= i < |x.ids| :: mass[i] == sqrt(Mass(x, i))
  }

  method Masses(x: Input, pos: map<int, nat>, sqrt: real -> real) returns (mass: array<real>)
    requires pos == Pos(x.ids) && IsSqrt(sqrt)
    ensures fresh(mass) && MassesOk(x, sqrt, mass[..])
  {
    PosIs(x.ids);
    RootOfZero(sqrt);
    mass := new real[|x.ids|](i => 0.0);
    var todo := x.sets.Keys;
    while todo != {}
      invariant todo <= x.sets.Keys
      invariant forall i | 0 <= i < |x.ids| :: mass[i] == if x.ids[i] in todo then 0.0 else sqrt(Mass(x, i))
    {
      var eid := Pick(todo);
      if eid in pos {
        var total := SumSquares(x, x.sets[eid]);
        mass[pos[eid]] := sqrt(total);
        assert ConceptsAt(x, pos[eid]) == x.sets[eid];
      }
      forall i | 0 <= i < |x.ids| && x.ids[i] == eid ensures mass[i] == sqrt(Mass(x, i)) {
        assert x.ids[i] in x.ids;
        if pos[eid] != i {
          NoConceptsAt(x, i, eid);
          MassOfRow(x, i);
        }
      }
      todo := todo - {eid};
    }
  }

  /** Shared worth is at most the root of the product of the masses. */
  lemma SharedAtMostMasses(v: real, a: real, b: real, ra: real, rb: real)
    requires 0.0 < v <= a && v <= b && ra >= 0.0 && rb >= 0.0 && ra * ra == a && rb * rb == b
    ensures ra * rb > 0.0 && v <= ra * rb
  {
    if ra * rb < v {
      ProductLess(ra * rb, v);
      Rearranged(ra, rb);
      ProductMore(v, a, b);
      assert false;
    }
  }

  lemma ProductLess(p: real, v: real)
    requires 0.0 <= p < v
    ensures p * p < v * v
  {
    calc {
      p * p;
      <= { Scale(p, v, p); }
      p * v;
      < { ScaleMore(p, v, v); }
      v * v;
    }
  }

  lemma Scale(a: real, b: real, c: real)
    requires a <= b && c >= 0.0
    ensures c * a <= c * b
  {
  }

  lemma ScaleMore(a: real, b: real, c: real)
    requires a < b && c > 0.0
    ensures a * c < b * c
  {
  }

  lemma Rearranged(ra: real, rb: real)
    ensures (ra * rb) * (ra * rb) == (ra * ra) * (rb * rb)
  {
  }

  lemma ProductMore(v: real, a: real, b: real)
    requires 0.0 < v <= a && v <= b
    ensures v * v <= a * b
  {
    Scale(v, b, v);
    Scale(v, a, b);
  }

  lemma Quotient(v: real, d: real)
    requires 0.0 < v <= d
    ensures 0.0 < v / d <= 1.0
  {
  }

  /** The pair's similarity, as one would compute it from the two sets. */
  ghost function Similarity(x: Input, sqrt: real -> real, i: nat, j: nat): real
    requires sqrt(Mass(x, i)) * sqrt(Mass(x, j)) != 0.0
  {
    Shared(x, i, j) / (sqrt(Mass(x, i)) * sqrt(Mass(x, j)))
  }

  lemma SimilarityInUnit(x: Input, sqrt: real -> real, i: nat, j: nat)
    requires IsSqrt(sqrt) && Shared(x, i, j) > 0.0
    ensures sqrt(Mass(x, i)) * sqrt(Mass(x, j)) > 0.0 && 0.0 < Similarity(x, sqrt, i, j) <= 1.0
  {
    SharedIsPartOfMass(x, i, j);
    RootsOfMasses(sqrt, Shared(x, i, j), Mass(x, i), Mass(x, j));
  }

  lemma SharedIsPartOfMass(x: Input, i: nat, j: nat)
    ensures Shared(x, i, j) <= Mass(x, i) && Shared(x, i, j) <= Mass(x, j)
  {
    WorthIsPositive(x);
    var both := ConceptsAt(x, i) * ConceptsAt(x, j);
    SumGrows(Worth(x), both, ConceptsAt(x, i));
    SumGrows(Worth(x), both, ConceptsAt(x, j));
  }

  lemma RootsOfMasses(sqrt: real -> real, v: real, a: real, b: real)
    requires IsSqrt(sqrt) && 0.0 < v <= a && v <= b
    ensures sqrt(a) * sqrt(b) > 0.0 && 0.0 < v / (sqrt(a) * sqrt(b)) <= 1.0
  {
    assert RootOf(sqrt, a) && RootOf(sqrt, b);
    SharedAtMostMasses(v, a, b, sqrt(a), sqrt(b));
    Quotient(v, sqrt(a) * sqrt(b));
  }

  lemma SharedIsSeen(x: Input, inverted: map<int, seq<nat>>, i: nat, j: nat)
    requires ColumnsOk(x, inverted, {})
    ensures SoFar(x, i, j, inverted.Keys) == Shared(x, i, j)
  {
    forall c | c in ConceptsAt(x, i) ensures c in inverted {
      assert ColumnOk(x, Column(inverted, c), c, {});
    }
    assert ConceptsAt(x, i) * ConceptsAt(x, j) * inverted.Keys == ConceptsAt(x, i) * ConceptsAt(x, j);
  }

  /** One pair's entry: its direct similarity, between 0 and 1. */
  ghost predicate EntryOk(x: Input, sqrt: real -> real, out: map<Pair, real>, k: Pair)
    requires k in out
  {
    && k.0 < k.1 && Shared(x, k.0, k.1) > 0.0
    && sqrt(Mass(x, k.0)) * sqrt(Mass(x, k.1)) > 0.0
    && out[k] == Similarity(x, sqrt, k.0, k.1) && 0.0 < out[k] <= 1.0
  }

  ghost predicate EntriesOk(x: Input, sqrt: real -> real, out: map<Pair, real>) {
    forall k | k in out :: EntryOk(x, sqrt, out, k)
  }

  lemma OneEntry(x: Input, sqrt: real -> real, out: map<Pair, real>, k: Pair, v: real)
    requires EntriesOk(x, sqrt, out) && k.0 < k.1 && Shared(x, k.0, k.1) > 0.0
    requires sqrt(Mass(x, k.0)) * sqrt(Mass(x, k.1)) > 0.0 && v == Similarity(x, sqrt, k.0, k.1) && 0.0 < v <= 1.0
    ensures EntriesOk(x, sqrt, out[k := v])
  {
    var after := out[k := v];
    forall q | q in after ensures EntryOk(x, sqrt, after, q) {
      assert q != k ==> EntryOk(x, sqrt, out, q);
    }
  }

  lemma NextEntry(x: Input, sqrt: real -> real, mass: seq<real>, out: map<Pair, real>, k: Pair, v: real)
    requires IsSqrt(sqrt) && MassesOk(x, sqrt, mass) && k.0 < k.1 < |x.ids|
    requires EntriesOk(x, sqrt, out) && v == Shared(x, k.0, k.1) && v > 0.0
    ensures mass[k.0] * mass[k.1] > 0.0 && EntriesOk(x, sqrt, out[k := v / (mass[k.0] * mass[k.1])])
  {
    SimilarityInUnit(x, sqrt, k.0, k.1);
    OneEntry(x, sqrt, out, k, v / (mass[k.0] * mass[k.1]));
  }

  /** `_concept_sim`: the pairs that share something, each with its direct similarity. */
  method ConceptSimilarity(x: Input, sqrt: real -> real) returns (out: map<Pair, real>)
    requires IsSqrt(sqrt)
    ensures forall i: nat, j: nat :: (i, j) in out <==> i < j && Shared(x, i, j) > 0.0
    ensures EntriesOk(x, sqrt, out)
  {
    var pos := Positions(x.ids);
    var inverted := Invert(x, pos);
    var num := Accumulate(x, inverted);
    var masses := Masses(x, pos, sqrt);
    var mass := masses[..];
    out := map[];
    var todo := num.Keys;
    while todo != {}
      invariant todo <= num.Keys && out.Keys == num.Keys - todo && EntriesOk(x, sqrt, out)
    {
      var k := Pick(todo);
      NumIsShared(x, inverted, num, k.0, k.1);
      NextEntry(x, sqrt, mass, out, k, num[k]);
      var denom := mass[k.0] * mass[k.1];
      if denom > 0.0 {
        out := out[k := num[k] / denom];
      }
      todo := todo - {k};
    }
    forall i: nat, j: nat ensures (i, j) in out <==> i < j && Shared(x, i, j) > 0.0 {
      NumIsShared(x, inverted, num, i, j);
    }
  }

  lemma NumIsShared(x: Input, inverted: map<int, seq<nat>>, num: map<Pair, real>, i: nat, j: nat)
    requires ColumnsOk(x, inverted, {}) && PairsOk(x, num, inverted.Keys)
    ensures (i, j) in num <==> i < j && Shared(x, i, j) > 0.0
    ensures (i, j) in num ==> num[(i, j)] == Shared(x, i, j) && i < |x.ids| && j < |x.ids|
  {
    assert PairOk(x, num, i, j, inverted.Keys);
    SharedIsSeen(x, inverted, i, j);
    if Shared(x, i, j) > 0.0 {
      assert ConceptsAt(x, i) * ConceptsAt(x, j) != {};
    }
  }

  // ----- fusion ------------------------------------------------------------------------

  datatype Kind = Dense | Concept | Confirmed | Bridge
  datatype Edge = Edge(weight: real, cos: real, s: real, kind: Kind)
  datatype Signal = FusedSignal | DenseSignal | ConceptSignal

  function Sim(csim: map<Pair, real>, k: Pair): real { if k in csim then csim[k] else 0.0 }

  /** A dense edge, strengthened by its pair's similarity. */
  function Firm(dense: map<Pair, real>, csim: map<Pair, real>, beta: real, k: Pair): Edge
    requires k in dense
  {
    var s := Sim(csim, k);
    Edge(dense[k] * (1.0 + beta * s), dense[k], s, if s > 0.0 then Confirmed else Dense)
  }

  /** Every dense edge stays; a pair that is not dense comes in only at `bridgeMin` or above. */
  ghost predicate FusedOk(edges: map<Pair, Edge>, dense: map<Pair, real>, csim: map<Pair, real>, beta: real, gamma: real,
                          bridgeMin: real)
  {
    && (forall k :: k in edges <==> k in dense || (k in csim && csim[k] >= bridgeMin))
    && (forall k | k in dense ::
          (var s := if k in csim then csim[k] else 0.0;
           edges[k] == Edge(dense[k] * (1.0 + beta * s), dense[k], s, if s > 0.0 then Confirmed else Dense)))
    && (forall k | k in edges && k !in dense :: edges[k] == Edge(gamma * csim[k], 0.0, csim[k], Bridge))
  }

  method Fuse(signal: Signal, dense: map<Pair, real>, csim: map<Pair, real>, beta: real, gamma: real, bridgeMin: real)
    returns (edges: map<Pair, Edge>)
    ensures signal == DenseSignal ==> edges.Keys == dense.Keys
    ensures signal == DenseSignal ==> forall k | k in edges :: edges[k] == Edge(dense[k], dense[k], 0.0, Dense)
    ensures signal == ConceptSignal ==> forall k :: k in edges <==> k in csim && csim[k] >= bridgeMin
    ensures signal == ConceptSignal ==> forall k | k in edges :: edges[k] == Edge(csim[k], 0.0, csim[k], Concept)
    ensures signal == FusedSignal ==> FusedOk(edges, dense, csim, beta, gamma, bridgeMin)
  {
    match signal
    case DenseSignal => edges := FuseDense(dense);
    case ConceptSignal => edges := FuseConcept(csim, bridgeMin);
    case FusedSignal => edges := FuseBoth(dense, csim, beta, gamma, bridgeMin);
  }

  method FuseDense(dense: map<Pair, real>) returns (edges: map<Pair, Edge>)
    ensures edges.Keys == dense.Keys
    ensures forall k | k in edges :: edges[k] == Edge(dense[k], dense[k], 0.0, Dense)
  {
    edges := map[];
    var todo := dense.Keys;
    while todo != {}
      invariant todo <= dense.Keys && edges.Keys == dense.Keys - todo
      invariant forall k | k in edges :: edges[k] == Edge(dense[k], dense[k], 0.0, Dense)
    {
      var k := Pick(todo);
      edges := edges[k := Edge(dense[k], dense[k], 0.0, Dense)];
      todo := todo - {k};
    }
  }

  method FuseConcept(csim: map<Pair, real>, bridgeMin: real) returns (edges: map<Pair, Edge>)
    ensures forall k :: k in edges <==> k in csim && csim[k] >= bridgeMin
    ensures forall k | k in edges :: edges[k] == Edge(csim[k], 0.0, csim[k], Concept)
  {
    edges := map[];
    var todo := csim.Keys;
    while todo != {}
      invariant todo <= csim.Keys
      invariant forall k :: k in edges <==> k in csim && k !in todo && csim[k] >= bridgeMin
      invariant forall k | k in edges :: edges[k] == Edge(csim[k], 0.0, csim[k], Concept)
    {
      var k := Pick(todo);
      if csim[k] >= bridgeMin {
        edges := edges[k := Edge(csim[k], 0.0, csim[k], Concept)];
      }
      todo := todo - {k};
    }
  }

  /** Every dense pair, firmer by what its concepts share. */
  method FuseFirm(dense: map<Pair, real>, csim: map<Pair, real>, beta: real) returns (edges: map<Pair, Edge>)
    ensures edges.Keys == dense.Keys
    ensures forall k | k in dense :: edges[k] == Firm(dense, csim, beta, k)
  {
    edges := map[];
    var todo := dense.Keys;
    while todo != {}
      invariant todo <= dense.Keys && edges.Keys == dense.Keys - todo
      invariant forall k | k in edges :: edges[k] == Firm(dense, csim, beta, k)
    {
      var k := Pick(todo);
      edges := edges[k := Firm(dense, csim, beta, k)];
      todo := todo - {k};
    }
  }

  method FuseBoth(dense: map<Pair, real>, csim: map<Pair, real>, beta: real, gamma: real, bridgeMin: real)
    returns (edges: map<Pair, Edge>)
    ensures FusedOk(edges, dense, csim, beta, gamma, bridgeMin)
  {
    edges := FuseFirm(dense, csim, beta);
    var todo := csim.Keys;
    while todo != {}
      invariant todo <= csim.Keys
      invariant forall k :: k in edges <==> k in dense || (k in csim && k !in todo && csim[k] >= bridgeMin)
      invariant forall k | k in dense :: edges[k] == Firm(dense, csim, beta, k)
      invariant forall k | k in edges && k !in dense :: edges[k] == Edge(gamma * csim[k], 0.0, csim[k], Bridge)
    {
      var k := Pick(todo);
      if k !in edges && csim[k] >= bridgeMin {
        edges := edges[k := Edge(gamma * csim[k], 0.0, csim[k], Bridge)];
      }
      todo := todo - {k};
    }
  }
}
