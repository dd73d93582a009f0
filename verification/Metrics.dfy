/** Ranking metrics over exact reals.  `lg` stands for `math.log2`; what is used of it is
  * that log2(2) = 1, that it never decreases, and that log2(r + 1) <= r. */
module Metrics {
  import opened StableSort

  /** A dictionary in its iteration order. */
  type Scores = seq<(string, real)>
  type Rels = seq<(string, int)>
  type Run = seq<(string, Scores)>
  type Qrels = map<string, Rels>
  type Log = nat -> real

  ghost predicate LogLike(lg: Log) {
    && lg(2) == 1.0
    && (forall m: nat, n: nat | 2 <= m <= n :: lg(m) <= lg(n))
    && (forall n: nat | 2 <= n :: lg(n) <= (n - 1) as real)
  }

  predicate DistinctKeys<T>(d: seq<(string, T)>) {
    forall i, j | 0 <= i < j < |d| :: d[i].0 != d[j].0
  }

  ghost predicate Dicts(run: Run, qrels: Qrels) {
    && (forall q | q in run :: DistinctKeys(q.1))
    && (forall q | q in qrels :: DistinctKeys(qrels[q]))
  }

  lemma {:induction false} InsertDistinct<T>(x: (string, T), s: seq<(string, T)>, key: ((string, T)) -> real)
    requires DistinctKeys(s) && forall p | p in s :: p.0 != x.0
    ensures DistinctKeys(Insert(x, s, key))
  {
    if s != [] && key(x) > key(s[0]) {
      InsertDistinct(x, s[1..], key);
      InsertKeeps(x, s[1..], key);
      var rest := Insert(x, s[1..], key);
      forall j | 0 <= j < |rest| ensures rest[j].0 != s[0].0 {
        assert rest[j] in multiset(rest);
      }
    }
  }

  lemma {:induction false} SortDistinct<T>(s: seq<(string, T)>, key: ((string, T)) -> real)
    requires DistinctKeys(s)
    ensures DistinctKeys(Sort(s, key))
  {
    if s != [] {
      SortDistinct(s[1..], key);
      SortIs(s[1..], key, 0.0);
      forall p | p in Sort(s[1..], key) ensures p.0 != s[0].0 {
        assert p in multiset(s[1..]);
      }
      InsertDistinct(s[0], Sort(s[1..], key), key);
    }
  }

  // ----- the metrics -------------------------------------------------------------------

  function Keys<T>(d: seq<(string, T)>): (ks: seq<string>)
    ensures |ks| == |d| && forall i | 0 <= i < |d| :: ks[i] == d[i].0
  {
    seq(|d|, i requires 0 <= i < |d| => d[i].0)
  }

  function Take<T>(s: seq<T>, k: nat): seq<T> {
    if k <= |s| then s[..k] else s
  }

  /** `_ranked`: the k best-scored documents, ties in dictionary order. */
  function Ranked(scored: Scores, k: nat): seq<string> {
    Keys(Take(Sort(scored, (p: (string, real)) => -p.1), k))
  }

  /** The judged documents with a positive relevance, in dictionary order. */
  function Relevant(rels: Rels): Rels {
    if rels == [] then []
    else (if rels[0].1 > 0 then [rels[0]] else []) + Relevant(rels[1..])
  }

  function RelsFor(qrels: Qrels, q: string): Rels {
    if q in qrels then Relevant(qrels[q]) else []
  }

  function RelOf(rels: Rels, d: string): int {
    if rels == [] then 0 else if rels[0].0 == d then rels[0].1 else RelOf(rels[1..], d)
  }

  function Pow2(n: nat): nat {
    if n == 0 then 1 else 2 * Pow2(n - 1)
  }

  function Gain(rel: int): real {
    if rel > 0 then (Pow2(rel) - 1) as real else 0.0
  }

  /** The first relevant document's 1/rank. */
  function ReciprocalRank(ranked: seq<string>, rels: Rels, rank: nat): real
    requires 1 <= rank
  {
    if ranked == [] then 0.0
    else if ranked[0] in Keys(rels) then 1.0 / rank as real
    else ReciprocalRank(ranked[1..], rels, rank + 1)
  }

  function Hits(ranked: seq<string>, rels: Rels): nat {
    if ranked == [] then 0 else (if ranked[0] in Keys(rels) then 1 else 0) + Hits(ranked[1..], rels)
  }

  /** Discounted sum of gains, the first at position `i`. */
  function Discounted(gains: seq<real>, lg: Log, i: nat): real
    requires forall n: nat | 2 <= n :: lg(n) != 0.0
  {
    if gains == [] then 0.0 else gains[0] / lg(i + 2) + Discounted(gains[1..], lg, i + 1)
  }

  function RankGains(ranked: seq<string>, rels: Rels): (g: seq<real>)
    ensures |g| == |ranked| && forall i | 0 <= i < |g| :: g[i] == Gain(RelOf(rels, ranked[i]))
  {
    seq(|ranked|, i requires 0 <= i < |ranked| => Gain(RelOf(rels, ranked[i])))
  }

  /** `sorted(rel_map.values(), reverse=True)[:k]`, as gains. */
  function IdealGains(rels: Rels, k: nat): (g: seq<real>) {
    var ideal := Take(Sort(rels, (p: (string, int)) => -(p.1 as real)), k);
    seq(|ideal|, i requires 0 <= i < |ideal| => Gain(ideal[i].1))
  }

  // ----- the ideal list dominates every ranking ----------------------------------------

  function Sum(g: seq<real>): real {
    if g == [] then 0.0 else g[0] + Sum(g[1..])
  }

  lemma {:induction false} Pow2Grows(m: nat, n: nat)
    requires m <= n
    ensures 1 <= Pow2(m) <= Pow2(n)
    decreases n
  {
    if m < n {
      Pow2Grows(m, n - 1);
    } else if 0 < n {
      Pow2Grows(m - 1, n - 1);
    }
  }

  lemma GainGrows(a: int, b: int)
    requires a <= b
    ensures 0.0 <= Gain(a) <= Gain(b) && (0 < a ==> 1.0 <= Gain(a))
  {
    if 0 < b {
      Pow2Grows(if 0 < a then a else 0, b);
      if 0 < a { Pow2Grows(1, a); }
    }
  }

  /** Without entry `j`. */
  function Drop<T>(s: seq<T>, j: nat): seq<T>
    requires j < |s|
  {
    s[..j] + s[j + 1..]
  }

  function GainsOf(rels: Rels): (g: seq<real>)
    ensures |g| == |rels| && forall i | 0 <= i < |g| :: g[i] == Gain(rels[i].1)
  {
    seq(|rels|, i requires 0 <= i < |rels| => Gain(rels[i].1))
  }

  predicate FallingRels(rels: Rels) {
    forall i, j | 0 <= i < j < |rels| :: rels[i].1 >= rels[j].1
  }

  predicate DistinctDocs(docs: seq<string>) {
    forall i, j | 0 <= i < j < |docs| :: docs[i] != docs[j]
  }

  lemma {:induction false} RelOfIs(rels: Rels, d: string)
    requires DistinctKeys(rels)
    ensures forall j | 0 <= j < |rels| && rels[j].0 == d :: RelOf(rels, d) == rels[j].1
    ensures d !in Keys(rels) ==> RelOf(rels, d) == 0
  {
    if rels != [] && rels[0].0 != d {
      assert DistinctKeys(rels[1..]);
      RelOfIs(rels[1..], d);
      forall j | 0 <= j < |rels| && rels[j].0 == d ensures RelOf(rels, d) == rels[j].1 {
        assert rels[1..][j - 1] == rels[j];
      }
      if d !in Keys(rels) {
        assert forall j | 0 <= j < |rels[1..]| :: Keys(rels[1..])[j] == Keys(rels)[j + 1];
      }
    }
  }

  lemma {:induction false} DropKeepsOthers(rels: Rels, j: nat, d: string)
    requires j < |rels| && rels[j].0 != d
    ensures RelOf(Drop(rels, j), d) == RelOf(rels, d)
  {
    if j == 0 {
      assert Drop(rels, 0) == rels[1..];
    } else {
      DropKeepsOthers(rels[1..], j - 1, d);
      assert Drop(rels, j) == [rels[0]] + Drop(rels[1..], j - 1);
    }
  }

  lemma {:induction false} SumDrop(g: seq<real>, j: nat)
    requires j < |g|
    ensures Sum(g) == g[j] + Sum(Drop(g, j))
  {
    if j == 0 {
      assert Drop(g, 0) == g[1..];
    } else {
      SumDrop(g[1..], j - 1);
      assert Drop(g, j) == [g[0]] + Drop(g[1..], j - 1);
    }
  }

  /** The drop of the best remaining entry leaves one place fewer to fill. */
  lemma TakeAfterDrop(g: seq<real>, j: nat, n: nat)
    requires j < |g| && 1 <= n
    requires forall i, k | 0 <= i < k < |g| :: g[i] >= g[k]
    ensures g[j] + Sum(Take(Drop(g, j), n - 1)) <= Sum(Take(g, n))
  {
    if j < n {
      SumDrop(Take(g, n), j);
      assert Take(Drop(g, j), n - 1) == Drop(Take(g, n), j);
    } else {
      SumDrop(Take(g, n), n - 1);
      assert Take(Drop(g, j), n - 1) == Drop(Take(g, n), n - 1);
    }
  }

  lemma TakeGrows(g: seq<real>, n: nat)
    requires forall i | 0 <= i < |g| :: 0.0 <= g[i]
    ensures Sum(Take(g, n)) <= Sum(Take(g, n + 1))
  {
    if n < |g| {
      SumDrop(Take(g, n + 1), n);
      assert Drop(Take(g, n + 1), n) == Take(g, n);
    } else {
      assert Take(g, n) == g;
    }
  }

  /** Any n distinct documents gain at most the n best entries do. */
  lemma {:induction false} TopSum(rels: Rels, docs: seq<string>)
    requires DistinctKeys(rels) && FallingRels(rels) && DistinctDocs(docs)
    ensures Sum(RankGains(docs, rels)) <= Sum(Take(GainsOf(rels), |docs|))
    decreases |docs|
  {
    GainsFall(rels);
    if docs != [] {
      SumOfRanked(docs, rels);
      RelOfIs(rels, docs[0]);
      if j :| 0 <= j < |rels| && rels[j].0 == docs[0] {
        DropIsDistinct(rels, j);
        TopSum(Drop(rels, j), docs[1..]);
        WithoutFirst(rels, docs, j);
        TakeAfterDrop(GainsOf(rels), j, |docs|);
      } else {
        TopSum(rels, docs[1..]);
        TakeGrows(GainsOf(rels), |docs| - 1);
      }
    }
  }

  lemma GainsFall(rels: Rels)
    requires FallingRels(rels)
    ensures forall i, k | 0 <= i <= k < |rels| :: 0.0 <= GainsOf(rels)[k] <= GainsOf(rels)[i]
  {
    forall i, k | 0 <= i <= k < |rels| ensures 0.0 <= GainsOf(rels)[k] <= GainsOf(rels)[i] {
      GainGrows(rels[k].1, rels[i].1);
    }
  }

  lemma SumOfRanked(docs: seq<string>, rels: Rels)
    requires docs != []
    ensures Sum(RankGains(docs, rels)) == Gain(RelOf(rels, docs[0])) + Sum(RankGains(docs[1..], rels))
  {
    assert RankGains(docs, rels)[1..] == RankGains(docs[1..], rels);
  }

  /** The rest of a ranking does not see the entry of its first document. */
  lemma WithoutFirst(rels: Rels, docs: seq<string>, j: nat)
    requires docs != [] && DistinctDocs(docs) && j < |rels| && rels[j].0 == docs[0]
    ensures RankGains(docs[1..], Drop(rels, j)) == RankGains(docs[1..], rels)
    ensures GainsOf(Drop(rels, j)) == Drop(GainsOf(rels), j)
  {
    var rest := docs[1..];
    forall i | 0 <= i < |rest| ensures RelOf(Drop(rels, j), rest[i]) == RelOf(rels, rest[i]) {
      assert rest[i] == docs[i + 1];
      DropKeepsOthers(rels, j, rest[i]);
    }
  }

  lemma DropIsDistinct(rels: Rels, j: nat)
    requires DistinctKeys(rels) && FallingRels(rels) && j < |rels|
    ensures DistinctKeys(Drop(rels, j)) && FallingRels(Drop(rels, j))
  {
    var d := Drop(rels, j);
    forall i | 0 <= i < |d| ensures d[i] == if i < j then rels[i] else rels[i + 1] {
    }
  }

  ghost predicate Discounts(lg: Log) {
    LogLike(lg) && forall n: nat | 2 <= n :: 1.0 <= lg(n)
  }

  lemma LogDiscounts(lg: Log)
    requires LogLike(lg)
    ensures Discounts(lg)
  {
    assert forall n: nat | 2 <= n :: lg(2) <= lg(n);
  }

  lemma DivideLess(a: real, b: real, x: real)
    requires a <= b && 0.0 < x
    ensures a / x <= b / x
  {
  }

  lemma Fraction(a: real, x: real)
    requires 0.0 <= a <= x && 0.0 < x
    ensures 0.0 <= a / x <= 1.0
  {
    DivideLess(0.0, a, x);
    DivideLess(a, x, x);
  }

  lemma DivideByMore(a: real, x: real, y: real)
    requires 0.0 <= a && 0.0 < x <= y
    ensures 0.0 <= a / y <= a / x
  {
    assert a / y * y == a && a / x * x == a;
    if a / x < a / y {
      MulLess(a / x, a / y, y);
      MulMore(a / x, x, y);
      assert false;
    }
  }

  lemma MulLess(a: real, b: real, y: real)
    requires a < b && 0.0 < y
    ensures a * y < b * y
  {
  }

  lemma MulMore(a: real, x: real, y: real)
    requires 0.0 <= a && x <= y
    ensures a * x <= a * y
  {
  }

  lemma {:induction false} DiscountedIsPositive(g: seq<real>, lg: Log, i: nat)
    requires Discounts(lg) && forall j | 0 <= j < |g| :: 0.0 <= g[j]
    ensures 0.0 <= Discounted(g, lg, i)
  {
    if g != [] {
      DiscountedIsPositive(g[1..], lg, i + 1);
      DivideByMore(g[0], lg(i + 2), lg(i + 2));
    }
  }

  lemma DivideSum(a: real, b: real, c: real, x: real)
    requires 0.0 < x
    ensures (a + b - c) / x == a / x + b / x - c / x
  {
  }

  /** No prefix of `g` outweighs the same prefix of `h` by more than `slack`. */
  ghost predicate PrefixesWithin(g: seq<real>, h: seq<real>, slack: real) {
    forall m: nat | m <= |g| :: Sum(g[..m]) <= slack + Sum(Take(h, m))
  }

  function Rest(h: seq<real>): seq<real> { if h == [] then [] else h[1..] }

  function Head(h: seq<real>): real { if h == [] then 0.0 else h[0] }

  lemma PrefixesShift(g: seq<real>, h: seq<real>, slack: real)
    requires g != [] && PrefixesWithin(g, h, slack)
    ensures 0.0 <= slack + Head(h) - g[0]
    ensures PrefixesWithin(g[1..], Rest(h), slack + Head(h) - g[0])
  {
    assert g[..1] == [g[0]] && Sum(g[..1]) <= slack + Sum(Take(h, 1));
    assert h != [] ==> Take(h, 1) == [h[0]];
    forall m: nat | m <= |g[1..]| ensures Sum(g[1..][..m]) <= slack + Head(h) - g[0] + Sum(Take(Rest(h), m)) {
      assert g[..m + 1] == [g[0]] + g[1..][..m];
      assert Sum(g[..m + 1]) <= slack + Sum(Take(h, m + 1));
      if h != [] {
        assert Take(h, m + 1) == [h[0]] + Take(h[1..], m);
      }
    }
  }

  /** Summation by parts: a falling discount keeps the order of the prefix sums. */
  lemma {:induction false} DiscountKeepsOrder(g: seq<real>, h: seq<real>, lg: Log, i: nat, slack: real)
    requires Discounts(lg) && 0.0 <= slack && PrefixesWithin(g, h, slack)
    requires forall j | 0 <= j < |h| :: 0.0 <= h[j]
    ensures Discounted(g, lg, i) <= slack / lg(i + 2) + Discounted(h, lg, i)
    decreases |g|
  {
    var x, y := lg(i + 2), lg(i + 3);
    if g == [] {
      DiscountedIsPositive(h, lg, i);
      DivideByMore(slack, x, x);
    } else {
      PrefixesShift(g, h, slack);
      var slack' := slack + Head(h) - g[0];
      DiscountKeepsOrder(g[1..], Rest(h), lg, i + 1, slack');
      DivideByMore(slack', x, y);
      DivideSum(slack, Head(h), g[0], x);
      assert Discounted(h, lg, i) == Head(h) / x + Discounted(Rest(h), lg, i + 1);
    }
  }

  // ----- one query ---------------------------------------------------------------------

  datatype Metric = Mrr | Recall | Ndcg

  /** One query's score; `rels` are its relevant documents, at least one. */
  function Score(m: Metric, scored: Scores, rels: Rels, k: nat, lg: Log): real
    requires rels != [] && forall n: nat | 2 <= n :: lg(n) != 0.0
  {
    var ranked := Ranked(scored, k);
    match m
    case Mrr => ReciprocalRank(ranked, rels, 1)
    case Recall => Hits(ranked, rels) as real / |rels| as real
    case Ndcg =>
      var idcg := Discounted(IdealGains(rels, k), lg, 0);
      if idcg > 0.0 then Discounted(RankGains(ranked, rels), lg, 0) / idcg else 0.0
  }

  function ByRel(rels: Rels): Rels {
    Sort(rels, (p: (string, int)) => -(p.1 as real))
  }

  lemma ByRelIs(rels: Rels)
    requires DistinctKeys(rels)
    ensures DistinctKeys(ByRel(rels)) && FallingRels(ByRel(rels)) && multiset(ByRel(rels)) == multiset(rels)
    ensures forall d :: RelOf(ByRel(rels), d) == RelOf(rels, d)
  {
    var key := (p: (string, int)) => -(p.1 as real);
    SortIs(rels, key, 0.0);
    SortDistinct(rels, key);
    var sorted := ByRel(rels);
    forall i, j | 0 <= i < j < |sorted| ensures sorted[i].1 >= sorted[j].1 {
      assert key(sorted[i]) <= key(sorted[j]);
    }
    forall d ensures RelOf(sorted, d) == RelOf(rels, d) {
      SameEntries(rels, sorted, d);
    }
  }

  lemma SameEntries(a: Rels, b: Rels, d: string)
    requires DistinctKeys(a) && DistinctKeys(b) && multiset(a) == multiset(b)
    ensures RelOf(a, d) == RelOf(b, d)
  {
    RelOfIs(a, d);
    RelOfIs(b, d);
    if j :| 0 <= j < |a| && a[j].0 == d {
      assert a[j] in multiset(b);
    } else if j :| 0 <= j < |b| && b[j].0 == d {
      assert b[j] in multiset(a);
    }
  }

  lemma RankedIsDistinct(scored: Scores, k: nat)
    requires DistinctKeys(scored)
    ensures DistinctDocs(Ranked(scored, k)) && |Ranked(scored, k)| <= k
  {
    SortDistinct(scored, (p: (string, real)) => -p.1);
  }

  lemma IdealIs(rels: Rels, k: nat)
    ensures IdealGains(rels, k) == Take(GainsOf(ByRel(rels)), k)
  {
  }

  /** The first m gains of any ranking add up to at most the m best ones. */
  lemma PrefixesDominated(docs: seq<string>, rels: Rels, k: nat)
    requires DistinctKeys(rels) && DistinctDocs(docs) && |docs| <= k
    ensures PrefixesWithin(RankGains(docs, rels), IdealGains(rels, k), 0.0)
  {
    ByRelIs(rels);
    IdealIs(rels, k);
    var sorted := ByRel(rels);
    var g, h := RankGains(docs, rels), IdealGains(rels, k);
    forall m: nat | m <= |g| ensures Sum(g[..m]) <= 0.0 + Sum(Take(h, m)) {
      TopSum(sorted, docs[..m]);
      assert RankGains(docs[..m], sorted) == g[..m];
      assert Take(h, m) == Take(GainsOf(sorted), m);
    }
  }

  lemma GainsArePositive(docs: seq<string>, rels: Rels, k: nat)
    ensures forall j | 0 <= j < |RankGains(docs, rels)| :: 0.0 <= RankGains(docs, rels)[j]
    ensures forall j | 0 <= j < |IdealGains(rels, k)| :: 0.0 <= IdealGains(rels, k)[j]
  {
    IdealIs(rels, k);
    forall j | 0 <= j < |IdealGains(rels, k)| ensures 0.0 <= IdealGains(rels, k)[j] {
      GainGrows(ByRel(rels)[j].1, ByRel(rels)[j].1);
    }
    forall j | 0 <= j < |docs| ensures 0.0 <= RankGains(docs, rels)[j] {
      GainGrows(RelOf(rels, docs[j]), RelOf(rels, docs[j]));
    }
  }

  /** The discounted gain of any ranking is at most that of the ideal list. */
  lemma DcgAtMostIdeal(docs: seq<string>, rels: Rels, k: nat, lg: Log)
    requires LogLike(lg) && DistinctKeys(rels) && DistinctDocs(docs) && |docs| <= k
    ensures forall n: nat | 2 <= n :: lg(n) != 0.0
    ensures 0.0 <= Discounted(RankGains(docs, rels), lg, 0) <= Discounted(IdealGains(rels, k), lg, 0)
  {
    LogDiscounts(lg);
    GainsArePositive(docs, rels, k);
    PrefixesDominated(docs, rels, k);
    DiscountKeepsOrder(RankGains(docs, rels), IdealGains(rels, k), lg, 0, 0.0);
    DiscountedIsPositive(RankGains(docs, rels), lg, 0);
    DivideByMore(0.0, lg(2), lg(2));
  }

  function Ones(rels: Rels): (o: Rels)
    ensures |o| == |rels| && forall i | 0 <= i < |o| :: o[i] == (rels[i].0, 1)
  {
    seq(|rels|, i requires 0 <= i < |rels| => (rels[i].0, 1))
  }

  lemma {:induction false} SumOfOnes(g: seq<real>)
    requires forall i | 0 <= i < |g| :: g[i] == 1.0
    ensures Sum(g) == |g| as real
  {
    if g != [] {
      SumOfOnes(g[1..]);
    }
  }

  lemma {:induction false} HitsAreGains(docs: seq<string>, rels: Rels)
    requires DistinctKeys(rels)
    ensures Hits(docs, rels) as real == Sum(RankGains(docs, Ones(rels)))
  {
    if docs != [] {
      HitsAreGains(docs[1..], rels);
      var o := Ones(rels);
      assert RankGains(docs, o)[1..] == RankGains(docs[1..], o);
      assert Keys(o) == Keys(rels);
      RelOfIs(o, docs[0]);
      assert Pow2(1) == 2;
      if docs[0] in Keys(rels) {
        var j :| 0 <= j < |Keys(rels)| && Keys(rels)[j] == docs[0];
        assert o[j].0 == docs[0];
      }
    }
  }

  lemma HitsAtMostAll(docs: seq<string>, rels: Rels)
    requires DistinctKeys(rels) && DistinctDocs(docs)
    ensures Hits(docs, rels) <= |rels|
  {
    var o := Ones(rels);
    HitsAreGains(docs, rels);
    TopSum(o, docs);
    assert Pow2(1) == 2;
    SumOfOnes(Take(GainsOf(o), |docs|));
  }

  lemma {:induction false} ReciprocalInUnit(docs: seq<string>, rels: Rels, rank: nat)
    requires 1 <= rank
    ensures 0.0 <= ReciprocalRank(docs, rels, rank) <= 1.0
  {
    if docs != [] {
      ReciprocalInUnit(docs[1..], rels, rank + 1);
      DivideByMore(1.0, 1.0, rank as real);
    }
  }

  /** Every metric of every query lies between 0 and 1. */
  lemma ScoreInUnit(m: Metric, scored: Scores, rels: Rels, k: nat, lg: Log)
    requires LogLike(lg) && rels != [] && DistinctKeys(scored) && DistinctKeys(rels)
    ensures forall n: nat | 2 <= n :: lg(n) != 0.0
    ensures 0.0 <= Score(m, scored, rels, k, lg) <= 1.0
  {
    LogDiscounts(lg);
    RankedIsDistinct(scored, k);
    var docs := Ranked(scored, k);
    match m
    case Mrr => ReciprocalInUnit(docs, rels, 1);
    case Recall =>
      HitsAtMostAll(docs, rels);
      Fraction(Hits(docs, rels) as real, |rels| as real);
    case Ndcg =>
      DcgAtMostIdeal(docs, rels, k, lg);
      var dcg, idcg := Discounted(RankGains(docs, rels), lg, 0), Discounted(IdealGains(rels, k), lg, 0);
      if idcg > 0.0 {
        Fraction(dcg, idcg);
      }
  }

  // ----- one relevant document ---------------------------------------------------------

  lemma RestOfGains(docs: seq<string>, rels: Rels)
    requires docs != []
    ensures RankGains(docs, rels)[1..] == RankGains(docs[1..], rels)
    ensures RankGains(docs, rels)[0] == Gain(RelOf(rels, docs[0]))
  {
  }

  lemma {:induction false} MissCounts(docs: seq<string>, rels: Rels, rank: nat)
    requires |rels| == 1 && rels[0].0 !in docs && 1 <= rank
    ensures ReciprocalRank(docs, rels, rank) == 0.0 && Hits(docs, rels) == 0
  {
    if docs != [] {
      assert docs[0] in docs;
      MissCounts(docs[1..], rels, rank + 1);
    }
  }

  lemma {:induction false} MissGains(docs: seq<string>, rels: Rels, lg: Log, i: nat)
    requires Discounts(lg) && |rels| == 1 && rels[0].0 !in docs
    ensures Discounted(RankGains(docs, rels), lg, i) == 0.0
  {
    if docs != [] {
      assert docs[0] in docs && RelOf(rels, docs[0]) == 0;
      RestOfGains(docs, rels);
      DivideByMore(0.0, lg(i + 2), lg(i + 2));
      MissGains(docs[1..], rels, lg, i + 1);
    }
  }

  lemma {:induction false} HitCounts(docs: seq<string>, rels: Rels, rank: nat, p: nat)
    requires |rels| == 1 && DistinctDocs(docs) && p < |docs| && docs[p] == rels[0].0 && 1 <= rank
    ensures ReciprocalRank(docs, rels, rank) == 1.0 / (rank + p) as real && Hits(docs, rels) == 1
  {
    assert Keys(rels) == [rels[0].0];
    if p == 0 {
      MissCounts(docs[1..], rels, rank + 1);
    } else {
      assert docs[0] != docs[p];
      HitCounts(docs[1..], rels, rank + 1, p - 1);
    }
  }

  lemma {:induction false} HitGains(docs: seq<string>, rels: Rels, lg: Log, i: nat, p: nat)
    requires Discounts(lg) && |rels| == 1 && DistinctDocs(docs) && p < |docs| && docs[p] == rels[0].0
    ensures Discounted(RankGains(docs, rels), lg, i) == Gain(rels[0].1) / lg(i + p + 2)
  {
    RestOfGains(docs, rels);
    if p == 0 {
      assert RelOf(rels, docs[0]) == rels[0].1;
      MissGains(docs[1..], rels, lg, i + 1);
    } else {
      assert docs[0] != docs[p];
      assert RelOf(rels, docs[0]) == 0;
      DivideByMore(0.0, lg(i + 2), lg(i + 2));
      HitGains(docs[1..], rels, lg, i + 1, p - 1);
    }
  }

  lemma Reciprocals(g: real, x: real, y: real)
    requires 1.0 <= g && 1.0 <= x <= y
    ensures 1.0 / y <= (g / x) / (g / 1.0) <= 1.0
  {
    DivideByMore(1.0, x, y);
    DivideByMore(1.0, 1.0, x);
    assert g / x == g * (1.0 / x);
    assert (g / x) / (g / 1.0) == 1.0 / x;
  }

  lemma RankedPrefix(scored: Scores, k: nat)
    requires 1 <= k
    ensures Ranked(scored, 1) == Take(Ranked(scored, k), 1)
  {
  }

  lemma SortOne<T>(x: T, key: T -> real)
    ensures Sort([x], key) == [x]
  {
    assert [x][1..] == [];
    assert Sort([x][1..], key) == [];
  }

  lemma OnlyOneIdeal(rels: Rels, k: nat, lg: Log)
    requires Discounts(lg) && |rels| == 1 && 1 <= k
    ensures Discounted(IdealGains(rels, k), lg, 0) == Gain(rels[0].1) / lg(2)
  {
    assert rels == [rels[0]];
    SortOne(rels[0], (p: (string, int)) => -(p.1 as real));
    IdealIs(rels, k);
    assert IdealGains(rels, k) == [Gain(rels[0].1)];
  }

  /** With exactly one relevant document: Recall@1 <= MRR@k <= nDCG@k <= Recall@k. */
  lemma SingleRelevantChain(scored: Scores, rels: Rels, k: nat, lg: Log)
    requires LogLike(lg) && DistinctKeys(scored) && |rels| == 1 && rels[0].1 > 0 && 1 <= k
    ensures forall n: nat | 2 <= n :: lg(n) != 0.0
    ensures Score(Recall, scored, rels, 1, lg) <= Score(Mrr, scored, rels, k, lg)
                 <= Score(Ndcg, scored, rels, k, lg) <= Score(Recall, scored, rels, k, lg)
  {
    LogDiscounts(lg);
    RankedIsDistinct(scored, k);
    RankedIsDistinct(scored, 1);
    RankedPrefix(scored, k);
    OnlyOneIdeal(rels, k, lg);
    GainGrows(rels[0].1, rels[0].1);
    var docs, first := Ranked(scored, k), Ranked(scored, 1);
    if p :| 0 <= p < |docs| && docs[p] == rels[0].0 {
      HitCounts(docs, rels, 1, p);
      HitGains(docs, rels, lg, 0, p);
      Reciprocals(Gain(rels[0].1), lg(p + 2), (p + 1) as real);
      if p == 0 {
        HitCounts(first, rels, 1, 0);
      } else {
        assert docs[0] != docs[p];
        MissCounts(first, rels, 1);
        DivideByMore(1.0, 1.0, (p + 1) as real);
      }
    } else {
      MissCounts(docs, rels, 1);
      MissGains(docs, rels, lg, 0);
      MissCounts(first, rels, 1);
    }
  }

  // ----- over a whole run --------------------------------------------------------------

  /** Sum of the judged queries' scores. */
  function Total(m: Metric, run: Run, qrels: Qrels, k: nat, lg: Log): real
    requires forall n: nat | 2 <= n :: lg(n) != 0.0
  {
    if run == [] then 0.0
    else
      var last := run[|run| - 1];
      var rels := RelsFor(qrels, last.0);
      Total(m, run[..|run| - 1], qrels, k, lg) + if rels == [] then 0.0 else Score(m, last.1, rels, k, lg)
  }

  /** How many queries of the run have a relevant document. */
  function Judged(run: Run, qrels: Qrels): nat {
    if run == [] then 0
    else Judged(run[..|run| - 1], qrels) + if RelsFor(qrels, run[|run| - 1].0) == [] then 0 else 1
  }

  function Mean(m: Metric, run: Run, qrels: Qrels, k: nat, lg: Log): real
    requires forall n: nat | 2 <= n :: lg(n) != 0.0
  {
    if Judged(run, qrels) == 0 then 0.0 else Total(m, run, qrels, k, lg) / Judged(run, qrels) as real
  }

  lemma {:induction false} RelevantIs(rels: Rels)
    requires DistinctKeys(rels)
    ensures DistinctKeys(Relevant(rels))
    ensures forall p :: p in Relevant(rels) <==> p in rels && p.1 > 0
  {
    if rels != [] {
      RelevantIs(rels[1..]);
      var r := Relevant(rels[1..]);
      forall j | 0 <= j < |r| ensures r[j].0 != rels[0].0 {
        assert r[j] in rels[1..];
      }
    }
  }

  lemma {:induction false} TotalInUnit(m: Metric, run: Run, qrels: Qrels, k: nat, lg: Log)
    requires LogLike(lg) && Dicts(run, qrels)
    ensures forall n: nat | 2 <= n :: lg(n) != 0.0
    ensures 0.0 <= Total(m, run, qrels, k, lg) <= Judged(run, qrels) as real
  {
    LogDiscounts(lg);
    if run != [] {
      TotalInUnit(m, run[..|run| - 1], qrels, k, lg);
      var last := run[|run| - 1];
      var rels := RelsFor(qrels, last.0);
      assert last in run;
      if rels != [] {
        RelevantIs(qrels[last.0]);
        ScoreInUnit(m, last.1, rels, k, lg);
      }
    }
  }

  /** MRR, recall and nDCG lie between 0 and 1 for every run and every set of judgements. */
  lemma MeanInUnit(m: Metric, run: Run, qrels: Qrels, k: nat, lg: Log)
    requires LogLike(lg) && Dicts(run, qrels)
    ensures forall n: nat | 2 <= n :: lg(n) != 0.0
    ensures 0.0 <= Mean(m, run, qrels, k, lg) <= 1.0
  {
    TotalInUnit(m, run, qrels, k, lg);
    var n := Judged(run, qrels);
    if n != 0 {
      Fraction(Total(m, run, qrels, k, lg), n as real);
    }
  }

  /** Every judged query of the run has exactly one relevant document. */
  predicate SingleRelevant(run: Run, qrels: Qrels) {
    forall q | q in run :: |RelsFor(qrels, q.0)| <= 1
  }

  lemma {:induction false} TotalChain(run: Run, qrels: Qrels, k: nat, lg: Log)
    requires LogLike(lg) && Dicts(run, qrels) && SingleRelevant(run, qrels) && 1 <= k
    ensures forall n: nat | 2 <= n :: lg(n) != 0.0
    ensures Total(Recall, run, qrels, 1, lg) <= Total(Mrr, run, qrels, k, lg)
                 <= Total(Ndcg, run, qrels, k, lg) <= Total(Recall, run, qrels, k, lg)
  {
    LogDiscounts(lg);
    if run != [] {
      TotalChain(run[..|run| - 1], qrels, k, lg);
      var last := run[|run| - 1];
      var rels := RelsFor(qrels, last.0);
      assert last in run;
      if rels != [] {
        RelevantIs(qrels[last.0]);
        assert rels[0] in rels;
        SingleRelevantChain(last.1, rels, k, lg);
      }
    }
  }

  /** With one relevant document a query: Recall@1 <= MRR@k <= nDCG@k <= Recall@k. */
  lemma MeanChain(run: Run, qrels: Qrels, k: nat, lg: Log)
    requires LogLike(lg) && Dicts(run, qrels) && SingleRelevant(run, qrels) && 1 <= k
    ensures forall n: nat | 2 <= n :: lg(n) != 0.0
    ensures Mean(Recall, run, qrels, 1, lg) <= Mean(Mrr, run, qrels, k, lg)
                 <= Mean(Ndcg, run, qrels, k, lg) <= Mean(Recall, run, qrels, k, lg)
  {
    TotalChain(run, qrels, k, lg);
    var n := Judged(run, qrels);
    if n != 0 {
      DivideLess(Total(Recall, run, qrels, 1, lg), Total(Mrr, run, qrels, k, lg), n as real);
      DivideLess(Total(Mrr, run, qrels, k, lg), Total(Ndcg, run, qrels, k, lg), n as real);
      DivideLess(Total(Ndcg, run, qrels, k, lg), Total(Recall, run, qrels, k, lg), n as real);
    }
  }

  // ----- the loops ---------------------------------------------------------------------

  lemma NextQuery(m: Metric, run: Run, qrels: Qrels, k: nat, lg: Log, i: nat)
    requires i < |run| && forall n: nat | 2 <= n :: lg(n) != 0.0
    ensures Total(m, run[..i + 1], qrels, k, lg) == Total(m, run[..i], qrels, k, lg)
      + (var rels := RelsFor(qrels, run[i].0); if rels == [] then 0.0 else Score(m, run[i].1, rels, k, lg))
    ensures Judged(run[..i + 1], qrels)
      == Judged(run[..i], qrels) + if RelsFor(qrels, run[i].0) == [] then 0 else 1
  {
    assert run[..i + 1][..i] == run[..i];
  }

  /** Rank of the first relevant document, or one past the end. */
  method FirstRelevant(ranked: seq<string>, rels: Rels) returns (rank: nat)
    ensures 1 <= rank <= |ranked| + 1
    ensures rank <= |ranked| <==> exists d :: d in ranked && d in Keys(rels)
    ensures forall j | 0 <= j < rank - 1 :: ranked[j] !in Keys(rels)
    ensures rank <= |ranked| ==> ranked[rank - 1] in Keys(rels)
    ensures ReciprocalRank(ranked, rels, 1) == Reciprocal(rank, |ranked|)
  {
    rank := 1;
    while rank <= |ranked|
      invariant 1 <= rank <= |ranked| + 1
      invariant forall j | 0 <= j < rank - 1 :: ranked[j] !in Keys(rels)
      invariant ReciprocalRank(ranked, rels, 1) == ReciprocalRank(ranked[rank - 1..], rels, rank)
    {
      assert ranked[rank - 1..][0] == ranked[rank - 1] && ranked[rank - 1..][1..] == ranked[rank..];
      if ranked[rank - 1] in Keys(rels) {
        break;
      }
      rank := rank + 1;
    }
  }

  function Reciprocal(rank: nat, n: nat): real
    requires 1 <= rank
  {
    if rank <= n then 1.0 / rank as real else 0.0
  }

  method MrrAtK(run: Run, qrels: Qrels, k: nat, ghost lg: Log) returns (r: real)
    requires LogLike(lg) && Dicts(run, qrels)
    ensures forall n: nat | 2 <= n :: lg(n) != 0.0
    ensures r == Mean(Mrr, run, qrels, k, lg) && 0.0 <= r <= 1.0
  {
    LogDiscounts(lg);
    var total, n := 0.0, 0;
    for i := 0 to |run|
      invariant n == Judged(run[..i], qrels) && total == Total(Mrr, run[..i], qrels, k, lg)
    {
      NextQuery(Mrr, run, qrels, k, lg, i);
      var rels := RelsFor(qrels, run[i].0);
      if rels == [] {
        continue;
      }
      n := n + 1;
      var ranked := Ranked(run[i].1, k);
      var rank := FirstRelevant(ranked, rels);
      total := total + Reciprocal(rank, |ranked|);
    }
    assert run[..|run|] == run;
    r := if n != 0 then total / n as real else 0.0;
    MeanInUnit(Mrr, run, qrels, k, lg);
  }

  method CountHits(ranked: seq<string>, rels: Rels) returns (hits: nat)
    ensures hits == Hits(ranked, rels)
  {
    hits := 0;
    for j := 0 to |ranked|
      invariant hits + Hits(ranked[j..], rels) == Hits(ranked, rels)
    {
      assert ranked[j..][0] == ranked[j] && ranked[j..][1..] == ranked[j + 1..];
      if ranked[j] in Keys(rels) {
        hits := hits + 1;
      }
    }
  }

  method RecallAtK(run: Run, qrels: Qrels, k: nat, ghost lg: Log) returns (r: real)
    requires LogLike(lg) && Dicts(run, qrels)
    ensures forall n: nat | 2 <= n :: lg(n) != 0.0
    ensures r == Mean(Recall, run, qrels, k, lg) && 0.0 <= r <= 1.0
  {
    LogDiscounts(lg);
    var total, n := 0.0, 0;
    for i := 0 to |run|
      invariant n == Judged(run[..i], qrels) && total == Total(Recall, run[..i], qrels, k, lg)
    {
      NextQuery(Recall, run, qrels, k, lg, i);
      var rels := RelsFor(qrels, run[i].0);
      if rels == [] {
        continue;
      }
      n := n + 1;
      var ranked := Ranked(run[i].1, k);
      var hits := CountHits(ranked, rels);
      total := total + hits as real / |rels| as real;
    }
    assert run[..|run|] == run;
    r := if n != 0 then total / n as real else 0.0;
    MeanInUnit(Recall, run, qrels, k, lg);
  }

  method DiscountedGain(ranked: seq<string>, rels: Rels, lg: Log) returns (dcg: real)
    requires Discounts(lg)
    ensures dcg == Discounted(RankGains(ranked, rels), lg, 0)
  {
    dcg := 0.0;
    for i := 0 to |ranked|
      invariant dcg + Discounted(RankGains(ranked[i..], rels), lg, i) == Discounted(RankGains(ranked, rels), lg, 0)
    {
      RestOfGains(ranked[i..], rels);
      assert ranked[i..][1..] == ranked[i + 1..];
      var rel := RelOf(rels, ranked[i]);
      if rel > 0 {
        dcg := dcg + (Pow2(rel) - 1) as real / lg(i + 2);
      }
    }
  }

  method NdcgAtK(run: Run, qrels: Qrels, k: nat, lg: Log) returns (r: real)
    requires LogLike(lg) && Dicts(run, qrels)
    ensures forall n: nat | 2 <= n :: lg(n) != 0.0
    ensures r == Mean(Ndcg, run, qrels, k, lg) && 0.0 <= r <= 1.0
  {
    LogDiscounts(lg);
    var total, n := 0.0, 0;
    for i := 0 to |run|
      invariant n == Judged(run[..i], qrels) && total == Total(Ndcg, run[..i], qrels, k, lg)
    {
      NextQuery(Ndcg, run, qrels, k, lg, i);
      var rels := RelsFor(qrels, run[i].0);
      if rels == [] {
        continue;
      }
      n := n + 1;
      var dcg := DiscountedGain(Ranked(run[i].1, k), rels, lg);
      var idcg := Discounted(IdealGains(rels, k), lg, 0);
      if idcg > 0.0 {
        total := total + dcg / idcg;
      }
    }
    assert run[..|run|] == run;
    r := if n != 0 then total / n as real else 0.0;
    MeanInUnit(Ndcg, run, qrels, k, lg);
  }
}
