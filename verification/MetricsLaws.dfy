/** What the parts of the metrics are, entry by entry. */
module MetricsLaws {
  import opened StableSort
  import opened Filtering
  import opened Metrics

  // ----- ranking -----------------------------------------------------------------------

  /** The ranking of a query: best score first, entries of one score as they stand in the run, cut at `k`. */
  ghost predicate RanksBy(scored: Scores, k: nat, ranked: seq<string>, order: seq<nat>) {
    && |ranked| == (if k < |scored| then k else |scored|)
    && |order| == |scored| && (forall i | 0 <= i < |order| :: order[i] < |scored|)
    && (forall i | 0 <= i < |ranked| :: ranked[i] == scored[order[i]].0)
    && forall i, j | 0 <= i < j < |order| ::
         && order[i] != order[j]
         && (scored[order[i]].1 > scored[order[j]].1 || (scored[order[i]].1 == scored[order[j]].1 && order[i] < order[j]))
  }

  lemma RankedIs(scored: Scores, k: nat) returns (order: seq<nat>)
    ensures RanksBy(scored, k, Ranked(scored, k), order)
  {
    var key := (p: (string, real)) => -p.1;
    order := SortAt(scored, key);
    assert Ranked(scored, k) == Keys(Take(Sort(scored, key), k));
    forall i, j | 0 <= i < j < |order|
      ensures order[i] != order[j]
      ensures scored[order[i]].1 > scored[order[j]].1 || (scored[order[i]].1 == scored[order[j]].1 && order[i] < order[j]) {
      assert key(scored[order[i]]) == -scored[order[i]].1 && key(scored[order[j]]) == -scored[order[j]].1;
    }
  }

  // ----- relevance ---------------------------------------------------------------------

  /** A document judged relevant: its grade is above zero. */
  predicate Judges(given: Rels, d: string) { exists i | 0 <= i < |given| :: given[i].0 == d && given[i].1 > 0 }

  lemma {:induction false} RelevantAt(given: Rels) returns (at: seq<nat>)
    ensures StandsAt(Relevant(given), given, at)
    ensures forall i: nat :: i in at <==> i < |given| && given[i].1 > 0
  {
    if given == [] {
      at := [];
    } else {
      var rest := RelevantAt(given[1..]);
      assert given == [given[0]] + given[1..];
      at := FrontStands(Relevant(given[1..]), given[1..], rest, given[0], given[0].1 > 0);
    }
  }

  lemma RelevantKeys(given: Rels, d: string)
    ensures d in Keys(Relevant(given)) <==> Judges(given, d)
  {
    var at := RelevantAt(given);
    var rels := Relevant(given);
    if d in Keys(rels) {
      var k :| 0 <= k < |rels| && Keys(rels)[k] == d;
      assert at[k] in at && given[at[k]] == rels[k];
    }
    if Judges(given, d) {
      var i: nat :| i < |given| && given[i].0 == d && given[i].1 > 0;
      assert i in at;
      var k :| 0 <= k < |at| && at[k] == i;
      assert Keys(rels)[k] == d;
    }
  }

  /** The grade of a document is the one it was given, and zero if it was given none. */
  lemma {:induction false} GradeIs(rels: Rels, d: string)
    requires DistinctKeys(rels)
    ensures forall i | 0 <= i < |rels| && rels[i].0 == d :: RelOf(rels, d) == rels[i].1
    ensures (forall i | 0 <= i < |rels| :: rels[i].0 != d) ==> RelOf(rels, d) == 0
  {
    if rels != [] && rels[0].0 != d {
      GradeIs(rels[1..], d);
      assert forall i | 0 < i < |rels| :: rels[i] == rels[1..][i - 1];
    }
  }

  // ----- sums --------------------------------------------------------------------------

  lemma {:induction false} HitsMore(ranked: seq<string>, d: string, rels: Rels)
    ensures Hits(ranked + [d], rels) == Hits(ranked, rels) + if d in Keys(rels) then 1 else 0
  {
    if ranked == [] {
      assert (ranked + [d])[1..] == [];
    } else {
      assert (ranked + [d])[1..] == ranked[1..] + [d];
      HitsMore(ranked[1..], d, rels);
    }
  }

  lemma {:induction false} HitsAre(ranked: seq<string>, rels: Rels)
    ensures Hits(ranked, rels) == |set i | 0 <= i < |ranked| && ranked[i] in Keys(rels)|
  {
    var all := set i | 0 <= i < |ranked| && ranked[i] in Keys(rels);
    if ranked == [] {
      assert all == {};
    } else {
      var n := |ranked| - 1;
      HitsAre(ranked[..n], rels);
      assert ranked == ranked[..n] + [ranked[n]];
      HitsMore(ranked[..n], ranked[n], rels);
      OneMoreHit(ranked, n, rels);
    }
  }

  lemma OneMoreHit(ranked: seq<string>, n: nat, rels: Rels)
    requires |ranked| == n + 1
    ensures |set i | 0 <= i < |ranked| && ranked[i] in Keys(rels)|
      == |set i | 0 <= i < |ranked[..n]| && ranked[..n][i] in Keys(rels)| + if ranked[n] in Keys(rels) then 1 else 0
  {
    var all, front := set i | 0 <= i < |ranked| && ranked[i] in Keys(rels), set i | 0 <= i < |ranked[..n]| && ranked[..n][i] in Keys(rels);
    assert all == front + if ranked[n] in Keys(rels) then {n} else {};
  }

  /** The gain at rank r is divided by log2(r + 1). */
  lemma {:induction false} DiscountedMore(g: seq<real>, x: real, lg: Log, i: nat)
    requires forall n: nat | 2 <= n :: lg(n) != 0.0
    ensures Discounted([], lg, i) == 0.0
    ensures Discounted(g + [x], lg, i) == Discounted(g, lg, i) + x / lg(i + |g| + 2)
  {
    if g == [] {
      assert (g + [x])[1..] == [];
    } else {
      assert (g + [x])[1..] == g[1..] + [x];
      DiscountedMore(g[1..], x, lg, i + 1);
    }
  }

  /** Grade r gains 2^r - 1: nothing for grade 0 and below, and each grade one more than twice the one before. */
  lemma GainIs(rel: int)
    ensures rel <= 0 ==> Gain(rel) == 0.0
    ensures rel >= 0 ==> Gain(rel + 1) == 2.0 * Gain(rel) + 1.0
  {
    assert rel == 0 ==> Pow2(1) == 2 * Pow2(0);
  }

  /** The ideal gains are those of the relevant documents, best grade first, cut at `k`. */
  lemma IdealIs(rels: Rels, k: nat) returns (order: seq<nat>)
    ensures |IdealGains(rels, k)| == if k < |rels| then k else |rels|
    ensures |order| == |rels| && forall i | 0 <= i < |order| :: order[i] < |rels|
    ensures forall i, j | 0 <= i < j < |order| :: order[i] != order[j] && rels[order[i]].1 >= rels[order[j]].1
    ensures forall i | 0 <= i < |IdealGains(rels, k)| :: IdealGains(rels, k)[i] == Gain(rels[order[i]].1)
  {
    var key := (p: (string, int)) => -(p.1 as real);
    order := SortAt(rels, key);
    assert IdealGains(rels, k)
        == seq(|Take(Sort(rels, key), k)|, i requires 0 <= i < |Take(Sort(rels, key), k)| => Gain(Take(Sort(rels, key), k)[i].1));
    forall i, j | 0 <= i < j < |order| ensures order[i] != order[j] && rels[order[i]].1 >= rels[order[j]].1 {
      assert key(rels[order[i]]) == -(rels[order[i]].1 as real) && key(rels[order[j]]) == -(rels[order[j]].1 as real);
    }
  }

  // ----- scores and means --------------------------------------------------------------

  /** The first relevant document of a ranking. */
  predicate IsFirst(ranked: seq<string>, rels: Rels, i: nat) {
    i < |ranked| && ranked[i] in Keys(rels) && forall j | 0 <= j < i :: ranked[j] !in Keys(rels)
  }

  lemma FirstLater(ranked: seq<string>, rels: Rels, i: nat)
    requires ranked != [] && ranked[0] !in Keys(rels) && IsFirst(ranked, rels, i)
    ensures i > 0 && IsFirst(ranked[1..], rels, i - 1)
  {
    assert forall j | 0 <= j < i - 1 :: ranked[1..][j] == ranked[j + 1];
  }

  lemma {:induction false} ReciprocalIs(ranked: seq<string>, rels: Rels, rank: nat)
    requires 1 <= rank
    ensures (forall d | d in ranked :: d !in Keys(rels)) ==> ReciprocalRank(ranked, rels, rank) == 0.0
    ensures forall i: nat | IsFirst(ranked, rels, i) :: ReciprocalRank(ranked, rels, rank) == 1.0 / (rank + i) as real
  {
    if ranked != [] && ranked[0] !in Keys(rels) {
      ReciprocalIs(ranked[1..], rels, rank + 1);
      assert ranked == [ranked[0]] + ranked[1..];
      forall i: nat | IsFirst(ranked, rels, i) ensures ReciprocalRank(ranked, rels, rank) == 1.0 / (rank + i) as real {
        FirstLater(ranked, rels, i);
      }
    } else {
      forall i: nat | IsFirst(ranked, rels, i) ensures i == 0 {
      }
    }
  }

  /** The score of one query. */
  lemma ScoreIs(scored: Scores, given: Rels, k: nat, lg: Log)
    requires Relevant(given) != [] && forall n: nat | 2 <= n :: lg(n) != 0.0
    ensures var ranked, rels := Ranked(scored, k), Relevant(given);
            && (forall i: nat | i < |ranked| && Judges(given, ranked[i]) && (forall j | 0 <= j < i :: !Judges(given, ranked[j])) ::
                  Score(Mrr, scored, rels, k, lg) == 1.0 / (i + 1) as real)
            && ((forall i | 0 <= i < |ranked| :: !Judges(given, ranked[i])) ==> Score(Mrr, scored, rels, k, lg) == 0.0)
            && Score(Recall, scored, rels, k, lg)
               == |set i | 0 <= i < |ranked| && Judges(given, ranked[i])| as real / |rels| as real
            && Score(Ndcg, scored, rels, k, lg)
               == (var ideal := Discounted(IdealGains(rels, k), lg, 0);
                   if ideal > 0.0 then Discounted(RankGains(ranked, rels), lg, 0) / ideal else 0.0)
  {
    var ranked, rels := Ranked(scored, k), Relevant(given);
    FirstsAre(ranked, given);
    JudgedHits(ranked, given);
  }

  lemma FirstsAre(ranked: seq<string>, given: Rels)
    ensures forall i: nat | i < |ranked| && Judges(given, ranked[i]) && (forall j | 0 <= j < i :: !Judges(given, ranked[j])) ::
      ReciprocalRank(ranked, Relevant(given), 1) == 1.0 / (i + 1) as real
    ensures (forall i | 0 <= i < |ranked| :: !Judges(given, ranked[i])) ==> ReciprocalRank(ranked, Relevant(given), 1) == 0.0
  {
    forall d ensures d in Keys(Relevant(given)) <==> Judges(given, d) {
      RelevantKeys(given, d);
    }
    ReciprocalIs(ranked, Relevant(given), 1);
    forall i: nat | i < |ranked| && Judges(given, ranked[i]) && (forall j | 0 <= j < i :: !Judges(given, ranked[j]))
      ensures IsFirst(ranked, Relevant(given), i) {
    }
  }

  lemma JudgedHits(ranked: seq<string>, given: Rels)
    ensures Hits(ranked, Relevant(given)) == |set i | 0 <= i < |ranked| && Judges(given, ranked[i])|
  {
    forall d ensures d in Keys(Relevant(given)) <==> Judges(given, d) {
      RelevantKeys(given, d);
    }
    HitsAre(ranked, Relevant(given));
    assert (set i | 0 <= i < |ranked| && Judges(given, ranked[i]))
        == set i | 0 <= i < |ranked| && ranked[i] in Keys(Relevant(given));
  }

  /** A query counts when some document is judged relevant for it. */
  predicate Counts(qrels: Qrels, q: string) {
    q in qrels && exists i | 0 <= i < |qrels[q]| :: qrels[q][i].1 > 0
  }

  lemma CountsIs(qrels: Qrels, q: string)
    ensures RelsFor(qrels, q) != [] <==> Counts(qrels, q)
  {
    if q in qrels {
      var at := RelevantAt(qrels[q]);
      if Counts(qrels, q) {
        var i: nat :| i < |qrels[q]| && qrels[q][i].1 > 0;
        assert i in at;
      }
      if RelsFor(qrels, q) != [] {
        assert at[0] in at;
      }
    }
  }

  /** Query by query: what counts adds its score and one to the number of queries. */
  lemma MeanIs(m: Metric, run: Run, q: (string, Scores), qrels: Qrels, k: nat, lg: Log)
    requires forall n: nat | 2 <= n :: lg(n) != 0.0
    ensures Total(m, [], qrels, k, lg) == 0.0 && Judged([], qrels) == 0
    ensures Counts(qrels, q.0) <==> RelsFor(qrels, q.0) != []
    ensures Total(m, run + [q], qrels, k, lg)
      == Total(m, run, qrels, k, lg) + if Counts(qrels, q.0) then Score(m, q.1, RelsFor(qrels, q.0), k, lg) else 0.0
    ensures Judged(run + [q], qrels) == Judged(run, qrels) + if Counts(qrels, q.0) then 1 else 0
  {
    CountsIs(qrels, q.0);
    assert (run + [q])[..|run|] == run;
  }

  lemma MeanDivides(m: Metric, run: Run, qrels: Qrels, k: nat, lg: Log)
    requires forall n: nat | 2 <= n :: lg(n) != 0.0
    ensures if Judged(run, qrels) == 0 then Mean(m, run, qrels, k, lg) == 0.0
            else Times(Mean(m, run, qrels, k, lg), Judged(run, qrels)) == Total(m, run, qrels, k, lg)
  {
    if Judged(run, qrels) > 0 {
      Undone(Total(m, run, qrels, k, lg), Judged(run, qrels));
    }
  }

  function Times(x: real, n: nat): real { x * n as real }

  lemma Undone(x: real, n: nat)
    requires n > 0
    ensures Times(x / n as real, n) == x
  {
  }
}
