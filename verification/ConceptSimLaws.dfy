/** Concept similarity from the sets, the idf and the rows alone. */
module ConceptSimLaws {
  import opened SetSum
  import opened ConceptSim

  /** The row that stands for its entity: the last one that names it. */
  predicate IsLast(ids: seq<int>, i: nat) { i < |ids| && forall j | i < j < |ids| :: ids[j] != ids[i] }

  lemma {:induction false} PosIsLast(ids: seq<int>)
    ensures forall e | e in Pos(ids) :: Pos(ids)[e] < |ids| && ids[Pos(ids)[e]] == e && IsLast(ids, Pos(ids)[e])
    ensures forall e :: e in Pos(ids) <==> e in ids
  {
    if ids != [] {
      var n := |ids| - 1;
      PosIsLast(ids[..n]);
      assert ids == ids[..n] + [ids[n]];
    }
  }

  /** A row has the concepts of its entity when it stands for it, and none otherwise. */
  lemma ConceptsAre(x: Input, i: nat, c: int)
    ensures c in ConceptsAt(x, i) <==> IsLast(x.ids, i) && x.ids[i] in x.sets && c in x.sets[x.ids[i]]
  {
    PosIsLast(x.ids);
    if IsLast(x.ids, i) {
      assert x.ids[i] in x.ids;
    }
  }

  /** The squared idf of concepts, one after the other; one without idf adds nothing. */
  function Squares(idf: map<int, real>, cs: seq<int>): real {
    if cs == [] then 0.0 else Squares(idf, cs[..|cs| - 1]) + Square(idf, cs[|cs| - 1])
  }

  function Square(idf: map<int, real>, c: int): real { if c in idf then idf[c] * idf[c] else 0.0 }

  lemma WorthIs(x: Input, c: int)
    ensures Worth(x)(c) == Square(x.idf, c)
  {
  }

  lemma LastConcept(cs: seq<int>, s: set<int>) returns (front: seq<int>, c: int)
    requires cs != [] && Once(cs) && forall c :: c in s <==> c in cs
    ensures front == cs[..|cs| - 1] && c == cs[|cs| - 1]
    ensures c in s && Once(front) && forall d :: d in s - {c} <==> d in front
  {
    front, c := cs[..|cs| - 1], cs[|cs| - 1];
    assert cs == front + [c];
    assert cs[|cs| - 1] in cs;
  }

  predicate Once(cs: seq<int>) { forall a, b | 0 <= a < b < |cs| :: cs[a] != cs[b] }

  lemma {:induction false} SumIs(x: Input, cs: seq<int>, s: set<int>)
    requires Once(cs) && forall c :: c in s <==> c in cs
    ensures Sum(Worth(x), s) == Squares(x.idf, cs)
  {
    if cs == [] {
      assert forall c | c in s :: c in cs;
    } else {
      var front, c := LastConcept(cs, s);
      SumIs(x, front, s - {c});
      SumRemove(Worth(x), s, c);
      WorthIs(x, c);
    }
  }

  predicate Has(x: Input, i: nat, c: int) { IsLast(x.ids, i) && x.ids[i] in x.sets && c in x.sets[x.ids[i]] }

  ghost predicate Lists(cs: seq<int>, x: Input, i: nat) { Once(cs) && forall c :: c in cs <==> Has(x, i, c) }

  ghost predicate ListsBoth(cs: seq<int>, x: Input, i: nat, j: nat) {
    Once(cs) && forall c :: c in cs <==> Has(x, i, c) && Has(x, j, c)
  }

  /** The similarity of two rows, with their concepts listed in any order: what they share, divided by the
    * roots of what each has. */
  lemma SimilarityIs(x: Input, sqrt: real -> real, i: nat, j: nat, a: seq<int>, b: seq<int>, both: seq<int>)
    returns (roots: real)
    requires IsSqrt(sqrt) && Lists(a, x, i) && Lists(b, x, j) && ListsBoth(both, x, i, j)
    ensures Shared(x, i, j) == Squares(x.idf, both)
    ensures roots == sqrt(Squares(x.idf, a)) * sqrt(Squares(x.idf, b)) == sqrt(Mass(x, i)) * sqrt(Mass(x, j))
    ensures Shared(x, i, j) > 0.0 ==> roots > 0.0 && Similarity(x, sqrt, i, j) == Squares(x.idf, both) / roots
  {
    SumsAre(x, i, j, a, b, both);
    roots := sqrt(Mass(x, i)) * sqrt(Mass(x, j));
    if Shared(x, i, j) > 0.0 {
      SimilarityInUnit(x, sqrt, i, j);
      OverRoots(x, sqrt, i, j, roots);
    }
  }

  lemma OverRoots(x: Input, sqrt: real -> real, i: nat, j: nat, roots: real)
    requires roots == sqrt(Mass(x, i)) * sqrt(Mass(x, j)) && roots > 0.0
    ensures Similarity(x, sqrt, i, j) == Shared(x, i, j) / roots
  {
  }

  lemma SumsAre(x: Input, i: nat, j: nat, a: seq<int>, b: seq<int>, both: seq<int>)
    requires Lists(a, x, i) && Lists(b, x, j) && ListsBoth(both, x, i, j)
    ensures Mass(x, i) == Squares(x.idf, a) && Mass(x, j) == Squares(x.idf, b) && Shared(x, i, j) == Squares(x.idf, both)
  {
    forall c ensures (c in ConceptsAt(x, i) <==> Has(x, i, c)) && (c in ConceptsAt(x, j) <==> Has(x, j, c)) {
      ConceptsAre(x, i, c);
      ConceptsAre(x, j, c);
    }
    SumIs(x, a, ConceptsAt(x, i));
    SumIs(x, b, ConceptsAt(x, j));
    SumIs(x, both, ConceptsAt(x, i) * ConceptsAt(x, j));
  }
}
