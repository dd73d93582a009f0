/** What a pronoun is resolved to, told from the tokens of the text alone. */
module CorefLaws {
  import opened Ascii
  import opened Filtering
  import opened CorefText
  import opened Coref

  // ----- what a pronoun may stand for --------------------------------------------------

  predicate IsStopWord(lists: Lists, low: string) { low in lists.capStop || low in lists.verbish || low in lists.prompt }

  /** Capitalised, two letters at least, no contraction, no stop word, and no stock opening of a sentence. */
  predicate IsName(lists: Lists, it: Item) {
    && |it.tok| >= 2 && 'A' <= it.tok[0] <= 'Z' && '\'' !in it.tok
    && !IsStopWord(lists, Lower(it.tok)) && !(it.atStart && Lower(it.tok) in lists.opener)
  }

  /** The sentences that hold a word. */
  function Holding(sents: seq<(nat, string)>, low: string): set<nat> {
    set k: nat | k < |sents| && exists t :: t in Tokens(sents[k].1, 0) && Lower(t.text) == low
  }

  /** In lower case, three letters at least, no contraction, no stop word, and in two sentences at least. */
  predicate IsTopic(lists: Lists, sents: seq<(nat, string)>, it: Item) {
    && |it.tok| >= 3 && (forall c | c in it.tok :: !('A' <= c <= 'Z')) && '\'' !in it.tok
    && !IsStopWord(lists, Lower(it.tok)) && |Holding(sents, Lower(it.tok))| >= 2
  }

  predicate IsReferent(lists: Lists, sents: seq<(nat, string)>, it: Item, person: bool) {
    && Lower(it.tok) !in lists.person && Lower(it.tok) !in lists.neuter
    && if person then IsName(lists, it) else IsTopic(lists, sents, it)
  }

  /** Token `j` comes before token `i`, at most `window` sentences back, and is of the kind that `i` stands for. */
  predicate InReach(lists: Lists, sents: seq<(nat, string)>, window: int, items: seq<Item>, i: nat, j: nat)
    requires i < |items|
  {
    && j < i && items[i].si - items[j].si <= window
    && IsReferent(lists, sents, items[j], Lower(items[i].tok) in lists.person)
  }

  /** No later token before the pronoun is in reach. */
  predicate Nearest(lists: Lists, sents: seq<(nat, string)>, window: int, items: seq<Item>, i: nat, j: nat)
    requires i < |items|
  {
    InReach(lists, sents, window, items, i, j) && forall k | j < k < i :: !InReach(lists, sents, window, items, i, k)
  }

  predicate Compete(lists: Lists, sents: seq<(nat, string)>, window: int, items: seq<Item>, i: nat)
    requires i < |items|
  {
    exists j, k | 0 <= j < i && 0 <= k < i ::
      && InReach(lists, sents, window, items, i, j) && InReach(lists, sents, window, items, i, k)
      && Lower(items[j].tok) != Lower(items[k].tok)
  }

  /** One over one plus the distance in sentences, and half of it when different words are in reach. */
  function Trust(lists: Lists, sents: seq<(nat, string)>, window: int, items: seq<Item>, i: nat, j: nat): real
    requires i < |items| && j < i && items[j].si <= items[i].si
  {
    var near := 1.0 / (1 + items[i].si - items[j].si) as real;
    if Compete(lists, sents, window, items, i) then near * 0.5 else near
  }

  // ----- counting sentences ------------------------------------------------------------

  lemma {:induction false} HoldingIs(sents: seq<(nat, string)>, low: string)
    ensures SentencesWith(sents, low) == |Holding(sents, low)|
  {
    if sents == [] {
      assert Holding(sents, low) == {};
    } else {
      var n := |sents| - 1;
      HoldingIs(sents[..n], low);
      HoldingMore(sents, n, low);
    }
  }

  lemma HoldingMore(sents: seq<(nat, string)>, n: nat, low: string)
    requires |sents| == n + 1
    ensures Holding(sents, low) == Holding(sents[..n], low) + if Occurs(sents[n].1, low) then {n} else {}
  {
    forall k: nat | k < n ensures k in Holding(sents, low) <==> k in Holding(sents[..n], low) {
      assert sents[..n][k] == sents[k];
    }
  }

  lemma AllLowIs(tok: string)
    ensures AllLow(tok) <==> forall c | c in tok :: !('A' <= c <= 'Z')
  {
    if AllLow(tok) {
      forall c | c in tok ensures !('A' <= c <= 'Z') {
        var i :| 0 <= i < |tok| && tok[i] == c;
      }
    } else {
      var i :| 0 <= i < |tok| && IsUpper(tok[i]);
      assert tok[i] in tok;
    }
  }

  /** A token that is no pronoun makes the candidate it should. */
  lemma NewCandIs(lists: Lists, sents: seq<(nat, string)>, it: Item)
    requires !IsPronoun(lists, it.tok)
    ensures NewCand(lists, SentenceCounts(sents), it)
      == if IsReferent(lists, sents, it, true) then [Cand(it.si, it.tok, true)]
         else if IsReferent(lists, sents, it, false) then [Cand(it.si, it.tok, false)] else []
    ensures !(IsReferent(lists, sents, it, true) && IsReferent(lists, sents, it, false))
  {
    HoldingIs(sents, Lower(it.tok));
    AllLowIs(it.tok);
    assert it.tok != "" ==> it.tok[0] in it.tok;
  }

  // ----- the candidates seen so far ----------------------------------------------------

  predicate IsCandidate(lists: Lists, sents: seq<(nat, string)>, it: Item) {
    IsReferent(lists, sents, it, true) || IsReferent(lists, sents, it, false)
  }

  /** The candidates are those of the first `n` tokens that may be referred to, in order. */
  ghost predicate Sees(lists: Lists, sents: seq<(nat, string)>, items: seq<Item>, n: nat, cands: seq<Cand>, at: seq<nat>) {
    && n <= |items| && Rises(at) && |at| == |cands|
    && (forall k | 0 <= k < |at| :: at[k] < n
          && cands[k] == Cand(items[at[k]].si, items[at[k]].tok, IsReferent(lists, sents, items[at[k]], true)))
    && forall i: nat :: i in at <==> i < n && IsCandidate(lists, sents, items[i])
  }

  lemma SeesMore(lists: Lists, sents: seq<(nat, string)>, items: seq<Item>, n: nat, cands: seq<Cand>, at: seq<nat>,
                 more: seq<Cand>) returns (all: seq<nat>)
    requires n < |items| && Sees(lists, sents, items, n, cands, at)
    requires more == if !IsCandidate(lists, sents, items[n]) then []
                     else [Cand(items[n].si, items[n].tok, IsReferent(lists, sents, items[n], true))]
    ensures Sees(lists, sents, items, n + 1, cands + more, all)
  {
    forall i | i in at ensures i < n {
    }
    all := OneBehind(at, n, IsCandidate(lists, sents, items[n]));
    forall k | 0 <= k < |all|
      ensures all[k] < n + 1
      ensures (cands + more)[k] == Cand(items[all[k]].si, items[all[k]].tok, IsReferent(lists, sents, items[all[k]], true)) {
      if k < |at| {
        assert all[k] == at[k];
      }
    }
  }

  lemma {:induction false} PoolHolds(cands: seq<Cand>, si: nat, window: int, person: bool, c: Cand)
    ensures c in Pool(cands, si, window, person) <==> c in cands && c.person == person && si - c.si <= window
  {
    if cands != [] {
      var front, last := cands[..|cands| - 1], cands[|cands| - 1];
      PoolHolds(front, si, window, person, c);
      assert cands == front + [last];
    }
  }

  lemma TwoNames(names: set<string>)
    ensures |names| > 1 <==> exists a, b :: a in names && b in names && a != b
  {
    if names != {} {
      var a :| a in names;
      assert |names - {a}| == |names| - 1;
      if |names| > 1 {
        var b :| b in names - {a};
      }
      if names - {a} == {} {
        assert names == {a};
      }
    }
  }

  // ----- one pronoun -------------------------------------------------------------------

  /** An eligible candidate is a token in reach. */
  lemma EligibleIs(lists: Lists, sents: seq<(nat, string)>, window: int, items: seq<Item>, n: nat, cands: seq<Cand>,
                   at: seq<nat>, k: nat)
    requires n < |items| && Sees(lists, sents, items, n, cands, at) && k < |at|
    ensures Eligible(cands[k], items[n].si, window, Lower(items[n].tok) in lists.person)
      <==> InReach(lists, sents, window, items, n, at[k])
  {
    assert at[k] in at;
    if !IsPronoun(lists, items[at[k]].tok) {
      NewCandIs(lists, sents, items[at[k]]);
    }
  }

  lemma ReachIsSeen(lists: Lists, sents: seq<(nat, string)>, window: int, items: seq<Item>, n: nat, cands: seq<Cand>,
                    at: seq<nat>, j: nat) returns (k: nat)
    requires n < |items| && Sees(lists, sents, items, n, cands, at) && InReach(lists, sents, window, items, n, j)
    ensures k < |at| && at[k] == j
  {
    assert IsCandidate(lists, sents, items[j]);
    k :| k < |at| && at[k] == j;
  }

  /** Different words compete exactly when the pool holds different names. */
  lemma CompeteIs(lists: Lists, sents: seq<(nat, string)>, window: int, items: seq<Item>, n: nat, cands: seq<Cand>,
                  at: seq<nat>)
    requires n < |items| && Sees(lists, sents, items, n, cands, at)
    ensures |LowNames(Pool(cands, items[n].si, window, Lower(items[n].tok) in lists.person))| > 1
      <==> Compete(lists, sents, window, items, n)
  {
    var person := Lower(items[n].tok) in lists.person;
    var pool := Pool(cands, items[n].si, window, person);
    TwoNames(LowNames(pool));
    if |LowNames(pool)| > 1 {
      var a, b :| a in LowNames(pool) && b in LowNames(pool) && a != b;
      var j := NamedInReach(lists, sents, window, items, n, cands, at, a);
      var k := NamedInReach(lists, sents, window, items, n, cands, at, b);
      assert Lower(items[j].tok) != Lower(items[k].tok);
    }
    if Compete(lists, sents, window, items, n) {
      var j, k :| 0 <= j < n && 0 <= k < n
                  && InReach(lists, sents, window, items, n, j) && InReach(lists, sents, window, items, n, k)
                  && Lower(items[j].tok) != Lower(items[k].tok);
      ReachNamed(lists, sents, window, items, n, cands, at, j);
      ReachNamed(lists, sents, window, items, n, cands, at, k);
    }
  }

  lemma NamedInReach(lists: Lists, sents: seq<(nat, string)>, window: int, items: seq<Item>, n: nat, cands: seq<Cand>,
                     at: seq<nat>, name: string) returns (j: nat)
    requires n < |items| && Sees(lists, sents, items, n, cands, at)
    requires name in LowNames(Pool(cands, items[n].si, window, Lower(items[n].tok) in lists.person))
    ensures j < n && InReach(lists, sents, window, items, n, j) && Lower(items[j].tok) == name
  {
    var person := Lower(items[n].tok) in lists.person;
    var c :| c in Pool(cands, items[n].si, window, person) && Lower(c.tok) == name;
    PoolHolds(cands, items[n].si, window, person, c);
    var k :| 0 <= k < |cands| && cands[k] == c;
    EligibleIs(lists, sents, window, items, n, cands, at, k);
    j := at[k];
  }

  lemma ReachNamed(lists: Lists, sents: seq<(nat, string)>, window: int, items: seq<Item>, n: nat, cands: seq<Cand>,
                   at: seq<nat>, j: nat)
    requires n < |items| && Sees(lists, sents, items, n, cands, at) && InReach(lists, sents, window, items, n, j)
    ensures Lower(items[j].tok) in LowNames(Pool(cands, items[n].si, window, Lower(items[n].tok) in lists.person))
  {
    var person := Lower(items[n].tok) in lists.person;
    var k := ReachIsSeen(lists, sents, window, items, n, cands, at, j);
    EligibleIs(lists, sents, window, items, n, cands, at, k);
    PoolHolds(cands, items[n].si, window, person, cands[k]);
    assert cands[k] in Pool(cands, items[n].si, window, person);
  }

  /** Pronoun `i` goes to token `j`, with the trust that has. */
  predicate GoesTo(lists: Lists, sents: seq<(nat, string)>, window: int, minConfidence: real, items: seq<Item>, i: nat, j: nat,
                   r: Resolution)
    requires i < |items| && Rising(items)
  {
    && Nearest(lists, sents, window, items, i, j) && Trust(lists, sents, window, items, i, j) >= minConfidence
    && r == Resolution(items[i].offset, items[i].tok, items[j].tok, Trust(lists, sents, window, items, i, j))
  }

  ghost predicate Goes(lists: Lists, sents: seq<(nat, string)>, window: int, minConfidence: real, items: seq<Item>, i: nat,
                       r: Resolution)
    requires i < |items| && Rising(items)
  {
    exists j: nat :: GoesTo(lists, sents, window, minConfidence, items, i, j, r)
  }

  predicate IsResolved(lists: Lists, sents: seq<(nat, string)>, window: int, minConfidence: real, items: seq<Item>, i: nat)
    requires i < |items| && Rising(items)
  {
    exists j | 0 <= j < i ::
      Nearest(lists, sents, window, items, i, j) && Trust(lists, sents, window, items, i, j) >= minConfidence
  }

  lemma OneNearest(lists: Lists, sents: seq<(nat, string)>, window: int, items: seq<Item>, i: nat, j: nat, k: nat)
    requires i < |items| && Nearest(lists, sents, window, items, i, j) && Nearest(lists, sents, window, items, i, k)
    ensures j == k
  {
  }

  lemma PoolNearest(lists: Lists, sents: seq<(nat, string)>, window: int, items: seq<Item>, n: nat, cands: seq<Cand>,
                    at: seq<nat>) returns (k: nat)
    requires n < |items| && Sees(lists, sents, items, n, cands, at)
    requires Pool(cands, items[n].si, window, Lower(items[n].tok) in lists.person) != []
    ensures var pool := Pool(cands, items[n].si, window, Lower(items[n].tok) in lists.person);
            k < |cands| && cands[k] == pool[|pool| - 1] && Nearest(lists, sents, window, items, n, at[k])
  {
    var si, person := items[n].si, Lower(items[n].tok) in lists.person;
    var pool := Pool(cands, si, window, person);
    PoolEndsNearest(cands, si, window, person);
    k :| 0 <= k < |cands| && cands[k] == pool[|pool| - 1] && Eligible(cands[k], si, window, person)
         && forall i | k < i < |cands| :: !Eligible(cands[i], si, window, person);
    EligibleIs(lists, sents, window, items, n, cands, at, k);
    forall j | at[k] < j < n ensures !InReach(lists, sents, window, items, n, j) {
      if InReach(lists, sents, window, items, n, j) {
        var h := ReachIsSeen(lists, sents, window, items, n, cands, at, j);
        EligibleIs(lists, sents, window, items, n, cands, at, h);
      }
    }
  }

  lemma PoolEmpty(lists: Lists, sents: seq<(nat, string)>, window: int, items: seq<Item>, n: nat, cands: seq<Cand>,
                  at: seq<nat>)
    requires n < |items| && Sees(lists, sents, items, n, cands, at)
    requires Pool(cands, items[n].si, window, Lower(items[n].tok) in lists.person) == []
    ensures forall j: nat :: !InReach(lists, sents, window, items, n, j)
  {
    forall j: nat ensures !InReach(lists, sents, window, items, n, j) {
      if InReach(lists, sents, window, items, n, j) {
        ReachNamed(lists, sents, window, items, n, cands, at, j);
      }
    }
  }

  lemma ResolutionIs(lists: Lists, sents: seq<(nat, string)>, window: int, minConfidence: real, items: seq<Item>, n: nat,
                     cands: seq<Cand>, at: seq<nat>)
    requires n < |items| && Rising(items) && Sees(lists, sents, items, n, cands, at) && Before(cands, items[n].si)
    ensures var made := NewResolution(lists, window, minConfidence, cands, items[n]);
            && (IsResolved(lists, sents, window, minConfidence, items, n) <==> made != [])
            && (made != [] ==> |made| == 1 && Goes(lists, sents, window, minConfidence, items, n, made[0]))
  {
    var si, person := items[n].si, Lower(items[n].tok) in lists.person;
    var pool := Pool(cands, si, window, person);
    if pool == [] {
      PoolEmpty(lists, sents, window, items, n, cands, at);
    } else {
      var j := PoolTrust(lists, sents, window, items, n, cands, at);
      OnlyNearest(lists, sents, window, minConfidence, items, n, j);
      if Confidence(pool, si) >= minConfidence {
        assert GoesTo(lists, sents, window, minConfidence, items, n, j,
                      NewResolution(lists, window, minConfidence, cands, items[n])[0]);
      }
    }
  }

  lemma PoolTrust(lists: Lists, sents: seq<(nat, string)>, window: int, items: seq<Item>, n: nat, cands: seq<Cand>,
                  at: seq<nat>) returns (j: nat)
    requires n < |items| && Rising(items) && Sees(lists, sents, items, n, cands, at) && Before(cands, items[n].si)
    requires Pool(cands, items[n].si, window, Lower(items[n].tok) in lists.person) != []
    ensures var pool := Pool(cands, items[n].si, window, Lower(items[n].tok) in lists.person);
            && Nearest(lists, sents, window, items, n, j) && pool[|pool| - 1].si <= items[n].si
            && pool[|pool| - 1].tok == items[j].tok
            && Confidence(pool, items[n].si) == Trust(lists, sents, window, items, n, j)
  {
    var k := PoolNearest(lists, sents, window, items, n, cands, at);
    j := at[k];
    CompeteIs(lists, sents, window, items, n, cands, at);
  }

  lemma OnlyNearest(lists: Lists, sents: seq<(nat, string)>, window: int, minConfidence: real, items: seq<Item>, n: nat, j: nat)
    requires n < |items| && Rising(items) && Nearest(lists, sents, window, items, n, j)
    ensures IsResolved(lists, sents, window, minConfidence, items, n)
      <==> Trust(lists, sents, window, items, n, j) >= minConfidence
  {
    if i :| 0 <= i < n && Nearest(lists, sents, window, items, n, i)
            && Trust(lists, sents, window, items, n, i) >= minConfidence {
      OneNearest(lists, sents, window, items, n, i, j);
    }
  }

  // ----- the whole text ----------------------------------------------------------------

  /** The resolutions are those of the pronouns among the first `n` tokens that have a token in reach
    * and enough trust, in order; all other pronouns stay. */
  ghost predicate Resolves(lists: Lists, sents: seq<(nat, string)>, window: int, minConfidence: real, items: seq<Item>, n: nat,
                           rs: seq<Resolution>, at: seq<nat>)
    requires Rising(items)
  {
    && n <= |items| && Rises(at) && |at| == |rs|
    && (forall k | 0 <= k < |at| :: at[k] < n
          && Goes(lists, sents, window, minConfidence, items, at[k], rs[k]))
    && forall i: nat :: i in at <==>
         i < n && (Lower(items[i].tok) in lists.person || Lower(items[i].tok) in lists.neuter)
         && IsResolved(lists, sents, window, minConfidence, items, i)
  }

  lemma ResolvesMore(lists: Lists, sents: seq<(nat, string)>, window: int, minConfidence: real, items: seq<Item>, n: nat,
                     rs: seq<Resolution>, at: seq<nat>, more: seq<Resolution>) returns (all: seq<nat>)
    requires Rising(items) && n < |items| && Resolves(lists, sents, window, minConfidence, items, n, rs, at)
    requires more != [] <==> IsPronoun(lists, items[n].tok) && IsResolved(lists, sents, window, minConfidence, items, n)
    requires more != [] ==>
      |more| == 1 && Goes(lists, sents, window, minConfidence, items, n, more[0])
    ensures Resolves(lists, sents, window, minConfidence, items, n + 1, rs + more, all)
  {
    forall i | i in at ensures i < n {
    }
    all := OneBehind(at, n, more != []);
    forall k | 0 <= k < |all|
      ensures all[k] < n + 1
      ensures Goes(lists, sents, window, minConfidence, items, all[k], (rs + more)[k]) {
      if k < |at| {
        assert all[k] == at[k] && (rs + more)[k] == rs[k];
      } else {
        assert all[k] == n && (rs + more)[k] == more[0];
      }
    }
  }

  lemma {:induction false} WalkIs(lists: Lists, sents: seq<(nat, string)>, window: int, minConfidence: real, items: seq<Item>,
                                  n: nat) returns (st: St, seen: seq<nat>, at: seq<nat>)
    requires n <= |items| && Rising(items)
    ensures Rising(items[..n]) && st == Walk(lists, SentenceCounts(sents), window, minConfidence, items[..n])
    ensures Sees(lists, sents, items, n, st.cands, seen)
    ensures Resolves(lists, sents, window, minConfidence, items, n, st.out, at)
  {
    if n == 0 {
      st, seen, at := St([], []), [], [];
    } else {
      var was, seen0, at0 := WalkIs(lists, sents, window, minConfidence, items, n - 1);
      assert items[..n][..n - 1] == items[..n - 1] && items[..n][n - 1] == items[n - 1];
      st, seen, at := StepIs(lists, sents, window, minConfidence, items, n - 1, was, seen0, at0);
    }
  }

  lemma SeenBefore(lists: Lists, sents: seq<(nat, string)>, items: seq<Item>, n: nat, cands: seq<Cand>, at: seq<nat>)
    requires n < |items| && Rising(items) && Sees(lists, sents, items, n, cands, at)
    ensures Before(cands, items[n].si)
  {
    forall c | c in cands ensures c.si <= items[n].si {
      var k :| 0 <= k < |cands| && cands[k] == c;
      assert items[at[k]].si <= items[n].si;
    }
  }

  lemma StepIs(lists: Lists, sents: seq<(nat, string)>, window: int, minConfidence: real, items: seq<Item>, n: nat, was: St,
               seen0: seq<nat>, at0: seq<nat>) returns (st: St, seen: seq<nat>, at: seq<nat>)
    requires n < |items| && Rising(items) && Sees(lists, sents, items, n, was.cands, seen0)
    requires Resolves(lists, sents, window, minConfidence, items, n, was.out, at0)
    ensures Before(was.cands, items[n].si) && st == Step(lists, SentenceCounts(sents), window, minConfidence, was, items[n])
    ensures Sees(lists, sents, items, n + 1, st.cands, seen)
    ensures Resolves(lists, sents, window, minConfidence, items, n + 1, st.out, at)
  {
    SeenBefore(lists, sents, items, n, was.cands, seen0);
    st := Step(lists, SentenceCounts(sents), window, minConfidence, was, items[n]);
    if IsPronoun(lists, items[n].tok) {
      ResolutionIs(lists, sents, window, minConfidence, items, n, was.cands, seen0);
      at := ResolvesMore(lists, sents, window, minConfidence, items, n, was.out, at0,
                         NewResolution(lists, window, minConfidence, was.cands, items[n]));
      seen := SeesMore(lists, sents, items, n, was.cands, seen0, []);
      assert was.cands + [] == was.cands;
    } else {
      NewCandIs(lists, sents, items[n]);
      seen := SeesMore(lists, sents, items, n, was.cands, seen0, NewCand(lists, SentenceCounts(sents), items[n]));
      at := ResolvesMore(lists, sents, window, minConfidence, items, n, was.out, at0, []);
      assert was.out + [] == was.out;
    }
  }

  /** `resolve_text`: every pronoun goes to the nearest earlier token of its kind within the window, with
    * the trust that has; it stays if there is none, or too little trust. */
  lemma PronounsGo(text: string, lists: Lists, window: int, minConfidence: real) returns (items: seq<Item>, at: seq<nat>)
    ensures items == Items(Sentences(text), 0) && ToksOf(items) == Tokens(text, 0) && Rising(items)
    ensures Resolves(lists, Sentences(text), window, minConfidence, items, |items|,
                     Resolutions(text, lists, window, minConfidence), at)
  {
    var sents := Sentences(text);
    items := Items(sents, 0);
    ItemsRise(sents, 0);
    ItemsAreTokens(sents, 0);
    SentencesKeepTokens(text);
    var st, seen;
    st, seen, at := WalkIs(lists, sents, window, minConfidence, items, |items|);
    assert items[..|items|] == items;
  }

  /** What `out` is, told from the tokens of the text. */
  ghost predicate Told(text: string, lists: Lists, window: int, minConfidence: real, out: seq<Resolution>) {
    var items := Items(Sentences(text), 0);
    && Rising(items)
    && exists at: seq<nat> :: Resolves(lists, Sentences(text), window, minConfidence, items, |items|, out, at)
  }

  // ----- which sentence a token is in --------------------------------------------------

  /** A token lies in the sentence of its number, and opens it if it starts there. */
  predicate ItemStands(sents: seq<(nat, string)>, si: nat, it: Item) {
    && si <= it.si < si + |sents|
    && var s := sents[it.si - si];
       && s.0 <= it.offset && it.offset + |it.tok| <= s.0 + |s.1|
       && (it.atStart <==> it.offset == s.0)
  }

  lemma {:induction false} ItemsStand(sents: seq<(nat, string)>, si: nat)
    ensures forall it | it in Items(sents, si) :: ItemStands(sents, si, it)
  {
    if sents != [] {
      ItemsStand(sents[1..], si + 1);
      TokensInOrder(sents[0].1, sents[0].0);
      forall it | it in Items(sents, si) ensures ItemStands(sents, si, it) {
        if it in Items(sents[1..], si + 1) {
          assert ItemStands(sents[1..], si + 1, it);
          assert sents[it.si - si] == sents[1..][it.si - si - 1];
        }
      }
    }
  }
}
