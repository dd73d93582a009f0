/** Pronouns resolved to the nearest candidate, and substituted back to front. */
module Coref {
  import opened Ascii
  import opened CorefText
  import opened StableSort

  /** The word lists the resolver consults. */
  datatype Lists = Lists(person: set<string>, neuter: set<string>, capStop: set<string>, opener: set<string>,
                         verbish: set<string>, prompt: set<string>)

  datatype Item = Item(si: nat, offset: nat, tok: string, atStart: bool)
  datatype Cand = Cand(si: nat, tok: string, person: bool)
  datatype Resolution = Resolution(offset: nat, pronoun: string, antecedent: string, confidence: real)
  datatype St = St(cands: seq<Cand>, out: seq<Resolution>)

  // ----- the text in reading order -----------------------------------------------------

  function ItemsOf(toks: seq<Tok>, si: nat, start: nat): (items: seq<Item>)
    ensures |items| == |toks|
    ensures forall i | 0 <= i < |toks| :: items[i] == Item(si, toks[i].start, toks[i].text, toks[i].start == start)
  {
    seq(|toks|, i requires 0 <= i < |toks| => Item(si, toks[i].start, toks[i].text, toks[i].start == start))
  }

  /** Every token of every sentence, the first sentence numbered `si`. */
  function Items(sents: seq<(nat, string)>, si: nat): seq<Item> {
    if sents == [] then []
    else ItemsOf(Tokens(sents[0].1, sents[0].0), si, sents[0].0) + Items(sents[1..], si + 1)
  }

  function ToksOf(items: seq<Item>): (toks: seq<Tok>)
    ensures |toks| == |items| && forall i | 0 <= i < |items| :: toks[i] == Tok(items[i].offset, items[i].tok)
  {
    seq(|items|, i requires 0 <= i < |items| => Tok(items[i].offset, items[i].tok))
  }

  lemma {:induction false} ItemsAreTokens(sents: seq<(nat, string)>, si: nat)
    ensures ToksOf(Items(sents, si)) == SentenceTokens(sents)
  {
    if sents != [] {
      ItemsAreTokens(sents[1..], si + 1);
      var first := ItemsOf(Tokens(sents[0].1, sents[0].0), si, sents[0].0);
      assert ToksOf(first) == Tokens(sents[0].1, sents[0].0);
      assert ToksOf(first + Items(sents[1..], si + 1)) == ToksOf(first) + ToksOf(Items(sents[1..], si + 1));
    }
  }

  /** In how many sentences a word occurs. */
  function SentencesWith(sents: seq<(nat, string)>, low: string): nat {
    if sents == [] then 0 else SentencesWith(sents[..|sents| - 1], low) + if Occurs(sents[|sents| - 1].1, low) then 1 else 0
  }

  function SentenceCounts(sents: seq<(nat, string)>): string -> nat { (low: string) => SentencesWith(sents, low) }

  function LowTexts(s: string): set<string> { set t | t in Tokens(s, 0) :: Lower(t.text) }

  predicate Occurs(s: string, low: string) { low in LowTexts(s) }

  // ----- resolving ---------------------------------------------------------------------

  predicate Eligible(c: Cand, si: nat, window: int, person: bool) {
    c.person == person && si as int - c.si as int <= window
  }

  function Pool(cands: seq<Cand>, si: nat, window: int, person: bool): seq<Cand> {
    if cands == [] then []
    else
      Pool(cands[..|cands| - 1], si, window, person)
      + if Eligible(cands[|cands| - 1], si, window, person) then [cands[|cands| - 1]] else []
  }

  function LowNames(cands: seq<Cand>): set<string> { set c | c in cands :: Lower(c.tok) }

  /** 1 over 1 plus the distance in sentences, halved when two names compete. */
  function Confidence(pool: seq<Cand>, si: nat): real
    requires pool != [] && pool[|pool| - 1].si <= si
  {
    var near := 1.0 / (1 + si - pool[|pool| - 1].si) as real;
    if |LowNames(pool)| > 1 then near * 0.5 else near
  }

  predicate IsPronoun(lists: Lists, tok: string) { Lower(tok) in lists.person || Lower(tok) in lists.neuter }

  predicate Stopped(lists: Lists, low: string) { low in lists.capStop || low in lists.verbish || low in lists.prompt }

  predicate AllLow(tok: string) { forall i | 0 <= i < |tok| :: !IsUpper(tok[i]) }

  /** The candidate a token makes, if it makes one. */
  function NewCand(lists: Lists, df: string -> nat, item: Item): seq<Cand> {
    var low := Lower(item.tok);
    if '\'' in item.tok then []
    else if item.tok != "" && IsUpper(item.tok[0]) && !Stopped(lists, low) && |item.tok| >= 2 then
      if !item.atStart || low !in lists.opener then [Cand(item.si, item.tok, true)] else []
    else if AllLow(item.tok) && !Stopped(lists, low) && |item.tok| >= 3 && df(low) >= 2 then [Cand(item.si, item.tok, false)]
    else []
  }

  predicate Before(cands: seq<Cand>, si: nat) { forall c | c in cands :: c.si <= si }

  function NewResolution(lists: Lists, window: int, minConfidence: real, cands: seq<Cand>, item: Item): seq<Resolution>
    requires Before(cands, item.si)
  {
    var pool := Pool(cands, item.si, window, Lower(item.tok) in lists.person);
    if pool == [] then []
    else
      PoolIsFrom(cands, item.si, window, Lower(item.tok) in lists.person);
      assert pool[|pool| - 1] in pool;
      var confidence := Confidence(pool, item.si);
      if confidence >= minConfidence then [Resolution(item.offset, item.tok, pool[|pool| - 1].tok, confidence)] else []
  }

  function Step(lists: Lists, df: string -> nat, window: int, minConfidence: real, st: St, item: Item): St
    requires Before(st.cands, item.si)
  {
    if IsPronoun(lists, item.tok) then St(st.cands, st.out + NewResolution(lists, window, minConfidence, st.cands, item))
    else St(st.cands + NewCand(lists, df, item), st.out)
  }

  predicate Rising(items: seq<Item>) { forall i, j | 0 <= i < j < |items| :: items[i].si <= items[j].si }

  function Walk(lists: Lists, df: string -> nat, window: int, minConfidence: real, items: seq<Item>): (st: St)
    requires Rising(items)
    ensures forall c | c in st.cands :: exists i :: 0 <= i < |items| && items[i].si == c.si && items[i].tok == c.tok
  {
    if items == [] then St([], [])
    else
      var st := Walk(lists, df, window, minConfidence, items[..|items| - 1]);
      var last := items[|items| - 1];
      assert Before(st.cands, last.si);
      Step(lists, df, window, minConfidence, st, last)
  }

  lemma {:induction false} PoolIsFrom(cands: seq<Cand>, si: nat, window: int, person: bool)
    ensures forall c | c in Pool(cands, si, window, person) :: c in cands && Eligible(c, si, window, person)
  {
    if cands != [] {
      PoolIsFrom(cands[..|cands| - 1], si, window, person);
    }
  }

  /** The pool's last entry is the most recent candidate of the right kind within the window. */
  lemma {:induction false} PoolEndsNearest(cands: seq<Cand>, si: nat, window: int, person: bool)
    ensures (var pool := Pool(cands, si, window, person);
             if pool == [] then forall i | 0 <= i < |cands| :: !Eligible(cands[i], si, window, person)
             else exists k :: 0 <= k < |cands| && cands[k] == pool[|pool| - 1] && Eligible(cands[k], si, window, person)
                              && forall i | k < i < |cands| :: !Eligible(cands[i], si, window, person))
  {
    if cands != [] {
      var n := |cands| - 1;
      PoolEndsNearest(cands[..n], si, window, person);
      var pool := Pool(cands, si, window, person);
      if Eligible(cands[n], si, window, person) {
        assert cands[n] == pool[|pool| - 1];
      } else if pool != [] {
        var k :| 0 <= k < n && cands[..n][k] == pool[|pool| - 1] && Eligible(cands[..n][k], si, window, person)
                 && forall i | k < i < n :: !Eligible(cands[..n][i], si, window, person);
        assert cands[k] == pool[|pool| - 1];
        forall i | k < i < |cands| ensures !Eligible(cands[i], si, window, person) {
          assert i < n ==> !Eligible(cands[..n][i], si, window, person);
        }
      } else {
        forall i | 0 <= i < |cands| ensures !Eligible(cands[i], si, window, person) {
          assert i < n ==> !Eligible(cands[..n][i], si, window, person);
        }
      }
    }
  }

  /** A pronoun is resolved to the nearest candidate of its kind, or not at all. */
  lemma NearestOrNone(lists: Lists, df: string -> nat, window: int, minConfidence: real, st: St, item: Item)
    requires Before(st.cands, item.si) && IsPronoun(lists, item.tok)
    ensures (var person, next := Lower(item.tok) in lists.person, Step(lists, df, window, minConfidence, st, item);
             && next.cands == st.cands
             && (next.out == st.out
                 || exists k, confidence :: 0 <= k < |st.cands| && Eligible(st.cands[k], item.si, window, person)
                      && (forall i | k < i < |st.cands| :: !Eligible(st.cands[i], item.si, window, person))
                      && next.out == st.out + [Resolution(item.offset, item.tok, st.cands[k].tok, confidence)]
                      && 0.0 < confidence <= 1.0 && confidence >= minConfidence))
    ensures (var person, next := Lower(item.tok) in lists.person, Step(lists, df, window, minConfidence, st, item);
             (minConfidence <= 0.0 && next.out == st.out)
             ==> forall i | 0 <= i < |st.cands| :: !Eligible(st.cands[i], item.si, window, person))
  {
    var person := Lower(item.tok) in lists.person;
    var pool := Pool(st.cands, item.si, window, person);
    PoolEndsNearest(st.cands, item.si, window, person);
    if pool == [] {
      assert st.out + [] == st.out;
    } else {
      PoolIsFrom(st.cands, item.si, window, person);
      assert pool[|pool| - 1] in pool;
      ConfidenceInUnit(pool, item.si);
      assert st.out + [] == st.out;
    }
  }

  lemma ConfidenceInUnit(pool: seq<Cand>, si: nat)
    requires pool != [] && pool[|pool| - 1].si <= si
    ensures 0.0 < Confidence(pool, si) <= 1.0
  {
  }

  function Resolutions(text: string, lists: Lists, window: int, minConfidence: real): seq<Resolution> {
    var sents := Sentences(text);
    ItemsRise(sents, 0);
    Walk(lists, SentenceCounts(sents), window, minConfidence, Items(sents, 0)).out
  }

  lemma {:induction false} ItemsRise(sents: seq<(nat, string)>, si: nat)
    ensures Rising(Items(sents, si)) && forall i | i in Items(sents, si) :: i.si >= si
  {
    if sents != [] {
      ItemsRise(sents[1..], si + 1);
    }
  }

  // ----- where the resolutions stand ---------------------------------------------------

  /** Resolutions in order, each at a token with the pronoun's text. */
  predicate Marks(rs: seq<Resolution>, toks: seq<Tok>) {
    if rs == [] then true
    else
      toks != []
      && if rs[0].offset == toks[0].start then rs[0].pronoun == toks[0].text && Marks(rs[1..], toks[1..])
         else Marks(rs, toks[1..])
  }

  ghost predicate StartsRise(toks: seq<Tok>) { forall i, j | 0 <= i < j < |toks| :: toks[i].start < toks[j].start }

  lemma {:induction false} MarksMore(rs: seq<Resolution>, toks: seq<Tok>, tok: Tok)
    requires Marks(rs, toks)
    ensures Marks(rs, toks + [tok])
  {
    if rs != [] {
      assert (toks + [tok])[1..] == toks[1..] + [tok];
      MarksMore(if rs[0].offset == toks[0].start then rs[1..] else rs, toks[1..], tok);
    }
  }

  lemma {:induction false} MarksOne(rs: seq<Resolution>, toks: seq<Tok>, r: Resolution, tok: Tok)
    requires Marks(rs, toks) && StartsRise(toks + [tok]) && r.offset == tok.start && r.pronoun == tok.text
    ensures Marks(rs + [r], toks + [tok])
  {
    var rs1, toks1 := rs + [r], toks + [tok];
    if toks == [] {
      assert rs1[1..] == [];
    } else {
      assert toks1[1..] == toks[1..] + [tok] && toks1[0] == toks[0];
      forall i, j | 0 <= i < j < |toks1[1..]| ensures toks1[1..][i].start < toks1[1..][j].start {
        assert toks1[i + 1].start < toks1[j + 1].start;
      }
      assert toks1[0].start < toks1[|toks|].start;
      if rs != [] && rs[0].offset == toks[0].start {
        assert rs1[1..] == rs[1..] + [r];
        MarksOne(rs[1..], toks[1..], r, tok);
      } else {
        MarksOne(rs, toks[1..], r, tok);
      }
    }
  }

  /** Every resolution marks a token, and its antecedent is another token of the text. */
  ghost predicate Sound(st: St, toks: seq<Tok>) {
    && Marks(st.out, toks)
    && (forall c | c in st.cands :: c.tok in Texts(toks))
    && (forall r | r in st.out :: r.antecedent in Texts(toks))
  }

  lemma TextsMore(toks: seq<Tok>, tok: Tok)
    ensures Texts(toks + [tok]) == Texts(toks) + [tok.text]
    ensures forall w | w in Texts(toks) :: w in Texts(toks + [tok])
    ensures tok.text in Texts(toks + [tok])
  {
    var more := Texts(toks + [tok]);
    assert more == Texts(toks) + [tok.text];
    assert more[|toks|] == tok.text;
    forall w | w in Texts(toks) ensures w in more {
      var i :| 0 <= i < |toks| && Texts(toks)[i] == w;
      assert more[i] == w;
    }
  }

  lemma StepIsSound(lists: Lists, df: string -> nat, window: int, minConfidence: real, st: St, item: Item, toks: seq<Tok>)
    requires Before(st.cands, item.si) && Sound(st, toks)
    requires StartsRise(toks + [Tok(item.offset, item.tok)])
    ensures Sound(Step(lists, df, window, minConfidence, st, item), toks + [Tok(item.offset, item.tok)])
  {
    var tok := Tok(item.offset, item.tok);
    TextsMore(toks, tok);
    MarksMore(st.out, toks, tok);
    if IsPronoun(lists, item.tok) {
      var more := NewResolution(lists, window, minConfidence, st.cands, item);
      if more != [] {
        PoolIsFrom(st.cands, item.si, window, Lower(item.tok) in lists.person);
        MarksOne(st.out, toks, more[0], tok);
        assert more == [more[0]];
      } else {
        assert st.out + more == st.out;
      }
    }
  }

  lemma {:induction false} WalkIsSound(lists: Lists, df: string -> nat, window: int, minConfidence: real, items: seq<Item>)
    requires Rising(items) && StartsRise(ToksOf(items))
    ensures Sound(Walk(lists, df, window, minConfidence, items), ToksOf(items))
  {
    if items != [] {
      var front, last := items[..|items| - 1], items[|items| - 1];
      assert ToksOf(items) == ToksOf(front) + [Tok(last.offset, last.tok)];
      forall i, j | 0 <= i < j < |front| ensures ToksOf(front)[i].start < ToksOf(front)[j].start {
        assert ToksOf(items)[i].start < ToksOf(items)[j].start;
      }
      WalkIsSound(lists, df, window, minConfidence, front);
      StepIsSound(lists, df, window, minConfidence, Walk(lists, df, window, minConfidence, front), last, ToksOf(front));
    }
  }

  /** What `resolve_text` returns, against the tokens of the text it was given. */
  lemma ResolutionsMarkTokens(text: string, lists: Lists, window: int, minConfidence: real)
    ensures Marks(Resolutions(text, lists, window, minConfidence), Tokens(text, 0))
    ensures forall r | r in Resolutions(text, lists, window, minConfidence) :: r.antecedent in Texts(Tokens(text, 0))
    ensures forall r | r in Resolutions(text, lists, window, minConfidence) :: IsWord(r.antecedent)
  {
    var sents := Sentences(text);
    ItemsRise(sents, 0);
    ItemsAreTokens(sents, 0);
    SentencesKeepTokens(text);
    TokensInOrder(text, 0);
    var toks := Tokens(text, 0);
    forall i, j | 0 <= i < j < |toks| ensures toks[i].start < toks[j].start {
      assert toks[i].start + |toks[i].text| <= toks[j].start && IsWord(toks[i].text);
    }
    WalkIsSound(lists, SentenceCounts(sents), window, minConfidence, Items(sents, 0));
    forall r | r in Resolutions(text, lists, window, minConfidence) ensures IsWord(r.antecedent) {
      var i :| 0 <= i < |toks| && Texts(toks)[i] == r.antecedent;
      assert IsWord(toks[i].text);
    }
  }
}
