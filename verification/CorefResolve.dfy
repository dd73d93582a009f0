/** `resolve_text` as it loops: sentence by sentence, token by token. */
module CorefResolve {
  import opened Picking
  import opened Ascii
  import opened CorefText
  import opened Coref
  import opened CorefLaws

  function Got(df: map<string, nat>, low: string): nat { if low in df then df[low] else 0 }

  /** In how many sentences each word occurs. */
  method CountSentences(sents: seq<(nat, string)>) returns (df: map<string, nat>)
    ensures forall low :: Got(df, low) == SentencesWith(sents, low)
  {
    df := map[];
    for i := 0 to |sents|
      invariant forall low :: Got(df, low) == SentencesWith(sents[..i], low)
    {
      assert sents[..i + 1][..i] == sents[..i];
      df := CountWords(df, LowTexts(sents[i].1));
    }
    assert sents[..|sents|] == sents;
  }

  method CountWords(before: map<string, nat>, words: set<string>) returns (df: map<string, nat>)
    ensures forall low :: Got(df, low) == Got(before, low) + if low in words then 1 else 0
  {
    df := before;
    var todo := words;
    while todo != {}
      invariant todo <= words
      invariant forall low :: Got(df, low) == Got(before, low) + if low in words - todo then 1 else 0
    {
      var low := Pick(todo);
      df := df[low := Got(df, low) + 1];
      todo := todo - {low};
    }
  }

  method MakePool(cands: seq<Cand>, si: nat, window: int, person: bool) returns (pool: seq<Cand>)
    ensures pool == Pool(cands, si, window, person)
  {
    pool := [];
    for i := 0 to |cands|
      invariant pool == Pool(cands[..i], si, window, person)
    {
      assert cands[..i + 1][..i] == cands[..i];
      if cands[i].person == person && si as int - cands[i].si as int <= window {
        pool := pool + [cands[i]];
      }
    }
    assert cands[..|cands|] == cands;
  }

  /** One token, in the order of the branches. */
  method See(lists: Lists, df: map<string, nat>, ghost counts: string -> nat, window: int, minConfidence: real,
             st: St, item: Item) returns (next: St)
    requires Before(st.cands, item.si) && item.tok != "" && forall low :: Got(df, low) == counts(low)
    ensures next == Step(lists, counts, window, minConfidence, st, item)
  {
    var tok, low := item.tok, Lower(item.tok);
    next := st;
    if low in lists.person || low in lists.neuter {
      var person := low in lists.person;
      var pool := MakePool(st.cands, item.si, window, person);
      PoolIsFrom(st.cands, item.si, window, person);
      assert st.out + [] == st.out;
      if pool == [] {
        return;
      }
      var last := pool[|pool| - 1];
      assert last in pool;
      var conf := 1.0 / (1 + item.si - last.si) as real;
      if |LowNames(pool)| > 1 {
        conf := conf * 0.5;
      }
      if conf >= minConfidence {
        next := St(st.cands, st.out + [Resolution(item.offset, tok, last.tok, conf)]);
      }
      return;
    }
    assert st.cands + [] == st.cands;
    if '\'' in tok {
      return;
    }
    if IsUpper(tok[0]) && low !in lists.capStop && low !in lists.verbish && low !in lists.prompt && |tok| >= 2 {
      if !item.atStart || low !in lists.opener {
        next := St(st.cands + [Cand(item.si, tok, true)], st.out);
      }
    } else if AllLow(tok) && low !in lists.capStop && low !in lists.verbish && low !in lists.prompt
              && |tok| >= 3 && Got(df, low) >= 2 {
      next := St(st.cands + [Cand(item.si, tok, false)], st.out);
    }
  }

  lemma {:induction false} ItemsSplit(a: seq<(nat, string)>, b: seq<(nat, string)>, si: nat)
    ensures Items(a + b, si) == Items(a, si) + Items(b, si + |a|)
  {
    if a == [] {
      assert a + b == b;
    } else {
      assert (a + b)[1..] == a[1..] + b;
      ItemsSplit(a[1..], b, si + 1);
    }
  }

  lemma NextSentence(sents: seq<(nat, string)>, i: nat)
    requires i < |sents|
    ensures Items(sents[..i + 1], 0) == Items(sents[..i], 0) + ItemsOf(Tokens(sents[i].1, sents[i].0), i, sents[i].0)
    ensures Rising(Items(sents[..i + 1], 0)) && Rising(Items(sents[..i], 0))
  {
    assert sents[..i + 1] == sents[..i] + [sents[i]];
    ItemsSplit(sents[..i], [sents[i]], 0);
    var one := [sents[i]];
    assert one[1..] == [] && Items(one[1..], i + 1) == [];
    assert Items(one, i) == ItemsOf(Tokens(sents[i].1, sents[i].0), i, sents[i].0);
    ItemsRise(sents[..i + 1], 0);
    ItemsRise(sents[..i], 0);
  }

  lemma NextItem(lists: Lists, df: string -> nat, window: int, minConfidence: real, items: seq<Item>, item: Item)
    requires Rising(items + [item])
    ensures Rising(items)
    ensures (var st := Walk(lists, df, window, minConfidence, items);
             Before(st.cands, item.si)
             && Walk(lists, df, window, minConfidence, items + [item]) == Step(lists, df, window, minConfidence, st, item))
  {
    var more := items + [item];
    forall i, j | 0 <= i < j < |items| ensures items[i].si <= items[j].si {
      assert more[i].si <= more[j].si;
    }
    assert more[..|more| - 1] == items;
    var st := Walk(lists, df, window, minConfidence, items);
    forall c | c in st.cands ensures c.si <= item.si {
      var i :| 0 <= i < |items| && items[i].si == c.si && items[i].tok == c.tok;
      assert more[i].si <= more[|items|].si;
    }
  }

  ghost predicate Seen(lists: Lists, df: string -> nat, window: int, minConfidence: real, items: seq<Item>, st: St) {
    Rising(items) && st == Walk(lists, df, window, minConfidence, items)
  }

  lemma NextSeen(lists: Lists, df: string -> nat, window: int, minConfidence: real, items: seq<Item>, mine: seq<Item>,
                 i: nat, st: St)
    requires i < |mine| && Rising(items + mine) && Seen(lists, df, window, minConfidence, items + mine[..i], st)
    ensures Before(st.cands, mine[i].si)
    ensures Seen(lists, df, window, minConfidence, items + mine[..i + 1], Step(lists, df, window, minConfidence, st, mine[i]))
  {
    RisingPart(items, mine, i + 1);
    assert items + mine[..i + 1] == (items + mine[..i]) + [mine[i]];
    NextItem(lists, df, window, minConfidence, items + mine[..i], mine[i]);
  }

  /** The tokens of one sentence. */
  method SeeSentence(lists: Lists, df: map<string, nat>, ghost counts: string -> nat, window: int, minConfidence: real,
                     si: nat, sent: (nat, string), ghost items: seq<Item>, before: St) returns (st: St)
    requires forall low :: Got(df, low) == counts(low)
    requires Rising(items + ItemsOf(Tokens(sent.1, sent.0), si, sent.0))
    requires Seen(lists, counts, window, minConfidence, items, before)
    ensures Seen(lists, counts, window, minConfidence, items + ItemsOf(Tokens(sent.1, sent.0), si, sent.0), st)
  {
    st := before;
    var toks := Tokens(sent.1, sent.0);
    TokensInOrder(sent.1, sent.0);
    ghost var mine := ItemsOf(toks, si, sent.0);
    assert items + mine[..0] == items;
    for i := 0 to |toks|
      invariant Seen(lists, counts, window, minConfidence, items + mine[..i], st)
    {
      NextSeen(lists, counts, window, minConfidence, items, mine, i, st);
      assert IsWord(toks[i].text);
      st := See(lists, df, counts, window, minConfidence, st, Item(si, toks[i].start, toks[i].text, toks[i].start == sent.0));
    }
    assert mine[..|toks|] == mine;
  }

  lemma RisingPart(items: seq<Item>, mine: seq<Item>, n: nat)
    requires n <= |mine| && Rising(items + mine)
    ensures Rising(items + mine[..n])
  {
    var part := items + mine[..n];
    forall i, j | 0 <= i < j < |part| ensures part[i].si <= part[j].si {
      assert part[i] == (items + mine)[i] && part[j] == (items + mine)[j];
    }
  }

  /** `resolve_text`; `pieces` is what splitting the text at sentence ends gives. */
  method ResolveText(text: string, pieces: seq<string>, lists: Lists, window: int, minConfidence: real)
    returns (out: seq<Resolution>)
    requires pieces == ChunkTexts(Chunks(text, 0, 0))
    ensures out == Resolutions(text, lists, window, minConfidence)
    ensures Marks(out, Tokens(text, 0)) && Told(text, lists, window, minConfidence, out)
  {
    var sents := FindSentences(text, pieces);
    var df := CountSentences(sents);
    ghost var counts := SentenceCounts(sents);
    var st := St([], []);
    for si := 0 to |sents|
      invariant Seen(lists, counts, window, minConfidence, Items(sents[..si], 0), st)
    {
      NextSentence(sents, si);
      st := SeeSentence(lists, df, counts, window, minConfidence, si, sents[si], Items(sents[..si], 0), st);
    }
    assert sents[..|sents|] == sents;
    ResolutionsMarkTokens(text, lists, window, minConfidence);
    ghost var items, at := PronounsGo(text, lists, window, minConfidence);
    out := st.out;
  }
}
