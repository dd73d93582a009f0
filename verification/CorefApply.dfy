/** Substituting antecedents for pronouns, and what it does to a text's tokens. */
module CorefApply {
  import opened Ascii
  import opened CorefText
  import opened Coref
  import opened StableSort

  // ----- substitution, all at once -----------------------------------------------------

  /** `s`, standing at offset `base`, with every marked token replaced by its antecedent. */
  function Rebuilt(s: string, base: nat, rs: seq<Resolution>): string
    decreases |s|
  {
    if s == "" then ""
    else if IsLetter(s[0]) then
      var n := Run(s);
      assert n >= 1;
      if rs != [] && rs[0].offset == base then rs[0].antecedent + Rebuilt(s[n..], base + n, rs[1..])
      else s[..n] + Rebuilt(s[n..], base + n, rs)
    else [s[0]] + Rebuilt(s[1..], base + 1, rs)
  }

  /** The tokens' texts, the marked ones replaced. */
  function Replaced(toks: seq<Tok>, rs: seq<Resolution>): seq<string> {
    if toks == [] then []
    else if rs != [] && rs[0].offset == toks[0].start then [rs[0].antecedent] + Replaced(toks[1..], rs[1..])
    else [toks[0].text] + Replaced(toks[1..], rs)
  }

  lemma TextsOfFirst(tok: Tok, toks: seq<Tok>)
    ensures Texts([tok] + toks) == [tok.text] + Texts(toks)
  {
  }

  lemma {:induction false} RebuiltIsClean(s: string, base: nat, rs: seq<Resolution>)
    requires Clean(s)
    ensures Clean(Rebuilt(s, base, rs))
  {
  }

  lemma WordOrWords(w: string, rest: string, base: nat)
    requires IsWord(w) && Clean(rest)
    ensures Texts(Tokens(w + rest, base)) == [w] + Texts(Tokens(rest, base + |w|))
  {
    TokensOfWord(w, rest, base);
    TextsOfFirst(Tok(base, w), Tokens(rest, base + |w|));
  }

  lemma TextsStep(s: string, base: nat)
    requires s != "" && IsLetter(s[0])
    ensures 1 <= Run(s) && Texts(Tokens(s, base)) == [s[..Run(s)]] + Texts(Tokens(s[Run(s)..], base + Run(s)))
  {
    TextsOfFirst(Tok(base, s[..Run(s)]), Tokens(s[Run(s)..], base + Run(s)));
  }

  lemma {:induction false} BaseDoesNotMatter(s: string, a: nat, b: nat)
    ensures Texts(Tokens(s, a)) == Texts(Tokens(s, b))
    decreases |s|
  {
    if s != "" {
      if IsLetter(s[0]) {
        TextsStep(s, a);
        TextsStep(s, b);
        BaseDoesNotMatter(s[Run(s)..], a + Run(s), b + Run(s));
      } else {
        BaseDoesNotMatter(s[1..], a + 1, b + 1);
      }
    }
  }

  lemma FirstIsWord(s: string)
    requires s != "" && IsLetter(s[0])
    ensures 1 <= Run(s) && IsWord(s[..Run(s)]) && Clean(s[Run(s)..])
  {
    RunIs(s);
  }

  /** Tokenizing the substituted text gives the old tokens with exactly the marked ones replaced. */
  lemma {:induction false} Retokenized(s: string, base: nat, rs: seq<Resolution>)
    requires forall r | r in rs :: IsWord(r.antecedent)
    ensures Texts(Tokens(Rebuilt(s, base, rs), 0)) == Replaced(Tokens(s, base), rs)
    decreases |s|
  {
    if s != "" {
      if IsLetter(s[0]) {
        var n := Run(s);
        FirstIsWord(s);
        var marked := rs != [] && rs[0].offset == base;
        var w, later := if marked then rs[0].antecedent else s[..n], if marked then rs[1..] else rs;
        var rest := Rebuilt(s[n..], base + n, later);
        Retokenized(s[n..], base + n, later);
        RebuiltIsClean(s[n..], base + n, later);
        WordOrWords(w, rest, 0);
        BaseDoesNotMatter(rest, |w|, 0);
        RestOfTokens(s, base);
      } else {
        Retokenized(s[1..], base + 1, rs);
        var rest := Rebuilt(s[1..], base + 1, rs);
        BaseDoesNotMatter(rest, 1, 0);
        assert ([s[0]] + rest)[1..] == rest;
      }
    }
  }

  lemma RestOfTokens(s: string, base: nat)
    requires s != "" && IsLetter(s[0])
    ensures 1 <= Run(s)
    ensures Tokens(s, base)[0] == Tok(base, s[..Run(s)]) && Tokens(s, base)[1..] == Tokens(s[Run(s)..], base + Run(s))
  {
    RunIs(s);
  }

  // ----- substitution, back to front ---------------------------------------------------

  /** Python's slice, which clamps. */
  function Slice(s: string, a: nat, b: nat): string {
    var hi := if b <= |s| then b else |s|;
    if a <= hi then s[a..hi] else ""
  }

  predicate Drifted(out: string, r: Resolution) {
    Lower(Slice(out, r.offset, r.offset + |r.pronoun|)) != Lower(r.pronoun)
  }

  /** One substitution; a text that no longer reads as the pronoun is left alone. */
  function Splice(out: string, r: Resolution): string {
    if Drifted(out, r) then out
    else Slice(out, 0, r.offset) + r.antecedent + Slice(out, r.offset + |r.pronoun|, |out|)
  }

  function SpliceAll(out: string, rs: seq<Resolution>): string {
    if rs == [] then out else Splice(SpliceAll(out, rs[..|rs| - 1]), rs[|rs| - 1])
  }

  function Offset(): Resolution -> real { (r: Resolution) => -(r.offset as real) }

  /** `apply`: the resolutions by falling offset. */
  function Applied(text: string, rs: seq<Resolution>): string { SpliceAll(text, Sort(rs, Offset())) }

  lemma SpliceMore(text: string, rs: seq<Resolution>, i: nat)
    requires i < |rs|
    ensures SpliceAll(text, rs[..i + 1]) == Splice(SpliceAll(text, rs[..i]), rs[i])
  {
    assert rs[..i + 1][..i] == rs[..i];
  }

  method Apply(text: string, rs: seq<Resolution>) returns (out: string)
    ensures out == Applied(text, rs)
  {
    out := text;
    var sorted := Sort(rs, Offset());
    for i := 0 to |sorted|
      invariant out == SpliceAll(text, sorted[..i])
    {
      SpliceMore(text, sorted, i);
      out := ApplyOne(out, sorted[i]);
    }
    assert sorted[..|sorted|] == sorted;
  }

  /** One turn of the loop. */
  method ApplyOne(text: string, r: Resolution) returns (out: string)
    ensures out == Splice(text, r)
  {
    out := text;
    var end := r.offset + |r.pronoun|;
    if Lower(Slice(out, r.offset, end)) != Lower(r.pronoun) {
      return;
    }
    out := Slice(out, 0, r.offset) + r.antecedent + Slice(out, end, |out|);
  }

  ghost predicate OffsetsRise(rs: seq<Resolution>) { forall i, j | 0 <= i < j < |rs| :: rs[i].offset < rs[j].offset }

  function Backwards<T>(s: seq<T>): seq<T> { if s == [] then [] else Backwards(s[1..]) + [s[0]] }

  lemma {:induction false} InBackwards<T>(s: seq<T>, x: T)
    ensures x in Backwards(s) <==> x in s
  {
    if s != [] {
      InBackwards(s[1..], x);
    }
  }

  lemma {:induction false} InsertLast(x: Resolution, s: seq<Resolution>)
    requires forall q | q in s :: x.offset < q.offset
    ensures Insert(x, s, Offset()) == s + [x]
  {
    if s != [] {
      assert s[0] in s;
      InsertLast(x, s[1..]);
    }
  }

  lemma {:induction false} SortTurnsRound(rs: seq<Resolution>)
    requires OffsetsRise(rs)
    ensures Sort(rs, Offset()) == Backwards(rs)
  {
    if rs != [] {
      SortTurnsRound(rs[1..]);
      forall q | q in Backwards(rs[1..]) ensures rs[0].offset < q.offset {
        InBackwards(rs[1..], q);
        var i :| 0 <= i < |rs[1..]| && rs[1..][i] == q;
        assert rs[i + 1] == q;
      }
      InsertLast(rs[0], Backwards(rs[1..]));
    }
  }

  /** All marks lie at `base` or later. */
  ghost predicate From(rs: seq<Resolution>, base: nat) { forall r | r in rs :: base <= r.offset }

  /** Where a token stands and what it reads. */
  ghost predicate TokenAt(s: string, base: nat, o: nat, w: string) { Tok(o, w) in Tokens(s, base) }

  /** The substituted text still reads `w` at `o` while nothing up to `o` has been replaced. */
  ghost predicate Reads(out: string, at: int, w: string) {
    0 <= at && at + |w| <= |out| && out[at..at + |w|] == w
  }

  lemma TokenLater(s: string, base: nat, o: nat, w: string)
    requires s != "" && TokenAt(s, base, o, w)
    ensures IsLetter(s[0]) ==> 1 <= Run(s) && ((o == base && w == s[..Run(s)])
                               || (base + Run(s) <= o && TokenAt(s[Run(s)..], base + Run(s), o, w)))
    ensures !IsLetter(s[0]) ==> base + 1 <= o && TokenAt(s[1..], base + 1, o, w)
  {
    if IsLetter(s[0]) {
      RestOfTokens(s, base);
      FirstOrLater(s, base, Tok(base, s[..Run(s)]), Tokens(s[Run(s)..], base + Run(s)), o, w);
    } else {
      TokenFrom(s[1..], base + 1, o, w);
    }
  }

  lemma FirstOrLater(s: string, base: nat, first: Tok, rest: seq<Tok>, o: nat, w: string)
    requires s != "" && TokenAt(s, base, o, w) && Tokens(s, base) == [first] + rest
    requires rest == Tokens(s[Run(s)..], base + Run(s)) && first == Tok(base, s[..Run(s)])
    ensures Tok(o, w) == first || (base + Run(s) <= o && TokenAt(s[Run(s)..], base + Run(s), o, w))
  {
    if Tok(o, w) in rest {
      TokenFrom(s[Run(s)..], base + Run(s), o, w);
    }
  }

  lemma TokenFrom(s: string, base: nat, o: nat, w: string)
    requires TokenAt(s, base, o, w)
    ensures base <= o
  {
    TokensInOrder(s, base);
    var toks := Tokens(s, base);
    var i :| 0 <= i < |toks| && toks[i] == Tok(o, w);
  }

  /** `next` is `out` with the `w` it reads at `at` replaced by `a`. */
  ghost predicate SplicedIn(out: string, next: string, at: int, w: string, a: string) {
    Reads(out, at, w) && next == out[..at] + a + out[at + |w|..]
  }

  /** What is rebuilt before the first mark is the text itself. */
  lemma RebuiltPast(s: string, base: nat, rs: seq<Resolution>)
    requires s != "" && (rs != [] ==> rs[0].offset != base)
    ensures IsLetter(s[0]) ==> 1 <= Run(s) && Rebuilt(s, base, rs) == s[..Run(s)] + Rebuilt(s[Run(s)..], base + Run(s), rs)
    ensures !IsLetter(s[0]) ==> Rebuilt(s, base, rs) == s[..1] + Rebuilt(s[1..], base + 1, rs)
  {
    assert s[..1] == [s[0]];
  }

  lemma RebuiltMarked(s: string, base: nat, rs: seq<Resolution>, more: seq<Resolution>, r: Resolution) returns (next: string)
    requires s != "" && IsLetter(s[0]) && r.offset == base && more == [r] + rs
    ensures 1 <= Run(s) && next == Rebuilt(s, base, more) == r.antecedent + Rebuilt(s[Run(s)..], base + Run(s), rs)
  {
    assert more[1..] == rs && more[0] == r;
    next := Rebuilt(s, base, more);
  }

  lemma RebuiltLater(s: string, base: nat, rs: seq<Resolution>, n: nat, rest: string, out: string)
    requires s != "" && 0 < n == (if IsLetter(s[0]) then Run(s) else 1) && (rs != [] ==> rs[0].offset != base)
    requires rest == Rebuilt(s[n..], base + n, rs) && n <= |s| && out == s[..n] + rest
    ensures out == Rebuilt(s, base, rs)
  {
    RebuiltPast(s, base, rs);
  }

  lemma SpliceFront(w: string, rest: string, out: string, next: string, a: string)
    requires out == w + rest && next == a + rest
    ensures SplicedIn(out, next, 0, w, a)
  {
    assert out[..0] + a == a && out[|w|..] == rest;
  }

  lemma PrefixSplice(p: string, rest: string, spliced: string, k: int, at: int, w: string, a: string, out: string, next: string)
    requires SplicedIn(rest, spliced, k, w, a) && out == p + rest && next == p + spliced && at == |p| + k
    ensures SplicedIn(out, next, at, w, a)
  {
    AfterPrefix(p, rest, k, w, a);
  }

  lemma SpliceHere(s: string, base: nat, rs: seq<Resolution>, more: seq<Resolution>, r: Resolution)
    returns (out: string, next: string)
    requires s != "" && IsLetter(s[0]) && r.offset == base && r.pronoun == s[..Run(s)] && From(rs, base + 1)
    requires more == [r] + rs
    ensures out == Rebuilt(s, base, rs) && next == Rebuilt(s, base, more)
    ensures SplicedIn(out, next, 0, r.pronoun, r.antecedent)
  {
    assert rs != [] ==> rs[0] in rs;
    var rest := Rebuilt(s[Run(s)..], base + Run(s), rs);
    out := s[..Run(s)] + rest;
    RebuiltLater(s, base, rs, Run(s), rest, out);
    next := RebuiltMarked(s, base, rs, more, r);
    SpliceFront(r.pronoun, rest, out, next, r.antecedent);
  }

  /** A token stands at the front, or in what is left behind the first token or character. */
  lemma TokenStep(s: string, base: nat, o: nat, w: string) returns (n: nat)
    requires TokenAt(s, base, o, w)
    ensures s != "" && 0 < n == (if IsLetter(s[0]) then Run(s) else 1) && n <= |s| && base <= o
    ensures o == base ==> IsLetter(s[0]) && w == s[..Run(s)]
    ensures o != base ==> base + n <= o && TokenAt(s[n..], base + n, o, w)
  {
    assert s != "";
    TokenLater(s, base, o, w);
    n := if IsLetter(s[0]) then Run(s) else 1;
  }

  /** Marking `r` as well, before all of `rs`, splices its antecedent in. */
  lemma {:induction false} SpliceOne(s: string, base: nat, rs: seq<Resolution>, more: seq<Resolution>, r: Resolution)
    returns (out: string, next: string)
    requires TokenAt(s, base, r.offset, r.pronoun) && From(rs, r.offset + 1) && more == [r] + rs
    ensures out == Rebuilt(s, base, rs) && next == Rebuilt(s, base, more) && base <= r.offset
    ensures SplicedIn(out, next, r.offset - base, r.pronoun, r.antecedent)
    decreases |s|
  {
    var n := TokenStep(s, base, r.offset, r.pronoun);
    if r.offset == base {
      out, next := SpliceHere(s, base, rs, more, r);
    } else {
      var rest, spliced := SpliceOne(s[n..], base + n, rs, more, r);
      out, next := SpliceLater(s, base, rs, more, r, n, rest, spliced);
    }
  }

  lemma SpliceLater(s: string, base: nat, rs: seq<Resolution>, more: seq<Resolution>, r: Resolution, n: nat,
                    rest: string, spliced: string) returns (out: string, next: string)
    requires s != "" && 0 < n == (if IsLetter(s[0]) then Run(s) else 1) && n <= |s| && base + n <= r.offset
    requires From(rs, r.offset + 1) && more == [r] + rs
    requires rest == Rebuilt(s[n..], base + n, rs) && spliced == Rebuilt(s[n..], base + n, more)
    requires SplicedIn(rest, spliced, r.offset - (base + n), r.pronoun, r.antecedent)
    ensures out == Rebuilt(s, base, rs) && next == Rebuilt(s, base, more)
    ensures SplicedIn(out, next, r.offset - base, r.pronoun, r.antecedent)
  {
    NotHere(rs, more, r, base);
    out, next := SpliceBehind(s, base, rs, more, n, rest, spliced, r.offset - (base + n), r.offset - base,
                              r.pronoun, r.antecedent);
  }

  lemma NotHere(rs: seq<Resolution>, more: seq<Resolution>, r: Resolution, base: nat)
    requires From(rs, r.offset + 1) && more == [r] + rs && base < r.offset
    ensures (rs != [] ==> rs[0].offset != base) && more != [] && more[0].offset != base
  {
    assert rs != [] ==> rs[0] in rs;
  }

  lemma SpliceBehind(s: string, base: nat, rs: seq<Resolution>, more: seq<Resolution>, n: nat, rest: string, spliced: string,
                     k: int, at: int, w: string, a: string) returns (out: string, next: string)
    requires s != "" && 0 < n == (if IsLetter(s[0]) then Run(s) else 1) && n <= |s|
    requires (rs != [] ==> rs[0].offset != base) && more != [] && more[0].offset != base
    requires rest == Rebuilt(s[n..], base + n, rs) && spliced == Rebuilt(s[n..], base + n, more)
    requires SplicedIn(rest, spliced, k, w, a) && at == n + k
    ensures out == Rebuilt(s, base, rs) && next == Rebuilt(s, base, more) && SplicedIn(out, next, at, w, a)
  {
    var p;
    p, out, next := BothRebuilt(s, base, rs, more, n, rest, spliced);
    PrefixSplice(p, rest, spliced, k, at, w, a, out, next);
  }

  lemma BothRebuilt(s: string, base: nat, rs: seq<Resolution>, more: seq<Resolution>, n: nat,
                    rest: string, spliced: string) returns (p: string, out: string, next: string)
    requires s != "" && 0 < n == (if IsLetter(s[0]) then Run(s) else 1) && n <= |s|
    requires (rs != [] ==> rs[0].offset != base) && more != [] && more[0].offset != base
    requires rest == Rebuilt(s[n..], base + n, rs) && spliced == Rebuilt(s[n..], base + n, more)
    ensures out == Rebuilt(s, base, rs) && next == Rebuilt(s, base, more)
    ensures |p| == n && out == p + rest && next == p + spliced
  {
    p := s[..n];
    out, next := p + rest, p + spliced;
    BothLater(s, base, rs, more, n, rest, spliced, out, next);
  }

  /** Both texts go on as the rest does. */
  lemma BothLater(s: string, base: nat, rs: seq<Resolution>, more: seq<Resolution>, n: nat,
                  rest: string, spliced: string, out: string, next: string)
    requires s != "" && 0 < n == (if IsLetter(s[0]) then Run(s) else 1) && n <= |s|
    requires (rs != [] ==> rs[0].offset != base) && more != [] && more[0].offset != base
    requires rest == Rebuilt(s[n..], base + n, rs) && spliced == Rebuilt(s[n..], base + n, more)
    requires out == s[..n] + rest && next == s[..n] + spliced
    ensures out == Rebuilt(s, base, rs) && next == Rebuilt(s, base, more)
  {
    RebuiltLater(s, base, rs, n, rest, out);
    RebuiltLater(s, base, more, n, spliced, next);
  }

  lemma AfterPrefix(p: string, rest: string, at: nat, w: string, a: string)
    requires Reads(rest, at, w)
    ensures Reads(p + rest, |p| + at, w)
    ensures p + (rest[..at] + a + rest[at + |w|..])
      == (p + rest)[..|p| + at] + a + (p + rest)[|p| + at + |w|..]
  {
    assert (p + rest)[|p| + at..|p| + at + |w|] == rest[at..at + |w|];
    assert (p + rest)[..|p| + at] == p + rest[..at];
    assert (p + rest)[|p| + at + |w|..] == rest[at + |w|..];
  }

  lemma {:induction false} NoMarks(s: string, base: nat)
    ensures Rebuilt(s, base, []) == s
    decreases |s|
  {
    if s != "" {
      if IsLetter(s[0]) {
        RunIs(s);
        NoMarks(s[Run(s)..], base + Run(s));
      } else {
        NoMarks(s[1..], base + 1);
      }
    }
  }

  lemma {:induction false} MarksAreTokens(rs: seq<Resolution>, toks: seq<Tok>)
    requires Marks(rs, toks) && StartsRise(toks)
    ensures OffsetsRise(rs)
    ensures forall r | r in rs :: Tok(r.offset, r.pronoun) in toks
  {
    if rs != [] {
      var rest := toks[1..];
      forall i, j | 0 <= i < j < |rest| ensures rest[i].start < rest[j].start {
        assert toks[i + 1].start < toks[j + 1].start;
      }
      if rs[0].offset == toks[0].start {
        MarksAreTokens(rs[1..], rest);
        assert Tok(rs[0].offset, rs[0].pronoun) == toks[0];
        forall i, j | 0 <= i < j < |rs| ensures rs[i].offset < rs[j].offset {
          if i == 0 {
            assert rs[j] == rs[1..][j - 1] && rs[j] in rs[1..];
            var k :| 0 <= k < |rest| && rest[k] == Tok(rs[j].offset, rs[j].pronoun);
            assert toks[0].start < toks[k + 1].start;
          } else {
            assert rs[1..][i - 1].offset < rs[1..][j - 1].offset;
          }
        }
      } else {
        MarksAreTokens(rs, rest);
      }
    }
  }

  lemma SpliceReads(out: string, r: Resolution)
    requires Reads(out, r.offset, r.pronoun)
    ensures !Drifted(out, r)
    ensures Splice(out, r) == out[..r.offset] + r.antecedent + out[r.offset + |r.pronoun|..]
  {
    assert Slice(out, r.offset, r.offset + |r.pronoun|) == r.pronoun;
  }

  lemma LaterAreLater(rs: seq<Resolution>)
    requires OffsetsRise(rs) && rs != []
    ensures OffsetsRise(rs[1..]) && From(rs[1..], rs[0].offset + 1) && rs == [rs[0]] + rs[1..]
  {
    var later := rs[1..];
    forall i, j | 0 <= i < j < |later| ensures later[i].offset < later[j].offset {
      assert rs[i + 1].offset < rs[j + 1].offset;
    }
    forall q | q in later ensures rs[0].offset + 1 <= q.offset {
      var i :| 0 <= i < |later| && later[i] == q;
      assert rs[0].offset < rs[i + 1].offset;
    }
  }

  lemma SpliceNext(text: string, later: seq<Resolution>, more: seq<Resolution>, r: Resolution, out: string, next: string)
    requires SpliceAll(text, Backwards(later)) == out && more == [r] + later
    requires SplicedIn(out, next, r.offset, r.pronoun, r.antecedent)
    ensures SpliceAll(text, Backwards(more)) == next && !Drifted(out, r)
  {
    SpliceReads(out, r);
    assert more[1..] == later && more[0] == r;
    var back := Backwards(more);
    assert back[..|back| - 1] == Backwards(later) && back[|back| - 1] == r;
  }

  lemma BackStep(text: string, later: seq<Resolution>, more: seq<Resolution>, r: Resolution, before: string)
    returns (next: string)
    requires before == Rebuilt(text, 0, later) && SpliceAll(text, Backwards(later)) == before
    requires TokenAt(text, 0, r.offset, r.pronoun) && From(later, r.offset + 1) && more == [r] + later
    ensures next == Rebuilt(text, 0, more) && SpliceAll(text, Backwards(more)) == next && !Drifted(before, r)
  {
    var out;
    out, next := SpliceOne(text, 0, later, more, r);
    SpliceNext(text, later, more, r, before, next);
  }

  /** Back to front, each splice finds its pronoun, and the result is the substitution at once. */
  lemma {:induction false} BackToFront(text: string, rs: seq<Resolution>) returns (out: string)
    requires OffsetsRise(rs) && forall r | r in rs :: TokenAt(text, 0, r.offset, r.pronoun)
    ensures out == Rebuilt(text, 0, rs) && SpliceAll(text, Backwards(rs)) == out
    ensures rs != [] ==> !Drifted(SpliceAll(text, Backwards(rs[1..])), rs[0])
  {
    if rs == [] {
      NoMarks(text, 0);
      out := text;
    } else {
      var later, r := rs[1..], rs[0];
      LaterAreLater(rs);
      var before := BackToFront(text, later);
      assert r in rs;
      out := BackStep(text, later, rs, r, before);
    }
  }

  lemma StartsOfTokens(text: string)
    ensures StartsRise(Tokens(text, 0))
  {
    TokensInOrder(text, 0);
    var toks := Tokens(text, 0);
    forall i, j | 0 <= i < j < |toks| ensures toks[i].start < toks[j].start {
      assert toks[i].start + |toks[i].text| <= toks[j].start && IsWord(toks[i].text);
    }
  }

  /** Applying resolutions to the text they were made from substitutes them all, and skips none. */
  lemma ApplyIsSimultaneous(text: string, rs: seq<Resolution>)
    requires Marks(rs, Tokens(text, 0))
    ensures Applied(text, rs) == Rebuilt(text, 0, rs)
    ensures forall i | 0 <= i < |rs| :: !Drifted(SpliceAll(text, Backwards(rs[i + 1..])), rs[i])
  {
    StartsOfTokens(text);
    MarksAreTokens(rs, Tokens(text, 0));
    SortTurnsRound(rs);
    var out := BackToFront(text, rs);
    forall i | 0 <= i < |rs| ensures !Drifted(SpliceAll(text, Backwards(rs[i + 1..])), rs[i]) {
      var tail := rs[i..];
      forall a, b | 0 <= a < b < |tail| ensures tail[a].offset < tail[b].offset {
        assert rs[i + a].offset < rs[i + b].offset;
      }
      var rest := BackToFront(text, tail);
      assert tail[1..] == rs[i + 1..];
    }
  }

  // ----- counts ------------------------------------------------------------------------

  function CountLow(words: seq<string>, low: string): nat {
    if words == [] then 0 else (if Lower(words[0]) == low then 1 else 0) + CountLow(words[1..], low)
  }

  function Antecedents(rs: seq<Resolution>): (a: seq<string>)
    ensures |a| == |rs| && forall i | 0 <= i < |rs| :: a[i] == rs[i].antecedent
  {
    seq(|rs|, i requires 0 <= i < |rs| => rs[i].antecedent)
  }

  function Pronouns(rs: seq<Resolution>): (a: seq<string>)
    ensures |a| == |rs| && forall i | 0 <= i < |rs| :: a[i] == rs[i].pronoun
  {
    seq(|rs|, i requires 0 <= i < |rs| => rs[i].pronoun)
  }

  lemma CountFirst(w: string, words: seq<string>, low: string)
    ensures CountLow([w] + words, low) == (if Lower(w) == low then 1 else 0) + CountLow(words, low)
  {
    assert ([w] + words)[1..] == words;
  }

  lemma {:induction false} CountSplit(a: seq<string>, b: seq<string>, low: string)
    ensures CountLow(a + b, low) == CountLow(a, low) + CountLow(b, low)
  {
    if a == [] {
      assert a + b == b;
    } else {
      assert (a + b)[1..] == a[1..] + b;
      CountSplit(a[1..], b, low);
    }
  }

  /** Each term loses the pronouns replaced and gains the antecedents put in. */
  lemma {:induction false} CountsMove(toks: seq<Tok>, rs: seq<Resolution>, low: string)
    requires Marks(rs, toks)
    ensures CountLow(Replaced(toks, rs), low) + CountLow(Pronouns(rs), low)
      == CountLow(Texts(toks), low) + CountLow(Antecedents(rs), low)
  {
    if toks != [] {
      CountTexts(toks, low);
      if rs != [] && rs[0].offset == toks[0].start {
        CountsMove(toks[1..], rs[1..], low);
        CountFirst(rs[0].antecedent, Replaced(toks[1..], rs[1..]), low);
        CountMarks(rs, low);
      } else {
        CountsMove(toks[1..], rs, low);
        CountFirst(toks[0].text, Replaced(toks[1..], rs), low);
      }
    }
  }

  lemma CountTexts(toks: seq<Tok>, low: string)
    requires toks != []
    ensures CountLow(Texts(toks), low) == (if Lower(toks[0].text) == low then 1 else 0) + CountLow(Texts(toks[1..]), low)
  {
    assert Texts(toks) == [toks[0].text] + Texts(toks[1..]);
    CountFirst(toks[0].text, Texts(toks[1..]), low);
  }

  lemma CountMarks(rs: seq<Resolution>, low: string)
    requires rs != []
    ensures CountLow(Pronouns(rs), low) == (if Lower(rs[0].pronoun) == low then 1 else 0) + CountLow(Pronouns(rs[1..]), low)
    ensures CountLow(Antecedents(rs), low)
      == (if Lower(rs[0].antecedent) == low then 1 else 0) + CountLow(Antecedents(rs[1..]), low)
  {
    assert Pronouns(rs) == [rs[0].pronoun] + Pronouns(rs[1..]);
    assert Antecedents(rs) == [rs[0].antecedent] + Antecedents(rs[1..]);
    CountFirst(rs[0].pronoun, Pronouns(rs[1..]), low);
    CountFirst(rs[0].antecedent, Antecedents(rs[1..]), low);
  }

  lemma {:induction false} ReplacedFrom(toks: seq<Tok>, rs: seq<Resolution>)
    ensures forall w | w in Replaced(toks, rs) :: w in Texts(toks) || w in Antecedents(rs)
  {
    if toks != [] {
      assert toks == [toks[0]] + toks[1..];
      TextsOfFirst(toks[0], toks[1..]);
      if rs != [] && rs[0].offset == toks[0].start {
        ReplacedFrom(toks[1..], rs[1..]);
        assert Antecedents(rs) == [rs[0].antecedent] + Antecedents(rs[1..]);
      } else {
        ReplacedFrom(toks[1..], rs);
      }
    }
  }

  /** `antecedent_counts`. */
  method AntecedentCounts(rs: seq<Resolution>) returns (c: map<string, nat>)
    ensures forall low :: (if low in c then c[low] else 0) == CountLow(Antecedents(rs), low)
    ensures forall low :: (if low in c then c[low] else 0) == |set i | 0 <= i < |rs| && Lower(rs[i].antecedent) == low|
  {
    c := map[];
    assert Antecedents(rs[..0]) == [];
    for i := 0 to |rs|
      invariant forall low :: (if low in c then c[low] else 0) == CountLow(Antecedents(rs[..i]), low)
    {
      var low := Lower(rs[i].antecedent);
      ghost var before := Antecedents(rs[..i]);
      assert Antecedents(rs[..i + 1]) == before + [rs[i].antecedent];
      forall q ensures CountLow(before + [rs[i].antecedent], q) == CountLow(before, q) + if q == low then 1 else 0 {
        CountSplit(before, [rs[i].antecedent], q);
        CountFirst(rs[i].antecedent, [], q);
        assert [rs[i].antecedent] + [] == [rs[i].antecedent];
      }
      c := c[low := (if low in c then c[low] else 0) + 1];
    }
    assert rs[..|rs|] == rs;
    forall low ensures CountLow(Antecedents(rs), low) == |set i | 0 <= i < |rs| && Lower(rs[i].antecedent) == low| {
      CountIs(Antecedents(rs), low);
      assert (set i | 0 <= i < |rs| && Lower(rs[i].antecedent) == low) == Where(Antecedents(rs), low);
    }
  }

  /** Where a word stands, in whatever case. */
  function Where(words: seq<string>, low: string): set<int> { set i | 0 <= i < |words| && Lower(words[i]) == low }

  lemma {:induction false} CountIs(words: seq<string>, low: string)
    ensures CountLow(words, low) == |Where(words, low)|
  {
    if words != [] {
      var n := |words| - 1;
      CountIs(words[..n], low);
      assert words == words[..n] + [words[n]];
      CountSplit(words[..n], [words[n]], low);
      CountFirst(words[n], [], low);
      assert [words[n]] + [] == [words[n]];
      WhereMore(words, n, low);
    } else {
      assert Where(words, low) == {};
    }
  }

  lemma WhereMore(words: seq<string>, n: nat, low: string)
    requires |words| == n + 1
    ensures |Where(words, low)| == |Where(words[..n], low)| + if Lower(words[n]) == low then 1 else 0
  {
    assert Where(words, low) == Where(words[..n], low) + if Lower(words[n]) == low then {n} else {};
  }

  predicate IsMarked(rs: seq<Resolution>, tok: Tok) { exists r :: r in rs && r.offset == tok.start }

  /** Token by token: a marked one becomes its antecedent, any other stays; every mark is at its pronoun. */
  ghost predicate Swapped(toks: seq<Tok>, rs: seq<Resolution>, out: seq<string>) {
    && |out| == |toks|
    && (forall r | r in rs :: Tok(r.offset, r.pronoun) in toks)
    && (forall i | 0 <= i < |toks| && !IsMarked(rs, toks[i]) :: out[i] == toks[i].text)
    && (forall i, r | 0 <= i < |toks| && r in rs && r.offset == toks[i].start :: out[i] == r.antecedent)
  }

  lemma {:induction false} ReplacedIs(toks: seq<Tok>, rs: seq<Resolution>)
    requires Marks(rs, toks) && StartsRise(toks)
    ensures Swapped(toks, rs, Replaced(toks, rs))
    decreases |toks|
  {
    if toks != [] {
      var first, rest, later := MarksTail(toks, rs);
      RiseOn(toks);
      ReplacedIs(toks[1..], rest);
      assert toks == [toks[0]] + toks[1..];
      if rest == rs {
        SwappedFirst(toks[0], toks[1..], rs, later);
      } else {
        SwappedMark(toks[0], toks[1..], rs[0], rest, later);
      }
    }
  }

  lemma MarksTail(toks: seq<Tok>, rs: seq<Resolution>) returns (first: string, rest: seq<Resolution>, later: seq<string>)
    requires toks != [] && Marks(rs, toks)
    ensures Marks(rest, toks[1..]) && later == Replaced(toks[1..], rest) && Replaced(toks, rs) == [first] + later
    ensures if rest == rs then first == toks[0].text
            else rs != [] && rs == [rs[0]] + rest && rs[0].offset == toks[0].start && rs[0].pronoun == toks[0].text && first == rs[0].antecedent
  {
    var marked := rs != [] && rs[0].offset == toks[0].start;
    rest := if marked then rs[1..] else rs;
    first := if marked then rs[0].antecedent else toks[0].text;
    later := Replaced(toks[1..], rest);
    assert marked ==> |rest| < |rs|;
  }

  lemma RiseOn(toks: seq<Tok>)
    requires toks != [] && StartsRise(toks)
    ensures StartsRise(toks[1..]) && forall t | t in toks[1..] :: toks[0].start < t.start
  {
    forall i, j | 0 <= i < j < |toks[1..]| ensures toks[1..][i].start < toks[1..][j].start {
      assert toks[i + 1].start < toks[j + 1].start;
    }
    forall t | t in toks[1..] ensures toks[0].start < t.start {
      var i :| 0 <= i < |toks[1..]| && toks[1..][i] == t;
      assert toks[0].start < toks[i + 1].start;
    }
  }

  lemma SwappedFirst(tok: Tok, toks: seq<Tok>, rs: seq<Resolution>, out: seq<string>)
    requires Swapped(toks, rs, out) && forall t | t in toks :: tok.start < t.start
    ensures Swapped([tok] + toks, rs, [tok.text] + out)
  {
    forall r | r in rs ensures r.offset != tok.start {
      assert Tok(r.offset, r.pronoun) in toks;
    }
  }

  lemma SwappedMark(tok: Tok, toks: seq<Tok>, r: Resolution, rs: seq<Resolution>, out: seq<string>)
    requires Swapped(toks, rs, out) && forall t | t in toks :: tok.start < t.start
    requires r.offset == tok.start && r.pronoun == tok.text
    ensures Swapped([tok] + toks, [r] + rs, [r.antecedent] + out)
  {
    var all, ts, marks := [r.antecedent] + out, [tok] + toks, [r] + rs;
    forall q | q in marks ensures Tok(q.offset, q.pronoun) in ts {
      assert q in rs ==> Tok(q.offset, q.pronoun) in toks;
    }
    forall i | 0 <= i < |ts| && !IsMarked(marks, ts[i]) ensures all[i] == ts[i].text {
      MarkedMore(r, rs, ts[i]);
    }
    forall i, q | 0 <= i < |ts| && q in marks && q.offset == ts[i].start ensures all[i] == q.antecedent {
      SwappedAt(tok, toks, r, rs, out, i, q);
    }
  }

  lemma SwappedAt(tok: Tok, toks: seq<Tok>, r: Resolution, rs: seq<Resolution>, out: seq<string>, i: nat, q: Resolution)
    requires Swapped(toks, rs, out) && (forall t | t in toks :: tok.start < t.start) && r.offset == tok.start
    requires i <= |toks| && q in [r] + rs && q.offset == ([tok] + toks)[i].start
    ensures ([r.antecedent] + out)[i] == q.antecedent
  {
    if q in rs {
      assert Tok(q.offset, q.pronoun) in toks;
    }
    assert i > 0 ==> toks[i - 1] in toks;
  }

  lemma MarkedMore(r: Resolution, rs: seq<Resolution>, tok: Tok)
    ensures IsMarked([r] + rs, tok) <==> r.offset == tok.start || IsMarked(rs, tok)
  {
    assert forall q :: q in [r] + rs <==> q == r || q in rs;
  }

  /** Resolving a text and applying the result: the tokens, the counts and the vocabulary. */
  lemma ResolvedText(text: string, lists: Lists, window: int, minConfidence: real, low: string)
    ensures (var rs := Resolutions(text, lists, window, minConfidence);
             var out := Applied(text, rs);
             && out == Rebuilt(text, 0, rs)
             && Texts(Tokens(out, 0)) == Replaced(Tokens(text, 0), rs)
             && CountLow(Texts(Tokens(out, 0)), low)
                == CountLow(Texts(Tokens(text, 0)), low) + CountLow(Antecedents(rs), low) - CountLow(Pronouns(rs), low)
             && forall w | w in Texts(Tokens(out, 0)) :: w in Texts(Tokens(text, 0)))
  {
    var rs := Resolutions(text, lists, window, minConfidence);
    ResolutionsMarkTokens(text, lists, window, minConfidence);
    ApplyIsSimultaneous(text, rs);
    Retokenized(text, 0, rs);
    CountsMove(Tokens(text, 0), rs, low);
    ReplacedFrom(Tokens(text, 0), rs);
    forall w | w in Antecedents(rs) ensures w in Texts(Tokens(text, 0)) {
      var i :| 0 <= i < |rs| && Antecedents(rs)[i] == w;
      assert rs[i] in rs;
    }
  }
}
