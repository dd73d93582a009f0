/** Tokens and sentences, character by character. */
module CorefTextLaws {
  import opened Ascii
  import opened Filtering
  import opened CorefText

  // ----- tokens ------------------------------------------------------------------------

  predicate IsWordChar(c: char) {
    'a' <= c <= 'z' || 'A' <= c <= 'Z' || '0' <= c <= '9' || c == '_' || c == '\'' || c == '-'
  }

  /** A token stands in the text where it says, begins with a letter and runs on as far as it can. */
  predicate TokenStands(s: string, base: nat, t: Tok) {
    && base <= t.start && t.text != "" && t.start - base + |t.text| <= |s|
    && (forall k | 0 <= k < |t.text| :: t.text[k] == s[t.start - base + k] && IsWordChar(t.text[k]))
    && ('a' <= t.text[0] <= 'z' || 'A' <= t.text[0] <= 'Z')
    && (t.start - base + |t.text| < |s| ==> !IsWordChar(s[t.start - base + |t.text|]))
  }

  predicate Within(base: nat, toks: seq<Tok>, p: nat) {
    exists i | 0 <= i < |toks| :: toks[i].start <= base + p < toks[i].start + |toks[i].text|
  }

  predicate InLine(s: string, base: nat, toks: seq<Tok>) {
    && (forall i | 0 <= i < |toks| :: TokenStands(s, base, toks[i]))
    && (forall i, j | 0 <= i < j < |toks| :: toks[i].start + |toks[i].text| <= toks[j].start)
  }

  /** The tokens of a text, one after the other; every letter is in one. */
  predicate TokensStand(s: string, base: nat, toks: seq<Tok>) {
    && InLine(s, base, toks)
    && (forall p: nat | p < |s| && ('a' <= s[p] <= 'z' || 'A' <= s[p] <= 'Z') :: Within(base, toks, p))
  }

  lemma {:induction false} TokensAre(s: string, base: nat, toks: seq<Tok>)
    requires toks == Tokens(s, base)
    ensures TokensStand(s, base, toks)
    decreases |s|
  {
    if s != "" {
      var n, rest := FirstStep(s, base, toks);
      TokensAre(s[n..], base + n, rest);
      TokensMore(s, base, n, toks, rest);
    }
  }

  lemma FirstStep(s: string, base: nat, toks: seq<Tok>) returns (n: nat, rest: seq<Tok>)
    requires s != "" && toks == Tokens(s, base)
    ensures n == (if IsLetter(s[0]) then Run(s) else 1) && 1 <= n <= |s| && rest == Tokens(s[n..], base + n)
    ensures toks == if IsLetter(s[0]) then [Tok(base, s[..n])] + rest else rest
  {
    n := if IsLetter(s[0]) then Run(s) else 1;
    rest := Tokens(s[n..], base + n);
  }

  lemma TokensMore(s: string, base: nat, n: nat, toks: seq<Tok>, rest: seq<Tok>)
    requires s != "" && n == (if IsLetter(s[0]) then Run(s) else 1) && 1 <= n <= |s| && TokensStand(s[n..], base + n, rest)
    requires toks == if IsLetter(s[0]) then [Tok(base, s[..n])] + rest else rest
    ensures TokensStand(s, base, toks)
  {
    TokensInLine(s, base, n, toks, rest);
    forall p: nat | p < |s| && ('a' <= s[p] <= 'z' || 'A' <= s[p] <= 'Z') ensures Within(base, toks, p) {
      LetterWithin(s, base, n, toks, rest, p);
    }
  }

  lemma LetterWithin(s: string, base: nat, n: nat, toks: seq<Tok>, rest: seq<Tok>, p: nat)
    requires p < |s| && IsLetter(s[p]) && n == (if IsLetter(s[0]) then Run(s) else 1) && n <= |s|
    requires TokensStand(s[n..], base + n, rest)
    requires toks == if IsLetter(s[0]) then [Tok(base, s[..n])] + rest else rest
    ensures Within(base, toks, p)
  {
    if p >= n {
      LetterLater(s, base, n, rest, p);
      WithinRest(base, n, toks, rest, p);
    } else {
      assert p == 0 || IsLetter(s[0]);
      FirstWithin(s, base, n, toks, p);
    }
  }

  lemma FirstWithin(s: string, base: nat, n: nat, toks: seq<Tok>, p: nat)
    requires p < n <= |s| && toks != [] && toks[0] == Tok(base, s[..n])
    ensures Within(base, toks, p)
  {
  }

  lemma LetterLater(s: string, base: nat, n: nat, rest: seq<Tok>, p: nat)
    requires n <= p < |s| && IsLetter(s[p]) && TokensStand(s[n..], base + n, rest)
    ensures Within(base + n, rest, p - n)
  {
    assert s[n..][p - n] == s[p];
  }

  lemma TokensInLine(s: string, base: nat, n: nat, toks: seq<Tok>, rest: seq<Tok>)
    requires s != "" && n == (if IsLetter(s[0]) then Run(s) else 1) && 1 <= n <= |s| && InLine(s[n..], base + n, rest)
    requires toks == if IsLetter(s[0]) then [Tok(base, s[..n])] + rest else rest
    ensures InLine(s, base, toks)
  {
    forall i | 0 <= i < |rest| ensures TokenStands(s, base, rest[i]) && base + n <= rest[i].start {
      Shifted(s, base, n, rest[i]);
    }
    if IsLetter(s[0]) {
      FirstToken(s, base, n, rest);
      OneInLine(s, base, Tok(base, s[..n]), rest);
    }
  }

  lemma OneInLine(s: string, base: nat, t: Tok, rest: seq<Tok>)
    requires TokenStands(s, base, t) && InLine(s, base, rest)
    requires forall i | 0 <= i < |rest| :: t.start + |t.text| <= rest[i].start
    ensures InLine(s, base, [t] + rest)
  {
  }

  lemma Shifted(s: string, base: nat, n: nat, t: Tok)
    requires n <= |s| && TokenStands(s[n..], base + n, t)
    ensures TokenStands(s, base, t) && base + n <= t.start
  {
    forall k | 0 <= k < |t.text| ensures t.text[k] == s[t.start - base + k] {
      assert s[n..][t.start - base - n + k] == s[t.start - base + k];
    }
  }

  lemma FirstToken(s: string, base: nat, n: nat, rest: seq<Tok>)
    requires s != "" && IsLetter(s[0]) && n == Run(s) && InLine(s[n..], base + n, rest)
    ensures TokenStands(s, base, Tok(base, s[..n]))
    ensures forall j | 0 <= j < |rest| :: base + n <= rest[j].start
  {
    RunIs(s);
    assert n < |s| ==> s[n..][0] == s[n];
    forall j | 0 <= j < |rest| ensures base + n <= rest[j].start {
      assert TokenStands(s[n..], base + n, rest[j]);
    }
  }

  lemma WithinRest(base: nat, n: nat, toks: seq<Tok>, rest: seq<Tok>, p: nat)
    requires n <= p && Within(base + n, rest, p - n) && |rest| <= |toks| && toks[|toks| - |rest|..] == rest
    ensures Within(base, toks, p)
  {
    var i :| 0 <= i < |rest| && rest[i].start <= base + p < rest[i].start + |rest[i].text|;
    assert toks[|toks| - |rest| + i] == rest[i];
  }

  // ----- sentences ---------------------------------------------------------------------

  predicate Ends(text: string, a: nat) { 0 < a < |text| && text[a - 1] in ".!?" && IsSpace(text[a]) }

  /** Between two sentences: all the white space behind an end mark, else a run of newlines, two at least. */
  predicate Gap(text: string, a: nat, b: nat) {
    && a < b <= |text|
    && if Ends(text, a)
       then (forall k | a <= k < b :: IsSpace(text[k])) && (b < |text| ==> !IsSpace(text[b]))
       else a + 2 <= b && (forall k | a <= k < b :: text[k] == '\n') && (b < |text| ==> text[b] != '\n')
  }

  ghost predicate NoGap(text: string, a: nat) { forall b: nat :: !Gap(text, a, b) }

  /** A chunk stands in the text where it says, and no gap begins inside it. */
  ghost predicate ChunkStands(text: string, c: (nat, string)) {
    && c.0 + |c.1| <= |text| && text[c.0..c.0 + |c.1|] == c.1
    && forall i | c.0 <= i < c.0 + |c.1| :: NoGap(text, i)
  }

  /** Chunks from `start` to the end of the text, with a gap between each two. */
  ghost predicate Cut(text: string, start: nat, chunks: seq<(nat, string)>) {
    && chunks != [] && chunks[0].0 == start
    && (forall c | c in chunks :: ChunkStands(text, c))
    && (forall k | 0 <= k < |chunks| - 1 :: Gap(text, chunks[k].0 + |chunks[k].1|, chunks[k + 1].0))
    && chunks[|chunks| - 1].0 + |chunks[|chunks| - 1].1| == |text|
  }

  lemma SeparatorIsGap(text: string, i: nat, b: nat)
    requires i <= |text|
    ensures Gap(text, i, b) <==> i < b && Separator(text, i) == b - i
  {
    BlanksAre(text[i..], true);
    BlanksAre(text[i..], false);
    var newlines := !(i > 0 && IsStop(text[i - 1]) && Blanks(text[i..], false) > 0);
    assert forall k | 0 <= k < |text| - i :: text[i..][k] == text[i + k];
    assert Ends(text, i) <==> !newlines;
    var n := Blanks(text[i..], newlines);
    assert i + n <= |text|;
  }

  lemma {:induction false} ChunksAreCut(text: string, start: nat, i: nat)
    requires start <= i <= |text| && forall j | start <= j < i :: NoGap(text, j)
    ensures Cut(text, start, Chunks(text, start, i))
    decreases |text| - i
  {
    if i < |text| {
      var n := Separator(text, i);
      SeparatorIsGap(text, i, i + n);
      if n > 0 {
        ChunksAreCut(text, i + n, i + n);
        CutMore(text, start, i, n, Chunks(text, i + n, i + n));
      } else {
        forall b: nat ensures !Gap(text, i, b) {
          SeparatorIsGap(text, i, b);
        }
        ChunksAreCut(text, start, i + 1);
      }
    }
  }

  lemma CutMore(text: string, start: nat, i: nat, n: nat, rest: seq<(nat, string)>)
    requires start <= i < i + n <= |text| && Gap(text, i, i + n) && Cut(text, i + n, rest)
    requires forall j | start <= j < i :: NoGap(text, j)
    ensures Cut(text, start, [(start, text[start..i])] + rest)
  {
    var all := [(start, text[start..i])] + rest;
    forall k | 0 <= k < |all| - 1 ensures Gap(text, all[k].0 + |all[k].1|, all[k + 1].0) {
      if k > 0 {
        assert Gap(text, rest[k - 1].0 + |rest[k - 1].1|, rest[k].0);
      }
    }
  }

  lemma {:induction false} NonEmptyAt(chunks: seq<(nat, string)>) returns (at: seq<nat>)
    ensures StandsAt(NonEmpty(chunks), chunks, at)
    ensures forall i: nat :: i in at <==> i < |chunks| && chunks[i].1 != ""
  {
    if chunks == [] {
      at := [];
    } else {
      var rest := NonEmptyAt(chunks[1..]);
      assert chunks == [chunks[0]] + chunks[1..];
      at := FrontStands(NonEmpty(chunks[1..]), chunks[1..], rest, chunks[0], chunks[0].1 != "");
    }
  }

  /** The sentences are the chunks between the gaps that are not empty, in order. */
  lemma SentencesAre(text: string) returns (chunks: seq<(nat, string)>, at: seq<nat>)
    ensures Cut(text, 0, chunks) && StandsAt(Sentences(text), chunks, at)
    ensures forall i: nat :: i in at <==> i < |chunks| && chunks[i].1 != ""
  {
    chunks := Chunks(text, 0, 0);
    ChunksAreCut(text, 0, 0);
    at := NonEmptyAt(chunks);
  }
}
