/** ASCII text for pronoun resolution: tokens, sentences, and their offsets. */
module CorefText {
  import opened Ascii

  predicate IsTokenChar(c: char) { IsLetter(c) || '0' <= c <= '9' || c == '_' || c == '\'' || c == '-' }

  predicate IsStop(c: char) { c == '.' || c == '!' || c == '?' }

  // ----- tokens ------------------------------------------------------------------------

  /** A match of the token pattern and where it starts. */
  datatype Tok = Tok(start: nat, text: string)

  /** How many characters from the front are token characters. */
  function Run(s: string): (n: nat)
    ensures n <= |s|
  {
    if s == "" || !IsTokenChar(s[0]) then 0 else 1 + Run(s[1..])
  }

  /** `finditer` of a letter followed by token characters; `s` stands at offset `base`. */
  function Tokens(s: string, base: nat): seq<Tok>
    decreases |s|
  {
    if s == "" then []
    else if IsLetter(s[0]) then
      var n := Run(s);
      assert n >= 1;
      [Tok(base, s[..n])] + Tokens(s[n..], base + n)
    else Tokens(s[1..], base + 1)
  }

  function Texts(toks: seq<Tok>): (t: seq<string>)
    ensures |t| == |toks| && forall i | 0 <= i < |toks| :: t[i] == toks[i].text
  {
    seq(|toks|, i requires 0 <= i < |toks| => toks[i].text)
  }

  predicate IsWord(w: string) {
    w != "" && IsLetter(w[0]) && forall i | 0 <= i < |w| :: IsTokenChar(w[i])
  }

  /** Nothing a token could run on into. */
  predicate Clean(s: string) { s == "" || !IsTokenChar(s[0]) }

  lemma {:induction false} RunIs(s: string)
    ensures forall i | 0 <= i < Run(s) :: IsTokenChar(s[i])
    ensures Clean(s[Run(s)..])
  {
    if s != "" && IsTokenChar(s[0]) {
      RunIs(s[1..]);
      forall i | 0 <= i < Run(s) ensures IsTokenChar(s[i]) {
        assert i > 0 ==> s[i] == s[1..][i - 1];
      }
      assert s[Run(s)..] == s[1..][Run(s[1..])..];
    }
  }

  lemma {:induction false} RunOfWord(w: string, rest: string)
    requires (forall i | 0 <= i < |w| :: IsTokenChar(w[i])) && Clean(rest)
    ensures Run(w + rest) == |w|
  {
    if w == "" {
      assert w + rest == rest;
    } else {
      assert (w + rest)[1..] == w[1..] + rest;
      RunOfWord(w[1..], rest);
    }
  }

  /** A token stands by itself before anything it cannot run on into. */
  lemma TokensOfWord(w: string, rest: string, base: nat)
    requires IsWord(w) && Clean(rest)
    ensures Tokens(w + rest, base) == [Tok(base, w)] + Tokens(rest, base + |w|)
  {
    RunOfWord(w, rest);
    assert (w + rest)[..|w|] == w && (w + rest)[|w|..] == rest && (w + rest)[0] == w[0];
  }

  ghost predicate InOrder(toks: seq<Tok>, lo: nat, hi: nat) {
    && (forall i | 0 <= i < |toks| :: lo <= toks[i].start && toks[i].start + |toks[i].text| <= hi && IsWord(toks[i].text))
    && (forall i, j | 0 <= i < j < |toks| :: toks[i].start + |toks[i].text| <= toks[j].start)
  }

  lemma {:induction false} TokensInOrder(s: string, base: nat)
    ensures InOrder(Tokens(s, base), base, base + |s|)
    decreases |s|
  {
    if s != "" {
      if IsLetter(s[0]) {
        RunIs(s);
        TokensInOrder(s[Run(s)..], base + Run(s));
      } else {
        TokensInOrder(s[1..], base + 1);
      }
    }
  }

  lemma SliceOfSum(a: string, b: string, n: nat)
    requires n <= |a|
    ensures (a + b)[n..] == a[n..] + b && (a + b)[..n] == a[..n]
  {
  }

  lemma Joined<T>(x: T, y: seq<T>, z: seq<T>)
    ensures [x] + (y + z) == ([x] + y) + z
  {
  }

  lemma SplitAtWord(a: string, b: string, base: nat)
    requires Clean(b) && a != "" && IsLetter(a[0])
    requires Tokens(a[Run(a)..] + b, base + Run(a)) == Tokens(a[Run(a)..], base + Run(a)) + Tokens(b, base + |a|)
    ensures Tokens(a + b, base) == Tokens(a, base) + Tokens(b, base + |a|)
  {
    RunBefore(a, b);
    SliceOfSum(a, b, Run(a));
    Joined(Tok(base, a[..Run(a)]), Tokens(a[Run(a)..], base + Run(a)), Tokens(b, base + |a|));
  }

  /** Two texts tokenize apart when no token runs from one into the other. */
  lemma {:induction false} TokensSplit(a: string, b: string, base: nat)
    requires Clean(b)
    ensures Tokens(a + b, base) == Tokens(a, base) + Tokens(b, base + |a|)
    decreases |a|
  {
    if a == "" {
      assert a + b == b;
    } else if IsLetter(a[0]) {
      TokensSplit(a[Run(a)..], b, base + Run(a));
      SplitAtWord(a, b, base);
    } else {
      SliceOfSum(a, b, 1);
      TokensSplit(a[1..], b, base + 1);
    }
  }

  lemma {:induction false} RunBefore(a: string, b: string)
    requires Clean(b)
    ensures Run(a + b) == Run(a)
  {
    if a == "" {
      assert a + b == b;
    } else {
      assert (a + b)[1..] == a[1..] + b;
      if IsTokenChar(a[0]) {
        RunBefore(a[1..], b);
      }
    }
  }

  // ----- sentences ---------------------------------------------------------------------

  /** How many characters from the front are white space, or newlines only. */
  function Blanks(s: string, newlines: bool): (n: nat)
    ensures n <= |s|
  {
    if s == "" || !(if newlines then s[0] == '\n' else IsSpace(s[0])) then 0 else 1 + Blanks(s[1..], newlines)
  }

  /** The separator at `i`: white space after a stop, or a run of two or more newlines. */
  function Separator(text: string, i: nat): (n: nat)
    requires i <= |text|
    ensures n <= |text| - i
  {
    if i > 0 && IsStop(text[i - 1]) && Blanks(text[i..], false) > 0 then Blanks(text[i..], false)
    else if Blanks(text[i..], true) >= 2 then Blanks(text[i..], true)
    else 0
  }

  /** `re.split`: the chunks from `start` on, with `i` characters looked at. */
  function Chunks(text: string, start: nat, i: nat): (c: seq<(nat, string)>)
    requires start <= i <= |text|
    ensures c != []
    decreases |text| - i
  {
    if i == |text| then [(start, text[start..])]
    else
      var n := Separator(text, i);
      if n > 0 then [(start, text[start..i])] + Chunks(text, i + n, i + n)
      else Chunks(text, start, i + 1)
  }

  function NonEmpty(chunks: seq<(nat, string)>): seq<(nat, string)> {
    if chunks == [] then [] else (if chunks[0].1 == "" then [] else [chunks[0]]) + NonEmpty(chunks[1..])
  }

  /** The sentences with the offsets they really have. */
  function Sentences(text: string): seq<(nat, string)> { NonEmpty(Chunks(text, 0, 0)) }

  function SentenceTokens(sents: seq<(nat, string)>): seq<Tok> {
    if sents == [] then [] else Tokens(sents[0].1, sents[0].0) + SentenceTokens(sents[1..])
  }

  lemma {:induction false} BlanksAre(s: string, newlines: bool)
    ensures forall k | 0 <= k < Blanks(s, newlines) :: IsSpace(s[k]) && (newlines ==> s[k] == '\n')
    ensures Blanks(s, newlines) < |s| ==>
      if newlines then s[Blanks(s, newlines)] != '\n' else !IsSpace(s[Blanks(s, newlines)])
  {
    if s != "" && (if newlines then s[0] == '\n' else IsSpace(s[0])) {
      BlanksAre(s[1..], newlines);
      forall k | 0 <= k < Blanks(s, newlines) ensures IsSpace(s[k]) && (newlines ==> s[k] == '\n') {
        assert k > 0 ==> s[k] == s[1..][k - 1];
      }
    }
  }

  /** A separator is white space, and what follows it cannot begin inside it. */
  lemma SeparatorIs(text: string, i: nat)
    requires i <= |text|
    ensures forall k | i <= k < i + Separator(text, i) :: IsSpace(text[k])
    ensures Separator(text, i) > 0 && i + Separator(text, i) < |text|
            ==> forall k | i <= k < i + Separator(text, i) :: text[k] != text[i + Separator(text, i)]
  {
    var n := Separator(text, i);
    var newlines := !(i > 0 && IsStop(text[i - 1]) && Blanks(text[i..], false) > 0);
    BlanksAre(text[i..], newlines);
    if n > 0 {
      forall k | i <= k < i + n ensures IsSpace(text[k]) && (newlines ==> text[k] == '\n') {
        assert text[k] == text[i..][k - i];
      }
      assert i + n < |text| ==> text[i + n] == text[i..][n];
    }
  }

  lemma {:induction false} NonEmptyTokens(chunks: seq<(nat, string)>)
    ensures SentenceTokens(NonEmpty(chunks)) == SentenceTokens(chunks)
  {
    if chunks != [] {
      NonEmptyTokens(chunks[1..]);
      var rest := NonEmpty(chunks[1..]);
      assert ([chunks[0]] + rest)[1..] == rest && [] + rest == rest;
    }
  }

  lemma FirstAndRest(c: (nat, string), rest: seq<(nat, string)>)
    ensures SentenceTokens([c] + rest) == Tokens(c.1, c.0) + SentenceTokens(rest)
  {
    assert ([c] + rest)[1..] == rest;
  }

  /** Cutting a text into chunks loses no token and moves none. */
  lemma {:induction false} ChunkTokens(text: string, start: nat, i: nat)
    requires start <= i <= |text|
    ensures SentenceTokens(Chunks(text, start, i)) == Tokens(text[start..], start)
    decreases |text| - i
  {
    if i == |text| {
      FirstAndRest((start, text[start..]), []);
      assert [(start, text[start..])] + [] == [(start, text[start..])];
    } else {
      var n := Separator(text, i);
      if n == 0 {
        ChunkTokens(text, start, i + 1);
      } else {
        ChunkTokens(text, i + n, i + n);
        ChunksCut(text, start, i, n);
        CutTokens(text, start, i, n, Chunks(text, i + n, i + n));
      }
    }
  }

  lemma ChunksCut(text: string, start: nat, i: nat, n: nat)
    requires start <= i < |text| && n == Separator(text, i) && n > 0
    ensures Chunks(text, start, i) == [(start, text[start..i])] + Chunks(text, i + n, i + n)
  {
  }

  lemma CutTokens(text: string, start: nat, i: nat, n: nat, rest: seq<(nat, string)>)
    requires start <= i < |text| && n == Separator(text, i) && n > 0
    requires SentenceTokens(rest) == Tokens(text[i + n..], i + n)
    ensures SentenceTokens([(start, text[start..i])] + rest) == Tokens(text[start..], start)
  {
    SeparatorIs(text, i);
    FirstAndRest((start, text[start..i]), rest);
    TokensAcross(text, start, i, n);
  }

  lemma TokensAcross(text: string, start: nat, i: nat, n: nat)
    requires start <= i && 0 < n && i + n <= |text| && forall k | i <= k < i + n :: IsSpace(text[k])
    ensures Tokens(text[start..], start) == Tokens(text[start..i], start) + Tokens(text[i + n..], i + n)
  {
    var sep, tail := text[i..i + n], text[i + n..];
    assert text[start..] == text[start..i] + (sep + tail);
    assert (sep + tail)[0] == text[i];
    TokensSplit(text[start..i], sep + tail, start);
    SpaceBefore(sep, tail, i);
  }

  lemma {:induction false} SpaceBefore(sep: string, s: string, base: nat)
    requires forall k | 0 <= k < |sep| :: IsSpace(sep[k])
    ensures Tokens(sep + s, base) == Tokens(s, base + |sep|)
    decreases |sep|
  {
    if sep == "" {
      assert sep + s == s;
    } else {
      assert (sep + s)[1..] == sep[1..] + s;
      SpaceBefore(sep[1..], s, base + 1);
    }
  }

  /** The tokens of the sentences are the tokens of the text, at the text's offsets. */
  lemma SentencesKeepTokens(text: string)
    ensures SentenceTokens(Sentences(text)) == Tokens(text, 0)
  {
    ChunkTokens(text, 0, 0);
    NonEmptyTokens(Chunks(text, 0, 0));
    assert text[0..] == text;
  }

  // ----- finding the chunks again ------------------------------------------------------

  predicate OccursAt(text: string, chunk: string, k: nat) {
    k + |chunk| <= |text| && text[k..k + |chunk|] == chunk
  }

  /** `text.find(chunk, pos)`: the first place at or after `pos`, if any. */
  method Find(text: string, chunk: string, pos: nat) returns (at: int)
    ensures at >= 0 ==> pos <= at && OccursAt(text, chunk, at) && forall k | pos <= k < at :: !OccursAt(text, chunk, k)
    ensures at < 0 ==> at == -1 && forall k: nat | pos <= k :: !OccursAt(text, chunk, k)
  {
    at := pos;
    while at + |chunk| <= |text|
      invariant pos <= at && forall k | pos <= k < at :: !OccursAt(text, chunk, k)
    {
      if text[at..at + |chunk|] == chunk {
        return;
      }
      at := at + 1;
    }
    at := -1;
  }

  /** Chunks as `re.split` gives them: each where it stands, separators between. */
  ghost predicate Laid(text: string, chunks: seq<(nat, string)>, pos: nat) {
    chunks == []
    || (&& pos <= chunks[0].0 && chunks[0].0 + |chunks[0].1| <= |text|
        && text[chunks[0].0..chunks[0].0 + |chunks[0].1|] == chunks[0].1
        && (chunks[0].1 != "" ==> forall k | pos <= k < chunks[0].0 :: text[k] != chunks[0].1[0])
        && Laid(text, chunks[1..], if chunks[0].1 == "" then pos else chunks[0].0 + |chunks[0].1|))
  }

  /** Nothing from `pos` to `start` can begin the chunk that starts there. */
  ghost predicate Apart(text: string, pos: nat, start: nat) {
    start < |text| ==> forall k | pos <= k < start :: text[k] != text[start]
  }

  /** Two separators never touch. */
  lemma NoTwoSeparators(text: string, i: nat)
    requires i <= |text| && Separator(text, i) > 0
    ensures Separator(text, i + Separator(text, i)) == 0
  {
    var n := Separator(text, i);
    var newlines := !(i > 0 && IsStop(text[i - 1]) && Blanks(text[i..], false) > 0);
    SeparatorIs(text, i);
    BlanksAre(text[i..], newlines);
    assert IsSpace(text[i + n - 1]);
    assert i + n < |text| ==> text[i + n] == text[i..][n];
  }

  lemma {:induction false} ChunksAreLaid(text: string, start: nat, i: nat, pos: nat)
    requires pos <= start <= i <= |text| && Apart(text, pos, start)
    requires start == i && pos < start ==> Separator(text, i) == 0
    ensures Laid(text, Chunks(text, start, i), pos)
    decreases |text| - i
  {
    if i == |text| {
      assert Chunks(text, start, i)[1..] == [];
    } else {
      var n := Separator(text, i);
      if n == 0 {
        ChunksAreLaid(text, start, i + 1, pos);
      } else {
        SeparatorIs(text, i);
        NoTwoSeparators(text, i);
        ChunksAreLaid(text, i + n, i + n, i);
        var rest := Chunks(text, i + n, i + n);
        assert ([(start, text[start..i])] + rest)[1..] == rest;
      }
    }
  }

  /** The list `re.split` returns. */
  function ChunkTexts(chunks: seq<(nat, string)>): (t: seq<string>)
    ensures |t| == |chunks| && forall i | 0 <= i < |chunks| :: t[i] == chunks[i].1
  {
    seq(|chunks|, i requires 0 <= i < |chunks| => chunks[i].1)
  }

  /** One chunk is placed and the rest are laid out after it. */
  lemma LaidStep(text: string, chunks: seq<(nat, string)>, i: nat, pos: nat)
    requires i < |chunks| && Laid(text, chunks[i..], pos)
    ensures chunks[i].1 == "" ==> Laid(text, chunks[i + 1..], pos)
    ensures chunks[i].1 != "" ==>
      && pos <= chunks[i].0 && OccursAt(text, chunks[i].1, chunks[i].0)
      && (forall k | pos <= k < chunks[i].0 :: text[k] != chunks[i].1[0])
      && Laid(text, chunks[i + 1..], chunks[i].0 + |chunks[i].1|)
  {
    assert chunks[i..][0] == chunks[i] && chunks[i..][1..] == chunks[i + 1..];
  }

  lemma NonEmptyStep(chunks: seq<(nat, string)>, i: nat, out: seq<(nat, string)>)
    requires i < |chunks|
    ensures chunks[i].1 == "" ==> NonEmpty(chunks[i..]) == NonEmpty(chunks[i + 1..])
    ensures chunks[i].1 != "" ==> out + NonEmpty(chunks[i..]) == out + [chunks[i]] + NonEmpty(chunks[i + 1..])
  {
    assert chunks[i..][0] == chunks[i] && chunks[i..][1..] == chunks[i + 1..];
    assert [] + NonEmpty(chunks[i + 1..]) == NonEmpty(chunks[i + 1..]);
  }

  /** The sentences found so far, with those of the chunks from `i` on, are all sentences. */
  ghost predicate FoundSoFar(text: string, chunks: seq<(nat, string)>, i: nat, pos: nat, out: seq<(nat, string)>) {
    i <= |chunks| && Laid(text, chunks[i..], pos) && out + NonEmpty(chunks[i..]) == NonEmpty(chunks)
  }

  lemma FoundFirst(text: string)
    ensures FoundSoFar(text, Chunks(text, 0, 0), 0, 0, [])
  {
    var chunks := Chunks(text, 0, 0);
    ChunksAreLaid(text, 0, 0, 0);
    assert chunks[0..] == chunks && [] + NonEmpty(chunks) == NonEmpty(chunks);
  }

  lemma FoundNext(text: string, chunks: seq<(nat, string)>, i: nat, pos: nat, out: seq<(nat, string)>)
    requires i < |chunks| && FoundSoFar(text, chunks, i, pos, out)
    ensures chunks[i].1 == "" ==> FoundSoFar(text, chunks, i + 1, pos, out)
    ensures chunks[i].1 != "" ==> FoundSoFar(text, chunks, i + 1, chunks[i].0 + |chunks[i].1|, out + [chunks[i]])
  {
    LaidStep(text, chunks, i, pos);
    NonEmptyStep(chunks, i, out);
  }

  lemma FoundLast(text: string, chunks: seq<(nat, string)>, pos: nat, out: seq<(nat, string)>)
    requires FoundSoFar(text, chunks, |chunks|, pos, out)
    ensures out == NonEmpty(chunks)
  {
    assert chunks[|chunks|..] == [] && out + [] == out;
  }

  /** Searching for each chunk after the last one finds every sentence where it really stands. */
  method FindSentences(text: string, pieces: seq<string>) returns (out: seq<(nat, string)>)
    requires pieces == ChunkTexts(Chunks(text, 0, 0))
    ensures out == Sentences(text)
  {
    ghost var chunks := Chunks(text, 0, 0);
    FoundFirst(text);
    out := [];
    var pos: nat, i: nat := 0, 0;
    while i < |pieces|
      invariant i <= |pieces| && FoundSoFar(text, chunks, i, pos, out)
    {
      FoundNext(text, chunks, i, pos, out);
      if pieces[i] != "" {
        LaidStep(text, chunks, i, pos);
        var start := Find(text, pieces[i], pos);
        FoundWhereItStands(text, chunks[i].0, pieces[i], pos, start);
        out := out + [(start, pieces[i])];
        pos := start + |pieces[i]|;
      }
      i := i + 1;
    }
    FoundLast(text, chunks, pos, out);
  }

  lemma FoundWhereItStands(text: string, start: nat, chunk: string, pos: nat, found: int)
    requires chunk != "" && pos <= start && OccursAt(text, chunk, start)
    requires forall k | pos <= k < start :: text[k] != chunk[0]
    requires found >= 0 ==> pos <= found && OccursAt(text, chunk, found)
                            && forall k | pos <= k < found :: !OccursAt(text, chunk, k)
    requires found < 0 ==> forall k: nat | pos <= k :: !OccursAt(text, chunk, k)
    ensures found == start
  {
    assert found >= 0 ==> text[found] == text[found..found + |chunk|][0];
  }
}
