/** Splitting identifiers into parts, and the forms that split alike. */
module Identifier {
  import opened Ascii

  predicate IsAlnum(c: char) { IsLetter(c) || IsDigit(c) }

  predicate IsSep(c: char) { IsSpace(c) || c == '_' || c == '-' }

  /** How many characters from the front are upper case, lower case or digits. */
  function Ups(s: string): (n: nat) ensures n <= |s| { if s == "" || !IsUpper(s[0]) then 0 else 1 + Ups(s[1..]) }

  function Lows(s: string): (n: nat) ensures n <= |s| { if s == "" || !IsLower(s[0]) then 0 else 1 + Lows(s[1..]) }

  function Digits(s: string): (n: nat) ensures n <= |s| { if s == "" || !IsDigit(s[0]) then 0 else 1 + Digits(s[1..]) }

  /** The length of the part that starts here, 0 when none does: an acronym before a word, a word,
    * an acronym, or digits; the first that matches. */
  function PartLen(s: string): (n: nat)
    ensures n <= |s|
  {
    var u := Ups(s);
    if u >= 2 && u < |s| && IsLower(s[u]) then u - 1
    else if u == 1 && Lows(s[1..]) > 0 then 1 + Lows(s[1..])
    else if u == 0 && Lows(s) > 0 then Lows(s)
    else if u > 0 then u
    else Digits(s)
  }

  /** The parts of a string, in order, lower case. */
  function Parts(s: string): seq<string>
    decreases |s|
  {
    if s == "" then []
    else
      var n := PartLen(s);
      if n == 0 then Parts(s[1..]) else [Lower(s[..n])] + Parts(s[n..])
  }

  // ----- nothing is lost ---------------------------------------------------------------

  function Concat(parts: seq<string>): string { if parts == [] then "" else parts[0] + Concat(parts[1..]) }

  /** The letters and digits of `s`, lower case. */
  function Kept(s: string): string {
    if s == "" then "" else (if IsAlnum(s[0]) then [LowerChar(s[0])] else "") + Kept(s[1..])
  }

  lemma {:induction false} UpsAre(s: string)
    ensures forall i | 0 <= i < Ups(s) :: IsUpper(s[i])
    ensures Ups(s) < |s| ==> !IsUpper(s[Ups(s)])
  {
    if s != "" && IsUpper(s[0]) {
      UpsAre(s[1..]);
      forall i | 0 <= i < Ups(s) ensures IsUpper(s[i]) {
        assert i > 0 ==> s[i] == s[1..][i - 1];
      }
    }
  }

  lemma {:induction false} LowsAre(s: string)
    ensures forall i | 0 <= i < Lows(s) :: IsLower(s[i])
    ensures Lows(s) < |s| ==> !IsLower(s[Lows(s)])
  {
    if s != "" && IsLower(s[0]) {
      LowsAre(s[1..]);
      forall i | 0 <= i < Lows(s) ensures IsLower(s[i]) {
        assert i > 0 ==> s[i] == s[1..][i - 1];
      }
    }
  }

  lemma {:induction false} DigitsAre(s: string)
    ensures forall i | 0 <= i < Digits(s) :: IsDigit(s[i])
    ensures Digits(s) < |s| ==> !IsDigit(s[Digits(s)])
  {
    if s != "" && IsDigit(s[0]) {
      DigitsAre(s[1..]);
      forall i | 0 <= i < Digits(s) ensures IsDigit(s[i]) {
        assert i > 0 ==> s[i] == s[1..][i - 1];
      }
    }
  }

  /** A part is lower-case letters only, or digits only. */
  predicate IsPart(p: string) {
    p != "" && ((forall i | 0 <= i < |p| :: IsLower(p[i])) || (forall i | 0 <= i < |p| :: IsDigit(p[i])))
  }

  lemma PartIs(s: string)
    requires s != ""
    ensures PartLen(s) == 0 <==> !IsAlnum(s[0])
    ensures forall i | 0 <= i < PartLen(s) :: IsAlnum(s[i])
    ensures PartLen(s) > 0 ==> IsPart(Lower(s[..PartLen(s)]))
  {
    var n := PartLen(s);
    UpsAre(s);
    LowsAre(s);
    LowsAre(s[1..]);
    DigitsAre(s);
    forall i | 0 <= i < n ensures IsAlnum(s[i]) && (IsDigit(s[0]) ==> IsDigit(s[i])) && (IsLetter(s[0]) ==> IsLetter(s[i])) {
      assert i > 0 ==> s[i] == s[1..][i - 1];
    }
  }

  lemma {:induction false} KeptOfAlnum(a: string, b: string)
    requires forall i | 0 <= i < |a| :: IsAlnum(a[i])
    ensures Kept(a + b) == Lower(a) + Kept(b)
  {
    if a == "" {
      assert a + b == b;
    } else {
      assert (a + b)[1..] == a[1..] + b;
      KeptOfAlnum(a[1..], b);
      assert Lower(a) == [LowerChar(a[0])] + Lower(a[1..]);
    }
  }

  /** The parts together are exactly the letters and digits of the name, in order. */
  lemma {:induction false} PartsConserve(s: string)
    ensures Concat(Parts(s)) == Kept(s)
    ensures forall p | p in Parts(s) :: IsPart(p)
    decreases |s|
  {
    if s != "" {
      PartIs(s);
      var n := PartLen(s);
      if n == 0 {
        PartsConserve(s[1..]);
      } else {
        PartsConserve(s[n..]);
        assert s == s[..n] + s[n..];
        KeptOfAlnum(s[..n], s[n..]);
        var rest := Parts(s[n..]);
        assert ([Lower(s[..n])] + rest)[1..] == rest;
      }
    }
  }

  // ----- reading parts back ------------------------------------------------------------

  function Joined(parts: seq<string>, sep: char): string {
    if parts == [] then ""
    else if |parts| == 1 then parts[0]
    else parts[0] + [sep] + Joined(parts[1..], sep)
  }

  lemma {:induction false} LowsOf(p: string, rest: string)
    requires (forall i | 0 <= i < |p| :: IsLower(p[i])) && (rest == "" || !IsAlnum(rest[0]))
    ensures Lows(p + rest) == |p|
  {
    if p == "" {
      assert p + rest == rest;
    } else {
      assert (p + rest)[1..] == p[1..] + rest;
      LowsOf(p[1..], rest);
    }
  }

  lemma {:induction false} DigitsOf(p: string, rest: string)
    requires (forall i | 0 <= i < |p| :: IsDigit(p[i])) && (rest == "" || !IsAlnum(rest[0]))
    ensures Digits(p + rest) == |p|
  {
    if p == "" {
      assert p + rest == rest;
    } else {
      assert (p + rest)[1..] == p[1..] + rest;
      DigitsOf(p[1..], rest);
    }
  }

  lemma LowerPart(p: string)
    requires IsPart(p)
    ensures Lower(p) == p
  {
  }

  /** A part before anything but a letter or digit is read as itself. */
  lemma PartThen(p: string, rest: string)
    requires IsPart(p) && (rest == "" || !IsAlnum(rest[0]))
    ensures Parts(p + rest) == [p] + Parts(rest)
  {
    var s := p + rest;
    assert s[0] == p[0];
    if IsLower(p[0]) {
      LowsOf(p, rest);
    } else {
      DigitsOf(p, rest);
      assert Lows(s) == 0;
    }
    assert Ups(s) == 0 && PartLen(s) == |p|;
    assert s[..|p|] == p && s[|p|..] == rest;
    LowerPart(p);
  }

  lemma SkipSep(sep: char, rest: string)
    requires !IsAlnum(sep)
    ensures Parts([sep] + rest) == Parts(rest)
  {
    var s := [sep] + rest;
    assert s[1..] == rest;
    PartIs(s);
  }

  /** Parts joined by '_', '-' or ' ' are read back as they were. */
  lemma {:induction false} PartsReadBack(parts: seq<string>, sep: char)
    requires !IsAlnum(sep) && forall p | p in parts :: IsPart(p)
    ensures Parts(Joined(parts, sep)) == parts
  {
    if |parts| == 1 {
      assert parts[0] in parts;
      PartThen(parts[0], "");
      assert parts[0] + "" == parts[0];
      assert parts == [parts[0]];
    } else if parts != [] {
      var rest := Joined(parts[1..], sep);
      assert parts[0] in parts;
      PartsReadBack(parts[1..], sep);
      PartThen(parts[0], [sep] + rest);
      SkipSep(sep, rest);
      assert parts[0] + [sep] + rest == parts[0] + ([sep] + rest);
      assert parts == [parts[0]] + parts[1..];
    }
  }

  // ----- trimming ----------------------------------------------------------------------

  lemma {:induction false} LstripParts(s: string)
    ensures Parts(Lstrip(s)) == Parts(s)
    ensures Lstrip(s) == "" || !IsSpace(Lstrip(s)[0])
  {
    if s != "" && IsSpace(s[0]) {
      LstripParts(s[1..]);
      PartIs(s);
    }
  }

  /** White space, separators and the like end a part and begin none. */
  lemma {:induction false} PartsApart(a: string, b: string)
    requires b == "" || !IsAlnum(b[0])
    ensures Parts(a + b) == Parts(a) + Parts(b)
    decreases |a|
  {
    if a == "" {
      assert a + b == b;
    } else {
      PartIs(a);
      SamePartLen(a, b);
      var n := PartLen(a);
      if n == 0 {
        assert (a + b)[1..] == a[1..] + b;
        PartsApart(a[1..], b);
      } else {
        assert (a + b)[n..] == a[n..] + b && (a + b)[..n] == a[..n];
        PartsApart(a[n..], b);
        assert [Lower(a[..n])] + (Parts(a[n..]) + Parts(b)) == ([Lower(a[..n])] + Parts(a[n..])) + Parts(b);
      }
    }
  }

  lemma {:induction false} SameRuns(a: string, b: string)
    requires b == "" || !IsAlnum(b[0])
    ensures Ups(a + b) == Ups(a) && Lows(a + b) == Lows(a) && Digits(a + b) == Digits(a)
  {
    if a == "" {
      assert a + b == b;
    } else {
      assert (a + b)[1..] == a[1..] + b;
      SameRuns(a[1..], b);
    }
  }

  lemma SamePartLen(a: string, b: string)
    requires a != "" && (b == "" || !IsAlnum(b[0]))
    ensures PartLen(a + b) == PartLen(a)
  {
    SameRuns(a, b);
    SameRuns(a[1..], b);
    assert (a + b)[1..] == a[1..] + b;
    var u := Ups(a);
    assert u < |a| ==> (a + b)[u] == a[u];
    assert u == |a| && b != "" ==> (a + b)[u] == b[0];
  }

  lemma {:induction false} RstripParts(s: string)
    ensures Parts(Rstrip(s)) == Parts(s)
    ensures Rstrip(s) == "" || !IsSpace(Rstrip(s)[|Rstrip(s)| - 1])
    ensures Rstrip(s) <= s
  {
    if s != "" && IsSpace(s[|s| - 1]) {
      RstripParts(s[..|s| - 1]);
      LastIsSpace(s);
    }
  }

  lemma LastIsSpace(s: string)
    requires s != "" && IsSpace(s[|s| - 1])
    ensures Parts(s[..|s| - 1]) == Parts(s)
  {
    var front, last := s[..|s| - 1], [s[|s| - 1]];
    assert s == front + last;
    PartsApart(front, last);
    SkipSep(last[0], "");
    assert last + "" == last;
  }

  lemma StripParts(s: string)
    ensures Parts(Strip(s)) == Parts(s)
    ensures Strip(s) != "" ==> !IsSpace(Strip(s)[0]) && !IsSpace(Strip(s)[|Strip(s)| - 1])
  {
    LstripParts(s);
    RstripParts(Lstrip(s));
  }

  lemma StripStays(s: string)
    requires s != "" ==> !IsSpace(s[0]) && !IsSpace(s[|s| - 1])
    ensures Strip(s) == s
  {
  }

  // ----- canonical names ---------------------------------------------------------------

  function Canonical(name: string): string {
    var parts := Parts(name);
    if parts == [] then Lower(Strip(name)) else Joined(parts, '_')
  }

  lemma {:induction false} NoPartsNoLetters(s: string)
    requires Parts(s) == []
    ensures Lower(s) == s
    decreases |s|
  {
    if s != "" {
      PartIs(s);
      assert PartLen(s) == 0;
      NoPartsNoLetters(s[1..]);
      assert Lower(s) == [LowerChar(s[0])] + Lower(s[1..]);
    }
  }

  /** A canonical name is its own canonical name, and has the parts of the name it came from. */
  lemma CanonicalIsFixed(name: string)
    ensures Canonical(Canonical(name)) == Canonical(name) && Parts(Canonical(name)) == Parts(name)
  {
    var parts := Parts(name);
    PartsConserve(name);
    if parts == [] {
      StripParts(name);
      NoPartsNoLetters(Strip(name));
      StripStays(Strip(name));
    } else {
      PartsReadBack(parts, '_');
    }
  }

  /** Names with parts canonicalize alike exactly when they have the same parts. */
  lemma CanonicalIffParts(a: string, b: string)
    requires Parts(a) != [] && Parts(b) != []
    ensures Canonical(a) == Canonical(b) <==> Parts(a) == Parts(b)
  {
    CanonicalIsFixed(a);
    CanonicalIsFixed(b);
  }

  lemma {:induction false} KeptIsAll(s: string)
    ensures |Kept(s)| <= |s|
    ensures Kept(s) == Lower(s) <==> forall i | 0 <= i < |s| :: IsAlnum(s[i])
  {
    if s != "" {
      KeptIsAll(s[1..]);
      assert Lower(s) == [LowerChar(s[0])] + Lower(s[1..]);
      if IsAlnum(s[0]) {
        assert Kept(s)[1..] == Kept(s[1..]) && Lower(s)[1..] == Lower(s[1..]);
        assert forall i | 0 <= i < |s[1..]| :: s[1..][i] == s[i + 1];
      }
    }
  }

  /** A single part is the lower-cased name, stripped or not, exactly when that is all letters and digits. */
  lemma SinglePartIsLowercaseIff(name: string)
    requires |Parts(name)| == 1
    ensures Canonical(name) == Lower(Strip(name)) <==> forall i | 0 <= i < |Strip(name)| :: IsAlnum(Strip(name)[i])
    ensures Canonical(name) == Lower(name) <==> forall i | 0 <= i < |name| :: IsAlnum(name[i])
  {
    StripParts(name);
    PartsConserve(name);
    PartsConserve(Strip(name));
    KeptIsAll(name);
    KeptIsAll(Strip(name));
    assert Parts(name)[1..] == [];
    assert Concat(Parts(name)) == Parts(name)[0];
  }

  /** A single part is not always the lower-cased input: other characters are dropped. */
  lemma SinglePartIsNotLowercase()
    ensures Canonical("a.") == "a" && Lower(Strip("a.")) == "a."
  {
    var s := "a.";
    assert s == "a" + ".";
    PartThen("a", ".");
    SkipSep('.', "");
    assert "." + "" == ".";
    assert Parts(".") == [];
    assert Parts(s) == ["a"];
    StripStays(s);
    assert Lower(s) == "a.";
  }

  // ----- the loops ---------------------------------------------------------------------

  function Seps(s: string): (n: nat) ensures n <= |s| { if s == "" || !IsSep(s[0]) then 0 else 1 + Seps(s[1..]) }

  /** `re.split` on runs of white space, '_' and '-'; `i` characters looked at. */
  function Chunks(s: string, i: nat): seq<string>
    requires i <= |s|
    decreases |s| - i, 0
  {
    if i == |s| then [s]
    else if IsSep(s[i]) then SepsAre(s[i..]); [s[..i]] + Chunks(s[i + Seps(s[i..])..], 0)
    else Chunks(s, i + 1)
  }

  lemma {:induction false} SepsAre(s: string)
    ensures forall i | 0 <= i < Seps(s) :: IsSep(s[i])
    ensures s != "" && IsSep(s[0]) ==> Seps(s) > 0
  {
    if s != "" && IsSep(s[0]) {
      SepsAre(s[1..]);
      forall i | 0 <= i < Seps(s) ensures IsSep(s[i]) {
        assert i > 0 ==> s[i] == s[1..][i - 1];
      }
    }
  }

  function PartsOfAll(chunks: seq<string>): seq<string> {
    if chunks == [] then [] else PartsOfAll(chunks[..|chunks| - 1]) + Parts(chunks[|chunks| - 1])
  }

  lemma PartsOfLast(front: seq<string>, x: string)
    ensures PartsOfAll(front + [x]) == PartsOfAll(front) + Parts(x)
  {
    assert (front + [x])[..|front|] == front;
  }

  lemma {:induction false} PartsOfFirst(c: string, rest: seq<string>)
    ensures PartsOfAll([c] + rest) == Parts(c) + PartsOfAll(rest)
  {
    if rest == [] {
      PartsOfOne(c);
    } else {
      var front, x := rest[..|rest| - 1], rest[|rest| - 1];
      PartsOfFirst(c, front);
      PartsOfLast([c] + front, x);
      PartsOfThree([c], front, [x]);
      assert rest == front + [x];
      PartsOfThree(Parts(c), PartsOfAll(front), Parts(x));
    }
  }

  lemma PartsOfOne(c: string)
    ensures PartsOfAll([c] + []) == Parts(c) + PartsOfAll([])
  {
    assert [c] + [] == [c] && [c][..0] == [];
    assert [] + Parts(c) == Parts(c) && Parts(c) + [] == Parts(c);
  }

  lemma PartsOfThree(a: seq<string>, b: seq<string>, c: seq<string>)
    ensures a + b + c == a + (b + c)
  {
  }

  lemma {:induction false} SkipSeps(sep: string, rest: string)
    requires forall i | 0 <= i < |sep| :: IsSep(sep[i])
    ensures Parts(sep + rest) == Parts(rest)
  {
    if sep == "" {
      assert sep + rest == rest;
    } else {
      assert sep + rest == [sep[0]] + (sep[1..] + rest);
      SkipSep(sep[0], sep[1..] + rest);
      SkipSeps(sep[1..], rest);
    }
  }

  lemma CutParts(s: string, i: nat, n: nat)
    requires i < |s| && IsSep(s[i]) && n == Seps(s[i..])
    ensures Parts(s) == Parts(s[..i]) + Parts(s[i + n..])
  {
    var a, sep, b := s[..i], s[i..i + n], s[i + n..];
    SepsAre(s[i..]);
    assert s == a + (sep + b);
    assert (sep + b)[0] == s[i];
    PartsApart(a, sep + b);
    forall k | 0 <= k < |sep| ensures IsSep(sep[k]) {
      assert sep[k] == s[i..][k];
    }
    SkipSeps(sep, b);
  }

  /** Splitting at separators first does not change the parts. */
  lemma {:induction false} ChunksKeepParts(s: string, i: nat)
    requires i <= |s|
    ensures PartsOfAll(Chunks(s, i)) == Parts(s)
    decreases |s|, |s| - i
  {
    if i == |s| {
      PartsOfFirst(s, []);
      assert [s] + [] == [s];
    } else if IsSep(s[i]) {
      var n := Seps(s[i..]);
      SepsAre(s[i..]);
      ChunksKeepParts(s[i + n..], 0);
      ChunksCut(s, i, n);
      CutParts(s, i, n);
      PartsOfFirst(s[..i], Chunks(s[i + n..], 0));
    } else {
      ChunksKeepParts(s, i + 1);
      ChunksOn(s, i);
    }
  }

  lemma ChunksCut(s: string, i: nat, n: nat)
    requires i < |s| && IsSep(s[i]) && n == Seps(s[i..])
    ensures Chunks(s, i) == [s[..i]] + Chunks(s[i + n..], 0)
  {
  }

  lemma ChunksOn(s: string, i: nat)
    requires i < |s| && !IsSep(s[i])
    ensures Chunks(s, i) == Chunks(s, i + 1)
  {
  }

  lemma NextPart(chunk: string, i: nat)
    requires i < |chunk|
    ensures (var n := PartLen(chunk[i..]);
             Parts(chunk[i..]) == if n == 0 then Parts(chunk[i + 1..]) else [Lower(chunk[i..i + n])] + Parts(chunk[i + n..]))
  {
    var n := PartLen(chunk[i..]);
    assert chunk[i..][1..] == chunk[i + 1..] && chunk[i..][n..] == chunk[i + n..] && chunk[i..][..n] == chunk[i..i + n];
  }

  lemma Regrouped(a: seq<string>, x: string, b: seq<string>)
    ensures a + ([x] + b) == a + [x] + b
  {
  }

  /** `_PART_RE.findall`, lower case, appended. */
  method FindParts(chunk: string, before: seq<string>) returns (parts: seq<string>)
    ensures parts == before + Parts(chunk)
  {
    parts := before;
    var i := 0;
    assert chunk[0..] == chunk;
    while i < |chunk|
      invariant i <= |chunk| && parts + Parts(chunk[i..]) == before + Parts(chunk)
      decreases |chunk| - i
    {
      var n := PartLen(chunk[i..]);
      NextPart(chunk, i);
      if n == 0 {
        i := i + 1;
      } else {
        Regrouped(parts, Lower(chunk[i..i + n]), Parts(chunk[i + n..]));
        parts := parts + [Lower(chunk[i..i + n])];
        i := i + n;
      }
    }
    assert chunk[i..] == "" && parts + [] == parts;
  }

  method ConceptParts(name: string) returns (parts: seq<string>)
    ensures parts == Parts(name) && Concat(parts) == Kept(name) && forall p | p in parts :: IsPart(p)
  {
    PartsConserve(name);
    StripParts(name);
    ChunksKeepParts(Strip(name), 0);
    var chunks := Chunks(Strip(name), 0);
    parts := [];
    for i := 0 to |chunks|
      invariant parts == PartsOfAll(chunks[..i])
    {
      assert chunks[..i + 1][..i] == chunks[..i];
      if chunks[i] == "" {
        assert parts + [] == parts;
        continue;
      }
      parts := FindParts(chunks[i], parts);
    }
    assert chunks[..|chunks|] == chunks;
  }

  method CanonicalizeName(name: string) returns (canonical: string)
    ensures canonical == Canonical(name)
  {
    var parts := ConceptParts(name);
    canonical := if parts == [] then Lower(Strip(name)) else Joined(parts, '_');
  }

  lemma FormIsAlike(parts: seq<string>, sep: char, name: string)
    requires parts == Parts(name) && parts != [] && !IsAlnum(sep)
    ensures Canonical(Joined(parts, sep)) == Canonical(name)
  {
    PartsConserve(name);
    PartsReadBack(parts, sep);
  }

  lemma AllForms(parts: seq<string>, name: string)
    requires parts == Parts(name) && parts != []
    ensures Canonical(Joined(parts, '_')) == Canonical(name) && Canonical(Joined(parts, '-')) == Canonical(name)
    ensures Canonical(Joined(parts, ' ')) == Canonical(name)
  {
    FormIsAlike(parts, '_', name);
    FormIsAlike(parts, '-', name);
    FormIsAlike(parts, ' ', name);
  }

  predicate NoneTwice(forms: seq<string>) { forall i, j | 0 <= i < j < |forms| :: forms[i] != forms[j] }

  /** All forms canonicalize to `canonical`. */
  predicate Alike(forms: seq<string>, canonical: string) { forall v | v in forms :: Canonical(v) == canonical }

  method AddForm(before: seq<string>, variant: string, ghost canonical: string) returns (out: seq<string>)
    requires NoneTwice(before) && Alike(before, canonical) && Canonical(variant) == canonical
    ensures NoneTwice(out) && Alike(out, canonical)
    ensures out == if variant in before then before else before + [variant]
  {
    out := if variant in before then before else before + [variant];
    assert variant !in before ==> out[|before|] == variant;
  }

  function Unless(form: string, name: string): seq<string> { if form == name then [] else [form] }

  /** The name as it is, and behind it its parts joined, in each way that gives another name. */
  predicate AreForms(out: seq<string>, name: string) {
    var parts, own := Parts(name), Strip(name);
    && (parts == [] ==> out == [own])
    && (|parts| == 1 ==> out == [own] + Unless(parts[0], own))
    && (|parts| >= 2 ==>
      out == [own] + Unless(Joined(parts, '_'), own) + Unless(Joined(parts, '-'), own) + Unless(Joined(parts, ' '), own))
  }

  /** Two ways of joining the same parts differ at the first separator. */
  lemma JoinedDiffer(parts: seq<string>, a: char, b: char)
    requires |parts| >= 2 && a != b
    ensures Joined(parts, a) != Joined(parts, b)
  {
    assert Joined(parts, a)[|parts[0]|] == a && Joined(parts, b)[|parts[0]|] == b;
  }

  /** The three joined forms, `for variant in (...)`. */
  method AddForms(own: string, a: string, b: string, c: string, ghost canonical: string) returns (out: seq<string>)
    requires a != b && a != c && b != c && Canonical(own) == canonical
    requires Canonical(a) == canonical && Canonical(b) == canonical && Canonical(c) == canonical
    ensures NoneTwice(out) && Alike(out, canonical) && out == [own] + Unless(a, own) + Unless(b, own) + Unless(c, own)
  {
    out := AddForm([own], a, canonical);
    assert out == [own] + Unless(a, own);
    out := AddForm(out, b, canonical);
    assert out == [own] + Unless(a, own) + Unless(b, own);
    out := AddForm(out, c, canonical);
  }

  /** Every form stands for the same canonical name; the input comes first, none comes twice. */
  method ExpandNameVariants(name: string) returns (out: seq<string>)
    ensures NoneTwice(out) && Alike(out, Canonical(name)) && AreForms(out, name)
  {
    StripParts(name);
    StripStays(Strip(name));
    var stripped := Strip(name);
    var parts := ConceptParts(stripped);
    out := [stripped];
    if |parts| >= 2 {
      AllForms(parts, name);
      JoinedDiffer(parts, '_', '-');
      JoinedDiffer(parts, '_', ' ');
      JoinedDiffer(parts, '-', ' ');
      out := AddForms(stripped, Joined(parts, '_'), Joined(parts, '-'), Joined(parts, ' '), Canonical(name));
    } else if |parts| == 1 {
      FormIsAlike(parts, '_', name);
      if parts[0] != stripped {
        out := out + [parts[0]];
      }
    }
  }
}
