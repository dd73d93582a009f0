/** Where a name is cut, and how its canonical form is written. */
module IdentifierLaws {
  import opened Ascii
  import opened Identifier

  // ----- where a part ends -------------------------------------------------------------

  /** Capitals before a capital that begins a word. */
  predicate IsAcronym(s: string, n: nat) {
    && 0 < n && n + 1 < |s| && (forall i | 0 <= i < n :: 'A' <= s[i] <= 'Z')
    && 'A' <= s[n] <= 'Z' && 'a' <= s[n + 1] <= 'z'
  }

  /** The lower-case letters from `m` on, as far as they go. */
  predicate IsLows(s: string, m: nat, n: nat) {
    m < n <= |s| && (forall i | m <= i < n :: 'a' <= s[i] <= 'z') && (n < |s| ==> !('a' <= s[n] <= 'z'))
  }

  /** Lower-case letters, behind one capital or none. */
  predicate IsWord(s: string, n: nat) { IsLows(s, 0, n) || (s != "" && 'A' <= s[0] <= 'Z' && IsLows(s, 1, n)) }

  predicate IsCapitals(s: string, n: nat) {
    0 < n <= |s| && (forall i | 0 <= i < n :: 'A' <= s[i] <= 'Z') && (n < |s| ==> !('A' <= s[n] <= 'Z'))
  }

  predicate IsNumber(s: string, n: nat) {
    0 < n <= |s| && (forall i | 0 <= i < n :: '0' <= s[i] <= '9') && (n < |s| ==> !('0' <= s[n] <= '9'))
  }

  /** The first kind that there is one of at the front. */
  ghost predicate IsFirstPart(s: string, n: nat) {
    || IsAcronym(s, n)
    || (IsWord(s, n) && forall k: nat :: !IsAcronym(s, k))
    || (IsCapitals(s, n) && (forall k: nat :: !IsAcronym(s, k)) && forall k: nat :: !IsWord(s, k))
    || IsNumber(s, n)
  }

  lemma NoAcronym(s: string, u: nat)
    requires u <= |s| && (forall i | 0 <= i < u :: IsUpper(s[i])) && (u < |s| ==> !IsUpper(s[u]))
    ensures forall k: nat :: IsAcronym(s, k) <==> u >= 2 && u < |s| && IsLower(s[u]) && k == u - 1
  {
    forall k: nat ensures IsAcronym(s, k) <==> u >= 2 && u < |s| && IsLower(s[u]) && k == u - 1 {
      if IsAcronym(s, k) {
        assert k < u && k + 1 >= u;
      }
    }
  }

  lemma WordsAre(s: string, u: nat)
    requires u <= |s| && (forall i | 0 <= i < u :: IsUpper(s[i])) && (u < |s| ==> !IsUpper(s[u]))
    ensures u == 0 ==> forall k: nat :: IsWord(s, k) <==> k > 0 && k == Lows(s)
    ensures u == 1 ==> forall k: nat :: IsWord(s, k) <==> k > 1 && k == 1 + Lows(s[1..])
    ensures u >= 2 ==> forall k: nat :: !IsWord(s, k)
  {
    LowsFrom(s, 0);
    if s != "" {
      LowsFrom(s, 1);
    }
    if u >= 2 {
      assert IsUpper(s[0]) && IsUpper(s[1]);
    }
  }

  lemma LowsFrom(s: string, m: nat)
    requires m <= |s|
    ensures forall k: nat :: IsLows(s, m, k) <==> k > m && k == m + Lows(s[m..])
  {
    var n := Lows(s[m..]);
    LowsAre(s[m..]);
    assert n < |s| - m ==> s[m..][n] == s[m + n];
    forall i | m <= i < m + n ensures IsLower(s[i]) {
      assert s[m..][i - m] == s[i];
    }
  }

  lemma PartLenIs(s: string)
    ensures PartLen(s) > 0 ==> IsFirstPart(s, PartLen(s))
    ensures PartLen(s) == 0 ==> s == "" || !(IsLetter(s[0]) || IsDigit(s[0]))
  {
    UpsAre(s);
    var u := Ups(s);
    NoAcronym(s, u);
    WordsAre(s, u);
    DigitsAre(s);
    if s != "" {
      PartIs(s);
    }
  }

  // ----- where a name is cut -----------------------------------------------------------

  ghost predicate IsCut(s: string, part: string, at: (nat, nat)) {
    at.0 + at.1 <= |s| && IsFirstPart(s[at.0..], at.1) && part == Lower(s[at.0..at.0 + at.1])
  }

  predicate IsKept(s: string, p: nat)
    requires p < |s|
  {
    IsLetter(s[p]) || IsDigit(s[p])
  }

  predicate IsInside(at: seq<(nat, nat)>, p: nat) { exists k | 0 <= k < |at| :: at[k].0 <= p < at[k].0 + at[k].1 }

  ghost predicate AllCut(s: string, parts: seq<string>, at: seq<(nat, nat)>) {
    |at| == |parts| && forall k | 0 <= k < |at| :: IsCut(s, parts[k], at[k])
  }

  /** From left to right, a part wherever one begins; what is in none is neither letter nor digit. */
  ghost predicate CutsAt(s: string, parts: seq<string>, at: seq<(nat, nat)>) {
    && AllCut(s, parts, at)
    && InTurn(at)
    && forall p: nat | p < |s| && IsKept(s, p) :: IsInside(at, p)
  }

  function Moved(at: seq<(nat, nat)>, n: nat): (r: seq<(nat, nat)>)
    ensures |r| == |at| && forall k | 0 <= k < |at| :: r[k] == (at[k].0 + n, at[k].1)
  {
    seq(|at|, k requires 0 <= k < |at| => (at[k].0 + n, at[k].1))
  }

  lemma CutMoved(s: string, n: nat, part: string, at: (nat, nat))
    requires n <= |s| && IsCut(s[n..], part, at)
    ensures IsCut(s, part, (at.0 + n, at.1))
  {
    var a, m := at.0, at.1;
    assert s[n..][a..] == s[a + n..] && s[n..][a..a + m] == s[a + n..a + n + m];
  }

  predicate InTurn(at: seq<(nat, nat)>) { forall j, k | 0 <= j < k < |at| :: at[j].0 + at[j].1 <= at[k].0 }

  lemma RisesBehind(rest: seq<(nat, nat)>, n: nat)
    requires InTurn(rest)
    ensures InTurn([(0, n)] + Moved(rest, n))
  {
  }

  lemma InsideMoved(at: seq<(nat, nat)>, n: nat, p: nat)
    requires n <= p
    ensures IsInside(Moved(at, n), p) <==> IsInside(at, p - n)
  {
    if IsInside(at, p - n) {
      var k :| 0 <= k < |at| && at[k].0 <= p - n < at[k].0 + at[k].1;
      assert Moved(at, n)[k].0 <= p;
    }
  }

  lemma {:induction false} PartsAreCut(s: string) returns (at: seq<(nat, nat)>)
    ensures CutsAt(s, Parts(s), at)
    decreases |s|
  {
    if s == "" {
      at := [];
    } else {
      var n := PartLen(s);
      PartLenIs(s);
      if n == 0 {
        at := PartsAreCut(s[1..]);
        CutsMoved(s, 1, Parts(s[1..]), at);
        at := Moved(at, 1);
      } else {
        at := PartsAreCut(s[n..]);
        CutsBehind(s, n, Parts(s[n..]), at);
        at := [(0, n)] + Moved(at, n);
      }
    }
  }

  lemma CutsMoved(s: string, d: nat, parts: seq<string>, rest: seq<(nat, nat)>)
    requires d <= |s| && CutsAt(s[d..], parts, rest)
    requires forall p: nat | p < d :: !IsKept(s, p)
    ensures CutsAt(s, parts, Moved(rest, d))
  {
    var at := Moved(rest, d);
    AllCutMoved(s, d, parts, rest);
    forall p: nat | p < |s| && IsKept(s, p) ensures IsInside(at, p) {
      assert s[d..][p - d] == s[p] && IsKept(s[d..], p - d);
      InsideMoved(rest, d, p);
    }
  }

  lemma FirstCut(s: string, n: nat)
    requires n <= |s| && IsFirstPart(s, n)
    ensures IsCut(s, Lower(s[..n]), (0, n))
  {
    assert s[0..] == s && s[0..0 + n] == s[..n];
  }

  lemma AllCutMoved(s: string, n: nat, parts: seq<string>, rest: seq<(nat, nat)>)
    requires n <= |s| && AllCut(s[n..], parts, rest)
    ensures AllCut(s, parts, Moved(rest, n))
  {
    forall k | 0 <= k < |rest| ensures IsCut(s, parts[k], Moved(rest, n)[k]) {
      CutMoved(s, n, parts[k], rest[k]);
    }
  }

  lemma CutInFront(s: string, part: string, first: (nat, nat), parts: seq<string>, at: seq<(nat, nat)>)
    requires IsCut(s, part, first) && AllCut(s, parts, at)
    ensures AllCut(s, [part] + parts, [first] + at)
  {
    var ps, more := [part] + parts, [first] + at;
    forall k | 0 <= k < |more| ensures IsCut(s, ps[k], more[k]) {
      assert k > 0 ==> ps[k] == parts[k - 1] && more[k] == at[k - 1];
    }
  }

  lemma CutsBehind(s: string, n: nat, parts: seq<string>, rest: seq<(nat, nat)>)
    requires 0 < n <= |s| && IsFirstPart(s, n) && CutsAt(s[n..], parts, rest)
    ensures CutsAt(s, [Lower(s[..n])] + parts, [(0, n)] + Moved(rest, n))
  {
    var at := [(0, n)] + Moved(rest, n);
    FirstCut(s, n);
    AllCutMoved(s, n, parts, rest);
    CutInFront(s, Lower(s[..n]), (0, n), parts, Moved(rest, n));
    RisesBehind(rest, n);
    forall p: nat | p < |s| && IsKept(s, p) ensures IsInside(at, p) {
      assert p >= n ==> s[n..][p - n] == s[p] && IsKept(s[n..], p - n);
      InsideBehind(rest, n, p);
    }
  }

  lemma InsideBehind(rest: seq<(nat, nat)>, n: nat, p: nat)
    ensures p < n || IsInside(rest, p - n) ==> IsInside([(0, n)] + Moved(rest, n), p)
  {
    var at := [(0, n)] + Moved(rest, n);
    if p < n {
      assert at[0].0 <= p < at[0].0 + at[0].1;
    } else if IsInside(rest, p - n) {
      var k :| 0 <= k < |rest| && rest[k].0 <= p - n < rest[k].0 + rest[k].1;
      assert at[k + 1].0 <= p < at[k + 1].0 + at[k + 1].1;
    }
  }

  // ----- the canonical form ------------------------------------------------------------

  /** Parts joined: the first one, and then each behind a separator. */
  lemma {:induction false} JoinedMore(parts: seq<string>, last: string, sep: char)
    ensures Joined([last], sep) == last
    ensures parts != [] ==> Joined(parts + [last], sep) == Joined(parts, sep) + [sep] + last
  {
    if |parts| == 1 {
      assert (parts + [last])[1..] == [last];
    } else if |parts| > 1 {
      assert (parts + [last])[1..] == parts[1..] + [last];
      JoinedMore(parts[1..], last, sep);
      assert parts[0] + [sep] + (Joined(parts[1..], sep) + [sep] + last) == parts[0] + [sep] + Joined(parts[1..], sep) + [sep] + last;
    }
  }

  /** The canonical form of a name: its parts with underscores between them, or, without parts, the name
    * itself in lower case and without white space at its ends. */
  lemma CanonicalIs(name: string)
    ensures Parts(name) == [] ==> Canonical(name) == Lower(Strip(name))
    ensures |Parts(name)| == 1 ==> Canonical(name) == Parts(name)[0]
    ensures |Parts(name)| > 1 ==>
      var front, last := Parts(name)[..|Parts(name)| - 1], Parts(name)[|Parts(name)| - 1];
      Canonical(name) == Joined(front, '_') + "_" + last
  {
    if |Parts(name)| > 1 {
      var front, last := Parts(name)[..|Parts(name)| - 1], Parts(name)[|Parts(name)| - 1];
      assert Parts(name) == front + [last];
      JoinedMore(front, last, '_');
    }
  }

  /** Strip takes white space off both ends and nothing else. */
  lemma {:induction false} LstripIs(s: string) returns (n: nat)
    ensures n <= |s| && Lstrip(s) == s[n..] && (forall i | 0 <= i < n :: IsSpace(s[i])) && (n < |s| ==> !IsSpace(s[n]))
  {
    n := 0;
    if s != "" && IsSpace(s[0]) {
      var k := LstripIs(s[1..]);
      n := k + 1;
      forall i | 0 <= i < n ensures IsSpace(s[i]) {
        assert i > 0 ==> s[i] == s[1..][i - 1];
      }
    }
  }

  lemma {:induction false} RstripIs(s: string) returns (n: nat)
    ensures n <= |s| && Rstrip(s) == s[..n] && (forall i | n <= i < |s| :: IsSpace(s[i])) && (n > 0 ==> !IsSpace(s[n - 1]))
  {
    n := |s|;
    if s != "" && IsSpace(s[|s| - 1]) {
      n := RstripIs(s[..|s| - 1]);
    }
  }

  lemma StripIs(s: string) returns (a: nat, b: nat)
    ensures a <= b <= |s| && Strip(s) == s[a..b]
    ensures (forall i | 0 <= i < a :: IsSpace(s[i])) && (forall i | b <= i < |s| :: IsSpace(s[i]))
    ensures a < b ==> !IsSpace(s[a]) && !IsSpace(s[b - 1])
  {
    a := LstripIs(s);
    var n := RstripIs(s[a..]);
    b := a + n;
    forall i | b <= i < |s| ensures IsSpace(s[i]) {
      assert s[a..][i - a] == s[i];
    }
    assert n > 0 ==> s[a..][n - 1] == s[b - 1];
  }
}
