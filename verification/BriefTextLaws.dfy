/** What the patterns accept, in any document, and where the next match is. */
module BriefTextLaws {
  import opened Options
  import opened Ascii
  import opened Decimals
  import opened BriefText
  import opened BriefTrip

  // ----- one brief ---------------------------------------------------------------------

  predicate Without(s: string, c: char) { forall i | 0 <= i < |s| :: s[i] != c }

  /** ` \{#([^}]+)\}\n\n([^\n]+)\n`, with what follows. */
  predicate IsTail(s: string, t: Tail) {
    && s == " {#" + (t.anchor + ("}\n\n" + (t.finding + ("\n" + t.rest))))
    && t.anchor != "" && Without(t.anchor, '}') && t.finding != "" && Without(t.finding, '\n')
  }

  lemma TailIs(s: string)
    ensures AfterLabel(s).Some? ==> IsTail(s, AfterLabel(s).value)
    ensures forall t: Tail | IsTail(s, t) :: AfterLabel(s) == Some(t)
  {
    if AfterLabel(s).Some? {
      TailTaken(s, AfterLabel(s).value);
    }
    forall t: Tail | IsTail(s, t) ensures AfterLabel(s) == Some(t) {
      TailMatches(t.anchor, t.finding, t.rest);
    }
  }

  lemma TailTaken(s: string, r: Tail)
    requires AfterLabel(s) == Some(r)
    ensures IsTail(s, r)
  {
    TakenApart(" {#", s);
    AnchorTaken(s[3..], Run(s[3..], NotBrace), r);
  }

  lemma TakenApart(p: string, s: string)
    requires p <= s
    ensures s == p + s[|p|..]
  {
  }

  lemma Before(s: string, n: nat, p: char -> bool)
    requires n == Run(s, p)
    ensures s == s[..n] + s[n..] && forall i | 0 <= i < n :: p(s[..n][i])
  {
  }

  lemma AnchorTaken(t: string, n: nat, r: Tail)
    requires n == Run(t, NotBrace) && 0 < n && "}\n\n" <= t[n..]
    requires var u := t[n + 3..]; var k := Run(u, InLine); 0 < k < |u| && r == Tail(t[..n], u[..k], u[k + 1..])
    ensures t == r.anchor + ("}\n\n" + (r.finding + ("\n" + r.rest)))
    ensures r.anchor != "" && Without(r.anchor, '}') && r.finding != "" && Without(r.finding, '\n')
  {
    var u := t[n + 3..];
    Before(t, n, NotBrace);
    TakenApart("}\n\n", t[n..]);
    FindingTaken(u, Run(u, InLine));
    assert t[n..][3..] == u;
  }

  lemma FindingTaken(u: string, k: nat)
    requires k == Run(u, InLine) && 0 < k < |u|
    ensures u == u[..k] + ("\n" + u[k + 1..]) && Without(u[..k], '\n')
  {
    Before(u, k, InLine);
    assert u[k..] == "\n" + u[k + 1..];
  }

  predicate TailAt(s: string, k: nat)
    requires k <= |s|
  {
    AfterLabel(s[k..]).Some?
  }

  /** The first place from `i` on where the rest of the pattern follows. */
  predicate LabelEnds(s: string, i: nat, c: nat)
    requires i <= |s|
  {
    && i <= c && (forall k | i <= k < c && k <= |s| :: !TailAt(s, k))
    && if c > |s| then ScanLabel(s, i).None? else TailAt(s, c) && ScanLabel(s, i) == Some((s[..c], AfterLabel(s[c..]).value))
  }

  /** `(.+?)`: the label ends there. */
  lemma {:induction false} LabelIs(s: string, i: nat) returns (c: nat)
    requires i <= |s|
    ensures LabelEnds(s, i, c)
    decreases |s| - i
  {
    if TailAt(s, i) {
      c := i;
    } else if i == |s| {
      c := |s| + 1;
    } else {
      c := LabelIs(s, i + 1);
      LabelLater(s, i, c);
    }
  }

  lemma LabelLater(s: string, i: nat, c: nat)
    requires i < |s| && !TailAt(s, i) && LabelEnds(s, i + 1, c)
    ensures LabelEnds(s, i, c)
  {
    assert ScanLabel(s, i) == ScanLabel(s, i + 1);
  }

  /** `Evidence \(\d+\): ([^\n]+)`, as far as it goes. */
  predicate IsEvidence(s: string, d: string, items: string, rest: string) {
    && s == "Evidence (" + (d + ("): " + (items + rest)))
    && d != "" && AllDigits(d) && items != "" && Without(items, '\n') && (rest != "" ==> rest[0] == '\n')
  }

  ghost predicate GivesEvidence(s: string, items: string, rest: string) { exists d :: IsEvidence(s, d, items, rest) }

  lemma EvidenceLineIs(s: string, items: string, rest: string)
    ensures EvidenceLine(s) == Some((items, rest)) <==> GivesEvidence(s, items, rest)
  {
    if EvidenceLine(s) == Some((items, rest)) {
      TakenApart("Evidence (", s);
      NumberTaken(s[10..], Run(s[10..], IsDigit), items, rest);
      assert IsEvidence(s, s[10..][..Run(s[10..], IsDigit)], items, rest);
    }
    if GivesEvidence(s, items, rest) {
      var d :| IsEvidence(s, d, items, rest);
      EvidenceGiven(s, d, items, rest);
    }
  }

  lemma NumberTaken(t: string, n: nat, items: string, rest: string)
    requires n == Run(t, IsDigit) && 0 < n && "): " <= t[n..]
    requires var u := t[n + 3..]; var k := Run(u, InLine); 0 < k && items == u[..k] && rest == u[k..]
    ensures t == t[..n] + ("): " + (items + rest)) && AllDigits(t[..n])
    ensures Without(items, '\n') && (rest != "" ==> rest[0] == '\n')
  {
    var u := t[n + 3..];
    Before(t, n, IsDigit);
    TakenApart("): ", t[n..]);
    Before(u, Run(u, InLine), InLine);
    assert t[n..][3..] == u;
  }

  lemma EvidenceGiven(s: string, d: string, items: string, rest: string)
    requires IsEvidence(s, d, items, rest)
    ensures EvidenceLine(s) == Some((items, rest))
  {
    var u := items + rest;
    var t := d + ("): " + u);
    assert s[10..] == t && s[..10] == "Evidence (";
    RunOf(d, "): " + u, IsDigit);
    RunOf(items, rest, InLine);
    DropThree("): ", u);
    assert t[|d| + 3..] == t[|d|..][3..];
  }

  // ----- the next match ----------------------------------------------------------------

  predicate AtLineStart(s: string, p: nat, first: bool)
    requires p <= |s|
  {
    if p == 0 then first else s[p - 1] == '\n'
  }

  predicate EvidenceAt(s: string, k: nat, first: bool)
    requires k <= |s|
  {
    AtLineStart(s, k, first) && EvidenceLine(s[k..]).Some?
  }

  lemma OneLater(s: string, k: nat, first: bool)
    requires 0 < k <= |s|
    ensures s[1..][k - 1..] == s[k..] && AtLineStart(s, k, first) == AtLineStart(s[1..], k - 1, s[0] == '\n')
  {
  }

  /** The first line that is an evidence line. */
  predicate EvidenceIn(s: string, first: bool, p: nat) {
    && (forall k | 0 <= k < p && k <= |s| :: !EvidenceAt(s, k, first))
    && if p > |s| then FindEvidence(s, first).None? else EvidenceAt(s, p, first) && FindEvidence(s, first) == EvidenceLine(s[p..])
  }

  lemma {:induction false} FindEvidenceIs(s: string, first: bool) returns (p: nat)
    ensures EvidenceIn(s, first, p)
    decreases |s|
  {
    if EvidenceAt(s, 0, first) {
      p := 0;
      EvidenceHere(s, first);
    } else if s == "" {
      p := 1;
      NoEvidence(first);
    } else {
      var q := FindEvidenceIs(s[1..], s[0] == '\n');
      p := q + 1;
      EvidenceLater(s, first, q);
    }
  }

  lemma EvidenceHere(s: string, first: bool)
    requires EvidenceAt(s, 0, first)
    ensures EvidenceIn(s, first, 0)
  {
    assert s[0..] == s;
  }

  lemma NoEvidence(first: bool)
    requires !EvidenceAt("", 0, first)
    ensures EvidenceIn("", first, 1)
  {
    assert ""[0..] == "";
  }

  lemma EvidenceLater(s: string, first: bool, q: nat)
    requires s != "" && !EvidenceAt(s, 0, first) && EvidenceIn(s[1..], s[0] == '\n', q)
    ensures EvidenceIn(s, first, q + 1)
  {
    forall k | 0 < k < q + 1 && k <= |s| ensures !EvidenceAt(s, k, first) {
      OneLater(s, k, first);
      assert !EvidenceAt(s[1..], k - 1, s[0] == '\n');
    }
    assert s[0..] == s;
    if q + 1 <= |s| {
      OneLater(s, q + 1, first);
    }
  }

  predicate MatchesAt(s: string, k: nat, first: bool)
    requires k <= |s|
  {
    AtLineStart(s, k, first) && MatchAt(s[k..]).Some?
  }

  /** The next match, and what is found from there on. */
  predicate NextMatch(s: string, first: bool, p: nat) {
    && (forall k | 0 <= k < p && k <= |s| :: !MatchesAt(s, k, first))
    && if p > |s| then FindAll(s, first) == []
       else
         && MatchesAt(s, p, first)
         && var (f, rest, lineStart) := MatchAt(s[p..]).value; FindAll(s, first) == [f] + FindAll(rest, lineStart)
  }

  /** `finditer`: the next match is at the first line where the pattern matches, and the search goes on
    * behind it. */
  lemma {:induction false} FindAllIs(s: string, first: bool) returns (p: nat)
    ensures NextMatch(s, first, p)
    decreases |s|
  {
    if MatchesAt(s, 0, first) {
      p := 0;
      MatchHere(s, first);
    } else if s == "" {
      p := 1;
      NoMatch(first);
    } else {
      var q := FindAllIs(s[1..], s[0] == '\n');
      p := q + 1;
      MatchLater(s, first, q);
    }
  }

  lemma MatchHere(s: string, first: bool)
    requires MatchesAt(s, 0, first)
    ensures NextMatch(s, first, 0)
  {
    assert s[0..] == s;
  }

  lemma NoMatch(first: bool)
    requires !MatchesAt("", 0, first)
    ensures NextMatch("", first, 1)
  {
    assert ""[0..] == "";
  }

  lemma MatchLater(s: string, first: bool, q: nat)
    requires s != "" && !MatchesAt(s, 0, first) && NextMatch(s[1..], s[0] == '\n', q)
    ensures NextMatch(s, first, q + 1)
  {
    forall k | 0 < k < q + 1 && k <= |s| ensures !MatchesAt(s, k, first) {
      OneLater(s, k, first);
      assert !MatchesAt(s[1..], k - 1, s[0] == '\n');
    }
    NoneHere(s, first);
    if q + 1 <= |s| {
      OneLater(s, q + 1, first);
    }
  }

  lemma NoneHere(s: string, first: bool)
    requires s != "" && !MatchesAt(s, 0, first)
    ensures FindAll(s, first) == FindAll(s[1..], s[0] == '\n')
  {
    assert s[0..] == s;
  }

  /** A match: the heading mark, a label that is not empty, its tail, and the evidence if any follows. */
  lemma MatchIs(s: string) returns (c: nat)
    ensures MatchAt(s).Some? <==> "### " <= s && 5 <= c <= |s|
    ensures "### " <= s ==> forall k | 5 <= k < c && k <= |s| :: !TailAt(s, k)
    ensures MatchAt(s).Some? ==>
      && TailAt(s, c)
      && var t := AfterLabel(s[c..]).value; MatchAt(s).value == Whole(s[4..c], t, FindEvidence(t.rest, true))
  {
    c := 0;
    if "### " <= s {
      c := 5;
      if |s| > 4 {
        var u := s[4..];
        var d := LabelIs(u, 1);
        c := d + 4;
        LabelMoved(s, u, d);
        if d <= |u| {
          MatchTaken(s, u, d);
        }
      }
    }
  }

  function Whole(title: string, t: Tail, e: Option<(string, string)>): (Found, string, bool) {
    if e.None? then (Found(title, t.anchor, t.finding, None), t.rest, true)
    else (Found(title, t.anchor, t.finding, Some(e.value.0)), e.value.1, false)
  }

  lemma LabelMoved(s: string, u: string, d: nat)
    requires "### " <= s && u == s[4..] && u != "" && LabelEnds(u, 1, d)
    ensures forall k | 5 <= k < d + 4 && k <= |s| :: !TailAt(s, k)
    ensures d <= |u| ==> TailAt(s, d + 4) && u[d..] == s[d + 4..] && u[..d] == s[4..d + 4]
  {
    forall k | 5 <= k < d + 4 && k <= |s| ensures !TailAt(s, k) {
      assert !TailAt(u, k - 4);
      TailMoved(s, u, k - 4);
    }
    if d <= |u| {
      TailMoved(s, u, d);
    }
  }

  lemma TailMoved(s: string, u: string, d: nat)
    requires 4 <= |s| && u == s[4..] && d <= |u|
    ensures TailAt(s, d + 4) == TailAt(u, d) && u[d..] == s[d + 4..] && u[..d] == s[4..d + 4]
  {
  }

  lemma MatchTaken(s: string, u: string, d: nat)
    requires "### " <= s && u == s[4..] && u != "" && d <= |u| && TailAt(u, d)
    requires ScanLabel(u, 1) == Some((u[..d], AfterLabel(u[d..]).value))
    ensures var t := AfterLabel(u[d..]).value; MatchAt(s) == Some(Whole(u[..d], t, FindEvidence(t.rest, true)))
  {
  }

  // ----- sections ----------------------------------------------------------------------

  /** The pieces with the marks between them again. */
  function Marked(pieces: seq<string>): string
    requires pieces != []
  {
    if |pieces| == 1 then pieces[0] else pieces[0] + "## " + Marked(pieces[1..])
  }

  predicate HoldsNoMark(piece: string, first: bool) {
    forall k | 0 <= k <= |piece| && AtLineStart(piece, k, first) :: !("## " <= piece[k..])
  }

  predicate EndsLine(piece: string, first: bool) { AtLineStart(piece, |piece|, first) }

  /** Splitting takes the document apart at the marks that begin a line, at all of them. */
  predicate IsSplit(s: string, pieces: seq<string>, first: bool) {
    && pieces != [] && Marked(pieces) == s
    && (forall i | 0 <= i < |pieces| :: HoldsNoMark(pieces[i], i == 0 && first))
    && forall i | 0 <= i < |pieces| - 1 :: EndsLine(pieces[i], i == 0 && first)
  }

  lemma {:induction false} SplitIs(s: string, first: bool)
    ensures IsSplit(s, Split(s, first), first)
    decreases |s|
  {
    if first && "## " <= s {
      SplitIs(s[3..], false);
      TakenApart("## ", s);
      SplitAtMark(s, Split(s[3..], false));
    } else if s == "" {
      assert |Split(s, first)| == 1;
    } else {
      SplitIs(s[1..], s[0] == '\n');
      SplitLater(s, Split(s[1..], s[0] == '\n'), first);
    }
  }

  lemma SplitAtMark(s: string, rest: seq<string>)
    requires "## " <= s && IsSplit(s[3..], rest, false)
    ensures IsSplit(s, [""] + rest, true)
  {
    var pieces := [""] + rest;
    assert pieces[1..] == rest;
    TakenApart("## ", s);
    assert "" + "## " == "## ";
    assert HoldsNoMark("", true);
  }

  lemma {:induction false} FrontIsPrefix(pieces: seq<string>)
    requires pieces != []
    ensures pieces[0] <= Marked(pieces)
  {
    if |pieces| > 1 {
      Cat3(pieces[0], "## ", Marked(pieces[1..]));
    }
  }

  lemma SplitLater(s: string, rest: seq<string>, first: bool)
    requires s != "" && !(first && "## " <= s) && IsSplit(s[1..], rest, s[0] == '\n')
    ensures IsSplit(s, Onto([s[0]], rest), first)
  {
    var pieces, c := Onto([s[0]], rest), [s[0]];
    var front := c + rest[0];
    assert s == c + s[1..];
    assert Marked(pieces) == s by {
      if |rest| == 1 {
        assert pieces == [front];
      } else {
        assert pieces[1..] == rest[1..];
        Cat3(c, rest[0], "## ");
        Cat3(c, rest[0] + "## ", Marked(rest[1..]));
      }
    }
    FrontIsPrefix(pieces);
    forall k | 0 <= k <= |front| && AtLineStart(front, k, first) ensures !("## " <= front[k..]) {
      if k == 0 {
        assert front[0..] == front;
      } else {
        assert AtLineStart(rest[0], k - 1, s[0] == '\n') && front[k..] == rest[0][k - 1..];
      }
    }
    assert HoldsNoMark(front, first);
    assert EndsLine(rest[0], s[0] == '\n') ==> EndsLine(front, first);
    forall i | 0 < i < |pieces| ensures pieces[i] == rest[i] {
    }
  }

  /** `^(\S+) \{#(\S+)\}` on the first line. */
  predicate IsHead(head: string, cls: string, id: string, more: string) {
    && head == cls + " {#" + id + "}" + more
    && cls != "" && (forall i | 0 <= i < |cls| :: !IsSpace(cls[i])) && id != "" && forall i | 0 <= i < |id| :: !IsSpace(id[i])
  }

  ghost predicate NamesClass(head: string, cls: string) { exists id, more :: IsHead(head, cls, id, more) }

  predicate IsFirstLine(section: string, head: string) {
    && head <= section && (forall i | 0 <= i < |head| :: NotBreak(head[i]))
    && (|head| < |section| ==> !NotBreak(section[|head|]))
  }

  lemma HeadClassIs(section: string) returns (head: string)
    ensures IsFirstLine(section, head)
    ensures forall cls :: HeadClass(section) == Some(cls) <==> NamesClass(head, cls)
  {
    head := section[..Run(section, NotBreak)];
    if HeadClass(section).Some? {
      HeadRead(section, head, HeadClass(section).value);
    }
    forall cls | NamesClass(head, cls) ensures HeadClass(section) == Some(cls) {
      var id, more :| IsHead(head, cls, id, more);
      HeadGiven(section, head, cls, id, more);
    }
  }

  lemma HeadRead(section: string, head: string, cls: string)
    requires head == section[..Run(section, NotBreak)] && HeadClass(section) == Some(cls)
    ensures NamesClass(head, cls)
  {
    var n := Run(head, NotSpace);
    var t := head[n + 3..];
    var r := t[..Run(t, NotSpace)];
    var j :| 1 <= j < |r| && r[j] == '}';
    TakenApart(" {#", head[n..]);
    assert head[n..][3..] == t;
    HeadTaken(head, n, t, j);
  }

  lemma HeadTaken(head: string, n: nat, t: string, j: nat)
    requires n == Run(head, NotSpace) && 0 < n && head[n..] == " {#" + t && 1 <= j < Run(t, NotSpace) && t[j] == '}'
    ensures IsHead(head, head[..n], t[..j], t[j + 1..])
  {
    forall i | 0 <= i < n ensures !IsSpace(head[i]) {
      assert NotSpace(head[i]);
    }
    forall i | 0 <= i < j ensures !IsSpace(t[i]) {
      assert NotSpace(t[i]);
    }
    assert head == head[..n] + head[n..];
    assert t == t[..j] + ("}" + t[j + 1..]);
    Cat5(head[..n], " {#", t[..j], "}", t[j + 1..]);
  }

  lemma HeadGiven(section: string, head: string, cls: string, id: string, more: string)
    requires IsHead(head, cls, id, more) && head == section[..Run(section, NotBreak)]
    ensures HeadClass(section) == Some(cls)
  {
    var u := "}" + more;
    Cat5(cls, " {#", id, "}", more);
    forall i | 0 <= i < |cls| ensures NotSpace(cls[i]) {
    }
    RunOf(cls, " {#" + (id + u), NotSpace);
    var t := id + u;
    assert head[|cls|..] == " {#" + t && head[|cls| + 3..] == t;
    var r := t[..Run(t, NotSpace)];
    assert forall i | 0 <= i <= |id| :: NotSpace(t[i]);
    assert Run(t, NotSpace) > |id| && r[|id|] == '}';
  }

  // ----- evidence ids ------------------------------------------------------------------

  /** "`(\d+)`" here: `n` digits between backticks. */
  predicate IsTicked(s: string, p: nat, n: nat) {
    && 0 < n && p + n + 1 < |s| && s[p] == '`' && s[p + n + 1] == '`' && forall i | p < i <= p + n :: IsDigit(s[i])
  }

  predicate IsTickedHere(s: string, p: nat) { exists n: nat :: n <= |s| && IsTicked(s, p, n) }

  /** The first number between backticks, and the ids from there on. */
  predicate NextId(s: string, p: nat, n: nat) {
    && (forall k | 0 <= k < p :: !IsTickedHere(s, k))
    && if p > |s| then Ids(s) == []
       else IsTicked(s, p, n) && IsNext(Ids(s), s[p + 1..p + n + 1], Ids(s[p + n + 2..]))
  }

  predicate IsNext(ids: seq<nat>, digits: string, more: seq<nat>) { AllDigits(digits) && ids == [Value(digits)] + more }

  /** The ids are those of the first number between backticks and of what is behind it. */
  lemma {:induction false} IdsAre(s: string) returns (p: nat, n: nat)
    ensures NextId(s, p, n)
    decreases |s|
  {
    if s == "" {
      p, n := 1, 0;
      assert IsTickedHere(s, 0) ==> 1 < |s|;
    } else {
      n := Run(s[1..], IsDigit);
      if s[0] == '`' && n > 0 && n + 1 < |s| && s[n + 1] == '`' {
        p := 0;
        IdHere(s, n);
      } else {
        p, n := IdsAre(s[1..]);
        IdsLater(s, p, n);
        p := p + 1;
      }
    }
  }

  lemma IdsLater(s: string, q: nat, n: nat)
    requires s != "" && NextId(s[1..], q, n)
    requires var n := Run(s[1..], IsDigit); !(s[0] == '`' && n > 0 && n + 1 < |s| && s[n + 1] == '`')
    ensures NextId(s, q + 1, n)
  {
    NoneTicked(s, q);
    NoIdHere(s);
    if q <= |s[1..]| {
      IdLater(s, s[1..], q, n);
    }
  }

  lemma NoneTicked(s: string, q: nat)
    requires s != "" && forall k | 0 <= k < q :: !IsTickedHere(s[1..], k)
    requires var n := Run(s[1..], IsDigit); !(s[0] == '`' && n > 0 && n + 1 < |s| && s[n + 1] == '`')
    ensures forall k | 0 <= k < q + 1 :: !IsTickedHere(s, k)
  {
    TickedHere(s);
    TickedBehind(s);
  }

  lemma IdHere(s: string, n: nat)
    requires s != "" && n == Run(s[1..], IsDigit) && s[0] == '`' && n > 0 && n + 1 < |s| && s[n + 1] == '`'
    ensures IsTicked(s, 0, n) && IsNext(Ids(s), s[1..n + 1], Ids(s[n + 2..]))
  {
    TickedHere(s);
    assert s[1..][..n] == s[1..n + 1];
    assert forall i | 0 <= i < n :: s[1..n + 1][i] == s[1..][i];
  }

  lemma NoIdHere(s: string)
    requires s != "" && var n := Run(s[1..], IsDigit); !(s[0] == '`' && n > 0 && n + 1 < |s| && s[n + 1] == '`')
    ensures Ids(s) == Ids(s[1..])
  {
  }

  lemma IdLater(s: string, t: string, q: nat, n: nat)
    requires s != "" && t == s[1..] && IsTicked(t, q, n)
    ensures IsTicked(s, q + 1, n) && t[q + n + 2..] == s[q + n + 3..] && t[q + 1..q + n + 1] == s[q + 2..q + n + 2]
  {
    TickedMoved(s, q + 1, n);
  }

  lemma TickedBehind(s: string)
    requires s != ""
    ensures forall k | k > 0 :: IsTickedHere(s, k) <==> IsTickedHere(s[1..], k - 1)
  {
    forall k, n: nat | k > 0 ensures IsTicked(s, k, n) == IsTicked(s[1..], k - 1, n) {
      TickedMoved(s, k, n);
    }
    forall k | k > 0 ensures IsTickedHere(s, k) <==> IsTickedHere(s[1..], k - 1) {
      if IsTickedHere(s, k) {
        var n: nat :| n <= |s| && IsTicked(s, k, n);
        assert IsTicked(s[1..], k - 1, n);
      }
      if IsTickedHere(s[1..], k - 1) {
        var n: nat :| n <= |s[1..]| && IsTicked(s[1..], k - 1, n);
        assert IsTicked(s, k, n);
      }
    }
  }

  lemma TickedMoved(s: string, k: nat, n: nat)
    requires s != "" && k > 0
    ensures IsTicked(s, k, n) <==> IsTicked(s[1..], k - 1, n)
  {
    if IsTicked(s, k, n) {
      forall i | k - 1 < i <= k - 1 + n ensures IsDigit(s[1..][i]) {
        assert s[1..][i] == s[i + 1];
      }
    }
    if IsTicked(s[1..], k - 1, n) {
      forall i | k < i <= k + n ensures IsDigit(s[i]) {
        assert s[1..][i - 1] == s[i];
      }
    }
  }

  lemma TickedHere(s: string)
    requires s != ""
    ensures var n := Run(s[1..], IsDigit);
            IsTickedHere(s, 0) ==> s[0] == '`' && n > 0 && n + 1 < |s| && s[n + 1] == '`'
    ensures var n := Run(s[1..], IsDigit);
            s[0] == '`' && n > 0 && n + 1 < |s| && s[n + 1] == '`' ==> IsTicked(s, 0, n)
  {
    var n := Run(s[1..], IsDigit);
    assert forall i | 0 < i <= n :: IsDigit(s[1..][i - 1]) && s[i] == s[1..][i - 1];
    if IsTickedHere(s, 0) {
      var m: nat :| m <= |s| && IsTicked(s, 0, m);
      assert forall i | 0 <= i < m :: s[1..][i] == s[i + 1];
      assert n < |s| - 1 ==> !IsDigit(s[1..][n]) && s[1..][n] == s[n + 1];
      assert s[1..][m] == s[m + 1];
      assert m == n;
    }
  }
}
