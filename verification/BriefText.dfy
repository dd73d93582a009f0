/** The patterns that read a brief index back, as scanners over the characters of the document. */
module BriefText {
  import opened Options
  import opened Ascii
  import opened Decimals

  predicate InLine(c: char) { c != '\n' }

  predicate NotBrace(c: char) { c != '}' }

  predicate NotSpace(c: char) { !IsSpace(c) }

  /** What `str.splitlines` does not break at. */
  predicate NotBreak(c: char) { !(10 as char <= c <= 13 as char || 28 as char <= c <= 30 as char) }

  /** How far `p` holds from the start: a greedy `[...]*`. */
  function Run(s: string, p: char -> bool): (n: nat)
    ensures n <= |s| && (forall i | 0 <= i < n :: p(s[i])) && (n < |s| ==> !p(s[n]))
  {
    if s != "" && p(s[0]) then 1 + Run(s[1..], p) else 0
  }

  // ----- one brief ---------------------------------------------------------------------

  datatype Found = Found(title: string, anchor: string, finding: string, evidence: Option<string>)
  datatype Tail = Tail(anchor: string, finding: string, rest: string)

  /** ` \{#([^}]+)\}\n\n([^\n]+)\n` */
  function AfterLabel(s: string): (r: Option<Tail>)
    ensures r.Some? ==> |r.value.rest| < |s|
  {
    if !(" {#" <= s) then None
    else
      var t := s[3..];
      var n := Run(t, NotBrace);
      if n == 0 || !("}\n\n" <= t[n..]) then None
      else
        var u := t[n + 3..];
        var k := Run(u, InLine);
        if k == 0 || k == |u| then None else Some(Tail(t[..n], u[..k], u[k + 1..]))
  }

  /** `(.+?)` before that, across lines too: the shortest label that lets the rest match. */
  function ScanLabel(s: string, i: nat): (r: Option<(string, Tail)>)
    requires i <= |s|
    ensures r.Some? ==> |r.value.1.rest| < |s|
    decreases |s| - i
  {
    if AfterLabel(s[i..]).Some? then Some((s[..i], AfterLabel(s[i..]).value))
    else if i == |s| then None
    else ScanLabel(s, i + 1)
  }

  /** `Evidence \(\d+\): ([^\n]+)` */
  function EvidenceLine(s: string): (r: Option<(string, string)>)
    ensures r.Some? ==> |r.value.1| < |s|
  {
    if !("Evidence (" <= s) then None
    else
      var t := s[10..];
      var n := Run(t, IsDigit);
      if n == 0 || !("): " <= t[n..]) then None
      else
        var u := t[n + 3..];
        var k := Run(u, InLine);
        if k == 0 then None else Some((u[..k], u[k..]))
  }

  /** `.*?^` before that: the first line that is one. */
  function FindEvidence(s: string, lineStart: bool): (r: Option<(string, string)>)
    ensures r.Some? ==> |r.value.1| < |s|
    decreases |s|
  {
    if lineStart && EvidenceLine(s).Some? then EvidenceLine(s)
    else if s == "" then None
    else FindEvidence(s[1..], s[0] == '\n')
  }

  /** The whole pattern at a line's start: what it found, what is left, and whether that starts a line. */
  function MatchAt(s: string): (r: Option<(Found, string, bool)>)
    ensures r.Some? ==> |r.value.1| < |s|
  {
    if !("### " <= s) || |s| == 4 then None
    else
      var l := ScanLabel(s[4..], 1);
      if l.None? then None
      else
        var (title, t) := l.value;
        var e := FindEvidence(t.rest, true);
        if e.None? then Some((Found(title, t.anchor, t.finding, None), t.rest, true))
        else Some((Found(title, t.anchor, t.finding, Some(e.value.0)), e.value.1, false))
  }

  /** `finditer` */
  function FindAll(s: string, lineStart: bool): seq<Found>
    decreases |s|
  {
    var m := if lineStart then MatchAt(s) else None;
    if m.Some? then [m.value.0] + FindAll(m.value.1, m.value.2)
    else if s == "" then []
    else FindAll(s[1..], s[0] == '\n')
  }

  // ----- sections, evidence ids --------------------------------------------------------

  /** `re.split(r"^## ", s, flags=re.M)` */
  function Split(s: string, lineStart: bool): (r: seq<string>)
    ensures r != []
    decreases |s|
  {
    if lineStart && "## " <= s then [""] + Split(s[3..], false)
    else if s == "" then [""]
    else Onto([s[0]], Split(s[1..], s[0] == '\n'))
  }

  function Onto(front: string, pieces: seq<string>): (r: seq<string>)
    requires pieces != []
    ensures r != []
  {
    [front + pieces[0]] + pieces[1..]
  }

  /** `^(\S+) \{#(\S+)\}` on the first line of a section. */
  function HeadClass(section: string): Option<string> {
    var head := section[..Run(section, NotBreak)];
    var n := Run(head, NotSpace);
    if n == 0 || !(" {#" <= head[n..]) then None
    else
      var t := head[n + 3..];
      var r := t[..Run(t, NotSpace)];
      if exists j :: 1 <= j < |r| && r[j] == '}' then Some(head[..n]) else None
  }

  /** "`(\d+)`", every one */
  function Ids(s: string): seq<nat>
    decreases |s|
  {
    if s == "" then []
    else
      var n := Run(s[1..], IsDigit);
      if s[0] == '`' && n > 0 && n + 1 < |s| && s[n + 1] == '`' then
        assert forall i | 0 <= i < n :: s[1..][..n][i] == s[1..][i];
        [Value(s[1..][..n])] + Ids(s[n + 2..])
      else Ids(s[1..])
  }

  // ----- what the scanners make of whole lines -----------------------------------------

  predicate OneLine(s: string) { forall i | 0 <= i < |s| :: s[i] != '\n' }

  function Text(lines: seq<string>): string {
    if lines == [] then "" else lines[0] + "\n" + Text(lines[1..])
  }

  lemma RunOf(a: string, b: string, p: char -> bool)
    requires (forall i | 0 <= i < |a| :: p(a[i])) && (b == "" || !p(b[0]))
    ensures Run(a + b, p) == |a| && (a + b)[..|a|] == a && (a + b)[|a|..] == b
  {
    var s := a + b;
    assert forall i | 0 <= i < |a| :: s[i] == a[i];
    assert b != "" ==> s[|a|] == b[0];
  }

  lemma Cat3(a: string, b: string, c: string)
    ensures a + b + c == a + (b + c)
  {
  }

  lemma Cat4(a: string, b: string, c: string, d: string)
    ensures a + b + c + d == a + (b + (c + d))
  {
    Cat3(a, b, c);
    Cat3(a, b + c, d);
    Cat3(b, c, d);
  }

  lemma Cat5(a: string, b: string, c: string, d: string, e: string)
    ensures a + b + c + d + e == a + (b + (c + (d + e)))
  {
    Cat4(a, b, c, d);
    Cat3(a, b + (c + d), e);
    Cat3(b, c + d, e);
    Cat3(c, d, e);
  }

  lemma NoPrefix(p: string, s: string, i: nat)
    requires i < |p| && (i < |s| ==> s[i] != p[i])
    ensures !(p <= s)
  {
  }

  lemma {:induction false} TextAppend(a: seq<string>, b: seq<string>)
    ensures Text(a + b) == Text(a) + Text(b)
  {
    if a == [] {
      assert a + b == b;
    } else {
      assert (a + b)[1..] == a[1..] + b;
      TextAppend(a[1..], b);
    }
  }

  /** The rest of a line holds no match. */
  lemma {:induction false} FindInLine(l: string, rest: string)
    requires OneLine(l)
    ensures FindAll(l + "\n" + rest, false) == FindAll(rest, true)
  {
    var s := l + "\n" + rest;
    if l == "" {
      assert s[1..] == rest;
    } else {
      assert s[1..] == l[1..] + "\n" + rest;
      FindInLine(l[1..], rest);
    }
  }

  /** A prefix without a line break lies within the line. */
  lemma PrefixInLine(p: string, l: string, rest: string)
    requires OneLine(p) && p <= l + "\n" + rest
    ensures p <= l
  {
    var s := l + "\n" + rest;
    assert forall i | 0 <= i < |p| :: p[i] == s[i];
    assert s[|l|] == '\n';
  }

  lemma FindPastLine(l: string, rest: string)
    requires OneLine(l) && !("### " <= l)
    ensures FindAll(l + "\n" + rest, true) == FindAll(rest, true)
  {
    var s := l + "\n" + rest;
    if "### " <= s {
      PrefixInLine("### ", l, rest);
    }
    assert s[1..] == if l == "" then rest else l[1..] + "\n" + rest;
    if l != "" {
      FindInLine(l[1..], rest);
    }
  }

  predicate Quiet(l: string) { OneLine(l) && !("### " <= l) && !("## " <= l) }

  predicate AllQuiet(lines: seq<string>) { forall i | 0 <= i < |lines| :: Quiet(lines[i]) }

  lemma {:induction false} FindPastLines(lines: seq<string>, rest: string)
    requires AllQuiet(lines)
    ensures FindAll(Text(lines) + rest, true) == FindAll(rest, true)
  {
    if lines == [] {
      assert Text(lines) + rest == rest;
    } else {
      assert Quiet(lines[0]);
      assert Text(lines) + rest == lines[0] + "\n" + (Text(lines[1..]) + rest);
      FindPastLine(lines[0], Text(lines[1..]) + rest);
      FindPastLines(lines[1..], rest);
    }
  }

  lemma OntoOnto(a: string, b: string, pieces: seq<string>)
    requires pieces != []
    ensures Onto(a, Onto(b, pieces)) == Onto(a + b, pieces)
  {
    assert a + (b + pieces[0]) == a + b + pieces[0];
  }

  lemma {:induction false} SplitInLine(l: string, rest: string)
    requires OneLine(l)
    ensures Split(l + "\n" + rest, false) == Onto(l + "\n", Split(rest, true))
  {
    var s := l + "\n" + rest;
    if l == "" {
      assert s[1..] == rest && [s[0]] == l + "\n";
    } else {
      assert s[1..] == l[1..] + "\n" + rest;
      SplitInLine(l[1..], rest);
      OntoOnto([l[0]], l[1..] + "\n", Split(rest, true));
      assert [l[0]] + (l[1..] + "\n") == l + "\n";
    }
  }

  /** A line that opens no section is kept whole. */
  lemma SplitPastLine(l: string, rest: string)
    requires OneLine(l) && !("## " <= l)
    ensures Split(l + "\n" + rest, true) == Onto(l + "\n", Split(rest, true))
  {
    var s := l + "\n" + rest;
    if "## " <= s {
      PrefixInLine("## ", l, rest);
    }
    SplitInLine(l, rest);
  }

  /** A heading starts a piece of its own. */
  lemma SplitAtHeading(l: string, rest: string)
    requires OneLine(l)
    ensures Split("## " + l + "\n" + rest, true) == [""] + Onto(l + "\n", Split(rest, true))
  {
    var s := "## " + l + "\n" + rest;
    assert s[3..] == l + "\n" + rest && "## " == s[..3];
    SplitInLine(l, rest);
  }

  predicate OpensNoSection(lines: seq<string>) {
    forall i | 0 <= i < |lines| :: OneLine(lines[i]) && !("## " <= lines[i])
  }

  lemma {:induction false} SplitPastLines(lines: seq<string>, rest: string)
    requires OpensNoSection(lines)
    ensures Split(Text(lines) + rest, true) == Onto(Text(lines), Split(rest, true))
  {
    var r := Split(rest, true);
    if lines == [] {
      assert Text(lines) + rest == rest && Text(lines) + r[0] == r[0];
    } else {
      var more := Text(lines[1..]);
      assert Text(lines) + rest == lines[0] + "\n" + (more + rest);
      SplitPastLine(lines[0], more + rest);
      SplitPastLines(lines[1..], rest);
      OntoOnto(lines[0] + "\n", more, r);
    }
  }
}
