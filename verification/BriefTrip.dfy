/** Reading one rendered brief back: the patterns find exactly what was written. */
module BriefTrip {
  import opened Options
  import opened Ascii
  import opened Decimals
  import opened BriefText
  import opened BriefModel

  // ----- evidence ids ------------------------------------------------------------------

  lemma {:induction false} IdsPastPlain(t: string, u: string)
    requires '`' !in t
    ensures Ids(t + u) == Ids(u)
  {
    if t == "" {
      assert t + u == u;
    } else {
      assert t[0] in t && (t + u)[0] == t[0] && (t + u)[1..] == t[1..] + u;
      IdsPastPlain(t[1..], u);
    }
  }

  lemma IdsAtNumber(e: nat, u: string)
    ensures Ids(Ticked(e) + u) == [e] + Ids(u)
  {
    var d := Decimal(e);
    var s := Ticked(e) + u;
    Cat4("`", d, "`", u);
    assert s[1..] == d + ("`" + u);
    RunOf(d, "`" + u, IsDigit);
    assert s[|d| + 1] == '`' && s[|d| + 2..] == u;
    DecimalReadsBack(e);
  }

  lemma NoTickedNumberTail(t: string)
    requires t != "" && NoTickedNumber(t)
    ensures NoTickedNumber(t[1..])
  {
    forall i, j | 0 <= i < j - 1 && j < |t[1..]| && t[1..][i] == '`' && t[1..][j] == '`'
      ensures !AllDigits(t[1..][i + 1..j])
    {
      var a, b := i + 1, j + 1;
      assert t[a] == '`' && t[b] == '`' && t[a + 1..b] == t[1..][i + 1..j];
    }
  }

  /** A match that starts in `t` ends in `t`, when what follows `t` can end none. */
  lemma MatchIsTicked(t: string, u: string, s: string, n: nat)
    requires s == t + u && t != "" && u != "" && u[0] == ']'
    requires s[0] == '`' && 0 < n && n + 1 < |s| && s[n + 1] == '`'
    requires forall i | 0 <= i < n :: IsDigit(s[1..][i])
    ensures !NoTickedNumber(t)
  {
    assert s[|t|] == ']' && s[1..][|t| - 1] == s[|t|];
    assert n + 1 < |t|;
    assert t[0] == '`' && t[n + 1] == '`';
    var d := t[0 + 1..n + 1];
    forall i | 0 <= i < |d| ensures IsDigit(d[i]) {
      assert d[i] == s[1..][i];
    }
  }

  lemma NoIdHere(t: string, u: string)
    requires t != "" && NoTickedNumber(t) && u != "" && u[0] == ']'
    ensures Ids(t + u) == Ids((t + u)[1..])
  {
    var s := t + u;
    var n := Run(s[1..], IsDigit);
    if s[0] == '`' && n > 0 && n + 1 < |s| && s[n + 1] == '`' {
      MatchIsTicked(t, u, s, n);
      assert false;
    }
  }

  lemma {:induction false} IdsPastName(t: string, u: string)
    requires NoTickedNumber(t) && u != "" && u[0] == ']'
    ensures Ids(t + u) == Ids(u)
  {
    if t == "" {
      assert t + u == u;
    } else {
      NoTickedNumberTail(t);
      NoIdHere(t, u);
      assert (t + u)[1..] == t[1..] + u;
      IdsPastName(t[1..], u);
    }
  }

  lemma IdsOfItem(names: Names, e: nat, u: string)
    requires GoodNames(names)
    ensures Ids(Item(names, e) + u) == [e] + Ids(u)
  {
    if Named(names, e) {
      assert GoodName(names[e]);
      IdsOfLink(names[e], e, u);
    } else {
      Cat3(Ticked(e), " (unresolved)", u);
      IdsAtNumber(e, " (unresolved)" + u);
      IdsPastPlain(" (unresolved)", u);
    }
  }

  lemma IdsOfLink(name: string, e: nat, u: string)
    requires GoodName(name)
    ensures Ids("[[" + name + "]] " + Ticked(e) + u) == [e] + Ids(u)
  {
    var number := Ticked(e) + u;
    Cat5("[[", name, "]] ", Ticked(e), u);
    IdsPastPlain("[[", name + ("]] " + number));
    IdsPastName(name, "]] " + number);
    IdsPastPlain("]] ", number);
    IdsAtNumber(e, u);
  }

  lemma {:induction false} IdsOfItems(names: Names, es: seq<nat>, u: string)
    requires GoodNames(names)
    ensures Ids(Items(names, es) + u) == es + Ids(u)
  {
    if es == [] {
      assert Items(names, es) + u == u;
    } else {
      var comma := if |es| == 1 then "" else ", ";
      var more := Items(names, es[1..]);
      IdsOfItems(names, es[1..], u);
      Cat4(Item(names, es[0]), comma, more, u);
      IdsOfItem(names, es[0], comma + (more + u));
      IdsPastPlain(comma, more + u);
      ConsAll(es, Ids(u));
    }
  }

  lemma ConsAll(es: seq<nat>, rest: seq<nat>)
    requires es != []
    ensures [es[0]] + (es[1..] + rest) == es + rest
  {
  }

  /** The evidence ids are read back, in order and with repeats. */
  lemma EvidenceReadsBack(names: Names, es: seq<nat>)
    requires GoodNames(names)
    ensures Ids(Items(names, es) + ".") == es
  {
    IdsOfItems(names, es, ".");
    assert Ids(".") == [] by { IdsPastPlain(".", ""); assert "." + "" == "."; }
  }

  // ----- the lines of a brief ----------------------------------------------------------

  lemma OneLineJoin(a: string, b: string)
    requires OneLine(a) && OneLine(b)
    ensures OneLine(a + b)
  {
  }

  lemma DecimalIsLine(n: nat)
    ensures OneLine(Decimal(n))
  {
  }

  lemma ItemIsLine(names: Names, e: nat)
    requires GoodNames(names)
    ensures OneLine(Item(names, e))
  {
    DecimalIsLine(e);
    OneLineJoin("`", Decimal(e));
    OneLineJoin("`" + Decimal(e), "`");
    if Named(names, e) {
      assert GoodName(names[e]);
      OneLineJoin("[[", names[e]);
      OneLineJoin("[[" + names[e], "]] ");
      OneLineJoin("[[" + names[e] + "]] ", Ticked(e));
    } else {
      OneLineJoin(Ticked(e), " (unresolved)");
    }
  }

  lemma {:induction false} ItemsAreLine(names: Names, es: seq<nat>)
    requires GoodNames(names)
    ensures OneLine(Items(names, es))
  {
    if es != [] {
      ItemIsLine(names, es[0]);
      ItemsAreLine(names, es[1..]);
    }
  }

  lemma {:induction false} NumbersAreLine(es: seq<nat>)
    ensures OneLine(Numbers(es))
  {
    if es != [] {
      DecimalIsLine(es[0]);
      NumbersAreLine(es[1..]);
    }
  }

  lemma BareWordsAreLine()
    ensures OneLine(BARE_1 + BARE_2 + BARE_3)
  {
  }

  lemma BareIsQuiet(es: seq<nat>)
    ensures Quiet(BareLine(es)) && EndsSolid(BareLine(es))
  {
    BareWordsAreLine();
    NumbersAreLine(es);
    var d, words := Decimal(|es|), BARE_1 + BARE_2 + BARE_3;
    DecimalIsLine(|es|);
    assert BareLine(es) == d + (words + (Numbers(es) + "."));
    OneLineJoin(Numbers(es), ".");
    OneLineJoin(words, Numbers(es) + ".");
    OneLineJoin(d, words + (Numbers(es) + "."));
    assert IsDigit(d[0]) && BareLine(es)[0] == d[0];
  }

  predicate EndsSolid(l: string) { l != "" && !IsSpace(l[|l| - 1]) }

  /** Blank, or ending in something visible. */
  predicate Kept(l: string) { l == "" || EndsSolid(l) }

  predicate AllKept(lines: seq<string>) { forall i | 0 <= i < |lines| :: Kept(lines[i]) }

  lemma {:induction false} RelsAreQuiet(names: Names, es: seq<nat>)
    requires GoodNames(names)
    ensures AllQuiet(Rels(names, es)) && AllKept(Rels(names, es))
  {
    if es != [] {
      RelsAreQuiet(names, es[1..]);
      if Named(names, es[0]) {
        assert GoodName(names[es[0]]);
        var l := "rel: evidence-for -> [[" + names[es[0]] + "]]";
        assert l[0] == 'r' && Quiet(l) && EndsSolid(l);
      }
    }
  }

  lemma RestIsQuiet(names: Names, b: Brief)
    requires GoodNames(names)
    ensures AllQuiet(Rest(names, b)) && AllKept(Rest(names, b))
  {
    RelsAreQuiet(names, b.evidence);
    BareIsQuiet(Unnamed(names, b.evidence));
  }

  // ----- finding the brief -------------------------------------------------------------

  lemma AnchorOf(b: Brief)
    requires Unbroken(b.cls)
    ensures Unbroken(Anchor(b))
  {
    AnchorIsId(b.title);
    var a, safe := Anchor(b), AnchorSafe(b.title);
    forall i | 0 <= i < |a| ensures !IsSpace(a[i]) && a[i] != '}' {
      assert a[i] == if i < |b.cls| then b.cls[i] else if i == |b.cls| then '-' else safe[i - |b.cls| - 1];
      assert i > |b.cls| ==> IdChar(safe[i - |b.cls| - 1]);
    }
  }

  /** What follows a title in the document. */
  function TailText(anchor: string, finding: string, after: string): string {
    " {#" + (anchor + ("}\n\n" + (finding + ("\n" + after))))
  }

  lemma TailMatches(anchor: string, finding: string, after: string)
    requires (forall i | 0 <= i < |anchor| :: NotBrace(anchor[i])) && anchor != ""
    requires finding != "" && (forall i | 0 <= i < |finding| :: InLine(finding[i]))
    ensures AfterLabel(TailText(anchor, finding, after)) == Some(Tail(anchor, finding, after))
  {
    var more := "\n" + after;
    var end := finding + more;
    RunOf(anchor, "}\n\n" + end, NotBrace);
    DropThree("}\n\n", end);
    RunOf(finding, more, InLine);
    assert more[1..] == after;
    DropThree(" {#", anchor + ("}\n\n" + end));
    var t := anchor + ("}\n\n" + end);
    assert t[|anchor| + 3..] == t[|anchor|..][3..];
    assert end[|finding| + 1..] == end[|finding|..][1..];
  }

  lemma DropThree(p: string, s: string)
    requires |p| == 3
    ensures p <= p + s && (p + s)[3..] == s
  {
  }

  /** A brace inside the title cannot close the anchor: no blank line follows it. */
  lemma BraceInTitle(t: string, tail: string, j: nat)
    requires OneLine(t) && j < |t| && t[j] == '}' && tail != "" && tail[0] != '\n'
    ensures AfterLabel(" {#" + (t + tail)).None?
  {
    var u := t + tail;
    DropThree(" {#", u);
    var n := Run(u, NotBrace);
    assert u[j] == t[j] && u[|t|] == tail[0];
    assert n <= j;
    assert n + 1 < |t| ==> u[n + 1] == t[n + 1];
    assert u[n..][1] == u[n + 1];
    NoPrefix("}\n\n", u[n..], 1);
  }

  /** Where the title goes on, nothing matches. */
  lemma TitleGoesOn(t: string, tail: string)
    requires OneLine(t) && t != "" && tail != "" && tail[0] == ' '
    requires " {#" <= t ==> exists j :: 3 <= j < |t| && t[j] == '}'
    ensures AfterLabel(t + tail).None?
  {
    var s := t + tail;
    if " {#" <= t {
      var j :| 3 <= j < |t| && t[j] == '}';
      var u := t[3..];
      assert t == " {#" + u && u[j - 3] == t[j];
      Cat3(" {#", u, tail);
      BraceInTitle(u, tail, j - 3);
    } else if |t| < 3 {
      assert s[|t|] == tail[0];
      NoPrefix(" {#", s, |t|);
    } else {
      assert s[..3] == t[..3];
    }
  }

  /** The scanner stops at the first place where the title seems to end. */
  lemma {:induction false} ScanStops(title: string, i: nat, anchor: string, finding: string, after: string)
    requires OneLine(title) && i <= |title| && Unbroken(anchor) && finding != "" && OneLine(finding)
    ensures var c := Cut(title, i);
            ScanLabel(title + TailText(anchor, finding, after), i)
              == Some((title[..c], Tail(Swallowed(title, c) + anchor, finding, after)))
    decreases |title| - i
  {
    var tail := TailText(anchor, finding, after);
    AtTitle(title, tail, i);
    if i == |title| || Opens(title, i) {
      TitleEnds(title, i, anchor, finding, after);
    } else {
      TitleEndsLater(title, i);
      TitleGoesOn(title[i..], tail);
      ScanStops(title, i + 1, anchor, finding, after);
    }
  }

  lemma AtTitle(title: string, tail: string, i: nat)
    requires i <= |title|
    ensures (title + tail)[i..] == title[i..] + tail && (title + tail)[..i] == title[..i]
  {
  }

  lemma TitleEnds(title: string, i: nat, anchor: string, finding: string, after: string)
    requires Unbroken(anchor) && finding != "" && OneLine(finding)
    requires i <= |title| && (i < |title| ==> Opens(title, i))
    ensures AfterLabel(title[i..] + TailText(anchor, finding, after))
      == Some(Tail(Swallowed(title, i) + anchor, finding, after))
  {
    var inner, tail := Swallowed(title, i), TailText(anchor, finding, after);
    if i == |title| {
      assert title[i..] + tail == tail && inner + anchor == anchor;
    } else {
      OpenedTail(title, i, anchor, finding, after);
    }
    AnchorFits(inner, anchor, finding);
    TailMatches(inner + anchor, finding, after);
  }

  /** Title text that ends up in the anchor when the title is cut short. */
  function Swallowed(title: string, c: nat): string
    requires c <= |title| && (c < |title| ==> Opens(title, c))
  {
    if c == |title| then ""
    else
      assert 3 <= |title[c..]|;
      title[c + 3..] + " {#"
  }

  lemma AnchorFits(inner: string, anchor: string, finding: string)
    requires (forall i | 0 <= i < |inner| :: inner[i] != '}') && Unbroken(anchor) && OneLine(finding)
    ensures (forall i | 0 <= i < |inner + anchor| :: NotBrace((inner + anchor)[i])) && inner + anchor != ""
    ensures forall i | 0 <= i < |finding| :: InLine(finding[i])
  {
    forall i | 0 <= i < |inner + anchor| ensures NotBrace((inner + anchor)[i]) {
      assert (inner + anchor)[i] == if i < |inner| then inner[i] else anchor[i - |inner|];
    }
  }

  lemma OpenedTail(title: string, i: nat, anchor: string, finding: string, after: string)
    requires i < |title| && Opens(title, i)
    ensures title[i..] + TailText(anchor, finding, after) == TailText(Swallowed(title, i) + anchor, finding, after)
    ensures forall j | 0 <= j < |Swallowed(title, i)| :: Swallowed(title, i)[j] != '}'
  {
    assert 3 <= |title[i..]|;
    var u := title[i + 3..];
    var more := "}\n\n" + (finding + ("\n" + after));
    assert title[i..] == " {#" + u;
    Cat4(" {#", u, " {#", anchor + more);
    Cat3(u, " {#", anchor);
    Cat4(u, " {#", anchor, more);
    Cat3(" {#", u, " {#" + (anchor + more));
    assert forall j | 0 <= j < |u| :: u[j] == title[i + 3 + j];
  }

  lemma TitleEndsLater(title: string, i: nat)
    requires i < |title| && !Opens(title, i)
    ensures " {#" <= title[i..] ==> exists j :: 3 <= j < |title[i..]| && title[i..][j] == '}'
  {
    if " {#" <= title[i..] {
      var j :| i + 3 <= j < |title| && title[j] == '}';
      assert title[i..][j - i] == '}';
    }
  }

  /** The evidence line is the first one after the finding. */
  lemma FindsEvidence(n: nat, items: string, rest: string)
    requires OneLine(items) && items != ""
    ensures FindEvidence("\n" + ("Evidence (" + Decimal(n) + "): " + items + ("\n" + rest)), true) == Some((items, "\n" + rest))
  {
    var line := "Evidence (" + Decimal(n) + "): " + items + ("\n" + rest);
    var s := "\n" + line;
    assert s[0] == '\n' && s[1..] == line;
    NoPrefix("Evidence (", s, 0);
    EvidenceIsRead(n, items, rest);
  }

  lemma EvidenceIsRead(n: nat, items: string, rest: string)
    requires OneLine(items) && items != ""
    ensures EvidenceLine("Evidence (" + Decimal(n) + "): " + items + ("\n" + rest)) == Some((items, "\n" + rest))
  {
    var d, more := Decimal(n), items + ("\n" + rest);
    var t := d + ("): " + more);
    Cat5("Evidence (", d, "): ", items, "\n" + rest);
    RunOf(d, "): " + more, IsDigit);
    DropThree("): ", more);
    assert t[|d| + 3..] == t[|d|..][3..];
    forall i | 0 <= i < |items| ensures InLine(items[i]) {
    }
    RunOf(items, "\n" + rest, InLine);
    EvidenceParts("Evidence (" + d + "): " + items + ("\n" + rest), t, |d|, more, |items|);
  }

  lemma EvidenceParts(s: string, t: string, n: nat, u: string, k: nat)
    requires s == "Evidence (" + t && n == Run(t, IsDigit) && 0 < n && "): " <= t[n..] && t[n + 3..] == u
    requires k == Run(u, InLine) && 0 < k
    ensures EvidenceLine(s) == Some((u[..k], u[k..]))
  {
    assert "Evidence (" == s[..10] && s[10..] == t;
  }

  /** What the patterns recover from one brief. */
  function Recovered(names: Names, b: Brief): Found
    requires b.title != ""
  {
    var c := Cut(b.title, 1);
    Found(b.title[..c], Swallowed(b.title, c) + Anchor(b), b.finding, Some(Items(names, b.evidence) + "."))
  }

  lemma FiveLines(h: string, f: string, ev: string, rest: string)
    ensures Text([h, "", f, "", ev]) + rest == h + ("\n\n" + (f + ("\n" + ("\n" + (ev + ("\n" + rest))))))
  {
    var t5 := Text([ev]);
    var t4 := Text(["", ev]);
    var t3 := Text([f, "", ev]);
    var t2 := Text(["", f, "", ev]);
    LinesApart(h, ["", f, "", ev]);
    LinesApart("", [f, "", ev]);
    LinesApart(f, ["", ev]);
    LinesApart("", [ev]);
    LinesApart(ev, []);
    Cat4(h, "\n", t2, rest);
    Cat3("\n", t3, rest);
    Cat4(f, "\n", t4, rest);
    Cat3("\n", t5, rest);
    Cat3(ev, "\n", rest);
    Cat3("\n", "\n", t3 + rest);
  }

  lemma LinesApart(l: string, more: seq<string>)
    ensures Text([l] + more) == l + "\n" + Text(more)
    ensures l == "" ==> Text([l] + more) == "\n" + Text(more)
    ensures more == [] ==> Text([l]) == l + "\n"
  {
    assert ([l] + more)[1..] == more;
    assert more == [] ==> [l] + more == [l];
    assert l == "" ==> l + "\n" == "\n";
    assert more == [] ==> l + "\n" + Text(more) == l + "\n";
  }

  lemma HeadingOf(b: Brief, more: string)
    ensures Heading(b) + more == "### " + (b.title + (" {#" + (Anchor(b) + ("}" + more))))
  {
    Cat5("### ", b.title, " {#", Anchor(b), "}");
    Cat3("### ", b.title + (" {#" + (Anchor(b) + "}")), more);
    Cat3(b.title, " {#" + (Anchor(b) + "}"), more);
    Cat3(" {#", Anchor(b) + "}", more);
    Cat3(Anchor(b), "}", more);
  }

  lemma CoreText(names: Names, b: Brief, rest: string)
    ensures Text(Core(names, b)) + rest
      == "### " + (b.title + TailText(Anchor(b), b.finding, "\n" + (EvidenceText(names, b) + ("\n" + rest))))
  {
    var ev := EvidenceText(names, b);
    var more := b.finding + ("\n" + ("\n" + (ev + ("\n" + rest))));
    FiveLines(Heading(b), b.finding, ev, rest);
    HeadingOf(b, "\n\n" + more);
    Cat3("}", "\n\n", more);
    assert "}" + "\n\n" == "}\n\n";
  }

  /** The lines of one brief match once, as that brief, and the search goes on behind them. */
  lemma CoreIsFound(names: Names, b: Brief, rest: string)
    requires GoodNames(names) && Readable(b)
    ensures FindAll(Text(Core(names, b)) + rest, true) == [Recovered(names, b)] + FindAll(rest, true)
  {
    var items := Items(names, b.evidence) + ".";
    var after := "\n" + (EvidenceText(names, b) + ("\n" + rest));
    var body := b.title + TailText(Anchor(b), b.finding, after);
    CoreText(names, b, rest);
    AnchorOf(b);
    ScanStops(b.title, 1, Anchor(b), b.finding, after);
    ItemsAreLine(names, b.evidence);
    OneLineJoin(Items(names, b.evidence), ".");
    EvidenceTextIs(names, b, rest);
    FindsEvidence(|b.evidence|, items, rest);
    MatchIs("### " + body, body, Cut(b.title, 1), Recovered(names, b), after, "\n" + rest);
    assert ("\n" + rest)[1..] == rest;
  }

  lemma EvidenceTextIs(names: Names, b: Brief, rest: string)
    ensures EvidenceText(names, b) + ("\n" + rest)
      == "Evidence (" + Decimal(|b.evidence|) + "): " + (Items(names, b.evidence) + ".") + ("\n" + rest)
  {
    Cat3("Evidence (" + Decimal(|b.evidence|) + "): ", Items(names, b.evidence), ".");
  }

  lemma MatchIs(s: string, body: string, c: nat, f: Found, after: string, rest: string)
    requires s == "### " + body && 1 <= |body| && c <= |body| && f.title == body[..c]
    requires ScanLabel(body, 1) == Some((f.title, Tail(f.anchor, f.finding, after)))
    requires f.evidence.Some? && FindEvidence(after, true) == Some((f.evidence.value, rest))
    ensures MatchAt(s) == Some((f, rest, false))
    ensures FindAll(s, true) == [f] + FindAll(rest, false)
  {
    assert "### " == s[..4] && s[4..] == body;
  }
}
