/** The whole index document: written, read back, and written again. */
module BriefDoc {
  import opened Options
  import opened Ascii
  import opened Decimals
  import opened BriefText
  import opened BriefModel
  import opened BriefTrip
  import opened BriefOrder

  // ----- the groups --------------------------------------------------------------------

  datatype Group = Group(cls: string, briefs: seq<Brief>)

  const CLASS_ORDER: seq<string> := ["corroborated", "contradicted", "orphan-concept", "singleton"]

  /** Those of one class, in order. */
  function OfClass(items: seq<Brief>, cls: string): (r: seq<Brief>)
    ensures forall b | b in r :: b.cls == cls && b in items
  {
    if items == [] then [] else (if items[0].cls == cls then [items[0]] else []) + OfClass(items[1..], cls)
  }

  /** The classes outside the known order, in the order they first occur. */
  function OtherClasses(items: seq<Brief>): seq<string> {
    if items == [] then []
    else
      var front := OtherClasses(items[..|items| - 1]);
      var cls := items[|items| - 1].cls;
      if cls in CLASS_ORDER || cls in front then front else front + [cls]
  }

  function InsertName(x: string, s: seq<string>): seq<string> {
    if s == [] || Le(x, s[0]) then [x] + s else [s[0]] + InsertName(x, s[1..])
  }

  function SortNames(s: seq<string>): seq<string> { if s == [] then [] else InsertName(s[0], SortNames(s[1..])) }

  function Classes(items: seq<Brief>): seq<string> { CLASS_ORDER + SortNames(OtherClasses(items)) }

  /** The groups that are written: classes without a brief are passed over. */
  function Groups(items: seq<Brief>, classes: seq<string>): seq<Group> {
    if classes == [] then []
    else
      var g := OfClass(items, classes[0]);
      (if g == [] then [] else [Group(classes[0], g)]) + Groups(items, classes[1..])
  }

  function Flat(gs: seq<Group>): seq<Brief> { if gs == [] then [] else gs[0].briefs + Flat(gs[1..]) }

  /** The briefs in the order of the document. */
  function Listed(briefs: seq<Brief>): seq<Brief> { Flat(Groups(Sort(briefs), Classes(Sort(briefs)))) }

  // ----- the document ------------------------------------------------------------------

  /** Front matter, title and introduction for a number of briefs. */
  type Preface = nat -> seq<string>

  function Head(cls: string): string { cls + " {#" + cls + "}" }

  function AllBriefLines(names: Names, bs: seq<Brief>): seq<string> {
    if bs == [] then [] else BriefLines(names, bs[0]) + AllBriefLines(names, bs[1..])
  }

  function CountLine(n: nat): string { Decimal(n) + " brief(s)." }

  function Body(names: Names, g: Group): seq<string> {
    ["", CountLine(|g.briefs|), ""] + AllBriefLines(names, g.briefs)
  }

  function GroupLines(names: Names, g: Group): seq<string> { ["## " + Head(g.cls)] + Body(names, g) }

  function AllLines(names: Names, gs: seq<Group>): seq<string> {
    if gs == [] then [] else GroupLines(names, gs[0]) + AllLines(names, gs[1..])
  }

  /** `"\n".join` */
  function Join(lines: seq<string>): string {
    if lines == [] then "" else if |lines| == 1 then lines[0] else lines[0] + "\n" + Join(lines[1..])
  }

  function Closed(lines: seq<string>): string { Rstrip(Join(lines)) + "\n" }

  /** `render_gmd` */
  function Render(briefs: seq<Brief>, names: Names, preface: Preface): string {
    var items := Sort(briefs);
    Closed(preface(|items|) + AllLines(names, Groups(items, Classes(items))))
  }

  // ----- reading -----------------------------------------------------------------------

  function ParseEvidence(line: Option<string>): seq<nat> { if line.None? then [] else Ids(line.value) }

  function AsParsed(cls: string, f: Found): Parsed {
    Parsed(cls, Strip(f.title), Strip(f.finding), f.anchor, ParseEvidence(f.evidence))
  }

  function AllParsed(cls: string, fs: seq<Found>): seq<Parsed> {
    if fs == [] then [] else [AsParsed(cls, fs[0])] + AllParsed(cls, fs[1..])
  }

  /** One section; an empty one has no first line, and raises. */
  function ParseSection(section: string): Option<seq<Parsed>> {
    if section == "" then None
    else
      var cls := HeadClass(section);
      if cls.None? || cls.value == "root" then Some([]) else Some(AllParsed(cls.value, FindAll(section, true)))
  }

  function ParseSections(sections: seq<string>): Option<seq<Parsed>> {
    if sections == [] then Some([])
    else
      var first, rest := ParseSection(sections[0]), ParseSections(sections[1..]);
      if first.None? || rest.None? then None else Some(first.value + rest.value)
  }

  /** `parse_gmd` */
  function Parse(doc: string): Option<seq<Parsed>> { ParseSections(Split(doc, true)[1..]) }

  // ----- trailing blank lines ----------------------------------------------------------

  function TrimBlank(lines: seq<string>): seq<string> {
    if lines != [] && lines[|lines| - 1] == "" then TrimBlank(lines[..|lines| - 1]) else lines
  }

  /** The last line that is not blank ends in something visible. */
  predicate EndsText(lines: seq<string>) {
    TrimBlank(lines) != [] && EndsSolid(TrimBlank(lines)[|TrimBlank(lines)| - 1])
  }

  lemma TrimEnds(a: seq<string>, b: seq<string>)
    requires EndsText(b)
    ensures EndsText(a + b) && TrimBlank(a + b) == a + TrimBlank(b)
  {
    TrimAppend(a, b);
  }

  lemma {:induction false} TrimAppend(a: seq<string>, b: seq<string>)
    requires TrimBlank(b) != []
    ensures TrimBlank(a + b) == a + TrimBlank(b)
    decreases |b|
  {
    if b[|b| - 1] == "" {
      assert (a + b)[..|a + b| - 1] == a + b[..|b| - 1];
      TrimAppend(a, b[..|b| - 1]);
    }
  }

  /** What is left of quiet lines is quiet. */
  lemma {:induction false} TrimKeeps(lines: seq<string>)
    ensures TrimBlank(lines) <= lines
    ensures AllQuiet(lines) ==> AllQuiet(TrimBlank(lines))
    ensures AllKept(lines) && TrimBlank(lines) != [] ==> EndsSolid(TrimBlank(lines)[|TrimBlank(lines)| - 1])
    decreases |lines|
  {
    if lines != [] && lines[|lines| - 1] == "" {
      TrimKeeps(lines[..|lines| - 1]);
    } else if lines != [] && AllKept(lines) {
      assert Kept(lines[|lines| - 1]);
    }
  }

  lemma {:induction false} JoinMore(lines: seq<string>, l: string)
    requires lines != []
    ensures Join(lines + [l]) == Join(lines) + "\n" + l
  {
    if |lines| == 1 {
      assert lines + [l] == [lines[0], l];
      assert [lines[0], l][1..] == [l];
    } else {
      assert (lines + [l])[1..] == lines[1..] + [l];
      JoinMore(lines[1..], l);
      var j := Join(lines[1..]);
      assert lines[0] + "\n" + (j + "\n" + l) == lines[0] + "\n" + j + "\n" + l;
    }
  }

  lemma {:induction false} TextIsJoin(lines: seq<string>)
    requires lines != []
    ensures Text(lines) == Join(lines) + "\n"
  {
    if |lines| == 1 {
      assert Text(lines[1..]) == "";
    } else {
      TextIsJoin(lines[1..]);
      assert lines[0] + "\n" + (Join(lines[1..]) + "\n") == lines[0] + "\n" + Join(lines[1..]) + "\n";
    }
  }

  lemma EndsAs(a: string, l: string)
    requires EndsSolid(l)
    ensures Rstrip(a + l) == a + l
  {
    assert (a + l)[|a + l| - 1] == l[|l| - 1];
  }

  /** The stripped document is its lines without the blank ones at the end. */
  lemma {:induction false} ClosedIsText(lines: seq<string>)
    requires EndsText(lines)
    ensures Closed(lines) == Text(TrimBlank(lines))
    decreases |lines|
  {
    var n := |lines| - 1;
    var front, last := lines[..n], lines[n];
    assert lines == front + [last];
    if last == "" {
      ClosedIsText(front);
      JoinMore(front, "");
      var j := Join(front);
      assert j + "\n" + "" == j + "\n";
      assert (j + "\n")[..|j + "\n"| - 1] == j && (j + "\n")[|j|] == '\n';
      assert Rstrip(j + "\n") == Rstrip(j);
    } else {
      TextIsJoin(lines);
      if front == [] {
        assert Join(lines) == "" + last;
        EndsAs("", last);
      } else {
        JoinMore(front, last);
        EndsAs(Join(front) + "\n", last);
      }
    }
  }

  // ----- one section -------------------------------------------------------------------

  function AllRecovered(names: Names, bs: seq<Brief>): seq<Found>
    requires forall b | b in bs :: b.title != ""
  {
    if bs == [] then [] else [Recovered(names, bs[0])] + AllRecovered(names, bs[1..])
  }

  predicate AllReadable(bs: seq<Brief>) { forall b | b in bs :: Readable(b) }

  lemma BriefIsFound(names: Names, b: Brief, text: string)
    requires GoodNames(names) && Readable(b)
    ensures FindAll(Text(BriefLines(names, b)) + text, true) == [Recovered(names, b)] + FindAll(text, true)
  {
    var core, tail := Core(names, b), Rest(names, b);
    TextAppend(core, tail);
    Cat3(Text(core), Text(tail), text);
    CoreIsFound(names, b, Text(tail) + text);
    RestIsQuiet(names, b);
    FindPastLines(tail, text);
  }

  lemma {:induction false} BriefsAreFound(names: Names, bs: seq<Brief>, rest: string)
    requires GoodNames(names) && AllReadable(bs)
    ensures FindAll(Text(AllBriefLines(names, bs)) + rest, true) == AllRecovered(names, bs) + FindAll(rest, true)
  {
    if bs == [] {
      assert Text(AllBriefLines(names, bs)) + rest == rest;
    } else {
      var one, more := BriefLines(names, bs[0]), AllBriefLines(names, bs[1..]);
      TextAppend(one, more);
      Cat3(Text(one), Text(more), rest);
      BriefIsFound(names, bs[0], Text(more) + rest);
      BriefsAreFound(names, bs[1..], rest);
      OneMore(Recovered(names, bs[0]), AllRecovered(names, bs[1..]), FindAll(rest, true));
    }
  }

  lemma OneMore<T>(x: T, a: seq<T>, b: seq<T>)
    ensures [x] + (a + b) == [x] + a + b
  {
  }

  /** Blank lines at the end do not change what is found. */
  lemma {:induction false} TrimmedBriefsAreFound(names: Names, bs: seq<Brief>)
    requires GoodNames(names) && AllReadable(bs) && bs != []
    ensures EndsText(AllBriefLines(names, bs))
    ensures FindAll(Text(TrimBlank(AllBriefLines(names, bs))), true) == AllRecovered(names, bs)
  {
    var one, more := BriefLines(names, bs[0]), AllBriefLines(names, bs[1..]);
    if |bs| == 1 {
      assert one + more == one;
      LastBriefIsFound(names, bs[0], Core(names, bs[0]), Rest(names, bs[0]));
    } else {
      TrimmedBriefsAreFound(names, bs[1..]);
      TrimEnds(one, more);
      TextAppend(one, TrimBlank(more));
      BriefIsFound(names, bs[0], Text(TrimBlank(more)));
    }
  }

  lemma LastBriefIsFound(names: Names, b: Brief, core: seq<string>, tail: seq<string>)
    requires GoodNames(names) && Readable(b) && core == Core(names, b) && tail == Rest(names, b)
    ensures EndsText(core + tail)
    ensures FindAll(Text(TrimBlank(core + tail)), true) == [Recovered(names, b)]
  {
    RestIsQuiet(names, b);
    TrimKeeps(tail);
    var kept := TrimBlank(tail);
    TrimCore(names, b, tail);
    TextAppend(core, kept);
    CoreIsFound(names, b, Text(kept));
    FindPastLines(kept, "");
    assert Text(kept) + "" == Text(kept);
  }

  lemma TrimCore(names: Names, b: Brief, tail: seq<string>)
    ensures TrimBlank(Core(names, b) + tail) == Core(names, b) + TrimBlank(tail)
    ensures EndsSolid(EvidenceText(names, b))
  {
    var core := Core(names, b);
    assert EvidenceText(names, b)[|EvidenceText(names, b)| - 1] == '.';
    if TrimBlank(tail) == [] {
      TrimToFront(core, tail);
    } else {
      TrimAppend(core, tail);
    }
  }

  lemma {:induction false} TrimToFront(a: seq<string>, b: seq<string>)
    requires TrimBlank(b) == [] && a != [] && a[|a| - 1] != ""
    ensures TrimBlank(a + b) == a + []
    decreases |b|
  {
    if b == [] {
      assert a + b == a;
    } else {
      assert (a + b)[..|a + b| - 1] == a + b[..|b| - 1];
      TrimToFront(a, b[..|b| - 1]);
    }
  }

  /** The first line of a section names its class. */
  lemma HeadIsRead(cls: string, rest: string)
    requires Unbroken(cls) && cls != "###"
    ensures HeadClass(Head(cls) + "\n" + rest) == Some(cls)
    ensures OneLine(Head(cls)) && !("### " <= Head(cls))
  {
    var head := Head(cls);
    UnbrokenIsVisible(cls);
    Cat3(cls, " {#", cls + "}");
    Cat3(cls + " {#", cls, "}");
    assert head == cls + (" {#" + (cls + "}"));
    Cat3(head, "\n", rest);
    assert forall i | 0 <= i < |head| :: NotBreak(head[i]);
    RunOf(head, "\n" + rest, NotBreak);
    RunOf(cls, " {#" + (cls + "}"), NotSpace);
    DropThree(" {#", cls + "}");
    assert head[|cls| + 3..] == head[|cls|..][3..];
    var t := cls + "}";
    assert forall i | 0 <= i < |t| :: NotSpace(t[i]);
    RunOf(t, "", NotSpace);
    assert t + "" == t && t[..|t|] == t && t[|cls|] == '}';
    HeadIsNoBrief(cls);
  }

  lemma HeadIsNoBrief(cls: string)
    requires Unbroken(cls) && cls != "###"
    ensures !("### " <= Head(cls)) && OneLine(Head(cls))
  {
    var head := Head(cls);
    UnbrokenIsVisible(cls);
    Cat3(cls + " {#", cls, "}");
    assert forall i | 0 <= i < |cls| :: head[i] == cls[i];
    assert head[|cls|] == ' ';
    if |cls| < 3 {
      NoPrefix("### ", head, |cls|);
    } else if |cls| > 3 {
      assert !IsSpace(cls[3]);
      NoPrefix("### ", head, 3);
    } else {
      assert cls == [cls[0], cls[1], cls[2]];
      var j: nat := if cls[0] != '#' then 0 else if cls[1] != '#' then 1 else 2;
      NoPrefix("### ", head, j);
    }
  }

  lemma UnbrokenIsVisible(s: string)
    requires Unbroken(s)
    ensures forall i | 0 <= i < |s| :: NotSpace(s[i]) && NotBreak(s[i]) && s[i] != '\n'
  {
    forall i | 0 <= i < |s| ensures NotSpace(s[i]) && NotBreak(s[i]) && s[i] != '\n' {
      assert !IsSpace(s[i]);
    }
  }

  predicate GoodGroup(g: Group) {
    g.briefs != [] && AllReadable(g.briefs) && forall b | b in g.briefs :: b.cls == g.cls
  }

  lemma GroupIsNamed(g: Group)
    requires GoodGroup(g)
    ensures Unbroken(g.cls) && g.cls != "root" && g.cls != "###"
  {
    assert g.briefs[0] in g.briefs && Readable(g.briefs[0]);
  }

  lemma CountIsQuiet(n: nat)
    ensures AllQuiet(["", CountLine(n), ""])
  {
    var d := Decimal(n);
    DecimalIsLine(n);
    OneLineJoin(d, " brief(s).");
    assert IsDigit(d[0]) && CountLine(n)[0] == d[0];
  }

  function TrimIf(lines: seq<string>, last: bool): seq<string> { if last then TrimBlank(lines) else lines }

  lemma BodyTrims(names: Names, g: Group)
    requires GoodNames(names) && GoodGroup(g)
    ensures TrimBlank(Body(names, g)) == ["", CountLine(|g.briefs|), ""] + TrimBlank(AllBriefLines(names, g.briefs))
    ensures EndsText(Body(names, g))
  {
    TrimmedBriefsAreFound(names, g.briefs);
    TrimEnds(["", CountLine(|g.briefs|), ""], AllBriefLines(names, g.briefs));
  }

  /** Every section is read back, whether or not its blank lines at the end were stripped. */
  lemma BodyIsFound(names: Names, g: Group, last: bool)
    requires GoodNames(names) && GoodGroup(g)
    ensures FindAll(Text(TrimIf(Body(names, g), last)), true) == AllRecovered(names, g.briefs)
  {
    var count := ["", CountLine(|g.briefs|), ""];
    var lines := TrimIf(AllBriefLines(names, g.briefs), last);
    CountIsQuiet(|g.briefs|);
    if last {
      BodyTrims(names, g);
      TrimmedBriefsAreFound(names, g.briefs);
    } else {
      BriefsAreFound(names, g.briefs, "");
      assert Text(lines) + "" == Text(lines);
      assert AllRecovered(names, g.briefs) + FindAll("", true) == AllRecovered(names, g.briefs);
    }
    assert TrimIf(Body(names, g), last) == count + lines;
    TextAppend(count, lines);
    FindPastLines(count, Text(lines));
  }

  function SectionText(names: Names, g: Group, last: bool): string {
    Head(g.cls) + "\n" + Text(TrimIf(Body(names, g), last))
  }

  lemma SectionReadsBack(names: Names, g: Group, last: bool)
    requires GoodNames(names) && GoodGroup(g)
    ensures ParseSection(SectionText(names, g, last)) == Some(AllParsed(g.cls, AllRecovered(names, g.briefs)))
  {
    var text := Text(TrimIf(Body(names, g), last));
    GroupIsNamed(g);
    HeadIsRead(g.cls, text);
    BodyIsFound(names, g, last);
    FindPastLine(Head(g.cls), text);
  }

  // ----- the sections of the document --------------------------------------------------

  function SectionTexts(names: Names, gs: seq<Group>): seq<string> {
    if gs == [] then [] else [SectionText(names, gs[0], |gs| == 1)] + SectionTexts(names, gs[1..])
  }

  function Headed(sections: seq<string>): string {
    if sections == [] then "" else "## " + sections[0] + Headed(sections[1..])
  }

  predicate GoodGroups(gs: seq<Group>) { forall g | g in gs :: GoodGroup(g) }

  lemma {:induction false} LinesAreSections(names: Names, gs: seq<Group>)
    requires GoodNames(names) && GoodGroups(gs) && gs != []
    ensures EndsText(AllLines(names, gs))
    ensures Text(TrimBlank(AllLines(names, gs))) == Headed(SectionTexts(names, gs))
  {
    var g, more := gs[0], AllLines(names, gs[1..]);
    var lines := GroupLines(names, g);
    assert g in gs && GoodGroup(g);
    if |gs| == 1 {
      assert lines + more == lines;
      LastGroup(names, g);
      assert SectionTexts(names, gs) == [SectionText(names, g, true)];
    } else {
      LinesAreSections(names, gs[1..]);
      TrimEnds(lines, more);
      TextAppend(lines, TrimBlank(more));
      HeadedSection(g.cls, Body(names, g));
    }
  }

  lemma LastGroup(names: Names, g: Group)
    requires GoodNames(names) && GoodGroup(g)
    ensures EndsText(GroupLines(names, g))
    ensures Text(TrimBlank(GroupLines(names, g))) == Headed([SectionText(names, g, true)])
  {
    BodyTrims(names, g);
    TrimEnds(["## " + Head(g.cls)], Body(names, g));
    HeadedSection(g.cls, TrimBlank(Body(names, g)));
    LastHeaded(SectionText(names, g, true));
  }

  lemma LastHeaded(section: string)
    ensures Headed([section]) == "## " + section
  {
    assert [section][1..] == [];
  }

  lemma HeadedSection(cls: string, body: seq<string>)
    ensures Text(["## " + Head(cls)] + body) == "## " + (Head(cls) + "\n" + Text(body))
  {
    LinesApart("## " + Head(cls), body);
    Cat4("## ", Head(cls), "\n", Text(body));
    Cat3(Head(cls), "\n", Text(body));
  }

  lemma CoreOpensNothing(names: Names, b: Brief)
    requires GoodNames(names) && Readable(b)
    ensures OpensNoSection(Core(names, b))
  {
    AnchorOf(b);
    UnbrokenIsVisible(Anchor(b));
    Cat5("### ", b.title, " {#", Anchor(b), "}");
    NoPrefix("## ", Heading(b), 2);
    NoPrefix("## ", EvidenceText(names, b), 0);
    ItemsAreLine(names, b.evidence);
    OneLineJoin("Evidence (", Decimal(|b.evidence|));
    OneLineJoin("Evidence (" + Decimal(|b.evidence|), "): ");
    OneLineJoin("Evidence (" + Decimal(|b.evidence|) + "): ", Items(names, b.evidence));
    OneLineJoin("Evidence (" + Decimal(|b.evidence|) + "): " + Items(names, b.evidence), ".");
    OneLineJoin("### ", b.title);
    OneLineJoin("### " + b.title, " {#");
    OneLineJoin("### " + b.title + " {#", Anchor(b));
    OneLineJoin("### " + b.title + " {#" + Anchor(b), "}");
  }

  lemma {:induction false} BriefsOpenNothing(names: Names, bs: seq<Brief>)
    requires GoodNames(names) && AllReadable(bs)
    ensures OpensNoSection(AllBriefLines(names, bs))
  {
    if bs != [] {
      CoreOpensNothing(names, bs[0]);
      RestIsQuiet(names, bs[0]);
      QuietOpensNothing(Rest(names, bs[0]));
      BriefsOpenNothing(names, bs[1..]);
    }
  }

  lemma QuietOpensNothing(lines: seq<string>)
    requires AllQuiet(lines)
    ensures OpensNoSection(lines)
  {
    forall i | 0 <= i < |lines| ensures OneLine(lines[i]) && !("## " <= lines[i]) {
      assert Quiet(lines[i]);
    }
  }

  lemma BodyOpensNothing(names: Names, g: Group, last: bool)
    requires GoodNames(names) && GoodGroup(g)
    ensures OpensNoSection(TrimIf(Body(names, g), last))
  {
    BriefsOpenNothing(names, g.briefs);
    CountIsQuiet(|g.briefs|);
    QuietOpensNothing(["", CountLine(|g.briefs|), ""]);
    TrimKeeps(Body(names, g));
  }

  /** Splitting at the headings gives the sections back. */
  lemma {:induction false} SectionsComeApart(names: Names, gs: seq<Group>)
    requires GoodNames(names) && GoodGroups(gs)
    ensures Split(Headed(SectionTexts(names, gs)), true) == [""] + SectionTexts(names, gs)
  {
    if gs != [] {
      var g, last := gs[0], |gs| == 1;
      var body, texts := TrimIf(Body(names, g), last), SectionTexts(names, gs[1..]);
      assert g in gs && GoodGroup(g);
      GroupIsNamed(g);
      HeadIsRead(g.cls, "");
      BodyOpensNothing(names, g, last);
      SectionsComeApart(names, gs[1..]);
      OneSectionApart(Head(g.cls), body, texts);
    }
  }

  lemma OneSectionApart(head: string, body: seq<string>, texts: seq<string>)
    requires OneLine(head) && OpensNoSection(body) && Split(Headed(texts), true) == [""] + texts
    ensures Split("## " + (head + "\n" + Text(body)) + Headed(texts), true) == [""] + ([head + "\n" + Text(body)] + texts)
  {
    var rest := Text(body) + Headed(texts);
    Cat4("## ", head + "\n", Text(body), Headed(texts));
    Cat3("## ", head + "\n" + Text(body), Headed(texts));
    Cat3(head + "\n", Text(body), Headed(texts));
    Cat3("## ", head, "\n");
    Cat3("## ", head + "\n", rest);
    SplitAtHeading(head, rest);
    SplitPastLines(body, Headed(texts));
    OntoOnto(head + "\n", Text(body), [""] + texts);
    var front := head + "\n" + Text(body);
    assert front + "" == front;
    assert Onto(front, [""] + texts) == [front] + texts;
  }
}
