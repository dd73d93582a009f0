/** `render_gmd` and `parse_gmd`: the loops, against the functions they compute. */
module Briefs {
  import opened Options
  import opened BriefText
  import opened BriefModel
  import opened BriefOrder
  import opened BriefDoc

  method RenderGmd(briefs: seq<Brief>, names: Names, preface: Preface) returns (doc: string)
    ensures doc == Render(briefs, names, preface)
  {
    var items := Sort(briefs);
    var lines := preface(|items|);
    var classes := Classes(items);
    ghost var want := lines + AllLines(names, Groups(items, classes));
    assert classes[0..] == classes;
    for i := 0 to |classes|
      invariant StillToCome(names, items, classes, i, lines, want)
    {
      var group := OfClass(items, classes[i]);
      if group == [] {
        NoGroup(names, items, classes, i, lines, want);
        continue;
      }
      var more := GroupOf(names, classes[i], group);
      NextGroup(names, items, classes, i, lines, more, want);
      lines := lines + more;
    }
    NothingToCome(names, items, classes, lines, want);
    doc := Closed(lines);
  }

  /** The lines so far, with those of the classes from `i` on, make up the document. */
  predicate StillToCome(names: Names, items: seq<Brief>, classes: seq<string>, i: nat, lines: seq<string>, want: seq<string>) {
    i <= |classes| && lines + AllLines(names, Groups(items, classes[i..])) == want
  }

  lemma NoGroup(names: Names, items: seq<Brief>, classes: seq<string>, i: nat, lines: seq<string>, want: seq<string>)
    requires i < |classes| && StillToCome(names, items, classes, i, lines, want) && OfClass(items, classes[i]) == []
    ensures StillToCome(names, items, classes, i + 1, lines, want)
  {
    GroupsFrom(names, items, classes, i);
    assert [] + AllLines(names, Groups(items, classes[i + 1..])) == AllLines(names, Groups(items, classes[i + 1..]));
  }

  lemma NextGroup(names: Names, items: seq<Brief>, classes: seq<string>, i: nat, lines: seq<string>, more: seq<string>,
                  want: seq<string>)
    requires i < |classes| && StillToCome(names, items, classes, i, lines, want) && OfClass(items, classes[i]) != []
    requires more == GroupLines(names, Group(classes[i], OfClass(items, classes[i])))
    ensures StillToCome(names, items, classes, i + 1, lines + more, want)
  {
    GroupsFrom(names, items, classes, i);
    Three(lines, more, AllLines(names, Groups(items, classes[i + 1..])));
  }

  lemma NothingToCome(names: Names, items: seq<Brief>, classes: seq<string>, lines: seq<string>, want: seq<string>)
    requires StillToCome(names, items, classes, |classes|, lines, want)
    ensures lines == want
  {
    assert classes[|classes|..] == [] && lines + [] == lines;
  }

  lemma Three<T>(a: seq<T>, b: seq<T>, c: seq<T>)
    ensures a + (b + c) == a + b + c
  {
  }

  lemma GroupsFrom(names: Names, items: seq<Brief>, classes: seq<string>, i: nat)
    requires i < |classes|
    ensures var g := OfClass(items, classes[i]);
            AllLines(names, Groups(items, classes[i..]))
              == (if g == [] then [] else GroupLines(names, Group(classes[i], g))) + AllLines(names, Groups(items, classes[i + 1..]))
  {
    var g, rest := OfClass(items, classes[i]), Groups(items, classes[i + 1..]);
    assert classes[i..][1..] == classes[i + 1..];
    assert ([Group(classes[i], g)] + rest)[1..] == rest && [] + rest == rest;
    assert [] + AllLines(names, rest) == AllLines(names, rest);
  }

  method GroupOf(names: Names, cls: string, group: seq<Brief>) returns (lines: seq<string>)
    ensures lines == GroupLines(names, Group(cls, group))
  {
    lines := ["## " + Head(cls), "", CountLine(|group|), ""];
    HeadLines(names, cls, group, lines);
    assert group[0..] == group;
    for i := 0 to |group|
      invariant lines + AllBriefLines(names, group[i..]) == GroupLines(names, Group(cls, group))
    {
      var b := group[i];
      var one := BriefOf(names, b);
      LinesFrom(names, group, i);
      Three(lines, one, AllBriefLines(names, group[i + 1..]));
      lines := lines + one;
    }
    assert lines + [] == lines;
  }

  lemma HeadLines(names: Names, cls: string, group: seq<Brief>, lines: seq<string>)
    requires lines == ["## " + Head(cls), "", CountLine(|group|), ""]
    ensures lines + AllBriefLines(names, group) == GroupLines(names, Group(cls, group))
  {
    assert lines == ["## " + Head(cls)] + ["", CountLine(|group|), ""];
    Three(["## " + Head(cls)], ["", CountLine(|group|), ""], AllBriefLines(names, group));
  }

  lemma LinesFrom(names: Names, group: seq<Brief>, i: nat)
    requires i < |group|
    ensures AllBriefLines(names, group[i..]) == BriefLines(names, group[i]) + AllBriefLines(names, group[i + 1..])
  {
    assert group[i..][1..] == group[i + 1..];
  }

  function Rel(names: Names, e: nat): seq<string> {
    if Named(names, e) then ["rel: evidence-for -> [[" + names[e] + "]]"] else []
  }

  lemma RelsFrom(names: Names, es: seq<nat>, i: nat)
    requires i < |es|
    ensures Rels(names, es[i..]) == Rel(names, es[i]) + Rels(names, es[i + 1..])
  {
    assert es[i..][1..] == es[i + 1..];
  }

  method BriefOf(names: Names, b: Brief) returns (lines: seq<string>)
    ensures lines == BriefLines(names, b)
  {
    lines := BeforeRels(names, b);
    ghost var before := lines;
    assert b.evidence[0..] == b.evidence;
    for i := 0 to |b.evidence|
      invariant lines + Rels(names, b.evidence[i..]) == before + Rels(names, b.evidence)
    {
      var e := b.evidence[i];
      RelsFrom(names, b.evidence, i);
      Three(lines, Rel(names, e), Rels(names, b.evidence[i + 1..]));
      if Named(names, e) {
        lines := lines + ["rel: evidence-for -> [[" + names[e] + "]]"];
      } else {
        assert lines + [] == lines;
      }
    }
    assert lines + [] == lines;
    lines := lines + [""];
    Three(before, Rels(names, b.evidence), [""]);
    RestIs(names, b, before);
  }

  lemma RestIs(names: Names, b: Brief, before: seq<string>)
    requires before == Core(names, b)
      + ((if Unnamed(names, b.evidence) == [] then [] else [BareLine(Unnamed(names, b.evidence))]) + [""])
    ensures before + (Rels(names, b.evidence) + [""]) == BriefLines(names, b)
  {
  }

  method BeforeRels(names: Names, b: Brief) returns (lines: seq<string>)
    ensures lines == Core(names, b)
      + ((if Unnamed(names, b.evidence) == [] then [] else [BareLine(Unnamed(names, b.evidence))]) + [""])
  {
    lines := [Heading(b), "", b.finding, ""];
    var unresolved := Unnamed(names, b.evidence);
    lines := lines + [EvidenceText(names, b)];
    if unresolved != [] {
      lines := lines + [BareLine(unresolved)];
    }
    lines := lines + [""];
  }

  method ParseGmd(doc: string) returns (out: Option<seq<Parsed>>)
    ensures out == Parse(doc)
  {
    var sections := Split(doc, true)[1..];
    var found := [];
    assert sections[0..] == sections;
    AfterNothing(ParseSections(sections));
    for i := 0 to |sections|
      invariant Parse(doc) == After(found, ParseSections(sections[i..]))
    {
      var sec := sections[i];
      assert sections[i..][1..] == sections[i + 1..];
      if sec == "" {
        return None;
      }
      ghost var rest := ParseSections(sections[i + 1..]);
      var cls := HeadClass(sec);
      if cls.None? || cls.value == "root" {
        AfterMore(found, [], rest);
        assert found + [] == found;
        continue;
      }
      var more := SectionOf(cls.value, FindAll(sec, true));
      AfterMore(found, more, rest);
      found := found + more;
    }
    assert found + [] == found;
    out := Some(found);
  }

  /** What was found so far, before what is still to come. */
  function After(found: seq<Parsed>, rest: Option<seq<Parsed>>): Option<seq<Parsed>> {
    if rest.None? then None else Some(found + rest.value)
  }

  lemma AfterNothing(rest: Option<seq<Parsed>>)
    ensures After([], rest) == rest
  {
    assert rest.Some? ==> [] + rest.value == rest.value;
  }

  lemma AfterMore(found: seq<Parsed>, more: seq<Parsed>, rest: Option<seq<Parsed>>)
    ensures After(found, After(more, rest)) == After(found + more, rest)
  {
    assert rest.Some? ==> found + (more + rest.value) == found + more + rest.value;
  }

  method SectionOf(cls: string, matches: seq<Found>) returns (out: seq<Parsed>)
    ensures out == AllParsed(cls, matches)
  {
    out := [];
    assert matches[0..] == matches;
    for i := 0 to |matches|
      invariant out + AllParsed(cls, matches[i..]) == AllParsed(cls, matches)
    {
      assert matches[i..][1..] == matches[i + 1..];
      var rest := AllParsed(cls, matches[i + 1..]);
      assert out + ([AsParsed(cls, matches[i])] + rest) == out + [AsParsed(cls, matches[i])] + rest;
      out := out + [AsParsed(cls, matches[i])];
    }
    assert out + [] == out;
  }
}
