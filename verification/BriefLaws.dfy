/** What is written of a brief, line by line and character by character. */
module BriefLaws {
  import opened Ascii
  import opened Decimals
  import opened Filtering
  import opened BriefModel
  import opened BriefOrder
  import opened BriefDoc
  import opened BriefTheorems

  // ----- anchors -----------------------------------------------------------------------

  predicate MayBeId(c: char) { 'a' <= c <= 'z' || 'A' <= c <= 'Z' || '0' <= c <= '9' || c == '.' || c == '_' || c == '-' }

  /** A character of a title as its anchor shows it. */
  function Shown(c: char): char {
    if 'A' <= c <= 'Z' then c - 'A' + 'a' else if MayBeId(c) then c else '-'
  }

  function Sign(c: char): char { if MayBeId(c) then c else '-' }

  /** Every character an id may contain counts, and of a run of others the first one. */
  predicate IsShown(s: string, p: nat, inRun: bool)
    requires p < |s|
  {
    MayBeId(s[p]) || (if p == 0 then !inRun else MayBeId(s[p - 1]))
  }

  lemma {:induction false} DashedIs(s: string, inRun: bool) returns (at: seq<nat>)
    ensures Rises(at) && |at| == |Dashed(s, inRun)|
    ensures forall k | 0 <= k < |at| :: at[k] < |s| && Dashed(s, inRun)[k] == Sign(s[at[k]])
    ensures forall p: nat :: p in at <==> p < |s| && IsShown(s, p, inRun)
  {
    if s == "" {
      at := [];
    } else {
      var rest := DashedIs(s[1..], !MayBeId(s[0]));
      var shown := MayBeId(s[0]) || !inRun;
      at := OneInFront(rest, shown);
      var d := if shown then 1 else 0;
      forall k | 0 <= k < |at| ensures at[k] < |s| && Dashed(s, inRun)[k] == Sign(s[at[k]]) {
        if k >= d {
          assert at[k] == rest[k - d] + 1;
        }
      }
      forall p: nat ensures p in at <==> p < |s| && IsShown(s, p, inRun) {
        if 0 < p < |s| {
          assert IsShown(s, p, inRun) == IsShown(s[1..], p - 1, !MayBeId(s[0]));
        }
      }
    }
  }

  /** What is left of `s` without the dashes at its ends. */
  ghost predicate StripsTo(s: string, a: nat, b: nat, r: string) {
    && a <= b <= |s| && r == s[a..b]
    && (forall k | 0 <= k < a || b <= k < |s| :: s[k] == '-')
    && (a < b ==> s[a] != '-' && s[b - 1] != '-')
  }

  lemma {:induction false} DashStrippedIs(s: string) returns (a: nat, b: nat)
    ensures StripsTo(s, a, b, DashStripped(s))
  {
    if s == "" {
      a, b := 0, 0;
    } else if s[0] == '-' {
      a, b := DashStrippedIs(s[1..]);
      FrontDash(s, a, b, DashStripped(s[1..]));
      a, b := a + 1, b + 1;
    } else if s[|s| - 1] == '-' {
      a, b := DashStrippedIs(s[..|s| - 1]);
      BackDash(s, a, b, DashStripped(s[..|s| - 1]));
    } else {
      a, b := 0, |s|;
    }
  }

  lemma FrontDash(s: string, a: nat, b: nat, r: string)
    requires s != "" && s[0] == '-' && StripsTo(s[1..], a, b, r)
    ensures StripsTo(s, a + 1, b + 1, r)
  {
    forall k | 0 <= k < a + 1 || b + 1 <= k < |s| ensures s[k] == '-' {
      assert k > 0 ==> s[k] == s[1..][k - 1];
    }
  }

  lemma BackDash(s: string, a: nat, b: nat, r: string)
    requires s != "" && s[|s| - 1] == '-' && StripsTo(s[..|s| - 1], a, b, r)
    ensures StripsTo(s, a, b, r)
  {
  }

  /** The anchor of a title: its letters in lower case, digits, dots, underscores and dashes, one dash for
    * every run of anything else, and no dash at either end; `brief` when nothing is left. */
  lemma AnchorIs(s: string) returns (at: seq<nat>, a: nat, b: nat)
    ensures Rises(at) && a <= b <= |at| && forall p: nat :: p in at <==> p < |s| && IsShown(s, p, false)
    ensures forall k | 0 <= k < a || b <= k < |at| :: at[k] < |s| && Shown(s[at[k]]) == '-'
    ensures a < b ==> at[a] < |s| && Shown(s[at[a]]) != '-' && at[b - 1] < |s| && Shown(s[at[b - 1]]) != '-'
    ensures a == b ==> AnchorSafe(s) == "brief"
    ensures a < b ==> |AnchorSafe(s)| == b - a && forall k | a <= k < b :: at[k] < |s| && AnchorSafe(s)[k - a] == Shown(s[at[k]])
  {
    at := DashedIs(s, false);
    var d := Dashed(s, false);
    a, b := DashStrippedIs(d);
    forall k | 0 <= k < |d| ensures LowerChar(d[k]) == Shown(s[at[k]]) && (d[k] == '-' <==> Shown(s[at[k]]) == '-') {
      SignIs(s[at[k]]);
    }
    assert AnchorSafe(s) == if a == b then "brief" else Lower(d[a..b]);
  }

  lemma SignIs(c: char)
    ensures LowerChar(Sign(c)) == Shown(c) && (Sign(c) == '-' <==> Shown(c) == '-')
  {
  }

  // ----- numbers and lists -------------------------------------------------------------

  /** Decimal digits, the highest first. */
  lemma DecimalIs(n: nat, d: nat)
    requires d < 10
    ensures Decimal(d) == "0123456789"[d..d + 1]
    ensures n > 0 ==> Decimal(10 * n + d) == Decimal(n) + "0123456789"[d..d + 1]
  {
    assert (10 * n + d) / 10 == n && (10 * n + d) % 10 == d;
    assert "0123456789"[d] == Digit(d);
  }

  /** Items with commas between them. */
  function Listing(items: seq<string>): string {
    if items == [] then ""
    else if |items| == 1 then items[0]
    else Listing(items[..|items| - 1]) + ", " + items[|items| - 1]
  }

  lemma {:induction false} ListingMore(x: string, items: seq<string>)
    ensures Listing([x] + items) == x + (if items == [] then "" else ", ") + Listing(items)
  {
    var all := [x] + items;
    if items != [] {
      var n := |items| - 1;
      assert all[..n + 1] == [x] + items[..n];
      ListingMore(x, items[..n]);
      if n == 0 {
        assert items[..n] == [];
      } else {
        Regroup(x, ", ", Listing(items[..n]), ", " , items[n]);
      }
    }
  }

  lemma Regroup(a: string, b: string, c: string, d: string, e: string)
    ensures a + b + c + d + e == a + b + (c + d + e)
  {
  }

  function NumberTexts(es: seq<nat>): (r: seq<string>)
    ensures |r| == |es| && forall i | 0 <= i < |es| :: r[i] == Decimal(es[i])
  {
    seq(|es|, i requires 0 <= i < |es| => Decimal(es[i]))
  }

  lemma {:induction false} NumbersAre(es: seq<nat>)
    ensures Numbers(es) == Listing(NumberTexts(es))
  {
    if es != [] {
      NumbersAre(es[1..]);
      ListingMore(Decimal(es[0]), NumberTexts(es[1..]));
      assert NumberTexts(es) == [Decimal(es[0])] + NumberTexts(es[1..]);
    }
  }

  /** An evidence id with a name is a link and the id, one without is the id and a remark. */
  function ItemText(names: Names, e: nat): string {
    if HasName(names, e) then "[[" + names[e] + "]] `" + Decimal(e) + "`" else "`" + Decimal(e) + "` (unresolved)"
  }

  function ItemTexts(names: Names, es: seq<nat>): (r: seq<string>)
    ensures |r| == |es| && forall i | 0 <= i < |es| :: r[i] == ItemText(names, es[i])
  {
    seq(|es|, i requires 0 <= i < |es| => ItemText(names, es[i]))
  }

  lemma NextItem(names: Names, es: seq<nat>)
    requires es != []
    ensures ItemTexts(names, es) == [ItemText(names, es[0])] + ItemTexts(names, es[1..])
  {
  }

  lemma {:induction false} ItemsAre(names: Names, es: seq<nat>)
    ensures Items(names, es) == Listing(ItemTexts(names, es))
  {
    if es != [] {
      ItemsAre(names, es[1..]);
      ItemIs(names, es[0]);
      NextItem(names, es);
      ListingMore(Item(names, es[0]), ItemTexts(names, es[1..]));
    }
  }

  lemma ItemIs(names: Names, e: nat)
    ensures Item(names, e) == ItemText(names, e)
  {
    if Named(names, e) {
      var a, d := "[[" + names[e], Decimal(e);
      assert "]] " + "`" == "]] `";
      assert a + "]] " + ("`" + d + "`") == a + ("]] " + "`") + d + "`";
    }
  }

  predicate HasName(names: Names, e: nat) { e in names && names[e] != "" }

  predicate IsRel(names: Names, es: seq<nat>, i: nat, line: string) {
    i < |es| && HasName(names, es[i]) && line == "rel: evidence-for -> [[" + names[es[i]] + "]]"
  }

  predicate AreRels(names: Names, es: seq<nat>, at: seq<nat>, lines: seq<string>) {
    |lines| == |at| && forall k | 0 <= k < |at| :: IsRel(names, es, at[k], lines[k])
  }

  /** One line for each evidence id that has a name, in order. */
  lemma {:induction false} RelsAre(names: Names, es: seq<nat>) returns (at: seq<nat>)
    ensures AreRels(names, es, at, Rels(names, es)) && Rises(at)
    ensures forall i: nat :: i in at <==> i < |es| && HasName(names, es[i])
  {
    if es == [] {
      at := [];
    } else {
      var rest := RelsAre(names, es[1..]);
      at := OneInFront(rest, HasName(names, es[0]));
      RelsMore(names, es);
      RelsPast(names, es, rest, Rels(names, es[1..]));
    }
  }

  lemma RelsPast(names: Names, es: seq<nat>, rest: seq<nat>, lines: seq<string>)
    requires es != [] && AreRels(names, es[1..], rest, lines)
    ensures AreRels(names, es, Past(rest), lines)
    ensures forall line | IsRel(names, es, 0, line) :: AreRels(names, es, [0] + Past(rest), [line] + lines)
  {
    forall k | 0 <= k < |rest| ensures IsRel(names, es, rest[k] + 1, lines[k]) {
      assert IsRel(names, es[1..], rest[k], lines[k]);
    }
  }

  lemma RelsMore(names: Names, es: seq<nat>)
    requires es != []
    ensures HasName(names, es[0]) ==>
      exists line :: IsRel(names, es, 0, line) && Rels(names, es) == [line] + Rels(names, es[1..])
    ensures !HasName(names, es[0]) ==> Rels(names, es) == Rels(names, es[1..])
  {
    if HasName(names, es[0]) {
      var line := "rel: evidence-for -> [[" + names[es[0]] + "]]";
      assert IsRel(names, es, 0, line) && Rels(names, es) == [line] + Rels(names, es[1..]);
    }
  }

  lemma {:induction false} UnnamedAre(names: Names, es: seq<nat>) returns (at: seq<nat>)
    ensures StandsAt(Unnamed(names, es), es, at)
    ensures forall i: nat :: i in at <==> i < |es| && !HasName(names, es[i])
  {
    if es == [] {
      at := [];
    } else {
      var rest := UnnamedAre(names, es[1..]);
      at := FrontStands(Unnamed(names, es[1..]), es[1..], rest, es[0], !HasName(names, es[0]));
      assert [es[0]] + es[1..] == es;
    }
  }

  // ----- the lines ---------------------------------------------------------------------

  /** A brief as it is written: heading, finding, evidence, the ids left bare if there are any, and a
    * link for each of the others. */
  lemma LinesAre(names: Names, b: Brief) returns (bare: seq<nat>, bareAt: seq<nat>, rels: seq<string>, relAt: seq<nat>)
    ensures BriefLines(names, b)
      == ["### " + b.title + " {#" + b.cls + "-" + AnchorSafe(b.title) + "}", "", b.finding, "",
          "Evidence (" + Decimal(|b.evidence|) + "): " + Listing(ItemTexts(names, b.evidence)) + "."]
       + (if bare == [] then []
          else [Decimal(|bare|) + " evidence id(s) could not be resolved" + " to a memory name and are listed bare"
                + " rather than dropped: " + Listing(NumberTexts(bare)) + "."])
       + [""] + rels + [""]
    ensures StandsAt(bare, b.evidence, bareAt)
    ensures forall i: nat :: i in bareAt <==> i < |b.evidence| && !HasName(names, b.evidence[i])
    ensures Rises(relAt) && AreRels(names, b.evidence, relAt, rels)
    ensures forall i: nat :: i in relAt <==> i < |b.evidence| && HasName(names, b.evidence[i])
  {
    bare, rels := Unnamed(names, b.evidence), Rels(names, b.evidence);
    bareAt := UnnamedAre(names, b.evidence);
    relAt := RelsAre(names, b.evidence);
    ItemsAre(names, b.evidence);
    NumbersAre(bare);
    HeadingIs(b);
    Arranged(Core(names, b), if bare == [] then [] else [BareLine(bare)], [""], rels);
  }

  lemma Arranged<T>(a: seq<T>, b: seq<T>, c: seq<T>, d: seq<T>)
    ensures a + (b + c + d + c) == a + b + c + d + c
  {
  }

  lemma HeadingIs(b: Brief)
    ensures Heading(b) == "### " + b.title + " {#" + b.cls + "-" + AnchorSafe(b.title) + "}"
  {
    var a := "### " + b.title + " {#";
    assert a + (b.cls + "-" + AnchorSafe(b.title)) == a + b.cls + "-" + AnchorSafe(b.title);
  }

  lemma {:induction false} BriefAfterBrief(names: Names, bs: seq<Brief>, b: Brief)
    ensures AllBriefLines(names, bs + [b]) == AllBriefLines(names, bs) + BriefLines(names, b)
  {
    if bs == [] {
      assert bs + [b] == [b] && [b][1..] == [];
      assert BriefLines(names, b) + [] == [] + BriefLines(names, b);
    } else {
      assert (bs + [b])[1..] == bs[1..] + [b];
      BriefAfterBrief(names, bs[1..], b);
      Grouped(BriefLines(names, bs[0]), AllBriefLines(names, bs[1..]), BriefLines(names, b));
    }
  }

  lemma Grouped<T>(a: seq<T>, b: seq<T>, c: seq<T>)
    ensures a + (b + c) == a + b + c
  {
  }

  lemma {:induction false} GroupAfterGroup(names: Names, gs: seq<Group>, g: Group)
    ensures AllLines(names, gs + [g]) == AllLines(names, gs) + GroupLines(names, g)
  {
    if gs == [] {
      assert gs + [g] == [g] && [g][1..] == [];
      assert [] + GroupLines(names, g) == GroupLines(names, g) + [];
    } else {
      assert (gs + [g])[1..] == gs[1..] + [g];
      GroupAfterGroup(names, gs[1..], g);
      Grouped(GroupLines(names, gs[0]), AllLines(names, gs[1..]), GroupLines(names, g));
    }
  }

  /** A section behind others: its heading, the number of its briefs, and the briefs one after another. */
  lemma SectionAfterSection(names: Names, gs: seq<Group>, g: Group)
    ensures AllLines(names, []) == []
    ensures AllLines(names, gs + [g])
      == AllLines(names, gs)
       + ["## " + g.cls + " {#" + g.cls + "}", "", Decimal(|g.briefs|) + " brief(s).", ""] + AllBriefLines(names, g.briefs)
  {
    GroupAfterGroup(names, gs, g);
    HeadIs(g.cls);
    Grouped(AllLines(names, gs), ["## " + g.cls + " {#" + g.cls + "}", "", Decimal(|g.briefs|) + " brief(s).", ""],
            AllBriefLines(names, g.briefs));
    GroupLinesAre(names, g);
  }

  lemma GroupLinesAre(names: Names, g: Group)
    ensures GroupLines(names, g)
      == ["## " + Head(g.cls), "", Decimal(|g.briefs|) + " brief(s).", ""] + AllBriefLines(names, g.briefs)
  {
  }

  lemma HeadIs(cls: string)
    ensures "## " + Head(cls) == "## " + cls + " {#" + cls + "}"
  {
    assert "## " + (cls + " {#" + cls + "}") == "## " + cls + " {#" + cls + "}";
  }

  // ----- the order ---------------------------------------------------------------------

  /** Strings compare by their first difference, and a string comes before what begins with it. */
  lemma {:induction false} LeIs(a: string, b: string) returns (k: nat)
    ensures k <= |a| && k <= |b| && a[..k] == b[..k]
    ensures k < |a| && k < |b| ==> a[k] != b[k]
    ensures Le(a, b) <==> k == |a| || (k < |b| && a[k] < b[k])
  {
    k := 0;
    if a != "" && b != "" && a[0] == b[0] {
      var r := LeIs(a[1..], b[1..]);
      k := r + 1;
      assert a[..k] == [a[0]] + a[1..][..r] && b[..k] == [b[0]] + b[1..][..r];
    }
  }

  lemma RankIs()
    ensures Rank("corroborated") < Rank("contradicted") < Rank("orphan-concept") < Rank("singleton")
    ensures forall c :: c !in ["corroborated", "contradicted", "orphan-concept", "singleton"] <==> Rank(c) > Rank("singleton")
  {
    RankOf("corroborated");
  }

  /** The sections: one for each class that has briefs, in the order of the classes, with all its briefs. */
  lemma SectionsAre(briefs: seq<Brief>) returns (gs: seq<Group>)
    ensures gs == Groups(Sort(briefs), Classes(Sort(briefs))) && Flat(gs) == Listed(briefs)
    ensures forall i | 0 <= i < |gs| :: OfOneClass(gs[i])
    ensures forall i, j | 0 <= i < j < |gs| :: ClassBefore(gs[i].cls, gs[j].cls)
  {
    var items := Sort(briefs);
    gs := Groups(items, Classes(items));
    ClassesAreInOrder(items);
    GroupsInOrder(items, Classes(items));
  }

  lemma {:induction false} GroupsInOrder(items: seq<Brief>, classes: seq<string>)
    requires InOrder(classes)
    ensures forall i | 0 <= i < |Groups(items, classes)| :: Groups(items, classes)[i].cls in classes
    ensures forall i | 0 <= i < |Groups(items, classes)| :: OfOneClass(Groups(items, classes)[i])
    ensures forall i, j | 0 <= i < j < |Groups(items, classes)| ::
      ClassBefore(Groups(items, classes)[i].cls, Groups(items, classes)[j].cls)
  {
    if classes != [] {
      var more := classes[1..];
      GroupsInOrder(items, more);
      var rest := Groups(items, more);
      forall i | 0 <= i < |rest| ensures ClassBefore(classes[0], rest[i].cls) && rest[i].cls in classes {
        assert rest[i].cls in more;
        var k :| 0 <= k < |more| && more[k] == rest[i].cls;
        assert classes[k + 1] == rest[i].cls;
      }
    }
  }

  predicate OfOneClass(g: Group) { g.briefs != [] && forall b | b in g.briefs :: b.cls == g.cls }
}
