/** What a brief index promises: it reads back, in its order, and is written again byte for byte. */
module BriefTheorems {
  import opened Options
  import opened Ascii
  import opened BriefText
  import opened BriefModel
  import opened BriefTrip
  import opened BriefOrder
  import opened BriefDoc

  // ----- the classes -------------------------------------------------------------------

  predicate Ascends(s: seq<string>) { forall i, j | 0 <= i < j < |s| :: Le(s[i], s[j]) && s[i] != s[j] }

  predicate Distinct(s: seq<string>) { forall i, j | 0 <= i < j < |s| :: s[i] != s[j] }

  lemma {:induction false} InsertNameIs(x: string, s: seq<string>)
    requires Ascends(s) && x !in s
    ensures Ascends(InsertName(x, s))
    ensures forall y :: y in InsertName(x, s) <==> y == x || y in s
  {
    if s != [] {
      LeTotal(x, s[0]);
      if Le(x, s[0]) {
        forall j | 0 <= j < |s| ensures Le(x, s[j]) && x != s[j] {
          if j > 0 { LeTransitive(x, s[0], s[j]); }
        }
      } else {
        InsertNameIs(x, s[1..]);
        var rest := InsertName(x, s[1..]);
        forall j | 0 <= j < |rest| ensures Le(s[0], rest[j]) && s[0] != rest[j] {
          assert rest[j] in rest;
        }
      }
    }
  }

  lemma {:induction false} SortNamesIs(s: seq<string>)
    requires Distinct(s)
    ensures Ascends(SortNames(s)) && forall y :: y in SortNames(s) <==> y in s
  {
    if s != [] {
      SortNamesIs(s[1..]);
      assert s[0] !in s[1..];
      InsertNameIs(s[0], SortNames(s[1..]));
    }
  }

  lemma {:induction false} OtherClassesAre(items: seq<Brief>)
    ensures Distinct(OtherClasses(items))
    ensures forall c | c in OtherClasses(items) :: c !in CLASS_ORDER
    ensures forall b | b in items :: b.cls in CLASS_ORDER || b.cls in OtherClasses(items)
  {
    if items != [] {
      var n := |items| - 1;
      OtherClassesAre(items[..n]);
      assert items == items[..n] + [items[n]];
    }
  }

  /** The known classes in their order, then the others by name. */
  function Rank(cls: string): nat {
    if cls == "corroborated" then 0
    else if cls == "contradicted" then 1
    else if cls == "orphan-concept" then 2
    else if cls == "singleton" then 3
    else 4
  }

  predicate ClassBefore(a: string, b: string) { Rank(a) < Rank(b) || (Rank(a) == Rank(b) && a != b && Le(a, b)) }

  ghost predicate InOrder(classes: seq<string>) {
    forall i, j | 0 <= i < j < |classes| :: ClassBefore(classes[i], classes[j])
  }

  lemma RankOf(cls: string)
    ensures cls in CLASS_ORDER <==> Rank(cls) < 4
    ensures forall i | 0 <= i < 4 :: Rank(CLASS_ORDER[i]) == i
  {
    assert CLASS_ORDER[0] != CLASS_ORDER[1];
    assert CLASS_ORDER[0][2] == 'r' && CLASS_ORDER[1][2] == 'n';
    assert CLASS_ORDER[2][0] == 'o' && CLASS_ORDER[3][0] == 's';
  }

  lemma ClassesAreInOrder(items: seq<Brief>)
    ensures InOrder(Classes(items)) && forall b | b in items :: b.cls in Classes(items)
  {
    var others := SortNames(OtherClasses(items));
    OtherClassesAre(items);
    SortNamesIs(OtherClasses(items));
    var cs := Classes(items);
    forall i, j | 0 <= i < j < |cs| ensures ClassBefore(cs[i], cs[j]) {
      RankOf(cs[i]);
      RankOf(cs[j]);
      assert i >= 4 ==> cs[i] == others[i - 4] && others[i - 4] in others;
      assert j >= 4 ==> cs[j] == others[j - 4] && others[j - 4] in others;
    }
  }

  // ----- the briefs of the groups ------------------------------------------------------

  lemma {:induction false} WithKeyAppend(a: seq<Brief>, b: seq<Brief>, k: Brief)
    ensures WithKey(a + b, k) == WithKey(a, k) + WithKey(b, k)
  {
    if a == [] {
      assert a + b == b;
    } else {
      assert (a + b)[1..] == a[1..] + b;
      WithKeyAppend(a[1..], b, k);
    }
  }

  lemma {:induction false} WithKeyOfClass(items: seq<Brief>, cls: string, k: Brief)
    ensures WithKey(OfClass(items, cls), k) == if k.cls == cls then WithKey(items, k) else []
  {
    if items != [] {
      WithKeyOfClass(items[1..], cls, k);
      assert [items[0]] + OfClass(items[1..], cls) != [] && ([items[0]] + OfClass(items[1..], cls))[1..] == OfClass(items[1..], cls);
      assert [] + OfClass(items[1..], cls) == OfClass(items[1..], cls);
    }
  }

  lemma FlatGroups(items: seq<Brief>, classes: seq<string>)
    requires classes != []
    ensures Flat(Groups(items, classes)) == OfClass(items, classes[0]) + Flat(Groups(items, classes[1..]))
  {
    var g, more := OfClass(items, classes[0]), Groups(items, classes[1..]);
    if g == [] {
      assert [] + more == more && g + Flat(more) == Flat(more);
    } else {
      FlatMore(Group(classes[0], g), more);
    }
  }

  lemma FlatMore(g: Group, more: seq<Group>)
    ensures Flat([g] + more) == g.briefs + Flat(more)
  {
    assert ([g] + more)[1..] == more;
  }

  /** Grouping keeps, under each key, the briefs in their order. */
  lemma {:induction false} WithKeyFlat(items: seq<Brief>, classes: seq<string>, k: Brief)
    requires Distinct(classes)
    ensures WithKey(Flat(Groups(items, classes)), k) == if k.cls in classes then WithKey(items, k) else []
  {
    if classes != [] {
      FlatGroups(items, classes);
      WithKeyAppend(OfClass(items, classes[0]), Flat(Groups(items, classes[1..])), k);
      WithKeyOfClass(items, classes[0], k);
      WithKeyFlat(items, classes[1..], k);
    }
  }

  lemma {:induction false} CountWithKey(s: seq<Brief>, b: Brief)
    ensures multiset(s)[b] == multiset(WithKey(s, b))[b]
  {
    if s != [] {
      assert s == [s[0]] + s[1..];
      CountWithKey(s[1..], b);
    }
  }

  lemma {:induction false} OfClassRises(items: seq<Brief>, cls: string)
    requires Rising(items)
    ensures Rising(OfClass(items, cls))
  {
    if items != [] {
      OfClassRises(items[1..], cls);
      var rest := OfClass(items[1..], cls);
      forall j | 0 <= j < |rest| ensures KeyLe(items[0], rest[j]) {
        assert rest[j] in rest && rest[j] in items[1..];
      }
    }
  }

  /** One brief may stand before another. */
  predicate Before(x: Brief, y: Brief) { ClassBefore(x.cls, y.cls) || (x.cls == y.cls && Le(x.title, y.title)) }

  ghost predicate Ordered(bs: seq<Brief>) { forall i, j | 0 <= i < j < |bs| :: Before(bs[i], bs[j]) }

  lemma {:induction false} FlatIsOrdered(items: seq<Brief>, classes: seq<string>)
    requires Rising(items) && InOrder(classes)
    ensures Ordered(Flat(Groups(items, classes)))
    ensures forall b | b in Flat(Groups(items, classes)) :: b in items && b.cls in classes
  {
    if classes != [] {
      var g, rest := OfClass(items, classes[0]), Flat(Groups(items, classes[1..]));
      FlatGroups(items, classes);
      OfClassRises(items, classes[0]);
      FlatIsOrdered(items, classes[1..]);
      ClassThenRest(classes, g, rest);
    }
  }

  lemma ClassThenRest(classes: seq<string>, g: seq<Brief>, rest: seq<Brief>)
    requires classes != [] && InOrder(classes) && Rising(g) && Ordered(rest)
    requires forall b | b in g :: b.cls == classes[0]
    requires forall b | b in rest :: b.cls in classes[1..]
    ensures Ordered(g + rest)
  {
    var all := g + rest;
    forall i, j | 0 <= i < j < |all| ensures Before(all[i], all[j]) {
      if i < |g| <= j {
        assert all[i] in g && all[j] in rest;
        var k :| 0 <= k < |classes[1..]| && classes[1..][k] == all[j].cls;
        assert classes[k + 1] == all[j].cls;
      } else if j < |g| {
        assert all[i] in g && all[j] in g && KeyLe(g[i], g[j]);
      } else {
        assert all[i] == rest[i - |g|] && all[j] == rest[j - |g|];
      }
    }
  }

  lemma OrderIsDistinct(classes: seq<string>)
    requires InOrder(classes)
    ensures Distinct(classes)
  {
    forall i, j | 0 <= i < j < |classes| ensures classes[i] != classes[j] {
      assert ClassBefore(classes[i], classes[j]);
    }
  }

  lemma ListedKeeps(briefs: seq<Brief>, k: Brief)
    ensures WithKey(Listed(briefs), k) == WithKey(briefs, k)
  {
    var items := Sort(briefs);
    ClassesAreInOrder(items);
    OrderIsDistinct(Classes(items));
    WithKeyFlat(items, Classes(items), k);
    SortKeepsTies(briefs, k);
    if k.cls !in Classes(items) {
      NoneWithKey(items, k);
    }
  }

  lemma {:induction false} NoneWithKey(s: seq<Brief>, k: Brief)
    requires forall b | b in s :: b.cls != k.cls
    ensures WithKey(s, k) == []
  {
    if s != [] {
      NoneWithKey(s[1..], k);
    }
  }

  /** The index lists every brief once, by class and then title, equal ones in their old order. */
  lemma ListedIs(briefs: seq<Brief>, k: Brief)
    ensures Ordered(Listed(briefs)) && multiset(Listed(briefs)) == multiset(briefs)
    ensures WithKey(Listed(briefs), k) == WithKey(briefs, k)
  {
    var items := Sort(briefs);
    SortIs(briefs);
    ClassesAreInOrder(items);
    FlatIsOrdered(items, Classes(items));
    ListedKeeps(briefs, k);
    forall b ensures multiset(Listed(briefs))[b] == multiset(briefs)[b] {
      ListedKeeps(briefs, b);
      CountWithKey(Listed(briefs), b);
      CountWithKey(briefs, b);
    }
  }

  // ----- the round trip ----------------------------------------------------------------

  ghost predicate GoodPreface(preface: Preface) { EndsText(preface(0)) && forall n :: OpensNoSection(preface(n)) }

  /** What is read back of one brief. */
  function AsRead(b: Brief): Parsed
    requires b.title != ""
  {
    var c := Cut(b.title, 1);
    Parsed(b.cls, Strip(b.title[..c]), Strip(b.finding), Swallowed(b.title, c) + Anchor(b), b.evidence)
  }

  function ReadBack(bs: seq<Brief>): seq<Parsed>
    requires forall b | b in bs :: b.title != ""
  {
    if bs == [] then [] else [AsRead(bs[0])] + ReadBack(bs[1..])
  }

  lemma {:induction false} GroupReadsBack(names: Names, cls: string, bs: seq<Brief>)
    requires GoodNames(names) && AllReadable(bs) && forall b | b in bs :: b.cls == cls
    ensures AllParsed(cls, AllRecovered(names, bs)) == ReadBack(bs)
  {
    if bs != [] {
      BriefReadsBack(names, bs[0]);
      GroupReadsBack(names, cls, bs[1..]);
      AllParsedMore(cls, Recovered(names, bs[0]), AllRecovered(names, bs[1..]));
    }
  }

  lemma AllParsedMore(cls: string, f: Found, rest: seq<Found>)
    ensures AllParsed(cls, [f] + rest) == [AsParsed(cls, f)] + AllParsed(cls, rest)
  {
    assert ([f] + rest)[1..] == rest;
  }

  lemma BriefReadsBack(names: Names, b: Brief)
    requires GoodNames(names) && Readable(b)
    ensures AsParsed(b.cls, Recovered(names, b)) == AsRead(b)
  {
    EvidenceReadsBack(names, b.evidence);
  }

  lemma {:induction false} ReadBackAppend(a: seq<Brief>, b: seq<Brief>)
    requires AllReadable(a) && AllReadable(b)
    ensures ReadBack(a + b) == ReadBack(a) + ReadBack(b)
  {
    if a == [] {
      assert a + b == b;
    } else {
      assert (a + b)[1..] == a[1..] + b;
      ReadBackAppend(a[1..], b);
    }
  }

  lemma {:induction false} GroupsReadBack(names: Names, gs: seq<Group>)
    requires GoodNames(names) && GoodGroups(gs)
    ensures AllReadable(Flat(gs))
    ensures ParseSections(SectionTexts(names, gs)) == Some(ReadBack(Flat(gs)))
  {
    if gs != [] {
      var g := gs[0];
      assert g in gs && GoodGroup(g);
      GroupsReadBack(names, gs[1..]);
      SectionReadsBack(names, g, |gs| == 1);
      GroupReadsBack(names, g.cls, g.briefs);
      ReadBackAppend(g.briefs, Flat(gs[1..]));
      var texts := SectionTexts(names, gs[1..]);
      assert ([SectionText(names, g, |gs| == 1)] + texts)[1..] == texts;
    }
  }

  lemma {:induction false} GroupsAreGood(items: seq<Brief>, classes: seq<string>)
    requires AllReadable(items)
    ensures GoodGroups(Groups(items, classes))
  {
    if classes != [] {
      GroupsAreGood(items, classes[1..]);
    }
  }

  lemma DocText(names: Names, pre: seq<string>, gs: seq<Group>) returns (kept: seq<string>)
    requires GoodNames(names) && GoodGroups(gs) && OpensNoSection(pre) && (gs == [] ==> EndsText(pre))
    ensures OpensNoSection(kept) && Closed(pre + AllLines(names, gs)) == Text(kept) + Headed(SectionTexts(names, gs))
  {
    if gs == [] {
      kept := TrimBlank(pre);
      EmptyDocText(pre);
      assert pre + AllLines(names, gs) == pre && Text(kept) + "" == Text(kept);
    } else {
      kept := pre;
      GroupsDocText(names, pre, gs);
    }
  }

  lemma EmptyDocText(pre: seq<string>)
    requires OpensNoSection(pre) && EndsText(pre)
    ensures OpensNoSection(TrimBlank(pre)) && Closed(pre) == Text(TrimBlank(pre))
  {
    TrimKeeps(pre);
    ClosedIsText(pre);
  }

  lemma GroupsDocText(names: Names, pre: seq<string>, gs: seq<Group>)
    requires GoodNames(names) && GoodGroups(gs) && gs != []
    ensures Closed(pre + AllLines(names, gs)) == Text(pre) + Headed(SectionTexts(names, gs))
  {
    var lines := AllLines(names, gs);
    LinesAreSections(names, gs);
    TrimEnds(pre, lines);
    TextAppend(pre, TrimBlank(lines));
    ClosedIsText(pre + lines);
  }

  lemma DocIsSections(names: Names, pre: seq<string>, gs: seq<Group>)
    requires GoodNames(names) && GoodGroups(gs) && OpensNoSection(pre) && (gs == [] ==> EndsText(pre))
    ensures Parse(Closed(pre + AllLines(names, gs))) == ParseSections(SectionTexts(names, gs))
  {
    var kept := DocText(names, pre, gs);
    SplitPastLines(kept, Headed(SectionTexts(names, gs)));
    SectionsComeApart(names, gs);
  }

  /** Reading a rendered index gives every brief back, in the order of the index. */
  lemma IndexReadsBack(briefs: seq<Brief>, names: Names, preface: Preface)
    requires GoodNames(names) && AllReadable(briefs) && GoodPreface(preface)
    ensures AllReadable(Listed(briefs))
    ensures Parse(Render(briefs, names, preface)) == Some(ReadBack(Listed(briefs)))
  {
    var items := Sort(briefs);
    SortIs(briefs);
    ListedIs(briefs, Brief("", "", "", []));
    SameReadable(briefs, items);
    SameReadable(briefs, Listed(briefs));
    var gs := Groups(items, Classes(items));
    GroupsAreGood(items, Classes(items));
    SameLength(items, Listed(briefs));
    assert gs == [] ==> Listed(briefs) == [];
    DocIsSections(names, preface(|items|), gs);
    GroupsReadBack(names, gs);
  }

  lemma SameLength<T>(a: seq<T>, b: seq<T>)
    requires multiset(a) == multiset(b)
    ensures |a| == |b|
  {
    assert |multiset(a)| == |a| && |multiset(b)| == |b|;
  }

  lemma SameReadable(a: seq<Brief>, b: seq<Brief>)
    requires multiset(a) == multiset(b) && AllReadable(a)
    ensures AllReadable(b)
  {
    forall x | x in b ensures Readable(x) {
      assert x in multiset(b);
    }
  }

  // ----- titles ------------------------------------------------------------------------

  /** How many characters can be seen. */
  function Solids(s: string): nat {
    if s == "" then 0 else (if IsSpace(s[0]) then 0 else 1) + Solids(s[1..])
  }

  lemma {:induction false} SolidsAppend(a: string, b: string)
    ensures Solids(a + b) == Solids(a) + Solids(b)
  {
    if a == "" {
      assert a + b == b;
    } else {
      assert (a + b)[1..] == a[1..] + b;
      SolidsAppend(a[1..], b);
    }
  }

  lemma {:induction false} LstripKeepsSolids(s: string)
    ensures Solids(Lstrip(s)) == Solids(s)
  {
    if s != "" && IsSpace(s[0]) {
      LstripKeepsSolids(s[1..]);
    }
  }

  lemma {:induction false} RstripKeepsSolids(s: string)
    ensures Solids(Rstrip(s)) == Solids(s)
  {
    if s != "" && IsSpace(s[|s| - 1]) {
      var n := |s| - 1;
      RstripKeepsSolids(s[..n]);
      SolidsAppend(s[..n], s[n..]);
      assert s[..n] + s[n..] == s && s[n..][1..] == "";
    }
  }

  lemma StripKeepsSolids(s: string)
    ensures Solids(Strip(s)) == Solids(s)
  {
    LstripKeepsSolids(s);
    RstripKeepsSolids(Lstrip(s));
  }

  /** A brief is read back whole exactly when nothing in its title looks like the start of its anchor. */
  lemma TitleReadsBackIff(b: Brief)
    requires Readable(b)
    ensures AsRead(b).title == Strip(b.title) <==> TitleCloses(b.title)
    ensures TitleCloses(b.title) ==> AsRead(b) == Parsed(b.cls, Strip(b.title), Strip(b.finding), Anchor(b), b.evidence)
  {
    var c := Cut(b.title, 1);
    assert b.title[..|b.title|] == b.title;
    if c < |b.title| {
      var front, back := b.title[..c], b.title[c..];
      assert front + back == b.title && " {#" <= back;
      assert !IsSpace(back[1]);
      SolidsAppend(front, back);
      assert Solids(back) == Solids(back[1..]) && Solids(back[1..]) >= 1;
      StripKeepsSolids(front);
      StripKeepsSolids(b.title);
    } else {
      assert "" + Anchor(b) == Anchor(b);
    }
  }

  /** A title that seems to open an anchor is cut short. */
  lemma OpenTitleIsCut(b: Brief)
    requires Readable(b) && b.title == "a {#b"
    ensures AsRead(b).title == "a" && AsRead(b).anchor == "b {#" + Anchor(b)
  {
    var t := b.title;
    assert t[1..] == " {#b" && Opens(t, 1);
    assert t[..1] == "a" && Lstrip("a") == "a" && Rstrip("a") == "a";
    assert t[4..] == "b" && "b" + " {#" == "b {#";
  }

  // ----- the second rendering ----------------------------------------------------------

  function AsBriefs(ps: seq<Parsed>): seq<Brief> {
    if ps == [] then []
    else [Brief(ps[0].cls, ps[0].title, ps[0].finding, ps[0].evidence)] + AsBriefs(ps[1..])
  }

  predicate Tidy(b: Brief) { Readable(b) && TitleCloses(b.title) && Strip(b.title) == b.title && Strip(b.finding) == b.finding }

  lemma {:induction false} TidyReadsBack(bs: seq<Brief>)
    requires forall b | b in bs :: Tidy(b)
    ensures AllReadable(bs) && AsBriefs(ReadBack(bs)) == bs
  {
    if bs != [] {
      assert bs[0] in bs && Tidy(bs[0]);
      TitleReadsBackIff(bs[0]);
      TidyReadsBack(bs[1..]);
      var rest := ReadBack(bs[1..]);
      assert ([AsRead(bs[0])] + rest)[1..] == rest && [bs[0]] + bs[1..] == bs;
    }
  }

  lemma SortsTheSame(a: seq<Brief>, b: seq<Brief>)
    requires forall k :: WithKey(a, k) == WithKey(b, k)
    ensures Sort(a) == Sort(b)
  {
    SortIs(a);
    SortIs(b);
    forall k ensures WithKey(Sort(a), k) == WithKey(Sort(b), k) {
      SortKeepsTies(a, k);
      SortKeepsTies(b, k);
      assert WithKey(a, k) == WithKey(b, k);
    }
    SortedIsUnique(Sort(a), Sort(b));
  }

  /** Rendering what was read gives the same document, byte for byte. */
  lemma SecondRenderingIsTheSame(briefs: seq<Brief>, names: Names, preface: Preface)
    requires GoodNames(names) && GoodPreface(preface) && forall b | b in briefs :: Tidy(b)
    ensures Parse(Render(briefs, names, preface)).Some?
    ensures Render(AsBriefs(Parse(Render(briefs, names, preface)).value), names, preface) == Render(briefs, names, preface)
  {
    IndexReadsBack(briefs, names, preface);
    ListedIs(briefs, Brief("", "", "", []));
    forall b | b in Listed(briefs) ensures Tidy(b) {
      assert b in multiset(Listed(briefs));
    }
    TidyReadsBack(Listed(briefs));
    forall k ensures WithKey(Listed(briefs), k) == WithKey(briefs, k) {
      ListedKeeps(briefs, k);
    }
    SortsTheSame(Listed(briefs), briefs);
  }
}
