/** The symbolic references an ingest record carries in place of entity ids. */
module IngestRefs {
  datatype Key = Key(kind: string, name: string)

  datatype Ref =
    | Doc
    | Sub(key: Key)
    | Concept(name: string)
    | NsConcept(ns: string, name: string)
    | Adr(num: string)
    | Bound(sym: string)
    | Unknown

  predicate StartsWith(s: string, p: string) { |p| <= |s| && s[..|p|] == p }

  /** `str.partition("/")`, without the separator. */
  function Partition(s: string): (string, string) {
    if s == "" then ("", "")
    else if s[0] == '/' then ("", s[1..])
    else var (a, b) := Partition(s[1..]); ([s[0]] + a, b)
  }

  function Parse(s: string): Ref {
    if s == "@doc" then Doc
    else if StartsWith(s, "@sub:") then var (kind, name) := Partition(s[5..]); Sub(Key(kind, name))
    else if StartsWith(s, "@concept:") then Concept(s[9..])
    else if StartsWith(s, "@nsconcept:") then var (ns, name) := Partition(s[11..]); NsConcept(ns, name)
    else if StartsWith(s, "@adr:") then Adr(s[5..])
    else if StartsWith(s, "@ref:") then Bound(s[5..])
    else Unknown
  }

  /** What the recorder hands out. */
  function Show(r: Ref): string {
    match r
    case Doc => "@doc"
    case Sub(key) => "@sub:" + key.kind + "/" + key.name
    case Concept(name) => "@concept:" + name
    case NsConcept(ns, name) => "@nsconcept:" + ns + "/" + name
    case Adr(num) => "@adr:" + num
    case Bound(sym) => "@ref:" + sym
    case Unknown => ""
  }

  lemma {:induction false} PartitionJoined(a: string, b: string)
    ensures Partition(a + "/" + b) == (a, b) <==> '/' !in a
  {
    var s := a + "/" + b;
    if a == "" {
      assert s[0] == '/' && s[1..] == b;
    } else {
      assert s[0] == a[0] && s[1..] == a[1..] + "/" + b;
      PartitionJoined(a[1..], b);
      if a[0] == '/' {
        assert |a| > 0 && a[0] in a;
      } else {
        assert forall i | 0 <= i < |a| - 1 :: a[1..][i] == a[i + 1];
        var (x, y) := Partition(s[1..]);
        assert [a[0]] + a[1..] == a;
        assert ([a[0]] + x)[1..] == x;
        assert '/' in a <==> '/' in a[1..];
      }
    }
  }

  lemma TailAfter(p: string, x: string)
    ensures StartsWith(p + x, p) && (p + x)[|p|..] == x
  {
  }

  predicate Readable(r: Ref) {
    match r
    case Sub(key) => '/' !in key.kind
    case NsConcept(ns, _) => '/' !in ns
    case _ => true
  }

  /** A handle reads back as what it was printed from exactly when its kind or namespace has no '/'. */
  lemma HandleReadsBack(r: Ref)
    ensures Parse(Show(r)) == r <==> Readable(r)
  {
    var s := Show(r);
    match r
    case Doc =>
    case Sub(key) =>
      TailAfter("@sub:", key.kind + "/" + key.name);
      assert s == "@sub:" + (key.kind + "/" + key.name);
      PartitionJoined(key.kind, key.name);
    case Concept(name) =>
      TailAfter("@concept:", name);
      assert s[1] == 'c';
    case NsConcept(ns, name) =>
      TailAfter("@nsconcept:", ns + "/" + name);
      assert s == "@nsconcept:" + (ns + "/" + name) && s[1] == 'n';
      PartitionJoined(ns, name);
    case Adr(num) =>
      TailAfter("@adr:", num);
      assert s[1] == 'a';
    case Bound(sym) =>
      TailAfter("@ref:", sym);
      assert s[1] == 'r';
    case Unknown =>
  }

  lemma {:induction false} PartitionIs(s: string)
    requires '/' in s
    ensures Partition(s).0 + "/" + Partition(s).1 == s && '/' !in Partition(s).0
  {
    if s[0] == '/' {
      assert "" + "/" + s[1..] == s;
    } else {
      PartitionIs(s[1..]);
      var (a, b) := Partition(s[1..]);
      assert [s[0]] + a + "/" + b == [s[0]] + (a + "/" + b) == s;
    }
  }

  /** A namespaced handle always reads back as a concept of the same full name. */
  lemma NsReadsAs(ns: string, name: string)
    ensures var p := Partition(ns + "/" + name);
            Parse(Show(NsConcept(ns, name))) == NsConcept(p.0, p.1) && p.0 + "/" + p.1 == ns + "/" + name
  {
    var full := ns + "/" + name;
    assert full[|ns|] == '/';
    PartitionIs(full);
    NsParses(full);
    Joined("@nsconcept:", ns, "/", name);
  }

  lemma Joined(p: string, a: string, b: string, c: string)
    ensures p + a + b + c == p + (a + b + c)
  {
  }

  lemma NsParses(full: string)
    ensures Parse("@nsconcept:" + full) == NsConcept(Partition(full).0, Partition(full).1)
  {
    TailAfter("@nsconcept:", full);
    assert ("@nsconcept:" + full)[1] == 'n';
  }

  /** `p` then a kind or namespace up to the first slash, then the name. */
  predicate Spells(s: string, p: string, a: string, b: string) {
    '/' !in a && (s == p + a + "/" + b || (s == p + a && b == ""))
  }

  lemma {:induction false} PartitionAll(s: string)
    ensures Spells(s, "", Partition(s).0, Partition(s).1)
  {
    if '/' in s {
      PartitionIs(s);
      assert "" + Partition(s).0 == Partition(s).0;
    } else if s != "" {
      assert s[0] in s;
      assert '/' !in s[1..];
      PartitionAll(s[1..]);
      assert "" + Partition(s[1..]).0 == Partition(s[1..]).0;
    }
  }

  lemma Prefixed(s: string, p: string)
    requires StartsWith(s, p)
    ensures Spells(s, p, Partition(s[|p|..]).0, Partition(s[|p|..]).1)
    ensures s == p + s[|p|..]
  {
    var rest := s[|p|..];
    PartitionAll(rest);
    var (a, b) := Partition(rest);
    assert "" + a == a && s == p + rest;
    Joined(p, a, "/", b);
  }

  /** What each string refers to. */
  lemma ParseIs(s: string)
    ensures match Parse(s)
            case Doc => s == "@doc"
            case Sub(key) => Spells(s, "@sub:", key.kind, key.name)
            case Concept(name) => s == "@concept:" + name
            case NsConcept(ns, name) => Spells(s, "@nsconcept:", ns, name)
            case Adr(num) => s == "@adr:" + num
            case Bound(sym) => s == "@ref:" + sym
            case Unknown => s != "@doc" && forall p | p in ["@sub:", "@concept:", "@nsconcept:", "@adr:", "@ref:"] :: !(p <= s)
  {
    if Parse(s).Sub? {
      Prefixed(s, "@sub:");
    } else if Parse(s).NsConcept? {
      Prefixed(s, "@nsconcept:");
    } else if Parse(s).Unknown? {
      forall p | p in ["@sub:", "@concept:", "@nsconcept:", "@adr:", "@ref:"] ensures !(p <= s) {
        assert !StartsWith(s, p);
      }
    }
  }
}
