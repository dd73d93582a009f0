/** The order of briefs in an index: by class, the known ones first, and by title within a class. */
module BriefOrder {
  import opened BriefModel

  /** Python's order of strings. */
  predicate Le(a: string, b: string) {
    a == "" || (b != "" && (a[0] < b[0] || (a[0] == b[0] && Le(a[1..], b[1..]))))
  }

  lemma {:induction false} LeTotal(a: string, b: string)
    ensures Le(a, b) || Le(b, a)
    ensures Le(a, b) && Le(b, a) ==> a == b
  {
    if a != "" && b != "" {
      LeTotal(a[1..], b[1..]);
      assert a == [a[0]] + a[1..] && b == [b[0]] + b[1..];
    }
  }

  lemma {:induction false} LeTransitive(a: string, b: string, c: string)
    requires Le(a, b) && Le(b, c)
    ensures Le(a, c)
  {
    if a != "" {
      if a[0] == b[0] == c[0] {
        LeTransitive(a[1..], b[1..], c[1..]);
      }
    }
  }

  /** The order of the pairs (class, title). */
  predicate KeyLe(x: Brief, y: Brief) { if x.cls == y.cls then Le(x.title, y.title) else Le(x.cls, y.cls) }

  lemma KeyLeTotal(x: Brief, y: Brief)
    ensures KeyLe(x, y) || KeyLe(y, x)
    ensures KeyLe(x, y) && KeyLe(y, x) ==> SameKey(x, y)
  {
    LeTotal(x.cls, y.cls);
    LeTotal(x.title, y.title);
  }

  lemma KeyLeTransitive(x: Brief, y: Brief, z: Brief)
    requires KeyLe(x, y) && KeyLe(y, z)
    ensures KeyLe(x, z)
  {
    LeTotal(x.cls, y.cls);
    if x.cls == y.cls == z.cls {
      LeTransitive(x.title, y.title, z.title);
    } else if x.cls != y.cls && y.cls != z.cls {
      LeTransitive(x.cls, y.cls, z.cls);
    }
  }

  predicate SameKey(x: Brief, y: Brief) { x.cls == y.cls && x.title == y.title }

  // ----- the stable sort ---------------------------------------------------------------

  function Insert(x: Brief, s: seq<Brief>): seq<Brief> {
    if s == [] || KeyLe(x, s[0]) then [x] + s else [s[0]] + Insert(x, s[1..])
  }

  function Sort(s: seq<Brief>): seq<Brief> { if s == [] then [] else Insert(s[0], Sort(s[1..])) }

  ghost predicate Rising(s: seq<Brief>) { forall i, j | 0 <= i < j < |s| :: KeyLe(s[i], s[j]) }

  function WithKey(s: seq<Brief>, k: Brief): seq<Brief> {
    if s == [] then [] else (if SameKey(s[0], k) then [s[0]] else []) + WithKey(s[1..], k)
  }

  lemma {:induction false} InsertKeeps(x: Brief, s: seq<Brief>)
    ensures multiset(Insert(x, s)) == multiset{x} + multiset(s)
  {
    if s != [] {
      assert s == [s[0]] + s[1..];
      InsertKeeps(x, s[1..]);
    }
  }

  lemma {:induction false} InsertRises(x: Brief, s: seq<Brief>)
    requires Rising(s)
    ensures Rising(Insert(x, s))
  {
    if s != [] {
      KeyLeTotal(x, s[0]);
      if KeyLe(x, s[0]) {
        forall j | 0 <= j < |s| ensures KeyLe(x, s[j]) {
          if j > 0 { KeyLeTransitive(x, s[0], s[j]); }
        }
      } else {
        InsertRises(x, s[1..]);
        InsertKeeps(x, s[1..]);
        var rest := Insert(x, s[1..]);
        forall j | 0 <= j < |rest| ensures KeyLe(s[0], rest[j]) {
          assert rest[j] in multiset(rest);
        }
      }
    }
  }

  lemma {:induction false} InsertKeepsTies(x: Brief, s: seq<Brief>, k: Brief)
    ensures WithKey(Insert(x, s), k) == (if SameKey(x, k) then [x] else []) + WithKey(s, k)
  {
    if s != [] {
      if KeyLe(x, s[0]) {
        assert ([x] + s)[1..] == s;
      } else {
        InsertKeepsTies(x, s[1..], k);
        assert !SameKey(x, s[0]) by { LeTotal(x.title, s[0].title); }
      }
    }
  }

  lemma {:induction false} SortIs(s: seq<Brief>)
    ensures Rising(Sort(s)) && multiset(Sort(s)) == multiset(s)
  {
    if s != [] {
      SortIs(s[1..]);
      InsertKeeps(s[0], Sort(s[1..]));
      InsertRises(s[0], Sort(s[1..]));
      assert s == [s[0]] + s[1..];
    }
  }

  lemma {:induction false} SortKeepsTies(s: seq<Brief>, k: Brief)
    ensures WithKey(Sort(s), k) == WithKey(s, k)
  {
    if s != [] {
      SortKeepsTies(s[1..], k);
      InsertKeepsTies(s[0], Sort(s[1..]), k);
    }
  }

  lemma {:induction false} InWithKey(s: seq<Brief>, k: Brief)
    ensures forall x :: x in WithKey(s, k) <==> x in s && SameKey(x, k)
  {
    if s != [] {
      InWithKey(s[1..], k);
    }
  }

  /** A sorted list is fixed by what it holds under each key. */
  lemma {:induction false} SortedIsUnique(a: seq<Brief>, b: seq<Brief>)
    requires Rising(a) && Rising(b) && forall k :: WithKey(a, k) == WithKey(b, k)
    ensures a == b
  {
    if a == [] {
      if b != [] {
        SameHead(b, a);
      }
    } else {
      SameHead(a, b);
      forall k ensures WithKey(a[1..], k) == WithKey(b[1..], k) {
        assert WithKey(a, k) == WithKey(b, k);
        WithKeyTail(a, k);
        WithKeyTail(b, k);
      }
      SortedIsUnique(a[1..], b[1..]);
    }
  }

  lemma WithKeyTail(s: seq<Brief>, k: Brief)
    requires s != []
    ensures WithKey(s[1..], k) == if SameKey(s[0], k) then WithKey(s, k)[1..] else WithKey(s, k)
  {
  }

  lemma SameHead(a: seq<Brief>, b: seq<Brief>)
    requires Rising(a) && Rising(b) && a != [] && forall k :: WithKey(a, k) == WithKey(b, k)
    ensures b != [] && a[0] == b[0]
  {
    var x := a[0];
    assert WithKey(a, x)[0] == x && WithKey(b, x) == WithKey(a, x);
    InWithKey(b, x);
    assert x in b;
    var y := b[0];
    InWithKey(a, y);
    assert WithKey(b, y)[0] == y && WithKey(a, y) == WithKey(b, y);
    assert y in a;
    KeyLeTotal(x, y);
    KeyLeTotal(x, x);
    assert KeyLe(x, y) && KeyLe(y, x);
    assert WithKey(b, x)[0] == y;
  }
}
