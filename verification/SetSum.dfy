/** Sums of a worth over finite sets, in whatever order the members are taken. */
module SetSum {
  ghost function Sum<T(!new)>(f: T -> real, s: set<T>): real {
    if s == {} then 0.0 else var p :| p in s; f(p) + Sum(f, s - {p})
  }

  lemma {:induction false} SumRemove<T(!new)>(f: T -> real, s: set<T>, p: T)
    requires p in s
    ensures Sum(f, s) == f(p) + Sum(f, s - {p})
  {
    var q :| q in s && Sum(f, s) == f(q) + Sum(f, s - {q});
    if q != p {
      SumRemove(f, s - {q}, p);
      SumRemove(f, s - {p}, q);
      assert s - {q} - {p} == s - {p} - {q};
    }
  }

  lemma {:induction false} SumUnion<T(!new)>(f: T -> real, s: set<T>, t: set<T>)
    requires s !! t
    ensures Sum(f, s + t) == Sum(f, s) + Sum(f, t)
  {
    if s == {} {
      assert s + t == t;
    } else {
      var p :| p in s;
      SumUnion(f, s - {p}, t);
      SumRemove(f, s, p);
      SumRemove(f, s + t, p);
      assert s + t - {p} == s - {p} + t;
    }
  }

  ghost predicate NeverNegative<T(!new)>(f: T -> real) {
    forall p :: f(p) >= 0.0
  }

  lemma {:induction false} SumPositive<T(!new)>(f: T -> real, s: set<T>)
    requires NeverNegative(f)
    ensures Sum(f, s) >= 0.0
  {
    if s != {} {
      var p :| p in s && Sum(f, s) == f(p) + Sum(f, s - {p});
      SumPositive(f, s - {p});
    }
  }

  lemma SumGrows<T(!new)>(f: T -> real, s: set<T>, t: set<T>)
    requires NeverNegative(f) && s <= t
    ensures Sum(f, s) <= Sum(f, t)
  {
    SumUnion(f, s, t - s);
    assert s + (t - s) == t;
    SumPositive(f, t - s);
  }
}
