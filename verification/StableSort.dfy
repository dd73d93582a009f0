/** Python's `sorted` with a key: ascending, equal keys in their old order. */
module StableSort {
  function Insert<T>(x: T, s: seq<T>, key: T -> real): seq<T> {
    if s == [] || key(x) <= key(s[0]) then [x] + s else [s[0]] + Insert(x, s[1..], key)
  }

  function Sort<T>(s: seq<T>, key: T -> real): seq<T> {
    if s == [] then [] else Insert(s[0], Sort(s[1..], key), key)
  }

  ghost predicate Rising<T>(s: seq<T>, key: T -> real) {
    forall i, j | 0 <= i < j < |s| :: key(s[i]) <= key(s[j])
  }

  /** The entries of one key, in order. */
  function WithKey<T>(s: seq<T>, key: T -> real, v: real): seq<T> {
    if s == [] then [] else (if key(s[0]) == v then [s[0]] else []) + WithKey(s[1..], key, v)
  }

  lemma {:induction false} InsertKeeps<T>(x: T, s: seq<T>, key: T -> real)
    ensures multiset(Insert(x, s, key)) == multiset{x} + multiset(s)
  {
    if s != [] {
      assert s == [s[0]] + s[1..];
      InsertKeeps(x, s[1..], key);
    }
  }

  lemma {:induction false} InsertRises<T>(x: T, s: seq<T>, key: T -> real)
    requires Rising(s, key)
    ensures Rising(Insert(x, s, key), key)
  {
    if s != [] && key(x) > key(s[0]) {
      InsertRises(x, s[1..], key);
      InsertKeeps(x, s[1..], key);
      var rest := Insert(x, s[1..], key);
      forall j | 0 <= j < |rest| ensures key(s[0]) <= key(rest[j]) {
        assert rest[j] in multiset(rest);
      }
    }
  }

  lemma {:induction false} InsertKeepsTies<T>(x: T, s: seq<T>, key: T -> real, v: real)
    requires Rising(s, key)
    ensures WithKey(Insert(x, s, key), key, v) == (if key(x) == v then [x] else []) + WithKey(s, key, v)
  {
    if s != [] {
      if key(x) > key(s[0]) {
        InsertKeepsTies(x, s[1..], key, v);
      } else {
        assert ([x] + s)[1..] == s;
      }
    }
  }

  /** The sort orders by key, keeps the members, and keeps equal keys in their old order. */
  lemma {:induction false} SortIs<T>(s: seq<T>, key: T -> real, v: real)
    ensures Rising(Sort(s, key), key)
    ensures multiset(Sort(s, key)) == multiset(s)
    ensures WithKey(Sort(s, key), key, v) == WithKey(s, key, v)
  {
    if s != [] {
      SortIs(s[1..], key, v);
      InsertKeeps(s[0], Sort(s[1..], key), key);
      InsertRises(s[0], Sort(s[1..], key), key);
      InsertKeepsTies(s[0], Sort(s[1..], key), key, v);
      assert s == [s[0]] + s[1..];
    }
  }

  lemma SortKeepsLength<T>(s: seq<T>, key: T -> real)
    ensures |Sort(s, key)| == |s|
  {
    SortIs(s, key, 0.0);
    assert |multiset(Sort(s, key))| == |multiset(s)|;
  }

  // ----- entry by entry ----------------------------------------------------------------

  /** Every entry once, by key, and those of one key as they stood. */
  ghost predicate Sorts<T>(s: seq<T>, key: T -> real, order: seq<nat>) {
    && |order| == |s| && (forall i | 0 <= i < |order| :: order[i] < |s|)
    && (forall i, j | 0 <= i < j < |order| ::
          && order[i] != order[j]
          && (key(s[order[i]]) < key(s[order[j]]) || (key(s[order[i]]) == key(s[order[j]]) && order[i] < order[j])))
  }

  lemma {:induction false} InsertAt<T>(x: T, s: seq<T>, key: T -> real) returns (k: nat)
    ensures k <= |s| && Insert(x, s, key) == s[..k] + [x] + s[k..]
    ensures (forall j | 0 <= j < k :: key(s[j]) < key(x)) && (k < |s| ==> key(x) <= key(s[k]))
  {
    if s == [] || key(x) <= key(s[0]) {
      k := 0;
    } else {
      var h := InsertAt(x, s[1..], key);
      k := h + 1;
      assert [s[0]] + s[1..][..h] == s[..k] && s[1..][h..] == s[k..];
      forall j | 0 <= j < k ensures key(s[j]) < key(x) {
        assert j > 0 ==> s[j] == s[1..][j - 1];
      }
    }
  }

  function Shifted(at: seq<nat>): (r: seq<nat>)
    ensures |r| == |at| && forall i | 0 <= i < |at| :: r[i] == at[i] + 1
  {
    seq(|at|, i requires 0 <= i < |at| => at[i] + 1)
  }

  /** Where every entry of the sorted list stood. */
  lemma {:induction false} SortAt<T>(s: seq<T>, key: T -> real) returns (order: seq<nat>)
    ensures Sorts(s, key, order) && |Sort(s, key)| == |s| && forall i | 0 <= i < |s| :: Sort(s, key)[i] == s[order[i]]
  {
    if s == [] {
      order := [];
    } else {
      var rest := SortAt(s[1..], key);
      var sorted := Sort(s[1..], key);
      var k := InsertAt(s[0], sorted, key);
      SortIs(s[1..], key, 0.0);
      order := Shifted(rest)[..k] + [0] + Shifted(rest)[k..];
      OrderMore(s, key, sorted, rest, k, order);
    }
  }

  lemma OrderMore<T>(s: seq<T>, key: T -> real, sorted: seq<T>, rest: seq<nat>, k: nat, order: seq<nat>)
    requires s != [] && Sorts(s[1..], key, rest) && |sorted| == |s| - 1 && Rising(sorted, key)
    requires forall i | 0 <= i < |sorted| :: sorted[i] == s[1..][rest[i]]
    requires k <= |sorted| && order == Shifted(rest)[..k] + [0] + Shifted(rest)[k..]
    requires (forall j | 0 <= j < k :: key(sorted[j]) < key(s[0])) && (k < |sorted| ==> key(s[0]) <= key(sorted[k]))
    ensures Sorts(s, key, order)
    ensures forall i | 0 <= i < |s| :: (sorted[..k] + [s[0]] + sorted[k..])[i] == s[order[i]]
  {
    forall i | 0 <= i < |s|
      ensures order[i] == if i < k then rest[i] + 1 else if i == k then 0 else rest[i - 1] + 1
      ensures order[i] < |s| && s[order[i]] == if i < k then sorted[i] else if i == k then s[0] else sorted[i - 1] {
    }
    forall i, j | 0 <= i < j < |s|
      ensures order[i] != order[j]
      ensures key(s[order[i]]) < key(s[order[j]]) || (key(s[order[i]]) == key(s[order[j]]) && order[i] < order[j]) {
      if i == k {
        assert key(sorted[k]) <= key(sorted[j - 1]);
      } else if j != k {
        var a, b := if i < k then i else i - 1, if j < k then j else j - 1;
        assert rest[a] != rest[b];
      }
    }
  }
}
