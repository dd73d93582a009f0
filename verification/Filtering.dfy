/** Positions picked out of a list, in order. */
module Filtering {
  ghost predicate Rises(at: seq<nat>) { forall j, k | 0 <= j < k < |at| :: at[j] < at[k] }

  function Past(at: seq<nat>): (r: seq<nat>)
    ensures |r| == |at| && forall k | 0 <= k < |at| :: r[k] == at[k] + 1
  {
    seq(|at|, k requires 0 <= k < |at| => at[k] + 1)
  }

  /** Positions in a list with one more element in front. */
  lemma OneInFront(at: seq<nat>, first: bool) returns (all: seq<nat>)
    requires Rises(at)
    ensures all == (if first then [0] else []) + Past(at) && Rises(all)
    ensures forall i: nat :: i in all <==> if i == 0 then first else i - 1 in at
  {
    all := (if first then [0] else []) + Past(at);
    var d := if first then 1 else 0;
    forall i: nat ensures i in all <==> if i == 0 then first else i - 1 in at {
      if i in all && i > 0 {
        var k :| 0 <= k < |all| && all[k] == i;
        assert at[k - d] == i - 1;
      }
      if i > 0 && i - 1 in at {
        var k :| 0 <= k < |at| && at[k] == i - 1;
        assert all[k + d] == i;
      }
      if i == 0 && first {
        assert all[0] == 0;
      }
    }
  }

  /** Positions in a list with one more element at the end. */
  lemma OneBehind(at: seq<nat>, n: nat, last: bool) returns (all: seq<nat>)
    requires Rises(at) && forall i | i in at :: i < n
    ensures all == at + (if last then [n] else []) && Rises(all)
    ensures forall i: nat :: i in all <==> i in at || (last && i == n)
  {
    all := at + if last then [n] else [];
    assert forall k | 0 <= k < |at| :: at[k] in at;
  }

  /** `part` is what stands at these positions of `whole`. */
  ghost predicate StandsAt<T>(part: seq<T>, whole: seq<T>, at: seq<nat>) {
    && Rises(at) && |at| == |part|
    && forall k | 0 <= k < |at| :: at[k] < |whole| && part[k] == whole[at[k]]
  }

  lemma FrontStands<T>(part: seq<T>, whole: seq<T>, at: seq<nat>, x: T, keep: bool) returns (all: seq<nat>)
    requires StandsAt(part, whole, at)
    ensures StandsAt((if keep then [x] else []) + part, [x] + whole, all)
    ensures forall i: nat :: i in all <==> if i == 0 then keep else i - 1 in at
  {
    all := OneInFront(at, keep);
    var d := if keep then 1 else 0;
    forall k | 0 <= k < |all|
      ensures all[k] < |whole| + 1 && ((if keep then [x] else []) + part)[k] == ([x] + whole)[all[k]] {
      if k >= d {
        assert all[k] == at[k - d] + 1;
      }
    }
  }

  lemma LastStands<T>(part: seq<T>, whole: seq<T>, at: seq<nat>, x: T, keep: bool) returns (all: seq<nat>)
    requires StandsAt(part, whole, at)
    ensures StandsAt(part + (if keep then [x] else []), whole + [x], all)
    ensures forall i: nat :: i in all <==> i in at || (keep && i == |whole|)
  {
    forall i | i in at ensures i < |whole| {
      var k :| 0 <= k < |at| && at[k] == i;
    }
    all := OneBehind(at, |whole|, keep);
  }
}
