/** A session's whole forest: every action counted once, every transcript placed once. */
module Grafting {
  import opened Options
  import opened GraftingModel

  // ----- the whole session -------------------------------------------------------------

  const EMPTY := Forest([], map[], [], [])

  function Teammates(metas: seq<Meta>): seq<Meta> {
    if metas == [] then [] else Teammates(metas[..|metas| - 1]) + if metas[|metas| - 1].toolUseId == "" then [metas[|metas| - 1]] else []
  }

  function Spawned(metas: seq<Meta>): seq<Meta> {
    if metas == [] then [] else Spawned(metas[..|metas| - 1]) + if metas[|metas| - 1].toolUseId != "" then [metas[|metas| - 1]] else []
  }

  /** Transcripts that stay at the top. */
  function LoadAll(f: Forest, ms: seq<Meta>): Forest {
    if ms == [] then f else Load(LoadAll(f, ms[..|ms| - 1]), ms[|ms| - 1].recs, true)
  }

  /** `graft_subagents`: teammates first, then passes, then the orphans. */
  ghost function Graft(f: Forest, metas: seq<Meta>): Progress
    requires Tree(f)
  {
    var team := LoadAll(f, Teammates(metas));
    LoadAllIsTree(f, Teammates(metas));
    assert Known(team.index.Keys, team, []);
    var r := Fix(team.index.Keys, team, [], Spawned(metas));
    Progress(LoadAll(r.f, r.left), r.order, r.left)
  }

  ghost function Session(recs: seq<Rec>, metas: seq<Meta>): Progress {
    EmptyIsTree();
    LoadIsTree(EMPTY, recs, false);
    Graft(Load(EMPTY, recs, false), metas)
  }

  lemma EmptyIsTree()
    ensures Tree(EMPTY)
  {
    assert EMPTY.roots + Kids(EMPTY.acts) + EMPTY.stray == Range(0, 0);
  }

  lemma {:induction false} LoadAllIsTree(f: Forest, ms: seq<Meta>)
    requires Tree(f)
    ensures Tree(LoadAll(f, ms)) && |LoadAll(f, ms).acts| == |f.acts| + Blocks(ms)
    ensures Known(LoadAll(f, ms).index.Keys, LoadAll(f, ms), [])
  {
    assert Opened([]) == {};
    if ms != [] {
      LoadAllIsTree(f, ms[..|ms| - 1]);
      LoadIsTree(LoadAll(f, ms[..|ms| - 1]), ms[|ms| - 1].recs, true);
      BlocksLast(ms);
    }
  }

  lemma {:induction false} BlocksSplit(a: seq<Meta>, b: seq<Meta>)
    ensures Blocks(a + b) == Blocks(a) + Blocks(b)
  {
    if a == [] {
      assert a + b == b;
    } else {
      assert (a + b)[1..] == a[1..] + b;
      BlocksSplit(a[1..], b);
    }
  }

  lemma BlocksLast(ms: seq<Meta>)
    requires ms != []
    ensures Blocks(ms) == Blocks(ms[..|ms| - 1]) + |ToolUses(ms[|ms| - 1].recs, true)|
  {
    assert ms == ms[..|ms| - 1] + [ms[|ms| - 1]];
    BlocksSplit(ms[..|ms| - 1], [ms[|ms| - 1]]);
  }

  lemma BlocksMore(ms: seq<Meta>, m: Meta)
    ensures Blocks(ms + [m]) == Blocks(ms) + |ToolUses(m.recs, true)|
    ensures multiset(ms + [m]) == multiset(ms) + multiset{m}
  {
    BlocksSplit(ms, [m]);
    var one := [m];
    assert one[1..] == [];
  }

  ghost predicate Covers(a: seq<Meta>, b: seq<Meta>, all: seq<Meta>) {
    Blocks(a) + Blocks(b) == Blocks(all) && multiset(a) + multiset(b) == multiset(all)
  }

  lemma CoversMore(a: seq<Meta>, b: seq<Meta>, all: seq<Meta>, m: Meta)
    requires Covers(a, b, all)
    ensures Covers(a + [m], b, all + [m]) && Covers(a, b + [m], all + [m])
  {
    BlocksMore(all, m);
    BlocksMore(a, m);
    BlocksMore(b, m);
    Swap(multiset(a), multiset{m}, multiset(b));
    Assoc(multiset(a), multiset(b), multiset{m});
  }

  lemma KindsMore(ms: seq<Meta>, m: Meta)
    ensures m.toolUseId == "" ==> Teammates(ms + [m]) == Teammates(ms) + [m] && Spawned(ms + [m]) == Spawned(ms)
    ensures m.toolUseId != "" ==> Teammates(ms + [m]) == Teammates(ms) && Spawned(ms + [m]) == Spawned(ms) + [m]
  {
    assert (ms + [m])[..|ms|] == ms;
  }

  lemma CoversNext(metas: seq<Meta>, front: seq<Meta>, last: Meta)
    requires Covers(Teammates(front), Spawned(front), front) && metas == front + [last]
    ensures Covers(Teammates(metas), Spawned(metas), metas)
  {
    KindsMore(front, last);
    CoversMore(Teammates(front), Spawned(front), front, last);
  }

  lemma NoneCover()
    ensures Covers(Teammates([]), Spawned([]), [])
  {
  }

  lemma EndsIn(metas: seq<Meta>) returns (front: seq<Meta>, last: Meta)
    requires metas != []
    ensures metas == front + [last] && |front| < |metas|
  {
    front, last := metas[..|metas| - 1], metas[|metas| - 1];
  }

  lemma {:induction false} KindsCover(metas: seq<Meta>)
    ensures Covers(Teammates(metas), Spawned(metas), metas)
    decreases |metas|
  {
    if metas == [] {
      NoneCover();
    } else {
      var front, last := EndsIn(metas);
      KindsCover(front);
      CoversNext(metas, front, last);
    }
  }

  /** Every transcript is attached once, or stands alone once: as a teammate, or because its call is nowhere. */
  lemma EachTranscriptOnce(recs: seq<Rec>, metas: seq<Meta>)
    ensures (var r := Session(recs, metas);
             && multiset(Teammates(metas)) + (multiset(r.order) + multiset(r.left)) == multiset(metas)
             && |r.f.acts| == |ToolUses(recs, false)| + Blocks(metas)
             && Tree(r.f))
  {
    EmptyIsTree();
    LoadIsTree(EMPTY, recs, false);
    var f := Load(EMPTY, recs, false);
    LoadAllIsTree(f, Teammates(metas));
    var team := LoadAll(f, Teammates(metas));
    FixIs(team.index.Keys, team, [], Spawned(metas));
    var r := Fix(team.index.Keys, team, [], Spawned(metas));
    LoadAllIsTree(r.f, r.left);
    KindsCover(metas);
  }

  /** The ids a teammate or the main transcript opens. */
  ghost function Openly(recs: seq<Rec>, metas: seq<Meta>): set<string> {
    LoadAll(Load(EMPTY, recs, false), Teammates(metas)).index.Keys
  }

  lemma LoadOpens(f: Forest, m: Meta) returns (more: set<string>)
    requires Tree(f)
    ensures more == IdsOf(ToolUses(m.recs, true)) && Load(f, m.recs, true).index.Keys == f.index.Keys + more
  {
    LoadIsTree(f, m.recs, true);
    more := IdsOf(ToolUses(m.recs, true));
  }

  lemma {:induction false} LoadAllOpens(f: Forest, ms: seq<Meta>) returns (ids: set<string>)
    requires Tree(f)
    ensures ids == Opened(ms) && LoadAll(f, ms).index.Keys == f.index.Keys + ids
    decreases |ms|
  {
    if ms == [] {
      ids := {};
    } else {
      var front, m := EndsIn(ms);
      var before := LoadAllOpens(f, front);
      LoadAllIsTree(f, front);
      LoadAllMore(f, front, m);
      var more := LoadOpens(LoadAll(f, front), m);
      OpenedMore(front, m);
      ids := before + more;
    }
  }

  lemma LoadAllMore(f: Forest, ms: seq<Meta>, m: Meta)
    ensures LoadAll(f, ms + [m]) == Load(LoadAll(f, ms), m.recs, true)
  {
    assert (ms + [m])[..|ms|] == ms;
  }

  lemma {:induction false} InKinds(metas: seq<Meta>, m: Meta)
    ensures m in Teammates(metas) <==> m in metas && m.toolUseId == ""
    ensures m in Spawned(metas) <==> m in metas && m.toolUseId != ""
  {
    if metas != [] {
      var front, last := metas[..|metas| - 1], metas[|metas| - 1];
      InKinds(front, m);
      assert metas == front + [last];
    }
  }

  lemma KindsAre(metas: seq<Meta>)
    ensures SetOf(Teammates(metas)) == set m | m in metas && m.toolUseId == ""
    ensures SetOf(Spawned(metas)) == set m | m in metas && m.toolUseId != ""
  {
    forall m
      ensures m in Teammates(metas) <==> m in metas && m.toolUseId == ""
      ensures m in Spawned(metas) <==> m in metas && m.toolUseId != ""
    {
      InKinds(metas, m);
    }
  }

  /** A fixpoint: what attached was called, what is left was not, and nothing is missing. */
  lemma FixFacts(base: set<string>, f: Forest, pending: seq<Meta>) returns (order: seq<Meta>, left: seq<Meta>)
    requires Known(base, f, [])
    ensures order == Fix(base, f, [], pending).order && left == Fix(base, f, [], pending).left
    ensures Grounded(base, order) && LeftOver(base, order, left) && SetOf(order) + SetOf(left) == SetOf(pending)
  {
    FixIs(base, f, [], pending);
    var r := Fix(base, f, [], pending);
    order, left := r.order, r.left;
    SameMembers(order, left, pending);
  }

  /** The session's fixpoint. */
  lemma SessionIs(recs: seq<Rec>, metas: seq<Meta>)
    ensures var r := Session(recs, metas); var base := Openly(recs, metas);
            && Grounded(base, r.order) && LeftOver(base, r.order, r.left)
            && SetOf(r.order) + SetOf(r.left) == SetOf(Spawned(metas))
  {
    EmptyIsTree();
    LoadIsTree(EMPTY, recs, false);
    var f := Load(EMPTY, recs, false);
    LoadAllIsTree(f, Teammates(metas));
    var team := LoadAll(f, Teammates(metas));
    var order, left := FixFacts(team.index.Keys, team, Spawned(metas));
  }

  lemma OpenlyIs(recs: seq<Rec>, metas: seq<Meta>)
    ensures Openly(recs, metas) == IdsOf(ToolUses(recs, false)) + Opened(Teammates(metas))
  {
    EmptyIsTree();
    LoadIsTree(EMPTY, recs, false);
    var ids := LoadAllOpens(Load(EMPTY, recs, false), Teammates(metas));
  }

  // ----- chains of calls ---------------------------------------------------------------

  /** Each transcript is called from the one before it, the first from `base`. */
  predicate IsChain(base: set<string>, spawned: set<Meta>, c: seq<Meta>) {
    && c != [] && c[0].toolUseId in base
    && (forall k | 0 <= k < |c| :: c[k] in spawned)
    && forall k | 0 < k < |c| :: c[k].toolUseId in ToolUses(c[k - 1].recs, true)
  }

  ghost predicate Called(base: set<string>, spawned: set<Meta>, m: Meta) {
    exists c :: IsChain(base, spawned, c) && c[|c| - 1] == m
  }

  lemma {:induction false} ChainIsAttached(base: set<string>, order: seq<Meta>, left: seq<Meta>, c: seq<Meta>, k: nat)
    requires LeftOver(base, order, left) && IsChain(base, SetOf(order) + SetOf(left), c) && k < |c|
    ensures c[k] in order
  {
    if k > 0 {
      ChainIsAttached(base, order, left, c, k - 1);
      assert c[k].toolUseId in ToolUses(c[k - 1].recs, true);
    }
    NotLeft(base, order, left, c[k]);
  }

  lemma ChainMore(base: set<string>, spawned: set<Meta>, c: seq<Meta>, m: Meta)
    requires IsChain(base, spawned, c) && m in spawned && m.toolUseId in ToolUses(c[|c| - 1].recs, true)
    ensures IsChain(base, spawned, c + [m])
  {
    var d := c + [m];
    forall k | 0 < k < |d| ensures d[k].toolUseId in ToolUses(d[k - 1].recs, true) {
      assert k < |c| ==> d[k] == c[k];
    }
  }

  lemma {:induction false} AttachedHasChain(base: set<string>, order: seq<Meta>, spawned: set<Meta>, k: nat) returns (c: seq<Meta>)
    requires Grounded(base, order) && SetOf(order) <= spawned && k < |order|
    ensures IsChain(base, spawned, c) && c[|c| - 1] == order[k]
    decreases k
  {
    var m := order[k];
    assert m in SetOf(order);
    if m.toolUseId in base {
      c := [m];
    } else {
      assert m.toolUseId in Opened(order[..k]);
      var caller :| caller in order[..k] && m.toolUseId in ToolUses(caller.recs, true);
      var j :| 0 <= j < k && order[j] == caller;
      c := AttachedHasChain(base, order, spawned, j);
      ChainMore(base, spawned, c, m);
      c := c + [m];
    }
  }

  /** A spawned transcript attaches exactly when a chain of calls leads to it from the main transcript
    * or a teammate's; otherwise it is left as an orphan. */
  lemma AttachedIff(recs: seq<Rec>, metas: seq<Meta>, m: Meta)
    requires m in Spawned(metas)
    ensures m in Session(recs, metas).order <==> Called(Openly(recs, metas), SetOf(Spawned(metas)), m)
    ensures m in Session(recs, metas).left <==> !Called(Openly(recs, metas), SetOf(Spawned(metas)), m)
  {
    SessionIs(recs, metas);
    var r, base, spawned := Session(recs, metas), Openly(recs, metas), SetOf(Spawned(metas));
    assert m in spawned;
    if m in r.order {
      var k :| 0 <= k < |r.order| && r.order[k] == m;
      var c := AttachedHasChain(base, r.order, spawned, k);
      GroundedIsKnown(base, r.order, k);
    }
    if Called(base, spawned, m) {
      var c :| IsChain(base, spawned, c) && c[|c| - 1] == m;
      ChainIsAttached(base, r.order, r.left, c, |c| - 1);
    }
    assert m in SetOf(r.order) || m in SetOf(r.left);
  }

  /** What attached was called from what attached, so it is not left over. */
  lemma GroundedIsKnown(base: set<string>, order: seq<Meta>, k: nat)
    requires Grounded(base, order) && k < |order|
    ensures order[k].toolUseId in base + Opened(order)
  {
    OpenedGrows(order[..k], SetOf(order), order);
  }

  lemma OpenedOfSet(a: seq<Meta>, b: seq<Meta>)
    requires SetOf(a) == SetOf(b)
    ensures Opened(a) == Opened(b)
  {
    OpenedGrows(a, SetOf(b), b);
    OpenedGrows(b, SetOf(a), a);
  }

  /** Which transcripts attach and which are left does not depend on the order of the files. */
  lemma FileOrderDoesNotMatter(recs: seq<Rec>, metas: seq<Meta>, other: seq<Meta>)
    requires SetOf(metas) == SetOf(other)
    ensures SetOf(Session(recs, metas).order) == SetOf(Session(recs, other).order)
    ensures SetOf(Session(recs, metas).left) == SetOf(Session(recs, other).left)
  {
    KindsAre(metas);
    KindsAre(other);
    assert forall m :: m in metas <==> m in SetOf(metas);
    assert forall m :: m in other <==> m in SetOf(other);
    assert SetOf(Spawned(metas)) == SetOf(Spawned(other)) && SetOf(Teammates(metas)) == SetOf(Teammates(other));
    SessionIs(recs, metas);
    SessionIs(recs, other);
    OpenedOfSet(Teammates(metas), Teammates(other));
    OpenlyIs(recs, metas);
    OpenlyIs(recs, other);
    var a, b, base := Session(recs, metas), Session(recs, other), Openly(recs, metas);
    AttachedBoth(base, a.order, b.order, b.left);
    AttachedBoth(base, b.order, a.order, a.left);
    LeftAreTheRest(base, a.order, a.left);
    LeftAreTheRest(base, b.order, b.left);
  }

  lemma LeftAreTheRest(base: set<string>, order: seq<Meta>, left: seq<Meta>)
    requires Grounded(base, order) && LeftOver(base, order, left)
    ensures SetOf(left) == SetOf(order) + SetOf(left) - SetOf(order)
  {
    forall m | m in order ensures m !in left {
      var k :| 0 <= k < |order| && order[k] == m;
      GroundedIsKnown(base, order, k);
    }
  }

  lemma NothingPasses(f: Forest, a: Meta, b: Meta)
    requires Tree(f) && a.toolUseId !in f.index && b.toolUseId !in f.index
    ensures Pass(f, [], [a, b]) == Progress(f, [], [a, b])
  {
    var two, one := [a, b], [b];
    assert two[1..] == one && one[1..] == [];
    assert Pass(f, [], one[1..]) == Progress(f, [], []);
    assert Pass(f, [], one) == Progress(f, [], [b]);
  }

  lemma BothSpawned(a: Meta, b: Meta)
    requires a.toolUseId != "" && b.toolUseId != ""
    ensures Spawned([a, b]) == [a, b] && Teammates([a, b]) == []
  {
    assert [a, b] == [] + [a] + [b];
    KindsMore([], a);
    KindsMore([] + [a], b);
  }

  /** An orphan's own calls graft nothing: a transcript whose call is in an orphan comes back as an orphan too. */
  lemma CallInsideOrphan()
    ensures (var a := Meta("gone", None, [Prompt(true), Assistant(true, "u", [ToolUse("Agent", "here")])]);
             var b := Meta("here", None, []);
             "here" in ToolUses(a.recs, true) && Session([], [a, b]).left == [a, b])
  {
    var recs := [Prompt(true), Assistant(true, "u", [ToolUse("Agent", "here")])];
    var a, b := Meta("gone", None, recs), Meta("here", None, []);
    var uses := [ToolUse("Agent", "here")];
    assert uses[..0] == [] && Uses(uses) == [] + ["here"];
    assert recs[..1] == [Prompt(true)];
    assert ToolUses(recs, true) == ToolUses(recs[..1], true) + ["here"];
    EmptyIsTree();
    LoadIsTree(EMPTY, [], false);
    var f := Load(EMPTY, [], false);
    assert f.index.Keys == {};
    BothSpawned(a, b);
    LoadAllIsTree(f, []);
    NothingPasses(f, a, b);
  }

  // ----- counting ----------------------------------------------------------------------

  ghost predicate InForest(acts: seq<Act>, ids: seq<nat>, lo: nat) {
    lo <= |acts| && forall c | c in ids :: lo <= c < |acts|
  }

  lemma TailInForest(acts: seq<Act>, ids: seq<nat>, lo: nat)
    requires InForest(acts, ids, lo) && ids != []
    ensures InForest(acts, ids[1..], lo) && lo <= ids[0] < |acts|
  {
    assert ids[0] in ids;
    assert forall c | c in ids[1..] :: c in ids;
  }

  lemma JoinInForest(acts: seq<Act>, a: seq<nat>, b: seq<nat>)
    ensures InForest(acts, a + b, 0) <==> InForest(acts, a, 0) && InForest(acts, b, 0)
  {
    forall c ensures c in a + b <==> c in a || c in b {
    }
  }

  /** The actions under `ids`, nested ones included, that satisfy `p`. */
  ghost function Weigh(acts: seq<Act>, ids: seq<nat>, lo: nat, p: Act -> bool): nat
    requires ChildrenLater(acts) && InForest(acts, ids, lo)
    decreases |acts| - lo, |ids|
  {
    if ids == [] then 0
    else
      var i := ids[0];
      assert i in ids;
      TailInForest(acts, ids, lo);
      (if p(acts[i]) then 1 else 0) + Weigh(acts, acts[i].children, i + 1, p) + Weigh(acts, ids[1..], lo, p)
  }

  function CountIf(acts: seq<Act>, p: Act -> bool): nat {
    if acts == [] then 0 else CountIf(acts[..|acts| - 1], p) + if p(acts[|acts| - 1]) then 1 else 0
  }

  lemma {:induction false} WeighAnyLow(acts: seq<Act>, ids: seq<nat>, lo: nat, low: nat, p: Act -> bool)
    requires ChildrenLater(acts) && InForest(acts, ids, lo) && InForest(acts, ids, low)
    ensures Weigh(acts, ids, lo, p) == Weigh(acts, ids, low, p)
    decreases |ids|
  {
    if ids != [] {
      TailInForest(acts, ids, lo);
      TailInForest(acts, ids, low);
      WeighAnyLow(acts, ids[1..], lo, low, p);
    }
  }

  lemma {:induction false} WeighSplit(acts: seq<Act>, a: seq<nat>, b: seq<nat>, p: Act -> bool)
    requires ChildrenLater(acts) && InForest(acts, a, 0) && InForest(acts, b, 0)
    ensures InForest(acts, a + b, 0) && Weigh(acts, a + b, 0, p) == Weigh(acts, a, 0, p) + Weigh(acts, b, 0, p)
    decreases |a|
  {
    JoinInForest(acts, a, b);
    if a == [] {
      assert a + b == b;
    } else {
      assert (a + b)[1..] == a[1..] + b;
      TailInForest(acts, a, 0);
      WeighSplit(acts, a[1..], b, p);
    }
  }

  /** Without entry `k`. */
  function Drop(b: seq<nat>, k: nat): seq<nat>
    requires k < |b|
  {
    b[..k] + b[k + 1..]
  }

  lemma WeighWithout(acts: seq<Act>, b: seq<nat>, k: nat, p: Act -> bool)
    requires ChildrenLater(acts) && InForest(acts, b, 0) && k < |b|
    ensures InForest(acts, [b[k]], 0) && InForest(acts, Drop(b, k), 0)
    ensures Weigh(acts, b, 0, p) == Weigh(acts, [b[k]], 0, p) + Weigh(acts, Drop(b, k), 0, p)
  {
    var front, one, back := b[..k], [b[k]], b[k + 1..];
    assert b == front + (one + back);
    JoinInForest(acts, front, one + back);
    JoinInForest(acts, one, back);
    WeighSplit(acts, one, back, p);
    WeighSplit(acts, front, one + back, p);
    WeighSplit(acts, front, back, p);
  }

  lemma DropOne(b: seq<nat>, k: nat)
    requires k < |b|
    ensures multiset(b) == multiset(Drop(b, k)) + multiset{b[k]}
  {
    assert b == b[..k] + [b[k]] + b[k + 1..];
  }

  lemma SameRest(a: multiset<nat>, b: multiset<nat>, x: multiset<nat>)
    requires a + x == b + x
    ensures a == b
  {
    assert a == (a + x) - x && b == (b + x) - x;
  }

  lemma FindIn(a: seq<nat>, b: seq<nat>) returns (k: nat)
    requires a != [] && multiset(a) == multiset(b)
    ensures k < |b| && b[k] == a[0] && multiset(Drop(b, k)) == multiset(a[1..])
  {
    assert a[0] in multiset(b);
    k :| k < |b| && b[k] == a[0];
    DropOne(b, k);
    DropOne(a, 0);
    assert Drop(a, 0) == a[1..];
    SameRest(multiset(Drop(b, k)), multiset(a[1..]), multiset{a[0]});
  }

  /** The order in which actions are listed does not change what they weigh. */
  lemma {:induction false} WeighShuffled(acts: seq<Act>, a: seq<nat>, b: seq<nat>, p: Act -> bool)
    requires ChildrenLater(acts) && InForest(acts, a, 0) && InForest(acts, b, 0) && multiset(a) == multiset(b)
    ensures Weigh(acts, a, 0, p) == Weigh(acts, b, 0, p)
    decreases |a|
  {
    if a == [] {
      assert |multiset(b)| == 0;
    } else {
      var k := FindIn(a, b);
      WeighWithout(acts, b, k, p);
      WeighWithout(acts, a, 0, p);
      assert Drop(a, 0) == a[1..];
      WeighShuffled(acts, a[1..], Drop(b, k), p);
    }
  }

  lemma {:induction false} KidsInForest(acts: seq<Act>, n: nat)
    requires ChildrenLater(acts) && n <= |acts|
    ensures InForest(acts, Kids(acts[..n]), 0)
  {
    if n > 0 {
      KidsInForest(acts, n - 1);
      assert acts[..n][..n - 1] == acts[..n - 1];
    }
  }

  lemma RangeInForest(acts: seq<Act>, n: nat)
    requires n <= |acts|
    ensures InForest(acts, Range(0, n), 0)
  {
  }

  lemma WeighNone(acts: seq<Act>, p: Act -> bool)
    requires ChildrenLater(acts)
    ensures InForest(acts, [], 0) && Weigh(acts, [], 0, p) == 0
  {
  }

  lemma WeighFirst(acts: seq<Act>, ids: seq<nat>, rest: seq<nat>, i: nat, p: Act -> bool)
    requires ChildrenLater(acts) && InForest(acts, ids, 0) && InForest(acts, rest, 0) && ids != [] && ids[0] == i && ids[1..] == rest
    ensures i < |acts| && InForest(acts, acts[i].children, i + 1)
    ensures Weigh(acts, ids, 0, p)
      == (if p(acts[i]) then 1 else 0) + Weigh(acts, acts[i].children, i + 1, p) + Weigh(acts, rest, 0, p)
  {
    TailInForest(acts, ids, 0);
  }

  lemma WeighJust(acts: seq<Act>, ids: seq<nat>, i: nat, p: Act -> bool)
    requires ChildrenLater(acts) && InForest(acts, ids, 0) && ids == [i]
    ensures i < |acts| && InForest(acts, acts[i].children, i + 1)
    ensures Weigh(acts, ids, 0, p) == (if p(acts[i]) then 1 else 0) + Weigh(acts, acts[i].children, i + 1, p)
  {
    WeighNone(acts, p);
    WeighFirst(acts, ids, [], i, p);
  }

  lemma WeighOne(acts: seq<Act>, i: nat, p: Act -> bool)
    requires ChildrenLater(acts) && i < |acts|
    ensures InForest(acts, [i], 0) && InForest(acts, acts[i].children, 0)
    ensures Weigh(acts, [i], 0, p) == (if p(acts[i]) then 1 else 0) + Weigh(acts, acts[i].children, 0, p)
  {
    WeighOneOf(acts, [i], acts[i].children, i, p);
  }

  lemma WeighOneOf(acts: seq<Act>, ids: seq<nat>, kids: seq<nat>, i: nat, p: Act -> bool)
    requires ChildrenLater(acts) && i < |acts| && ids == [i] && kids == acts[i].children
    ensures InForest(acts, ids, 0) && InForest(acts, kids, 0)
    ensures Weigh(acts, ids, 0, p) == (if p(acts[i]) then 1 else 0) + Weigh(acts, kids, 0, p)
  {
    WeighJust(acts, ids, i, p);
    WeighAnyLow(acts, kids, i + 1, 0, p);
  }

  /** Weighing every action once is counting every action, and weighing all their children. */
  lemma {:induction false} WeighAll(acts: seq<Act>, n: nat, p: Act -> bool)
    requires ChildrenLater(acts) && n <= |acts|
    ensures InForest(acts, Range(0, n), 0) && InForest(acts, Kids(acts[..n]), 0)
    ensures Weigh(acts, Range(0, n), 0, p) == CountIf(acts[..n], p) + Weigh(acts, Kids(acts[..n]), 0, p)
  {
    RangeInForest(acts, n);
    KidsInForest(acts, n);
    if n > 0 {
      WeighAll(acts, n - 1, p);
      assert acts[..n][..n - 1] == acts[..n - 1];
      RangeMore(0, n - 1);
      WeighOne(acts, n - 1, p);
      WeighSplit(acts, Range(0, n - 1), [n - 1], p);
      WeighSplit(acts, Kids(acts[..n - 1]), acts[n - 1].children, p);
    }
  }

  lemma PlacesInForest(f: Forest)
    requires Tree(f)
    ensures InForest(f.acts, f.roots, 0) && InForest(f.acts, f.stray, 0) && InForest(f.acts, Kids(f.acts), 0)
  {
    var all := f.roots + Kids(f.acts) + f.stray;
    forall c | c in all ensures c < |f.acts| {
      assert c in multiset(all);
      assert c in Range(0, |f.acts|);
    }
    forall c | c in f.roots || c in f.stray || c in Kids(f.acts) ensures c in all {
    }
  }

  /** Conservation: the trees under the roots, with the strays', hold every action exactly once. */
  lemma NothingCountedTwice(f: Forest, p: Act -> bool)
    requires Tree(f)
    ensures InForest(f.acts, f.roots, 0) && InForest(f.acts, f.stray, 0)
    ensures Weigh(f.acts, f.roots, 0, p) + Weigh(f.acts, f.stray, 0, p) == CountIf(f.acts, p)
  {
    PlacesInForest(f);
    RangeInForest(f.acts, |f.acts|);
    WeighSplit(f.acts, f.roots, Kids(f.acts), p);
    WeighSplit(f.acts, f.roots + Kids(f.acts), f.stray, p);
    WeighShuffled(f.acts, f.roots + Kids(f.acts) + f.stray, Range(0, |f.acts|), p);
    WeighAll(f.acts, |f.acts|, p);
    assert f.acts[..|f.acts|] == f.acts;
  }

  function Every(): Act -> bool { (a: Act) => true }

  lemma {:induction false} CountEvery(acts: seq<Act>)
    ensures CountIf(acts, Every()) == |acts|
  {
    if acts != [] {
      CountEvery(acts[..|acts| - 1]);
    }
  }

  /** The session's count is the number of tool_use blocks, exactly when none comes before its transcript's first prompt. */
  lemma SessionCounts(recs: seq<Rec>, metas: seq<Meta>)
    ensures (var f := Session(recs, metas).f;
             && Tree(f) && InForest(f.acts, f.roots, 0)
             && Weigh(f.acts, f.roots, 0, Every()) <= |ToolUses(recs, false)| + Blocks(metas)
             && (Weigh(f.acts, f.roots, 0, Every()) == |ToolUses(recs, false)| + Blocks(metas) <==> f.stray == []))
  {
    EachTranscriptOnce(recs, metas);
    var f := Session(recs, metas).f;
    NothingCountedTwice(f, Every());
    CountEvery(f.acts);
    if f.stray != [] {
      assert f.stray[0] in f.stray;
    }
  }

  // ----- strays ------------------------------------------------------------------------

  /** Every tool_use follows a prompt. */
  predicate PromptFirst(recs: seq<Rec>, allowSide: bool) {
    recs == []
    || (PromptFirst(recs[..|recs| - 1], allowSide)
        && (RecUses(recs[|recs| - 1], allowSide) == [] || Prompted(recs[..|recs| - 1], allowSide)))
  }

  predicate Prompted(recs: seq<Rec>, allowSide: bool) {
    exists r :: r in recs && r.Prompt? && (allowSide || !r.side)
  }

  lemma {:induction false} BlocksKeepTurns(base: nat, p: Parsed, uuid: string, blocks: seq<Block>)
    ensures AddBlocks(base, p, uuid, blocks).turns == [] <==> p.turns == []
    ensures p.turns != [] ==> AddBlocks(base, p, uuid, blocks).stray == p.stray
    ensures p.turns == [] ==> |AddBlocks(base, p, uuid, blocks).stray| == |p.stray| + |Uses(blocks)|
  {
    if blocks != [] {
      BlocksKeepTurns(base, p, uuid, blocks[..|blocks| - 1]);
    }
  }

  lemma {:induction false} TurnsArePrompts(base: nat, recs: seq<Rec>, allowSide: bool)
    ensures Parse(base, recs, allowSide).turns != [] <==> Prompted(recs, allowSide)
    ensures Parse(base, recs, allowSide).stray == [] <==> PromptFirst(recs, allowSide)
  {
    if recs != [] {
      var front, last := recs[..|recs| - 1], recs[|recs| - 1];
      TurnsArePrompts(base, front, allowSide);
      assert recs == front + [last];
      match last
      case Assistant(side, uuid, blocks) => BlocksKeepTurns(base, Parse(base, front, allowSide), uuid, blocks);
      case _ =>
    }
  }

  ghost predicate AllPromptFirst(ms: seq<Meta>) { forall m | m in ms :: PromptFirst(m.recs, true) }

  lemma {:induction false} LoadAllStray(f: Forest, ms: seq<Meta>)
    ensures LoadAll(f, ms).stray == [] <==> f.stray == [] && AllPromptFirst(ms)
  {
    if ms != [] {
      var front, last := ms[..|ms| - 1], ms[|ms| - 1];
      assert ms == front + [last];
      LoadAllStray(f, front);
      TurnsArePrompts(|LoadAll(f, front).acts|, last.recs, true);
    }
  }

  lemma {:induction false} PassStray(base: set<string>, f: Forest, order: seq<Meta>, pending: seq<Meta>)
    requires Known(base, f, order)
    ensures (var r := Pass(f, order, pending);
             (r.f.stray == [] && AllPromptFirst(r.left)) <==> (f.stray == [] && AllPromptFirst(pending)))
    decreases |pending|
  {
    if pending != [] {
      var m := pending[0];
      assert pending == [m] + pending[1..];
      if m.toolUseId in f.index {
        AttachKnown(base, f, order, m);
        TurnsArePrompts(|f.acts|, m.recs, true);
        PassStray(base, Attach(f, f.index[m.toolUseId], m), order + [m], pending[1..]);
      } else {
        PassStray(base, f, order, pending[1..]);
      }
    }
  }

  lemma {:induction false} FixStray(base: set<string>, f: Forest, order: seq<Meta>, pending: seq<Meta>)
    requires Known(base, f, order)
    ensures (var r := Fix(base, f, order, pending);
             (r.f.stray == [] && AllPromptFirst(r.left)) <==> (f.stray == [] && AllPromptFirst(pending)))
    decreases |pending|
  {
    PassIs(base, f, order, pending);
    PassStray(base, f, order, pending);
    var r := Pass(f, order, pending);
    if |r.left| < |pending| {
      FixStray(base, r.f, r.order, r.left);
    }
  }

  lemma {:induction false} PromptsByKind(metas: seq<Meta>)
    ensures AllPromptFirst(metas) <==> AllPromptFirst(Teammates(metas)) && AllPromptFirst(Spawned(metas))
  {
    if metas != [] {
      var front, last := metas[..|metas| - 1], metas[|metas| - 1];
      PromptsByKind(front);
      assert metas == front + [last];
    }
  }

  lemma StraysAreEarly(recs: seq<Rec>, metas: seq<Meta>)
    ensures Session(recs, metas).f.stray == [] <==> PromptFirst(recs, false) && AllPromptFirst(metas)
  {
    EmptyIsTree();
    LoadIsTree(EMPTY, recs, false);
    TurnsArePrompts(0, recs, false);
    var f := Load(EMPTY, recs, false);
    LoadAllIsTree(f, Teammates(metas));
    LoadAllStray(f, Teammates(metas));
    var team := LoadAll(f, Teammates(metas));
    FixStray(team.index.Keys, team, [], Spawned(metas));
    var r := Fix(team.index.Keys, team, [], Spawned(metas));
    LoadAllStray(r.f, r.left);
    PromptsByKind(metas);
  }

  /** `stat_session` counts every parsed tool_use block exactly when each follows a prompt of its transcript. */
  lemma EveryActionCounted(recs: seq<Rec>, metas: seq<Meta>)
    ensures (var f := Session(recs, metas).f;
             && Tree(f) && InForest(f.acts, f.roots, 0)
             && (Weigh(f.acts, f.roots, 0, Every()) == |ToolUses(recs, false)| + Blocks(metas)
                 <==> PromptFirst(recs, false) && AllPromptFirst(metas)))
  {
    SessionCounts(recs, metas);
    StraysAreEarly(recs, metas);
  }
}
