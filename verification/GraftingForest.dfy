/** The whole forest, transcript by transcript: what is counted in it, and what hangs below what. */
module GraftingForest {
  import opened Options
  import opened Filtering
  import opened GraftingModel
  import opened GraftingLaws
  import opened Grafting
  import opened GraftingLoop

  // ----- the forest as a list of steps -------------------------------------------------

  /** The transcripts attached one after the other, each below the action its id names by then. */
  function AttachAll(f: Forest, ms: seq<Meta>): Forest {
    if ms == [] then f
    else
      var g, m := AttachAll(f, ms[..|ms| - 1]), ms[|ms| - 1];
      if IsIndexed(g, m) then Attach(g, g.index[m.toolUseId], m) else g
  }

  predicate IsIndexed(f: Forest, m: Meta) { m.toolUseId in f.index && f.index[m.toolUseId] < |f.acts| }

  predicate AllIndexed(f: Forest, ms: seq<Meta>) {
    ms == [] || (AllIndexed(f, ms[..|ms| - 1]) && IsIndexed(AttachAll(f, ms[..|ms| - 1]), ms[|ms| - 1]))
  }

  lemma AttachOneMore(f: Forest, order: seq<Meta>, m: Meta)
    requires AllIndexed(f, order) && IsIndexed(AttachAll(f, order), m)
    ensures AllIndexed(f, order + [m])
    ensures AttachAll(f, order + [m]) == Attach(AttachAll(f, order), AttachAll(f, order).index[m.toolUseId], m)
  {
    assert (order + [m])[..|order|] == order;
  }

  lemma {:induction false} PassAttachesAll(f: Forest, order: seq<Meta>, pending: seq<Meta>)
    requires AllIndexed(f, order) && Tree(AttachAll(f, order))
    ensures var r := Pass(AttachAll(f, order), order, pending);
            AllIndexed(f, r.order) && r.f == AttachAll(f, r.order)
    decreases |pending|
  {
    if pending != [] {
      var g, m := AttachAll(f, order), pending[0];
      if m.toolUseId in g.index {
        AttachIsTree(g, g.index[m.toolUseId], m);
        AttachOneMore(f, order, m);
        PassAttachesAll(f, order + [m], pending[1..]);
      } else {
        PassAttachesAll(f, order, pending[1..]);
      }
    }
  }

  lemma {:induction false} FixAttachesAll(base: set<string>, f: Forest, order: seq<Meta>, pending: seq<Meta>)
    requires AllIndexed(f, order) && Known(base, AttachAll(f, order), order)
    ensures var r := Fix(base, AttachAll(f, order), order, pending);
            AllIndexed(f, r.order) && r.f == AttachAll(f, r.order)
    decreases |pending|
  {
    PassIs(base, AttachAll(f, order), order, pending);
    PassAttachesAll(f, order, pending);
    var r := Pass(AttachAll(f, order), order, pending);
    if |r.left| < |pending| {
      FixAttachesAll(base, f, r.order, r.left);
    }
  }

  ghost function Main(recs: seq<Rec>): (f: Forest)
    ensures Tree(f) && f == Load(EMPTY, recs, false)
  {
    EmptyIsTree();
    LoadIsTree(EMPTY, recs, false);
    Load(EMPTY, recs, false)
  }

  /** Teammates are the transcripts that name no call, in their order. */
  lemma {:induction false} TeammatesAre(metas: seq<Meta>) returns (at: seq<nat>)
    ensures StandsAt(Teammates(metas), metas, at)
    ensures forall i: nat :: i in at <==> i < |metas| && metas[i].toolUseId == ""
  {
    if metas == [] {
      at := [];
    } else {
      var front, last := metas[..|metas| - 1], metas[|metas| - 1];
      at := TeammatesAre(front);
      at := LastStands(Teammates(front), front, at, last, last.toolUseId == "");
      assert metas == front + [last];
    }
  }

  /** The others are spawned by the call they name. */
  lemma {:induction false} SpawnedAre(metas: seq<Meta>) returns (at: seq<nat>)
    ensures StandsAt(Spawned(metas), metas, at)
    ensures forall i: nat :: i in at <==> i < |metas| && metas[i].toolUseId != ""
  {
    if metas == [] {
      at := [];
    } else {
      var front, last := metas[..|metas| - 1], metas[|metas| - 1];
      at := SpawnedAre(front);
      at := LastStands(Spawned(front), front, at, last, last.toolUseId != "");
      assert metas == front + [last];
    }
  }

  /** The session's forest: the main transcript and the teammates' on top, the attached ones below their
    * calls, and the others on top again. */
  lemma SessionIs(recs: seq<Rec>, metas: seq<Meta>) returns (top: Forest)
    ensures top == LoadAll(Main(recs), Teammates(metas))
    ensures var r := Session(recs, metas);
            AllIndexed(top, r.order) && r.f == LoadAll(AttachAll(top, r.order), r.left)
  {
    LoadAllIsTree(Main(recs), Teammates(metas));
    top := LoadAll(Main(recs), Teammates(metas));
    assert Known(top.index.Keys, top, []);
    FixAttachesAll(top.index.Keys, top, [], Spawned(metas));
  }

  // ----- counting ----------------------------------------------------------------------

  /** What is asked of an action does not depend on what hangs below it. */
  ghost predicate Blind(p: Act -> bool) {
    forall a: Act, kids, agent :: p(a.(children := kids, agentType := agent)) == p(a)
  }

  /** The actions of one transcript, as parsed. */
  function Acts(recs: seq<Rec>, allowSide: bool): seq<Act> { Parse(0, recs, allowSide).acts }

  lemma ActsAnywhere(base: nat, recs: seq<Rec>, allowSide: bool)
    ensures Parse(base, recs, allowSide).acts == Acts(recs, allowSide)
  {
    ParseIs(base, recs, allowSide);
    ParseIs(0, recs, allowSide);
    var a, b := Parse(base, recs, allowSide), Parse(0, recs, allowSide);
    forall k: nat | k < |a.acts| ensures a.acts[k] == b.acts[k] {
      assert a.acts[k].isError <==> Failed(recs, allowSide, k);
      assert b.acts[k].isError <==> Failed(recs, allowSide, k);
    }
  }

  lemma {:induction false} CountJoin(a: seq<Act>, b: seq<Act>, p: Act -> bool)
    ensures CountIf(a + b, p) == CountIf(a, p) + CountIf(b, p)
  {
    if b == [] {
      assert a + b == a;
    } else {
      assert (a + b)[..|a + b| - 1] == a + b[..|b| - 1];
      CountJoin(a, b[..|b| - 1], p);
    }
  }

  lemma {:induction false} CountChanged(acts: seq<Act>, i: nat, a: Act, p: Act -> bool)
    requires i < |acts| && p(a) == p(acts[i])
    ensures CountIf(acts[i := a], p) == CountIf(acts, p)
  {
    var n, next := |acts| - 1, acts[i := a];
    if i == n {
      assert next[..n] == acts[..n];
    } else {
      assert next[..n] == acts[..n][i := a];
      CountChanged(acts[..n], i, a, p);
    }
  }

  function Over(ms: seq<Meta>, p: Act -> bool): nat {
    if ms == [] then 0 else Over(ms[..|ms| - 1], p) + CountIf(Acts(ms[|ms| - 1].recs, true), p)
  }

  lemma AttachCounts(f: Forest, parent: nat, m: Meta, p: Act -> bool)
    requires parent < |f.acts| && Blind(p)
    ensures CountIf(Attach(f, parent, m).acts, p) == CountIf(f.acts, p) + CountIf(Acts(m.recs, true), p)
  {
    ActsAnywhere(|f.acts|, m.recs, true);
    CountJoin(f.acts, Acts(m.recs, true), p);
    CountChanged(f.acts + Acts(m.recs, true), parent, Attach(f, parent, m).acts[parent], p);
  }

  lemma {:induction false} AttachAllCounts(f: Forest, ms: seq<Meta>, p: Act -> bool)
    requires AllIndexed(f, ms) && Blind(p)
    ensures CountIf(AttachAll(f, ms).acts, p) == CountIf(f.acts, p) + Over(ms, p)
  {
    if ms != [] {
      var front, m := ms[..|ms| - 1], ms[|ms| - 1];
      AttachAllCounts(f, front, p);
      AttachCounts(AttachAll(f, front), AttachAll(f, front).index[m.toolUseId], m, p);
    }
  }

  lemma {:induction false} LoadAllCounts(f: Forest, ms: seq<Meta>, p: Act -> bool)
    ensures CountIf(LoadAll(f, ms).acts, p) == CountIf(f.acts, p) + Over(ms, p)
  {
    if ms != [] {
      var front, m := ms[..|ms| - 1], ms[|ms| - 1];
      LoadAllCounts(f, front, p);
      ActsAnywhere(|LoadAll(f, front).acts|, m.recs, true);
      CountJoin(LoadAll(f, front).acts, Acts(m.recs, true), p);
    }
  }

  lemma {:induction false} OverJoin(a: seq<Meta>, b: seq<Meta>, p: Act -> bool)
    ensures Over(a + b, p) == Over(a, p) + Over(b, p)
  {
    if b == [] {
      assert a + b == a;
    } else {
      assert (a + b)[..|a + b| - 1] == a + b[..|b| - 1];
      OverJoin(a, b[..|b| - 1], p);
    }
  }

  lemma {:induction false} OverShuffled(a: seq<Meta>, b: seq<Meta>, p: Act -> bool)
    requires multiset(a) == multiset(b)
    ensures Over(a, p) == Over(b, p)
  {
    if a == [] {
      assert b == [] by {
        assert |multiset(b)| == 0;
      }
    } else {
      var n := |a| - 1;
      assert a[n] in multiset(b);
      var i :| 0 <= i < |b| && b[i] == a[n];
      var rest := TakenOut(a, b, i);
      OverShuffled(a[..n], rest, p);
      OverJoin(b[..i], b[i + 1..], p);
      OneTurn(b, i, p);
    }
  }

  lemma TakenOut(a: seq<Meta>, b: seq<Meta>, i: nat) returns (rest: seq<Meta>)
    requires multiset(a) == multiset(b) && i < |b| && a != [] && b[i] == a[|a| - 1]
    ensures rest == b[..i] + b[i + 1..] && multiset(a[..|a| - 1]) == multiset(rest)
  {
    rest := b[..i] + b[i + 1..];
    Without1(a, |a| - 1);
    Without1(b, i);
    assert a[..|a| - 1] + a[|a|..] == a[..|a| - 1];
  }

  lemma Without1<T>(s: seq<T>, i: nat)
    requires i < |s|
    ensures multiset(s[..i] + s[i + 1..]) == multiset(s) - multiset{s[i]}
  {
    assert s == s[..i] + [s[i]] + s[i + 1..];
  }

  lemma OneTurn(b: seq<Meta>, i: nat, p: Act -> bool)
    requires i < |b|
    ensures Over(b, p) == Over(b[..i], p) + CountIf(Acts(b[i].recs, true), p) + Over(b[i + 1..], p)
  {
    assert b == b[..i + 1] + b[i + 1..] && b[..i + 1][..i] == b[..i];
    OverJoin(b[..i + 1], b[i + 1..], p);
  }

  /** The whole session holds what its transcripts hold, each parsed on its own. */
  lemma SessionHolds(recs: seq<Rec>, metas: seq<Meta>, p: Act -> bool)
    requires Blind(p)
    ensures CountIf(Session(recs, metas).f.acts, p) == CountIf(Acts(recs, false), p) + Over(metas, p)
  {
    var r := Session(recs, metas);
    var top := SessionIs(recs, metas);
    LoadAllCounts(Main(recs), Teammates(metas), p);
    AttachAllCounts(top, r.order, p);
    LoadAllCounts(AttachAll(top, r.order), r.left, p);
    EachTranscriptOnce(recs, metas);
    var all := Teammates(metas) + (r.order + r.left);
    assert multiset(all) == multiset(metas);
    OverShuffled(all, metas, p);
    OverJoin(Teammates(metas), r.order + r.left, p);
    OverJoin(r.order, r.left, p);
    assert [] + Acts(recs, false) == Acts(recs, false);
  }

  // ----- counted over the records ------------------------------------------------------

  /** The calls of a transcript whose last result is an error. */
  function FailedCalls(recs: seq<Rec>, allowSide: bool): set<nat> {
    set k: nat | k < |Origins(recs, allowSide)| && Failed(recs, allowSide, k)
  }

  /** The calls of a tool. */
  function CallsOf(recs: seq<Rec>, allowSide: bool, tool: string): set<nat> {
    set k: nat | k < |Origins(recs, allowSide)| && Origins(recs, allowSide)[k].tool == tool
  }

  function AllFailed(ms: seq<Meta>): nat {
    if ms == [] then 0 else AllFailed(ms[..|ms| - 1]) + |FailedCalls(ms[|ms| - 1].recs, true)|
  }

  function AllCallsOf(ms: seq<Meta>, tool: string): nat {
    if ms == [] then 0 else AllCallsOf(ms[..|ms| - 1], tool) + |CallsOf(ms[|ms| - 1].recs, true, tool)|
  }

  lemma {:induction false} CountIs(acts: seq<Act>, p: Act -> bool)
    ensures CountIf(acts, p) == |set k: nat | k < |acts| && p(acts[k])|
  {
    var all := set k: nat | k < |acts| && p(acts[k]);
    if acts != [] {
      var n := |acts| - 1;
      CountIs(acts[..n], p);
      assert all == (set k: nat | k < |acts[..n]| && p(acts[..n][k])) + if p(acts[n]) then {n} else {};
    }
  }

  lemma ActsKnown(recs: seq<Rec>, allowSide: bool) returns (acts: seq<Act>)
    ensures acts == Acts(recs, allowSide) && |acts| == |Origins(recs, allowSide)|
    ensures forall k: nat | k < |acts| ::
      acts[k].tool == Origins(recs, allowSide)[k].tool && (acts[k].isError <==> Failed(recs, allowSide, k))
  {
    ParseIs(0, recs, allowSide);
    acts := Acts(recs, allowSide);
  }

  lemma FailedAre(recs: seq<Rec>, allowSide: bool)
    ensures CountIf(Acts(recs, allowSide), IsError()) == |FailedCalls(recs, allowSide)|
  {
    var acts := ActsKnown(recs, allowSide);
    CountIs(acts, IsError());
    assert (set k: nat | k < |acts| && IsError()(acts[k])) == FailedCalls(recs, allowSide);
  }

  lemma CallsAre(recs: seq<Rec>, allowSide: bool, tool: string)
    ensures CountIf(Acts(recs, allowSide), IsTool(tool)) == |CallsOf(recs, allowSide, tool)|
  {
    var acts := ActsKnown(recs, allowSide);
    CountIs(acts, IsTool(tool));
    assert (set k: nat | k < |acts| && IsTool(tool)(acts[k])) == CallsOf(recs, allowSide, tool);
  }

  lemma {:induction false} OverAre(ms: seq<Meta>, tool: string)
    ensures Over(ms, IsError()) == AllFailed(ms) && Over(ms, IsTool(tool)) == AllCallsOf(ms, tool)
  {
    if ms != [] {
      OverAre(ms[..|ms| - 1], tool);
      FailedAre(ms[|ms| - 1].recs, true);
      CallsAre(ms[|ms| - 1].recs, true, tool);
    }
  }

  /** The actions of a session that are errors, and those of a tool, are the calls of its records that
    * failed, and those of the tool. */
  lemma SessionCalls(recs: seq<Rec>, metas: seq<Meta>, tool: string)
    ensures var acts := Session(recs, metas).f.acts;
            && CountIf(acts, IsError()) == |FailedCalls(recs, false)| + AllFailed(metas)
            && CountIf(acts, IsTool(tool)) == |CallsOf(recs, false, tool)| + AllCallsOf(metas, tool)
  {
    SessionHolds(recs, metas, IsError());
    SessionHolds(recs, metas, IsTool(tool));
    FailedAre(recs, false);
    CallsAre(recs, false, tool);
    OverAre(metas, tool);
  }

  // ----- what hangs below what ---------------------------------------------------------

  function Calls(m: Meta): seq<Origin> { Origins(m.recs, true) }

  /** Places one after the other, with room for every call. */
  ghost predicate Apart(n: nat, order: seq<Meta>, at: seq<nat>) {
    && |at| == |order|
    && (forall j | 0 <= j < |at| :: at[j] + |Calls(order[j])| <= n)
    && (forall j, k | 0 <= j < k < |at| :: at[j] + |Calls(order[j])| <= at[k])
  }

  /** At its place every attached transcript has an action for each of its calls. */
  ghost predicate PlacesOk(f: Forest, order: seq<Meta>, at: seq<nat>) {
    Apart(|f.acts|, order, at) && forall j | 0 <= j < |at| :: PlacedAt(f, Calls(order[j]), at[j])
  }

  ghost predicate PlacedAt(f: Forest, calls: seq<Origin>, base: nat) {
    && base + |calls| <= |f.acts|
    && forall k | 0 <= k < |calls| :: f.acts[base + k].tool == calls[k].tool && f.acts[base + k].toolId == calls[k].id
  }

  /** Action `c` is a call of transcript `j` that follows a prompt. */
  predicate CallIn(order: seq<Meta>, at: seq<nat>, j: nat, c: nat)
    requires j < |at| == |order|
  {
    at[j] <= c < at[j] + |Calls(order[j])| && Calls(order[j])[c - at[j]].turn > 0
  }

  /** Transcript `j` hangs below action `i`, which its id names: all its calls that follow a prompt do. */
  ghost predicate HangsBelow(f: Forest, order: seq<Meta>, at: seq<nat>, j: nat, i: nat)
    requires j < |at| == |order|
  {
    && i < at[j] && i < |f.acts| && f.acts[i].toolId == order[j].toolUseId
    && (forall c | CallIn(order, at, j, c) :: c in f.acts[i].children)
    && exists l :: j <= l < |order| && order[l].toolUseId == order[j].toolUseId && f.acts[i].agentType == order[l].agentType
  }

  /** Action `c` is a call of a transcript that was attached by the id of action `i`. */
  ghost predicate MayHang(f: Forest, order: seq<Meta>, at: seq<nat>, i: nat, c: nat)
    requires i < |f.acts| && |at| == |order|
  {
    exists j :: 0 <= j < |order| && CallIn(order, at, j, c) && f.acts[i].toolId == order[j].toolUseId
  }

  ghost predicate HasAgent(f: Forest, order: seq<Meta>, i: nat)
    requires i < |f.acts|
  {
    exists j :: 0 <= j < |order| && f.acts[i].toolId == order[j].toolUseId && f.acts[i].agentType == order[j].agentType
  }

  ghost predicate Hangs(f: Forest, order: seq<Meta>, at: seq<nat>, j: nat)
    requires j < |at| == |order|
  {
    exists i: nat :: HangsBelow(f, order, at, j, i)
  }

  /** Every attached transcript hangs below an action of its id, and nothing else hangs anywhere. */
  ghost predicate Hung(f: Forest, order: seq<Meta>, at: seq<nat>) {
    && PlacesOk(f, order, at)
    && (forall j | 0 <= j < |order| :: Hangs(f, order, at, j))
    && (forall i, c | 0 <= i < |f.acts| && c in f.acts[i].children :: MayHang(f, order, at, i, c))
    && (forall i | 0 <= i < |f.acts| && f.acts[i].agentType.Some? :: HasAgent(f, order, i))
  }

  lemma {:induction false} InFlat(lists: seq<seq<nat>>, x: nat)
    ensures x in Flat(lists) <==> exists t | 0 <= t < |lists| :: x in lists[t]
  {
    if lists != [] {
      InFlat(lists[..|lists| - 1], x);
    }
  }

  /** The actions in turns are those of calls that follow a prompt. */
  lemma InTurns(base: nat, recs: seq<Rec>, x: nat)
    ensures var made := Origins(recs, true);
            x in Flat(Parse(base, recs, true).turns) <==> base <= x < base + |made| && made[x - base].turn > 0
  {
    ParseIs(base, recs, true);
    var p, made := Parse(base, recs, true), Origins(recs, true);
    InFlat(p.turns, x);
    if base <= x < base + |made| && made[x - base].turn > 0 {
      assert x in p.turns[made[x - base].turn - 1];
    }
  }

  /** What attaching makes of the actions. */
  ghost predicate IsAttached(f: Forest, parent: nat, m: Meta, g: Forest)
    requires parent < |f.acts|
  {
    && |g.acts| == |f.acts| + |Calls(m)|
    && (forall i | 0 <= i < |f.acts| && i != parent :: g.acts[i] == f.acts[i])
    && g.acts[parent].tool == f.acts[parent].tool && g.acts[parent].toolId == f.acts[parent].toolId
    && g.acts[parent].agentType == m.agentType
    && (forall x: nat :: x in g.acts[parent].children <==>
          x in f.acts[parent].children || (|f.acts| <= x < |g.acts| && Calls(m)[x - |f.acts|].turn > 0))
    && (forall i | |f.acts| <= i < |g.acts| ::
          && g.acts[i].tool == Calls(m)[i - |f.acts|].tool && g.acts[i].toolId == Calls(m)[i - |f.acts|].id
          && g.acts[i].children == [] && g.acts[i].agentType == None)
  }

  lemma AttachIs(f: Forest, parent: nat, m: Meta)
    requires parent < |f.acts|
    ensures IsAttached(f, parent, m, Attach(f, parent, m))
  {
    var g, p := Attach(f, parent, m), Parse(|f.acts|, m.recs, true);
    var bare := NewActs(f, m);
    assert g.acts == bare[parent := g.acts[parent]];
    forall x: nat ensures x in g.acts[parent].children <==>
      x in f.acts[parent].children || (|f.acts| <= x < |g.acts| && Calls(m)[x - |f.acts|].turn > 0) {
      InTurns(|f.acts|, m.recs, x);
      InBoth(f.acts[parent].children, Flat(p.turns), x);
    }
  }

  lemma NewParsed(base: nat, m: Meta) returns (p: Parsed)
    ensures p == Parse(base, m.recs, true) && ActsAre(p, Calls(m))
  {
    ParseIs(base, m.recs, true);
    p := Parse(base, m.recs, true);
  }

  lemma NewActs(f: Forest, m: Meta) returns (acts: seq<Act>)
    ensures acts == f.acts + Parse(|f.acts|, m.recs, true).acts && |acts| == |f.acts| + |Calls(m)|
    ensures forall i | |f.acts| <= i < |acts| ::
      && acts[i].tool == Calls(m)[i - |f.acts|].tool && acts[i].toolId == Calls(m)[i - |f.acts|].id
      && acts[i].children == [] && acts[i].agentType == None
  {
    var p := NewParsed(|f.acts|, m);
    acts := f.acts + p.acts;
    forall i | |f.acts| <= i < |acts|
      ensures acts[i].tool == Calls(m)[i - |f.acts|].tool && acts[i].toolId == Calls(m)[i - |f.acts|].id
      ensures acts[i].children == [] && acts[i].agentType == None {
      assert acts[i] == p.acts[i - |f.acts|];
    }
  }

  lemma InBoth<T>(a: seq<T>, b: seq<T>, x: T)
    ensures x in a + b <==> x in a || x in b
  {
  }

  lemma CallInMore(order: seq<Meta>, at: seq<nat>, m: Meta, b: nat, j: nat, c: nat)
    requires |at| == |order|
    ensures j < |at| ==> (CallIn(order + [m], at + [b], j, c) <==> CallIn(order, at, j, c))
    ensures CallIn(order + [m], at + [b], |at|, c) <==> b <= c < b + |Calls(m)| && Calls(m)[c - b].turn > 0
  {
  }

  lemma PlacesMore(f: Forest, g: Forest, order: seq<Meta>, at: seq<nat>, parent: nat, m: Meta)
    requires PlacesOk(f, order, at) && parent < |f.acts| && IsAttached(f, parent, m, g)
    ensures PlacesOk(g, order + [m], at + [|f.acts|])
  {
    ApartMore(|f.acts|, |g.acts|, order, at, m);
    var more, places := order + [m], at + [|f.acts|];
    forall j | 0 <= j < |places| ensures PlacedAt(g, Calls(more[j]), places[j]) {
      if j < |at| {
        PlacedStill(f, g, parent, m, Calls(order[j]), at[j]);
      } else {
        assert PlacedAt(g, Calls(m), |f.acts|);
      }
    }
  }

  lemma ApartMore(n: nat, total: nat, order: seq<Meta>, at: seq<nat>, m: Meta)
    requires Apart(n, order, at) && total == n + |Calls(m)|
    ensures Apart(total, order + [m], at + [n])
  {
  }

  lemma PlacedStill(f: Forest, g: Forest, parent: nat, m: Meta, calls: seq<Origin>, base: nat)
    requires parent < |f.acts| && IsAttached(f, parent, m, g) && PlacedAt(f, calls, base)
    ensures PlacedAt(g, calls, base)
  {
  }

  lemma OldHangs(f: Forest, g: Forest, order: seq<Meta>, at: seq<nat>, parent: nat, m: Meta, j: nat, i: nat)
    requires |at| == |order| && j < |at| && HangsBelow(f, order, at, j, i) && parent < |f.acts|
    requires f.acts[parent].toolId == m.toolUseId && IsAttached(f, parent, m, g)
    ensures HangsBelow(g, order + [m], at + [|f.acts|], j, i)
  {
    var more, places := order + [m], at + [|f.acts|];
    forall c | CallIn(more, places, j, c) ensures c in g.acts[i].children {
      CallInMore(order, at, m, |f.acts|, j, c);
    }
    if i == parent {
      assert more[|order|] == m;
    } else {
      var l :| j <= l < |order| && order[l].toolUseId == order[j].toolUseId && f.acts[i].agentType == order[l].agentType;
      assert more[l] == order[l];
    }
  }

  lemma NewHangs(f: Forest, g: Forest, order: seq<Meta>, at: seq<nat>, parent: nat, m: Meta)
    requires |at| == |order| && parent < |f.acts| && f.acts[parent].toolId == m.toolUseId && IsAttached(f, parent, m, g)
    ensures HangsBelow(g, order + [m], at + [|f.acts|], |order|, parent)
  {
    var more := order + [m];
    assert more[|order|] == m;
  }

  lemma ChildStays(f: Forest, g: Forest, order: seq<Meta>, at: seq<nat>, m: Meta, i: nat, c: nat)
    requires |at| == |order| && i < |f.acts| <= |g.acts| && MayHang(f, order, at, i, c) && g.acts[i].toolId == f.acts[i].toolId
    ensures MayHang(g, order + [m], at + [|f.acts|], i, c)
  {
    var j :| 0 <= j < |order| && CallIn(order, at, j, c) && f.acts[i].toolId == order[j].toolUseId;
    CallInMore(order, at, m, |f.acts|, j, c);
    assert (order + [m])[j] == order[j];
  }

  lemma AttachHangs(f: Forest, g: Forest, order: seq<Meta>, at: seq<nat>, parent: nat, m: Meta)
    requires Hung(f, order, at) && parent < |f.acts| && f.acts[parent].toolId == m.toolUseId && IsAttached(f, parent, m, g)
    ensures Hung(g, order + [m], at + [|f.acts|])
  {
    var more, places := order + [m], at + [|f.acts|];
    PlacesMore(f, g, order, at, parent, m);
    forall j: nat | j < |more| ensures Hangs(g, more, places, j) {
      if j < |order| {
        assert Hangs(f, order, at, j);
        var i: nat :| HangsBelow(f, order, at, j, i);
        OldHangs(f, g, order, at, parent, m, j, i);
      } else {
        NewHangs(f, g, order, at, parent, m);
      }
    }
    forall i: nat, c: nat | i < |g.acts| && c in g.acts[i].children ensures MayHang(g, more, places, i, c) {
      ChildHangs(f, g, order, at, parent, m, i, c);
    }
    forall i: nat | i < |g.acts| && g.acts[i].agentType.Some? ensures HasAgent(g, more, i) {
      AgentStays(f, g, order, m, parent, i);
    }
  }

  lemma ChildHangs(f: Forest, g: Forest, order: seq<Meta>, at: seq<nat>, parent: nat, m: Meta, i: nat, c: nat)
    requires Hung(f, order, at) && parent < |f.acts| && f.acts[parent].toolId == m.toolUseId && IsAttached(f, parent, m, g)
    requires i < |g.acts| && c in g.acts[i].children
    ensures MayHang(g, order + [m], at + [|f.acts|], i, c)
  {
    if i < |f.acts| && c in f.acts[i].children {
      ChildStays(f, g, order, at, m, i, c);
    } else {
      CallInMore(order, at, m, |f.acts|, |order|, c);
      assert (order + [m])[|order|] == m;
    }
  }

  lemma AgentStays(f: Forest, g: Forest, order: seq<Meta>, m: Meta, parent: nat, i: nat)
    requires parent < |f.acts| && f.acts[parent].toolId == m.toolUseId && IsAttached(f, parent, m, g)
    requires forall i | 0 <= i < |f.acts| && f.acts[i].agentType.Some? :: HasAgent(f, order, i)
    requires i < |g.acts| && g.acts[i].agentType.Some?
    ensures HasAgent(g, order + [m], i)
  {
    var more := order + [m];
    if i == parent {
      assert more[|order|] == m;
    } else {
      var j :| 0 <= j < |order| && f.acts[i].toolId == order[j].toolUseId && f.acts[i].agentType == order[j].agentType;
      assert more[j] == order[j];
    }
  }

  lemma LastAttached(f: Forest, ms: seq<Meta>) returns (front: seq<Meta>, m: Meta, g: Forest)
    requires ms != [] && AllIndexed(f, ms)
    ensures ms == front + [m] && |front| < |ms| && AllIndexed(f, front)
    ensures g == AttachAll(f, front) && IsIndexed(g, m) && AttachAll(f, ms) == Attach(g, g.index[m.toolUseId], m)
  {
    front, m := ms[..|ms| - 1], ms[|ms| - 1];
    g := AttachAll(f, front);
  }

  lemma NothingHangs(f: Forest)
    requires Bare(f.acts)
    ensures Hung(f, [], [])
  {
  }

  lemma {:induction false} AttachAllHangs(f: Forest, ms: seq<Meta>) returns (at: seq<nat>)
    requires AllIndexed(f, ms) && Tree(f)
    requires Bare(f.acts)
    ensures Tree(AttachAll(f, ms)) && Hung(AttachAll(f, ms), ms, at)
    decreases |ms|
  {
    if ms == [] {
      NothingHangs(f);
      at := [];
    } else {
      var front, m, g := LastAttached(f, ms);
      var rest := AttachAllHangs(f, front);
      at := OneMoreHangs(g, front, rest, m, ms, AttachAll(f, ms));
    }
  }

  lemma OneMoreHangs(f: Forest, order: seq<Meta>, at: seq<nat>, m: Meta, more: seq<Meta>, g: Forest)
    returns (places: seq<nat>)
    requires Tree(f) && Hung(f, order, at) && IsIndexed(f, m) && more == order + [m]
    requires g == Attach(f, f.index[m.toolUseId], m)
    ensures Tree(g) && Hung(g, more, places)
  {
    places := at + [|f.acts|];
    var parent := f.index[m.toolUseId];
    AttachIs(f, parent, m);
    AttachIsTree(f, parent, m);
    AttachHangs(f, Attach(f, parent, m), order, at, parent, m);
  }

  /** More on top: what hung still hangs, and nothing new does. */
  lemma {:induction false} LoadAllHangs(f: Forest, ms: seq<Meta>, order: seq<Meta>, at: seq<nat>)
    requires Hung(f, order, at)
    ensures Hung(LoadAll(f, ms), order, at)
  {
    if ms != [] {
      var g, m := LoadAll(f, ms[..|ms| - 1]), ms[|ms| - 1];
      LoadAllHangs(f, ms[..|ms| - 1], order, at);
      var acts := NewActs(g, m);
      MoreHangs(g, Load(g, m.recs, true), order, at);
    }
  }

  lemma MoreHangs(f: Forest, g: Forest, order: seq<Meta>, at: seq<nat>)
    requires Hung(f, order, at) && f.acts <= g.acts
    requires forall i | |f.acts| <= i < |g.acts| :: g.acts[i].children == [] && g.acts[i].agentType == None
    ensures Hung(g, order, at)
  {
    forall j | 0 <= j < |order| ensures Hangs(g, order, at, j) {
      assert Hangs(f, order, at, j);
      var i: nat :| HangsBelow(f, order, at, j, i);
      assert HangsBelow(g, order, at, j, i);
    }
    forall i, c | 0 <= i < |g.acts| && c in g.acts[i].children ensures MayHang(g, order, at, i, c) {
      assert MayHang(f, order, at, i, c);
    }
    forall i | 0 <= i < |g.acts| && g.acts[i].agentType.Some? ensures HasAgent(g, order, i) {
      assert HasAgent(f, order, i);
    }
  }

  /** Nothing hangs below these actions. */
  predicate Bare(acts: seq<Act>) { forall i | 0 <= i < |acts| :: acts[i].children == [] && acts[i].agentType == None }

  lemma BareMore(acts: seq<Act>, more: seq<Act>)
    requires Bare(acts) && acts <= more
    requires forall i | |acts| <= i < |more| :: more[i].children == [] && more[i].agentType == None
    ensures Bare(more)
  {
    forall i | 0 <= i < |more| ensures more[i].children == [] && more[i].agentType == None {
      assert i < |acts| ==> more[i] == acts[i];
    }
  }

  lemma {:induction false} LoadAllBare(f: Forest, ms: seq<Meta>)
    requires Bare(f.acts)
    ensures Bare(LoadAll(f, ms).acts)
  {
    if ms != [] {
      var g, m := LoadAll(f, ms[..|ms| - 1]), ms[|ms| - 1];
      LoadAllBare(f, ms[..|ms| - 1]);
      var acts := NewActs(g, m);
      BareMore(g.acts, acts);
      assert LoadAll(f, ms).acts == acts;
    }
  }

  lemma MainIsBare(recs: seq<Rec>)
    ensures Bare(Main(recs).acts)
  {
    ParseIs(0, recs, false);
    assert [] + Parse(0, recs, false).acts == Parse(0, recs, false).acts;
  }

  /** In a whole session: every attached transcript hangs below an action with its id, with all its
    * calls that follow a prompt and none else, and gives that action its agent unless a later one does. */
  lemma SessionHangs(recs: seq<Rec>, metas: seq<Meta>) returns (at: seq<nat>)
    ensures var r := Session(recs, metas); Hung(r.f, r.order, at)
  {
    var r := Session(recs, metas);
    var top := SessionIs(recs, metas);
    MainIsBare(recs);
    LoadAllBare(Main(recs), Teammates(metas));
    LoadAllIsTree(Main(recs), Teammates(metas));
    at := AttachAllHangs(top, r.order);
    LoadAllHangs(AttachAll(top, r.order), r.left, r.order, at);
  }
}
