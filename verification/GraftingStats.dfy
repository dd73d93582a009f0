/** A session's statistics: the sums taken over its main turns and over each run that stands alone. */
module GraftingStats {
  import opened Options
  import opened GraftingModel
  import opened Grafting
  import opened GraftingLoop
  import opened GraftingLaws
  import opened GraftingForest

  // ----- the roots are the turns -------------------------------------------------------

  lemma Onward<T>(a: seq<T>, b: seq<T>, c: seq<T>)
    ensures a + b + c == a + (b + c)
  {
  }

  /** The actions at the top of the runs. */
  function Tops(runs: seq<(Meta, seq<seq<nat>>)>): seq<nat> {
    if runs == [] then [] else Tops(runs[..|runs| - 1]) + Flat(runs[|runs| - 1].1)
  }

  lemma TopsMore(runs: seq<(Meta, seq<seq<nat>>)>, run: (Meta, seq<seq<nat>>))
    ensures Tops(runs + [run]) == Tops(runs) + Flat(run.1)
  {
    assert (runs + [run])[..|runs|] == runs;
  }

  lemma {:induction false} TopsJoin(a: seq<(Meta, seq<seq<nat>>)>, b: seq<(Meta, seq<seq<nat>>)>)
    ensures Tops(a + b) == Tops(a) + Tops(b)
  {
    if b == [] {
      assert a + b == a;
    } else {
      var front, last := b[..|b| - 1], b[|b| - 1];
      TopsJoin(a, front);
      Onward(a, front, [last]);
      assert b == front + [last];
      TopsMore(a + front, last);
      Onward(Tops(a), Tops(front), Flat(last.1));
    }
  }

  /** A transcript that stands alone adds its turns' actions to the roots. */
  lemma {:induction false} StandingTops(f: Forest, ms: seq<Meta>)
    ensures LoadAll(f, ms).roots == f.roots + Tops(Standing(f, ms))
  {
    if ms != [] {
      var front, last := ms[..|ms| - 1], ms[|ms| - 1];
      StandingTops(f, front);
      assert ms == front + [last];
      StandingMore(f, front, last);
      TopsMore(Standing(f, front), (last, Parse(|LoadAll(f, front).acts|, last.recs, true).turns));
    }
  }

  /** The runs that stand alone, teammates first. */
  ghost function Runs(recs: seq<Rec>, metas: seq<Meta>): seq<(Meta, seq<seq<nat>>)> {
    Standing(Main(recs), Teammates(metas)) + Standing(Grown(Main(recs), metas), Graft(Main(recs), metas).left)
  }

  /** The roots are the main turns' actions and then those of the runs. */
  lemma SessionRoots(recs: seq<Rec>, metas: seq<Meta>)
    ensures Session(recs, metas).f.roots == Flat(Parse(0, recs, false).turns) + Tops(Runs(recs, metas))
  {
    var f, mates, r := RunsAre(recs, metas);
    StandingTops(f, mates);
    StandingTops(r.f, r.left);
    TopsJoin(Standing(f, mates), Standing(r.f, r.left));
    Onward(f.roots, Tops(Standing(f, mates)), Tops(Standing(r.f, r.left)));
  }

  lemma LeftWasPending(order: seq<Meta>, left: seq<Meta>, pending: seq<Meta>)
    requires multiset(order) + multiset(left) == multiset(pending)
    ensures forall m | m in left :: m in pending
  {
    forall m | m in left ensures m in pending {
      assert m in multiset(order) + multiset(left);
    }
  }

  /** The forest after the main transcript, the teammates, and the forest once nothing more attaches. */
  lemma RunsAre(recs: seq<Rec>, metas: seq<Meta>) returns (f: Forest, mates: seq<Meta>, r: Progress)
    ensures f == Main(recs) && mates == Teammates(metas) && r.f.roots == LoadAll(f, mates).roots
    ensures Runs(recs, metas) == Standing(f, mates) + Standing(r.f, r.left)
    ensures Session(recs, metas) == Progress(LoadAll(r.f, r.left), r.order, r.left)
    ensures forall m | m in r.left :: m.toolUseId != ""
    ensures f.roots == Flat(Parse(0, recs, false).turns)
  {
    f, mates := Main(recs), Teammates(metas);
    LoadAllIsTree(f, mates);
    var team := LoadAll(f, mates);
    FixIs(team.index.Keys, team, [], Spawned(metas));
    r := Fix(team.index.Keys, team, [], Spawned(metas));
    KindsAre(metas);
    LeftWasPending(r.order, r.left, Spawned(metas));
    assert [] + Flat(Parse(0, recs, false).turns) == Flat(Parse(0, recs, false).turns);
  }

  // ----- runs by reason ----------------------------------------------------------------

  /** How many runs stand alone because nothing spawned them. */
  function Mates(runs: seq<(Meta, seq<seq<nat>>)>): nat {
    if runs == [] then 0 else Mates(runs[..|runs| - 1]) + if runs[|runs| - 1].0.toolUseId == "" then 1 else 0
  }

  lemma {:induction false} MatesJoin(a: seq<(Meta, seq<seq<nat>>)>, b: seq<(Meta, seq<seq<nat>>)>)
    ensures Mates(a + b) == Mates(a) + Mates(b)
  {
    if b == [] {
      assert a + b == a;
    } else {
      assert (a + b)[..|a + b| - 1] == a + b[..|b| - 1];
      MatesJoin(a, b[..|b| - 1]);
    }
  }

  lemma {:induction false} StandingMates(f: Forest, ms: seq<Meta>, mates: bool)
    requires forall m | m in ms :: m.toolUseId == "" <==> mates
    ensures |Standing(f, ms)| == |ms| && Mates(Standing(f, ms)) == if mates then |ms| else 0
  {
    if ms != [] {
      StandingMates(f, ms[..|ms| - 1], mates);
      assert ms[|ms| - 1] in ms;
    }
  }

  lemma {:induction false} KindsAre(metas: seq<Meta>)
    ensures (forall m | m in Teammates(metas) :: m.toolUseId == "") && (forall m | m in Spawned(metas) :: m.toolUseId != "")
  {
    if metas != [] {
      KindsAre(metas[..|metas| - 1]);
    }
  }

  /** Teammates are the runs without a spawning call; the other runs are those left over. */
  lemma RunsByReason(recs: seq<Rec>, metas: seq<Meta>)
    ensures Mates(Runs(recs, metas)) == |Teammates(metas)|
    ensures |Runs(recs, metas)| == |Teammates(metas)| + |Session(recs, metas).left|
  {
    var f, mates, r := RunsAre(recs, metas);
    KindsAre(metas);
    StandingMates(f, mates, true);
    StandingMates(r.f, r.left, false);
    MatesJoin(Standing(f, mates), Standing(r.f, r.left));
  }

  // ----- agents ------------------------------------------------------------------------

  function IsAgent(): Act -> bool { (a: Act) => a.agentType.Some? && a.agentType.value != "" }

  predicate NoAgents(acts: seq<Act>) { forall i | 0 <= i < |acts| :: acts[i].agentType.None? }

  lemma {:induction false} BlocksNoAgents(base: nat, p: Parsed, uuid: string, blocks: seq<Block>)
    requires NoAgents(p.acts)
    ensures NoAgents(AddBlocks(base, p, uuid, blocks).acts)
  {
    if blocks != [] {
      BlocksNoAgents(base, p, uuid, blocks[..|blocks| - 1]);
    }
  }

  /** A parsed action has no agent yet. */
  lemma {:induction false} ParseNoAgents(base: nat, recs: seq<Rec>, allowSide: bool)
    ensures NoAgents(Parse(base, recs, allowSide).acts)
  {
    if recs != [] {
      var front, last := recs[..|recs| - 1], recs[|recs| - 1];
      ParseNoAgents(base, front, allowSide);
      if last.Assistant? {
        BlocksNoAgents(base, Parse(base, front, allowSide), last.uuid, last.blocks);
      }
    }
  }

  lemma {:induction false} NoneCounted(acts: seq<Act>, more: seq<Act>)
    requires NoAgents(more)
    ensures CountIf(acts + more, IsAgent()) == CountIf(acts, IsAgent())
  {
    if more == [] {
      assert acts + more == acts;
    } else {
      var n := |more| - 1;
      assert (acts + more)[..|acts + more| - 1] == acts + more[..n];
      NoneCounted(acts, more[..n]);
    }
  }

  lemma {:induction false} OneChanged(acts: seq<Act>, i: nat, a: Act)
    requires i < |acts|
    ensures CountIf(acts[i := a], IsAgent()) <= CountIf(acts, IsAgent()) + 1
  {
    var n, next := |acts| - 1, acts[i := a];
    if i == n {
      assert next[..n] == acts[..n];
    } else {
      assert next[..n] == acts[..n][i := a];
      OneChanged(acts[..n], i, a);
    }
  }

  lemma AttachAgents(f: Forest, parent: nat, m: Meta)
    requires parent < |f.acts|
    ensures CountIf(Attach(f, parent, m).acts, IsAgent()) <= CountIf(f.acts, IsAgent()) + 1
  {
    var p := Parse(|f.acts|, m.recs, true);
    ParseNoAgents(|f.acts|, m.recs, true);
    NoneCounted(f.acts, p.acts);
    OneChanged(f.acts + p.acts, parent, Attach(f, parent, m).acts[parent]);
  }

  lemma {:induction false} PassAgents(f: Forest, order: seq<Meta>, pending: seq<Meta>)
    requires Tree(f)
    ensures (var r := Pass(f, order, pending);
             CountIf(r.f.acts, IsAgent()) + |order| <= CountIf(f.acts, IsAgent()) + |r.order|)
    decreases |pending|
  {
    if pending != [] {
      var m := pending[0];
      if m.toolUseId in f.index {
        AttachIsTree(f, f.index[m.toolUseId], m);
        AttachAgents(f, f.index[m.toolUseId], m);
        PassAgents(Attach(f, f.index[m.toolUseId], m), order + [m], pending[1..]);
      } else {
        PassAgents(f, order, pending[1..]);
      }
    }
  }

  lemma {:induction false} FixAgents(base: set<string>, f: Forest, order: seq<Meta>, pending: seq<Meta>)
    requires Known(base, f, order)
    ensures (var r := Fix(base, f, order, pending);
             CountIf(r.f.acts, IsAgent()) + |order| <= CountIf(f.acts, IsAgent()) + |r.order|)
    decreases |pending|
  {
    PassIs(base, f, order, pending);
    PassAgents(f, order, pending);
    var r := Pass(f, order, pending);
    if |r.left| < |pending| {
      FixAgents(base, r.f, r.order, r.left);
    }
  }

  lemma LoadAgents(f: Forest, recs: seq<Rec>, allowSide: bool)
    ensures CountIf(Load(f, recs, allowSide).acts, IsAgent()) == CountIf(f.acts, IsAgent())
  {
    ParseNoAgents(|f.acts|, recs, allowSide);
    NoneCounted(f.acts, Parse(|f.acts|, recs, allowSide).acts);
  }

  lemma {:induction false} LoadAllAgents(f: Forest, ms: seq<Meta>)
    ensures CountIf(LoadAll(f, ms).acts, IsAgent()) == CountIf(f.acts, IsAgent())
  {
    if ms != [] {
      var front, last := ms[..|ms| - 1], ms[|ms| - 1];
      LoadAllAgents(f, front);
      LoadAgents(LoadAll(f, front), last.recs, true);
    }
  }

  /** No more actions carry an agent than transcripts were attached. */
  lemma AgentsWereAttached(recs: seq<Rec>, metas: seq<Meta>)
    ensures (var r := Session(recs, metas); CountIf(r.f.acts, IsAgent()) <= |r.order|)
  {
    var f, mates := Main(recs), Teammates(metas);
    LoadAgents(EMPTY, recs, false);
    LoadAllAgents(f, mates);
    LoadAllIsTree(f, mates);
    var team := LoadAll(f, mates);
    FixAgents(team.index.Keys, team, [], Spawned(metas));
    var r := Fix(team.index.Keys, team, [], Spawned(metas));
    LoadAllAgents(r.f, r.left);
  }

  /** Every transcript is counted once at most, as a teammate or as a subagent. */
  lemma AgentsWithinFiles(recs: seq<Rec>, metas: seq<Meta>)
    ensures (var r := Session(recs, metas);
             && Tree(r.f) && InForest(r.f.acts, r.f.roots, 0)
             && |Teammates(metas)| + |r.left| + Weigh(r.f.acts, r.f.roots, 0, IsAgent()) <= |metas|)
  {
    var r := Session(recs, metas);
    EachTranscriptOnce(recs, metas);
    NothingCountedTwice(r.f, IsAgent());
    AgentsWereAttached(recs, metas);
    SizesAdd(Teammates(metas), r.order, r.left, metas);
  }

  lemma SizesAdd<T>(a: seq<T>, b: seq<T>, c: seq<T>, all: seq<T>)
    requires multiset(a) + (multiset(b) + multiset(c)) == multiset(all)
    ensures |a| + |b| + |c| == |all|
  {
    assert |multiset(a) + (multiset(b) + multiset(c))| == |a| + |b| + |c|;
    assert |multiset(all)| == |all|;
  }

  // ----- the loops ---------------------------------------------------------------------

  datatype Stats = Stats(actions: nat, errors: nat, tools: map<string, nat>, subagents: nat, teammates: nat)

  /** What has been summed over some top-level actions. */
  ghost predicate Counted(acts: seq<Act>, ids: seq<nat>, st: Stats)
    requires ChildrenLater(acts)
  {
    && InForest(acts, ids, 0)
    && st.actions == Weigh(acts, ids, 0, Every()) && st.errors == Weigh(acts, ids, 0, IsError())
    && forall t :: Got(st.tools, t) == Weigh(acts, ids, 0, IsTool(t))
  }

  /** `a.agent_type` counted over `walk_actions`. */
  method WalkAgents(acts: seq<Act>, ids: seq<nat>, lo: nat) returns (n: nat)
    requires ChildrenLater(acts) && InForest(acts, ids, lo)
    ensures n == Weigh(acts, ids, lo, IsAgent())
    decreases |acts| - lo, |ids|
  {
    n := 0;
    if ids != [] {
      TailInForest(acts, ids, lo);
      var a := acts[ids[0]];
      var below := WalkAgents(acts, a.children, ids[0] + 1);
      var rest := WalkAgents(acts, ids[1..], lo);
      n := (if a.agentType.Some? && a.agentType.value != "" then 1 else 0) + below + rest;
    }
  }

  /** One more list of top-level actions. */
  method CountMore(acts: seq<Act>, before: seq<nat>, ids: seq<nat>, st: Stats) returns (more: Stats)
    requires ChildrenLater(acts) && Counted(acts, before, st) && InForest(acts, ids, 0)
    ensures Counted(acts, before + ids, more)
    ensures more == st.(actions := more.actions, errors := more.errors, tools := more.tools)
  {
    var n, e, tools := CountActions(acts, ids, st.tools, 0);
    more := st.(actions := st.actions + n, errors := st.errors + e, tools := tools);
    WeighSplit(acts, before, ids, Every());
    WeighSplit(acts, before, ids, IsError());
    forall t ensures Got(tools, t) == Weigh(acts, before + ids, 0, IsTool(t)) {
      WeighSplit(acts, before, ids, IsTool(t));
    }
  }

  /** `parse_session`: the main transcript and then the grafted ones, over one new store. */
  method ParseSession(recs: seq<Rec>, metas: seq<Meta>)
    returns (acts: seq<Act>, turns: seq<seq<nat>>, runs: seq<(Meta, seq<seq<nat>>)>)
    ensures acts == Session(recs, metas).f.acts
    ensures turns == Parse(0, recs, false).turns && runs == Runs(recs, metas)
  {
    var t := new Transcripts();
    turns := t.LoadTop(recs, false);
    ghost var main := Main(recs);
    assert t.Now() == main;
    var attached;
    attached, runs := t.GraftSubagents(metas);
    acts := t.acts;
  }

  lemma TopsSplit(runs: seq<(Meta, seq<seq<nat>>)>, i: nat)
    requires i < |runs|
    ensures Tops(runs) == Tops(runs[..i]) + Flat(runs[i].1) + Tops(runs[i + 1..])
  {
    Cut(runs, i);
    TopsThree(runs[..i], runs[i], runs[i + 1..]);
  }

  lemma Cut<T>(s: seq<T>, i: nat)
    requires i < |s|
    ensures s == s[..i] + [s[i]] + s[i + 1..]
  {
  }

  lemma TopsThree(a: seq<(Meta, seq<seq<nat>>)>, run: (Meta, seq<seq<nat>>), b: seq<(Meta, seq<seq<nat>>)>)
    ensures Tops(a + [run] + b) == Tops(a) + Flat(run.1) + Tops(b)
  {
    TopsJoin(a + [run], b);
    TopsMore(a, run);
  }

  lemma PartInForest(acts: seq<Act>, a: seq<nat>, runs: seq<(Meta, seq<seq<nat>>)>, i: nat)
    requires i < |runs| && InForest(acts, a + Tops(runs), 0)
    ensures InForest(acts, Flat(runs[i].1), 0)
  {
    JoinInForest(acts, a, Tops(runs));
    TopsSplit(runs, i);
    JoinInForest(acts, Tops(runs[..i]) + Flat(runs[i].1), Tops(runs[i + 1..]));
    JoinInForest(acts, Tops(runs[..i]), Flat(runs[i].1));
  }

  /** The main turns and then each run. */
  method CountSession(acts: seq<Act>, turns: seq<seq<nat>>, runs: seq<(Meta, seq<seq<nat>>)>) returns (st: Stats)
    requires ChildrenLater(acts) && InForest(acts, Flat(turns) + Tops(runs), 0)
    ensures Counted(acts, Flat(turns) + Tops(runs), st)
    ensures st.teammates == Mates(runs)
    ensures st.subagents == |runs| - Mates(runs) + Weigh(acts, Flat(turns) + Tops(runs), 0, IsAgent())
  {
    var all := Flatten(turns);
    JoinInForest(acts, Flat(turns), Tops(runs));
    var n, e, tools := CountActions(acts, all, map[], 0);
    st := Stats(n, e, tools, 0, 0);
    assert all + [] == all;
    for i := 0 to |runs|
      invariant all == Flat(turns) + Tops(runs[..i]) && Counted(acts, all, st)
      invariant st.teammates == Mates(runs[..i]) && st.subagents == i - st.teammates
    {
      var ra := Flatten(runs[i].1);
      assert runs[..i + 1][..i] == runs[..i];
      PartInForest(acts, Flat(turns), runs, i);
      st := CountMore(acts, all, ra, st);
      Onward(Flat(turns), Tops(runs[..i]), ra);
      all := all + ra;
      if runs[i].0.toolUseId == "" {
        st := st.(teammates := st.teammates + 1);
      } else {
        st := st.(subagents := st.subagents + 1);
      }
    }
    assert runs[..|runs|] == runs;
    var agents := WalkAgents(acts, all, 0);
    st := st.(subagents := st.subagents + agents);
  }

  /** `stat_session`: the sums over the main turns and each run are the sums over the whole forest under its roots. */
  method StatSession(recs: seq<Rec>, metas: seq<Meta>) returns (st: Stats)
    ensures (var r := Session(recs, metas);
             && Tree(r.f) && Counted(r.f.acts, r.f.roots, st)
             && st.teammates == |Teammates(metas)|
             && st.subagents == |r.left| + Weigh(r.f.acts, r.f.roots, 0, IsAgent()))
    ensures st.subagents + st.teammates <= |metas|
    ensures st.actions <= |ToolUses(recs, false)| + Blocks(metas)
    ensures st.actions == |ToolUses(recs, false)| + Blocks(metas) <==> PromptFirst(recs, false) && AllPromptFirst(metas)
    ensures Tallies(recs, metas, st)
  {
    var acts, turns, runs := ParseSession(recs, metas);
    SessionCounts(recs, metas);
    EveryActionCounted(recs, metas);
    SessionRoots(recs, metas);
    RunsByReason(recs, metas);
    AgentsWithinFiles(recs, metas);
    st := CountSession(acts, turns, runs);
    TalliesAre(recs, metas, st);
  }

  /** Errors are failed calls, and the histogram counts calls: all of them when each follows a prompt. */
  ghost predicate Tallies(recs: seq<Rec>, metas: seq<Meta>, st: Stats) {
    && st.errors <= |FailedCalls(recs, false)| + AllFailed(metas)
    && (forall t :: Got(st.tools, t) <= |CallsOf(recs, false, t)| + AllCallsOf(metas, t))
    && (PromptFirst(recs, false) && AllPromptFirst(metas) ==>
          && st.errors == |FailedCalls(recs, false)| + AllFailed(metas)
          && forall t :: Got(st.tools, t) == |CallsOf(recs, false, t)| + AllCallsOf(metas, t))
  }

  lemma TalliesAre(recs: seq<Rec>, metas: seq<Meta>, st: Stats)
    requires var f := Session(recs, metas).f; Tree(f) && Counted(f.acts, f.roots, st)
    ensures Tallies(recs, metas, st)
  {
    RootsHold(recs, metas, "");
    forall t
      ensures Got(st.tools, t) <= |CallsOf(recs, false, t)| + AllCallsOf(metas, t)
      ensures PromptFirst(recs, false) && AllPromptFirst(metas) ==>
        Got(st.tools, t) == |CallsOf(recs, false, t)| + AllCallsOf(metas, t)
    {
      RootsHold(recs, metas, t);
    }
  }

  /** Under the roots are the failed calls and the calls of a tool, but for those among the strays. */
  lemma RootsHold(recs: seq<Rec>, metas: seq<Meta>, t: string)
    ensures (var f := Session(recs, metas).f;
             var failed, calls := |FailedCalls(recs, false)| + AllFailed(metas), |CallsOf(recs, false, t)| + AllCallsOf(metas, t);
             && Tree(f) && InForest(f.acts, f.roots, 0)
             && Weigh(f.acts, f.roots, 0, IsError()) <= failed && Weigh(f.acts, f.roots, 0, IsTool(t)) <= calls
             && (PromptFirst(recs, false) && AllPromptFirst(metas) ==>
                   Weigh(f.acts, f.roots, 0, IsError()) == failed && Weigh(f.acts, f.roots, 0, IsTool(t)) == calls))
  {
    var f := Session(recs, metas).f;
    EachTranscriptOnce(recs, metas);
    NothingCountedTwice(f, IsError());
    NothingCountedTwice(f, IsTool(t));
    SessionCalls(recs, metas, t);
    StraysAreEarly(recs, metas);
  }
}
