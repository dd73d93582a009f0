/** Parsing, grafting and counting as they loop over one shared store of actions. */
module GraftingLoop {
  import opened Options
  import opened GraftingModel
  import opened Grafting

  /** What one parse keeps to itself. */
  datatype Locals = Locals(turns: seq<seq<nat>>, byTool: map<string, nat>, byUuid: map<string, nat>)

  class Transcripts {
    var acts: seq<Act>
    var index: map<string, nat>
    ghost var roots: seq<nat>
    ghost var stray: seq<nat>

    ghost function Now(): Forest reads this { Forest(acts, index, roots, stray) }

    constructor ()
      ensures Now() == EMPTY
    {
      acts, index, roots, stray := [], map[], [], [];
    }

    /** The store and the local lookups hold what has been parsed so far. */
    ghost predicate Holds(p: Parsed, acts0: seq<Act>, index0: map<string, nat>, l: Locals, early: seq<nat>)
      reads this
    {
      && acts == acts0 + p.acts && index == index0 + p.byTool
      && l.turns == p.turns && early == p.stray && l.byTool == p.byTool && l.byUuid == p.byUuid
    }

    /** One tool_use block. */
    method AddUse(name: string, id: string, uuid: string, l: Locals, ghost early: seq<nat>, ghost p: Parsed,
                  ghost acts0: seq<Act>, ghost index0: map<string, nat>) returns (l1: Locals, ghost early1: seq<nat>)
      requires Holds(p, acts0, index0, l, early)
      modifies this`acts, this`index
      ensures Holds(AddBlock(|acts0|, p, uuid, ToolUse(name, id)), acts0, index0, l1, early1)
    {
      var n := |acts|;
      acts := acts + [Act(name, id, false, [], None)];
      index := index[id := n];
      var turns := l.turns;
      early1 := early;
      if turns != [] {
        turns := turns[|turns| - 1 := turns[|turns| - 1] + [n]];
      } else {
        early1 := early1 + [n];
      }
      l1 := Locals(turns, l.byTool[id := n], l.byUuid[uuid := n]);
    }

    /** An assistant record's blocks. */
    method AddUses(blocks: seq<Block>, uuid: string, l: Locals, ghost early: seq<nat>, ghost p: Parsed,
                   ghost acts0: seq<Act>, ghost index0: map<string, nat>) returns (l1: Locals, ghost early1: seq<nat>)
      requires Holds(p, acts0, index0, l, early)
      modifies this`acts, this`index
      ensures Holds(AddBlocks(|acts0|, p, uuid, blocks), acts0, index0, l1, early1)
    {
      l1, early1 := l, early;
      for j := 0 to |blocks|
        invariant Holds(AddBlocks(|acts0|, p, uuid, blocks[..j]), acts0, index0, l1, early1)
      {
        assert blocks[..j + 1][..j] == blocks[..j];
        if blocks[j].ToolUse? {
          l1, early1 := AddUse(blocks[j].name, blocks[j].id, uuid, l1, early1,
                               AddBlocks(|acts0|, p, uuid, blocks[..j]), acts0, index0);
        }
      }
      assert blocks[..|blocks|] == blocks;
    }

    /** A tool result: it belongs to the call it answers, else to the last call of its source record. */
    method TakeResult(answers: Option<string>, source: string, isError: bool, l: Locals, ghost early: seq<nat>,
                      ghost p: Parsed, ghost uses: seq<string>, ghost acts0: seq<Act>, ghost index0: map<string, nat>)
      requires Holds(p, acts0, index0, l, early) && ParsedOk(|acts0|, p, uses)
      modifies this`acts
      ensures Holds(MarkResult(|acts0|, p, answers, source, isError), acts0, index0, l, early)
    {
      var target: Option<nat> := None;
      if answers.Some? && answers.value in l.byTool {
        target := Some(l.byTool[answers.value]);
      } else if source in l.byUuid {
        target := Some(l.byUuid[source]);
      }
      if target.Some? {
        acts := acts[target.value := acts[target.value].(isError := isError)];
      }
    }

    /** `build_turns`: new actions at the end of the store and in the index. */
    method BuildTurns(recs: seq<Rec>, allowSide: bool) returns (turns: seq<seq<nat>>, ghost early: seq<nat>)
      modifies this`acts, this`index
      ensures (var p := Parse(|old(acts)|, recs, allowSide);
               && acts == old(acts) + p.acts && index == old(index) + p.byTool && turns == p.turns && early == p.stray)
    {
      ghost var acts0, index0 := acts, index;
      var l := Locals([], map[], map[]);
      early := [];
      for i := 0 to |recs|
        invariant Holds(Parse(|acts0|, recs[..i], allowSide), acts0, index0, l, early)
      {
        ghost var p := Parse(|acts0|, recs[..i], allowSide);
        assert recs[..i + 1][..i] == recs[..i];
        assert Parse(|acts0|, recs[..i + 1], allowSide) == AddRec(|acts0|, p, recs[i], allowSide);
        match recs[i]
        case Prompt(side) =>
          if allowSide || !side {
            l := l.(turns := l.turns + [[]]);
          }
        case Assistant(side, uuid, blocks) =>
          if allowSide || !side {
            l, early := AddUses(blocks, uuid, l, early, p, acts0, index0);
          }
        case Result(answers, source, isError) =>
          ParseOk(|acts0|, recs[..i], allowSide);
          TakeResult(answers, source, isError, l, early, p, ToolUses(recs[..i], allowSide), acts0, index0);
        case OtherRec =>
      }
      assert recs[..|recs|] == recs;
      turns := l.turns;
    }

    /** A transcript whose turns stay at the top. */
    method LoadTop(recs: seq<Rec>, allowSide: bool) returns (turns: seq<seq<nat>>)
      modifies this
      ensures Now() == Load(old(Now()), recs, allowSide)
      ensures turns == Parse(|old(acts)|, recs, allowSide).turns
    {
      ghost var early;
      turns, early := BuildTurns(recs, allowSide);
      roots, stray := roots + Flat(turns), stray + early;
    }

    /** A transcript whose turns become the children of the action that spawned it. */
    method AttachTo(parent: nat, meta: Meta)
      requires parent < |acts|
      modifies this
      ensures Now() == Attach(old(Now()), parent, meta)
    {
      var turns;
      ghost var early;
      turns, early := BuildTurns(meta.recs, true);
      var children := Flatten(turns);
      acts := acts[parent := acts[parent].(children := acts[parent].children + children, agentType := meta.agentType)];
      stray := stray + early;
    }

    /** One pass; returns what is still pending. */
    method RunPass(pending: seq<Meta>, ghost order: seq<Meta>) returns (still: seq<Meta>, attached: nat)
      requires Tree(Now())
      modifies this
      ensures Progress(Now(), order + Attached(old(Now()), order, pending), still) == Pass(old(Now()), order, pending)
      ensures attached == |Attached(old(Now()), order, pending)| && attached == |pending| - |still|
      ensures Tree(Now())
    {
      still, attached := [], 0;
      ghost var done := order;
      assert pending[0..] == pending;
      PassGrows(Now(), done, pending);
      for i := 0 to |pending|
        invariant Tree(Now()) && order <= done && done == order + done[|order|..] && attached == |done| - |order|
        invariant attached == i - |still|
        invariant Pass(old(Now()), order, pending) == PassAfter(Now(), done, pending[i..], still)
      {
        assert pending[i..][0] == pending[i] && pending[i..][1..] == pending[i + 1..];
        ghost var f := Now();
        PassStep(f, done, pending[i..], still);
        if pending[i].toolUseId in index {
          AttachIsTree(f, index[pending[i].toolUseId], pending[i]);
          AttachTo(index[pending[i].toolUseId], pending[i]);
          done := done + [pending[i]];
          attached := attached + 1;
        } else {
          still := still + [pending[i]];
        }
      }
      assert pending[|pending|..] == [];
      PassEnd(Now(), done, still);
      assert Attached(old(Now()), order, pending) == done[|order|..];
    }

    /** `graft_subagents`: how many attached, and the runs that stand alone, teammates first. */
    method GraftSubagents(metas: seq<Meta>) returns (attached: nat, standalone: seq<(Meta, seq<seq<nat>>)>)
      requires Tree(Now())
      modifies this
      ensures (var r := Graft(old(Now()), metas);
               && Now() == r.f && attached == |r.order|
               && standalone == Standing(old(Now()), Teammates(metas)) + Standing(Grown(old(Now()), metas), r.left))
    {
      var pending;
      pending, standalone := SplitMetas(metas);
      LoadAllIsTree(old(Now()), Teammates(metas));
      assert Opened([]) == {};
      attached, pending := RunPasses(pending);
      standalone := LoadOrphans(pending, standalone);
    }

    /** Passes until one attaches nothing; returns how many attached and what is left. */
    method RunPasses(metas: seq<Meta>) returns (attached: nat, pending: seq<Meta>)
      requires Tree(Now()) && Known(Now().index.Keys, Now(), [])
      modifies this
      ensures var r := Fix(old(Now()).index.Keys, old(Now()), [], metas);
              Now() == r.f && attached == |r.order| && pending == r.left
    {
      ghost var base := Now().index.Keys;
      ghost var order: seq<Meta> := [];
      attached, pending := 0, metas;
      var going := true;
      while going
        invariant Known(base, Now(), order) && attached == |order|
        invariant Fix(base, old(Now()), [], metas)
          == if going then Fix(base, Now(), order, pending) else Progress(Now(), order, pending)
        decreases going, |pending|
      {
        ghost var f := Now();
        PassIs(base, f, order, pending);
        var still, n := RunPass(pending, order);
        attached, order := attached + n, order + Attached(f, order, pending);
        going := |still| < |pending|;
        pending := still;
      }
    }

    /** Teammates are loaded at once; the rest wait for their call. */
    method SplitMetas(metas: seq<Meta>) returns (pending: seq<Meta>, standalone: seq<(Meta, seq<seq<nat>>)>)
      modifies this
      ensures pending == Spawned(metas) && Now() == LoadAll(old(Now()), Teammates(metas))
      ensures standalone == Standing(old(Now()), Teammates(metas))
    {
      pending, standalone := [], [];
      for i := 0 to |metas|
        invariant pending == Spawned(metas[..i]) && Now() == LoadAll(old(Now()), Teammates(metas[..i]))
        invariant standalone == Standing(old(Now()), Teammates(metas[..i]))
      {
        assert metas[..i + 1] == metas[..i] + [metas[i]];
        KindsMore(metas[..i], metas[i]);
        if metas[i].toolUseId == "" {
          StandingMore(old(Now()), Teammates(metas[..i]), metas[i]);
          var turns := LoadTop(metas[i].recs, true);
          standalone := standalone + [(metas[i], turns)];
        } else {
          pending := pending + [metas[i]];
        }
      }
      assert metas[..|metas|] == metas;
    }

    method LoadOrphans(left: seq<Meta>, before: seq<(Meta, seq<seq<nat>>)>) returns (standalone: seq<(Meta, seq<seq<nat>>)>)
      modifies this
      ensures Now() == LoadAll(old(Now()), left) && standalone == before + Standing(old(Now()), left)
    {
      standalone := before;
      assert left[..0] == [];
      for i := 0 to |left|
        invariant Now() == LoadAll(old(Now()), left[..i]) && standalone == before + Standing(old(Now()), left[..i])
      {
        assert left[..i + 1] == left[..i] + [left[i]];
        StandingMore(old(Now()), left[..i], left[i]);
        var turns := LoadTop(left[i].recs, true);
        standalone := standalone + [(left[i], turns)];
      }
      assert left[..|left|] == left;
    }
  }

  method Flatten(turns: seq<seq<nat>>) returns (ids: seq<nat>)
    ensures ids == Flat(turns)
  {
    ids := [];
    for i := 0 to |turns|
      invariant ids == Flat(turns[..i])
    {
      assert turns[..i + 1][..i] == turns[..i];
      ids := ids + turns[i];
    }
    assert turns[..|turns|] == turns;
  }

  /** The transcripts that stand alone, each with the turns of its own records. */
  function Standing(f: Forest, ms: seq<Meta>): seq<(Meta, seq<seq<nat>>)> {
    if ms == [] then []
    else
      var n := |ms| - 1;
      Standing(f, ms[..n]) + [(ms[n], Parse(|LoadAll(f, ms[..n]).acts|, ms[n].recs, true).turns)]
  }

  /** The forest once nothing more attaches. */
  ghost function Grown(f: Forest, metas: seq<Meta>): Forest
    requires Tree(f)
  {
    var team := LoadAll(f, Teammates(metas));
    LoadAllIsTree(f, Teammates(metas));
    assert Known(team.index.Keys, team, []);
    Fix(team.index.Keys, team, [], Spawned(metas)).f
  }

  lemma StandingMore(f: Forest, ms: seq<Meta>, m: Meta)
    ensures LoadAll(f, ms + [m]) == Load(LoadAll(f, ms), m.recs, true)
    ensures Standing(f, ms + [m])
      == Standing(f, ms) + [(m, Parse(|LoadAll(f, ms).acts|, m.recs, true).turns)]
  {
    assert (ms + [m])[..|ms|] == ms;
  }

  /** What a pass attaches. */
  ghost function Attached(f: Forest, order: seq<Meta>, pending: seq<Meta>): seq<Meta>
    requires Tree(f)
  {
    PassGrows(f, order, pending);
    Pass(f, order, pending).order[|order|..]
  }

  lemma {:induction false} PassGrows(f: Forest, order: seq<Meta>, pending: seq<Meta>)
    requires Tree(f)
    ensures order <= Pass(f, order, pending).order
    decreases |pending|
  {
    if pending != [] {
      var m := pending[0];
      if m.toolUseId in f.index {
        AttachIsTree(f, f.index[m.toolUseId], m);
        PassGrows(Attach(f, f.index[m.toolUseId], m), order + [m], pending[1..]);
      } else {
        PassGrows(f, order, pending[1..]);
      }
    }
  }

  /** The rest of a pass, after `still` has been put aside. */
  ghost function PassAfter(f: Forest, order: seq<Meta>, pending: seq<Meta>, still: seq<Meta>): Progress
    requires Tree(f)
  {
    var r := Pass(f, order, pending);
    r.(left := still + r.left)
  }

  lemma PassStep(f: Forest, order: seq<Meta>, pending: seq<Meta>, still: seq<Meta>)
    requires Tree(f) && pending != []
    ensures (var m := pending[0];
             if m.toolUseId in f.index then
               Tree(Attach(f, f.index[m.toolUseId], m))
               && PassAfter(f, order, pending, still)
                  == PassAfter(Attach(f, f.index[m.toolUseId], m), order + [m], pending[1..], still)
             else PassAfter(f, order, pending, still) == PassAfter(f, order, pending[1..], still + [m]))
  {
    var m := pending[0];
    if m.toolUseId in f.index {
      AttachIsTree(f, f.index[m.toolUseId], m);
    } else {
      var rest := Pass(f, order, pending[1..]);
      assert still + ([m] + rest.left) == still + [m] + rest.left;
    }
  }

  lemma PassEnd(f: Forest, order: seq<Meta>, still: seq<Meta>)
    requires Tree(f)
    ensures PassAfter(f, order, [], still) == Progress(f, order, still)
  {
    assert still + [] == still;
  }

  function IsError(): Act -> bool { (a: Act) => a.isError }

  function IsTool(t: string): Act -> bool { (a: Act) => a.tool == t }

  function Got(hist: map<string, nat>, t: string): nat { if t in hist then hist[t] else 0 }

  /** `count_actions`: all nested actions, the failed ones, and a count for every tool. */
  method CountActions(acts: seq<Act>, ids: seq<nat>, before: map<string, nat>, lo: nat)
    returns (total: nat, errors: nat, hist: map<string, nat>)
    requires ChildrenLater(acts) && InForest(acts, ids, lo)
    ensures total == Weigh(acts, ids, lo, Every()) && errors == Weigh(acts, ids, lo, IsError())
    ensures forall t :: Got(hist, t) == Got(before, t) + Weigh(acts, ids, lo, IsTool(t))
    decreases |acts| - lo, |ids|
  {
    total, errors, hist := 0, 0, before;
    if ids == [] {
      return;
    }
    TailInForest(acts, ids, lo);
    var i := ids[0];
    var a := acts[i];
    hist := hist[a.tool := Got(hist, a.tool) + 1];
    ghost var mine := hist;
    var subTotal, subErrors;
    subTotal, subErrors, hist := CountActions(acts, a.children, hist, i + 1);
    var restTotal, restErrors;
    ghost var mid := hist;
    restTotal, restErrors, hist := CountActions(acts, ids[1..], hist, lo);
    total := 1 + subTotal + restTotal;
    errors := (if a.isError then 1 else 0) + subErrors + restErrors;
    forall t ensures Got(hist, t) == Got(before, t) + Weigh(acts, ids, lo, IsTool(t)) {
      assert Got(mid, t) == Got(mine, t) + Weigh(acts, a.children, i + 1, IsTool(t));
      assert Got(hist, t) == Got(mid, t) + Weigh(acts, ids[1..], lo, IsTool(t));
    }
  }
}
