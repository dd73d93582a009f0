/** Subagent transcripts grafted onto the calls that spawned them.  Actions are numbered in the order
  * they are created; a child list holds numbers. */
module GraftingModel {
  import opened Options

  datatype Block = ToolUse(name: string, id: string) | OtherBlock

  /** A transcript record, as far as actions go. */
  datatype Rec =
    | Prompt(side: bool)
    | Assistant(side: bool, uuid: string, blocks: seq<Block>)
    | Result(answers: Option<string>, source: string, isError: bool)
    | OtherRec

  datatype Act = Act(tool: string, toolId: string, isError: bool, children: seq<nat>, agentType: Option<string>)

  /** A subagent's metadata and its transcript. */
  datatype Meta = Meta(toolUseId: string, agentType: Option<string>, recs: seq<Rec>)

  // ----- one transcript ----------------------------------------------------------------

  /** What parsing builds: new actions, each turn's actions, the actions before any turn, and lookups. */
  datatype Parsed = Parsed(acts: seq<Act>, turns: seq<seq<nat>>, stray: seq<nat>,
                           byTool: map<string, nat>, byUuid: map<string, nat>)

  const NOTHING := Parsed([], [], [], map[], map[])

  function AddBlock(base: nat, p: Parsed, uuid: string, b: Block): Parsed {
    match b
    case OtherBlock => p
    case ToolUse(name, id) =>
      var n := base + |p.acts|;
      Parsed(p.acts + [Act(name, id, false, [], None)],
             if p.turns == [] then [] else p.turns[|p.turns| - 1 := p.turns[|p.turns| - 1] + [n]],
             if p.turns == [] then p.stray + [n] else p.stray,
             p.byTool[id := n], p.byUuid[uuid := n])
  }

  function AddBlocks(base: nat, p: Parsed, uuid: string, blocks: seq<Block>): Parsed {
    if blocks == [] then p
    else AddBlock(base, AddBlocks(base, p, uuid, blocks[..|blocks| - 1]), uuid, blocks[|blocks| - 1])
  }

  /** The call a result belongs to: by tool id, else the last one of the source record. */
  function Target(p: Parsed, answers: Option<string>, source: string): Option<nat> {
    if answers.Some? && answers.value in p.byTool then Some(p.byTool[answers.value])
    else if source in p.byUuid then Some(p.byUuid[source])
    else None
  }

  function MarkResult(base: nat, p: Parsed, answers: Option<string>, source: string, isError: bool): Parsed {
    match Target(p, answers, source)
    case None => p
    case Some(n) =>
      if base <= n < base + |p.acts| then p.(acts := p.acts[n - base := p.acts[n - base].(isError := isError)]) else p
  }

  function AddRec(base: nat, p: Parsed, rec: Rec, allowSide: bool): Parsed {
    match rec
    case Prompt(side) => if side && !allowSide then p else p.(turns := p.turns + [[]])
    case Assistant(side, uuid, blocks) => if side && !allowSide then p else AddBlocks(base, p, uuid, blocks)
    case Result(answers, source, isError) => MarkResult(base, p, answers, source, isError)
    case OtherRec => p
  }

  function Parse(base: nat, recs: seq<Rec>, allowSide: bool): Parsed {
    if recs == [] then NOTHING
    else AddRec(base, Parse(base, recs[..|recs| - 1], allowSide), recs[|recs| - 1], allowSide)
  }

  function Flat(lists: seq<seq<nat>>): seq<nat> {
    if lists == [] then [] else Flat(lists[..|lists| - 1]) + lists[|lists| - 1]
  }

  function Uses(blocks: seq<Block>): seq<string> {
    if blocks == [] then []
    else Uses(blocks[..|blocks| - 1]) + match blocks[|blocks| - 1] case ToolUse(_, id) => [id] case OtherBlock => []
  }

  function RecUses(rec: Rec, allowSide: bool): seq<string> {
    match rec
    case Assistant(side, _, blocks) => if side && !allowSide then [] else Uses(blocks)
    case _ => []
  }

  /** The ids of the parsed tool_use blocks, in order. */
  function ToolUses(recs: seq<Rec>, allowSide: bool): seq<string> {
    if recs == [] then [] else ToolUses(recs[..|recs| - 1], allowSide) + RecUses(recs[|recs| - 1], allowSide)
  }

  function Range(lo: nat, n: nat): (r: seq<nat>)
    ensures |r| == n && forall i | 0 <= i < n :: r[i] == lo + i
  {
    seq(n, i requires 0 <= i < n => lo + i)
  }

  function IdsOf(s: seq<string>): set<string> { set x | x in s }

  ghost predicate ActsOk(acts: seq<Act>, uses: seq<string>) {
    |acts| == |uses| && forall i | 0 <= i < |acts| :: acts[i].children == [] && acts[i].toolId == uses[i]
  }

  /** Every new action is in one turn, or before all of them. */
  ghost predicate PlacedOk(base: nat, p: Parsed) { PlacedAs(base, |p.acts|, p.turns, p.stray) }

  ghost predicate PlacedAs(base: nat, n: nat, turns: seq<seq<nat>>, stray: seq<nat>) {
    multiset(Flat(turns) + stray) == multiset(Range(base, n))
  }

  ghost predicate LookupsOk(base: nat, p: Parsed, uses: seq<string>) {
    && p.byTool.Keys == IdsOf(uses)
    && (forall id | id in p.byTool :: base <= p.byTool[id] < base + |uses| && uses[p.byTool[id] - base] == id)
    && (forall u | u in p.byUuid :: base <= p.byUuid[u] < base + |uses|)
  }

  /** New actions are childless and numbered in order, each in one turn or in none. */
  ghost predicate ParsedOk(base: nat, p: Parsed, uses: seq<string>) {
    ActsOk(p.acts, uses) && PlacedOk(base, p) && LookupsOk(base, p, uses)
  }

  lemma FlatLast(turns: seq<seq<nat>>, n: nat)
    requires turns != []
    ensures multiset(Flat(turns[|turns| - 1 := turns[|turns| - 1] + [n]])) == multiset(Flat(turns)) + multiset{n}
  {
    var last := |turns| - 1;
    var more := turns[last := turns[last] + [n]];
    assert more[..last] == turns[..last];
    assert Flat(more) == Flat(turns) + [n];
  }

  lemma FlatOpen(turns: seq<seq<nat>>)
    ensures Flat(turns + [[]]) == Flat(turns)
  {
    assert (turns + [[]])[..|turns|] == turns;
  }

  lemma RangeMore(base: nat, n: nat)
    ensures Range(base, n + 1) == Range(base, n) + [base + n]
  {
  }

  lemma Both<T>(a: seq<T>, b: seq<T>)
    ensures multiset(a + b) == multiset(a) + multiset(b)
  {
  }

  lemma Three<T>(a: seq<T>, b: seq<T>, c: seq<T>)
    ensures multiset(a + b + c) == multiset(a) + multiset(b) + multiset(c)
  {
  }

  lemma Swap<T>(a: multiset<T>, b: multiset<T>, c: multiset<T>)
    ensures a + b + c == a + c + b
  {
  }

  lemma Assoc<T>(a: multiset<T>, b: multiset<T>, c: multiset<T>)
    ensures a + (b + c) == a + b + c
  {
  }

  lemma PlacedMore(base: nat, n: nat, m: nat, flat: seq<nat>, stray: seq<nat>, flat1: seq<nat>, stray1: seq<nat>)
    requires multiset(flat + stray) == multiset(Range(base, n)) && m == base + n
    requires multiset(flat1) + multiset(stray1) == multiset(flat) + multiset(stray) + multiset{m}
    ensures multiset(flat1 + stray1) == multiset(Range(base, n + 1))
  {
    RangeMore(base, n);
    Both(Range(base, n), [m]);
    Both(flat, stray);
    Both(flat1, stray1);
    assert multiset([m]) == multiset{m};
  }

  lemma PlacedInTurn(base: nat, n: nat, m: nat, turns: seq<seq<nat>>, stray: seq<nat>)
    requires turns != [] && PlacedAs(base, n, turns, stray) && m == base + n
    ensures PlacedAs(base, n + 1, turns[|turns| - 1 := turns[|turns| - 1] + [m]], stray)
  {
    FlatLast(turns, m);
    Swap(multiset(Flat(turns)), multiset{m}, multiset(stray));
    PlacedMore(base, n, m, Flat(turns), stray, Flat(turns[|turns| - 1 := turns[|turns| - 1] + [m]]), stray);
  }

  lemma PlacedStray(base: nat, n: nat, m: nat, turns: seq<seq<nat>>, stray: seq<nat>)
    requires PlacedAs(base, n, turns, stray) && m == base + n
    ensures PlacedAs(base, n + 1, turns, stray + [m])
  {
    var flat := Flat(turns);
    Both(stray, [m]);
    assert multiset([m]) == multiset{m};
    Assoc(multiset(flat), multiset(stray), multiset{m});
    PlacedMore(base, n, m, flat, stray, flat, stray + [m]);
  }

  lemma BlockFields(base: nat, p: Parsed, uuid: string, name: string, id: string, m: nat)
    requires m == base + |p.acts|
    ensures (var q := AddBlock(base, p, uuid, ToolUse(name, id));
             && |q.acts| == |p.acts| + 1
             && (p.turns == [] ==> q.turns == p.turns && q.stray == p.stray + [m])
             && (p.turns != [] ==> q.turns == p.turns[|p.turns| - 1 := p.turns[|p.turns| - 1] + [m]] && q.stray == p.stray))
  {
  }

  lemma BlockInTurn(base: nat, p: Parsed, q: Parsed, m: nat)
    requires PlacedOk(base, p) && p.turns != [] && m == base + |p.acts| && |q.acts| == |p.acts| + 1
    requires q.turns == p.turns[|p.turns| - 1 := p.turns[|p.turns| - 1] + [m]] && q.stray == p.stray
    ensures PlacedOk(base, q)
  {
    PlacedInTurn(base, |p.acts|, m, p.turns, p.stray);
  }

  lemma BlockStray(base: nat, p: Parsed, q: Parsed, m: nat)
    requires PlacedOk(base, p) && m == base + |p.acts| && |q.acts| == |p.acts| + 1
    requires q.turns == p.turns && q.stray == p.stray + [m]
    ensures PlacedOk(base, q)
  {
    PlacedStray(base, |p.acts|, m, p.turns, p.stray);
  }

  lemma BlockPlaced(base: nat, p: Parsed, uuid: string, name: string, id: string, q: Parsed)
    requires PlacedOk(base, p) && q == AddBlock(base, p, uuid, ToolUse(name, id))
    ensures PlacedOk(base, q)
  {
    BlockFields(base, p, uuid, name, id, base + |p.acts|);
    if p.turns != [] {
      BlockInTurn(base, p, q, base + |p.acts|);
    } else {
      BlockStray(base, p, q, base + |p.acts|);
    }
  }

  lemma BlockFound(base: nat, p: Parsed, uses: seq<string>, uuid: string, name: string, id: string)
    requires LookupsOk(base, p, uses) && |p.acts| == |uses|
    ensures LookupsOk(base, AddBlock(base, p, uuid, ToolUse(name, id)), uses + [id])
  {
    assert IdsOf(uses + [id]) == IdsOf(uses) + {id};
  }

  lemma BlockOk(base: nat, p: Parsed, uses: seq<string>, uuid: string, name: string, id: string)
    requires ParsedOk(base, p, uses)
    ensures ParsedOk(base, AddBlock(base, p, uuid, ToolUse(name, id)), uses + [id])
  {
    BlockPlaced(base, p, uuid, name, id, AddBlock(base, p, uuid, ToolUse(name, id)));
    BlockFound(base, p, uses, uuid, name, id);
  }

  lemma {:induction false} BlocksOk(base: nat, p: Parsed, uses: seq<string>, uuid: string, blocks: seq<Block>)
    requires ParsedOk(base, p, uses)
    ensures ParsedOk(base, AddBlocks(base, p, uuid, blocks), uses + Uses(blocks))
  {
    if blocks == [] {
      assert uses + [] == uses;
    } else {
      var front := blocks[..|blocks| - 1];
      BlocksOk(base, p, uses, uuid, front);
      match blocks[|blocks| - 1]
      case OtherBlock => assert uses + Uses(blocks) == uses + Uses(front);
      case ToolUse(name, id) =>
        BlockOk(base, AddBlocks(base, p, uuid, front), uses + Uses(front), uuid, name, id);
        assert uses + Uses(blocks) == uses + Uses(front) + [id];
    }
  }

  lemma ResultOk(base: nat, p: Parsed, uses: seq<string>, answers: Option<string>, source: string, isError: bool)
    requires ParsedOk(base, p, uses)
    ensures ParsedOk(base, MarkResult(base, p, answers, source, isError), uses)
  {
    var q := MarkResult(base, p, answers, source, isError);
    assert |q.acts| == |p.acts| && q.turns == p.turns && q.stray == p.stray;
    assert q.byTool == p.byTool && q.byUuid == p.byUuid;
  }

  lemma PromptOk(base: nat, p: Parsed, uses: seq<string>)
    requires ParsedOk(base, p, uses)
    ensures ParsedOk(base, p.(turns := p.turns + [[]]), uses)
  {
    FlatOpen(p.turns);
  }

  lemma RecOk(base: nat, p: Parsed, uses: seq<string>, rec: Rec, allowSide: bool)
    requires ParsedOk(base, p, uses)
    ensures ParsedOk(base, AddRec(base, p, rec, allowSide), uses + RecUses(rec, allowSide))
  {
    assert uses + [] == uses;
    match rec
    case Prompt(side) => PromptOk(base, p, uses);
    case Assistant(side, uuid, blocks) => BlocksOk(base, p, uses, uuid, blocks);
    case Result(answers, source, isError) => ResultOk(base, p, uses, answers, source, isError);
    case OtherRec =>
  }

  /** Parsing numbers the tool_use blocks and loses none. */
  lemma {:induction false} ParseOk(base: nat, recs: seq<Rec>, allowSide: bool)
    ensures ParsedOk(base, Parse(base, recs, allowSide), ToolUses(recs, allowSide))
  {
    if recs == [] {
      assert Range(base, 0) == [] && Flat([]) + [] == [];
    } else {
      var front := recs[..|recs| - 1];
      ParseOk(base, front, allowSide);
      RecOk(base, Parse(base, front, allowSide), ToolUses(front, allowSide), recs[|recs| - 1], allowSide);
    }
  }

  // ----- the forest --------------------------------------------------------------------

  /** All actions, the index by tool id, the top-level actions, and those in no turn. */
  datatype Forest = Forest(acts: seq<Act>, index: map<string, nat>, roots: seq<nat>, stray: seq<nat>)

  function Kids(acts: seq<Act>): seq<nat> {
    if acts == [] then [] else Kids(acts[..|acts| - 1]) + acts[|acts| - 1].children
  }

  ghost predicate ChildrenLater(acts: seq<Act>) {
    forall i, c | 0 <= i < |acts| && c in acts[i].children :: i < c < |acts|
  }

  ghost predicate IndexOk(f: Forest) {
    forall id | id in f.index :: f.index[id] < |f.acts| && f.acts[f.index[id]].toolId == id
  }

  ghost predicate Placed(f: Forest) {
    multiset(f.roots + Kids(f.acts) + f.stray) == multiset(Range(0, |f.acts|))
  }

  /** Children come after their parents; every action is a root, a child or a stray, exactly once. */
  ghost predicate Tree(f: Forest) { ChildrenLater(f.acts) && IndexOk(f) && Placed(f) }

  /** A transcript whose turns stay at the top. */
  function Load(f: Forest, recs: seq<Rec>, allowSide: bool): Forest {
    var p := Parse(|f.acts|, recs, allowSide);
    Forest(f.acts + p.acts, f.index + p.byTool, f.roots + Flat(p.turns), f.stray + p.stray)
  }

  /** A transcript whose turns become the children of an action. */
  function Attach(f: Forest, parent: nat, meta: Meta): Forest
    requires parent < |f.acts|
  {
    var p := Parse(|f.acts|, meta.recs, true);
    var a := f.acts[parent];
    Forest((f.acts + p.acts)[parent := a.(children := a.children + Flat(p.turns), agentType := meta.agentType)],
           f.index + p.byTool, f.roots, f.stray + p.stray)
  }

  lemma {:induction false} KidsOfChildless(acts: seq<Act>, more: seq<Act>)
    requires forall i | 0 <= i < |more| :: more[i].children == []
    ensures Kids(acts + more) == Kids(acts)
  {
    if more == [] {
      assert acts + more == acts;
    } else {
      KidsOfChildless(acts, more[..|more| - 1]);
      assert (acts + more)[..|acts + more| - 1] == acts + more[..|more| - 1];
    }
  }

  lemma KidsAfterLast(acts: seq<Act>, a: Act, more: seq<nat>)
    requires acts != [] && a.children == acts[|acts| - 1].children + more
    ensures multiset(Kids(acts[|acts| - 1 := a])) == multiset(Kids(acts)) + multiset(more)
  {
    var n := |acts| - 1;
    assert acts[n := a][..n] == acts[..n];
    assert Kids(acts[n := a]) == Kids(acts) + more;
  }

  lemma KidsOfFront(acts: seq<Act>, front: seq<Act>, before: multiset<nat>, more: multiset<nat>)
    requires acts != [] && front == acts[..|acts| - 1] && multiset(Kids(front)) == before + more
    ensures multiset(Kids(acts)) == before + multiset(acts[|acts| - 1].children) + more
  {
    Both(Kids(front), acts[|acts| - 1].children);
    Swap(before, more, multiset(acts[|acts| - 1].children));
  }

  lemma {:induction false} KidsAfter(acts: seq<Act>, parent: nat, a: Act, more: seq<nat>)
    requires parent < |acts| && a.children == acts[parent].children + more
    ensures multiset(Kids(acts[parent := a])) == multiset(Kids(acts)) + multiset(more)
  {
    var n := |acts| - 1;
    if parent == n {
      KidsAfterLast(acts, a, more);
    } else {
      KidsAfter(acts[..n], parent, a, more);
      assert acts[parent := a][..n] == acts[..n][parent := a];
      Both(Kids(acts[..n]), acts[n].children);
      KidsOfFront(acts[parent := a], acts[..n][parent := a], multiset(Kids(acts[..n])), multiset(more));
    }
  }

  lemma RangeTwice(m: nat, n: nat)
    ensures Range(0, m + n) == Range(0, m) + Range(m, n)
  {
  }

  lemma FlatInRange(base: nat, p: Parsed, c: nat)
    requires PlacedOk(base, p) && c in Flat(p.turns)
    ensures base <= c < base + |p.acts|
  {
    assert c in multiset(Flat(p.turns) + p.stray);
    assert c in Range(base, |p.acts|);
  }

  lemma IndexMore(f: Forest, p: Parsed, uses: seq<string>, g: Forest)
    requires IndexOk(f) && ActsOk(p.acts, uses) && LookupsOk(|f.acts|, p, uses)
    requires g.index == f.index + p.byTool && |g.acts| == |f.acts| + |p.acts|
    requires forall i | 0 <= i < |g.acts| :: g.acts[i].toolId == (f.acts + p.acts)[i].toolId
    ensures IndexOk(g)
  {
    forall id | id in g.index ensures g.index[id] < |g.acts| && g.acts[g.index[id]].toolId == id {
      if id in p.byTool {
        assert (f.acts + p.acts)[p.byTool[id]] == p.acts[p.byTool[id] - |f.acts|];
      }
    }
  }

  lemma JoinPlaced(n: nat, m: nat, roots: seq<nat>, kids: seq<nat>, stray: seq<nat>, flat: seq<nat>, more: seq<nat>,
                   roots1: seq<nat>, kids1: seq<nat>)
    requires multiset(roots + kids + stray) == multiset(Range(0, n)) && multiset(flat + more) == multiset(Range(n, m))
    requires multiset(roots1) + multiset(kids1) == multiset(roots) + multiset(kids) + multiset(flat)
    ensures multiset(roots1 + kids1 + (stray + more)) == multiset(Range(0, n + m))
  {
    RangeTwice(n, m);
    Both(Range(0, n), Range(n, m));
    Three(roots, kids, stray);
    Both(flat, more);
    Both(stray, more);
    Three(roots1, kids1, stray + more);
    Regroup(multiset(roots) + multiset(kids), multiset(flat), multiset(stray), multiset(more));
  }

  lemma Regroup<T>(a: multiset<T>, b: multiset<T>, c: multiset<T>, d: multiset<T>)
    ensures a + b + (c + d) == a + c + (b + d)
  {
  }

  lemma RootsMore(roots: seq<nat>, kids: seq<nat>, flat: seq<nat>)
    ensures multiset(roots + flat) + multiset(kids) == multiset(roots) + multiset(kids) + multiset(flat)
  {
    Both(roots, flat);
    Swap(multiset(roots), multiset(flat), multiset(kids));
  }

  lemma LoadPlaced(f: Forest, p: Parsed, uses: seq<string>, g: Forest)
    requires Placed(f) && ActsOk(p.acts, uses) && PlacedOk(|f.acts|, p)
    requires g.acts == f.acts + p.acts && g.roots == f.roots + Flat(p.turns) && g.stray == f.stray + p.stray
    ensures Placed(g)
  {
    KidsOfChildless(f.acts, p.acts);
    RootsMore(f.roots, Kids(f.acts), Flat(p.turns));
    JoinPlaced(|f.acts|, |p.acts|, f.roots, Kids(f.acts), f.stray, Flat(p.turns), p.stray, g.roots, Kids(g.acts));
  }

  lemma LoadIsTree(f: Forest, recs: seq<Rec>, allowSide: bool)
    requires Tree(f)
    ensures Tree(Load(f, recs, allowSide))
    ensures |Load(f, recs, allowSide).acts| == |f.acts| + |ToolUses(recs, allowSide)|
    ensures Load(f, recs, allowSide).index.Keys == f.index.Keys + IdsOf(ToolUses(recs, allowSide))
  {
    var p, uses := Parse(|f.acts|, recs, allowSide), ToolUses(recs, allowSide);
    ParseOk(|f.acts|, recs, allowSide);
    IndexMore(f, p, uses, Load(f, recs, allowSide));
    LoadPlaced(f, p, uses, Load(f, recs, allowSide));
  }

  lemma AttachKids(acts: seq<Act>, more: seq<Act>, parent: nat, a: Act, flat: seq<nat>)
    requires (forall i | 0 <= i < |more| :: more[i].children == []) && parent < |acts|
    requires a.children == acts[parent].children + flat
    ensures multiset(Kids((acts + more)[parent := a])) == multiset(Kids(acts)) + multiset(flat)
  {
    KidsOfChildless(acts, more);
    KidsAfter(acts + more, parent, a, flat);
  }

  lemma SumsEqual(roots: seq<nat>, kids: seq<nat>, kids1: seq<nat>, flat: seq<nat>)
    requires multiset(kids1) == multiset(kids) + multiset(flat)
    ensures multiset(roots) + multiset(kids1) == multiset(roots) + multiset(kids) + multiset(flat)
  {
    Assoc(multiset(roots), multiset(kids), multiset(flat));
  }

  lemma AttachPlaced(f: Forest, parent: nat, p: Parsed, uses: seq<string>, g: Forest)
    requires Placed(f) && ActsOk(p.acts, uses) && PlacedOk(|f.acts|, p) && parent < |f.acts| == |g.acts| - |p.acts|
    requires g.acts == (f.acts + p.acts)[parent := g.acts[parent]] && g.roots == f.roots && g.stray == f.stray + p.stray
    requires g.acts[parent].children == f.acts[parent].children + Flat(p.turns)
    ensures Placed(g)
  {
    AttachKids(f.acts, p.acts, parent, g.acts[parent], Flat(p.turns));
    SumsEqual(f.roots, Kids(f.acts), Kids(g.acts), Flat(p.turns));
    JoinPlaced(|f.acts|, |p.acts|, f.roots, Kids(f.acts), f.stray, Flat(p.turns), p.stray, f.roots, Kids(g.acts));
  }

  lemma AttachLater(f: Forest, parent: nat, p: Parsed, uses: seq<string>, g: Forest)
    requires ChildrenLater(f.acts) && ActsOk(p.acts, uses) && PlacedOk(|f.acts|, p) && parent < |f.acts| == |g.acts| - |p.acts|
    requires g.acts == (f.acts + p.acts)[parent := g.acts[parent]]
    requires g.acts[parent].children == f.acts[parent].children + Flat(p.turns)
    ensures ChildrenLater(g.acts)
  {
    forall i, c | 0 <= i < |g.acts| && c in g.acts[i].children ensures i < c < |g.acts| {
      if i == parent && c in Flat(p.turns) {
        FlatInRange(|f.acts|, p, c);
      } else if i < |f.acts| {
        assert c in f.acts[i].children;
      }
    }
  }

  lemma AttachIsTree(f: Forest, parent: nat, meta: Meta)
    requires Tree(f) && parent < |f.acts|
    ensures Tree(Attach(f, parent, meta))
    ensures |Attach(f, parent, meta).acts| == |f.acts| + |ToolUses(meta.recs, true)|
    ensures Attach(f, parent, meta).index.Keys == f.index.Keys + IdsOf(ToolUses(meta.recs, true))
  {
    var p, uses, g := Parse(|f.acts|, meta.recs, true), ToolUses(meta.recs, true), Attach(f, parent, meta);
    ParseOk(|f.acts|, meta.recs, true);
    IndexMore(f, p, uses, g);
    AttachPlaced(f, parent, p, uses, g);
    AttachLater(f, parent, p, uses, g);
  }

  // ----- grafting ----------------------------------------------------------------------

  /** A pass over the pending transcripts: the forest, those attached in order, those left. */
  datatype Progress = Progress(f: Forest, order: seq<Meta>, left: seq<Meta>)

  function Pass(f: Forest, order: seq<Meta>, pending: seq<Meta>): Progress
    requires Tree(f)
    decreases |pending|
  {
    if pending == [] then Progress(f, order, [])
    else
      var m := pending[0];
      if m.toolUseId in f.index then
        AttachIsTree(f, f.index[m.toolUseId], m);
        Pass(Attach(f, f.index[m.toolUseId], m), order + [m], pending[1..])
      else
        var rest := Pass(f, order, pending[1..]);
        rest.(left := [m] + rest.left)
  }

  ghost function Base(f: Forest): set<string> { f.index.Keys }

  function Opened(ms: seq<Meta>): set<string> { set m, id | m in ms && id in ToolUses(m.recs, true) :: id }

  /** Each attached transcript's call was known when it was attached. */
  ghost predicate Grounded(base: set<string>, order: seq<Meta>) {
    forall k | 0 <= k < |order| :: order[k].toolUseId in base + Opened(order[..k])
  }

  ghost predicate Known(base: set<string>, f: Forest, order: seq<Meta>) {
    Tree(f) && f.index.Keys == base + Opened(order) && Grounded(base, order)
  }

  lemma OpenedMore(order: seq<Meta>, m: Meta)
    ensures Opened(order + [m]) == Opened(order) + IdsOf(ToolUses(m.recs, true))
  {
    forall id ensures id in Opened(order + [m]) <==> id in Opened(order) || id in ToolUses(m.recs, true) {
      if id in ToolUses(m.recs, true) {
        assert m in order + [m];
      }
    }
  }

  lemma GroundedMore(base: set<string>, order: seq<Meta>, m: Meta)
    requires Grounded(base, order) && m.toolUseId in base + Opened(order)
    ensures Grounded(base, order + [m])
  {
    var more := order + [m];
    forall k | 0 <= k < |more| ensures more[k].toolUseId in base + Opened(more[..k]) {
      if k < |order| {
        assert more[..k] == order[..k];
      } else {
        assert more[..k] == order;
      }
    }
  }

  /** What a pass keeps: nothing is lost, and it stops only when no call is known. */
  ghost predicate PassOk(base: set<string>, f: Forest, order: seq<Meta>, pending: seq<Meta>, r: Progress) {
    && Known(base, r.f, r.order)
    && multiset(r.order) + multiset(r.left) == multiset(order) + multiset(pending)
    && |r.left| <= |pending|
    && (|r.left| == |pending| ==> r == Progress(f, order, pending) && NoneKnown(f, pending))
    && |r.f.acts| + Blocks(r.left) == |f.acts| + Blocks(pending)
    && r.f.roots == f.roots
  }

  ghost predicate NoneKnown(f: Forest, pending: seq<Meta>) { forall m | m in pending :: m.toolUseId !in f.index }

  lemma AttachKnown(base: set<string>, f: Forest, order: seq<Meta>, m: Meta)
    requires Known(base, f, order) && m.toolUseId in f.index
    ensures Known(base, Attach(f, f.index[m.toolUseId], m), order + [m])
    ensures |Attach(f, f.index[m.toolUseId], m).acts| == |f.acts| + |ToolUses(m.recs, true)|
  {
    AttachIsTree(f, f.index[m.toolUseId], m);
    OpenedMore(order, m);
    GroundedMore(base, order, m);
  }

  lemma PassSkips(base: set<string>, f: Forest, order: seq<Meta>, pending: seq<Meta>, rest: Progress)
    requires Known(base, f, order) && pending != [] && pending[0].toolUseId !in f.index
    requires PassOk(base, f, order, pending[1..], rest)
    ensures PassOk(base, f, order, pending, rest.(left := [pending[0]] + rest.left))
  {
    var left := [pending[0]] + rest.left;
    assert left[1..] == rest.left && pending == [pending[0]] + pending[1..];
    Both([pending[0]], rest.left);
    Both([pending[0]], pending[1..]);
    MoveOut(multiset(rest.order), multiset([pending[0]]), multiset(rest.left));
    MoveOut(multiset(order), multiset([pending[0]]), multiset(pending[1..]));
    if |left| == |pending| {
      assert left == pending;
    }
  }

  lemma PassAttaches(base: set<string>, f: Forest, order: seq<Meta>, pending: seq<Meta>, grown: Forest, rest: Progress)
    requires pending != [] && PassOk(base, grown, order + [pending[0]], pending[1..], rest)
    requires |grown.acts| == |f.acts| + |ToolUses(pending[0].recs, true)| && grown.roots == f.roots
    ensures PassOk(base, f, order, pending, rest)
  {
    assert pending == [pending[0]] + pending[1..];
    Both(order, [pending[0]]);
    Both([pending[0]], pending[1..]);
    Assoc(multiset(order), multiset([pending[0]]), multiset(pending[1..]));
  }

  lemma MoveOut<T>(a: multiset<T>, b: multiset<T>, c: multiset<T>)
    ensures a + (b + c) == a + c + b
  {
  }

  lemma {:induction false} PassIs(base: set<string>, f: Forest, order: seq<Meta>, pending: seq<Meta>)
    requires Known(base, f, order)
    ensures PassOk(base, f, order, pending, Pass(f, order, pending))
    decreases |pending|
  {
    if pending != [] {
      var m := pending[0];
      if m.toolUseId in f.index {
        var grown := Attach(f, f.index[m.toolUseId], m);
        AttachKnown(base, f, order, m);
        PassIs(base, grown, order + [m], pending[1..]);
        PassAttaches(base, f, order, pending, grown, Pass(grown, order + [m], pending[1..]));
      } else {
        PassIs(base, f, order, pending[1..]);
        PassSkips(base, f, order, pending, Pass(f, order, pending[1..]));
      }
    }
  }

  /** How many tool_use blocks the transcripts hold. */
  function Blocks(ms: seq<Meta>): nat {
    if ms == [] then 0 else |ToolUses(ms[0].recs, true)| + Blocks(ms[1..])
  }

  /** Passes until nothing new attaches. */
  ghost function Fix(base: set<string>, f: Forest, order: seq<Meta>, pending: seq<Meta>): Progress
    requires Known(base, f, order)
    decreases |pending|
  {
    PassIs(base, f, order, pending);
    var r := Pass(f, order, pending);
    if |r.left| == |pending| then r else Fix(base, r.f, r.order, r.left)
  }

  /** What is left at the end has no call anywhere; what is attached was grounded; none is lost. */
  ghost predicate FixOk(base: set<string>, f: Forest, order: seq<Meta>, pending: seq<Meta>, r: Progress) {
    && Known(base, r.f, r.order)
    && multiset(r.order) + multiset(r.left) == multiset(order) + multiset(pending)
    && NoneKnown(r.f, r.left)
    && |r.f.acts| + Blocks(r.left) == |f.acts| + Blocks(pending)
    && r.f.roots == f.roots
  }

  lemma {:induction false} FixIs(base: set<string>, f: Forest, order: seq<Meta>, pending: seq<Meta>)
    requires Known(base, f, order)
    ensures FixOk(base, f, order, pending, Fix(base, f, order, pending))
    decreases |pending|
  {
    PassIs(base, f, order, pending);
    var r := Pass(f, order, pending);
    if |r.left| < |pending| {
      FixIs(base, r.f, r.order, r.left);
    }
  }

  function SetOf(ms: seq<Meta>): set<Meta> { set m | m in ms }

  lemma OpenedGrows(a: seq<Meta>, b: set<Meta>, c: seq<Meta>)
    requires SetOf(a) <= b && b == SetOf(c)
    ensures Opened(a) <= Opened(c)
  {
    forall id | id in Opened(a) ensures id in Opened(c) {
      var m :| m in a && id in ToolUses(m.recs, true);
      assert m in SetOf(a);
    }
  }

  /** None of what is left over could attach. */
  ghost predicate LeftOver(base: set<string>, b: seq<Meta>, left: seq<Meta>) {
    forall m | m in left :: m.toolUseId !in base + Opened(b)
  }

  /** One run's attached transcripts are attached in every other run over the same transcripts. */
  lemma {:induction false} AttachedBoth(base: set<string>, a: seq<Meta>, b: seq<Meta>, left: seq<Meta>)
    requires Grounded(base, a) && LeftOver(base, b, left) && SetOf(a) <= SetOf(b) + SetOf(left)
    ensures SetOf(a) <= SetOf(b)
  {
    if a != [] {
      var n := |a| - 1;
      FrontGrounded(base, a);
      var front, m := a[..n], a[n];
      AttachedBoth(base, front, b, left);
      OpenedGrows(front, SetOf(b), b);
      NotLeft(base, b, left, m);
      AllOf(a, front, m);
    }
  }

  lemma AllOf(a: seq<Meta>, front: seq<Meta>, m: Meta)
    requires a != [] && front == a[..|a| - 1] && m == a[|a| - 1]
    ensures SetOf(a) == SetOf(front) + {m}
  {
    assert a == front + [m];
  }

  lemma FrontGrounded(base: set<string>, a: seq<Meta>)
    requires a != [] && Grounded(base, a)
    ensures Grounded(base, a[..|a| - 1]) && SetOf(a[..|a| - 1]) <= SetOf(a)
    ensures a[|a| - 1].toolUseId in base + Opened(a[..|a| - 1])
  {
    var front := a[..|a| - 1];
    forall k | 0 <= k < |front| ensures front[k].toolUseId in base + Opened(front[..k]) {
      assert front[..k] == a[..k];
    }
  }

  /** What the attached ones open is not left over. */
  lemma NotLeft(base: set<string>, b: seq<Meta>, left: seq<Meta>, m: Meta)
    requires LeftOver(base, b, left) && m in SetOf(b) + SetOf(left) && m.toolUseId in base + Opened(b)
    ensures m in b
  {
  }

  lemma AllAttachedBoth(base: set<string>, a: Progress, b: Progress, all: set<Meta>)
    requires Known(base, a.f, a.order) && Known(base, b.f, b.order) && NoneKnown(b.f, b.left)
    requires all == SetOf(a.order) + SetOf(a.left) == SetOf(b.order) + SetOf(b.left)
    ensures SetOf(a.order) <= SetOf(b.order)
  {
    AttachedBoth(base, a.order, b.order, b.left);
  }

  /** Which transcripts attach does not depend on the order of the files. */
  lemma OrderDoesNotMatter(f: Forest, pending: seq<Meta>, other: seq<Meta>)
    requires Tree(f) && SetOf(pending) == SetOf(other)
    ensures Known(f.index.Keys, f, [])
    ensures SetOf(Fix(f.index.Keys, f, [], pending).order) == SetOf(Fix(f.index.Keys, f, [], other).order)
  {
    var base := f.index.Keys;
    assert Opened([]) == {};
    FixIs(base, f, [], pending);
    FixIs(base, f, [], other);
    var a, b := Fix(base, f, [], pending), Fix(base, f, [], other);
    SameMembers(a.order, a.left, pending);
    SameMembers(b.order, b.left, other);
    AllAttachedBoth(base, a, b, SetOf(pending));
    AllAttachedBoth(base, b, a, SetOf(pending));
  }

  lemma SameMembers(order: seq<Meta>, left: seq<Meta>, pending: seq<Meta>)
    requires multiset(order) + multiset(left) == multiset(pending)
    ensures SetOf(pending) == SetOf(order) + SetOf(left)
  {
    forall m ensures m in pending <==> m in order || m in left {
      assert m in multiset(pending) <==> m in multiset(order) || m in multiset(left);
    }
  }
}
