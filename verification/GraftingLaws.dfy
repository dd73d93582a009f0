/** What parsing makes of every tool_use block: its action, its turn, and the result it gets. */
module GraftingLaws {
  import opened Options
  import opened GraftingModel

  /** A tool_use block that is parsed: its tool and id, its record, and how many prompts came before it. */
  datatype Origin = Origin(tool: string, id: string, uuid: string, turn: nat)

  function OfBlocks(blocks: seq<Block>, uuid: string, turn: nat): seq<Origin> {
    if blocks == [] then []
    else
      OfBlocks(blocks[..|blocks| - 1], uuid, turn)
      + match blocks[|blocks| - 1] case ToolUse(name, id) => [Origin(name, id, uuid, turn)] case OtherBlock => []
  }

  /** How many prompts a transcript holds; a sidechain's do not count in the main one. */
  function Prompts(recs: seq<Rec>, allowSide: bool): nat {
    if recs == [] then 0
    else
      var last := recs[|recs| - 1];
      Prompts(recs[..|recs| - 1], allowSide) + if last.Prompt? && (allowSide || !last.side) then 1 else 0
  }

  /** The parsed tool_use blocks of a transcript, in order. */
  function Origins(recs: seq<Rec>, allowSide: bool): seq<Origin> {
    if recs == [] then []
    else
      var front, last := recs[..|recs| - 1], recs[|recs| - 1];
      Origins(front, allowSide)
      + if last.Assistant? && (allowSide || !last.side) then OfBlocks(last.blocks, last.uuid, Prompts(front, allowSide)) else []
  }

  // ----- results -----------------------------------------------------------------------

  function Ids(made: seq<Origin>): (ids: seq<string>)
    ensures |ids| == |made| && forall k | 0 <= k < |made| :: ids[k] == made[k].id
  {
    seq(|made|, k requires 0 <= k < |made| => made[k].id)
  }

  function Uuids(made: seq<Origin>): (uuids: seq<string>)
    ensures |uuids| == |made| && forall k | 0 <= k < |made| :: uuids[k] == made[k].uuid
  {
    seq(|made|, k requires 0 <= k < |made| => made[k].uuid)
  }

  predicate IsLast<T(==)>(keys: seq<T>, key: T, k: nat) {
    k < |keys| && keys[k] == key && forall j | k < j < |keys| :: keys[j] != key
  }

  /** Action `k` is the last one of the id that is answered, or, when no action has that id, the last
    * one of the source record. */
  predicate Answers(made: seq<Origin>, answers: Option<string>, source: string, k: nat) {
    if answers.Some? && answers.value in Ids(made) then IsLast(Ids(made), answers.value, k)
    else IsLast(Uuids(made), source, k)
  }

  /** Record `r` is a result for action `k`. */
  predicate IsResultFor(recs: seq<Rec>, allowSide: bool, r: nat, k: nat) {
    r < |recs| && recs[r].Result? && Answers(Origins(recs[..r], allowSide), recs[r].answers, recs[r].source, k)
  }

  predicate IsLastResult(recs: seq<Rec>, allowSide: bool, r: nat, k: nat) {
    IsResultFor(recs, allowSide, r, k) && forall q | r < q < |recs| :: !IsResultFor(recs, allowSide, q, k)
  }

  /** The last result for action `k` is an error. */
  predicate Failed(recs: seq<Rec>, allowSide: bool, k: nat) {
    exists r | 0 <= r < |recs| :: IsLastResult(recs, allowSide, r, k) && recs[r].isError
  }

  // ----- what a parse keeps ------------------------------------------------------------

  /** A lookup gives the last action of every key. */
  ghost predicate LooksUp<T(!new)>(base: nat, keys: seq<T>, last: map<T, nat>) {
    && (forall j | 0 <= j < |keys| :: keys[j] in last)
    && (forall key | key in last :: base <= last[key] && IsLast(keys, key, last[key] - base))
  }

  lemma LooksUpMore<T(!new)>(base: nat, keys: seq<T>, last: map<T, nat>, key: T, more: seq<T>, later: map<T, nat>)
    requires LooksUp(base, keys, last) && more == keys + [key] && later == last[key := base + |keys|]
    ensures LooksUp(base, more, later)
  {
    forall x | x in last && x != key ensures IsLast(more, x, last[x] - base) {
      assert IsLast(keys, x, last[x] - base);
    }
  }

  lemma OnlyOneLast<T>(keys: seq<T>, key: T, j: nat, k: nat)
    requires IsLast(keys, key, j) && IsLast(keys, key, k)
    ensures j == k
  {
  }

  lemma LookIs<T(!new)>(base: nat, keys: seq<T>, last: map<T, nat>, key: T, k: nat)
    requires LooksUp(base, keys, last)
    ensures IsLast(keys, key, k) <==> key in last && last[key] == base + k
    ensures key in keys <==> key in last
  {
    if IsLast(keys, key, k) {
      OnlyOneLast(keys, key, k, last[key] - base);
    }
  }

  ghost predicate LastOf(base: nat, p: Parsed, made: seq<Origin>) {
    LooksUp(base, Ids(made), p.byTool) && LooksUp(base, Uuids(made), p.byUuid)
  }

  /** One action for every block, in order, with its tool and id and nothing else yet. */
  ghost predicate ActsAre(p: Parsed, made: seq<Origin>) {
    |p.acts| == |made|
    && forall k | 0 <= k < |made| ::
         p.acts[k].tool == made[k].tool && p.acts[k].toolId == made[k].id && p.acts[k].children == [] && p.acts[k].agentType == None
  }

  /** A turn for every prompt; each holds the actions of its own blocks, and all are in order. */
  ghost predicate TurnsAre(base: nat, p: Parsed, made: seq<Origin>, prompts: nat) {
    && |p.turns| == prompts && (forall k | 0 <= k < |made| :: made[k].turn <= prompts)
    && p.stray + Flat(p.turns) == Range(base, |made|)
    && (forall x :: x in p.stray <==> base <= x < base + |made| && made[x - base].turn == 0)
    && forall t, x | 0 <= t < prompts :: x in p.turns[t] <==> base <= x < base + |made| && made[x - base].turn == t + 1
  }

  lemma OneMoreAct(base: nat, p: Parsed, made: seq<Origin>, uuid: string, name: string, id: string, turn: nat)
    requires ActsAre(p, made) && LastOf(base, p, made)
    ensures var q := AddBlock(base, p, uuid, ToolUse(name, id)); var more := made + [Origin(name, id, uuid, turn)];
            ActsAre(q, more) && LastOf(base, q, more)
  {
    var o, q := Origin(name, id, uuid, turn), AddBlock(base, p, uuid, ToolUse(name, id));
    LastMore(base, p, made, q, o);
    ActsMore(p, made, q, o);
  }

  lemma LastMore(base: nat, p: Parsed, made: seq<Origin>, q: Parsed, o: Origin)
    requires LastOf(base, p, made)
    requires q.byTool == p.byTool[o.id := base + |made|] && q.byUuid == p.byUuid[o.uuid := base + |made|]
    ensures LastOf(base, q, made + [o])
  {
    KeysMore(made, o);
    LooksUpMore(base, Ids(made), p.byTool, o.id, Ids(made + [o]), q.byTool);
    LooksUpMore(base, Uuids(made), p.byUuid, o.uuid, Uuids(made + [o]), q.byUuid);
  }

  lemma KeysMore(made: seq<Origin>, o: Origin)
    ensures Ids(made + [o]) == Ids(made) + [o.id] && Uuids(made + [o]) == Uuids(made) + [o.uuid]
  {
  }

  lemma ActsMore(p: Parsed, made: seq<Origin>, q: Parsed, o: Origin)
    requires ActsAre(p, made) && q.acts == p.acts + [Act(o.tool, o.id, false, [], None)]
    ensures ActsAre(q, made + [o])
  {
  }

  lemma OneMoreInTurn(base: nat, p: Parsed, made: seq<Origin>, uuid: string, name: string, id: string)
    requires ActsAre(p, made) && TurnsAre(base, p, made, |p.turns|)
    ensures TurnsAre(base, AddBlock(base, p, uuid, ToolUse(name, id)), made + [Origin(name, id, uuid, |p.turns|)], |p.turns|)
  {
    var more := made + [Origin(name, id, uuid, |p.turns|)];
    var q, n, last := AddBlock(base, p, uuid, ToolUse(name, id)), base + |p.acts|, |p.turns| - 1;
    RangeMore(base, |made|);
    if p.turns != [] {
      assert q.turns[..last] == p.turns[..last];
      Onto(Flat(p.turns[..last]), p.turns[last], [n]);
      Onto(p.stray, Flat(p.turns), [n]);
    } else {
      assert p.stray + [] == p.stray && q.stray + [] == q.stray;
    }
  }

  ghost predicate BlocksOk(base: nat, p: Parsed, q: Parsed, more: seq<Origin>) {
    && ActsAre(q, more) && LastOf(base, q, more) && |q.turns| == |p.turns| && TurnsAre(base, q, more, |p.turns|)
    && p.acts <= q.acts && forall k | |p.acts| <= k < |q.acts| :: !q.acts[k].isError
  }

  lemma NextBlock(base: nat, p: Parsed, mid: Parsed, more: seq<Origin>, uuid: string, name: string, id: string)
    requires BlocksOk(base, p, mid, more)
    ensures BlocksOk(base, p, AddBlock(base, mid, uuid, ToolUse(name, id)), more + [Origin(name, id, uuid, |p.turns|)])
  {
    OneMoreAct(base, mid, more, uuid, name, id, |p.turns|);
    OneMoreInTurn(base, mid, more, uuid, name, id);
  }

  lemma {:induction false} BlocksAre(base: nat, p: Parsed, made: seq<Origin>, uuid: string, blocks: seq<Block>)
    requires ActsAre(p, made) && LastOf(base, p, made) && TurnsAre(base, p, made, |p.turns|)
    ensures BlocksOk(base, p, AddBlocks(base, p, uuid, blocks), made + OfBlocks(blocks, uuid, |p.turns|))
  {
    if blocks == [] {
      assert made + [] == made;
    } else {
      var front, last := blocks[..|blocks| - 1], blocks[|blocks| - 1];
      BlocksAre(base, p, made, uuid, front);
      var mid, some := AddBlocks(base, p, uuid, front), OfBlocks(front, uuid, |p.turns|);
      if last.ToolUse? {
        NextBlock(base, p, mid, made + some, uuid, last.name, last.id);
        Onto(made, some, [Origin(last.name, last.id, uuid, |p.turns|)]);
      } else {
        assert some + [] == some;
      }
    }
  }

  lemma Onto<T>(a: seq<T>, b: seq<T>, c: seq<T>)
    ensures a + (b + c) == a + b + c
  {
  }

  lemma OneMoreTurn(base: nat, p: Parsed, made: seq<Origin>)
    requires TurnsAre(base, p, made, |p.turns|)
    ensures TurnsAre(base, p.(turns := p.turns + [[]]), made, |p.turns| + 1)
  {
    FlatOpen(p.turns);
  }

  lemma TargetById(base: nat, p: Parsed, made: seq<Origin>, answers: Option<string>, source: string, k: nat)
    requires LooksUp(base, Ids(made), p.byTool) && answers.Some? && answers.value in Ids(made)
    ensures Answers(made, answers, source, k) <==> Target(p, answers, source) == Some(base + k)
  {
    LookIs(base, Ids(made), p.byTool, answers.value, k);
  }

  lemma TargetBySource(base: nat, p: Parsed, made: seq<Origin>, answers: Option<string>, source: string, k: nat)
    requires LooksUp(base, Uuids(made), p.byUuid)
    requires !(answers.Some? && answers.value in Ids(made)) && !(answers.Some? && answers.value in p.byTool)
    ensures Answers(made, answers, source, k) <==> Target(p, answers, source) == Some(base + k)
  {
    LookIs(base, Uuids(made), p.byUuid, source, k);
  }

  lemma TargetAt(base: nat, p: Parsed, made: seq<Origin>, answers: Option<string>, source: string, k: nat)
    requires LastOf(base, p, made)
    ensures Answers(made, answers, source, k) <==> Target(p, answers, source) == Some(base + k)
  {
    if answers.Some? && answers.value in Ids(made) {
      TargetById(base, p, made, answers, source, k);
    } else {
      if answers.Some? {
        LookIs(base, Ids(made), p.byTool, answers.value, k);
      }
      TargetBySource(base, p, made, answers, source, k);
    }
  }

  lemma TargetInRange(base: nat, p: Parsed, made: seq<Origin>, answers: Option<string>, source: string)
    requires LastOf(base, p, made) && |p.acts| == |made|
    ensures var target := Target(p, answers, source); target.Some? ==> base <= target.value < base + |p.acts|
  {
  }

  lemma OriginsBefore(recs: seq<Rec>, allowSide: bool, r: nat)
    requires recs != [] && r < |recs|
    ensures Origins(recs[..|recs| - 1][..r], allowSide) == Origins(recs[..r], allowSide)
  {
    assert recs[..|recs| - 1][..r] == recs[..r];
  }

  lemma ResultBefore(recs: seq<Rec>, allowSide: bool, r: nat, k: nat)
    requires recs != [] && r < |recs| - 1
    ensures IsResultFor(recs, allowSide, r, k) <==> IsResultFor(recs[..|recs| - 1], allowSide, r, k)
  {
    OriginsBefore(recs, allowSide, r);
  }

  lemma LastResultBefore(recs: seq<Rec>, allowSide: bool, r: nat, k: nat)
    requires recs != [] && r < |recs| - 1 && !IsResultFor(recs, allowSide, |recs| - 1, k)
    ensures IsLastResult(recs, allowSide, r, k) <==> IsLastResult(recs[..|recs| - 1], allowSide, r, k)
  {
    var n := |recs| - 1;
    ResultBefore(recs, allowSide, r, k);
    forall q | r < q < n ensures IsResultFor(recs, allowSide, q, k) <==> IsResultFor(recs[..n], allowSide, q, k) {
      ResultBefore(recs, allowSide, q, k);
    }
  }

  /** The last record decides whether an action failed, if it is a result for it. */
  lemma FailedNext(recs: seq<Rec>, allowSide: bool, k: nat)
    requires recs != []
    ensures Failed(recs, allowSide, k)
      <==> if IsResultFor(recs, allowSide, |recs| - 1, k) then recs[|recs| - 1].isError
           else Failed(recs[..|recs| - 1], allowSide, k)
  {
    var n := |recs| - 1;
    if IsResultFor(recs, allowSide, n, k) {
      assert IsLastResult(recs, allowSide, n, k);
    } else {
      forall r | 0 <= r < n
        ensures IsLastResult(recs, allowSide, r, k) <==> IsLastResult(recs[..n], allowSide, r, k)
        ensures recs[r] == recs[..n][r] {
        LastResultBefore(recs, allowSide, r, k);
      }
    }
  }

  lemma {:induction false} NoResultYet(recs: seq<Rec>, allowSide: bool, k: nat)
    requires |Origins(recs, allowSide)| <= k
    ensures !Failed(recs, allowSide, k)
    ensures forall r: nat :: !IsResultFor(recs, allowSide, r, k)
  {
    if recs != [] {
      var front := recs[..|recs| - 1];
      NoResultYet(front, allowSide, k);
      assert recs[..|recs| - 1] == front;
      forall r: nat ensures !IsResultFor(recs, allowSide, r, k) {
        if r < |recs| - 1 {
          ResultBefore(recs, allowSide, r, k);
        }
      }
    }
  }

  ghost predicate ErrorsAre(recs: seq<Rec>, allowSide: bool, p: Parsed) {
    forall k: nat | k < |p.acts| :: p.acts[k].isError <==> Failed(recs, allowSide, k)
  }

  /** Parsing, block by block: which action each becomes, which turn it is in, and whether it failed. */
  ghost predicate ParsedAs(base: nat, recs: seq<Rec>, allowSide: bool, p: Parsed) {
    var made := Origins(recs, allowSide);
    ActsAre(p, made) && LastOf(base, p, made) && TurnsAre(base, p, made, Prompts(recs, allowSide)) && ErrorsAre(recs, allowSide, p)
  }

  lemma ResultStep(base: nat, recs: seq<Rec>, allowSide: bool, p: Parsed)
    requires recs != [] && recs[|recs| - 1].Result? && ParsedAs(base, recs[..|recs| - 1], allowSide, p)
    ensures ParsedAs(base, recs, allowSide, AddRec(base, p, recs[|recs| - 1], allowSide))
  {
    var q := ResultLands(base, recs, allowSide, p, recs[|recs| - 1], Origins(recs[..|recs| - 1], allowSide));
    SameOrigins(recs, allowSide);
  }

  lemma ResultLands(base: nat, recs: seq<Rec>, allowSide: bool, p: Parsed, last: Rec, made: seq<Origin>)
    returns (q: Parsed)
    requires recs != [] && last == recs[|recs| - 1] && last.Result? && made == Origins(recs[..|recs| - 1], allowSide)
    requires ActsAre(p, made) && LastOf(base, p, made) && ErrorsAre(recs[..|recs| - 1], allowSide, p)
    requires TurnsAre(base, p, made, |p.turns|)
    ensures q == AddRec(base, p, last, allowSide) && |q.turns| == |p.turns|
    ensures ActsAre(q, made) && LastOf(base, q, made) && TurnsAre(base, q, made, |p.turns|) && ErrorsAre(recs, allowSide, q)
  {
    SameOrigins(recs, allowSide);
    q := MarkIs(base, p, made, last.answers, last.source, last.isError);
    ResultErrors(recs, allowSide, made, last, p, q);
  }

  lemma ResultErrors(recs: seq<Rec>, allowSide: bool, made: seq<Origin>, last: Rec, p: Parsed, q: Parsed)
    requires recs != [] && last == recs[|recs| - 1] && last.Result? && made == Origins(recs, allowSide)
    requires ErrorsAre(recs[..|recs| - 1], allowSide, p) && |q.acts| == |p.acts|
    requires forall k: nat | k < |q.acts| ::
      q.acts[k].isError == if Answers(made, last.answers, last.source, k) then last.isError else p.acts[k].isError
    ensures ErrorsAre(recs, allowSide, q)
  {
    SameOrigins(recs, allowSide);
    forall k: nat | k < |q.acts| ensures q.acts[k].isError <==> Failed(recs, allowSide, k) {
      ResultFails(recs, allowSide, k);
      assert p.acts[k].isError <==> Failed(recs[..|recs| - 1], allowSide, k);
    }
  }

  lemma ResultFails(recs: seq<Rec>, allowSide: bool, k: nat)
    requires recs != [] && recs[|recs| - 1].Result?
    ensures var front, last := recs[..|recs| - 1], recs[|recs| - 1];
            Failed(recs, allowSide, k)
            <==> if Answers(Origins(front, allowSide), last.answers, last.source, k) then last.isError
                 else Failed(front, allowSide, k)
  {
    FailedNext(recs, allowSide, k);
  }

  /** Only the action that is answered changes. */
  lemma MarkIs(base: nat, p: Parsed, made: seq<Origin>, answers: Option<string>, source: string, isError: bool)
    returns (q: Parsed)
    requires ActsAre(p, made) && LastOf(base, p, made)
    ensures q == MarkResult(base, p, answers, source, isError) && ActsAre(q, made) && q == p.(acts := q.acts)
    ensures forall k: nat | k < |q.acts| ::
      q.acts[k].isError == if Answers(made, answers, source, k) then isError else p.acts[k].isError
  {
    TargetInRange(base, p, made, answers, source);
    TargetsAre(base, p, made, answers, source, |p.acts|);
    q := MarkedBy(base, p, made, answers, source, isError);
  }

  lemma MarkedBy(base: nat, p: Parsed, made: seq<Origin>, answers: Option<string>, source: string, isError: bool)
    returns (q: Parsed)
    requires ActsAre(p, made)
    requires var target := Target(p, answers, source); target.Some? ==> base <= target.value < base + |p.acts|
    requires forall k: nat | k < |p.acts| ::
      Target(p, answers, source) == Some(base + k) <==> Answers(made, answers, source, k)
    ensures q == MarkResult(base, p, answers, source, isError) && ActsAre(q, made) && q == p.(acts := q.acts)
    ensures forall k: nat | k < |q.acts| ::
      q.acts[k].isError == if Answers(made, answers, source, k) then isError else p.acts[k].isError
  {
    q := MarkResult(base, p, answers, source, isError);
    MarkedAt(base, p, answers, source, isError);
  }

  lemma TargetsAre(base: nat, p: Parsed, made: seq<Origin>, answers: Option<string>, source: string, n: nat)
    requires LastOf(base, p, made)
    ensures forall k: nat | k < n :: Target(p, answers, source) == Some(base + k) <==> Answers(made, answers, source, k)
  {
    forall k: nat | k < n ensures Target(p, answers, source) == Some(base + k) <==> Answers(made, answers, source, k) {
      TargetAt(base, p, made, answers, source, k);
    }
  }

  lemma MarkedAt(base: nat, p: Parsed, answers: Option<string>, source: string, isError: bool)
    requires var target := Target(p, answers, source); target.Some? ==> base <= target.value < base + |p.acts|
    ensures var q, target := MarkResult(base, p, answers, source, isError), Target(p, answers, source);
            && q == p.(acts := q.acts) && |q.acts| == |p.acts|
            && forall k: nat | k < |q.acts| ::
                 q.acts[k] == if target == Some(base + k) then p.acts[k].(isError := isError) else p.acts[k]
  {
  }

  lemma SameOrigins(recs: seq<Rec>, allowSide: bool)
    requires recs != [] && !recs[|recs| - 1].Assistant?
    ensures Origins(recs, allowSide) == Origins(recs[..|recs| - 1], allowSide)
  {
  }

  lemma CallsStep(base: nat, recs: seq<Rec>, allowSide: bool, p: Parsed)
    requires recs != [] && recs[|recs| - 1].Assistant? && ParsedAs(base, recs[..|recs| - 1], allowSide, p)
    ensures ParsedAs(base, recs, allowSide, AddRec(base, p, recs[|recs| - 1], allowSide))
  {
    var front, last := recs[..|recs| - 1], recs[|recs| - 1];
    var made, q := Origins(front, allowSide), AddRec(base, p, last, allowSide);
    if allowSide || !last.side {
      BlocksAre(base, p, made, last.uuid, last.blocks);
    } else {
      assert made + [] == made;
    }
    OtherErrors(recs, allowSide, p, q);
  }

  lemma OtherStep(base: nat, recs: seq<Rec>, allowSide: bool, p: Parsed)
    requires recs != [] && (recs[|recs| - 1].Prompt? || recs[|recs| - 1].OtherRec?)
    requires ParsedAs(base, recs[..|recs| - 1], allowSide, p)
    ensures ParsedAs(base, recs, allowSide, AddRec(base, p, recs[|recs| - 1], allowSide))
  {
    var front := recs[..|recs| - 1];
    var q := AddRec(base, p, recs[|recs| - 1], allowSide);
    SameOrigins(recs, allowSide);
    OneMoreTurn(base, p, Origins(front, allowSide));
    OtherErrors(recs, allowSide, p, q);
  }

  /** A record without results marks nothing. */
  lemma OtherErrors(recs: seq<Rec>, allowSide: bool, p: Parsed, q: Parsed)
    requires recs != [] && !recs[|recs| - 1].Result? && ErrorsAre(recs[..|recs| - 1], allowSide, p)
    requires p.acts <= q.acts && |p.acts| == |Origins(recs[..|recs| - 1], allowSide)|
    requires forall k | |p.acts| <= k < |q.acts| :: !q.acts[k].isError
    ensures ErrorsAre(recs, allowSide, q)
  {
    forall k: nat | k < |q.acts| ensures q.acts[k].isError <==> Failed(recs, allowSide, k) {
      FailedNext(recs, allowSide, k);
      if k < |p.acts| {
        assert p.acts[k].isError <==> Failed(recs[..|recs| - 1], allowSide, k);
      } else {
        NoResultYet(recs[..|recs| - 1], allowSide, k);
      }
    }
  }

  lemma {:induction false} ParseIs(base: nat, recs: seq<Rec>, allowSide: bool)
    ensures ParsedAs(base, recs, allowSide, Parse(base, recs, allowSide))
  {
    if recs == [] {
      assert [] + Flat([]) == Range(base, 0);
    } else {
      var front, last := recs[..|recs| - 1], recs[|recs| - 1];
      var p := Parse(base, front, allowSide);
      ParseIs(base, front, allowSide);
      match last
      case Result(_, _, _) => ResultStep(base, recs, allowSide, p);
      case Assistant(_, _, _) => CallsStep(base, recs, allowSide, p);
      case _ => OtherStep(base, recs, allowSide, p);
    }
  }
}
