/** Weights of edges written at once and of edges replayed: when the recorded calls give one graph either way. */
module IngestWeights {
  import opened Options
  import opened IngestRefs
  import opened IngestGraph
  import opened IngestRecorder
  import opened IngestDirect
  import opened IngestCalls

  type Edges = map<Triple, Option<real>>

  // ----- writes on a store -------------------------------------------------------------

  /** `link` outside a batch: the last weight given stands. */
  function SetEdge(edges: Edges, t: Triple, weight: Option<real>): Edges {
    edges[t := if weight.None? && t in edges then edges[t] else weight]
  }

  /** Aliases and items of a `bulk_link` leave an edge that is there alone. */
  function WriteOne(edges: Edges, wr: Write): Edges {
    match wr
    case Named(ts) => AddMissing(edges, ts)
    case Set(t, weight) => SetEdge(edges, t, weight)
    case Add(t, weight) => AddEdge(edges, t, weight)
  }

  function Written(edges: Edges, writes: seq<Write>): Edges {
    if writes == [] then edges else WriteOne(Written(edges, writes[..|writes| - 1]), writes[|writes| - 1])
  }

  predicate Raises(s: Live) { !s.known || s.late }

  /** The calls made directly on the store, its document first. */
  function Direct(w: World, v: View, doc: Key, calls: seq<Call>): Outcome {
    var r := Run(w, v, doc, calls);
    if r.ok then Ok(r.view) else Raised
  }

  // ----- the calls as writes and ops ---------------------------------------------------

  function Seen(v: View, s: Live): View { View(s.entities, s.verbs, Written(v.edges, s.writes), v.notes + NotesOf(s.ops)) }

  /** What has been written and kept is the graph the calls have made. */
  predicate Agrees(v: View, s: Live, r: Ran) {
    if Raises(s) then !r.ok else r.ok && r.handles == s.handles && r.view == Seen(v, s)
  }

  lemma WrittenMore(edges: Edges, writes: seq<Write>, wr: Write)
    ensures Written(edges, writes + [wr]) == WriteOne(Written(edges, writes), wr)
    ensures Written(edges, writes + []) == Written(edges, writes)
  {
    assert (writes + [wr])[..|writes|] == writes && writes + [] == writes;
  }

  lemma NotesMore(ops: seq<Op<Key>>, op: Op<Key>)
    ensures NotesOf(ops + [op]) == NotesOf(ops) + if op.Evidence? then [((op.verb, op.c, op.e), op.note)] else []
    ensures NotesOf(ops + []) == NotesOf(ops)
  {
    assert (ops + [op])[..|ops|] == ops && ops + [] == ops;
  }

  lemma ConceptAgrees(w: World, view: View, name: string)
    ensures AddConcept(w, view, name)
      == view.(entities := view.entities + Forms(w, name), edges := WriteOne(view.edges, Named(Aliases(w, name))))
  {
    var a, b := AddConcept(w, view, name).edges, AddMissing(view.edges, Aliases(w, name));
    forall t ensures t in a <==> t in b {
    }
    assert a == b;
    assert view.entities + {Key("concept", w.canon(name))} + (set v | v in w.variants(name) :: Key("concept", v))
        == view.entities + Forms(w, name);
  }

  lemma NamedAgrees(w: World, v: View, s: Live, r: Ran, name: string, k: Key)
    requires Agrees(v, s, r) && r.ok && k == ConceptKey(w, name)
    ensures Agrees(v, s.(entities := s.entities + Forms(w, name), names := s.names + {name},
                         writes := s.writes + [Named(Aliases(w, name))], handles := s.handles + [Some(k)]),
                   Returns(r.(view := AddConcept(w, r.view, name)), Some(k)))
  {
    ConceptAgrees(w, r.view, name);
    WrittenMore(v.edges, s.writes, Named(Aliases(w, name)));
  }

  lemma OneWritten(op: Op<Key>, firm: bool)
    ensures WritesOf([op], firm)
      == if !(op.Link? || op.Weighted?) then []
         else if firm then [Set((op.verb, op.c, op.e), WeightOf(op))] else [Add((op.verb, op.c, op.e), WeightOf(op))]
  {
    assert [op][..0] == [];
  }

  lemma UsesOne(op: Op<Key>, verbs: set<string>)
    ensures UsesOnly([op], verbs) <==> op.verb in verbs
    ensures UsesOnly<Key>([], verbs)
  {
    assert op in [op];
  }

  /** One resolved op, performed and written. */
  lemma OpAgrees(v: View, s: Live, r: Ran, op: Op<Key>, firm: bool, view: View)
    requires Agrees(v, s, r) && r.ok && !op.AddVerb? && op.verb in s.verbs
    requires view == if op.Evidence? then r.view.(notes := r.view.notes + [((op.verb, op.c, op.e), op.note)])
                     else if firm then SetLink(r.view, (op.verb, op.c, op.e), WeightOf(op))
                     else AddLink(r.view, (op.verb, op.c, op.e), WeightOf(op))
    ensures Agrees(v, Perform(s, [op], firm), r.(view := view))
  {
    if op.Evidence? {
      NoteAgrees(v, s, r, op, firm);
    } else {
      EdgeAgrees(v, s, r, op, firm, view);
    }
  }

  lemma NoteAgrees(v: View, s: Live, r: Ran, op: Op<Key>, firm: bool)
    requires Agrees(v, s, r) && r.ok && op.Evidence? && op.verb in s.verbs
    ensures Agrees(v, Perform(s, [op], firm),
                   r.(view := r.view.(notes := r.view.notes + [((op.verb, op.c, op.e), op.note)])))
  {
    OneWritten(op, firm);
    UsesOne(op, s.verbs);
    assert s.writes + [] == s.writes;
    OneNoted(v.notes, s.ops, op);
  }

  lemma EdgeAgrees(v: View, s: Live, r: Ran, op: Op<Key>, firm: bool, view: View)
    requires Agrees(v, s, r) && r.ok && (op.Link? || op.Weighted?) && op.verb in s.verbs
    requires view == if firm then SetLink(r.view, (op.verb, op.c, op.e), WeightOf(op))
                     else AddLink(r.view, (op.verb, op.c, op.e), WeightOf(op))
    ensures Agrees(v, Perform(s, [op], firm), r.(view := view))
  {
    OneWritten(op, firm);
    UsesOne(op, s.verbs);
    NotesMore(s.ops, op);
    assert NotesOf(s.ops) + [] == NotesOf(s.ops);
    var wr := if firm then Set((op.verb, op.c, op.e), WeightOf(op)) else Add((op.verb, op.c, op.e), WeightOf(op));
    WrittenMore(v.edges, s.writes, wr);
    assert view.edges == WriteOne(r.view.edges, wr);
  }

  lemma OneNoted(notes: seq<(Triple, Note)>, ops: seq<Op<Key>>, op: Op<Key>)
    requires op.Evidence?
    ensures notes + NotesOf(ops + [op]) == notes + NotesOf(ops) + [((op.verb, op.c, op.e), op.note)]
  {
    NotesMore(ops, op);
  }

  lemma NoOpAgrees(v: View, s: Live, r: Ran, firm: bool)
    requires Agrees(v, s, r)
    ensures Agrees(v, Perform(s, [], firm), r)
  {
    assert s.ops + [] == s.ops && s.writes + [] == s.writes;
  }

  lemma DoAgrees(v: View, s: Live, r: Ran, op: Op<nat>)
    requires Agrees(v, s, r) && r.ok && !op.AddVerb?
    ensures Agrees(v, Perform(s, LiveOp(s.handles, op), true), RunOp(r, op))
  {
    var c, e := At(s.handles, op.c, None), At(s.handles, op.e, None);
    if c.None? || e.None? {
      NoOpAgrees(v, s, r, true);
    } else {
      var one := LiveOp(s.handles, op)[0];
      assert LiveOp(s.handles, op) == [one];
      UsesOne(one, s.verbs);
      if op.verb in s.verbs {
        OpAgrees(v, s, r, one, true, RunOp(r, op).view);
      }
    }
  }

  lemma ItemOpsMore(items: seq<Item>, it: Item)
    ensures ItemOps(items + [it]) == ItemOps(items) + [Link(it.0, it.1, it.2, it.3)]
  {
    assert (items + [it])[..|items|] == items;
  }

  lemma PerformMore(s: Live, a: seq<Op<Key>>, b: seq<Op<Key>>, firm: bool)
    ensures Perform(s, a + b, firm) == Perform(Perform(s, a, firm), b, firm)
  {
    WritesOfBoth(a, b, firm);
    assert s.ops + (a + b) == s.ops + a + b;
    assert s.writes + (WritesOf(a, firm) + WritesOf(b, firm)) == s.writes + WritesOf(a, firm) + WritesOf(b, firm);
    assert UsesOnly(a + b, s.verbs) <==> UsesOnly(a, s.verbs) && UsesOnly(b, s.verbs) by {
      assert forall op :: op in a + b <==> op in a || op in b;
    }
  }

  lemma {:induction false} WritesOfBoth(a: seq<Op<Key>>, b: seq<Op<Key>>, firm: bool)
    ensures WritesOf(a + b, firm) == WritesOf(a, firm) + WritesOf(b, firm)
  {
    if b == [] {
      assert a + b == a;
    } else {
      assert (a + b)[..|a + b| - 1] == a + b[..|b| - 1];
      WritesOfBoth(a, b[..|b| - 1], firm);
    }
  }

  lemma {:induction false} ItemsAgree(v: View, s: Live, r: Ran, items: seq<Item>)
    requires Agrees(v, s, r) && r.ok
    ensures Agrees(v, Perform(s, LiveOps(s.handles, ItemOps(items)), false), RunItems(r, items))
    ensures RunItems(r, items).ok ==> RunItems(r, items).view.verbs == s.verbs
  {
    if items == [] {
      NoOpAgrees(v, s, r, false);
    } else {
      var front, it := items[..|items| - 1], items[|items| - 1];
      ItemsAgree(v, s, r, front);
      assert items == front + [it];
      LiveItemsMore(s.handles, front, it);
      var op: Op<nat> := Link(it.0, it.1, it.2, it.3);
      PerformMore(s, LiveOps(s.handles, ItemOps(front)), LiveOp(s.handles, op), false);
      ItemAgrees(v, Perform(s, LiveOps(s.handles, ItemOps(front)), false), RunItems(r, front), it);
    }
  }

  lemma LiveItemsMore(handles: seq<Option<Key>>, front: seq<Item>, it: Item)
    ensures LiveOps(handles, ItemOps(front + [it]))
      == LiveOps(handles, ItemOps(front)) + LiveOp(handles, Link(it.0, it.1, it.2, it.3))
  {
    ItemOpsMore(front, it);
    var ops := ItemOps(front + [it]);
    assert ops[..|ops| - 1] == ItemOps(front);
  }

  lemma ItemAgrees(v: View, s: Live, r: Ran, it: Item)
    requires Agrees(v, s, r)
    ensures var after := match (At(r.handles, it.1, None), At(r.handles, it.2, None))
              case (Some(c), Some(e)) =>
                if it.0 !in r.view.verbs then Raise(r) else r.(view := AddLink(r.view, (it.0, c, e), it.3))
              case _ => r;
            Agrees(v, Perform(s, LiveOp(s.handles, Link(it.0, it.1, it.2, it.3)), false), after)
  {
    var op: Op<nat> := Link(it.0, it.1, it.2, it.3);
    if r.ok {
      var c, e := At(s.handles, it.1, None), At(s.handles, it.2, None);
      if c.None? || e.None? {
        NoOpAgrees(v, s, r, false);
      } else {
        var one: Op<Key> := Link(it.0, c.value, e.value, it.3);
        assert LiveOp(s.handles, op) == [one];
        UsesOne(one, s.verbs);
        if it.0 in s.verbs {
          OpAgrees(v, s, r, one, false, AddLink(r.view, (it.0, c.value, e.value), it.3));
        }
      }
    }
  }

  lemma CallAgrees(w: World, v: View, s: Live, r: Ran, call: Call)
    requires Agrees(v, s, r)
    ensures Agrees(v, LiveCall(w, s, call), RunCall(w, r, call))
  {
    if r.ok {
      match call
      case Upsert(key) =>
      case NewConcept(name) => NamedAgrees(w, v, s, r, name, ConceptKey(w, name));
      case NewNsConcept(ns, name) => NamedAgrees(w, v, s, r, ns + "/" + name, ConceptKey(w, Full(ns, name)));
      case Find(candidates) =>
      case Do(op) =>
        if op.AddVerb? {
          NoOpAgrees(v, s.(verbs := s.verbs + {op.verb}), RunOp(r, op), true);
        } else {
          DoAgrees(v, s, r, op);
        }
      case Bulk(items) => ItemsAgree(v, s, r, items);
    }
  }

  lemma {:induction false} RunAgrees(w: World, v: View, doc: Key, calls: seq<Call>)
    ensures Agrees(v, LiveRun(w, v, doc, calls), Run(w, v, doc, calls))
  {
    if calls == [] {
      assert v.notes + [] == v.notes;
    } else {
      RunAgrees(w, v, doc, calls[..|calls| - 1]);
      CallAgrees(w, v, LiveRun(w, v, doc, calls[..|calls| - 1]), Run(w, v, doc, calls[..|calls| - 1]), calls[|calls| - 1]);
    }
  }

  /** The calls one after the other leave what their writes and ops leave. */
  lemma DirectIs(w: World, v: View, doc: Key, calls: seq<Call>)
    ensures var s := LiveRun(w, v, doc, calls);
            Direct(w, v, doc, calls) == if Raises(s) then Raised else Ok(Seen(v, s))
  {
    RunAgrees(w, v, doc, calls);
  }

  // ----- what the writes leave on one edge ---------------------------------------------

  predicate Hits(wr: Write, t: Triple) { if wr.Named? then t in wr.ts else wr.t == t }

  function Given(wr: Write): Option<real> { if wr.Named? then None else wr.weight }

  predicate Hit(writes: seq<Write>, t: Triple) { exists wr | wr in writes :: Hits(wr, t) }

  /** The weight the first write gives to `t`. */
  function FirstGiven(writes: seq<Write>, t: Triple): Option<real> {
    if writes == [] then None
    else
      var front, last := writes[..|writes| - 1], writes[|writes| - 1];
      if Hit(front, t) then FirstGiven(front, t) else if Hits(last, t) then Given(last) else None
  }

  /** The last weight a `link` gives to `t`. */
  function LastSet(writes: seq<Write>, t: Triple): Option<real> {
    if writes == [] then None
    else
      var last := writes[|writes| - 1];
      if last.Set? && last.t == t && last.weight.Some? then last.weight else LastSet(writes[..|writes| - 1], t)
  }

  lemma {:induction false} LastSetHits(writes: seq<Write>, t: Triple)
    ensures LastSet(writes, t).Some? ==> Hit(writes, t)
    ensures FirstGiven(writes, t).Some? ==> Hit(writes, t)
  {
    if writes != [] {
      var front, last := writes[..|writes| - 1], writes[|writes| - 1];
      LastSetHits(front, t);
      assert writes == front + [last];
      HitOneMore(front, last, t);
    }
  }

  lemma WriteOneAt(edges: Edges, wr: Write, t: Triple)
    ensures t in WriteOne(edges, wr) <==> t in edges || Hits(wr, t)
    ensures t in WriteOne(edges, wr) ==>
      WriteOne(edges, wr)[t] == if wr.Set? && wr.t == t && wr.weight.Some? then wr.weight
                                else if t in edges then edges[t] else Given(wr)
  {
  }

  lemma HitOneMore(front: seq<Write>, last: Write, t: Triple)
    ensures Hit(front + [last], t) <==> Hit(front, t) || Hits(last, t)
  {
    assert forall wr :: wr in front + [last] <==> wr in front || wr == last;
  }

  /** The last weight of a `link` stands; else the store's; else what the first write gave. */
  lemma {:induction false} WrittenAt(edges: Edges, writes: seq<Write>, t: Triple)
    ensures t in Written(edges, writes) <==> t in edges || Hit(writes, t)
    ensures t in Written(edges, writes) ==>
      Written(edges, writes)[t] == if LastSet(writes, t).Some? then LastSet(writes, t)
                                   else if t in edges then edges[t] else FirstGiven(writes, t)
  {
    if writes != [] {
      var front, last := writes[..|writes| - 1], writes[|writes| - 1];
      WrittenAt(edges, front, t);
      LastSetHits(front, t);
      assert writes == front + [last];
      HitOneMore(front, last, t);
      WriteOneAt(Written(edges, front), last, t);
    }
  }

  // ----- the writes of a run -----------------------------------------------------------

  lemma {:induction false} BothHit(a: seq<Write>, b: seq<Write>, t: Triple)
    ensures Hit(a + b, t) <==> Hit(a, t) || Hit(b, t)
    ensures FirstGiven(a + b, t) == if Hit(a, t) then FirstGiven(a, t) else FirstGiven(b, t)
  {
    if b == [] {
      assert a + b == a;
      LastSetHits(a, t);
    } else {
      var front, last := b[..|b| - 1], b[|b| - 1];
      BothHit(a, front, t);
      assert b == front + [last] && a + b == (a + front) + [last];
      HitOneMore(front, last, t);
      HitOneMore(a + front, last, t);
      FirstOneMore(a + front, last, t);
      FirstOneMore(front, last, t);
    }
  }

  lemma FirstOneMore(front: seq<Write>, last: Write, t: Triple)
    ensures FirstGiven(front + [last], t)
      == if Hit(front, t) then FirstGiven(front, t) else if Hits(last, t) then Given(last) else None
  {
    assert (front + [last])[..|front|] == front;
  }

  /** The writes of ops touch what the ops touch, with the same first weight. */
  lemma {:induction false} WritesAre(ops: seq<Op<Key>>, firm: bool, t: Triple)
    ensures Hit(WritesOf(ops, firm), t) <==> Touched(ops, t)
    ensures FirstGiven(WritesOf(ops, firm), t) == FirstWeight(ops, t)
  {
    if ops != [] {
      var front, last := ops[..|ops| - 1], ops[|ops| - 1];
      WritesAre(front, firm, t);
      assert ops == front + [last];
      FirstOfBoth(front, [last], t);
      var more := WritesOfOne(last, firm, t);
      BothHit(WritesOf(front, firm), more, t);
    }
  }

  lemma WritesOfOne(op: Op<Key>, firm: bool, t: Triple) returns (more: seq<Write>)
    ensures more == if !(op.Link? || op.Weighted?) then []
                    else if firm then [Set((op.verb, op.c, op.e), WeightOf(op))]
                    else [Add((op.verb, op.c, op.e), WeightOf(op))]
    ensures Hit(more, t) <==> Touches(op, t)
    ensures Touched([op], t) <==> Touches(op, t)
    ensures FirstGiven(more, t) == FirstWeight([op], t)
  {
    more := if !(op.Link? || op.Weighted?) then []
            else if firm then [Set((op.verb, op.c, op.e), WeightOf(op))]
            else [Add((op.verb, op.c, op.e), WeightOf(op))];
    assert op in [op];
    assert more != [] ==> more[0] in more && more[..0] == [];
  }

  /** The writes so far touch the aliases and the ops so far; off the aliases they start as the ops do. */
  ghost predicate Matches(w: World, s: Live, t: Triple) {
    && (Hit(s.writes, t) <==> t in AllAliases(w, s.names) || Touched(s.ops, t))
    && (t !in AllAliases(w, s.names) ==> FirstGiven(s.writes, t) == FirstWeight(s.ops, t))
  }

  lemma NamedMatches(w: World, s: Live, name: string, t: Triple)
    requires Matches(w, s, t)
    ensures Matches(w, s.(names := s.names + {name}, writes := s.writes + [Named(Aliases(w, name))]), t)
  {
    var wr := Named(Aliases(w, name));
    AliasesOfBoth(w, s.names, {name});
    assert AllAliases(w, {name}) == Aliases(w, name);
    BothHit(s.writes, [wr], t);
    assert wr in [wr] && [wr][..0] == [];
    assert Hit([wr], t) <==> t in Aliases(w, name);
    if t !in AllAliases(w, s.names + {name}) && !Hit(s.writes, t) {
      FirstOfBoth(s.ops, [], t);
    }
  }

  lemma PerformMatches(w: World, s: Live, ops: seq<Op<Key>>, firm: bool, t: Triple)
    requires Matches(w, s, t)
    ensures Matches(w, Perform(s, ops, firm), t)
  {
    WritesAre(ops, firm, t);
    BothHit(s.writes, WritesOf(ops, firm), t);
    FirstOfBoth(s.ops, ops, t);
  }

  lemma CallMatches(w: World, s: Live, call: Call, t: Triple)
    requires Matches(w, s, t)
    ensures Matches(w, LiveCall(w, s, call), t)
  {
    match call
    case NewConcept(name) => NamedMatches(w, s, name, t);
    case NewNsConcept(ns, name) => NamedMatches(w, s, Full(ns, name), t);
    case Do(op) => PerformMatches(w, s, LiveOp(s.handles, op), true, t);
    case Bulk(items) => PerformMatches(w, s, LiveOps(s.handles, ItemOps(items)), false, t);
    case _ =>
  }

  lemma {:induction false} RunMatches(w: World, v: View, doc: Key, calls: seq<Call>, t: Triple)
    ensures Matches(w, LiveRun(w, v, doc, calls), t)
  {
    if calls == [] {
      assert AllAliases(w, {}) == {};
    } else {
      RunMatches(w, v, doc, calls[..|calls| - 1], t);
      CallMatches(w, LiveRun(w, v, doc, calls[..|calls| - 1]), calls[|calls| - 1], t);
    }
  }

  /** What direct calls leave on an edge. */
  lemma RunAt(w: World, v: View, doc: Key, calls: seq<Call>, t: Triple)
    ensures var s := LiveRun(w, v, doc, calls); var g := Written(v.edges, s.writes);
            && (t in g <==> t in v.edges || t in AllAliases(w, s.names) || Touched(s.ops, t))
            && (t in g ==> g[t] == if LastSet(s.writes, t).Some? then LastSet(s.writes, t)
                                   else if t in v.edges then v.edges[t] else FirstGiven(s.writes, t))
            && (t !in AllAliases(w, s.names) ==> FirstGiven(s.writes, t) == FirstWeight(s.ops, t))
  {
    RunMatches(w, v, doc, calls, t);
    WrittenAt(v.edges, LiveRun(w, v, doc, calls).writes, t);
  }

  // ----- and on replay -----------------------------------------------------------------

  /** The weight a replay leaves on `t`: the store's, none on an alias, or the first one given. */
  function Replayed(w: World, v: View, s: Live, t: Triple): Option<real> {
    if t in v.edges then v.edges[t] else if t in AllAliases(w, s.names) then None else FirstWeight(s.ops, t)
  }

  /** A `link` changes no weight, and an alias the store lacks is given none before its concept. */
  ghost predicate Settled(w: World, v: View, s: Live, t: Triple) {
    if LastSet(s.writes, t).Some? then LastSet(s.writes, t) == Replayed(w, v, s, t)
    else t !in v.edges && t in AllAliases(w, s.names) ==> FirstGiven(s.writes, t).None?
  }

  ghost predicate WeightsSettled(w: World, v: View, s: Live) {
    forall t | t in AllAliases(w, s.names) || Touched(s.ops, t) :: Settled(w, v, s, t)
  }

  function ReplayGraph(w: World, v: View, s: Live): Edges { Linked(AddMissing(v.edges, AllAliases(w, s.names)), s.ops) }

  lemma ReplayedAt(w: World, v: View, doc: Key, calls: seq<Call>, t: Triple)
    ensures var s := LiveRun(w, v, doc, calls); var g := Written(v.edges, s.writes);
            && (t in ReplayGraph(w, v, s) <==> t in g)
            && (t in g ==> (ReplayGraph(w, v, s)[t] == g[t]
                            <==> (t in AllAliases(w, s.names) || Touched(s.ops, t) ==> Settled(w, v, s, t))))
  {
    var s := LiveRun(w, v, doc, calls);
    RunAt(w, v, doc, calls, t);
    RunMatches(w, v, doc, calls, t);
    LinkedAt(AddMissing(v.edges, AllAliases(w, s.names)), s.ops, t);
    LastSetHits(s.writes, t);
  }

  lemma ReplayedIff(w: World, v: View, doc: Key, calls: seq<Call>)
    ensures var s := LiveRun(w, v, doc, calls); var g := Written(v.edges, s.writes);
            && ReplayGraph(w, v, s).Keys == g.Keys
            && (ReplayGraph(w, v, s) == g <==> WeightsSettled(w, v, s))
  {
    var s := LiveRun(w, v, doc, calls);
    var g := Written(v.edges, s.writes);
    forall t ensures t in ReplayGraph(w, v, s) <==> t in g {
      ReplayedAt(w, v, doc, calls, t);
    }
    if WeightsSettled(w, v, s) {
      forall t | t in g ensures ReplayGraph(w, v, s)[t] == g[t] {
        ReplayedAt(w, v, doc, calls, t);
      }
    } else {
      var t :| (t in AllAliases(w, s.names) || Touched(s.ops, t)) && !Settled(w, v, s, t);
      ReplayedAt(w, v, doc, calls, t);
      RunAt(w, v, doc, calls, t);
    }
  }

  /** The replay of fair calls raises exactly when a kind is unknown or a kept op uses a linkage type
    * that is never registered. */
  lemma ReplayIs(w: World, v: View, doc: Key, calls: seq<Call>)
    requires Fair(w, v, doc, calls)
    ensures var s := LiveRun(w, v, doc, calls);
            Apply(w, v, ParseRecord(Tape(doc, calls).rec))
              == if s.known && UsesOnly(s.ops, s.verbs)
                 then Ok(View(s.entities, s.verbs, ReplayGraph(w, v, s), v.notes + NotesOf(s.ops))) else Raised
  {
    var rec := ParseRecord(Tape(doc, calls).rec);
    TapeCreates(w, v, doc, calls);
    if LiveRun(w, v, doc, calls).known {
      AllOps(w, v, doc, calls);
      assert v.entities + KeysOf(rec) + AllForms(w, NamesOf(rec)) == v.entities + Created(w, rec);
      assert NamesOf(rec) == NamesOf(Tape(doc, calls).rec);
    }
  }

  /** Calls that found their linkage types at once used only types registered in the end. */
  lemma {:induction false} DirectUses(w: World, v: View, doc: Key, calls: seq<Call>)
    ensures var s := LiveRun(w, v, doc, calls); !s.late ==> UsesOnly(s.ops, s.verbs)
  {
    if calls != [] {
      DirectUses(w, v, doc, calls[..|calls| - 1]);
    }
  }

  /** Recording calls that succeed directly and applying the record succeeds too, with the graph the
    * calls give directly but for weights, and with the same weights if and only if they are settled. */
  lemma RecordThenApply(w: World, v: View, doc: Key, calls: seq<Call>)
    requires Fair(w, v, doc, calls) && Direct(w, v, doc, calls).Ok?
    ensures var replay := Apply(w, v, ParseRecord(Tape(doc, calls).rec));
            && replay.Ok? && SameButWeights(replay.view, Direct(w, v, doc, calls).view)
            && (replay == Direct(w, v, doc, calls) <==> WeightsSettled(w, v, LiveRun(w, v, doc, calls)))
  {
    DirectIs(w, v, doc, calls);
    DirectUses(w, v, doc, calls);
    ReplayIs(w, v, doc, calls);
    ReplayedIff(w, v, doc, calls);
  }

  // ----- bulk links alone --------------------------------------------------------------

  predicate NoLinks(calls: seq<Call>) { forall c | c in calls :: c.Do? ==> !(c.op.Link? || c.op.Weighted?) }

  lemma {:induction false} AddsOnly(ops: seq<Op<Key>>, firm: bool, t: Triple)
    requires firm ==> forall op | op in ops :: !(op.Link? || op.Weighted?)
    ensures forall wr | wr in WritesOf(ops, firm) :: !wr.Set?
  {
    if ops != [] {
      AddsOnly(ops[..|ops| - 1], firm, t);
    }
  }

  lemma {:induction false} NothingSet(w: World, v: View, doc: Key, calls: seq<Call>, t: Triple)
    requires NoLinks(calls)
    ensures forall wr | wr in LiveRun(w, v, doc, calls).writes :: !wr.Set?
  {
    if calls != [] {
      var front, last := calls[..|calls| - 1], calls[|calls| - 1];
      assert last in calls;
      NothingSet(w, v, doc, front, t);
      var s := LiveRun(w, v, doc, front);
      match last
      case Do(op) => AddsOnly(LiveOp(s.handles, op), true, t);
      case Bulk(items) => AddsOnly(LiveOps(s.handles, ItemOps(items)), false, t);
      case _ =>
    }
  }

  lemma {:induction false} NoneSet(writes: seq<Write>, t: Triple)
    requires forall wr | wr in writes :: !wr.Set?
    ensures LastSet(writes, t).None?
  {
    if writes != [] {
      assert writes[|writes| - 1] in writes;
      NoneSet(writes[..|writes| - 1], t);
    }
  }

  /** Bulk links alone keep their first weights on replay, except on an alias edge that the store lacks
    * and that is given a weight before its concept. */
  lemma BulkKeepsWeights(w: World, v: View, doc: Key, calls: seq<Call>)
    requires Fair(w, v, doc, calls) && Direct(w, v, doc, calls).Ok? && NoLinks(calls)
    ensures Apply(w, v, ParseRecord(Tape(doc, calls).rec)) == Direct(w, v, doc, calls)
      <==> (var s := LiveRun(w, v, doc, calls);
            forall t | t in AllAliases(w, s.names) && t !in v.edges :: FirstGiven(s.writes, t).None?)
  {
    RecordThenApply(w, v, doc, calls);
    var s := LiveRun(w, v, doc, calls);
    forall t ensures Settled(w, v, s, t)
      <==> (t in AllAliases(w, s.names) && t !in v.edges ==> FirstGiven(s.writes, t).None?)
    {
      NothingSet(w, v, doc, calls, t);
      NoneSet(s.writes, t);
    }
  }

  // ----- where they part ---------------------------------------------------------------

  const SIMPLE := World((s: string) => s, (s: string) => {}, map[])
  const VACANT := View({}, {"cites"}, map[], [])
  const PAGE := Key("doc", "a.md")
  const LIGHT: Op<Key> := Link("cites", PAGE, PAGE, Some(1.0))
  const HEAVY: Op<Key> := Link("cites", PAGE, PAGE, Some(2.0))
  const PAGE_CALL: Call := Upsert(PAGE)
  const LIGHT_CALL: Call := Do(Link("cites", 0, 0, Some(1.0)))
  const HEAVY_CALL: Call := Do(Link("cites", 0, 0, Some(2.0)))
  const EARLY_CALL: Call := Do(Link("new", 0, 0, None))
  const VERB_CALL: Call := Do(AddVerb("new"))

  lemma OneMoreCall(calls: seq<Call>, call: Call)
    ensures LiveRun(SIMPLE, VACANT, PAGE, calls + [call]) == LiveCall(SIMPLE, LiveRun(SIMPLE, VACANT, PAGE, calls), call)
  {
    assert (calls + [call])[..|calls|] == calls;
  }

  lemma PageFirst()
    ensures LiveRun(SIMPLE, VACANT, PAGE, [PAGE_CALL]) == Live({PAGE}, {"cites"}, {}, [], [], [Some(PAGE)], true, false)
  {
    assert [PAGE_CALL][..0] == [] && {} + {PAGE} == {PAGE} && {PAGE} + {PAGE} == {PAGE};
  }

  /** One link between the page and itself, after the page. */
  lemma PageLinked(call: Call, op: Op<Key>)
    requires call.Do? && call.op.Link? && (call.op.c, call.op.e) == (0, 0)
    requires op == Link(call.op.verb, PAGE, PAGE, call.op.weight)
    ensures LiveRun(SIMPLE, VACANT, PAGE, [PAGE_CALL, call])
      == Live({PAGE}, {"cites"}, {}, [op], [Set((op.verb, PAGE, PAGE), op.weight)], [Some(PAGE), None], true,
              op.verb != "cites")
  {
    PageFirst();
    OneMoreCall([PAGE_CALL], call);
    assert [PAGE_CALL] + [call] == [PAGE_CALL, call];
    assert LiveOp([Some(PAGE)], call.op) == [op] && [op][..0] == [] && op in [op];
    assert WritesOf([op], true) == [] + [Set((op.verb, PAGE, PAGE), op.weight)];
  }

  lemma TwiceRun()
    ensures (var s := LiveRun(SIMPLE, VACANT, PAGE, [PAGE_CALL, LIGHT_CALL, HEAVY_CALL]);
             && s.ops == [LIGHT, HEAVY] && s.names == {} && !Raises(s)
             && LastSet(s.writes, ("cites", PAGE, PAGE)) == Some(2.0))
  {
    PageLinked(LIGHT_CALL, LIGHT);
    OneMoreCall([PAGE_CALL, LIGHT_CALL], HEAVY_CALL);
    assert [PAGE_CALL, LIGHT_CALL] + [HEAVY_CALL] == [PAGE_CALL, LIGHT_CALL, HEAVY_CALL];
    assert LiveOp([Some(PAGE), None], HEAVY_CALL.op) == [HEAVY] && [HEAVY][..0] == [];
    assert [LIGHT] + [HEAVY] == [LIGHT, HEAVY];
    assert WritesOf([HEAVY], true) == [] + [Set(("cites", PAGE, PAGE), Some(2.0))];
  }

  /** Linked twice with two weights: the direct calls keep the last one, the replay the first one. */
  lemma LastWeightIsLost()
    ensures (var calls := [PAGE_CALL, LIGHT_CALL, HEAVY_CALL];
             && Fair(SIMPLE, VACANT, PAGE, calls) && Direct(SIMPLE, VACANT, PAGE, calls).Ok?
             && Apply(SIMPLE, VACANT, ParseRecord(Tape(PAGE, calls).rec)).Ok?
             && Apply(SIMPLE, VACANT, ParseRecord(Tape(PAGE, calls).rec)) != Direct(SIMPLE, VACANT, PAGE, calls))
  {
    var calls := [PAGE_CALL, LIGHT_CALL, HEAVY_CALL];
    TwiceRun();
    var s := LiveRun(SIMPLE, VACANT, PAGE, calls);
    var t: Triple := ("cites", PAGE, PAGE);
    assert AllAliases(SIMPLE, {}) == {};
    assert HEAVY in s.ops && Touches(HEAVY, t);
    assert !Settled(SIMPLE, VACANT, s, t);
    forall i | 0 <= i < |calls| ensures FairCall(SIMPLE, VACANT, PAGE, calls, i) {
    }
    DirectIs(SIMPLE, VACANT, PAGE, calls);
    RecordThenApply(SIMPLE, VACANT, PAGE, calls);
  }

  lemma LateRun()
    ensures (var s := LiveRun(SIMPLE, VACANT, PAGE, [PAGE_CALL, EARLY_CALL, VERB_CALL]);
             && s.known && s.late && s.verbs == {"cites", "new"} && s.ops == [Link("new", PAGE, PAGE, None)])
  {
    var op: Op<Key> := Link("new", PAGE, PAGE, None);
    PageLinked(EARLY_CALL, op);
    OneMoreCall([PAGE_CALL, EARLY_CALL], VERB_CALL);
    assert [PAGE_CALL, EARLY_CALL] + [VERB_CALL] == [PAGE_CALL, EARLY_CALL, VERB_CALL];
    assert [op] + [] == [op];
  }

  /** A link before its linkage type is registered raises directly; the replay registers first. */
  lemma LateVerbReplays()
    ensures (var calls := [PAGE_CALL, EARLY_CALL, VERB_CALL];
             Direct(SIMPLE, VACANT, PAGE, calls).Raised? && Apply(SIMPLE, VACANT, ParseRecord(Tape(PAGE, calls).rec)).Ok?)
  {
    var calls := [PAGE_CALL, EARLY_CALL, VERB_CALL];
    LateRun();
    DirectIs(SIMPLE, VACANT, PAGE, calls);
    forall i | 0 <= i < |calls| ensures FairCall(SIMPLE, VACANT, PAGE, calls, i) {
    }
    ReplayIs(SIMPLE, VACANT, PAGE, calls);
  }
}
