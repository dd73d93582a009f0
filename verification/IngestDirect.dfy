/** The recorded calls made directly on the store, and why the replay of the record does the same. */
module IngestDirect {
  import opened Options
  import opened IngestRefs
  import opened IngestGraph
  import opened IngestRecorder

  // ----- the calls made directly -------------------------------------------------------

  /** One write of edges: the aliases of a new concept, a `link`, or an item of a `bulk_link`. */
  datatype Write = Named(ts: set<Triple>) | Set(t: Triple, weight: Option<real>) | Add(t: Triple, weight: Option<real>)

  /** The real store while it runs the calls: what was created, the ops and the writes so far, what each
    * call returned, whether every kind was known, and whether a linkage type was missing. */
  datatype Live = Live(entities: set<Key>, verbs: set<string>, names: set<string>, ops: seq<Op<Key>>, writes: seq<Write>,
                       handles: seq<Option<Key>>, known: bool, late: bool)

  function LiveOp(handles: seq<Option<Key>>, op: Op<nat>): seq<Op<Key>> {
    if op.AddVerb? then []
    else
      var c, e := At(handles, op.c, None), At(handles, op.e, None);
      if c.None? || e.None? then []
      else
        match op
        case Link(verb, _, _, weight) => [Link(verb, c.value, e.value, weight)]
        case Weighted(verb, _, _, score) => [Weighted(verb, c.value, e.value, score)]
        case Evidence(verb, _, _, note) => [Evidence(verb, c.value, e.value, note)]
  }

  function LiveOps(handles: seq<Option<Key>>, ops: seq<Op<nat>>): seq<Op<Key>> {
    if ops == [] then [] else LiveOps(handles, ops[..|ops| - 1]) + LiveOp(handles, ops[|ops| - 1])
  }

  /** Each link written at once; `firm` when the last weight given is to stand. */
  function WritesOf(ops: seq<Op<Key>>, firm: bool): seq<Write> {
    if ops == [] then []
    else
      var op := ops[|ops| - 1];
      WritesOf(ops[..|ops| - 1], firm)
      + if !(op.Link? || op.Weighted?) then []
        else if firm then [Set((op.verb, op.c, op.e), WeightOf(op))]
        else [Add((op.verb, op.c, op.e), WeightOf(op))]
  }

  /** Ops performed: kept for the replay to match, their links written, their linkage types looked up. */
  function Perform(s: Live, ops: seq<Op<Key>>, firm: bool): Live {
    s.(ops := s.ops + ops, writes := s.writes + WritesOf(ops, firm), late := s.late || !UsesOnly(ops, s.verbs))
  }

  function LiveCall(w: World, s: Live, call: Call): Live {
    match call
    case Upsert(key) =>
      s.(entities := s.entities + {key}, handles := s.handles + [Some(key)], known := s.known && key.kind in KINDS)
    case NewConcept(name) =>
      s.(entities := s.entities + Forms(w, name), names := s.names + {name},
         writes := s.writes + [Named(Aliases(w, name))], handles := s.handles + [Some(ConceptKey(w, name))])
    case NewNsConcept(ns, name) =>
      s.(entities := s.entities + Forms(w, Full(ns, name)), names := s.names + {Full(ns, name)},
         writes := s.writes + [Named(Aliases(w, Full(ns, name)))],
         handles := s.handles + [Some(ConceptKey(w, Full(ns, name)))])
    case Find(candidates) => s.(handles := s.handles + [FirstHit(s.entities, candidates)])
    case Do(op) =>
      Perform(s.(verbs := if op.AddVerb? then s.verbs + {op.verb} else s.verbs), LiveOp(s.handles, op), true)
        .(handles := s.handles + [None])
    case Bulk(items) => Perform(s, LiveOps(s.handles, ItemOps(items)), false).(handles := s.handles + [None])
  }

  function LiveRun(w: World, v: View, doc: Key, calls: seq<Call>): Live {
    if calls == [] then Live(v.entities + {doc}, v.verbs, {}, [], [], [], doc.kind in KINDS, false)
    else LiveCall(w, LiveRun(w, v, doc, calls[..|calls| - 1]), calls[|calls| - 1])
  }

  lemma {:induction false} LiveGrows(w: World, v: View, doc: Key, calls: seq<Call>, i: nat)
    requires i <= |calls|
    ensures LiveRun(w, v, doc, calls[..i]).entities <= LiveRun(w, v, doc, calls).entities
    ensures LiveRun(w, v, doc, calls).known ==> LiveRun(w, v, doc, calls[..i]).known
    decreases |calls| - i
  {
    if i == |calls| {
      assert calls[..i] == calls;
    } else {
      LiveGrows(w, v, doc, calls, i + 1);
      assert calls[..i + 1][..i] == calls[..i];
    }
  }

  // ----- handles -----------------------------------------------------------------------

  /** What a namespaced concept's handle reads back as is registered, which it is when the namespace has
    * no '/'; and what a lookup finds when it is called comes first of what it finds in the end. */
  ghost predicate FairCall(w: World, v: View, doc: Key, calls: seq<Call>, i: nat)
    requires i < |calls|
  {
    match calls[i]
    case NewNsConcept(ns, name) => Partition(Full(ns, name)) in Tape(doc, calls).rec.nsConcepts
    case Find(candidates) =>
      SameFirst(LiveRun(w, v, doc, calls[..i]).entities, LiveRun(w, v, doc, calls).entities, candidates)
    case _ => true
  }

  ghost predicate Fair(w: World, v: View, doc: Key, calls: seq<Call>) {
    forall i | 0 <= i < |calls| :: FairCall(w, v, doc, calls, i)
  }

  /** The handle `s` resolves on replay to what the direct call returned. */
  predicate SameEnd(w: World, scope: Scope, s: string, k: Option<Key>) {
    Resolve(w, scope, Parse(s)) == k
  }

  predicate SameEnds(w: World, scope: Scope, t: Taped, live: Live) {
    |t.handles| == |live.handles| && forall i | 0 <= i < |t.handles| :: SameEnd(w, scope, t.handles[i], live.handles[i])
  }

  ghost function FinalScope(w: World, v: View, doc: Key, calls: seq<Call>): Scope {
    Own(ParseRecord(Tape(doc, calls).rec), LiveRun(w, v, doc, calls).entities)
  }

  lemma UpsertHandle(w: World, final: Recorded, entities: set<Key>, doc: Key, key: Key)
    requires final.doc == doc && key.kind in KINDS && (key == doc || key in final.subs)
    ensures SameEnd(w, Own(ParseRecord(final), entities), Show(if key == doc then Doc else Sub(key)), Some(key))
  {
    NoSlashInKinds(key.kind);
    HandleReadsBack(if key == doc then Doc else Sub(key));
  }

  lemma ConceptHandle(w: World, final: Recorded, entities: set<Key>, name: string)
    requires name in final.concepts
    ensures SameEnd(w, Own(ParseRecord(final), entities), Show(Concept(name)), Some(ConceptKey(w, name)))
  {
    HandleReadsBack(Concept(name));
  }

  lemma NsConceptHandle(w: World, final: Recorded, entities: set<Key>, ns: string, name: string)
    ensures SameEnd(w, Own(ParseRecord(final), entities), Show(NsConcept(ns, name)), Some(ConceptKey(w, Full(ns, name))))
      <==> Partition(Full(ns, name)) in final.nsConcepts
  {
    NsReadsAs(ns, name);
  }

  lemma NoHandle(w: World, scope: Scope)
    ensures SameEnd(w, scope, "", None)
  {
  }

  /** The handle a call returns, and what the same call returns directly. */
  function CallHandle(t: Taped, call: Call): string {
    match call
    case Upsert(key) => RecUpsert(t.rec, key).1
    case NewConcept(name) => RecConcept(t.rec, name).1
    case NewNsConcept(ns, name) => RecNsConcept(t.rec, ns, name).1
    case Find(candidates) => RecLookup(t.rec, candidates).1
    case Do(_) => ""
    case Bulk(_) => ""
  }

  function CallKey(w: World, live: Live, call: Call): Option<Key> {
    match call
    case Upsert(key) => Some(key)
    case NewConcept(name) => Some(ConceptKey(w, name))
    case NewNsConcept(ns, name) => Some(ConceptKey(w, Full(ns, name)))
    case Find(candidates) => FirstHit(live.entities, candidates)
    case Do(_) => None
    case Bulk(_) => None
  }

  lemma HandlesGrow(w: World, t: Taped, live: Live, call: Call)
    ensures TapeCall(t, call).handles == t.handles + [CallHandle(t, call)]
    ensures LiveCall(w, live, call).handles == live.handles + [CallKey(w, live, call)]
  {
  }

  /** After a call, the record holds what the call registered. */
  lemma Registered(t: Taped, call: Call, final: Recorded)
    requires Earlier(TapeCall(t, call).rec, final)
    ensures call.Upsert? ==> call.key == t.rec.doc || call.key in final.subs
    ensures call.NewConcept? ==> call.name in final.concepts
    ensures call.NewNsConcept? ==> (call.ns, call.name) in final.nsConcepts
  {
    match call
    case Upsert(key) => assert key != t.rec.doc ==> key in RecUpsert(t.rec, key).0.subs;
    case NewConcept(name) => assert name in RecConcept(t.rec, name).0.concepts;
    case NewNsConcept(ns, name) => assert (ns, name) in RecNsConcept(t.rec, ns, name).0.nsConcepts;
    case _ =>
  }

  lemma KindOfUpsert(w: World, v: View, doc: Key, calls: seq<Call>, i: nat)
    requires i < |calls| && calls[i].Upsert? && LiveRun(w, v, doc, calls).known
    ensures calls[i].key.kind in KINDS
  {
    assert calls[..i + 1][..i] == calls[..i];
    LiveGrows(w, v, doc, calls, i + 1);
  }

  /** The handle of a call resolves on replay to what the direct call returned exactly when the call is fair. */
  lemma HandleIff(w: World, v: View, doc: Key, calls: seq<Call>, i: nat)
    requires i < |calls| && LiveRun(w, v, doc, calls).known
    ensures SameEnd(w, FinalScope(w, v, doc, calls), CallHandle(Tape(doc, calls[..i]), calls[i]),
                    CallKey(w, LiveRun(w, v, doc, calls[..i]), calls[i]))
      <==> FairCall(w, v, doc, calls, i)
  {
    var t, final, entities := Tape(doc, calls[..i]), Tape(doc, calls).rec, LiveRun(w, v, doc, calls).entities;
    assert calls[..i + 1][..i] == calls[..i];
    TapeGrows(doc, calls, i + 1);
    TapeIsNumbered(doc, calls[..i]);
    TapeIsNumbered(doc, calls);
    Registered(t, calls[i], final);
    match calls[i]
    case Upsert(key) =>
      KindOfUpsert(w, v, doc, calls, i);
      UpsertHandle(w, final, entities, doc, key);
    case NewConcept(name) => ConceptHandle(w, final, entities, name);
    case NewNsConcept(ns, name) => NsConceptHandle(w, final, entities, ns, name);
    case Find(candidates) => LookupHandle(w, v, doc, calls, i, candidates);
    case _ => NoHandle(w, FinalScope(w, v, doc, calls));
  }

  lemma NoSlashInKinds(kind: string)
    requires kind in KINDS
    ensures '/' !in kind
  {
  }

  lemma LookupHandle(w: World, v: View, doc: Key, calls: seq<Call>, i: nat, candidates: seq<Key>)
    requires i < |calls| && calls[i] == Find(candidates)
    ensures SameEnd(w, FinalScope(w, v, doc, calls), RecLookup(Tape(doc, calls[..i]).rec, candidates).1,
                    FirstHit(LiveRun(w, v, doc, calls[..i]).entities, candidates))
      <==> FairCall(w, v, doc, calls, i)
  {
    var n := |Tape(doc, calls[..i]).rec.lookups|;
    var all := Tape(doc, calls).rec.lookups;
    assert calls[..i + 1][..i] == calls[..i];
    TapeGrows(doc, calls, i + 1);
    TapeIsNumbered(doc, calls);
    assert all[n] == (Symbol(n + 1), candidates);
    FindsItsOwn(all, n);
    HandleReadsBack(Bound(Symbol(n + 1)));
    FirstHitIff(LiveRun(w, v, doc, calls[..i]).entities, LiveRun(w, v, doc, calls).entities, candidates);
  }

  lemma OneMoreEnd(w: World, scope: Scope, t: Taped, live: Live, t1: Taped, live1: Live, s: string, k: Option<Key>)
    requires |t.handles| == |live.handles|
    requires t1.handles == t.handles + [s] && live1.handles == live.handles + [k]
    ensures SameEnds(w, scope, t1, live1) <==> SameEnds(w, scope, t, live) && SameEnd(w, scope, s, k)
  {
    if SameEnds(w, scope, t1, live1) {
      forall i | 0 <= i < |t.handles| ensures SameEnd(w, scope, t.handles[i], live.handles[i]) {
        assert SameEnd(w, scope, t1.handles[i], live1.handles[i]);
      }
      assert SameEnd(w, scope, t1.handles[|t.handles|], live1.handles[|t.handles|]);
    }
    if SameEnds(w, scope, t, live) && SameEnd(w, scope, s, k) {
      forall i | 0 <= i < |t1.handles| ensures SameEnd(w, scope, t1.handles[i], live1.handles[i]) {
        if i < |t.handles| {
          assert SameEnd(w, scope, t.handles[i], live.handles[i]);
        }
      }
    }
  }

  ghost predicate FirstFair(w: World, v: View, doc: Key, calls: seq<Call>, n: nat)
    requires n <= |calls|
  {
    forall i | 0 <= i < n :: FairCall(w, v, doc, calls, i)
  }

  lemma {:induction false} EndsIff(w: World, v: View, doc: Key, calls: seq<Call>, n: nat)
    requires n <= |calls| && LiveRun(w, v, doc, calls).known
    ensures |Tape(doc, calls[..n]).handles| == |LiveRun(w, v, doc, calls[..n]).handles|
    ensures SameEnds(w, FinalScope(w, v, doc, calls), Tape(doc, calls[..n]), LiveRun(w, v, doc, calls[..n]))
      <==> FirstFair(w, v, doc, calls, n)
  {
    if n > 0 {
      var i := n - 1;
      EndsIff(w, v, doc, calls, i);
      assert calls[..n][..i] == calls[..i];
      HandleIff(w, v, doc, calls, i);
      var t, live, call := Tape(doc, calls[..i]), LiveRun(w, v, doc, calls[..i]), calls[i];
      HandlesGrow(w, t, live, call);
      OneMoreEnd(w, FinalScope(w, v, doc, calls), t, live, Tape(doc, calls[..n]), LiveRun(w, v, doc, calls[..n]),
                 CallHandle(t, call), CallKey(w, live, call));
      OneMoreFair(w, v, doc, calls, i);
    }
  }

  lemma OneMoreFair(w: World, v: View, doc: Key, calls: seq<Call>, i: nat)
    requires i < |calls|
    ensures FirstFair(w, v, doc, calls, i + 1) <==> FirstFair(w, v, doc, calls, i) && FairCall(w, v, doc, calls, i)
  {
  }

  /** Every handle resolves on replay to what the direct call returned exactly when the calls are fair. */
  lemma AllHandles(w: World, v: View, doc: Key, calls: seq<Call>)
    requires LiveRun(w, v, doc, calls).known
    ensures SameEnds(w, FinalScope(w, v, doc, calls), Tape(doc, calls), LiveRun(w, v, doc, calls))
      <==> Fair(w, v, doc, calls)
  {
    EndsIff(w, v, doc, calls, |calls|);
    assert calls[..|calls|] == calls;
  }

  // ----- the ops -----------------------------------------------------------------------

  lemma OpsOfOtherCalls(w: World, t: Taped, live: Live, call: Call)
    requires !call.Do? && !call.Bulk?
    ensures TapeCall(t, call).rec.ops == t.rec.ops && LiveCall(w, live, call).ops == live.ops
  {
  }

  predicate SameSoFar(w: World, scope: Scope, t: Taped, live: Live) {
    Resolved(w, scope, ParseOps(t.rec.ops)) == live.ops
  }

  lemma CallKeepsOps(w: World, scope: Scope, t: Taped, live: Live, call: Call)
    requires SameSoFar(w, scope, t, live) && SameEnds(w, scope, t, live)
    ensures SameSoFar(w, scope, TapeCall(t, call), LiveCall(w, live, call))
  {
    if call.Do? {
      OneMoreOp(w, scope, t.rec.ops, TapeOp(t.handles, call.op));
      OneOp(w, scope, t, live, call.op);
    } else if call.Bulk? {
      OpsOfBulk(w, scope, t, live, ItemOps(call.items));
    } else {
      OpsOfOtherCalls(w, t, live, call);
    }
  }

  lemma {:induction false} OpsOfBulk(w: World, scope: Scope, t: Taped, live: Live, ops: seq<Op<nat>>)
    requires SameSoFar(w, scope, t, live) && SameEnds(w, scope, t, live)
    ensures Resolved(w, scope, ParseOps(t.rec.ops + TapeOps(t.handles, ops))) == live.ops + LiveOps(live.handles, ops)
  {
    if ops == [] {
      assert t.rec.ops + [] == t.rec.ops && live.ops + [] == live.ops;
    } else {
      var front, last := ops[..|ops| - 1], ops[|ops| - 1];
      OpsOfBulk(w, scope, t, live, front);
      var before := t.rec.ops + TapeOps(t.handles, front);
      OneMoreOp(w, scope, before, TapeOp(t.handles, last));
      OneOp(w, scope, t, live, last);
      Three(t.rec.ops, TapeOps(t.handles, front), [TapeOp(t.handles, last)]);
      Three(live.ops, LiveOps(live.handles, front), LiveOp(live.handles, last));
    }
  }

  lemma Three<T>(a: seq<T>, b: seq<T>, c: seq<T>)
    ensures a + b + c == a + (b + c)
  {
  }

  lemma {:induction false} OpsSoFar(w: World, v: View, doc: Key, calls: seq<Call>, i: nat)
    requires i <= |calls| && Fair(w, v, doc, calls) && LiveRun(w, v, doc, calls).known
    ensures SameSoFar(w, FinalScope(w, v, doc, calls), Tape(doc, calls[..i]), LiveRun(w, v, doc, calls[..i]))
  {
    if i > 0 {
      OpsSoFar(w, v, doc, calls, i - 1);
      EndsIff(w, v, doc, calls, i - 1);
      assert calls[..i][..i - 1] == calls[..i - 1];
      CallKeepsOps(w, FinalScope(w, v, doc, calls), Tape(doc, calls[..i - 1]), LiveRun(w, v, doc, calls[..i - 1]),
                   calls[i - 1]);
    }
  }

  /** The replay performs the ops the direct calls performed, in order. */
  lemma AllOps(w: World, v: View, doc: Key, calls: seq<Call>)
    requires Fair(w, v, doc, calls) && LiveRun(w, v, doc, calls).known
    ensures SameSoFar(w, FinalScope(w, v, doc, calls), Tape(doc, calls), LiveRun(w, v, doc, calls))
  {
    OpsSoFar(w, v, doc, calls, |calls|);
    assert calls[..|calls|] == calls;
  }

  lemma OneOp(w: World, scope: Scope, t: Taped, live: Live, op: Op<nat>)
    requires SameEnds(w, scope, t, live)
    ensures ResolveOp(w, scope, ParseOp(TapeOp(t.handles, op))) == LiveOp(live.handles, op)
  {
    if !op.AddVerb? {
      EndOf(w, scope, t, live, op.c);
      EndOf(w, scope, t, live, op.e);
    }
  }

  lemma EndOf(w: World, scope: Scope, t: Taped, live: Live, i: nat)
    requires SameEnds(w, scope, t, live)
    ensures SameEnd(w, scope, At(t.handles, i, ""), At(live.handles, i, None))
  {
    if i < |t.handles| {
      assert SameEnd(w, scope, t.handles[i], live.handles[i]);
    }
  }

  // ----- what the tape creates ---------------------------------------------------------

  /** What was created directly is what the record creates. */
  predicate SameCreated(w: World, v: View, rec: Recorded, live: Live) {
    && live.entities == v.entities + Created(w, ParseRecord(rec))
    && live.names == NamesOf(rec)
    && live.verbs == v.verbs + VerbsOf(ParseOps(rec.ops))
    && (live.known <==> KindsKnown(rec))
  }

  lemma CallCreates(w: World, v: View, t: Taped, live: Live, call: Call)
    requires SameCreated(w, v, t.rec, live)
    ensures SameCreated(w, v, TapeCall(t, call).rec, LiveCall(w, live, call))
  {
    match call
    case Upsert(key) => CreateSub(w, t.rec, key);
    case Find(candidates) => CreateLookup(w, t.rec, candidates);
    case Do(op) => CreateVerb(w, t.rec, TapeOp(t.handles, op));
    case Bulk(items) => BulkCreates(w, v, t, live, items);
    case _ => NamingCreates(w, v, t, live, call);
  }

  lemma NamingCreates(w: World, v: View, t: Taped, live: Live, call: Call)
    requires SameCreated(w, v, t.rec, live) && (call.NewConcept? || call.NewNsConcept?)
    ensures SameCreated(w, v, TapeCall(t, call).rec, LiveCall(w, live, call))
  {
    match call
    case NewConcept(name) => CreateConcept(w, t.rec, name);
    case NewNsConcept(ns, name) => CreateNsConcept(w, t.rec, ns, name);
  }

  lemma BulkCreates(w: World, v: View, t: Taped, live: Live, items: seq<Item>)
    requires SameCreated(w, v, t.rec, live)
    ensures SameCreated(w, v, TapeCall(t, Bulk(items)).rec, LiveCall(w, live, Bulk(items)))
  {
    ItemsAreLinks(items);
    CreateNothing(w, t.rec, t.handles, ItemOps(items));
  }

  lemma {:induction false} ItemsAreLinks(items: seq<Item>)
    ensures forall op | op in ItemOps(items) :: op.Link?
  {
    if items != [] {
      ItemsAreLinks(items[..|items| - 1]);
    }
  }

  /** Links register no linkage type. */
  lemma {:induction false} CreateNothing(w: World, rec: Recorded, handles: seq<string>, ops: seq<Op<nat>>)
    requires forall op | op in ops :: op.Link?
    ensures (var after := rec.(ops := rec.ops + TapeOps(handles, ops));
             Created(w, ParseRecord(after)) == Created(w, ParseRecord(rec)) && NamesOf(after) == NamesOf(rec)
             && VerbsOf(ParseOps(after.ops)) == VerbsOf(ParseOps(rec.ops)))
  {
    if ops == [] {
      assert rec.ops + [] == rec.ops;
    } else {
      var front, last := ops[..|ops| - 1], ops[|ops| - 1];
      CreateNothing(w, rec, handles, front);
      var before := rec.(ops := rec.ops + TapeOps(handles, front));
      CreateVerb(w, before, TapeOp(handles, last));
      assert before.ops + [TapeOp(handles, last)] == rec.ops + TapeOps(handles, ops);
    }
  }

  lemma CreateLookup(w: World, rec: Recorded, candidates: seq<Key>)
    ensures (var after := RecLookup(rec, candidates).0;
             Created(w, ParseRecord(after)) == Created(w, ParseRecord(rec)) && NamesOf(after) == NamesOf(rec))
  {
    var after := RecLookup(rec, candidates).0;
    assert KeysOf(ParseRecord(after)) == KeysOf(ParseRecord(rec));
    assert NamesOf(ParseRecord(after)) == NamesOf(ParseRecord(rec));
  }

  lemma {:induction false} TapeCreates(w: World, v: View, doc: Key, calls: seq<Call>)
    ensures SameCreated(w, v, Tape(doc, calls).rec, LiveRun(w, v, doc, calls))
  {
    if calls == [] {
      assert Created(w, ParseRecord(Blank(doc))) == {doc};
      assert NamesOf(Blank(doc)) == {} && VerbsOf<Ref>([]) == {};
    } else {
      TapeCreates(w, v, doc, calls[..|calls| - 1]);
      CallCreates(w, v, Tape(doc, calls[..|calls| - 1]), LiveRun(w, v, doc, calls[..|calls| - 1]), calls[|calls| - 1]);
    }
  }

  lemma CreateSub(w: World, rec: Recorded, key: Key)
    ensures (var after := RecUpsert(rec, key).0;
             Created(w, ParseRecord(after)) == Created(w, ParseRecord(rec)) + {key} && NamesOf(after) == NamesOf(rec))
  {
    var after := RecUpsert(rec, key).0;
    assert KeysOf(ParseRecord(after)) == KeysOf(ParseRecord(rec)) + {key};
    assert NamesOf(ParseRecord(after)) == NamesOf(ParseRecord(rec));
  }

  lemma CreateConcept(w: World, rec: Recorded, name: string)
    ensures (var after := RecConcept(rec, name).0;
             Created(w, ParseRecord(after)) == Created(w, ParseRecord(rec)) + Forms(w, name)
             && NamesOf(after) == NamesOf(rec) + {name})
  {
    var after := RecConcept(rec, name).0;
    assert KeysOf(ParseRecord(after)) == KeysOf(ParseRecord(rec));
    assert NamesOf(after) == NamesOf(rec) + {name};
    assert NamesOf(ParseRecord(after)) == NamesOf(ParseRecord(rec)) + {name};
    AllFormsWith(w, NamesOf(ParseRecord(rec)), name);
  }

  lemma NsOneMore(rec: Recorded, ns: string, name: string)
    ensures NamesOf(RecNsConcept(rec, ns, name).0) == NamesOf(rec) + {Full(ns, name)}
  {
    var after := RecNsConcept(rec, ns, name).0;
    forall n ensures n in NamesOf(after) <==> n in NamesOf(rec) || n == Full(ns, name) {
      if n == Full(ns, name) {
        var p := (ns, name);
        assert p in after.nsConcepts && Full(p.0, p.1) == n;
      }
    }
  }

  lemma CreateNsConcept(w: World, rec: Recorded, ns: string, name: string)
    ensures (var after := RecNsConcept(rec, ns, name).0;
             Created(w, ParseRecord(after)) == Created(w, ParseRecord(rec)) + Forms(w, Full(ns, name))
             && NamesOf(after) == NamesOf(rec) + {Full(ns, name)})
  {
    var after := RecNsConcept(rec, ns, name).0;
    NsOneMore(rec, ns, name);
    assert KeysOf(ParseRecord(after)) == KeysOf(ParseRecord(rec));
    assert NamesOf(ParseRecord(after)) == NamesOf(after) && NamesOf(ParseRecord(rec)) == NamesOf(rec);
    AllFormsWith(w, NamesOf(ParseRecord(rec)), Full(ns, name));
  }

  lemma CreateVerb(w: World, rec: Recorded, op: Op<string>)
    ensures (var after := RecOp(rec, op);
             Created(w, ParseRecord(after)) == Created(w, ParseRecord(rec)) && NamesOf(after) == NamesOf(rec)
             && VerbsOf(ParseOps(after.ops)) == VerbsOf(ParseOps(rec.ops)) + if op.AddVerb? then {op.verb} else {})
  {
    var after := RecOp(rec, op);
    assert after.ops[..|after.ops| - 1] == rec.ops;
    OneMore(ParseOps(rec.ops), ParseOp(op));
    assert KeysOf(ParseRecord(after)) == KeysOf(ParseRecord(rec));
    assert NamesOf(ParseRecord(after)) == NamesOf(ParseRecord(rec));
  }
}
