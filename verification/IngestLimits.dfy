/** Where the batch and the one-by-one replay part: one record list for each condition of
  * `BulkIsSequential` and of equal weights, and one for each way the batch raises less. */
module IngestLimits {
  import opened Options
  import opened IngestRefs
  import opened IngestGraph

  const PLAIN := World((s: string) => s, (s: string) => {}, map[])
  const BARE := View({}, {"mentions"}, map[], [])

  const D0 := Key("doc", "a.md")
  const D1 := Key("doc", "b.md")

  function Rec(doc: Key, subs: seq<Key>, concepts: seq<string>, ns: seq<(string, string)>,
               lookups: seq<(string, seq<Key>)>, ops: seq<Op<Ref>>): Record<Ref> {
    Record(doc, subs, concepts, ns, lookups, ops)
  }

  function One(ref: Ref): Op<Ref> { Link("mentions", ref, Doc, None) }

  /** The edge set of a result. */
  function EdgesOf(o: Outcome): set<Triple> { if o.Ok? then o.view.edges.Keys else {} }

  lemma NoAliases(names: set<string>)
    ensures AllAliases(PLAIN, names) == {}
  {
  }

  /** What one op makes of a ref that resolves to `c`. */
  function Edge(c: Option<Key>, doc: Key): set<Triple> {
    if c.None? then {} else {("mentions", c.value, doc)}
  }

  lemma OneOp(scope: Scope, ref: Ref)
    ensures (var c := Resolve(PLAIN, scope, ref);
             Resolved(PLAIN, scope, [One(ref)]) == if c.None? then [] else [Link("mentions", c.value, scope.rec.doc, None)])
  {
    assert [One(ref)][..0] == [];
  }

  lemma LinkedOne(c: Key, doc: Key)
    ensures Linked(map[], [Link("mentions", c, doc, None)]) == map[("mentions", c, doc) := None]
  {
    var ops: seq<Op<Key>> := [Link("mentions", c, doc, None)];
    assert ops[..0] == [];
    assert Linked(map[], ops[..0]) == map[];
  }

  lemma ApplyOne(v: View, rec: Record<Ref>, ref: Ref)
    requires v.edges == map[] && "mentions" in v.verbs && KindsKnown(rec) && rec.ops == [One(ref)]
    ensures Apply(PLAIN, v, rec).Ok?
    ensures EdgesOf(Apply(PLAIN, v, rec))
      == Edge(Resolve(PLAIN, Own(rec, v.entities + KeysOf(rec) + AllForms(PLAIN, NamesOf(rec))), ref), rec.doc)
  {
    NoAliases(NamesOf(rec));
    assert AddMissing(v.edges, {}) == map[];
    var scope := Own(rec, v.entities + KeysOf(rec) + AllForms(PLAIN, NamesOf(rec)));
    OneOp(scope, ref);
    if Resolve(PLAIN, scope, ref).Some? {
      LinkedOne(Resolve(PLAIN, scope, ref).value, rec.doc);
    }
  }

  lemma ApplyNone(v: View, rec: Record<Ref>)
    requires v.edges == map[] && KindsKnown(rec) && rec.ops == []
    ensures Apply(PLAIN, v, rec)
      == Ok(View(v.entities + KeysOf(rec) + AllForms(PLAIN, NamesOf(rec)), v.verbs, map[], v.notes))
  {
    NoAliases(NamesOf(rec));
    assert AddMissing(v.edges, {}) == map[];
    assert VerbsOf(rec.ops) == {} && v.verbs + {} == v.verbs;
  }

  lemma ApplyBatch(recs: seq<Record<Ref>>, c: Option<Key>, doc: Key)
    requires recs != []
    requires BatchOps(PLAIN, recs, BatchEntities(PLAIN, BARE, recs), recs)
      == if c.None? then [] else [Link("mentions", c.value, doc, None)]
    ensures ApplyAll(PLAIN, BARE, recs).Ok? && EdgesOf(ApplyAll(PLAIN, BARE, recs)) == Edge(c, doc)
  {
    NoAliases(BatchNames(recs));
    assert AddMissing(BARE.edges, {}) == map[];
    if c.Some? {
      LinkedOne(c.value, doc);
      var ops: seq<Op<Key>> := [Link("mentions", c.value, doc, None)];
      assert UsesOnly(ops, BARE.verbs + BatchVerbs(recs));
    }
  }

  /** A list of one record with one edge. */
  lemma OneRecord(rec: Record<Ref>, ref: Ref)
    requires KindsKnown(rec) && rec.ops == [One(ref)]
    ensures EdgesOf(ApplyEach(PLAIN, BARE, [rec]))
      == Edge(Resolve(PLAIN, Own(rec, BARE.entities + KeysOf(rec) + AllForms(PLAIN, NamesOf(rec))), ref), rec.doc)
    ensures EdgesOf(ApplyAll(PLAIN, BARE, [rec]))
      == Edge(Resolve(PLAIN, Batch([rec], rec, BatchEntities(PLAIN, BARE, [rec])), ref), rec.doc)
    ensures ApplyEach(PLAIN, BARE, [rec]) == Apply(PLAIN, BARE, rec) && ApplyEach(PLAIN, BARE, [rec]).Ok?
  {
    var recs := [rec];
    assert recs[..0] == [];
    ApplyOne(BARE, rec, ref);
    var scope := Batch(recs, rec, BatchEntities(PLAIN, BARE, recs));
    OneOp(scope, ref);
    assert BatchOps(PLAIN, recs, BatchEntities(PLAIN, BARE, recs), []) == [];
    assert BatchOps(PLAIN, recs, BatchEntities(PLAIN, BARE, recs), recs) == [] + Resolved(PLAIN, scope, rec.ops);
    ApplyBatch(recs, Resolve(PLAIN, scope, ref), rec.doc);
  }

  /** Two records, the edge in the first or in the second. */
  lemma TwoRecordsBatch(first: Record<Ref>, last: Record<Ref>, with: Record<Ref>, ref: Ref)
    requires with == first || with == last
    requires with.ops == [One(ref)] && (if with == first then last.ops == [] else first.ops == [])
    ensures (var recs := [first, last];
             ApplyAll(PLAIN, BARE, recs).Ok? && EdgesOf(ApplyAll(PLAIN, BARE, recs))
               == Edge(Resolve(PLAIN, Batch(recs, with, BatchEntities(PLAIN, BARE, recs)), ref), with.doc))
  {
    var recs := [first, last];
    var all := BatchEntities(PLAIN, BARE, recs);
    assert recs[..1] == [first] && [first][..0] == [];
    OneOp(Batch(recs, with, all), ref);
    assert BatchOps(PLAIN, recs, all, [first]) == [] + Resolved(PLAIN, Batch(recs, first, all), first.ops);
    assert BatchOps(PLAIN, recs, all, recs)
        == BatchOps(PLAIN, recs, all, [first]) + Resolved(PLAIN, Batch(recs, last, all), last.ops);
    ApplyBatch(recs, Resolve(PLAIN, Batch(recs, with, all), ref), with.doc);
  }

  /** The batch skips a concept with an empty name, and with it the edge. */
  lemma EmptyNameDropsEdge()
    ensures (var recs := [Rec(D0, [], [""], [], [], [One(Concept(""))])];
             EdgesOf(ApplyEach(PLAIN, BARE, recs)) != {} && EdgesOf(ApplyAll(PLAIN, BARE, recs)) == {})
  {
    OneRecord(Rec(D0, [], [""], [], [], [One(Concept(""))]), Concept(""));
  }

  /** A namespace with a '/' reads back wrong: one by one the edge is lost, in the batch it is not. */
  lemma SlashInNamespace()
    ensures Parse(Show(NsConcept("a/b", "c"))) == NsConcept("a", "b/c")
    ensures (var recs := [Rec(D0, [], [], [("a/b", "c")], [], [One(Parse(Show(NsConcept("a/b", "c"))))])];
             EdgesOf(ApplyEach(PLAIN, BARE, recs)) == {} && EdgesOf(ApplyAll(PLAIN, BARE, recs)) != {})
  {
    SlashReadsWrong();
    var ref := Parse(Show(NsConcept("a/b", "c")));
    OtherNamespace(Rec(D0, [], [], [("a/b", "c")], [], [One(ref)]), ref);
  }

  lemma OtherNamespace(rec: Record<Ref>, ref: Ref)
    requires rec == Rec(D0, [], [], [("a/b", "c")], [], [One(ref)]) && ref == NsConcept("a", "b/c")
    ensures EdgesOf(ApplyEach(PLAIN, BARE, [rec])) == {} && EdgesOf(ApplyAll(PLAIN, BARE, [rec])) != {}
  {
    OneRecord(rec, ref);
    SameFullName(rec);
  }

  lemma SlashReadsWrong()
    ensures Parse(Show(NsConcept("a/b", "c"))) == NsConcept("a", "b/c")
  {
    var s := Show(NsConcept("a/b", "c"));
    TailAfter("@nsconcept:", "a/b/c");
    assert s == "@nsconcept:" + "a/b/c" && s[1] == 'n';
    PartitionJoined("a", "b/c");
    assert "a/b/c" == "a" + "/" + "b/c";
  }

  lemma SameFullName(rec: Record<Ref>)
    requires rec.nsConcepts == [("a/b", "c")]
    ensures HasNsConcept(Batch([rec], rec, BatchEntities(PLAIN, BARE, [rec])), "a", "b/c")
  {
    var p := ("a/b", "c");
    assert rec in [rec] && p in rec.nsConcepts;
    assert Full("a/b", "c") == "a/b/c" == Full("a", "b/c");
  }

  /** A handle of another record links in the batch only. */
  lemma ForeignHandle()
    ensures (var k := Key("code", "f");
             var recs := [Rec(D0, [k], [], [], [], []), Rec(D1, [], [], [], [], [One(Sub(k))])];
             ApplyEach(PLAIN, BARE, recs).Ok? && ApplyAll(PLAIN, BARE, recs).Ok?
             && EdgesOf(ApplyEach(PLAIN, BARE, recs)) == {} && EdgesOf(ApplyAll(PLAIN, BARE, recs)) != {})
  {
    var k := Key("code", "f");
    var first, last := Rec(D0, [k], [], [], [], []), Rec(D1, [], [], [], [], [One(Sub(k))]);
    var recs := [first, last];
    assert recs[..1] == [first] && [first][..0] == [];
    ApplyNone(BARE, first);
    assert ApplyEach(PLAIN, BARE, [first]) == Apply(PLAIN, BARE, first);
    ApplyOne(Apply(PLAIN, BARE, first).view, last, Sub(k));
    TwoRecordsBatch(first, last, last, Sub(k));
    assert first in recs && k in first.subs;
  }

  lemma NotYetThere(first: Record<Ref>)
    requires first == Rec(D0, [], [], [], [("r1", [D1])], [One(Bound("r1"))])
    ensures Resolve(PLAIN, Own(first, BARE.entities + KeysOf(first) + AllForms(PLAIN, NamesOf(first))), Bound("r1")).None?
  {
    var entities := BARE.entities + KeysOf(first) + AllForms(PLAIN, NamesOf(first));
    assert D1.name[0] != D0.name[0];
    assert D1 !in entities;
    assert Candidates(first.lookups, "r1") == Some([D1]);
    assert FirstHit(entities, [D1]) == FirstHit(entities, [D1][1..]);
  }

  const EARLY := Rec(D0, [], [], [], [("r1", [D1])], [One(Bound("r1"))])
  const LATE := Rec(D1, [], [], [], [], [])

  lemma MissedOneByOne()
    ensures ApplyEach(PLAIN, BARE, [EARLY, LATE]).Ok? && EdgesOf(ApplyEach(PLAIN, BARE, [EARLY, LATE])) == {}
  {
    assert [EARLY, LATE][..1] == [EARLY];
    OneRecord(EARLY, Bound("r1"));
    NotYetThere(EARLY);
    ApplyNone(Apply(PLAIN, BARE, EARLY).view, LATE);
  }

  lemma FoundByBatch()
    ensures ApplyAll(PLAIN, BARE, [EARLY, LATE]).Ok? && EdgesOf(ApplyAll(PLAIN, BARE, [EARLY, LATE])) != {}
  {
    var recs := [EARLY, LATE];
    TwoRecordsBatch(EARLY, LATE, EARLY, Bound("r1"));
    assert recs[1] == LATE && LATE in recs && D1 in KeysOf(LATE);
    assert D1 in BatchKeys(recs);
    assert Candidates(EARLY.lookups, "r1") == Some([D1]);
    assert FirstHit(BatchEntities(PLAIN, BARE, recs), [D1]) == Some(D1);
  }

  /** A path that a later record creates is found by the batch only. */
  lemma LateCandidate()
    ensures (var recs := [EARLY, LATE];
             ApplyEach(PLAIN, BARE, recs).Ok? && ApplyAll(PLAIN, BARE, recs).Ok?
             && EdgesOf(ApplyEach(PLAIN, BARE, recs)) == {} && EdgesOf(ApplyAll(PLAIN, BARE, recs)) != {})
  {
    MissedOneByOne();
    FoundByBatch();
  }

  /** An unknown kind raises one by one, but not in the batch. */
  lemma UnknownKindRaises()
    ensures (var recs := [Rec(Key("page", "x"), [], [], [], [], [])];
             ApplyEach(PLAIN, BARE, recs).Raised? && ApplyAll(PLAIN, BARE, recs).Ok?)
  {
    var rec := Rec(Key("page", "x"), [], [], [], [], []);
    var recs := [rec];
    assert recs[..0] == [];
    var all := BARE.entities + BatchKeys(recs) + AllForms(PLAIN, BatchNames(recs));
    assert BatchOps(PLAIN, recs, all, recs) == [];
  }

  // ----- a linkage type registered late ------------------------------------------------

  const NEWCOMER := Rec(D0, [], [], [], [], [Link("new", Doc, Doc, None)])
  const REGISTRAR := Rec(D1, [], [], [], [], [AddVerb("new")])

  lemma NewcomerOps(scope: Scope)
    requires scope.rec.doc == D0
    ensures Resolved(PLAIN, scope, NEWCOMER.ops) == [Link("new", D0, D0, None)]
    ensures Resolved(PLAIN, scope, REGISTRAR.ops) == []
  {
    assert NEWCOMER.ops[..0] == [] && REGISTRAR.ops[..0] == [];
  }

  lemma NotYetRegistered()
    ensures !VerbsInTime(PLAIN, BARE, [NEWCOMER])
  {
    var recs := [NEWCOMER];
    assert recs[..0] == [];
    NewcomerOps(Own(NEWCOMER, BARE.entities + AllCreated(PLAIN, recs)));
    assert VerbsOf(NEWCOMER.ops) == {} && BatchVerbs(recs) == {};
    var op: Op<Key> := Link("new", D0, D0, None);
    assert op in [op] && op.verb !in BARE.verbs + {};
  }

  lemma NewcomerOnly()
    ensures (var recs := [NEWCOMER, REGISTRAR];
             BatchOps(PLAIN, recs, BatchEntities(PLAIN, BARE, recs), recs) == [Link("new", D0, D0, None)])
  {
    var recs := [NEWCOMER, REGISTRAR];
    var all := BatchEntities(PLAIN, BARE, recs);
    assert recs[..1] == [NEWCOMER] && [NEWCOMER][..0] == [];
    NewcomerOps(Batch(recs, NEWCOMER, all));
    assert Resolved(PLAIN, Batch(recs, REGISTRAR, all), REGISTRAR.ops) == [] by { assert REGISTRAR.ops[..0] == []; }
    var op: Op<Key> := Link("new", D0, D0, None);
    assert BatchOps(PLAIN, recs, all, [NEWCOMER]) == [] + [op];
    assert BatchOps(PLAIN, recs, all, recs) == [op] + [];
  }

  lemma RegisteredByBatch()
    ensures ApplyAll(PLAIN, BARE, [NEWCOMER, REGISTRAR]).Ok?
  {
    var recs := [NEWCOMER, REGISTRAR];
    NewcomerOnly();
    var add: Op<Ref> := AddVerb("new");
    assert add in REGISTRAR.ops && "new" in VerbsOf(REGISTRAR.ops);
    assert REGISTRAR in recs && "new" in BatchVerbs(recs);
  }

  /** A linkage type that a later record registers: one by one raises, the batch does not. */
  lemma LateVerb()
    ensures (var recs := [NEWCOMER, REGISTRAR];
             ApplyEach(PLAIN, BARE, recs).Raised? && ApplyAll(PLAIN, BARE, recs).Ok?)
  {
    NotYetRegistered();
    RegisteredByBatch();
    assert [NEWCOMER, REGISTRAR][..1] == [NEWCOMER];
    EachIs(PLAIN, BARE, [NEWCOMER]);
  }

  // ----- an alias linked by hand -------------------------------------------------------

  /** "A" is spelled "a", with the variant "b". */
  const SPELLED := World((s: string) => if s == "A" then "a" else s, (s: string) => if s == "A" then {"b"} else {}, map[])
  const ALIASING := View({}, {SAME_AS}, map[], [])
  const BY_HAND := Rec(D0, [], ["b", "a"], [], [], [Link(SAME_AS, Concept("b"), Concept("a"), Some(1.0))])
  const BY_NAME := Rec(D1, [], ["A"], [], [], [])
  const ALIAS: Triple := (SAME_AS, Key("concept", "b"), Key("concept", "a"))

  lemma HandOps(scope: Scope)
    requires scope.Own? && scope.rec == BY_HAND
    ensures Resolved(SPELLED, scope, BY_HAND.ops) == [Link(SAME_AS, ALIAS.1, ALIAS.2, Some(1.0))]
  {
    assert BY_HAND.ops[..0] == [];
    assert HasConcept(scope, "b") && HasConcept(scope, "a");
  }

  lemma HandFirst()
    ensures EachOps(SPELLED, ALIASING, [BY_HAND]) == [Link(SAME_AS, ALIAS.1, ALIAS.2, Some(1.0))]
    ensures VerbsInTime(SPELLED, ALIASING, [BY_HAND])
  {
    var recs := [BY_HAND];
    assert recs[..0] == [];
    HandOps(Own(BY_HAND, ALIASING.entities + AllCreated(SPELLED, recs)));
    var op: Op<Key> := Link(SAME_AS, ALIAS.1, ALIAS.2, Some(1.0));
    assert [] + [op] == [op] && UsesOnly([op], ALIASING.verbs + BatchVerbs(recs));
  }

  lemma HandWeight()
    ensures FirstWeight([Link(SAME_AS, ALIAS.1, ALIAS.2, Some(1.0))], ALIAS) == Some(1.0)
  {
  }

  lemma HandMakesNoAlias()
    ensures !AliasOf(SPELLED, [BY_HAND], ALIAS)
  {
    forall n | n in AllNames([BY_HAND]) ensures Aliases(SPELLED, n) == {} {
      assert n in BY_HAND.concepts;
      assert n[0] != 'A';
    }
  }

  lemma HandAlike()
    ensures NoEmptyNames([BY_HAND, BY_NAME]) && AllAlike(SPELLED, ALIASING, [BY_HAND, BY_NAME])
  {
    var recs := [BY_HAND, BY_NAME];
    assert BY_HAND.concepts == ["b", "a"] && BY_NAME.concepts == ["A"];
    forall i, op | 0 <= i < |recs| && op in recs[i].ops ensures OpAlike(SPELLED, ALIASING, recs, i, op) {
      assert i == 0 && op == BY_HAND.ops[0] && recs[0] == BY_HAND && BY_HAND in recs;
      assert "b" in BY_HAND.concepts && "a" in BY_HAND.concepts;
    }
  }

  lemma NameLater()
    ensures AliasOf(SPELLED, [BY_HAND, BY_NAME], ALIAS) && VerbsInTime(SPELLED, ALIASING, [BY_HAND, BY_NAME])
    ensures Early(SPELLED, ALIASING, [BY_HAND, BY_NAME], ALIAS)
  {
    var recs := [BY_HAND, BY_NAME];
    HandFirst();
    HandWeight();
    HandMakesNoAlias();
    assert recs[..1] == [BY_HAND];
    assert EarlyAt(SPELLED, ALIASING, recs, ALIAS, 1);
    assert BY_NAME in recs && "A" in BY_NAME.concepts && "A" in NamesOf(BY_NAME) && "A" in AllNames(recs);
    assert ALIAS in Aliases(SPELLED, "A");
    assert Resolved(SPELLED, Own(BY_NAME, ALIASING.entities + AllCreated(SPELLED, recs)), BY_NAME.ops) == [];
  }

  /** An alias that one record links by hand, with a weight, before another record's concept makes it:
    * one by one keeps the weight, the batch does not. */
  lemma WeightedAlias()
    ensures (var recs := [BY_HAND, BY_NAME];
             NoEmptyNames(recs) && AllAlike(SPELLED, ALIASING, recs)
             && ApplyEach(SPELLED, ALIASING, recs).Ok? && ApplyAll(SPELLED, ALIASING, recs).Ok?
             && ALIAS in ApplyEach(SPELLED, ALIASING, recs).view.edges
             && ApplyEach(SPELLED, ALIASING, recs).view.edges[ALIAS].Some?
             && ApplyAll(SPELLED, ALIASING, recs) != ApplyEach(SPELLED, ALIASING, recs))
  {
    var recs := [BY_HAND, BY_NAME];
    HandAlike();
    NameLater();
    assert forall r | r in recs :: KindsKnown(r);
    BulkIsSequential(SPELLED, ALIASING, recs);
    EachIs(SPELLED, ALIASING, recs);
    EachAt(SPELLED, ALIASING, recs, ALIAS);
  }
}
