/** What applying a record does, handle by handle, op by op and row by row. */
module IngestLaws {
  import opened Options
  import opened Filtering
  import opened IngestRefs
  import opened IngestGraph
  import opened IngestRecorder

  // ----- handles -----------------------------------------------------------------------

  /** What a handle of a record stands for, by how it is written. */
  ghost predicate StandsFor(w: World, rec: Recorded, entities: set<Key>, handle: string, key: Option<Key>) {
    && (handle == "@doc" ==> key == Some(rec.doc))
    && (forall kind, name | handle == "@sub:" + kind + "/" + name && '/' !in kind ::
          key == if Key(kind, name) in rec.subs then Some(Key(kind, name)) else None)
    && (forall name | handle == "@concept:" + name ::
          key == if name in rec.concepts then Some(Key("concept", w.canon(name))) else None)
    && (forall ns, name | handle == "@nsconcept:" + ns + "/" + name && '/' !in ns ::
          key == if (ns, name) in rec.nsConcepts then Some(Key("concept", w.canon(ns + "/" + name))) else None)
    && (forall num | handle == "@adr:" + num :: key == if num in w.adr then Some(w.adr[num]) else None)
    && (forall sym | handle == "@ref:" + sym :: FoundBy(rec.lookups, entities, sym, key))
  }

  /** The lookup registered last under a symbol finds its first candidate that exists. */
  ghost predicate FoundBy(lookups: seq<(string, seq<Key>)>, entities: set<Key>, sym: string, key: Option<Key>) {
    && ((forall i | 0 <= i < |lookups| :: lookups[i].0 != sym) ==> key == None)
    && forall i | 0 <= i < |lookups| && lookups[i].0 == sym && (forall j | i < j < |lookups| :: lookups[j].0 != sym) ::
         IsFirstOf(entities, lookups[i].1, key)
  }

  ghost predicate IsFirstOf(entities: set<Key>, candidates: seq<Key>, key: Option<Key>) {
    match key
    case None => forall c | c in candidates :: c !in entities
    case Some(k) => exists i :: 0 <= i < |candidates| && candidates[i] == k && k in entities
                                && forall j | 0 <= j < i :: candidates[j] !in entities
  }

  lemma {:induction false} FirstHitIs(entities: set<Key>, candidates: seq<Key>)
    ensures IsFirstOf(entities, candidates, FirstHit(entities, candidates))
  {
    if candidates != [] && candidates[0] !in entities {
      FirstHitIs(entities, candidates[1..]);
      assert candidates == [candidates[0]] + candidates[1..];
      if FirstHit(entities, candidates).Some? {
        var k := FirstHit(entities, candidates).value;
        var i :| 0 <= i < |candidates[1..]| && candidates[1..][i] == k && forall j | 0 <= j < i :: candidates[1..][j] !in entities;
        assert candidates[i + 1] == k;
        forall j | 0 <= j < i + 1 ensures candidates[j] !in entities {
          assert j > 0 ==> candidates[j] == candidates[1..][j - 1];
        }
      }
    }
  }

  lemma {:induction false} LookupIs(lookups: seq<(string, seq<Key>)>, entities: set<Key>, sym: string)
    ensures FoundBy(lookups, entities, sym, Lookup(lookups, entities, sym))
  {
    if lookups != [] {
      var n := |lookups| - 1;
      if lookups[n].0 == sym {
        FirstHitIs(entities, lookups[n].1);
      } else {
        LookupIs(lookups[..n], entities, sym);
        FoundBefore(lookups, n, entities, sym, Lookup(lookups[..n], entities, sym));
      }
    }
  }

  lemma FoundBefore(lookups: seq<(string, seq<Key>)>, n: nat, entities: set<Key>, sym: string, key: Option<Key>)
    requires |lookups| == n + 1 && lookups[n].0 != sym && FoundBy(lookups[..n], entities, sym, key)
    ensures FoundBy(lookups, entities, sym, key)
  {
    if forall i | 0 <= i < |lookups| :: lookups[i].0 != sym {
      forall i | 0 <= i < n ensures lookups[..n][i].0 != sym {
        assert lookups[..n][i] == lookups[i];
      }
    }
    forall i | 0 <= i < |lookups| && lookups[i].0 == sym && (forall j | i < j < |lookups| :: lookups[j].0 != sym)
      ensures IsFirstOf(entities, lookups[i].1, key) {
      assert lookups[..n][i] == lookups[i];
    }
  }

  function Found(w: World, scope: Scope, handle: string): Option<Key> { Resolve(w, scope, Parse(handle)) }

  lemma HandleMeans(w: World, rec: Recorded, entities: set<Key>, handle: string)
    ensures StandsFor(w, rec, entities, handle, Found(w, Own(ParseRecord(rec), entities), handle))
  {
    forall kind, name | handle == "@sub:" + kind + "/" + name && '/' !in kind ensures Parse(handle) == Sub(Key(kind, name)) {
      HandleReadsBack(Sub(Key(kind, name)));
    }
    forall name | handle == "@concept:" + name ensures Parse(handle) == Concept(name) {
      HandleReadsBack(Concept(name));
    }
    forall ns, name | handle == "@nsconcept:" + ns + "/" + name && '/' !in ns ensures Parse(handle) == NsConcept(ns, name) {
      HandleReadsBack(NsConcept(ns, name));
    }
    forall num | handle == "@adr:" + num ensures Parse(handle) == Adr(num) {
      HandleReadsBack(Adr(num));
    }
    forall sym | handle == "@ref:" + sym
      ensures FoundBy(rec.lookups, entities, sym, Found(w, Own(ParseRecord(rec), entities), handle)) {
      HandleReadsBack(Bound(sym));
      LookupIs(rec.lookups, entities, sym);
    }
  }

  // ----- ops ---------------------------------------------------------------------------

  /** An op that writes: both its handles stand for something. */
  predicate Acts(w: World, scope: Scope, op: Op<string>) {
    !op.AddVerb? && Found(w, scope, op.c).Some? && Found(w, scope, op.e).Some?
  }

  /** The concept end first, the entity end second. */
  function TripleOf(w: World, scope: Scope, op: Op<string>): Triple
    requires Acts(w, scope, op)
  {
    (op.verb, Found(w, scope, op.c).value, Found(w, scope, op.e).value)
  }

  /** Op `i` is an edge at `t`. */
  predicate LinksAt(w: World, scope: Scope, ops: seq<Op<string>>, i: nat, t: Triple) {
    i < |ops| && (ops[i].Link? || ops[i].Weighted?) && Acts(w, scope, ops[i]) && TripleOf(w, scope, ops[i]) == t
  }

  function Weight(op: Op<string>): Option<real>
    requires op.Link? || op.Weighted?
  {
    if op.Link? then op.weight else Some(op.score)
  }

  /** One note for each piece of evidence with both ends, in order. */
  ghost predicate NotesAt(w: World, scope: Scope, ops: seq<Op<string>>, notes: seq<(Triple, Note)>, at: seq<nat>) {
    && Rises(at) && |at| == |notes|
    && (forall k | 0 <= k < |at| :: at[k] < |ops|
          && ops[at[k]].Evidence? && Acts(w, scope, ops[at[k]])
          && notes[k] == (TripleOf(w, scope, ops[at[k]]), ops[at[k]].note))
    && forall i: nat :: i in at <==> i < |ops| && ops[i].Evidence? && Acts(w, scope, ops[i])
  }

  /** `after` is `before` with the edges of the ops: one that is there stays, and the first op decides. */
  ghost predicate EdgesPlayed(w: World, scope: Scope, ops: seq<Op<string>>, before: map<Triple, Option<real>>,
                              after: map<Triple, Option<real>>) {
    && (forall t :: t in after <==> t in before || exists i: nat :: LinksAt(w, scope, ops, i, t))
    && (forall t | t in before :: t in after && after[t] == before[t])
    && forall t, i: nat | t !in before && LinksAt(w, scope, ops, i, t) && (forall j: nat | j < i :: !LinksAt(w, scope, ops, j, t)) ::
         t in after && after[t] == Weight(ops[i])
  }

  function Played(w: World, scope: Scope, ops: seq<Op<string>>): seq<Op<Key>> { Resolved(w, scope, ParseOps(ops)) }

  lemma PlayedMore(w: World, scope: Scope, ops: seq<Op<string>>, op: Op<string>)
    ensures Played(w, scope, ops + [op]) == Played(w, scope, ops) + ResolveOp(w, scope, ParseOp(op))
  {
    OneMoreOp(w, scope, ops, op);
  }

  lemma NotesOfOne(more: seq<Op<Key>>)
    requires |more| <= 1
    ensures more != [] && more[0].Evidence? ==> NotesOf(more) == [((more[0].verb, more[0].c, more[0].e), more[0].note)]
    ensures more == [] || !more[0].Evidence? ==> NotesOf(more) == []
  {
    if more != [] {
      assert more[..0] == [] && NotesOf(more[..0]) == [];
    }
  }

  lemma {:induction false} NotesAre(w: World, scope: Scope, ops: seq<Op<string>>) returns (at: seq<nat>)
    ensures NotesAt(w, scope, ops, NotesOf(Played(w, scope, ops)), at)
  {
    if ops == [] {
      at := [];
    } else {
      var n := |ops| - 1;
      var op := ops[n];
      var rest := NotesAre(w, scope, ops[..n]);
      assert ops == ops[..n] + [op];
      PlayedMore(w, scope, ops[..n], op);
      var more, notes := NoteOfOp(w, scope, op);
      LinkedSplit(map[], Played(w, scope, ops[..n]), more);
      at := OneNote(w, scope, ops, n, NotesOf(Played(w, scope, ops[..n])), notes, rest);
    }
  }

  lemma OpDone(w: World, scope: Scope, op: Op<string>) returns (more: seq<Op<Key>>)
    ensures more == ResolveOp(w, scope, ParseOp(op)) && |more| <= 1
    ensures if op.Evidence? && Acts(w, scope, op)
            then more == [Evidence(op.verb, TripleOf(w, scope, op).1, TripleOf(w, scope, op).2, op.note)]
            else more == [] || !more[0].Evidence?
  {
    more := ResolveOp(w, scope, ParseOp(op));
  }

  lemma NoteOfOp(w: World, scope: Scope, op: Op<string>) returns (more: seq<Op<Key>>, notes: seq<(Triple, Note)>)
    ensures more == ResolveOp(w, scope, ParseOp(op)) && |more| <= 1 && notes == NotesOf(more)
    ensures notes == if op.Evidence? && Acts(w, scope, op) then [(TripleOf(w, scope, op), op.note)] else []
  {
    more := OpDone(w, scope, op);
    NotesOfOne(more);
    notes := NotesOf(more);
  }

  lemma OneNote(w: World, scope: Scope, ops: seq<Op<string>>, n: nat, notes: seq<(Triple, Note)>, more: seq<(Triple, Note)>,
                rest: seq<nat>) returns (at: seq<nat>)
    requires |ops| == n + 1 && NotesAt(w, scope, ops[..n], notes, rest)
    requires more == if ops[n].Evidence? && Acts(w, scope, ops[n]) then [(TripleOf(w, scope, ops[n]), ops[n].note)] else []
    ensures NotesAt(w, scope, ops, notes + more, at)
  {
    forall i | i in rest ensures i < n {
    }
    at := OneBehind(rest, n, more != []);
    forall k | 0 <= k < |at| ensures at[k] < |ops| && ops[at[k]].Evidence? && Acts(w, scope, ops[at[k]])
      && (notes + more)[k] == (TripleOf(w, scope, ops[at[k]]), ops[at[k]].note) {
      if k < |rest| {
        assert at[k] == rest[k] && ops[..n][rest[k]] == ops[rest[k]];
      }
    }
  }

  lemma LinkMore(edges: map<Triple, Option<real>>, ops: seq<Op<Key>>, more: seq<Op<Key>>)
    requires |more| <= 1
    ensures Linked(edges, ops + more)
      == if more == [] || !(more[0].Link? || more[0].Weighted?) then Linked(edges, ops)
         else AddEdge(Linked(edges, ops), (more[0].verb, more[0].c, more[0].e), WeightOf(more[0]))
  {
    if more == [] {
      assert ops + more == ops;
    } else {
      assert (ops + more)[..|ops|] == ops;
    }
  }

  lemma {:induction false} EdgesAre(w: World, scope: Scope, ops: seq<Op<string>>, edges: map<Triple, Option<real>>)
    returns (after: map<Triple, Option<real>>)
    ensures after == Linked(edges, Played(w, scope, ops)) && EdgesPlayed(w, scope, ops, edges, after)
  {
    if ops == [] {
      after := edges;
    } else {
      var n := |ops| - 1;
      var before := EdgesAre(w, scope, ops[..n], edges);
      after := EdgeStep(w, scope, ops, n, edges, before);
      EdgesMore(w, scope, ops, n, edges, before, after);
    }
  }

  lemma EdgeStep(w: World, scope: Scope, ops: seq<Op<string>>, n: nat, edges: map<Triple, Option<real>>,
                 before: map<Triple, Option<real>>) returns (after: map<Triple, Option<real>>)
    requires |ops| == n + 1 && before == Linked(edges, Played(w, scope, ops[..n]))
    ensures after == Linked(edges, Played(w, scope, ops))
    ensures after == if (ops[n].Link? || ops[n].Weighted?) && Acts(w, scope, ops[n])
                     then AddEdge(before, TripleOf(w, scope, ops[n]), Weight(ops[n])) else before
  {
    assert ops == ops[..n] + [ops[n]];
    PlayedMore(w, scope, ops[..n], ops[n]);
    var more := LinkOf(w, scope, ops[n]);
    LinkMore(edges, Played(w, scope, ops[..n]), more);
    after := Linked(edges, Played(w, scope, ops));
  }

  lemma LinkOf(w: World, scope: Scope, op: Op<string>) returns (more: seq<Op<Key>>)
    ensures more == ResolveOp(w, scope, ParseOp(op)) && |more| <= 1
    ensures more != [] && (more[0].Link? || more[0].Weighted?) <==> (op.Link? || op.Weighted?) && Acts(w, scope, op)
    ensures more != [] && (more[0].Link? || more[0].Weighted?) ==>
      (more[0].verb, more[0].c, more[0].e) == TripleOf(w, scope, op) && WeightOf(more[0]) == Weight(op)
  {
    more := ResolveOp(w, scope, ParseOp(op));
  }

  lemma EdgesMore(w: World, scope: Scope, ops: seq<Op<string>>, n: nat, edges: map<Triple, Option<real>>,
                  before: map<Triple, Option<real>>, after: map<Triple, Option<real>>)
    requires |ops| == n + 1 && EdgesPlayed(w, scope, ops[..n], edges, before)
    requires after == if (ops[n].Link? || ops[n].Weighted?) && Acts(w, scope, ops[n])
                      then AddEdge(before, TripleOf(w, scope, ops[n]), Weight(ops[n])) else before
    ensures EdgesPlayed(w, scope, ops, edges, after)
  {
    forall t, i: nat ensures i < n ==> (LinksAt(w, scope, ops, i, t) <==> LinksAt(w, scope, ops[..n], i, t)) {
      assert i < n ==> ops[..n][i] == ops[i];
    }
    forall t ensures t in after <==> t in edges || exists i: nat :: LinksAt(w, scope, ops, i, t) {
      if t in before && t !in edges {
        var i: nat :| LinksAt(w, scope, ops[..n], i, t);
        assert LinksAt(w, scope, ops, i, t);
      }
      if t in after && t !in before {
        assert LinksAt(w, scope, ops, n, t);
      }
    }
    forall t, i: nat | t !in edges && LinksAt(w, scope, ops, i, t) && (forall j: nat | j < i :: !LinksAt(w, scope, ops, j, t))
      ensures t in after && after[t] == Weight(ops[i]) {
      if i < n {
        assert LinksAt(w, scope, ops[..n], i, t);
        forall j: nat | j < i ensures !LinksAt(w, scope, ops[..n], j, t) {
          assert !LinksAt(w, scope, ops, j, t);
        }
      } else {
        assert t !in before;
      }
    }
  }

  // ----- one record --------------------------------------------------------------------

  /** A concept's name in a record; a namespaced one carries its namespace. */
  ghost predicate Names(rec: Recorded, name: string) {
    name in rec.concepts || exists ns, short :: (ns, short) in rec.nsConcepts && name == ns + "/" + short
  }

  /** An entity a record makes: its document, a sub-entity, or a row for a concept or for a variant of one. */
  ghost predicate Makes(w: World, rec: Recorded, k: Key) {
    || k == rec.doc || k in rec.subs
    || exists name :: Names(rec, name) && IsRowOf(w, name, k)
  }

  /** The concept's own row, or the row of one of its variants. */
  predicate IsRowOf(w: World, name: string, k: Key) {
    k == Key("concept", w.canon(name)) || (k.kind == "concept" && k.name in w.variants(name))
  }

  /** An edge from a variant to its concept's row. */
  ghost predicate IsAlias(w: World, rec: Recorded, t: Triple) {
    exists name, variant :: Names(rec, name) && variant in w.variants(name) && variant != w.canon(name)
                            && t == ("same_as", Key("concept", variant), Key("concept", w.canon(name)))
  }

  /** The edges a record leaves: those before it, its aliases without a weight, and those of its ops. */
  ghost predicate RecordEdges(w: World, rec: Recorded, scope: Scope, before: map<Triple, Option<real>>,
                              after: map<Triple, Option<real>>) {
    exists mid: map<Triple, Option<real>> ::
      && (forall t :: t in mid <==> t in before || IsAlias(w, rec, t))
      && (forall t | t in mid :: mid[t] == if t in before then before[t] else None)
      && EdgesPlayed(w, scope, rec.ops, mid, after)
  }

  /** What applying a record makes of the graph. */
  ghost predicate Applied(w: World, before: View, rec: Recorded, after: View) {
    var scope := Own(ParseRecord(rec), after.entities);
    && (forall k :: k in after.entities <==> k in before.entities || Makes(w, rec, k))
    && (forall verb :: verb in after.verbs <==> verb in before.verbs || AddVerb(verb) in rec.ops)
    && RecordEdges(w, rec, scope, before.edges, after.edges)
    && before.notes <= after.notes
    && exists at: seq<nat> :: NotesAt(w, scope, rec.ops, after.notes[|before.notes|..], at)
  }

  /** A kind is unknown, or an op that writes uses a linkage type that is not registered by then. */
  ghost predicate CannotApply(w: World, before: View, rec: Recorded, entities: set<Key>) {
    || rec.doc.kind !in {"doc", "code", "concept", "memory"}
    || (exists k :: k in rec.subs && k.kind !in {"doc", "code", "concept", "memory"})
    || exists op :: op in rec.ops && Acts(w, Own(ParseRecord(rec), entities), op)
                    && op.verb !in before.verbs && AddVerb(op.verb) !in rec.ops
  }

  lemma NamesAre(rec: Recorded, name: string)
    ensures name in NamesOf(ParseRecord(rec)) <==> Names(rec, name)
  {
    if ns, short :| (ns, short) in rec.nsConcepts && name == ns + "/" + short {
      var p := (ns, short);
      assert p in ParseRecord(rec).nsConcepts && Full(p.0, p.1) == name;
    }
    if name in NamesOf(ParseRecord(rec)) && name !in rec.concepts {
      var p :| p in rec.nsConcepts && Full(p.0, p.1) == name;
      assert (p.0, p.1) in rec.nsConcepts;
    }
  }

  lemma MakesIs(w: World, rec: Recorded, k: Key)
    ensures k in KeysOf(ParseRecord(rec)) + AllForms(w, NamesOf(ParseRecord(rec))) <==> Makes(w, rec, k)
  {
    if k in AllForms(w, NamesOf(ParseRecord(rec))) {
      var name :| name in NamesOf(ParseRecord(rec)) && k in Forms(w, name);
      NamesAre(rec, name);
    }
    if Makes(w, rec, k) && k != rec.doc && k !in rec.subs {
      var name :| Names(rec, name) && IsRowOf(w, name, k);
      NamesAre(rec, name);
      assert k in Forms(w, name);
    }
  }

  lemma AliasIs(w: World, rec: Recorded, t: Triple)
    ensures t in AllAliases(w, NamesOf(ParseRecord(rec))) <==> IsAlias(w, rec, t)
  {
    if t in AllAliases(w, NamesOf(ParseRecord(rec))) {
      var name :| name in NamesOf(ParseRecord(rec)) && t in Aliases(w, name);
      NamesAre(rec, name);
    }
    if IsAlias(w, rec, t) {
      var name, variant :| Names(rec, name) && variant in w.variants(name) && variant != w.canon(name)
                           && t == ("same_as", Key("concept", variant), Key("concept", w.canon(name)));
      NamesAre(rec, name);
      assert t in Aliases(w, name);
    }
  }

  lemma {:induction false} VerbsAre(ops: seq<Op<string>>, verb: string)
    ensures verb in VerbsOf(ParseOps(ops)) <==> AddVerb(verb) in ops
  {
    if ops != [] {
      var n := |ops| - 1;
      VerbsAre(ops[..n], verb);
      OneMore(ParseOps(ops[..n]), ParseOp(ops[n]));
      assert ops == ops[..n] + [ops[n]];
      assert verb in VerbsOf(ParseOps(ops)) <==> verb in VerbsOf(ParseOps(ops[..n])) || ParseOp(ops[n]) == AddVerb(verb);
    } else {
      assert VerbsOf(ParseOps(ops)) == {};
    }
  }

  /** An op that is performed is one that writes. */
  lemma {:induction false} PlayedOps(w: World, scope: Scope, ops: seq<Op<string>>, verbs: set<string>)
    ensures UsesOnly(Played(w, scope, ops), verbs) <==> forall op | op in ops && Acts(w, scope, op) :: op.verb in verbs
  {
    if ops != [] {
      var n := |ops| - 1;
      PlayedOps(w, scope, ops[..n], verbs);
      assert ops == ops[..n] + [ops[n]];
      PlayedMore(w, scope, ops[..n], ops[n]);
      var more := ResolveOp(w, scope, ParseOp(ops[n]));
      assert UsesOnly(more, verbs) <==> (Acts(w, scope, ops[n]) ==> ops[n].verb in verbs) by {
        assert more != [] ==> more[0] in more;
      }
      assert forall op :: op in Played(w, scope, ops) <==> op in Played(w, scope, ops[..n]) || op in more;
    }
  }

  lemma AliasesAre(w: World, before: map<Triple, Option<real>>, rec: Recorded) returns (mid: map<Triple, Option<real>>)
    ensures mid == AddMissing(before, AllAliases(w, NamesOf(ParseRecord(rec))))
    ensures forall t :: t in mid <==> t in before || IsAlias(w, rec, t)
    ensures forall t | t in mid :: mid[t] == if t in before then before[t] else None
  {
    mid := AddMissing(before, AllAliases(w, NamesOf(ParseRecord(rec))));
    forall t ensures t in mid <==> t in before || IsAlias(w, rec, t) {
      AliasIs(w, rec, t);
    }
  }

  lemma EntitiesAre(w: World, v: View, rec: Recorded, entities: set<Key>)
    requires forall k :: k in entities <==> k in v.entities || Makes(w, rec, k)
    ensures entities == v.entities + KeysOf(ParseRecord(rec)) + AllForms(w, NamesOf(ParseRecord(rec)))
  {
    var parsed := ParseRecord(rec);
    forall k ensures k in entities <==> k in v.entities + KeysOf(parsed) + AllForms(w, NamesOf(parsed)) {
      MakesIs(w, rec, k);
    }
  }

  lemma RegisteredAre(v: View, rec: Recorded) returns (verbs: set<string>)
    ensures verbs == v.verbs + VerbsOf(ParseRecord(rec).ops)
    ensures forall verb :: verb in verbs <==> verb in v.verbs || AddVerb(verb) in rec.ops
  {
    verbs := v.verbs + VerbsOf(ParseRecord(rec).ops);
    forall verb ensures verb in verbs <==> verb in v.verbs || AddVerb(verb) in rec.ops {
      VerbsAre(rec.ops, verb);
    }
  }

  lemma CannotIff(w: World, v: View, rec: Recorded, entities: set<Key>, verbs: set<string>)
    requires forall verb :: verb in verbs <==> verb in v.verbs || AddVerb(verb) in rec.ops
    ensures CannotApply(w, v, rec, entities)
      <==> !(KindsKnown(ParseRecord(rec)) && UsesOnly(Played(w, Own(ParseRecord(rec), entities), rec.ops), verbs))
  {
    PlayedOps(w, Own(ParseRecord(rec), entities), rec.ops, verbs);
  }

  lemma GraphIs(w: World, v: View, rec: Recorded, entities: set<Key>, verbs: set<string>) returns (view: View)
    requires forall k :: k in entities <==> k in v.entities || Makes(w, rec, k)
    requires forall verb :: verb in verbs <==> verb in v.verbs || AddVerb(verb) in rec.ops
    ensures var scope := Own(ParseRecord(rec), entities);
            view == View(entities, verbs, Linked(AddMissing(v.edges, AllAliases(w, NamesOf(ParseRecord(rec)))),
                                                 Played(w, scope, rec.ops)), v.notes + NotesOf(Played(w, scope, rec.ops)))
    ensures Applied(w, v, rec, view)
  {
    var scope := Own(ParseRecord(rec), entities);
    var mid := AliasesAre(w, v.edges, rec);
    var after := EdgesAre(w, scope, rec.ops, mid);
    assert RecordEdges(w, rec, scope, v.edges, after);
    var at := NotesAre(w, scope, rec.ops);
    var notes := NotesOf(Played(w, scope, rec.ops));
    assert (v.notes + notes)[|v.notes|..] == notes;
    view := View(entities, verbs, after, v.notes + notes);
  }

  /** `apply_record`: when it raises, and what it makes of the graph otherwise. */
  lemma ApplyIs(w: World, v: View, rec: Recorded, entities: set<Key>)
    requires forall k :: k in entities <==> k in v.entities || Makes(w, rec, k)
    ensures var result := Apply(w, v, ParseRecord(rec));
            && (result.Raised? <==> CannotApply(w, v, rec, entities))
            && (result.Ok? ==> result.view.entities == entities && Applied(w, v, rec, result.view))
  {
    EntitiesAre(w, v, rec, entities);
    var verbs := RegisteredAre(v, rec);
    CannotIff(w, v, rec, entities, verbs);
    var view := GraphIs(w, v, rec, entities, verbs);
  }

  lemma ApplyTells(w: World, v: View, rec: Recorded)
    ensures var result := Apply(w, v, ParseRecord(rec)); result.Ok? ==> Applied(w, v, rec, result.view)
  {
    var parsed := ParseRecord(rec);
    var entities := v.entities + KeysOf(parsed) + AllForms(w, NamesOf(parsed));
    forall k ensures k in entities <==> k in v.entities || Makes(w, rec, k) {
      MakesIs(w, rec, k);
    }
    ApplyIs(w, v, rec, entities);
  }
}
