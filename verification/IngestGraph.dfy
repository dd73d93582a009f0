/** Replaying ingest records: one at a time, and all at once.  Graphs are compared by names. */
module IngestGraph {
  import opened Options
  import opened IngestRefs

  datatype Note = Note(file: Option<string>, line: Option<int>, spanEnd: Option<int>, detail: Option<string>)

  /** One recorded mutation; its ends are refs, keys or ids. */
  datatype Op<R> =
    | AddVerb(verb: string)
    | Link(verb: string, c: R, e: R, weight: Option<real>)
    | Weighted(verb: string, c: R, e: R, score: real)
    | Evidence(verb: string, c: R, e: R, note: Note)

  datatype Record<R> = Record(
    doc: Key,
    subs: seq<Key>,
    concepts: seq<string>,
    nsConcepts: seq<(string, string)>,
    lookups: seq<(string, seq<Key>)>,
    ops: seq<Op<R>>)

  /** How concept names fold and which ADR numbers are known. */
  datatype World = World(canon: string -> string, variants: string -> set<string>, adr: map<string, Key>)

  type Triple = (string, Key, Key)

  /** The store by names: entities, linkage types, weighted edges, evidence in order. */
  datatype View = View(
    entities: set<Key>,
    verbs: set<string>,
    edges: map<Triple, Option<real>>,
    notes: seq<(Triple, Note)>)

  datatype Outcome = Ok(view: View) | Raised

  const KINDS := {"doc", "code", "concept", "memory"}
  const SAME_AS := "same_as"

  // ----- what a record creates ---------------------------------------------------------

  function Full(ns: string, name: string): string { ns + "/" + name }

  function ConceptKey(w: World, name: string): Key { Key("concept", w.canon(name)) }

  /** A concept and the alias rows that spell it differently. */
  function Forms(w: World, name: string): set<Key> {
    {ConceptKey(w, name)} + set v | v in w.variants(name) :: Key("concept", v)
  }

  function Aliases(w: World, name: string): set<Triple> {
    set v | v in w.variants(name) && v != w.canon(name) :: (SAME_AS, Key("concept", v), ConceptKey(w, name))
  }

  function NamesOf<R>(rec: Record<R>): set<string> {
    (set n | n in rec.concepts) + set p | p in rec.nsConcepts :: Full(p.0, p.1)
  }

  function KeysOf<R>(rec: Record<R>): set<Key> { {rec.doc} + set k | k in rec.subs }

  function AllForms(w: World, names: set<string>): set<Key> { set n, k | n in names && k in Forms(w, n) :: k }

  function AllAliases(w: World, names: set<string>): set<Triple> { set n, t | n in names && t in Aliases(w, n) :: t }

  function VerbsOf<R(==)>(ops: seq<Op<R>>): set<string> { set op | op in ops && op.AddVerb? :: op.verb }

  predicate KindsKnown<R>(rec: Record<R>) {
    rec.doc.kind in KINDS && forall k | k in rec.subs :: k.kind in KINDS
  }

  // ----- resolving refs ----------------------------------------------------------------

  /** Where a ref is looked up: in its own record, or in everything the batch created. */
  datatype Scope = Own(rec: Record<Ref>, entities: set<Key>) | Batch(recs: seq<Record<Ref>>, rec: Record<Ref>, entities: set<Key>)

  /** The lookup registered last under a symbol. */
  function Candidates(lookups: seq<(string, seq<Key>)>, sym: string): Option<seq<Key>> {
    if lookups == [] then None
    else if lookups[|lookups| - 1].0 == sym then Some(lookups[|lookups| - 1].1)
    else Candidates(lookups[..|lookups| - 1], sym)
  }

  function FirstHit(entities: set<Key>, candidates: seq<Key>): Option<Key> {
    if candidates == [] then None
    else if candidates[0] in entities then Some(candidates[0])
    else FirstHit(entities, candidates[1..])
  }

  function Lookup(lookups: seq<(string, seq<Key>)>, entities: set<Key>, sym: string): Option<Key> {
    match Candidates(lookups, sym)
    case None => None
    case Some(cands) => FirstHit(entities, cands)
  }

  predicate HasSub(scope: Scope, key: Key) {
    match scope
    case Own(rec, _) => key in rec.subs
    case Batch(recs, _, _) => exists r :: r in recs && key in r.subs
  }

  predicate HasConcept(scope: Scope, name: string) {
    match scope
    case Own(rec, _) => name in rec.concepts
    case Batch(recs, _, _) => name != "" && exists r :: r in recs && name in r.concepts
  }

  predicate HasNsConcept(scope: Scope, ns: string, name: string) {
    match scope
    case Own(rec, _) => (ns, name) in rec.nsConcepts
    case Batch(recs, _, _) => exists r, p :: r in recs && p in r.nsConcepts && Full(p.0, p.1) == Full(ns, name)
  }

  function Resolve(w: World, scope: Scope, ref: Ref): Option<Key> {
    match ref
    case Doc => Some(scope.rec.doc)
    case Sub(key) => if HasSub(scope, key) then Some(key) else None
    case Concept(name) => if HasConcept(scope, name) then Some(ConceptKey(w, name)) else None
    case NsConcept(ns, name) => if HasNsConcept(scope, ns, name) then Some(ConceptKey(w, Full(ns, name))) else None
    case Adr(num) => if num in w.adr then Some(w.adr[num]) else None
    case Bound(sym) => Lookup(scope.rec.lookups, scope.entities, sym)
    case Unknown => None
  }

  /** An op with its ends resolved; dropped when an end is missing. */
  function ResolveOp(w: World, scope: Scope, op: Op<Ref>): seq<Op<Key>> {
    if op.AddVerb? then []
    else
      var c, e := Resolve(w, scope, op.c), Resolve(w, scope, op.e);
      if c.None? || e.None? then []
      else
        match op
        case Link(verb, _, _, weight) => [Link(verb, c.value, e.value, weight)]
        case Weighted(verb, _, _, score) => [Weighted(verb, c.value, e.value, score)]
        case Evidence(verb, _, _, note) => [Evidence(verb, c.value, e.value, note)]
  }

  function Resolved(w: World, scope: Scope, ops: seq<Op<Ref>>): seq<Op<Key>> {
    if ops == [] then [] else Resolved(w, scope, ops[..|ops| - 1]) + ResolveOp(w, scope, ops[|ops| - 1])
  }

  // ----- playing resolved ops ----------------------------------------------------------

  /** `INSERT ... ON CONFLICT DO NOTHING`: the first weight of an edge stays. */
  function AddEdge(edges: map<Triple, Option<real>>, t: Triple, weight: Option<real>): map<Triple, Option<real>> {
    if t in edges then edges else edges[t := weight]
  }

  function Linked(edges: map<Triple, Option<real>>, ops: seq<Op<Key>>): map<Triple, Option<real>> {
    if ops == [] then edges
    else
      var before := Linked(edges, ops[..|ops| - 1]);
      match ops[|ops| - 1]
      case Link(verb, c, e, weight) => AddEdge(before, (verb, c, e), weight)
      case Weighted(verb, c, e, score) => AddEdge(before, (verb, c, e), Some(score))
      case _ => before
  }

  function NotesOf(ops: seq<Op<Key>>): seq<(Triple, Note)> {
    if ops == [] then []
    else
      NotesOf(ops[..|ops| - 1])
      + match ops[|ops| - 1]
        case Evidence(verb, c, e, note) => [((verb, c, e), note)]
        case _ => []
  }

  /** Alias edges carry no weight and never override one. */
  function AddMissing(edges: map<Triple, Option<real>>, ts: set<Triple>): map<Triple, Option<real>> {
    edges + map t | t in ts && t !in edges :: None
  }

  predicate UsesOnly<R(==)>(ops: seq<Op<R>>, verbs: set<string>) {
    forall op | op in ops :: op.verb in verbs
  }

  /** `apply_record`: raises on an unknown kind or linkage type. */
  function Apply(w: World, v: View, rec: Record<Ref>): Outcome {
    if !KindsKnown(rec) then Raised
    else
      var entities := v.entities + KeysOf(rec) + AllForms(w, NamesOf(rec));
      var verbs := v.verbs + VerbsOf(rec.ops);
      var ops := Resolved(w, Own(rec, entities), rec.ops);
      if !UsesOnly(ops, verbs) then Raised
      else Ok(View(entities, verbs, Linked(AddMissing(v.edges, AllAliases(w, NamesOf(rec))), ops), v.notes + NotesOf(ops)))
  }

  /** The records one after the other. */
  function ApplyEach(w: World, v: View, recs: seq<Record<Ref>>): Outcome {
    if recs == [] then Ok(v)
    else
      match ApplyEach(w, v, recs[..|recs| - 1])
      case Raised => Raised
      case Ok(u) => Apply(w, u, recs[|recs| - 1])
  }

  function BatchNames(recs: seq<Record<Ref>>): set<string> {
    set r, n | r in recs && n in NamesOf(r) && n != "" :: n
  }

  function BatchKeys(recs: seq<Record<Ref>>): set<Key> { set r, k | r in recs && k in KeysOf(r) :: k }

  function BatchVerbs(recs: seq<Record<Ref>>): set<string> { set r, s | r in recs && s in VerbsOf(r.ops) :: s }

  function BatchOps(w: World, all: seq<Record<Ref>>, entities: set<Key>, recs: seq<Record<Ref>>): seq<Op<Key>> {
    if recs == [] then []
    else
      var last := recs[|recs| - 1];
      BatchOps(w, all, entities, recs[..|recs| - 1]) + Resolved(w, Batch(all, last, entities), last.ops)
  }

  /** `bulk_apply_records`: every entity, then every linkage type, then every op. */
  function ApplyAll(w: World, v: View, recs: seq<Record<Ref>>): Outcome {
    if recs == [] then Ok(v)
    else
      var entities := v.entities + BatchKeys(recs) + AllForms(w, BatchNames(recs));
      var verbs := v.verbs + BatchVerbs(recs);
      var ops := BatchOps(w, recs, entities, recs);
      if !UsesOnly(ops, verbs) then Raised
      else
        Ok(View(entities, verbs, Linked(AddMissing(v.edges, AllAliases(w, BatchNames(recs))), ops),
                v.notes + NotesOf(ops)))
  }

  // ----- when the two agree ------------------------------------------------------------

  function Created(w: World, rec: Record<Ref>): set<Key> { KeysOf(rec) + AllForms(w, NamesOf(rec)) }

  function AllCreated(w: World, recs: seq<Record<Ref>>): set<Key> { set r, k | r in recs && k in Created(w, r) :: k }

  /** What the records one by one resolve to. */
  function EachOps(w: World, v: View, recs: seq<Record<Ref>>): seq<Op<Key>> {
    if recs == [] then []
    else
      var last := recs[|recs| - 1];
      EachOps(w, v, recs[..|recs| - 1]) + Resolved(w, Own(last, v.entities + AllCreated(w, recs)), last.ops)
  }

  /** Each record's edges use only linkage types known by then. */
  predicate VerbsInTime(w: World, v: View, recs: seq<Record<Ref>>) {
    recs == []
    || (var last := recs[|recs| - 1];
        && VerbsInTime(w, v, recs[..|recs| - 1])
        && UsesOnly(Resolved(w, Own(last, v.entities + AllCreated(w, recs)), last.ops), v.verbs + BatchVerbs(recs)))
  }

  function AllNames(recs: seq<Record<Ref>>): set<string> { set r, n | r in recs && n in NamesOf(r) :: n }

  lemma {:induction false} LinkedSplit(edges: map<Triple, Option<real>>, a: seq<Op<Key>>, b: seq<Op<Key>>)
    ensures Linked(edges, a + b) == Linked(Linked(edges, a), b)
    ensures NotesOf(a + b) == NotesOf(a) + NotesOf(b)
  {
    if b == [] {
      assert a + b == a;
    } else {
      LinkedSplit(edges, a, b[..|b| - 1]);
      assert (a + b)[..|a + b| - 1] == a + b[..|b| - 1];
    }
  }

  // ----- edges one by one --------------------------------------------------------------

  predicate Touches(op: Op<Key>, t: Triple) { (op.Link? || op.Weighted?) && (op.verb, op.c, op.e) == t }

  function WeightOf(op: Op<Key>): Option<real> {
    if op.Link? then op.weight else if op.Weighted? then Some(op.score) else None
  }

  predicate Touched(ops: seq<Op<Key>>, t: Triple) { exists op | op in ops :: Touches(op, t) }

  /** The weight of the first op on `t`. */
  function FirstWeight(ops: seq<Op<Key>>, t: Triple): Option<real> {
    if ops == [] then None
    else if Touches(ops[0], t) then WeightOf(ops[0])
    else FirstWeight(ops[1..], t)
  }

  lemma {:induction false} FirstOfBoth(a: seq<Op<Key>>, b: seq<Op<Key>>, t: Triple)
    ensures Touched(a + b, t) <==> Touched(a, t) || Touched(b, t)
    ensures FirstWeight(a + b, t) == if Touched(a, t) then FirstWeight(a, t) else FirstWeight(b, t)
    ensures FirstWeight(a, t).Some? ==> Touched(a, t)
  {
    if a == [] {
      assert a + b == b;
    } else {
      assert (a + b)[1..] == a[1..] + b;
      FirstOfBoth(a[1..], b, t);
      assert a == [a[0]] + a[1..];
      assert Touched(a, t) <==> Touches(a[0], t) || Touched(a[1..], t);
      assert Touched(a + b, t) <==> Touches(a[0], t) || Touched(a[1..] + b, t);
    }
  }

  /** An edge there already stays; otherwise the first op on it decides. */
  lemma {:induction false} LinkedAt(edges: map<Triple, Option<real>>, ops: seq<Op<Key>>, t: Triple)
    ensures t in Linked(edges, ops) <==> t in edges || Touched(ops, t)
    ensures t in edges ==> Linked(edges, ops)[t] == edges[t]
    ensures t !in edges && Touched(ops, t) ==> Linked(edges, ops)[t] == FirstWeight(ops, t)
  {
    if ops != [] {
      var front, last := ops[..|ops| - 1], ops[|ops| - 1];
      assert ops == front + [last];
      LinkedAt(edges, front, t);
      FirstOfBoth(front, [last], t);
      assert FirstWeight([last], t) == if Touches(last, t) then WeightOf(last) else None;
      assert Touched([last], t) <==> Touches(last, t) by { assert last in [last]; }
    }
  }

  lemma MissingTwice(edges: map<Triple, Option<real>>, a: set<Triple>, b: set<Triple>)
    ensures AddMissing(AddMissing(edges, a), b) == AddMissing(edges, a + b)
  {
  }

  lemma OneMore<T>(front: seq<T>, last: T)
    ensures forall r :: r in front + [last] <==> r in front || r == last
  {
  }

  lemma CreatedOneMore(w: World, recs: seq<Record<Ref>>, last: Record<Ref>)
    ensures AllCreated(w, recs + [last]) == AllCreated(w, recs) + KeysOf(last) + AllForms(w, NamesOf(last))
  {
    OneMore(recs, last);
    assert KeysOf(last) + AllForms(w, NamesOf(last)) == Created(w, last);
    forall k ensures k in AllCreated(w, recs + [last]) <==> k in AllCreated(w, recs) || k in Created(w, last) {
      if k in Created(w, last) {
        assert last in recs + [last];
      }
    }
  }

  lemma VerbsOneMore(recs: seq<Record<Ref>>, last: Record<Ref>)
    ensures BatchVerbs(recs + [last]) == BatchVerbs(recs) + VerbsOf(last.ops)
  {
    OneMore(recs, last);
    forall k ensures k in BatchVerbs(recs + [last]) <==> k in BatchVerbs(recs) || k in VerbsOf(last.ops) {
      if k in VerbsOf(last.ops) {
        assert last in recs + [last];
      }
    }
  }

  lemma AllAre(w: World, recs: seq<Record<Ref>>, last: Record<Ref>)
    ensures AllCreated(w, recs + [last]) == AllCreated(w, recs) + KeysOf(last) + AllForms(w, NamesOf(last))
    ensures AllNames(recs + [last]) == AllNames(recs) + NamesOf(last)
    ensures BatchVerbs(recs + [last]) == BatchVerbs(recs) + VerbsOf(last.ops)
  {
    CreatedOneMore(w, recs, last);
    VerbsOneMore(recs, last);
    OneMore(recs, last);
    forall k ensures k in AllNames(recs + [last]) <==> k in AllNames(recs) || k in NamesOf(last) {
      if k in NamesOf(last) {
        assert last in recs + [last];
      }
    }
  }

  lemma AliasesOfBoth(w: World, a: set<string>, b: set<string>)
    ensures AllAliases(w, a + b) == AllAliases(w, a) + AllAliases(w, b)
    ensures forall t | t in AllAliases(w, a) :: t.0 == SAME_AS
  {
  }

  /** The edges one record after the other leaves. */
  function EachGraph(w: World, v: View, recs: seq<Record<Ref>>): map<Triple, Option<real>> {
    if recs == [] then v.edges
    else
      var last := recs[|recs| - 1];
      Linked(AddMissing(EachGraph(w, v, recs[..|recs| - 1]), AllAliases(w, NamesOf(last))),
             Resolved(w, Own(last, v.entities + AllCreated(w, recs)), last.ops))
  }

  /** What one record after the other comes to. */
  function EachView(w: World, v: View, recs: seq<Record<Ref>>): View {
    View(v.entities + AllCreated(w, recs), v.verbs + BatchVerbs(recs), EachGraph(w, v, recs),
         v.notes + NotesOf(EachOps(w, v, recs)))
  }

  lemma EachStep(w: World, v: View, front: seq<Record<Ref>>, last: Record<Ref>)
    requires KindsKnown(last)
    ensures (var ops := Resolved(w, Own(last, v.entities + AllCreated(w, front + [last])), last.ops);
             Apply(w, EachView(w, v, front), last)
             == if UsesOnly(ops, v.verbs + BatchVerbs(front + [last])) then Ok(EachView(w, v, front + [last])) else Raised)
  {
    AllAre(w, front, last);
    var u := EachView(w, v, front);
    assert u.entities + KeysOf(last) + AllForms(w, NamesOf(last)) == v.entities + AllCreated(w, front + [last]);
    assert u.verbs + VerbsOf(last.ops) == v.verbs + BatchVerbs(front + [last]);
    var ops := Resolved(w, Own(last, v.entities + AllCreated(w, front + [last])), last.ops);
    assert (front + [last])[..|front|] == front;
    EachNext(w, v, front, last, ops);
  }

  lemma EachNext(w: World, v: View, front: seq<Record<Ref>>, last: Record<Ref>, ops: seq<Op<Key>>)
    requires ops == Resolved(w, Own(last, v.entities + AllCreated(w, front + [last])), last.ops)
    ensures EachOps(w, v, front + [last]) == EachOps(w, v, front) + ops
    ensures v.notes + NotesOf(EachOps(w, v, front + [last])) == v.notes + NotesOf(EachOps(w, v, front)) + NotesOf(ops)
  {
    assert (front + [last])[..|front|] == front;
    NotesOfBoth(v.notes, EachOps(w, v, front), ops);
  }

  lemma NotesOfBoth(notes: seq<(Triple, Note)>, a: seq<Op<Key>>, b: seq<Op<Key>>)
    ensures notes + NotesOf(a + b) == notes + NotesOf(a) + NotesOf(b)
  {
    LinkedSplit(map[], a, b);
  }

  /** One record after the other: what it comes to, and exactly when it raises. */
  lemma {:induction false} EachIs(w: World, v: View, recs: seq<Record<Ref>>)
    ensures ApplyEach(w, v, recs)
      == if (forall r | r in recs :: KindsKnown(r)) && VerbsInTime(w, v, recs) then Ok(EachView(w, v, recs)) else Raised
  {
    if recs != [] {
      var front, last := recs[..|recs| - 1], recs[|recs| - 1];
      assert recs == front + [last];
      EachIs(w, v, front);
      if (forall r | r in front :: KindsKnown(r)) && VerbsInTime(w, v, front) && KindsKnown(last) {
        EachStep(w, v, front, last);
      }
    }
  }

  // ----- weights given to alias edges --------------------------------------------------

  predicate AliasOf(w: World, recs: seq<Record<Ref>>, t: Triple) { t in AllAliases(w, AllNames(recs)) }

  /** The first `n` records give `t` a weight first, and make no such alias. */
  predicate EarlyAt(w: World, v: View, recs: seq<Record<Ref>>, t: Triple, n: nat)
    requires n <= |recs|
  {
    !AliasOf(w, recs[..n], t) && FirstWeight(EachOps(w, v, recs[..n]), t).Some?
  }

  /** An op gives `t` a weight before any record makes the alias `t`. */
  predicate Early(w: World, v: View, recs: seq<Record<Ref>>, t: Triple) {
    exists n | 0 <= n <= |recs| :: EarlyAt(w, v, recs, t, n)
  }

  /** No op gives a weight to an alias edge that the store lacks and only a later record makes. */
  ghost predicate NoneEarly(w: World, v: View, recs: seq<Record<Ref>>) {
    forall t | AliasOf(w, recs, t) && t !in v.edges :: !Early(w, v, recs, t)
  }

  lemma EarlyOneMore(w: World, v: View, front: seq<Record<Ref>>, last: Record<Ref>, t: Triple)
    ensures Early(w, v, front + [last], t)
      <==> Early(w, v, front, t) || EarlyAt(w, v, front + [last], t, |front| + 1)
  {
    var all := front + [last];
    assert all[..|front| + 1] == all;
    forall n | 0 <= n <= |front| ensures EarlyAt(w, v, all, t, n) <==> EarlyAt(w, v, front, t, n) {
      assert all[..n] == front[..n];
    }
    if Early(w, v, all, t) {
      var n :| 0 <= n <= |all| && EarlyAt(w, v, all, t, n);
      assert n <= |front| ==> EarlyAt(w, v, front, t, n);
    }
    if Early(w, v, front, t) {
      var n :| 0 <= n <= |front| && EarlyAt(w, v, front, t, n);
      assert EarlyAt(w, v, all, t, n);
    }
  }

  /** What has been given a weight early was linked by then. */
  lemma {:induction false} EarlyIsTouched(w: World, v: View, recs: seq<Record<Ref>>, t: Triple)
    ensures Early(w, v, recs, t) ==> Touched(EachOps(w, v, recs), t)
  {
    if recs == [] {
      assert forall n | 0 <= n <= |recs| :: recs[..n] == [];
    } else {
      var front, last := recs[..|recs| - 1], recs[|recs| - 1];
      assert recs == front + [last];
      EarlyIsTouched(w, v, front, t);
      EarlyOneMore(w, v, front, last, t);
      var ops := Resolved(w, Own(last, v.entities + AllCreated(w, recs)), last.ops);
      FirstOfBoth(EachOps(w, v, front), ops, t);
      FirstOfBoth(EachOps(w, v, recs), [], t);
      assert recs[..|recs|] == recs;
    }
  }

  /** What one record adds at `t`, by whether `t` was an alias or linked before. */
  lemma EachAtStep(w: World, v: View, front: seq<Record<Ref>>, last: Record<Ref>, t: Triple)
    returns (alias: bool, ops: seq<Op<Key>>, before: seq<Op<Key>>)
    ensures alias == (t in AllAliases(w, NamesOf(last)))
    ensures AliasOf(w, front + [last], t) <==> AliasOf(w, front, t) || alias
    ensures before == EachOps(w, v, front) && EachOps(w, v, front + [last]) == before + ops
    ensures EachGraph(w, v, front + [last]) == Linked(AddMissing(EachGraph(w, v, front), AllAliases(w, NamesOf(last))), ops)
    ensures EarlyAt(w, v, front + [last], t, |front| + 1)
      <==> !AliasOf(w, front + [last], t) && FirstWeight(before + ops, t).Some?
  {
    alias := t in AllAliases(w, NamesOf(last));
    ops := Resolved(w, Own(last, v.entities + AllCreated(w, front + [last])), last.ops);
    before := EachOps(w, v, front);
    AllAre(w, front, last);
    AliasesOfBoth(w, AllNames(front), NamesOf(last));
    assert (front + [last])[..|front|] == front && (front + [last])[..|front| + 1] == front + [last];
  }

  lemma {:induction false} EachAt(w: World, v: View, recs: seq<Record<Ref>>, t: Triple)
    requires t !in v.edges
    ensures t in EachGraph(w, v, recs) <==> AliasOf(w, recs, t) || Touched(EachOps(w, v, recs), t)
    ensures t in EachGraph(w, v, recs) ==> (EachGraph(w, v, recs)[t].Some? <==> Early(w, v, recs, t))
    ensures t in EachGraph(w, v, recs) && !AliasOf(w, recs, t) ==> EachGraph(w, v, recs)[t] == FirstWeight(EachOps(w, v, recs), t)
  {
    if recs == [] {
      assert AllNames(recs) == {};
    } else {
      var front, last := recs[..|recs| - 1], recs[|recs| - 1];
      assert recs == front + [last];
      EachAt(w, v, front, t);
      EarlyIsTouched(w, v, front, t);
      EarlyOneMore(w, v, front, last, t);
      var alias, ops, before := EachAtStep(w, v, front, last, t);
      FirstOfBoth(before, ops, t);
      FirstOfBoth(ops, [], t);
      LinkedAt(AddMissing(EachGraph(w, v, front), AllAliases(w, NamesOf(last))), ops, t);
    }
  }

  lemma {:induction false} EachKeeps(w: World, v: View, recs: seq<Record<Ref>>, t: Triple)
    requires t in v.edges
    ensures t in EachGraph(w, v, recs) && EachGraph(w, v, recs)[t] == v.edges[t]
  {
    if recs != [] {
      var front, last := recs[..|recs| - 1], recs[|recs| - 1];
      EachKeeps(w, v, front, t);
      LinkedAt(AddMissing(EachGraph(w, v, front), AllAliases(w, NamesOf(last))),
               Resolved(w, Own(last, v.entities + AllCreated(w, recs)), last.ops), t);
    }
  }

  // ----- the batch ---------------------------------------------------------------------

  /** What the batch creates first: everything but concepts with an empty name. */
  function BatchEntities(w: World, v: View, recs: seq<Record<Ref>>): set<Key> {
    v.entities + BatchKeys(recs) + AllForms(w, BatchNames(recs))
  }

  function OwnScope(w: World, v: View, recs: seq<Record<Ref>>, i: nat): Scope
    requires i < |recs|
  {
    Own(recs[i], v.entities + AllCreated(w, recs[..i + 1]))
  }

  function BatchScope(w: World, v: View, recs: seq<Record<Ref>>, i: nat): Scope
    requires i < |recs|
  {
    Batch(recs, recs[i], BatchEntities(w, v, recs))
  }

  /** A candidate that is in one of the sets only stands behind one that is in both. */
  ghost predicate SameFirst(a: set<Key>, b: set<Key>, candidates: seq<Key>) {
    forall j | 0 <= j < |candidates| && (candidates[j] in a) != (candidates[j] in b) :: Before(a, b, candidates, j)
  }

  ghost predicate Before(a: set<Key>, b: set<Key>, candidates: seq<Key>, j: nat)
    requires j <= |candidates|
  {
    exists i | 0 <= i < j :: candidates[i] in a && candidates[i] in b
  }

  lemma SameFirstTail(a: set<Key>, b: set<Key>, candidates: seq<Key>)
    requires candidates != [] && candidates[0] !in a && candidates[0] !in b
    ensures SameFirst(a, b, candidates) <==> SameFirst(a, b, candidates[1..])
  {
    var rest := candidates[1..];
    forall j | 0 <= j < |rest| ensures Before(a, b, rest, j) <==> Before(a, b, candidates, j + 1) {
      if Before(a, b, candidates, j + 1) {
        var i :| 0 <= i < j + 1 && candidates[i] in a && candidates[i] in b;
        assert rest[i - 1] == candidates[i];
      }
      if Before(a, b, rest, j) {
        var i :| 0 <= i < j && rest[i] in a && rest[i] in b;
        assert candidates[i + 1] == rest[i];
      }
    }
    if SameFirst(a, b, candidates) {
      forall j | 0 <= j < |rest| && (rest[j] in a) != (rest[j] in b) ensures Before(a, b, rest, j) {
        assert candidates[j + 1] == rest[j];
      }
    }
    if SameFirst(a, b, rest) {
      forall j | 0 <= j < |candidates| && (candidates[j] in a) != (candidates[j] in b) ensures Before(a, b, candidates, j) {
        assert rest[j - 1] == candidates[j];
      }
    }
  }

  /** Two sets of entities answer a lookup alike exactly when no candidate of one alone comes first. */
  lemma {:induction false} FirstHitIff(a: set<Key>, b: set<Key>, candidates: seq<Key>)
    ensures FirstHit(a, candidates) == FirstHit(b, candidates) <==> SameFirst(a, b, candidates)
  {
    if candidates != [] {
      var k := candidates[0];
      if k !in a && k !in b {
        FirstHitIff(a, b, candidates[1..]);
        SameFirstTail(a, b, candidates);
      } else if k in a && k in b {
        forall j | 0 <= j < |candidates| && (candidates[j] in a) != (candidates[j] in b) ensures Before(a, b, candidates, j) {
        }
      } else {
        FirstHitIsLater(a, b, candidates);
        assert !Before(a, b, candidates, 0);
      }
    }
  }

  lemma {:induction false} FirstHitIsIn(a: set<Key>, candidates: seq<Key>)
    ensures FirstHit(a, candidates).Some? ==> FirstHit(a, candidates).value in a
  {
    if candidates != [] {
      FirstHitIsIn(a, candidates[1..]);
    }
  }

  /** When the first candidate is in one set only, the other set finds another key. */
  lemma FirstHitIsLater(a: set<Key>, b: set<Key>, candidates: seq<Key>)
    requires candidates != [] && (candidates[0] in a) != (candidates[0] in b)
    ensures FirstHit(a, candidates) != FirstHit(b, candidates)
  {
    FirstHitIsIn(a, candidates);
    FirstHitIsIn(b, candidates);
  }

  /** A ref of record `i` is registered in the batch exactly when it is in its own record, and a lookup
    * finds no other candidate first. */
  ghost predicate Alike(w: World, v: View, recs: seq<Record<Ref>>, i: nat, ref: Ref)
    requires i < |recs|
  {
    var own, batch := OwnScope(w, v, recs, i), BatchScope(w, v, recs, i);
    match ref
    case Sub(key) => HasSub(own, key) <==> HasSub(batch, key)
    case Concept(name) => HasConcept(own, name) <==> HasConcept(batch, name)
    case NsConcept(ns, name) => HasNsConcept(own, ns, name) <==> HasNsConcept(batch, ns, name)
    case Bound(sym) =>
      Candidates(recs[i].lookups, sym).Some? ==>
        SameFirst(own.entities, batch.entities, Candidates(recs[i].lookups, sym).value)
    case _ => true
  }

  /** A ref finds the same key either way exactly then. */
  lemma ResolveIff(w: World, v: View, recs: seq<Record<Ref>>, i: nat, ref: Ref)
    requires i < |recs|
    ensures Resolve(w, OwnScope(w, v, recs, i), ref) == Resolve(w, BatchScope(w, v, recs, i), ref)
      <==> Alike(w, v, recs, i, ref)
  {
    if ref.Bound? && Candidates(recs[i].lookups, ref.sym).Some? {
      FirstHitIff(OwnScope(w, v, recs, i).entities, BatchScope(w, v, recs, i).entities,
                  Candidates(recs[i].lookups, ref.sym).value);
    }
  }

  predicate BothEnds(w: World, scope: Scope, op: Op<Ref>)
    requires !op.AddVerb?
  {
    Resolve(w, scope, op.c).Some? && Resolve(w, scope, op.e).Some?
  }

  /** Both ends find the same either way, or an end is missing either way. */
  ghost predicate OpAlike(w: World, v: View, recs: seq<Record<Ref>>, i: nat, op: Op<Ref>)
    requires i < |recs|
  {
    || op.AddVerb?
    || (Alike(w, v, recs, i, op.c) && Alike(w, v, recs, i, op.e))
    || (!BothEnds(w, OwnScope(w, v, recs, i), op) && !BothEnds(w, BatchScope(w, v, recs, i), op))
  }

  lemma ResolveOpIff(w: World, v: View, recs: seq<Record<Ref>>, i: nat, op: Op<Ref>)
    requires i < |recs|
    ensures ResolveOp(w, OwnScope(w, v, recs, i), op) == ResolveOp(w, BatchScope(w, v, recs, i), op)
      <==> OpAlike(w, v, recs, i, op)
  {
    if !op.AddVerb? {
      ResolveIff(w, v, recs, i, op.c);
      ResolveIff(w, v, recs, i, op.e);
      ResolveOpAs(w, OwnScope(w, v, recs, i), BatchScope(w, v, recs, i), op);
    }
  }

  lemma ResolveOpAs(w: World, a: Scope, b: Scope, op: Op<Ref>)
    requires !op.AddVerb?
    ensures ResolveOp(w, a, op) == ResolveOp(w, b, op)
      <==> (Resolve(w, a, op.c) == Resolve(w, b, op.c) && Resolve(w, a, op.e) == Resolve(w, b, op.e))
           || (!BothEnds(w, a, op) && !BothEnds(w, b, op))
  {
    var p, q := ResolveOp(w, a, op), ResolveOp(w, b, op);
    assert p == q && p != [] ==> p[0] == q[0];
  }

  /** Every op of every record does the same either way. */
  ghost predicate AllAlike(w: World, v: View, recs: seq<Record<Ref>>) {
    forall i, op | 0 <= i < |recs| && op in recs[i].ops :: OpAlike(w, v, recs, i, op)
  }

  predicate NoEmptyNames(recs: seq<Record<Ref>>) { forall r | r in recs :: "" !in r.concepts }

  lemma BatchNamesAll(recs: seq<Record<Ref>>)
    requires NoEmptyNames(recs)
    ensures BatchNames(recs) == AllNames(recs)
  {
    forall r, n | r in recs && n in NamesOf(r) ensures n != "" {
      assert n in r.concepts || exists p :: p in r.nsConcepts && n == Full(p.0, p.1);
    }
  }

  lemma BatchCreates(w: World, v: View, recs: seq<Record<Ref>>)
    requires NoEmptyNames(recs)
    ensures BatchEntities(w, v, recs) == v.entities + AllCreated(w, recs)
  {
    BatchNamesAll(recs);
    FormsAreCreated(w, recs);
  }

  /** What an empty concept name costs the batch: nothing exactly when its forms are there anyway. */
  lemma CreatedIff(w: World, v: View, recs: seq<Record<Ref>>)
    ensures v.entities + AllCreated(w, recs) == BatchEntities(w, v, recs)
      <==> NoEmptyNames(recs) || Forms(w, "") <= BatchEntities(w, v, recs)
  {
    FormsAreCreated(w, recs);
    if NoEmptyNames(recs) {
      BatchNamesAll(recs);
    } else {
      OnlyEmptyIsSkipped(recs);
      AllFormsWith(w, BatchNames(recs), "");
    }
  }

  lemma OnlyEmptyIsSkipped(recs: seq<Record<Ref>>)
    requires !NoEmptyNames(recs)
    ensures AllNames(recs) == BatchNames(recs) + {""}
  {
    var r :| r in recs && "" in r.concepts;
    assert "" in NamesOf(r);
  }

  lemma AllFormsWith(w: World, names: set<string>, name: string)
    ensures AllForms(w, names + {name}) == AllForms(w, names) + Forms(w, name)
  {
  }

  /** Without empty names the batch resolves whatever a record resolves on its own. */
  lemma OwnIsFound(w: World, v: View, recs: seq<Record<Ref>>, i: nat, ref: Ref)
    requires i < |recs| && NoEmptyNames(recs)
    ensures Resolve(w, OwnScope(w, v, recs, i), ref).Some? ==> Resolve(w, BatchScope(w, v, recs, i), ref).Some?
  {
    assert recs[i] in recs;
    BatchCreates(w, v, recs);
    match ref
    case NsConcept(ns, name) =>
      if (ns, name) in recs[i].nsConcepts {
        var p := (ns, name);
        assert Full(p.0, p.1) == Full(ns, name);
      }
    case Bound(sym) =>
      if Candidates(recs[i].lookups, sym).Some? {
        assert forall r | r in recs[..i + 1] :: r in recs;
        MoreIsFound(OwnScope(w, v, recs, i).entities, BatchEntities(w, v, recs), Candidates(recs[i].lookups, sym).value);
      }
    case _ =>
  }

  lemma {:induction false} MoreIsFound(a: set<Key>, b: set<Key>, candidates: seq<Key>)
    requires a <= b
    ensures FirstHit(a, candidates).Some? ==> FirstHit(b, candidates).Some?
  {
    if candidates != [] {
      MoreIsFound(a, b, candidates[1..]);
    }
  }

  lemma OwnIsNoLonger(w: World, v: View, recs: seq<Record<Ref>>, i: nat, op: Op<Ref>)
    requires i < |recs| && NoEmptyNames(recs)
    ensures |ResolveOp(w, OwnScope(w, v, recs, i), op)| <= |ResolveOp(w, BatchScope(w, v, recs, i), op)|
  {
    if !op.AddVerb? {
      OwnIsFound(w, v, recs, i, op.c);
      OwnIsFound(w, v, recs, i, op.e);
    }
  }

  /** Parts that are no longer on one side: equal wholes have equal parts. */
  lemma EqualParts<T>(a: seq<T>, b: seq<T>, c: seq<T>, d: seq<T>)
    requires |a| <= |c| && |b| <= |d|
    ensures a + b == c + d <==> a == c && b == d
  {
    if a + b == c + d {
      assert |a| == |c| && a == (a + b)[..|a|] == (c + d)[..|c|] == c;
      assert b == (a + b)[|a|..] == (c + d)[|c|..] == d;
    }
  }

  lemma {:induction false} RecordIff(w: World, v: View, recs: seq<Record<Ref>>, i: nat, ops: seq<Op<Ref>>)
    requires i < |recs| && NoEmptyNames(recs)
    ensures |Resolved(w, OwnScope(w, v, recs, i), ops)| <= |Resolved(w, BatchScope(w, v, recs, i), ops)|
    ensures Resolved(w, OwnScope(w, v, recs, i), ops) == Resolved(w, BatchScope(w, v, recs, i), ops)
      <==> forall op | op in ops :: OpAlike(w, v, recs, i, op)
  {
    if ops != [] {
      var front, last := ops[..|ops| - 1], ops[|ops| - 1];
      assert forall op :: op in ops <==> op in front || op == last;
      RecordIff(w, v, recs, i, front);
      OwnIsNoLonger(w, v, recs, i, last);
      ResolveOpIff(w, v, recs, i, last);
      EqualParts(Resolved(w, OwnScope(w, v, recs, i), front), ResolveOp(w, OwnScope(w, v, recs, i), last),
                 Resolved(w, BatchScope(w, v, recs, i), front), ResolveOp(w, BatchScope(w, v, recs, i), last));
    }
  }

  ghost predicate FirstAlike(w: World, v: View, recs: seq<Record<Ref>>, n: nat)
    requires n <= |recs|
  {
    forall i, op | 0 <= i < n && op in recs[i].ops :: OpAlike(w, v, recs, i, op)
  }

  lemma {:induction false} PrefixIff(w: World, v: View, recs: seq<Record<Ref>>, n: nat)
    requires n <= |recs| && NoEmptyNames(recs)
    ensures |EachOps(w, v, recs[..n])| <= |BatchOps(w, recs, BatchEntities(w, v, recs), recs[..n])|
    ensures EachOps(w, v, recs[..n]) == BatchOps(w, recs, BatchEntities(w, v, recs), recs[..n])
      <==> FirstAlike(w, v, recs, n)
  {
    if n > 0 {
      var i, all := n - 1, BatchEntities(w, v, recs);
      PrefixIff(w, v, recs, i);
      RecordIff(w, v, recs, i, recs[i].ops);
      assert recs[..n][..i] == recs[..i] && recs[..n] == recs[..i + 1];
      EqualParts(EachOps(w, v, recs[..i]), Resolved(w, OwnScope(w, v, recs, i), recs[i].ops),
                 BatchOps(w, recs, all, recs[..i]), Resolved(w, BatchScope(w, v, recs, i), recs[i].ops));
      OneMoreAlike(w, v, recs, i);
    }
  }

  lemma OneMoreAlike(w: World, v: View, recs: seq<Record<Ref>>, i: nat)
    requires i < |recs|
    ensures FirstAlike(w, v, recs, i + 1)
      <==> FirstAlike(w, v, recs, i) && forall op | op in recs[i].ops :: OpAlike(w, v, recs, i, op)
  {
  }

  /** The batch performs the ops that are performed one by one exactly when every op is alike. */
  lemma OpsIff(w: World, v: View, recs: seq<Record<Ref>>)
    requires NoEmptyNames(recs)
    ensures EachOps(w, v, recs) == BatchOps(w, recs, BatchEntities(w, v, recs), recs) <==> AllAlike(w, v, recs)
  {
    PrefixIff(w, v, recs, |recs|);
    assert recs[..|recs|] == recs;
  }

  lemma FormsAreCreated(w: World, recs: seq<Record<Ref>>)
    ensures BatchKeys(recs) + AllForms(w, AllNames(recs)) == AllCreated(w, recs)
  {
    forall k ensures k in BatchKeys(recs) + AllForms(w, AllNames(recs)) <==> k in AllCreated(w, recs) {
      if k in AllForms(w, AllNames(recs)) {
        var n :| n in AllNames(recs) && k in Forms(w, n);
        var r :| r in recs && n in NamesOf(r);
        assert k in AllForms(w, NamesOf(r)) && k in Created(w, r);
      }
      if k in BatchKeys(recs) {
        var r :| r in recs && k in KeysOf(r);
        assert k in Created(w, r);
      }
      if k in AllCreated(w, recs) {
        var r :| r in recs && k in Created(w, r);
        if k !in KeysOf(r) {
          var n :| n in NamesOf(r) && k in Forms(w, n);
          assert n in AllNames(recs);
        }
      }
    }
  }

  lemma {:induction false} InTimeIsKnown(w: World, v: View, recs: seq<Record<Ref>>)
    requires VerbsInTime(w, v, recs)
    ensures UsesOnly(EachOps(w, v, recs), v.verbs + BatchVerbs(recs))
  {
    if recs != [] {
      var front, last := recs[..|recs| - 1], recs[|recs| - 1];
      assert recs == front + [last];
      InTimeIsKnown(w, v, front);
      AllAre(w, front, last);
    }
  }

  /** Every alias first, then every op. */
  function BatchGraph(w: World, v: View, recs: seq<Record<Ref>>): map<Triple, Option<real>> {
    Linked(AddMissing(v.edges, AllAliases(w, AllNames(recs))), EachOps(w, v, recs))
  }

  /** At one edge the two graphs agree unless an alias edge was given a weight early. */
  lemma GraphsAt(w: World, v: View, recs: seq<Record<Ref>>, t: Triple)
    ensures t in BatchGraph(w, v, recs) <==> t in EachGraph(w, v, recs)
    ensures t in BatchGraph(w, v, recs) ==>
      (BatchGraph(w, v, recs)[t] == EachGraph(w, v, recs)[t]
       <==> t in v.edges || !AliasOf(w, recs, t) || !Early(w, v, recs, t))
  {
    LinkedAt(AddMissing(v.edges, AllAliases(w, AllNames(recs))), EachOps(w, v, recs), t);
    if t in v.edges {
      EachKeeps(w, v, recs, t);
    } else {
      EachAt(w, v, recs, t);
    }
  }

  lemma GraphsIff(w: World, v: View, recs: seq<Record<Ref>>)
    ensures BatchGraph(w, v, recs).Keys == EachGraph(w, v, recs).Keys
    ensures BatchGraph(w, v, recs) == EachGraph(w, v, recs) <==> NoneEarly(w, v, recs)
  {
    forall t ensures t in BatchGraph(w, v, recs) <==> t in EachGraph(w, v, recs) {
      GraphsAt(w, v, recs, t);
    }
    if NoneEarly(w, v, recs) {
      forall t | t in BatchGraph(w, v, recs) ensures BatchGraph(w, v, recs)[t] == EachGraph(w, v, recs)[t] {
        GraphsAt(w, v, recs, t);
      }
    } else {
      var t :| AliasOf(w, recs, t) && t !in v.edges && Early(w, v, recs, t);
      GraphsAt(w, v, recs, t);
      EachAt(w, v, recs, t);
    }
  }

  /** Same entities, linkage types, edges and evidence. */
  predicate SameButWeights(a: View, b: View) {
    a.entities == b.entities && a.verbs == b.verbs && a.edges.Keys == b.edges.Keys && a.notes == b.notes
  }

  /** One by one succeeds exactly when every kind is known and every linkage type is registered in
    * time. The batch performs the same ops exactly when they are all alike. Then it raises only for
    * a linkage type registered nowhere, and where one by one succeeds it builds the same graph but for
    * weights, and the same weights if and only if no alias edge was given a weight early. */
  lemma BulkIsSequential(w: World, v: View, recs: seq<Record<Ref>>)
    requires NoEmptyNames(recs)
    ensures ApplyEach(w, v, recs).Ok? <==> (forall r | r in recs :: KindsKnown(r)) && VerbsInTime(w, v, recs)
    ensures EachOps(w, v, recs) == BatchOps(w, recs, BatchEntities(w, v, recs), recs) <==> AllAlike(w, v, recs)
    ensures AllAlike(w, v, recs) ==>
      && (ApplyAll(w, v, recs).Ok? <==> UsesOnly(EachOps(w, v, recs), v.verbs + BatchVerbs(recs)))
      && (ApplyEach(w, v, recs).Ok? ==>
            && ApplyAll(w, v, recs).Ok? && SameButWeights(ApplyAll(w, v, recs).view, ApplyEach(w, v, recs).view)
            && (ApplyAll(w, v, recs) == ApplyEach(w, v, recs) <==> NoneEarly(w, v, recs)))
  {
    EachIs(w, v, recs);
    OpsIff(w, v, recs);
    GraphsIff(w, v, recs);
    if AllAlike(w, v, recs) {
      BatchIs(w, v, recs);
    }
    if VerbsInTime(w, v, recs) {
      InTimeIsKnown(w, v, recs);
    }
  }

  lemma BatchIs(w: World, v: View, recs: seq<Record<Ref>>)
    requires NoEmptyNames(recs) && AllAlike(w, v, recs)
    ensures ApplyAll(w, v, recs)
      == if UsesOnly(EachOps(w, v, recs), v.verbs + BatchVerbs(recs))
         then Ok(EachView(w, v, recs).(edges := BatchGraph(w, v, recs))) else Raised
  {
    if recs == [] {
      assert AllNames(recs) == {} && AddMissing(v.edges, AllAliases(w, {})) == v.edges;
    } else {
      OpsIff(w, v, recs);
      BatchCreates(w, v, recs);
      BatchNamesAll(recs);
    }
  }

  // ----- empty names -------------------------------------------------------------------

  lemma {:induction false} RecordAlike(w: World, v: View, recs: seq<Record<Ref>>, i: nat, ops: seq<Op<Ref>>)
    requires i < |recs| && forall op | op in ops :: OpAlike(w, v, recs, i, op)
    ensures Resolved(w, OwnScope(w, v, recs, i), ops) == Resolved(w, BatchScope(w, v, recs, i), ops)
  {
    if ops != [] {
      RecordAlike(w, v, recs, i, ops[..|ops| - 1]);
      ResolveOpIff(w, v, recs, i, ops[|ops| - 1]);
    }
  }

  /** Alike, the ops are the same whatever the names. */
  lemma {:induction false} AlikeOps(w: World, v: View, recs: seq<Record<Ref>>, n: nat)
    requires n <= |recs| && AllAlike(w, v, recs)
    ensures EachOps(w, v, recs[..n]) == BatchOps(w, recs, BatchEntities(w, v, recs), recs[..n])
  {
    if n > 0 {
      AlikeOps(w, v, recs, n - 1);
      RecordAlike(w, v, recs, n - 1, recs[n - 1].ops);
      assert recs[..n][..n - 1] == recs[..n - 1];
    }
  }

  lemma NamesButEmpty(w: World, recs: seq<Record<Ref>>)
    ensures AllAliases(w, AllNames(recs))
      == AllAliases(w, BatchNames(recs)) + if NoEmptyNames(recs) then {} else Aliases(w, "")
  {
    if NoEmptyNames(recs) {
      BatchNamesAll(recs);
    } else {
      OnlyEmptyIsSkipped(recs);
      AliasesOfBoth(w, BatchNames(recs), {""});
      assert AllAliases(w, {""}) == Aliases(w, "");
    }
  }

  /** No name is empty, or all that the empty name would create is there anyway. */
  predicate EmptyIsFree(w: World, v: View, recs: seq<Record<Ref>>) {
    || NoEmptyNames(recs)
    || (&& Forms(w, "") <= BatchEntities(w, v, recs)
        && forall t | t in Aliases(w, "") ::
             t in v.edges || t in AllAliases(w, BatchNames(recs)) || Touched(EachOps(w, v, recs), t))
  }

  /** The edges of the batch, for any names, against those of the records one by one. */
  lemma EdgesIff(w: World, v: View, recs: seq<Record<Ref>>)
    ensures Linked(AddMissing(v.edges, AllAliases(w, BatchNames(recs))), EachOps(w, v, recs)).Keys
              == EachGraph(w, v, recs).Keys
      <==> NoEmptyNames(recs) || forall t | t in Aliases(w, "") ::
             t in v.edges || t in AllAliases(w, BatchNames(recs)) || Touched(EachOps(w, v, recs), t)
  {
    var ops, names := EachOps(w, v, recs), BatchNames(recs);
    var batch := Linked(AddMissing(v.edges, AllAliases(w, names)), ops);
    NamesButEmpty(w, recs);
    forall t
      ensures t in batch <==> t in v.edges || t in AllAliases(w, names) || Touched(ops, t)
      ensures t in EachGraph(w, v, recs) <==> t in batch || (!NoEmptyNames(recs) && t in Aliases(w, ""))
    {
      LinkedAt(AddMissing(v.edges, AllAliases(w, names)), ops, t);
      if t in v.edges {
        EachKeeps(w, v, recs, t);
      } else {
        EachAt(w, v, recs, t);
      }
    }
  }

  /** Where one by one succeeds and the ops are alike, the batch succeeds, and builds the same graph but
    * for weights if and only if an empty name would create nothing that is not there anyway. */
  lemma EmptyNameIff(w: World, v: View, recs: seq<Record<Ref>>)
    requires AllAlike(w, v, recs) && ApplyEach(w, v, recs).Ok?
    ensures ApplyAll(w, v, recs).Ok?
    ensures SameButWeights(ApplyAll(w, v, recs).view, ApplyEach(w, v, recs).view) <==> EmptyIsFree(w, v, recs)
  {
    EachIs(w, v, recs);
    InTimeIsKnown(w, v, recs);
    AlikeOps(w, v, recs, |recs|);
    assert recs[..|recs|] == recs;
    EdgesIff(w, v, recs);
    CreatedIff(w, v, recs);
    if recs == [] {
      assert ApplyAll(w, v, recs) == ApplyEach(w, v, recs);
    }
  }
}
