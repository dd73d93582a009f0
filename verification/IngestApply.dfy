/** `apply_record` and `bulk_apply_records` on a store with ids, against their meaning by names. */
module IngestApply {
  import opened Options
  import opened IngestRefs
  import opened IngestGraph
  import opened IngestRecorder
  import opened IngestStore

  // ----- ids and the keys they stand for -----------------------------------------------

  ghost predicate IsIn(names: seq<Key>, id: nat, k: Key) { id < |names| && names[id] == k }

  ghost predicate SameId(names: seq<Key>, id: Option<nat>, k: Option<Key>) {
    if id.None? then k.None? else k.Some? && IsIn(names, id.value, k.value)
  }

  function Got<K, V>(m: map<K, V>, k: K): Option<V> { if k in m then Some(m[k]) else None }

  ghost predicate SubsOk(names: seq<Key>, subs: map<Key, nat>, keys: set<Key>) {
    subs.Keys == keys && forall k | k in subs :: IsIn(names, subs[k], k)
  }

  ghost predicate ConceptsOk(names: seq<Key>, w: World, concepts: map<string, nat>, list: set<string>) {
    concepts.Keys == list && forall n | n in concepts :: IsIn(names, concepts[n], ConceptKey(w, n))
  }

  ghost predicate NsOk(names: seq<Key>, w: World, ns: map<(string, string), nat>, list: set<(string, string)>) {
    ns.Keys == list && forall p | p in ns :: IsIn(names, ns[p], ConceptKey(w, Full(p.0, p.1)))
  }

  ghost predicate AdrOk(names: seq<Key>, w: World, adr: map<string, nat>) {
    adr.Keys == w.adr.Keys && forall n | n in adr :: IsIn(names, adr[n], w.adr[n])
  }

  function RefId(refs: map<string, Option<nat>>, sym: string): Option<nat> { if sym in refs then refs[sym] else None }

  ghost predicate RefsOk(names: seq<Key>, refs: map<string, Option<nat>>, lookups: seq<(string, seq<Key>)>, entities: set<Key>) {
    forall sym :: SameId(names, RefId(refs, sym), Lookup(lookups, entities, sym))
  }

  /** The two `_resolve` closures. */
  datatype Finder =
    | OwnIds(doc: nat, subs: map<Key, nat>, concepts: map<string, nat>, ns: map<(string, string), nat>,
             adr: map<string, nat>, refs: map<string, Option<nat>>)
    | BatchIds(doc: nat, subs: map<Key, nat>, concepts: map<string, nat>, fullNames: map<string, nat>,
               adr: map<string, nat>, refs: map<string, Option<nat>>)

  function FindId(f: Finder, ref: Ref): Option<nat> {
    match ref
    case Doc => Some(f.doc)
    case Sub(key) => Got(f.subs, key)
    case Concept(name) => Got(f.concepts, name)
    case NsConcept(ns, name) => if f.OwnIds? then Got(f.ns, (ns, name)) else Got(f.fullNames, Full(ns, name))
    case Adr(num) => Got(f.adr, num)
    case Bound(sym) => RefId(f.refs, sym)
    case Unknown => None
  }

  /** The closure finds the id of what the ref means. */
  ghost predicate FinderOk(names: seq<Key>, w: World, scope: Scope, f: Finder) {
    forall ref :: SameId(names, FindId(f, ref), Resolve(w, scope, ref))
  }

  lemma OwnFinderOk(names: seq<Key>, w: World, rec: Record<Ref>, entities: set<Key>, f: Finder)
    requires f.OwnIds? && IsIn(names, f.doc, rec.doc) && SubsOk(names, f.subs, set k | k in rec.subs)
    requires ConceptsOk(names, w, f.concepts, set n | n in rec.concepts)
    requires NsOk(names, w, f.ns, set p | p in rec.nsConcepts)
    requires AdrOk(names, w, f.adr) && RefsOk(names, f.refs, rec.lookups, entities)
    ensures FinderOk(names, w, Own(rec, entities), f)
  {
    forall ref ensures SameId(names, FindId(f, ref), Resolve(w, Own(rec, entities), ref)) {
      match ref
      case NsConcept(ns, name) => assert (ns, name) in f.ns ==> IsIn(names, f.ns[(ns, name)], ConceptKey(w, Full(ns, name)));
      case Bound(sym) => assert SameId(names, RefId(f.refs, sym), Lookup(rec.lookups, entities, sym));
      case _ =>
    }
  }

  // ----- the link buffer ---------------------------------------------------------------

  type Pending = seq<(string, nat, nat, Option<real>)>
  type NamedLinks = seq<(Triple, Option<real>)>

  ghost predicate PendingOk(names: seq<Key>, pending: Pending, links: NamedLinks) {
    |pending| == |links| && forall i | 0 <= i < |pending| :: PendingAt(names, pending[i], links[i])
  }

  ghost predicate PendingAt(names: seq<Key>, p: (string, nat, nat, Option<real>), l: (Triple, Option<real>)) {
    l.0.0 == p.0 && IsIn(names, p.1, l.0.1) && IsIn(names, p.2, l.0.2) && l.1 == p.3
  }

  function LinkOf(op: Op<Key>): NamedLinks {
    match op
    case Link(verb, c, e, weight) => [((verb, c, e), weight)]
    case Weighted(verb, c, e, score) => [((verb, c, e), Some(score))]
    case _ => []
  }

  function LinksOf(ops: seq<Op<Key>>): NamedLinks {
    if ops == [] then [] else LinksOf(ops[..|ops| - 1]) + LinkOf(ops[|ops| - 1])
  }

  function AddLinks(edges: map<Triple, Option<real>>, links: NamedLinks): map<Triple, Option<real>> {
    if links == [] then edges
    else AddEdge(AddLinks(edges, links[..|links| - 1]), links[|links| - 1].0, links[|links| - 1].1)
  }

  lemma AddOneLink(edges: map<Triple, Option<real>>, links: NamedLinks, t: Triple, weight: Option<real>)
    ensures AddLinks(edges, links + [(t, weight)]) == AddEdge(AddLinks(edges, links), t, weight)
  {
    var more := links + [(t, weight)];
    assert more[..|more| - 1] == links;
  }

  lemma {:induction false} LinksAreLinked(edges: map<Triple, Option<real>>, ops: seq<Op<Key>>)
    ensures AddLinks(edges, LinksOf(ops)) == Linked(edges, ops)
  {
    if ops != [] {
      var front, last := LinksOf(ops[..|ops| - 1]), ops[|ops| - 1];
      LinksAreLinked(edges, ops[..|ops| - 1]);
      match last
      case Link(verb, c, e, weight) => AddOneLink(edges, front, (verb, c, e), weight);
      case Weighted(verb, c, e, score) => AddOneLink(edges, front, (verb, c, e), Some(score));
      case _ => assert LinksOf(ops) == front;
    }
  }

  predicate LinkVerbs(links: NamedLinks, verbs: set<string>) { forall l | l in links :: l.0.0 in verbs }

  predicate NoteVerbs(ops: seq<Op<Key>>, verbs: set<string>) { forall op | op in ops && op.Evidence? :: op.verb in verbs }

  predicate Playable(ops: seq<Op<Key>>) { forall op | op in ops :: !op.AddVerb? }

  lemma {:induction false} VerbsSplit(ops: seq<Op<Key>>, verbs: set<string>)
    requires Playable(ops)
    ensures UsesOnly(ops, verbs) <==> LinkVerbs(LinksOf(ops), verbs) && NoteVerbs(ops, verbs)
  {
    if ops != [] {
      var front, last := ops[..|ops| - 1], ops[|ops| - 1];
      assert ops == front + [last];
      assert last in ops;
      VerbsSplit(front, verbs);
      var more := if last.Evidence? then [] else LinksOf(ops)[|LinksOf(front)|..];
      assert LinksOf(ops) == LinksOf(front) + more;
      assert !last.Evidence? ==> more == [more[0]] && more[0] in LinksOf(ops);
    }
  }

  lemma {:induction false} ResolvedIsPlayable(w: World, scope: Scope, ops: seq<Op<Ref>>)
    ensures Playable(Resolved(w, scope, ops))
  {
    if ops != [] {
      ResolvedIsPlayable(w, scope, ops[..|ops| - 1]);
    }
  }

  lemma {:induction false} ResolvedPrefix(w: World, scope: Scope, ops: seq<Op<Ref>>, i: nat)
    requires i <= |ops|
    ensures Resolved(w, scope, ops[..i]) <= Resolved(w, scope, ops)
    decreases |ops| - i
  {
    if i == |ops| {
      assert ops[..i] == ops;
    } else {
      ResolvedPrefix(w, scope, ops, i + 1);
      assert ops[..i + 1][..i] == ops[..i];
    }
  }

  lemma {:induction false} ParsePrefix(ops: seq<Op<string>>, i: nat)
    requires i <= |ops|
    ensures |ParseOps(ops)| == |ops| && ParseOps(ops)[..i] == ParseOps(ops[..i])
    ensures i < |ops| ==> ParseOps(ops)[i] == ParseOp(ops[i])
  {
    if ops != [] {
      var front := ops[..|ops| - 1];
      if i < |ops| {
        ParsePrefix(front, i);
        assert ops[..i] == front[..i];
      } else {
        ParsePrefix(front, |front|);
        assert ops[..i] == ops;
      }
    }
  }

  /** One op resolved is one link or one note or nothing. */
  lemma OneResolved(w: World, scope: Scope, ops: seq<Op<Ref>>, op: Op<Ref>, done: seq<Op<Key>>)
    requires done == Resolved(w, scope, ops)
    ensures Resolved(w, scope, ops + [op]) == done + ResolveOp(w, scope, op)
    ensures LinksOf(done + ResolveOp(w, scope, op)) == LinksOf(done) + LinksOf(ResolveOp(w, scope, op))
    ensures NotesOf(done + ResolveOp(w, scope, op)) == NotesOf(done) + NotesOf(ResolveOp(w, scope, op))
  {
    assert (ops + [op])[..|ops|] == ops;
    var one := ResolveOp(w, scope, op);
    if one == [] {
      assert done + one == done;
    } else {
      assert (done + one)[..|done|] == done && one[..0] == [];
      assert LinksOf(one[..0]) == [] && NotesOf(one[..0]) == [];
    }
  }

  /** The note of one piece of evidence with both ends, the concept end first. */
  ghost function NoteOf(w: World, scope: Scope, op: Op<string>): seq<(Triple, Note)> {
    match op
    case Evidence(verb, c, e, note) =>
      (match (Resolve(w, scope, Parse(c)), Resolve(w, scope, Parse(e)))
       case (Some(src), Some(dst)) => [((verb, src, dst), note)]
       case _ => [])
    case _ => []
  }

  /** The edge of one link with both ends, likewise. */
  ghost function EdgeOf(w: World, scope: Scope, op: Op<string>): NamedLinks {
    if op.AddVerb? || op.Evidence? then []
    else
      match (Resolve(w, scope, Parse(op.c)), Resolve(w, scope, Parse(op.e)))
      case (Some(src), Some(dst)) => [((op.verb, src, dst), if op.Link? then op.weight else Some(op.score))]
      case _ => []
  }

  /** What one op makes of the buffer and the store. */
  method PlayOp(s: Store, f: Finder, op: Op<string>, before: Pending, ghost w: World, ghost scope: Scope,
                ghost links: NamedLinks)
    returns (ok: bool, pending: Pending)
    requires s.Valid() && FinderOk(s.names, w, scope, f) && PendingOk(s.names, before, links)
    modifies s
    ensures s.Valid() && s.names == old(s.names)
    ensures ok <==> NoteVerbs(ResolveOp(w, scope, ParseOp(op)), old(s.view).verbs)
    ensures ok ==> PendingOk(s.names, pending, links + LinksOf(ResolveOp(w, scope, ParseOp(op))))
    ensures ok ==> s.view == old(s.view).(notes := old(s.view).notes + NotesOf(ResolveOp(w, scope, ParseOp(op))))
    ensures ok ==> s.view.notes == old(s.view).notes + NoteOf(w, scope, op) && pending[..|before|] == before
    ensures ok ==> PendingOk(s.names, pending[|before|..], EdgeOf(w, scope, op))
  {
    ok, pending := true, before;
    ghost var one := ResolveOp(w, scope, ParseOp(op));
    assert one != [] ==> one[..0] == [];
    assert NotesOf([]) == [] && LinksOf([]) == [];
    if op.AddVerb? {
      assert links + [] == links && s.view.notes + [] == s.view.notes;
      return;
    }
    var src, dst := FindId(f, Parse(op.c)), FindId(f, Parse(op.e));
    assert SameId(s.names, src, Resolve(w, scope, Parse(op.c))) && SameId(s.names, dst, Resolve(w, scope, Parse(op.e)));
    if src.None? || dst.None? {
      assert links + [] == links && s.view.notes + [] == s.view.notes;
      return;
    }
    match op
    case Link(verb, _, _, weight) =>
      pending := pending + [(verb, src.value, dst.value, weight)];
      assert s.view.notes + [] == s.view.notes;
    case Weighted(verb, _, _, score) =>
      pending := pending + [(verb, src.value, dst.value, Some(score))];
      assert s.view.notes + [] == s.view.notes;
    case Evidence(verb, _, _, note) =>
      if verb !in s.verbs {
        assert one[0] in one;
        ok := false;
        return;
      }
      s.InsertNote(verb, src.value, dst.value, note);
      assert links + [] == links;
  }

  /** The ops `done` are buffered or written. */
  ghost predicate Played(names: seq<Key>, view: View, before: View, pending: Pending, links: NamedLinks, done: seq<Op<Key>>) {
    PendingOk(names, pending, links + LinksOf(done)) && view == before.(notes := before.notes + NotesOf(done))
  }

  lemma NothingPlayed(names: seq<Key>, view: View, pending: Pending, links: NamedLinks)
    requires PendingOk(names, pending, links)
    ensures Played(names, view, view, pending, links, [])
  {
    assert links + LinksOf([]) == links && view.notes + NotesOf([]) == view.notes;
  }

  lemma Regrouped<T>(a: seq<T>, b: seq<T>, c: seq<T>)
    ensures (a + b) + c == a + (b + c)
  {
  }

  lemma PlayedOneMore(names: seq<Key>, view: View, mid: View, before: View, pending: Pending, links: NamedLinks,
                      done: seq<Op<Key>>, one: seq<Op<Key>>, all: seq<Op<Key>>)
    requires mid == before.(notes := before.notes + NotesOf(done))
    requires PendingOk(names, pending, links + LinksOf(done) + LinksOf(one))
    requires view == mid.(notes := mid.notes + NotesOf(one))
    requires LinksOf(all) == LinksOf(done) + LinksOf(one) && NotesOf(all) == NotesOf(done) + NotesOf(one)
    ensures Played(names, view, before, pending, links, all)
  {
    Regrouped(links, LinksOf(done), LinksOf(one));
    Regrouped(before.notes, NotesOf(done), NotesOf(one));
  }

  lemma OneMoreParsed(w: World, scope: Scope, ops: seq<Op<string>>, i: nat, done: seq<Op<Key>>)
    requires i < |ops| && done == Resolved(w, scope, ParseOps(ops[..i]))
    ensures Resolved(w, scope, ParseOps(ops[..i + 1])) == done + ResolveOp(w, scope, ParseOp(ops[i]))
  {
    assert ops[..i + 1][..i] == ops[..i];
    assert ParseOps(ops[..i + 1]) == ParseOps(ops[..i]) + [ParseOp(ops[i])];
    OneResolved(w, scope, ParseOps(ops[..i]), ParseOp(ops[i]), done);
  }

  /** Buffers a record's links and writes its evidence; stops at evidence of an unknown linkage type. */
  method PlayOps(s: Store, f: Finder, ops: seq<Op<string>>, before: Pending, ghost w: World, ghost scope: Scope,
                 ghost links: NamedLinks)
    returns (ok: bool, pending: Pending)
    requires s.Valid() && FinderOk(s.names, w, scope, f) && PendingOk(s.names, before, links)
    modifies s
    ensures s.Valid() && s.names == old(s.names)
    ensures ok <==> NoteVerbs(Resolved(w, scope, ParseOps(ops)), old(s.view).verbs)
    ensures ok ==> Played(s.names, s.view, old(s.view), pending, links, Resolved(w, scope, ParseOps(ops)))
  {
    ok, pending := true, before;
    ghost var done: seq<Op<Key>> := [];
    NothingPlayed(s.names, s.view, pending, links);
    assert ops[..0] == [];
    var i := 0;
    while i < |ops|
      invariant i <= |ops| && s.Valid() && s.names == old(s.names) && ok
      invariant done == Resolved(w, scope, ParseOps(ops[..i])) && NoteVerbs(done, old(s.view).verbs)
      invariant Played(s.names, s.view, old(s.view), pending, links, done)
    {
      ghost var one, mid := ResolveOp(w, scope, ParseOp(ops[i])), s.view;
      ok, pending := PlayOp(s, f, ops[i], pending, w, scope, links + LinksOf(done));
      if !ok {
        OneMoreParsed(w, scope, ops, i, done);
        StopsAll(w, scope, ops, i, old(s.view).verbs, done, one);
        return;
      }
      OneMoreParsed(w, scope, ops, i, done);
      OneResolved(w, scope, ParseOps(ops[..i]), ParseOp(ops[i]), done);
      PlayedOneMore(s.names, s.view, mid, old(s.view), pending, links, done, one, done + one);
      done := done + one;
      i := i + 1;
    }
    assert ops[..i] == ops;
  }

  lemma StopsAll(w: World, scope: Scope, ops: seq<Op<string>>, i: nat, verbs: set<string>, done: seq<Op<Key>>, one: seq<Op<Key>>)
    requires i < |ops| && Resolved(w, scope, ParseOps(ops[..i + 1])) == done + one && !NoteVerbs(one, verbs)
    ensures !NoteVerbs(Resolved(w, scope, ParseOps(ops)), verbs)
  {
    ParsePrefix(ops, i + 1);
    ResolvedPrefix(w, scope, ParseOps(ops), i + 1);
    var op :| op in one && op.Evidence? && op.verb !in verbs;
    assert op in done + one;
    assert op in Resolved(w, scope, ParseOps(ops));
  }

  /** Every linkage type of the buffer is looked up. */
  method CheckVerbs(s: Store, pending: Pending, ghost links: NamedLinks) returns (ok: bool)
    requires s.Valid() && PendingOk(s.names, pending, links)
    ensures ok <==> LinkVerbs(links, s.view.verbs)
  {
    for i := 0 to |pending|
      invariant LinkVerbs(links[..i], s.view.verbs)
    {
      assert PendingAt(s.names, pending[i], links[i]);
      if pending[i].0 !in s.verbs {
        assert links[i] in links;
        return false;
      }
      assert links[..i + 1] == links[..i] + [links[i]];
    }
    assert links[..|pending|] == links;
    return true;
  }

  lemma UpToNext(edges: map<Triple, Option<real>>, links: NamedLinks, i: nat)
    requires i < |links|
    ensures AddLinks(edges, links[..i + 1]) == AddEdge(AddLinks(edges, links[..i]), links[i].0, links[i].1)
  {
    AddOneLink(edges, links[..i], links[i].0, links[i].1);
    assert links[..i + 1] == links[..i] + [links[i]];
  }

  method WriteLink(s: Store, p: (string, nat, nat, Option<real>), ghost l: (Triple, Option<real>))
    requires s.Valid() && PendingAt(s.names, p, l)
    modifies s
    ensures s.Valid() && s.names == old(s.names)
    ensures s.view == old(s.view).(edges := AddEdge(old(s.view).edges, l.0, l.1))
  {
    s.InsertEdge(p.0, p.1, p.2, p.3);
  }

  /** `bulk_link`: every linkage type is looked up before anything is written. */
  method Flush(s: Store, pending: Pending, ghost links: NamedLinks) returns (ok: bool)
    requires s.Valid() && PendingOk(s.names, pending, links)
    modifies s
    ensures s.Valid() && s.names == old(s.names) && (ok <==> LinkVerbs(links, old(s.view).verbs))
    ensures ok ==> s.view == old(s.view).(edges := AddLinks(old(s.view).edges, links))
  {
    ok := CheckVerbs(s, pending, links);
    if !ok {
      return;
    }
    assert links[..|pending|] == links;
    for i := 0 to |pending|
      invariant s.Valid() && s.names == old(s.names)
      invariant s.view == old(s.view).(edges := AddLinks(old(s.view).edges, links[..i]))
    {
      UpToNext(old(s.view).edges, links, i);
      WriteLink(s, pending[i], links[i]);
    }
  }
}
