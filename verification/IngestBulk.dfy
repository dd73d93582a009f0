/** `bulk_apply_records` on a store with ids, and the promise that it builds what `apply_record` builds. */
module IngestBulk {
  import opened Options
  import opened IngestRefs
  import opened IngestGraph
  import opened IngestRecorder
  import opened IngestStore
  import opened IngestApply
  import opened IngestReplay
  import IngestBatchLaws

  lemma BatchKeysAre(recs: seq<Recorded>)
    ensures SetOf(Docs(recs)) + SetOf(Subs(recs)) == BatchKeys(ParseAll(recs))
  {
    var p := ParseAll(recs);
    forall k ensures k in SetOf(Docs(recs)) || k in SetOf(Subs(recs)) <==> k in BatchKeys(p) {
      SubsAre(recs, k);
      if k in Docs(recs) {
        var i :| 0 <= i < |recs| && Docs(recs)[i] == k;
        assert p[i] in p && k in KeysOf(p[i]);
      }
      if r :| r in p && k in r.subs {
        assert k in KeysOf(r);
      }
      if k in BatchKeys(p) {
        var r :| r in p && k in KeysOf(r);
        var i :| 0 <= i < |p| && p[i] == r;
        assert Docs(recs)[i] == r.doc;
      }
    }
  }

  lemma BatchNamesAre(recs: seq<Recorded>)
    ensures (SetOf(Concepts(recs)) - {""}) + (SetOf(FullNames(recs)) - {""}) == BatchNames(ParseAll(recs))
  {
    var p := ParseAll(recs);
    forall n ensures n != "" && (n in Concepts(recs) || n in FullNames(recs)) <==> n in BatchNames(p) {
      ConceptsAre(recs, n);
      FullNamesAre(recs, n);
      NamesOfOne(p, n);
    }
  }

  predicate InConcepts(p: seq<Record<Ref>>, n: string) { exists r :: r in p && n in r.concepts }

  predicate InNsConcepts(p: seq<Record<Ref>>, n: string) {
    exists r, q :: r in p && q in r.nsConcepts && Full(q.0, q.1) == n
  }

  lemma NamesOfOne(p: seq<Record<Ref>>, n: string)
    ensures n in BatchNames(p) <==> n != "" && (InConcepts(p, n) || InNsConcepts(p, n))
  {
    if r :| r in p && n in r.concepts {
      assert n in NamesOf(r);
    }
    if r, q :| r in p && q in r.nsConcepts && Full(q.0, q.1) == n {
      assert n in NamesOf(r);
    }
  }

  /** What the whole batch has created. */
  datatype Made = Made(docs: map<Key, nat>, subs: map<Key, nat>, concepts: map<string, nat>, fullNames: map<string, nat>)

  ghost predicate MadeOk(names: seq<Key>, w: World, recs: seq<Recorded>, m: Made) {
    && SubsOk(names, m.docs, SetOf(Docs(recs))) && SubsOk(names, m.subs, SetOf(Subs(recs)))
    && ConceptsOk(names, w, m.concepts, SetOf(Concepts(recs)) - {""})
    && ConceptsOk(names, w, m.fullNames, SetOf(FullNames(recs)) - {""})
  }

  method CreateBatchKeys(s: Store, recs: seq<Recorded>) returns (docs: map<Key, nat>, subs: map<Key, nat>)
    requires s.Valid()
    modifies s
    ensures s.Valid() && old(s.names) <= s.names
    ensures SubsOk(s.names, docs, SetOf(Docs(recs))) && SubsOk(s.names, subs, SetOf(Subs(recs)))
    ensures s.view == old(s.view).(entities := old(s.view).entities + BatchKeys(ParseAll(recs)))
  {
    BatchKeysAre(recs);
    docs := EnsureAll(s, Docs(recs));
    subs := EnsureAll(s, Subs(recs));
    assert old(s.view).entities + SetOf(Docs(recs)) + SetOf(Subs(recs))
        == old(s.view).entities + BatchKeys(ParseAll(recs));
  }

  method CreateBatchNames(s: Store, w: World, recs: seq<Recorded>)
    returns (concepts: map<string, nat>, fullNames: map<string, nat>)
    requires s.Valid()
    modifies s
    ensures s.Valid() && old(s.names) <= s.names
    ensures ConceptsOk(s.names, w, concepts, SetOf(Concepts(recs)) - {""})
    ensures ConceptsOk(s.names, w, fullNames, SetOf(FullNames(recs)) - {""})
    ensures s.view == WithNames(w, old(s.view), BatchNames(ParseAll(recs)))
  {
    BatchNamesAre(recs);
    concepts := BulkAddConcepts(s, w, Concepts(recs));
    fullNames := BulkAddConcepts(s, w, FullNames(recs));
    NamesTwice(w, old(s.view), SetOf(Concepts(recs)) - {""}, SetOf(FullNames(recs)) - {""});
  }

  method CreateBatch(s: Store, w: World, recs: seq<Recorded>) returns (m: Made)
    requires s.Valid()
    modifies s
    ensures s.Valid() && old(s.names) <= s.names && MadeOk(s.names, w, recs, m)
    ensures s.view == WithNames(w, old(s.view).(entities := old(s.view).entities + BatchKeys(ParseAll(recs))),
                                BatchNames(ParseAll(recs)))
  {
    var docs, subs := CreateBatchKeys(s, recs);
    var concepts, fullNames := CreateBatchNames(s, w, recs);
    m := Made(docs, subs, concepts, fullNames);
  }

  lemma FullIsNotEmpty(ns: string, name: string)
    ensures Full(ns, name) != ""
  {
    assert |Full(ns, name)| > 0;
  }

  lemma BatchFinderOk(names: seq<Key>, w: World, recs: seq<Recorded>, i: nat, entities: set<Key>, m: Made,
                      adr: map<string, nat>, refs: map<string, Option<nat>>)
    requires i < |recs| && MadeOk(names, w, recs, m) && AdrOk(names, w, adr)
    requires RefsOk(names, refs, recs[i].lookups, entities)
    ensures recs[i].doc in m.docs
    ensures FinderOk(names, w, Batch(ParseAll(recs), ParseRecord(recs[i]), entities),
                     BatchIds(m.docs[recs[i].doc], m.subs, m.concepts, m.fullNames, adr, refs))
  {
    assert Docs(recs)[i] == recs[i].doc;
    var scope := Batch(ParseAll(recs), ParseRecord(recs[i]), entities);
    var f := BatchIds(m.docs[recs[i].doc], m.subs, m.concepts, m.fullNames, adr, refs);
    forall ref ensures SameId(names, FindId(f, ref), Resolve(w, scope, ref)) {
      match ref
      case Sub(key) => SubsAre(recs, key);
      case Concept(name) => ConceptsAre(recs, name);
      case NsConcept(ns, name) =>
        FullNamesAre(recs, Full(ns, name));
        FullIsNotEmpty(ns, name);
      case Bound(sym) => assert SameId(names, RefId(refs, sym), Lookup(recs[i].lookups, entities, sym));
      case _ =>
    }
  }

  method RegisterAllVerbs(s: Store, recs: seq<Recorded>)
    requires s.Valid()
    modifies s
    ensures s.Valid() && s.names == old(s.names)
    ensures s.view == old(s.view).(verbs := old(s.view).verbs + BatchVerbs(ParseAll(recs)))
  {
    assert BatchVerbs(ParseAll([])) == {};
    for i := 0 to |recs|
      invariant s.Valid() && s.names == old(s.names)
      invariant s.view == old(s.view).(verbs := old(s.view).verbs + BatchVerbs(ParseAll(recs[..i])))
    {
      ParseUpTo(recs, i);
      VerbsOneMore(ParseAll(recs[..i]), ParseRecord(recs[i]));
      RegisterVerbs(s, recs[i].ops);
      assert old(s.view).verbs + BatchVerbs(ParseAll(recs[..i])) + VerbsOf(ParseOps(recs[i].ops))
          == old(s.view).verbs + BatchVerbs(ParseAll(recs[..i + 1]));
    }
    assert recs[..|recs|] == recs;
  }

  lemma ParseUpTo(recs: seq<Recorded>, i: nat)
    requires i < |recs|
    ensures ParseAll(recs[..i + 1]) == ParseAll(recs[..i]) + [ParseRecord(recs[i])]
    ensures ParseAll(recs)[..i] == ParseAll(recs[..i]) && ParseAll(recs)[..i + 1] == ParseAll(recs[..i + 1])
  {
  }

  lemma LinksOneMore(ops: seq<Op<Key>>, op: Op<Key>)
    ensures LinksOf(ops + [op]) == LinksOf(ops) + LinkOf(op)
  {
    assert (ops + [op])[..|ops|] == ops;
  }

  lemma {:induction false} LinksSplit(a: seq<Op<Key>>, b: seq<Op<Key>>)
    ensures LinksOf(a + b) == LinksOf(a) + LinksOf(b)
  {
    if b == [] {
      assert a + b == a;
    } else {
      var f, last := b[..|b| - 1], b[|b| - 1];
      LinksSplit(a, f);
      assert b == f + [last];
      LinksSplitMore(a, f, last, a + b, b);
    }
  }

  lemma LinksSplitMore(a: seq<Op<Key>>, f: seq<Op<Key>>, last: Op<Key>, ab: seq<Op<Key>>, b: seq<Op<Key>>)
    requires b == f + [last] && ab == a + b && LinksOf(a + f) == LinksOf(a) + LinksOf(f)
    ensures LinksOf(ab) == LinksOf(a) + LinksOf(b)
  {
    assert ab == (a + f) + [last];
    LinksOneMore(a + f, last);
    LinksOneMore(f, last);
    Regrouped(LinksOf(a), LinksOf(f), LinkOf(last));
  }

  lemma BatchOneMore(w: World, all: seq<Record<Ref>>, entities: set<Key>, front: seq<Record<Ref>>, last: Record<Ref>)
    ensures BatchOps(w, all, entities, front + [last])
      == BatchOps(w, all, entities, front) + Resolved(w, Batch(all, last, entities), last.ops)
  {
    assert (front + [last])[..|front|] == front;
  }

  lemma NotesAdd(a: seq<Op<Key>>, b: seq<Op<Key>>, verbs: set<string>)
    ensures NoteVerbs(a + b, verbs) <==> NoteVerbs(a, verbs) && NoteVerbs(b, verbs)
  {
    forall op ensures op in a + b <==> op in a || op in b {
    }
  }

  lemma {:induction false} BatchPrefix(w: World, all: seq<Record<Ref>>, entities: set<Key>, recs: seq<Record<Ref>>, i: nat)
    requires i <= |recs|
    ensures BatchOps(w, all, entities, recs[..i]) <= BatchOps(w, all, entities, recs)
    decreases |recs| - i
  {
    if i == |recs| {
      assert recs[..i] == recs;
    } else {
      BatchPrefix(w, all, entities, recs, i + 1);
      assert recs[..i + 1][..i] == recs[..i];
    }
  }

  lemma StopsBatch(w: World, all: seq<Record<Ref>>, entities: set<Key>, i: nat, verbs: set<string>)
    requires i <= |all| && !NoteVerbs(BatchOps(w, all, entities, all[..i]), verbs)
    ensures !NoteVerbs(BatchOps(w, all, entities, all), verbs)
  {
    BatchPrefix(w, all, entities, all, i);
    var op :| op in BatchOps(w, all, entities, all[..i]) && op.Evidence? && op.verb !in verbs;
    assert op in BatchOps(w, all, entities, all);
  }

  lemma {:induction false} BatchIsPlayable(w: World, all: seq<Record<Ref>>, entities: set<Key>, recs: seq<Record<Ref>>)
    ensures Playable(BatchOps(w, all, entities, recs))
  {
    if recs != [] {
      var last := recs[|recs| - 1];
      BatchIsPlayable(w, all, entities, recs[..|recs| - 1]);
      ResolvedIsPlayable(w, Batch(all, last, entities), last.ops);
    }
  }

  lemma NotesSplit(a: seq<Op<Key>>, b: seq<Op<Key>>)
    ensures NotesOf(a + b) == NotesOf(a) + NotesOf(b)
  {
    LinkedSplit(map[], a, b);
  }

  lemma PlayedTwice(names: seq<Key>, view: View, mid: View, before: View, pending: Pending, a: seq<Op<Key>>, b: seq<Op<Key>>)
    requires mid == before.(notes := before.notes + NotesOf(a))
    requires Played(names, view, mid, pending, [] + LinksOf(a), b)
    ensures Played(names, view, before, pending, [], a + b)
  {
    LinksSplit(a, b);
    NotesSplit(a, b);
    PlayedOneMore(names, view, mid, before, pending, [], a, b, a + b);
  }

  /** One record's refs resolved and ops replayed, after those of the records before it. */
  method PlayRecord(s: Store, w: World, recs: seq<Recorded>, i: nat, m: Made, adr: map<string, nat>, before: Pending,
                    ghost v: View, ghost done: seq<Op<Key>>)
    returns (ok: bool, pending: Pending)
    requires i < |recs| && s.Valid() && MadeOk(s.names, w, recs, m) && AdrOk(s.names, w, adr)
    requires Played(s.names, s.view, v, before, [], done)
    modifies s
    ensures s.Valid() && s.names == old(s.names)
    ensures (var more := Resolved(w, Batch(ParseAll(recs), ParseRecord(recs[i]), v.entities), ParseOps(recs[i].ops));
             && (ok <==> NoteVerbs(more, v.verbs))
             && (ok ==> Played(s.names, s.view, v, pending, [], done + more)))
  {
    var refs := ResolveLookups(s, recs[i].lookups);
    BatchFinderOk(s.names, w, recs, i, v.entities, m, adr, refs);
    var f := BatchIds(m.docs[recs[i].doc], m.subs, m.concepts, m.fullNames, adr, refs);
    ghost var scope := Batch(ParseAll(recs), ParseRecord(recs[i]), v.entities);
    ok, pending := PlayOps(s, f, recs[i].ops, before, w, scope, [] + LinksOf(done));
    if ok {
      PlayedTwice(s.names, s.view, old(s.view), v, pending, done, Resolved(w, scope, ParseOps(recs[i].ops)));
    }
  }

  lemma NextBatch(w: World, all: seq<Record<Ref>>, i: nat, entities: set<Key>, done: seq<Op<Key>>, more: seq<Op<Key>>,
                  verbs: set<string>)
    requires i < |all| && done == BatchOps(w, all, entities, all[..i])
    requires more == Resolved(w, Batch(all, all[i], entities), all[i].ops)
    ensures done + more == BatchOps(w, all, entities, all[..i + 1])
    ensures NoteVerbs(done + more, verbs) <==> NoteVerbs(done, verbs) && NoteVerbs(more, verbs)
    ensures !NoteVerbs(more, verbs) ==> !NoteVerbs(BatchOps(w, all, entities, all), verbs)
  {
    assert all[..i + 1] == all[..i] + [all[i]];
    BatchOneMore(w, all, entities, all[..i], all[i]);
    NotesAdd(done, more, verbs);
    if !NoteVerbs(more, verbs) {
      StopsBatch(w, all, entities, i + 1, verbs);
    }
  }

  /** Every record's refs resolved and ops replayed, into one link buffer. */
  method PlayBatch(s: Store, w: World, recs: seq<Recorded>, m: Made, adr: map<string, nat>)
    returns (ok: bool, pending: Pending)
    requires s.Valid() && MadeOk(s.names, w, recs, m) && AdrOk(s.names, w, adr)
    modifies s
    ensures s.Valid() && s.names == old(s.names)
    ensures (var ops := BatchOps(w, ParseAll(recs), old(s.view).entities, ParseAll(recs));
             && (ok <==> NoteVerbs(ops, old(s.view).verbs))
             && (ok ==> Played(s.names, s.view, old(s.view), pending, [], ops)))
  {
    ghost var done: seq<Op<Key>> := [];
    pending := [];
    NothingPlayed(s.names, s.view, pending, []);
    var i := 0;
    while i < |recs|
      invariant i <= |recs| && s.Valid() && s.names == old(s.names)
      invariant done == BatchOps(w, ParseAll(recs), old(s.view).entities, ParseAll(recs)[..i])
      invariant NoteVerbs(done, old(s.view).verbs) && Played(s.names, s.view, old(s.view), pending, [], done)
    {
      ghost var more := Resolved(w, Batch(ParseAll(recs), ParseRecord(recs[i]), old(s.view).entities), ParseOps(recs[i].ops));
      NextBatch(w, ParseAll(recs), i, old(s.view).entities, done, more, old(s.view).verbs);
      ok, pending := PlayRecord(s, w, recs, i, m, adr, pending, old(s.view), done);
      if !ok {
        return;
      }
      done := done + more;
      i := i + 1;
    }
    assert ParseAll(recs)[..i] == ParseAll(recs);
    ok := true;
  }

  lemma ApplyAllIs(w: World, v: View, recs: seq<Record<Ref>>, made: View, ops: seq<Op<Key>>)
    requires recs != [] && made == WithNames(w, v.(entities := v.entities + BatchKeys(recs)), BatchNames(recs))
    requires ops == BatchOps(w, recs, made.entities, recs)
    ensures (var verbs := v.verbs + BatchVerbs(recs);
             ApplyAll(w, v, recs)
             == if UsesOnly(ops, verbs) then Ok(View(made.entities, verbs, Linked(made.edges, ops), v.notes + NotesOf(ops)))
                else Raised)
  {
  }

  method BulkApplyRecords(s: Store, w: World, recs: seq<Recorded>, adr: map<string, nat>) returns (ok: bool)
    requires s.Valid() && AdrOk(s.names, w, adr)
    modifies s
    ensures s.Valid() && (ok <==> ApplyAll(w, old(s.view), ParseAll(recs)).Ok?)
    ensures ok ==> ApplyAll(w, old(s.view), ParseAll(recs)) == Ok(s.view)
    ensures ok ==> IngestBatchLaws.BatchApplied(w, old(s.view), recs, s.view)
  {
    IngestBatchLaws.BulkTells(w, s.view, recs);
    if recs == [] {
      return true;
    }
    var m := CreateBatch(s, w, recs);
    ghost var made := s.view;
    ghost var ops := BatchOps(w, ParseAll(recs), made.entities, ParseAll(recs));
    ApplyAllIs(w, old(s.view), ParseAll(recs), made, ops);
    BatchIsPlayable(w, ParseAll(recs), made.entities, ParseAll(recs));
    RegisterAllVerbs(s, recs);
    VerbsSplit(ops, s.view.verbs);
    var pending;
    ok, pending := PlayBatch(s, w, recs, m, adr);
    if !ok {
      return;
    }
    assert [] + LinksOf(ops) == LinksOf(ops);
    LinksAreLinked(s.view.edges, ops);
    ok := Flush(s, pending, LinksOf(ops));
  }

  /** The records applied one by one. */
  method ApplyRecords(s: Store, w: World, recs: seq<Recorded>, adr: map<string, nat>) returns (ok: bool)
    requires s.Valid() && AdrOk(s.names, w, adr)
    modifies s
    ensures s.Valid() && (ok <==> ApplyEach(w, old(s.view), ParseAll(recs)).Ok?)
    ensures ok ==> ApplyEach(w, old(s.view), ParseAll(recs)) == Ok(s.view)
  {
    ok := true;
    ghost var all, before := ParseAll(recs), s.view;
    var i := 0;
    while i < |recs|
      invariant i <= |recs| && s.Valid() && AdrOk(s.names, w, adr)
      invariant ApplyEach(w, before, all[..i]) == Ok(s.view)
    {
      ghost var mid := s.view;
      ok := ApplyRecord(s, w, recs[i], adr);
      EachStep(w, before, all, i, mid);
      if !ok {
        return;
      }
      i := i + 1;
    }
    assert all[..i] == all;
    ok := true;
  }

  lemma EachStep(w: World, v: View, recs: seq<Record<Ref>>, i: nat, mid: View)
    requires i < |recs| && ApplyEach(w, v, recs[..i]) == Ok(mid)
    ensures ApplyEach(w, v, recs[..i + 1]) == Apply(w, mid, recs[i])
    ensures Apply(w, mid, recs[i]).Raised? ==> ApplyEach(w, v, recs).Raised?
  {
    EachOneMore(w, v, recs, i);
    if Apply(w, mid, recs[i]).Raised? {
      EachStops(w, v, recs, i + 1);
    }
  }

  lemma EachOneMore(w: World, v: View, recs: seq<Record<Ref>>, i: nat)
    requires i < |recs| && ApplyEach(w, v, recs[..i]).Ok?
    ensures ApplyEach(w, v, recs[..i + 1]) == Apply(w, ApplyEach(w, v, recs[..i]).view, recs[i])
  {
    assert recs[..i + 1][..i] == recs[..i];
  }

  lemma {:induction false} EachStops(w: World, v: View, recs: seq<Record<Ref>>, i: nat)
    requires i <= |recs| && ApplyEach(w, v, recs[..i]).Raised?
    ensures ApplyEach(w, v, recs).Raised?
    decreases |recs| - i
  {
    if i == |recs| {
      assert recs[..i] == recs;
    } else {
      assert recs[..i + 1][..i] == recs[..i];
      EachStops(w, v, recs, i + 1);
    }
  }
}
