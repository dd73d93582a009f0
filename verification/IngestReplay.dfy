/** The two replays over a store with ids: one record, and a whole batch. */
module IngestReplay {
  import opened Options
  import opened IngestRefs
  import opened IngestGraph
  import opened IngestRecorder
  import opened IngestStore
  import opened IngestApply
  import IngestLaws

  function SetOf<T(==)>(s: seq<T>): set<T> { set x | x in s }

  function FullsOf(list: seq<(string, string)>): set<string> { set p | p in list :: Full(p.0, p.1) }

  lemma OneMoreOf<T>(s: seq<T>, i: nat)
    requires i < |s|
    ensures SetOf(s[..i + 1]) == SetOf(s[..i]) + {s[i]}
  {
    assert s[..i + 1] == s[..i] + [s[i]];
  }

  /** A store with the concepts `names`, their aliases and alias edges added. */
  ghost function WithNames(w: World, v: View, names: set<string>): View {
    v.(entities := v.entities + AllForms(w, names), edges := AddMissing(v.edges, AllAliases(w, names)))
  }

  lemma NoNames(w: World, v: View)
    ensures WithNames(w, v, {}) == v
  {
    assert AllForms(w, {}) == {} && AllAliases(w, {}) == {};
    assert AddMissing(v.edges, {}) == v.edges;
  }

  lemma NamesTwice(w: World, v: View, a: set<string>, b: set<string>)
    ensures WithNames(w, WithNames(w, v, a), b) == WithNames(w, v, a + b)
  {
    assert v.entities + AllForms(w, a) + AllForms(w, b) == v.entities + AllForms(w, a + b);
    AliasesOfBoth(w, a, b);
    MissingTwice(v.edges, AllAliases(w, a), AllAliases(w, b));
  }

  lemma OneName(w: World, v: View, name: string)
    ensures WithNames(w, v, {name})
      == v.(entities := v.entities + Forms(w, name), edges := AddMissing(v.edges, Aliases(w, name)))
  {
    assert AllForms(w, {name}) == Forms(w, name) && AllAliases(w, {name}) == Aliases(w, name);
  }

  // ----- creating rows -----------------------------------------------------------------

  method CreateSubs(s: Store, subs: seq<Key>) returns (ok: bool, ids: map<Key, nat>)
    requires s.Valid()
    modifies s
    ensures s.Valid() && old(s.names) <= s.names && (ok <==> forall k | k in subs :: k.kind in KINDS)
    ensures ok ==> SubsOk(s.names, ids, SetOf(subs))
    ensures ok ==> s.view == old(s.view).(entities := old(s.view).entities + SetOf(subs))
  {
    ids := map[];
    for i := 0 to |subs|
      invariant s.Valid() && old(s.names) <= s.names && forall k | k in subs[..i] :: k.kind in KINDS
      invariant SubsOk(s.names, ids, SetOf(subs[..i]))
      invariant s.view == old(s.view).(entities := old(s.view).entities + SetOf(subs[..i]))
    {
      OneMoreOf(subs, i);
      assert subs[i] in subs;
      var id := s.UpsertEntity(subs[i]);
      if id.None? {
        return false, map[];
      }
      ids := ids[subs[i] := id.value];
      assert old(s.view).entities + SetOf(subs[..i]) + {subs[i]} == old(s.view).entities + SetOf(subs[..i + 1]);
    }
    assert subs[..|subs|] == subs;
    ok := true;
  }

  method CreateName(s: Store, w: World, name: string) returns (id: nat)
    requires s.Valid()
    modifies s
    ensures s.Valid() && old(s.names) <= s.names && IsIn(s.names, id, ConceptKey(w, name))
    ensures s.view == WithNames(w, old(s.view), {name})
  {
    OneName(w, s.view, name);
    id := s.AddConcept(w, name);
  }

  method CreateConcepts(s: Store, w: World, list: seq<string>) returns (ids: map<string, nat>)
    requires s.Valid()
    modifies s
    ensures s.Valid() && old(s.names) <= s.names
    ensures ConceptsOk(s.names, w, ids, SetOf(list)) && s.view == WithNames(w, old(s.view), SetOf(list))
  {
    ids := map[];
    NoNames(w, s.view);
    for i := 0 to |list|
      invariant s.Valid() && old(s.names) <= s.names
      invariant ConceptsOk(s.names, w, ids, SetOf(list[..i]))
      invariant s.view == WithNames(w, old(s.view), SetOf(list[..i]))
    {
      OneMoreOf(list, i);
      NamesTwice(w, old(s.view), SetOf(list[..i]), {list[i]});
      var id := CreateName(s, w, list[i]);
      ids := ids[list[i] := id];
    }
    assert list[..|list|] == list;
  }

  method CreateNsConcepts(s: Store, w: World, list: seq<(string, string)>) returns (ids: map<(string, string), nat>)
    requires s.Valid()
    modifies s
    ensures s.Valid() && old(s.names) <= s.names
    ensures NsOk(s.names, w, ids, SetOf(list)) && s.view == WithNames(w, old(s.view), FullsOf(list))
  {
    ids := map[];
    NoNames(w, s.view);
    for i := 0 to |list|
      invariant s.Valid() && old(s.names) <= s.names
      invariant NsOk(s.names, w, ids, SetOf(list[..i]))
      invariant s.view == WithNames(w, old(s.view), FullsOf(list[..i]))
    {
      OneMoreOf(list, i);
      OneMoreFull(list, i);
      var full := Full(list[i].0, list[i].1);
      NamesTwice(w, old(s.view), FullsOf(list[..i]), {full});
      var id := CreateName(s, w, full);
      ids := ids[list[i] := id];
    }
    assert list[..|list|] == list;
  }

  lemma OneMoreFull(list: seq<(string, string)>, i: nat)
    requires i < |list|
    ensures FullsOf(list[..i + 1]) == FullsOf(list[..i]) + {Full(list[i].0, list[i].1)}
  {
    assert list[..i + 1] == list[..i] + [list[i]];
  }

  method FirstFound(s: Store, candidates: seq<Key>) returns (id: Option<nat>)
    requires s.Valid()
    ensures SameId(s.names, id, FirstHit(s.view.entities, candidates))
  {
    id := None;
    for i := 0 to |candidates|
      invariant FirstHit(s.view.entities, candidates) == FirstHit(s.view.entities, candidates[i..])
    {
      assert candidates[i..][1..] == candidates[i + 1..];
      id := s.GetEntity(candidates[i]);
      if id.Some? {
        return;
      }
    }
    id := None;
  }

  method ResolveLookups(s: Store, lookups: seq<(string, seq<Key>)>) returns (refs: map<string, Option<nat>>)
    requires s.Valid()
    ensures RefsOk(s.names, refs, lookups, s.view.entities)
  {
    refs := map[];
    for i := 0 to |lookups|
      invariant RefsOk(s.names, refs, lookups[..i], s.view.entities)
    {
      var id := FirstFound(s, lookups[i].1);
      OneMoreLookup(s.names, refs, lookups, i, s.view.entities, id);
      refs := refs[lookups[i].0 := id];
    }
    assert lookups[..|lookups|] == lookups;
  }

  lemma OneMoreLookup(names: seq<Key>, refs: map<string, Option<nat>>, lookups: seq<(string, seq<Key>)>, i: nat,
                      entities: set<Key>, id: Option<nat>)
    requires i < |lookups| && RefsOk(names, refs, lookups[..i], entities)
    requires SameId(names, id, FirstHit(entities, lookups[i].1))
    ensures RefsOk(names, refs[lookups[i].0 := id], lookups[..i + 1], entities)
  {
    var after := refs[lookups[i].0 := id];
    assert lookups[..i + 1][..i] == lookups[..i];
    forall sym ensures SameId(names, RefId(after, sym), Lookup(lookups[..i + 1], entities, sym)) {
      assert SameId(names, RefId(refs, sym), Lookup(lookups[..i], entities, sym));
    }
  }

  method RegisterVerbs(s: Store, ops: seq<Op<string>>)
    requires s.Valid()
    modifies s
    ensures s.Valid() && s.names == old(s.names)
    ensures s.view == old(s.view).(verbs := old(s.view).verbs + VerbsOf(ParseOps(ops)))
  {
    for i := 0 to |ops|
      invariant s.Valid() && s.names == old(s.names)
      invariant s.view == old(s.view).(verbs := old(s.view).verbs + VerbsOf(ParseOps(ops[..i])))
    {
      VerbsOneMoreOp(ops, i);
      if ops[i].AddVerb? {
        s.AddLinkageType(ops[i].verb);
      }
      assert old(s.view).verbs + VerbsOf(ParseOps(ops[..i])) + (if ops[i].AddVerb? then {ops[i].verb} else {})
          == old(s.view).verbs + VerbsOf(ParseOps(ops[..i + 1]));
    }
    assert ops[..|ops|] == ops;
  }

  lemma VerbsOneMoreOp(ops: seq<Op<string>>, i: nat)
    requires i < |ops|
    ensures VerbsOf(ParseOps(ops[..i + 1])) == VerbsOf(ParseOps(ops[..i])) + if ops[i].AddVerb? then {ops[i].verb} else {}
  {
    assert ops[..i + 1][..i] == ops[..i];
    OneMore(ParseOps(ops[..i]), ParseOp(ops[i]));
  }

  // ----- one record --------------------------------------------------------------------

  /** A record's document and sub-entities. */
  method CreateKeys(s: Store, rec: Recorded) returns (ok: bool, doc: nat, subs: map<Key, nat>)
    requires s.Valid()
    modifies s
    ensures s.Valid() && old(s.names) <= s.names && (ok <==> KindsKnown(rec))
    ensures ok ==> IsIn(s.names, doc, rec.doc) && SubsOk(s.names, subs, SetOf(rec.subs))
    ensures ok ==> s.view == old(s.view).(entities := old(s.view).entities + KeysOf(rec))
  {
    var id := s.UpsertEntity(rec.doc);
    if id.None? {
      return false, 0, map[];
    }
    doc := id.value;
    ok, subs := CreateSubs(s, rec.subs);
    assert old(s.view).entities + {rec.doc} + SetOf(rec.subs) == old(s.view).entities + KeysOf(rec);
  }

  /** A record's concepts, bare and namespaced. */
  method CreateNames(s: Store, w: World, rec: Recorded)
    returns (concepts: map<string, nat>, ns: map<(string, string), nat>)
    requires s.Valid()
    modifies s
    ensures s.Valid() && old(s.names) <= s.names && s.view == WithNames(w, old(s.view), NamesOf(rec))
    ensures ConceptsOk(s.names, w, concepts, SetOf(rec.concepts)) && NsOk(s.names, w, ns, SetOf(rec.nsConcepts))
  {
    concepts := CreateConcepts(s, w, rec.concepts);
    ns := CreateNsConcepts(s, w, rec.nsConcepts);
    NamesTwice(w, old(s.view), SetOf(rec.concepts), FullsOf(rec.nsConcepts));
    assert SetOf(rec.concepts) + FullsOf(rec.nsConcepts) == NamesOf(rec);
  }

  /** The rows of one record. */
  method CreateOwn(s: Store, w: World, rec: Recorded, adr: map<string, nat>) returns (ok: bool, f: Finder)
    requires s.Valid() && AdrOk(s.names, w, adr)
    modifies s
    ensures s.Valid() && old(s.names) <= s.names && (ok <==> KindsKnown(rec))
    ensures ok ==> s.view == WithNames(w, old(s.view).(entities := old(s.view).entities + KeysOf(rec)), NamesOf(rec))
    ensures ok ==> FinderOk(s.names, w, Own(ParseRecord(rec), s.view.entities), f)
  {
    f := OwnIds(0, map[], map[], map[], map[], map[]);
    var doc, subs;
    ok, doc, subs := CreateKeys(s, rec);
    if !ok {
      return;
    }
    var concepts, ns := CreateNames(s, w, rec);
    var refs := ResolveLookups(s, rec.lookups);
    f := OwnIds(doc, subs, concepts, ns, adr, refs);
    assert AdrOk(s.names, w, adr);
    OwnFinderOk(s.names, w, ParseRecord(rec), s.view.entities, f);
  }

  lemma ApplyIs(w: World, v: View, rec: Recorded, made: View, ops: seq<Op<Key>>)
    requires KindsKnown(rec)
    requires made == WithNames(w, v.(entities := v.entities + KeysOf(rec)), NamesOf(rec))
    requires ops == Resolved(w, Own(ParseRecord(rec), made.entities), ParseOps(rec.ops))
    ensures (var verbs := v.verbs + VerbsOf(ParseOps(rec.ops));
             Apply(w, v, ParseRecord(rec))
             == if UsesOnly(ops, verbs) then Ok(View(made.entities, verbs, Linked(made.edges, ops), v.notes + NotesOf(ops)))
                else Raised)
  {
    var p := ParseRecord(rec);
    assert KeysOf(p) == KeysOf(rec) && NamesOf(p) == NamesOf(rec);
  }

  method ApplyRecord(s: Store, w: World, rec: Recorded, adr: map<string, nat>) returns (ok: bool)
    requires s.Valid() && AdrOk(s.names, w, adr)
    modifies s
    ensures s.Valid() && old(s.names) <= s.names && (ok <==> Apply(w, old(s.view), ParseRecord(rec)).Ok?)
    ensures ok ==> Apply(w, old(s.view), ParseRecord(rec)) == Ok(s.view) && IngestLaws.Applied(w, old(s.view), rec, s.view)
  {
    IngestLaws.ApplyTells(w, s.view, rec);
    var f;
    ok, f := CreateOwn(s, w, rec, adr);
    if !ok {
      return;
    }
    ghost var made := s.view;
    ghost var scope := Own(ParseRecord(rec), made.entities);
    ghost var ops := Resolved(w, scope, ParseOps(rec.ops));
    ApplyIs(w, old(s.view), rec, made, ops);
    ResolvedIsPlayable(w, scope, ParseOps(rec.ops));
    RegisterVerbs(s, rec.ops);
    VerbsSplit(ops, s.view.verbs);
    ok := Replay(s, w, f, rec.ops, scope);
  }

  /** The deferred scope of one record. */
  method Replay(s: Store, w: World, f: Finder, recorded: seq<Op<string>>, ghost scope: Scope) returns (ok: bool)
    requires s.Valid() && FinderOk(s.names, w, scope, f)
    modifies s
    ensures s.Valid() && s.names == old(s.names)
    ensures (var ops := Resolved(w, scope, ParseOps(recorded));
             && (ok <==> LinkVerbs(LinksOf(ops), old(s.view).verbs) && NoteVerbs(ops, old(s.view).verbs))
             && (ok ==> s.view == old(s.view).(edges := Linked(old(s.view).edges, ops),
                                               notes := old(s.view).notes + NotesOf(ops))))
  {
    ghost var ops := Resolved(w, scope, ParseOps(recorded));
    var pending;
    ok, pending := PlayOps(s, f, recorded, [], w, scope, []);
    if !ok {
      return;
    }
    assert [] + LinksOf(ops) == LinksOf(ops);
    LinksAreLinked(s.view.edges, ops);
    ok := Flush(s, pending, LinksOf(ops));
  }

  // ----- a batch -----------------------------------------------------------------------

  /** `bulk_upsert_entity` for any keys: it does not look at kinds. */
  method EnsureAll(s: Store, keys: seq<Key>) returns (ids: map<Key, nat>)
    requires s.Valid()
    modifies s
    ensures s.Valid() && old(s.names) <= s.names && SubsOk(s.names, ids, SetOf(keys))
    ensures s.view == old(s.view).(entities := old(s.view).entities + SetOf(keys))
  {
    ids := map[];
    for i := 0 to |keys|
      invariant s.Valid() && old(s.names) <= s.names && SubsOk(s.names, ids, SetOf(keys[..i]))
      invariant s.view == old(s.view).(entities := old(s.view).entities + SetOf(keys[..i]))
    {
      OneMoreOf(keys, i);
      var id := s.Ensure(keys[i]);
      ids := ids[keys[i] := id];
      assert old(s.view).entities + SetOf(keys[..i]) + {keys[i]} == old(s.view).entities + SetOf(keys[..i + 1]);
    }
    assert keys[..|keys|] == keys;
  }

  /** `_bulk_add_concepts`: an empty name is passed over. */
  method BulkAddConcepts(s: Store, w: World, list: seq<string>) returns (ids: map<string, nat>)
    requires s.Valid()
    modifies s
    ensures s.Valid() && old(s.names) <= s.names
    ensures ConceptsOk(s.names, w, ids, SetOf(list) - {""}) && s.view == WithNames(w, old(s.view), SetOf(list) - {""})
  {
    ids := map[];
    NoNames(w, s.view);
    for i := 0 to |list|
      invariant s.Valid() && old(s.names) <= s.names
      invariant ConceptsOk(s.names, w, ids, SetOf(list[..i]) - {""})
      invariant s.view == WithNames(w, old(s.view), SetOf(list[..i]) - {""})
    {
      OneMoreOf(list, i);
      if list[i] != "" && list[i] !in ids {
        assert SetOf(list[..i]) - {""} + {list[i]} == SetOf(list[..i + 1]) - {""};
        NamesTwice(w, old(s.view), SetOf(list[..i]) - {""}, {list[i]});
        var id := CreateName(s, w, list[i]);
        ids := ids[list[i] := id];
      } else {
        assert SetOf(list[..i + 1]) - {""} == SetOf(list[..i]) - {""};
      }
    }
    assert list[..|list|] == list;
  }

  function Docs(recs: seq<Recorded>): (d: seq<Key>)
    ensures |d| == |recs| && forall i | 0 <= i < |recs| :: d[i] == recs[i].doc
  {
    seq(|recs|, i requires 0 <= i < |recs| => recs[i].doc)
  }

  function Subs(recs: seq<Recorded>): seq<Key> {
    if recs == [] then [] else Subs(recs[..|recs| - 1]) + recs[|recs| - 1].subs
  }

  function Concepts(recs: seq<Recorded>): seq<string> {
    if recs == [] then [] else Concepts(recs[..|recs| - 1]) + recs[|recs| - 1].concepts
  }

  function RecFulls(list: seq<(string, string)>): (s: seq<string>)
    ensures |s| == |list| && forall j | 0 <= j < |s| :: s[j] == Full(list[j].0, list[j].1)
  {
    seq(|list|, j requires 0 <= j < |list| => Full(list[j].0, list[j].1))
  }

  function FullNames(recs: seq<Recorded>): seq<string> {
    if recs == [] then [] else FullNames(recs[..|recs| - 1]) + RecFulls(recs[|recs| - 1].nsConcepts)
  }

  lemma {:induction false} SubsAre(recs: seq<Recorded>, k: Key)
    ensures k in Subs(recs) <==> exists r :: r in ParseAll(recs) && k in r.subs
  {
    if recs != [] {
      SubsAre(recs[..|recs| - 1], k);
      ParseOneMore(recs);
    }
  }

  lemma {:induction false} ConceptsAre(recs: seq<Recorded>, n: string)
    ensures n in Concepts(recs) <==> exists r :: r in ParseAll(recs) && n in r.concepts
  {
    if recs != [] {
      ConceptsAre(recs[..|recs| - 1], n);
      ParseOneMore(recs);
    }
  }

  lemma InFulls(list: seq<(string, string)>, n: string)
    ensures n in RecFulls(list) <==> exists p :: p in list && Full(p.0, p.1) == n
  {
    if n in RecFulls(list) {
      var j :| 0 <= j < |list| && RecFulls(list)[j] == n;
      assert list[j] in list;
    }
    if p :| p in list && Full(p.0, p.1) == n {
      var j :| 0 <= j < |list| && list[j] == p;
      assert RecFulls(list)[j] == n;
    }
  }

  lemma {:induction false} FullNamesAre(recs: seq<Recorded>, n: string)
    ensures n in FullNames(recs) <==> exists r, p :: r in ParseAll(recs) && p in r.nsConcepts && Full(p.0, p.1) == n
  {
    if recs != [] {
      FullNamesAre(recs[..|recs| - 1], n);
      ParseOneMore(recs);
      InFulls(recs[|recs| - 1].nsConcepts, n);
    }
  }

  lemma ParseOneMore(recs: seq<Recorded>)
    requires recs != []
    ensures (var n := |recs| - 1;
             ParseAll(recs) == ParseAll(recs[..n]) + [ParseRecord(recs[n])]
             && forall r :: r in ParseAll(recs) <==> r in ParseAll(recs[..n]) || r == ParseRecord(recs[n]))
  {
    var n := |recs| - 1;
    OneMore(ParseAll(recs[..n]), ParseRecord(recs[n]));
  }
}
