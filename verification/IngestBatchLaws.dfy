/** What applying a batch of records does, handle by handle, op by op and row by row. */
module IngestBatchLaws {
  import opened Options
  import opened Filtering
  import opened IngestRefs
  import opened IngestGraph
  import opened IngestRecorder
  import opened IngestLaws

  // ----- handles -----------------------------------------------------------------------

  /** What a handle of record `r` stands for in the batch: what any record registers, but its own
    * document and its own lookups. */
  ghost predicate StandsInBatch(w: World, recs: seq<Recorded>, r: nat, entities: set<Key>, handle: string, key: Option<Key>)
    requires r < |recs|
  {
    && (handle == "@doc" ==> key == Some(recs[r].doc))
    && (forall kind, name | handle == "@sub:" + kind + "/" + name && '/' !in kind ::
          key == if exists q :: q in recs && Key(kind, name) in q.subs then Some(Key(kind, name)) else None)
    && (forall name | handle == "@concept:" + name ::
          key == if name != "" && exists q :: q in recs && name in q.concepts then Some(Key("concept", w.canon(name))) else None)
    && (forall ns, name | handle == "@nsconcept:" + ns + "/" + name && '/' !in ns ::
          key == if SomeNs(recs, ns + "/" + name) then Some(Key("concept", w.canon(ns + "/" + name))) else None)
    && (forall num | handle == "@adr:" + num :: key == if num in w.adr then Some(w.adr[num]) else None)
    && (forall sym | handle == "@ref:" + sym :: FoundBy(recs[r].lookups, entities, sym, key))
  }

  ghost predicate SomeNs(recs: seq<Recorded>, full: string) {
    exists q, ns, name :: q in recs && (ns, name) in q.nsConcepts && full == ns + "/" + name
  }

  function ScopeOf(recs: seq<Recorded>, r: nat, entities: set<Key>): Scope
    requires r < |recs|
  {
    Batch(ParseAll(recs), ParseRecord(recs[r]), entities)
  }

  lemma InAll(recs: seq<Recorded>, q: Recorded)
    requires q in recs
    ensures ParseRecord(q) in ParseAll(recs)
  {
    var i :| 0 <= i < |recs| && recs[i] == q;
    assert ParseAll(recs)[i] == ParseRecord(q);
  }

  lemma OfAll(recs: seq<Recorded>, p: Record<Ref>) returns (q: Recorded)
    requires p in ParseAll(recs)
    ensures q in recs && p == ParseRecord(q)
  {
    var i :| 0 <= i < |recs| && ParseAll(recs)[i] == p;
    q := recs[i];
  }

  lemma SubIs(recs: seq<Recorded>, r: nat, entities: set<Key>, key: Key)
    requires r < |recs|
    ensures HasSub(ScopeOf(recs, r, entities), key) <==> exists q :: q in recs && key in q.subs
  {
    if q :| q in recs && key in q.subs {
      InAll(recs, q);
    }
    if p :| p in ParseAll(recs) && key in p.subs {
      var q := OfAll(recs, p);
    }
  }

  lemma ConceptIs(recs: seq<Recorded>, r: nat, entities: set<Key>, name: string)
    requires r < |recs|
    ensures HasConcept(ScopeOf(recs, r, entities), name) <==> name != "" && exists q :: q in recs && name in q.concepts
  {
    if q :| q in recs && name in q.concepts {
      InAll(recs, q);
    }
    if p :| p in ParseAll(recs) && name in p.concepts {
      var q := OfAll(recs, p);
    }
  }

  lemma NsIs(recs: seq<Recorded>, r: nat, entities: set<Key>, ns: string, name: string)
    requires r < |recs|
    ensures HasNsConcept(ScopeOf(recs, r, entities), ns, name) <==> SomeNs(recs, ns + "/" + name)
  {
    if q, a, b :| q in recs && (a, b) in q.nsConcepts && ns + "/" + name == a + "/" + b {
      InAll(recs, q);
      var p := (a, b);
      assert p in ParseRecord(q).nsConcepts && Full(p.0, p.1) == Full(ns, name);
    }
    if p, pair :| p in ParseAll(recs) && pair in p.nsConcepts && Full(pair.0, pair.1) == Full(ns, name) {
      var q := OfAll(recs, p);
      assert (pair.0, pair.1) in q.nsConcepts;
    }
  }

  lemma BatchHandleMeans(w: World, recs: seq<Recorded>, r: nat, entities: set<Key>, handle: string)
    requires r < |recs|
    ensures StandsInBatch(w, recs, r, entities, handle, Found(w, ScopeOf(recs, r, entities), handle))
  {
    var key := Found(w, ScopeOf(recs, r, entities), handle);
    forall kind, name | handle == "@sub:" + kind + "/" + name && '/' !in kind
      ensures key == if exists q :: q in recs && Key(kind, name) in q.subs then Some(Key(kind, name)) else None {
      HandleReadsBack(Sub(Key(kind, name)));
      SubIs(recs, r, entities, Key(kind, name));
    }
    forall name | handle == "@concept:" + name
      ensures key == if name != "" && exists q :: q in recs && name in q.concepts then Some(Key("concept", w.canon(name))) else None {
      HandleReadsBack(Concept(name));
      ConceptIs(recs, r, entities, name);
    }
    forall ns, name | handle == "@nsconcept:" + ns + "/" + name && '/' !in ns
      ensures key == if SomeNs(recs, ns + "/" + name) then Some(Key("concept", w.canon(ns + "/" + name))) else None {
      HandleReadsBack(NsConcept(ns, name));
      NsIs(recs, r, entities, ns, name);
    }
    forall num | handle == "@adr:" + num ensures Parse(handle) == Adr(num) {
      HandleReadsBack(Adr(num));
    }
    forall sym | handle == "@ref:" + sym ensures FoundBy(recs[r].lookups, entities, sym, key) {
      HandleReadsBack(Bound(sym));
      LookupIs(recs[r].lookups, entities, sym);
    }
  }

  // ----- what the batch creates --------------------------------------------------------

  ghost predicate BatchMakes(w: World, recs: seq<Recorded>, k: Key) {
    exists q :: q in recs
      && (k == q.doc || k in q.subs
          || exists name :: name != "" && Names(q, name) && IsRowOf(w, name, k))
  }

  ghost predicate IsBatchAlias(w: World, recs: seq<Recorded>, t: Triple) {
    exists q, name, variant :: q in recs && name != "" && Names(q, name) && variant in w.variants(name)
      && variant != w.canon(name) && t == ("same_as", Key("concept", variant), Key("concept", w.canon(name)))
  }

  lemma BatchNamesAre(recs: seq<Recorded>, name: string)
    ensures name in BatchNames(ParseAll(recs)) <==> name != "" && exists q :: q in recs && Names(q, name)
  {
    if q :| q in recs && Names(q, name) {
      InAll(recs, q);
      NamesAre(q, name);
    }
    if p :| p in ParseAll(recs) && name in NamesOf(p) {
      var q := OfAll(recs, p);
      NamesAre(q, name);
    }
  }

  lemma BatchKeysAre(recs: seq<Recorded>, k: Key)
    ensures k in BatchKeys(ParseAll(recs)) <==> exists q :: q in recs && (k == q.doc || k in q.subs)
  {
    if q :| q in recs && (k == q.doc || k in q.subs) {
      InAll(recs, q);
      assert k in KeysOf(ParseRecord(q));
    }
    if p :| p in ParseAll(recs) && k in KeysOf(p) {
      var q := OfAll(recs, p);
    }
  }

  lemma BatchMakesIs(w: World, recs: seq<Recorded>, k: Key)
    ensures k in BatchKeys(ParseAll(recs)) + AllForms(w, BatchNames(ParseAll(recs))) <==> BatchMakes(w, recs, k)
  {
    BatchKeysAre(recs, k);
    if k in AllForms(w, BatchNames(ParseAll(recs))) {
      var name :| name in BatchNames(ParseAll(recs)) && k in Forms(w, name);
      BatchNamesAre(recs, name);
    }
    if BatchMakes(w, recs, k) && !(exists q :: q in recs && (k == q.doc || k in q.subs)) {
      var q :| q in recs && exists name :: name != "" && Names(q, name) && IsRowOf(w, name, k);
      var name :| name != "" && Names(q, name) && IsRowOf(w, name, k);
      BatchNamesAre(recs, name);
      assert k in Forms(w, name);
    }
  }

  lemma BatchAliasIs(w: World, recs: seq<Recorded>, t: Triple)
    ensures t in AllAliases(w, BatchNames(ParseAll(recs))) <==> IsBatchAlias(w, recs, t)
  {
    if t in AllAliases(w, BatchNames(ParseAll(recs))) {
      var name :| name in BatchNames(ParseAll(recs)) && t in Aliases(w, name);
      BatchNamesAre(recs, name);
    }
    if IsBatchAlias(w, recs, t) {
      var q, name, variant :| q in recs && name != "" && Names(q, name) && variant in w.variants(name)
        && variant != w.canon(name) && t == ("same_as", Key("concept", variant), Key("concept", w.canon(name)));
      BatchNamesAre(recs, name);
      assert t in Aliases(w, name);
    }
  }

  lemma BatchVerbsAre(recs: seq<Recorded>, verb: string)
    ensures verb in BatchVerbs(ParseAll(recs)) <==> exists q :: q in recs && AddVerb(verb) in q.ops
  {
    if q :| q in recs && AddVerb(verb) in q.ops {
      InAll(recs, q);
      VerbsAre(q.ops, verb);
    }
    if p :| p in ParseAll(recs) && verb in VerbsOf(p.ops) {
      var q := OfAll(recs, p);
      VerbsAre(q.ops, verb);
    }
  }

  // ----- the ops of all records --------------------------------------------------------

  /** The ops of the first `n` records, performed one record after the other. */
  function BatchPlayed(w: World, recs: seq<Recorded>, entities: set<Key>, n: nat): seq<Op<Key>>
    requires n <= |recs|
  {
    BatchOps(w, ParseAll(recs), entities, ParseAll(recs)[..n])
  }

  lemma BatchPlayedMore(w: World, recs: seq<Recorded>, entities: set<Key>, n: nat)
    requires n < |recs|
    ensures BatchPlayed(w, recs, entities, n + 1)
      == BatchPlayed(w, recs, entities, n) + IngestLaws.Played(w, ScopeOf(recs, n, entities), recs[n].ops)
  {
    assert ParseAll(recs)[..n + 1][..n] == ParseAll(recs)[..n];
  }

  /** The edges after each record, and the notes after each record. */
  ghost predicate BatchSteps(w: World, recs: seq<Recorded>, entities: set<Key>, n: nat,
                             edges: seq<map<Triple, Option<real>>>, notes: seq<seq<(Triple, Note)>>) {
    && n <= |recs| && |edges| == |notes| == n + 1
    && (forall r | 0 <= r < n :: EdgesPlayed(w, ScopeOf(recs, r, entities), recs[r].ops, edges[r], edges[r + 1]))
    && forall r | 0 <= r < n :: NotesGrow(w, ScopeOf(recs, r, entities), recs[r].ops, notes[r], notes[r + 1])
  }

  ghost predicate NotesGrow(w: World, scope: Scope, ops: seq<Op<string>>, before: seq<(Triple, Note)>, after: seq<(Triple, Note)>) {
    before <= after && exists at: seq<nat> :: NotesAt(w, scope, ops, after[|before|..], at)
  }

  lemma {:induction false} StepsAre(w: World, recs: seq<Recorded>, entities: set<Key>, n: nat,
                                    first: map<Triple, Option<real>>, before: seq<(Triple, Note)>)
    returns (edges: seq<map<Triple, Option<real>>>, notes: seq<seq<(Triple, Note)>>)
    requires n <= |recs|
    ensures BatchSteps(w, recs, entities, n, edges, notes) && edges[0] == first && notes[0] == before
    ensures edges[n] == Linked(first, BatchPlayed(w, recs, entities, n))
    ensures notes[n] == before + NotesOf(BatchPlayed(w, recs, entities, n))
  {
    if n == 0 {
      edges, notes := [first], [before];
    } else {
      var es, ns := StepsAre(w, recs, entities, n - 1, first, before);
      var after, more := OneStep(w, recs, entities, n - 1, first, before, es[n - 1], ns[n - 1]);
      edges, notes := es + [after], ns + [more];
      StepsMore(w, recs, entities, n - 1, es, ns, after, more);
    }
  }

  lemma OneStep(w: World, recs: seq<Recorded>, entities: set<Key>, n: nat, first: map<Triple, Option<real>>,
                before: seq<(Triple, Note)>, e: map<Triple, Option<real>>, s: seq<(Triple, Note)>)
    returns (after: map<Triple, Option<real>>, more: seq<(Triple, Note)>)
    requires n < |recs| && e == Linked(first, BatchPlayed(w, recs, entities, n))
    requires s == before + NotesOf(BatchPlayed(w, recs, entities, n))
    ensures after == Linked(first, BatchPlayed(w, recs, entities, n + 1))
    ensures more == before + NotesOf(BatchPlayed(w, recs, entities, n + 1))
    ensures EdgesPlayed(w, ScopeOf(recs, n, entities), recs[n].ops, e, after)
    ensures NotesGrow(w, ScopeOf(recs, n, entities), recs[n].ops, s, more)
  {
    var scope, ops := ScopeOf(recs, n, entities), recs[n].ops;
    BatchPlayedMore(w, recs, entities, n);
    var played := IngestLaws.Played(w, scope, ops);
    LinkedSplit(first, BatchPlayed(w, recs, entities, n), played);
    after := EdgesAre(w, scope, ops, e);
    NotesGrowBy(w, scope, ops, s);
    more := s + NotesOf(played);
    Onto(before, NotesOf(BatchPlayed(w, recs, entities, n)), NotesOf(played));
  }

  lemma Onto<T>(a: seq<T>, b: seq<T>, c: seq<T>)
    ensures a + b + c == a + (b + c)
  {
  }

  lemma StepsMore(w: World, recs: seq<Recorded>, entities: set<Key>, n: nat, es: seq<map<Triple, Option<real>>>,
                  ns: seq<seq<(Triple, Note)>>, after: map<Triple, Option<real>>, more: seq<(Triple, Note)>)
    requires n < |recs| && BatchSteps(w, recs, entities, n, es, ns)
    requires EdgesPlayed(w, ScopeOf(recs, n, entities), recs[n].ops, es[n], after)
    requires NotesGrow(w, ScopeOf(recs, n, entities), recs[n].ops, ns[n], more)
    ensures BatchSteps(w, recs, entities, n + 1, es + [after], ns + [more])
  {
  }

  lemma NotesGrowBy(w: World, scope: Scope, ops: seq<Op<string>>, before: seq<(Triple, Note)>)
    ensures NotesGrow(w, scope, ops, before, before + NotesOf(IngestLaws.Played(w, scope, ops)))
  {
    var at := NotesAre(w, scope, ops);
    var notes := NotesOf(IngestLaws.Played(w, scope, ops));
    assert (before + notes)[|before|..] == notes;
  }

  /** The ops of record `r` that write use these linkage types only. */
  ghost predicate UsesIn(w: World, recs: seq<Recorded>, entities: set<Key>, r: nat, verbs: set<string>)
    requires r < |recs|
  {
    forall op | op in recs[r].ops && Acts(w, ScopeOf(recs, r, entities), op) :: op.verb in verbs
  }

  ghost predicate AllUse(w: World, recs: seq<Recorded>, entities: set<Key>, n: nat, verbs: set<string>)
    requires n <= |recs|
  {
    forall r | 0 <= r < n :: UsesIn(w, recs, entities, r, verbs)
  }

  lemma AllUseMore(w: World, recs: seq<Recorded>, entities: set<Key>, n: nat, verbs: set<string>)
    requires n < |recs|
    ensures AllUse(w, recs, entities, n + 1, verbs) <==> AllUse(w, recs, entities, n, verbs) && UsesIn(w, recs, entities, n, verbs)
  {
  }

  lemma {:induction false} BatchUses(w: World, recs: seq<Recorded>, entities: set<Key>, n: nat, verbs: set<string>)
    requires n <= |recs|
    ensures UsesOnly(BatchPlayed(w, recs, entities, n), verbs) <==> AllUse(w, recs, entities, n, verbs)
  {
    if n > 0 {
      BatchUses(w, recs, entities, n - 1, verbs);
      OneUses(w, recs, entities, n - 1, verbs);
      AllUseMore(w, recs, entities, n - 1, verbs);
    } else {
      NoneUses(w, recs, entities, verbs);
    }
  }

  lemma NoneUses(w: World, recs: seq<Recorded>, entities: set<Key>, verbs: set<string>)
    ensures UsesOnly(BatchPlayed(w, recs, entities, 0), verbs)
  {
    assert ParseAll(recs)[..0] == [];
  }

  lemma OneUses(w: World, recs: seq<Recorded>, entities: set<Key>, n: nat, verbs: set<string>)
    requires n < |recs|
    ensures UsesOnly(BatchPlayed(w, recs, entities, n + 1), verbs)
      <==> UsesOnly(BatchPlayed(w, recs, entities, n), verbs) && UsesIn(w, recs, entities, n, verbs)
  {
    BatchPlayedMore(w, recs, entities, n);
    var played := IngestLaws.Played(w, ScopeOf(recs, n, entities), recs[n].ops);
    PlayedOps(w, ScopeOf(recs, n, entities), recs[n].ops, verbs);
    UsesBoth(BatchPlayed(w, recs, entities, n), played, verbs);
  }

  lemma UsesBoth(a: seq<Op<Key>>, b: seq<Op<Key>>, verbs: set<string>)
    ensures UsesOnly(a + b, verbs) <==> UsesOnly(a, verbs) && UsesOnly(b, verbs)
  {
    assert forall op :: op in a + b <==> op in a || op in b;
  }

  // ----- the batch ---------------------------------------------------------------------

  /** What a batch makes of the graph: every entity and alias first, then the ops of record after record. */
  ghost predicate BatchApplied(w: World, before: View, recs: seq<Recorded>, after: View) {
    && (forall k :: k in after.entities <==> k in before.entities || BatchMakes(w, recs, k))
    && (forall verb :: verb in after.verbs <==> verb in before.verbs || exists q :: q in recs && AddVerb(verb) in q.ops)
    && exists edges: seq<map<Triple, Option<real>>>, notes: seq<seq<(Triple, Note)>> ::
         && BatchSteps(w, recs, after.entities, |recs|, edges, notes)
         && notes[0] == before.notes && notes[|recs|] == after.notes && edges[|recs|] == after.edges
         && (forall t :: t in edges[0] <==> t in before.edges || IsBatchAlias(w, recs, t))
         && (forall t | t in edges[0] :: edges[0][t] == if t in before.edges then before.edges[t] else None)
  }

  /** An op that writes uses a linkage type that neither the store nor any record knows. */
  ghost predicate BatchCannot(w: World, before: View, recs: seq<Recorded>, entities: set<Key>) {
    exists r, op :: 0 <= r < |recs| && op in recs[r].ops && Acts(w, ScopeOf(recs, r, entities), op)
      && op.verb !in before.verbs && forall q | q in recs :: AddVerb(op.verb) !in q.ops
  }

  lemma BatchStarts(w: World, v: View, recs: seq<Recorded>, entities: set<Key>)
    returns (verbs: set<string>, mid: map<Triple, Option<real>>)
    requires forall k :: k in entities <==> k in v.entities || BatchMakes(w, recs, k)
    ensures entities == v.entities + BatchKeys(ParseAll(recs)) + AllForms(w, BatchNames(ParseAll(recs)))
    ensures verbs == v.verbs + BatchVerbs(ParseAll(recs))
    ensures forall verb :: verb in verbs <==> verb in v.verbs || exists q :: q in recs && AddVerb(verb) in q.ops
    ensures mid == AddMissing(v.edges, AllAliases(w, BatchNames(ParseAll(recs))))
    ensures forall t :: t in mid <==> t in v.edges || IsBatchAlias(w, recs, t)
    ensures forall t | t in mid :: mid[t] == if t in v.edges then v.edges[t] else None
  {
    forall k ensures k in entities <==> k in v.entities + BatchKeys(ParseAll(recs)) + AllForms(w, BatchNames(ParseAll(recs))) {
      BatchMakesIs(w, recs, k);
    }
    verbs := v.verbs + BatchVerbs(ParseAll(recs));
    forall verb ensures verb in verbs <==> verb in v.verbs || exists q :: q in recs && AddVerb(verb) in q.ops {
      BatchVerbsAre(recs, verb);
    }
    mid := AddMissing(v.edges, AllAliases(w, BatchNames(ParseAll(recs))));
    forall t ensures t in mid <==> t in v.edges || IsBatchAlias(w, recs, t) {
      BatchAliasIs(w, recs, t);
    }
  }

  lemma CannotIff(w: World, v: View, recs: seq<Recorded>, entities: set<Key>, verbs: set<string>)
    requires forall verb :: verb in verbs <==> verb in v.verbs || exists q :: q in recs && AddVerb(verb) in q.ops
    ensures BatchCannot(w, v, recs, entities) <==> !UsesOnly(BatchOps(w, ParseAll(recs), entities, ParseAll(recs)), verbs)
  {
    BatchUses(w, recs, entities, |recs|, verbs);
    assert ParseAll(recs)[..|recs|] == ParseAll(recs);
    assert AllUse(w, recs, entities, |recs|, verbs) <==> forall r | 0 <= r < |recs| :: UsesIn(w, recs, entities, r, verbs);
    if r :| 0 <= r < |recs| && !UsesIn(w, recs, entities, r, verbs) {
      var op :| op in recs[r].ops && Acts(w, ScopeOf(recs, r, entities), op) && op.verb !in verbs;
    }
    if BatchCannot(w, v, recs, entities) {
      var r, op :| 0 <= r < |recs| && op in recs[r].ops && Acts(w, ScopeOf(recs, r, entities), op)
        && op.verb !in v.verbs && forall q | q in recs :: AddVerb(op.verb) !in q.ops;
      assert !UsesIn(w, recs, entities, r, verbs);
    }
  }

  lemma GraphIs(w: World, v: View, recs: seq<Recorded>, entities: set<Key>, verbs: set<string>,
                mid: map<Triple, Option<real>>) returns (view: View)
    requires forall k :: k in entities <==> k in v.entities || BatchMakes(w, recs, k)
    requires forall verb :: verb in verbs <==> verb in v.verbs || exists q :: q in recs && AddVerb(verb) in q.ops
    requires forall t :: t in mid <==> t in v.edges || IsBatchAlias(w, recs, t)
    requires forall t | t in mid :: mid[t] == if t in v.edges then v.edges[t] else None
    ensures var ops := BatchOps(w, ParseAll(recs), entities, ParseAll(recs));
            view == View(entities, verbs, Linked(mid, ops), v.notes + NotesOf(ops))
    ensures BatchApplied(w, v, recs, view)
  {
    assert ParseAll(recs)[..|recs|] == ParseAll(recs);
    var edges, notes := StepsAre(w, recs, entities, |recs|, mid, v.notes);
    view := View(entities, verbs, edges[|recs|], notes[|recs|]);
  }

  /** `bulk_apply_records`: when it raises, and what it makes of the graph otherwise. */
  lemma BulkIs(w: World, v: View, recs: seq<Recorded>, entities: set<Key>)
    requires forall k :: k in entities <==> k in v.entities || BatchMakes(w, recs, k)
    ensures var result := ApplyAll(w, v, ParseAll(recs));
            && (result.Raised? <==> BatchCannot(w, v, recs, entities))
            && (result.Ok? ==> result.view.entities == entities && BatchApplied(w, v, recs, result.view))
  {
    var verbs, mid := BatchStarts(w, v, recs, entities);
    CannotIff(w, v, recs, entities, verbs);
    var view := GraphIs(w, v, recs, entities, verbs, mid);
    if recs == [] {
      NothingPlayed(v, view, mid, verbs, w, entities);
    }
  }

  lemma BulkTells(w: World, v: View, recs: seq<Recorded>)
    ensures var result := ApplyAll(w, v, ParseAll(recs)); result.Ok? ==> BatchApplied(w, v, recs, result.view)
  {
    var entities := v.entities + BatchKeys(ParseAll(recs)) + AllForms(w, BatchNames(ParseAll(recs)));
    forall k ensures k in entities <==> k in v.entities || BatchMakes(w, recs, k) {
      BatchMakesIs(w, recs, k);
    }
    BulkIs(w, v, recs, entities);
  }

  lemma NothingPlayed(v: View, view: View, mid: map<Triple, Option<real>>, verbs: set<string>, w: World, entities: set<Key>)
    requires entities == v.entities + BatchKeys(ParseAll([])) + AllForms(w, BatchNames(ParseAll([])))
    requires verbs == v.verbs + BatchVerbs(ParseAll([])) && mid == AddMissing(v.edges, AllAliases(w, BatchNames(ParseAll([]))))
    requires view == View(entities, verbs, mid, v.notes + [])
    ensures view == v
  {
    assert BatchNames(ParseAll([])) == {} && AllForms(w, {}) == {} && AllAliases(w, {}) == {};
    assert BatchKeys(ParseAll([])) == {} && BatchVerbs(ParseAll([])) == {};
  }
}
