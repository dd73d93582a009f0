/** The part of the store an ingest replay needs: rows with ids, and the graph they name. */
module IngestStore {
  import opened Picking
  import opened Options
  import opened IngestRefs
  import opened IngestGraph

  type IdTriple = (string, nat, nat)

  class Store {
    var ids: map<Key, nat>
    var names: seq<Key>
    var verbs: set<string>
    var edges: map<IdTriple, Option<real>>
    var notes: seq<(IdTriple, Note)>
    /** The same by names. */
    ghost var view: View

    ghost predicate RowsOk()
      reads this
    {
      && (forall k | k in ids :: ids[k] < |names| && names[ids[k]] == k)
      && (forall i | 0 <= i < |names| :: names[i] in ids && ids[names[i]] == i)
    }

    ghost predicate Named(e: IdTriple)
      reads this
    {
      e.1 < |names| && e.2 < |names|
    }

    ghost function NameOf(e: IdTriple): Triple
      reads this
      requires Named(e)
    {
      (e.0, names[e.1], names[e.2])
    }

    ghost predicate EdgesOk()
      reads this
    {
      && (forall e | e in edges :: Named(e) && NameOf(e) in view.edges && view.edges[NameOf(e)] == edges[e])
      && (forall t | t in view.edges :: t.1 in ids && t.2 in ids && (t.0, ids[t.1], ids[t.2]) in edges)
    }

    ghost predicate NotesOk()
      reads this
    {
      && |notes| == |view.notes|
      && (forall i | 0 <= i < |notes| :: Named(notes[i].0) && view.notes[i] == (NameOf(notes[i].0), notes[i].1))
    }

    ghost predicate Valid()
      reads this
    {
      RowsOk() && view.entities == ids.Keys && view.verbs == verbs && EdgesOk() && NotesOk()
    }

    /** `id` is the row of `k`. */
    ghost predicate Is(id: nat, k: Key)
      reads this
    {
      id < |names| && names[id] == k
    }

    constructor ()
      ensures Valid() && view == View({}, {}, map[], [])
    {
      ids, names, verbs, edges, notes := map[], [], {}, map[], [];
      view := View({}, {}, map[], []);
    }

    /** A row for `k`, old or new. */
    method Ensure(k: Key) returns (id: nat)
      requires Valid()
      modifies this
      ensures Valid() && Is(id, k) && old(names) <= names
      ensures view == old(view).(entities := old(view).entities + {k})
    {
      if k in ids {
        id := ids[k];
        assert view.entities + {k} == view.entities;
      } else {
        id := AddRow(k);
      }
    }

    method AddRow(k: Key) returns (id: nat)
      requires Valid() && k !in ids
      modifies this
      ensures Valid() && Is(id, k) && old(names) <= names
      ensures view == old(view).(entities := old(view).entities + {k})
    {
      id := |names|;
      ids, names := ids[k := id], names + [k];
      view := view.(entities := view.entities + {k});
    }

    /** `upsert_entity`: None when the kind is unknown. */
    method UpsertEntity(k: Key) returns (id: Option<nat>)
      requires Valid()
      modifies this
      ensures Valid() && old(names) <= names && (id.None? <==> k.kind !in KINDS)
      ensures id.None? ==> view == old(view)
      ensures id.Some? ==> Is(id.value, k) && view == old(view).(entities := old(view).entities + {k})
    {
      if k.kind !in KINDS {
        return None;
      }
      var i := Ensure(k);
      return Some(i);
    }

    method GetEntity(k: Key) returns (id: Option<nat>)
      requires Valid()
      ensures id.Some? <==> k in view.entities
      ensures id.Some? ==> Is(id.value, k)
    {
      id := if k in ids then Some(ids[k]) else None;
    }

    method AddLinkageType(verb: string)
      requires Valid()
      modifies this
      ensures Valid() && names == old(names) && view == old(view).(verbs := old(view).verbs + {verb})
    {
      verbs := verbs + {verb};
      view := view.(verbs := verbs);
    }

    /** One row of `entity_links`; an existing one stays as it is. */
    method InsertEdge(verb: string, c: nat, e: nat, weight: Option<real>)
      requires Valid() && c < |names| && e < |names|
      modifies this
      ensures Valid() && names == old(names)
      ensures view == old(view).(edges := AddEdge(old(view).edges, (verb, names[c], names[e]), weight))
    {
      var t: IdTriple := (verb, c, e);
      assert t in edges <==> NameOf(t) in view.edges;
      if t !in edges {
        edges := edges[t := weight];
      }
      view := view.(edges := AddEdge(view.edges, (verb, names[c], names[e]), weight));
    }

    method InsertNote(verb: string, c: nat, e: nat, note: Note)
      requires Valid() && c < |names| && e < |names|
      modifies this
      ensures Valid() && names == old(names)
      ensures view == old(view).(notes := old(view).notes + [((verb, names[c], names[e]), note)])
    {
      notes := notes + [((verb, c, e), note)];
      view := view.(notes := view.notes + [((verb, names[c], names[e]), note)]);
    }

    /** `add_concept`: the folded name, its aliases, and an edge from each alias. */
    method AddConcept(w: World, name: string) returns (id: nat)
      requires Valid()
      modifies this
      ensures Valid() && Is(id, ConceptKey(w, name)) && old(names) <= names
      ensures view == old(view).(entities := old(view).entities + Forms(w, name),
                                 edges := AddMissing(old(view).edges, Aliases(w, name)))
    {
      id := Ensure(ConceptKey(w, name));
      var todo := w.variants(name);
      ghost var done: set<string> := {};
      NothingSpelled(w, name, old(view));
      while todo != {}
        invariant Valid() && Is(id, ConceptKey(w, name)) && old(names) <= names
        invariant done + todo == w.variants(name) && done !! todo
        invariant view == Spelled(w, name, old(view), done)
      {
        var v := Pick(todo);
        AddAlias(w, name, id, v);
        SpelledOneMore(w, name, old(view), done, v);
        done, todo := done + {v}, todo - {v};
      }
      AllSpelled(w, name, old(view), done);
    }

    method AddAlias(w: World, name: string, id: nat, v: string)
      requires Valid() && Is(id, ConceptKey(w, name))
      modifies this
      ensures Valid() && Is(id, ConceptKey(w, name)) && old(names) <= names
      ensures view == old(view).(entities := old(view).entities + {Key("concept", v)},
                                 edges := AliasEdge(w, name, old(view).edges, v))
    {
      var vid := Ensure(Key("concept", v));
      assert vid == id <==> Key("concept", v) == ConceptKey(w, name);
      if vid != id {
        InsertEdge(SAME_AS, vid, id, None);
      }
    }
  }

  ghost function AliasEdge(w: World, name: string, edges: map<Triple, Option<real>>, v: string): map<Triple, Option<real>> {
    if v == w.canon(name) then edges else AddEdge(edges, (SAME_AS, Key("concept", v), ConceptKey(w, name)), None)
  }

  /** The store once the spellings `vs` are in. */
  ghost function Spelled(w: World, name: string, v: View, vs: set<string>): View {
    v.(entities := v.entities + {ConceptKey(w, name)} + SpelledKeys(vs),
       edges := AddMissing(v.edges, SpelledEdges(w, name, vs)))
  }

  ghost function SpelledKeys(vs: set<string>): set<Key> { set v | v in vs :: Key("concept", v) }

  ghost function SpelledEdges(w: World, name: string, vs: set<string>): set<Triple> {
    set v | v in vs && v != w.canon(name) :: (SAME_AS, Key("concept", v), ConceptKey(w, name))
  }

  lemma NothingSpelled(w: World, name: string, v: View)
    ensures Spelled(w, name, v, {}) == v.(entities := v.entities + {ConceptKey(w, name)})
  {
    assert SpelledKeys({}) == {} && SpelledEdges(w, name, {}) == {};
    assert AddMissing(v.edges, {}) == v.edges;
  }

  lemma SpelledOneMore(w: World, name: string, view: View, vs: set<string>, v: string)
    ensures (var before := Spelled(w, name, view, vs);
             Spelled(w, name, view, vs + {v})
             == before.(entities := before.entities + {Key("concept", v)}, edges := AliasEdge(w, name, before.edges, v)))
  {
    assert SpelledKeys(vs + {v}) == SpelledKeys(vs) + {Key("concept", v)};
    var t := (SAME_AS, Key("concept", v), ConceptKey(w, name));
    assert SpelledEdges(w, name, vs + {v}) == SpelledEdges(w, name, vs) + if v != w.canon(name) then {t} else {};
    if v != w.canon(name) {
      AddsOneAlias(view.edges, SpelledEdges(w, name, vs), t);
    } else {
      assert SpelledEdges(w, name, vs) + {} == SpelledEdges(w, name, vs);
    }
    assert view.entities + {ConceptKey(w, name)} + SpelledKeys(vs + {v})
        == view.entities + {ConceptKey(w, name)} + SpelledKeys(vs) + {Key("concept", v)};
  }

  lemma AllSpelled(w: World, name: string, v: View, vs: set<string>)
    requires vs == w.variants(name)
    ensures Spelled(w, name, v, vs)
      == v.(entities := v.entities + Forms(w, name), edges := AddMissing(v.edges, Aliases(w, name)))
  {
    assert SpelledEdges(w, name, vs) == Aliases(w, name);
    assert v.entities + {ConceptKey(w, name)} + SpelledKeys(vs) == v.entities + Forms(w, name);
  }

  lemma AddsOneAlias(edges: map<Triple, Option<real>>, ts: set<Triple>, t: Triple)
    ensures AddEdge(AddMissing(edges, ts), t, None) == AddMissing(edges, ts + {t})
  {
  }
}
