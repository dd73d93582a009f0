/** The recording store: what it hands out and buffers, call by call. */
module IngestRecorder {
  import opened Options
  import opened IngestRefs
  import opened IngestGraph
  import opened Decimals

  // ----- what each call records --------------------------------------------------------

  /** `f"r{n}"` */
  function Symbol(n: nat): string { "r" + Decimal(n) }

  type Recorded = Record<string>

  function Blank(doc: Key): Recorded { Record(doc, [], [], [], [], []) }

  function AddOnce<T(==)>(s: seq<T>, x: T): seq<T> { if x in s then s else s + [x] }

  function RecUpsert(rec: Recorded, key: Key): (Recorded, string) {
    if key == rec.doc then (rec, Show(Doc)) else (rec.(subs := AddOnce(rec.subs, key)), Show(Sub(key)))
  }

  function RecConcept(rec: Recorded, name: string): (Recorded, string) {
    (rec.(concepts := AddOnce(rec.concepts, name)), Show(Concept(name)))
  }

  function RecNsConcept(rec: Recorded, ns: string, name: string): (Recorded, string) {
    (rec.(nsConcepts := AddOnce(rec.nsConcepts, (ns, name))), Show(NsConcept(ns, name)))
  }

  function RecLookup(rec: Recorded, candidates: seq<Key>): (Recorded, string) {
    var sym := Symbol(|rec.lookups| + 1);
    (rec.(lookups := rec.lookups + [(sym, candidates)]), Show(Bound(sym)))
  }

  function RecOp(rec: Recorded, op: Op<string>): Recorded { rec.(ops := rec.ops + [op]) }

  class RecordingStore {
    var record: Recorded
    var conceptSet: set<string>
    var nsSet: set<(string, string)>
    var subSet: set<Key>
    var refCounter: nat

    ghost predicate Valid()
      reads this
    {
      && (forall n :: n in conceptSet <==> n in record.concepts)
      && (forall p :: p in nsSet <==> p in record.nsConcepts)
      && (forall k :: k in subSet <==> k in record.subs)
      && refCounter == |record.lookups|
    }

    constructor (doc: Key)
      ensures Valid() && record == Blank(doc)
    {
      record, conceptSet, nsSet, subSet, refCounter := Blank(doc), {}, {}, {}, 0;
    }

    method UpsertEntity(kind: string, name: string) returns (handle: string)
      requires Valid()
      modifies this
      ensures Valid() && (record, handle) == RecUpsert(old(record), Key(kind, name))
    {
      if name == record.doc.name && kind == record.doc.kind {
        return "@doc";
      }
      var key := Key(kind, name);
      if key !in subSet {
        record := record.(subs := record.subs + [key]);
        subSet := subSet + {key};
      }
      return "@sub:" + kind + "/" + name;
    }

    method AddConcept(name: string) returns (handle: string)
      requires Valid()
      modifies this
      ensures Valid() && (record, handle) == RecConcept(old(record), name)
    {
      if name !in conceptSet {
        record := record.(concepts := record.concepts + [name]);
        conceptSet := conceptSet + {name};
      }
      return "@concept:" + name;
    }

    method AddNamespacedConcept(ns: string, name: string) returns (handle: string)
      requires Valid()
      modifies this
      ensures Valid() && (record, handle) == RecNsConcept(old(record), ns, name)
    {
      if (ns, name) !in nsSet {
        record := record.(nsConcepts := record.nsConcepts + [(ns, name)]);
        nsSet := nsSet + {(ns, name)};
      }
      return "@nsconcept:" + ns + "/" + name;
    }

    method RegisterRefResolve(candidates: seq<Key>) returns (handle: string)
      requires Valid()
      modifies this
      ensures Valid() && (record, handle) == RecLookup(old(record), candidates)
    {
      refCounter := refCounter + 1;
      record := record.(lookups := record.lookups + [(Symbol(refCounter), candidates)]);
      return "@ref:" + Symbol(refCounter);
    }

    method AddLinkageType(verb: string)
      requires Valid()
      modifies this
      ensures Valid() && record == RecOp(old(record), AddVerb(verb))
    {
      record := record.(ops := record.ops + [AddVerb(verb)]);
    }

    method MakeLink(verb: string, c: string, e: string, weight: Option<real>)
      requires Valid()
      modifies this
      ensures Valid() && record == RecOp(old(record), Link(verb, c, e, weight))
    {
      record := record.(ops := record.ops + [Link(verb, c, e, weight)]);
    }

    method WeightedLink(verb: string, c: string, e: string, score: real)
      requires Valid()
      modifies this
      ensures Valid() && record == RecOp(old(record), Weighted(verb, c, e, score))
    {
      record := record.(ops := record.ops + [Weighted(verb, c, e, score)]);
    }

    method BulkLink(items: seq<(string, string, string, Option<real>)>)
      requires Valid()
      modifies this
      ensures Valid() && record == old(record).(ops := record.ops) && |record.ops| == |old(record.ops)| + |items|
      ensures record.ops[..|old(record.ops)|] == old(record.ops)
      ensures forall i | 0 <= i < |items| ::
        record.ops[|old(record.ops)| + i] == Link(items[i].0, items[i].1, items[i].2, items[i].3)
    {
      for i := 0 to |items|
        invariant Valid() && record == old(record).(ops := record.ops) && |record.ops| == |old(record.ops)| + i
        invariant record.ops[..|old(record.ops)|] == old(record.ops)
        invariant forall j | 0 <= j < i ::
          record.ops[|old(record.ops)| + j] == Link(items[j].0, items[j].1, items[j].2, items[j].3)
      {
        MakeLink(items[i].0, items[i].1, items[i].2, items[i].3);
      }
    }

    method AddEvidence(verb: string, c: string, e: string, note: Note)
      requires Valid()
      modifies this
      ensures Valid() && record == RecOp(old(record), Evidence(verb, c, e, note))
    {
      record := record.(ops := record.ops + [Evidence(verb, c, e, note)]);
    }
  }

  // ----- a run of calls, recorded ------------------------------------------------------

  type Item = (string, nat, nat, Option<real>)

  /** Calls name earlier results by the position of the call. */
  datatype Call =
    | Upsert(key: Key)
    | NewConcept(name: string)
    | NewNsConcept(ns: string, name: string)
    | Find(candidates: seq<Key>)
    | Do(op: Op<nat>)
    | Bulk(items: seq<Item>)

  datatype Taped = Taped(rec: Recorded, handles: seq<string>)

  function At<T>(s: seq<T>, i: nat, missing: T): T { if i < |s| then s[i] else missing }

  /** `bulk_link` takes links only. */
  function ItemOps(items: seq<Item>): seq<Op<nat>> {
    if items == [] then []
    else
      var it := items[|items| - 1];
      ItemOps(items[..|items| - 1]) + [Link(it.0, it.1, it.2, it.3)]
  }

  function TapeOp(handles: seq<string>, op: Op<nat>): Op<string> {
    match op
    case AddVerb(verb) => AddVerb(verb)
    case Link(verb, c, e, weight) => Link(verb, At(handles, c, ""), At(handles, e, ""), weight)
    case Weighted(verb, c, e, score) => Weighted(verb, At(handles, c, ""), At(handles, e, ""), score)
    case Evidence(verb, c, e, note) => Evidence(verb, At(handles, c, ""), At(handles, e, ""), note)
  }

  function TapeOps(handles: seq<string>, ops: seq<Op<nat>>): seq<Op<string>> {
    if ops == [] then [] else TapeOps(handles, ops[..|ops| - 1]) + [TapeOp(handles, ops[|ops| - 1])]
  }

  function TapeCall(t: Taped, call: Call): Taped {
    match call
    case Upsert(key) => var (rec, h) := RecUpsert(t.rec, key); Taped(rec, t.handles + [h])
    case NewConcept(name) => var (rec, h) := RecConcept(t.rec, name); Taped(rec, t.handles + [h])
    case NewNsConcept(ns, name) => var (rec, h) := RecNsConcept(t.rec, ns, name); Taped(rec, t.handles + [h])
    case Find(candidates) => var (rec, h) := RecLookup(t.rec, candidates); Taped(rec, t.handles + [h])
    case Do(op) => Taped(RecOp(t.rec, TapeOp(t.handles, op)), t.handles + [""])
    case Bulk(items) => Taped(t.rec.(ops := t.rec.ops + TapeOps(t.handles, ItemOps(items))), t.handles + [""])
  }

  function Tape(doc: Key, calls: seq<Call>): Taped {
    if calls == [] then Taped(Blank(doc), []) else TapeCall(Tape(doc, calls[..|calls| - 1]), calls[|calls| - 1])
  }

  function ParseOp(op: Op<string>): Op<Ref> {
    match op
    case AddVerb(verb) => AddVerb(verb)
    case Link(verb, c, e, weight) => Link(verb, Parse(c), Parse(e), weight)
    case Weighted(verb, c, e, score) => Weighted(verb, Parse(c), Parse(e), score)
    case Evidence(verb, c, e, note) => Evidence(verb, Parse(c), Parse(e), note)
  }

  function ParseOps(ops: seq<Op<string>>): seq<Op<Ref>> {
    if ops == [] then [] else ParseOps(ops[..|ops| - 1]) + [ParseOp(ops[|ops| - 1])]
  }

  function ParseRecord(rec: Recorded): Record<Ref> {
    Record(rec.doc, rec.subs, rec.concepts, rec.nsConcepts, rec.lookups, ParseOps(rec.ops))
  }

  function ParseAll(recs: seq<Recorded>): (p: seq<Record<Ref>>)
    ensures |p| == |recs| && forall i | 0 <= i < |recs| :: p[i] == ParseRecord(recs[i])
  {
    seq(|recs|, i requires 0 <= i < |recs| => ParseRecord(recs[i]))
  }

  /** `small` is an earlier state of the tape of `big`. */
  predicate Earlier(small: Recorded, big: Recorded) {
    && small.doc == big.doc
    && (forall k | k in small.subs :: k in big.subs)
    && (forall n | n in small.concepts :: n in big.concepts)
    && (forall p | p in small.nsConcepts :: p in big.nsConcepts)
    && small.lookups <= big.lookups
  }

  lemma {:induction false} TapeGrows(doc: Key, calls: seq<Call>, i: nat)
    requires i <= |calls|
    ensures Earlier(Tape(doc, calls[..i]).rec, Tape(doc, calls).rec)
    decreases |calls| - i
  {
    if i == |calls| {
      assert calls[..i] == calls;
    } else {
      TapeGrows(doc, calls, i + 1);
      assert calls[..i + 1][..i] == calls[..i];
      CallGrows(Tape(doc, calls[..i]), calls[i]);
    }
  }

  lemma CallGrows(t: Taped, call: Call)
    ensures Earlier(t.rec, TapeCall(t, call).rec)
  {
  }

  /** Symbols are numbered, so each finds its own lookup. */
  predicate Numbered(lookups: seq<(string, seq<Key>)>) {
    forall i | 0 <= i < |lookups| :: lookups[i].0 == Symbol(i + 1)
  }

  lemma {:induction false} TapeIsNumbered(doc: Key, calls: seq<Call>)
    ensures Numbered(Tape(doc, calls).rec.lookups)
    ensures |Tape(doc, calls).handles| == |calls|
    ensures Tape(doc, calls).rec.doc == doc
  {
    if calls != [] {
      TapeIsNumbered(doc, calls[..|calls| - 1]);
    }
  }

  lemma {:induction false} FindsItsOwn(lookups: seq<(string, seq<Key>)>, i: nat)
    requires Numbered(lookups) && i < |lookups|
    ensures Candidates(lookups, Symbol(i + 1)) == Some(lookups[i].1)
  {
    var n := |lookups| - 1;
    if lookups[n].0 == Symbol(i + 1) {
      assert Symbol(n + 1)[1..] == Decimal(n + 1) && Symbol(i + 1)[1..] == Decimal(i + 1);
      DecimalIsOneToOne(n + 1, i + 1);
    } else {
      FindsItsOwn(lookups[..n], i);
    }
  }

  lemma OneMoreOp(w: World, scope: Scope, ops: seq<Op<string>>, op: Op<string>)
    ensures Resolved(w, scope, ParseOps(ops + [op])) == Resolved(w, scope, ParseOps(ops)) + ResolveOp(w, scope, ParseOp(op))
  {
    var all := ops + [op];
    assert all[..|all| - 1] == ops;
    var parsed := ParseOps(all);
    assert parsed[..|parsed| - 1] == ParseOps(ops);
  }
}
