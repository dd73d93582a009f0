/** The store itself, call by call: what each of its methods does to the graph. */
module IngestCalls {
  import opened Options
  import opened IngestRefs
  import opened IngestGraph
  import opened IngestRecorder

  /** The graph so far, what each call returned, and whether none has raised. */
  datatype Ran = Ran(view: View, handles: seq<Option<Key>>, ok: bool)

  function Returns(r: Ran, key: Option<Key>): Ran { r.(handles := r.handles + [key]) }

  function Raise(r: Ran): Ran { r.(ok := false) }

  /** A row for the folded name and each variant, and an edge from each variant that is spelled otherwise. */
  function AddConcept(w: World, view: View, name: string): View {
    var row := Key("concept", w.canon(name));
    view.(entities := view.entities + {row} + set v | v in w.variants(name) :: Key("concept", v),
          edges := view.edges + map v | v in w.variants(name) && Key("concept", v) != row
                                        && ("same_as", Key("concept", v), row) !in view.edges ::
                                  ("same_as", Key("concept", v), row) := None)
  }

  /** `link`: a weight that is given stands, and none takes none away. */
  function SetLink(view: View, t: Triple, weight: Option<real>): View {
    view.(edges := view.edges[t := if weight.None? && t in view.edges then view.edges[t] else weight])
  }

  /** An item of `bulk_link`: an edge that is there stays as it is. */
  function AddLink(view: View, t: Triple, weight: Option<real>): View {
    if t in view.edges then view else view.(edges := view.edges[t := weight])
  }

  /** An op between what two earlier calls returned; without both it does nothing. */
  function RunOp(r: Ran, op: Op<nat>): Ran {
    if op.AddVerb? then r.(view := r.view.(verbs := r.view.verbs + {op.verb}))
    else
      match (At(r.handles, op.c, None), At(r.handles, op.e, None))
      case (Some(c), Some(e)) =>
        if op.verb !in r.view.verbs then Raise(r)
        else
          (match op
           case Link(verb, _, _, weight) => r.(view := SetLink(r.view, (verb, c, e), weight))
           case Weighted(verb, _, _, score) => r.(view := SetLink(r.view, (verb, c, e), Some(score)))
           case Evidence(verb, _, _, note) => r.(view := r.view.(notes := r.view.notes + [((verb, c, e), note)])))
      case _ => r
  }

  function RunItems(r: Ran, items: seq<Item>): Ran {
    if items == [] then r
    else
      var s, it := RunItems(r, items[..|items| - 1]), items[|items| - 1];
      match (At(s.handles, it.1, None), At(s.handles, it.2, None))
      case (Some(c), Some(e)) =>
        if it.0 !in s.view.verbs then Raise(s) else s.(view := AddLink(s.view, (it.0, c, e), it.3))
      case _ => s
  }

  function RunCall(w: World, r: Ran, call: Call): Ran {
    if !r.ok then r
    else
      match call
      case Upsert(key) =>
        if key.kind in KINDS then Returns(r.(view := r.view.(entities := r.view.entities + {key})), Some(key)) else Raise(r)
      case NewConcept(name) => Returns(r.(view := AddConcept(w, r.view, name)), Some(Key("concept", w.canon(name))))
      case NewNsConcept(ns, name) =>
        Returns(r.(view := AddConcept(w, r.view, ns + "/" + name)), Some(Key("concept", w.canon(ns + "/" + name))))
      case Find(candidates) => Returns(r, FirstHit(r.view.entities, candidates))
      case Do(op) => Returns(RunOp(r, op), None)
      case Bulk(items) => Returns(RunItems(r, items), None)
  }

  /** The document first, and then call after call. */
  function Run(w: World, v: View, doc: Key, calls: seq<Call>): Ran {
    if calls == [] then Ran(v.(entities := v.entities + {doc}), [], doc.kind in KINDS)
    else RunCall(w, Run(w, v, doc, calls[..|calls| - 1]), calls[|calls| - 1])
  }
}
