/** The weighted expansion over a graph, level by level, against the sum over all its walks. */
module Walk {
  import opened Picking
  import opened SetSum

  type Node = int
  type Path = p: seq<Node> | p != [] witness [0]

  /** Accumulated weight and the seeds that contributed to it. */
  type Level = map<Node, (real, set<Node>)>

  /** What a walk is worth. */
  type Worth = Path -> real

  datatype Net = Net(adj: map<Node, map<Node, real>>, seeds: map<Node, real>, decay: real)

  function Last(p: Path): Node { p[|p| - 1] }

  predicate HasEdge(net: Net, u: Node, v: Node) {
    u in net.adj && v in net.adj[u]
  }

  function Edge(net: Net, u: Node, v: Node): real {
    if HasEdge(net, u, v) then net.adj[u][v] else 0.0
  }

  function Seed(net: Net, s: Node): real {
    if s in net.seeds then net.seeds[s] else 0.0
  }

  function Pow(x: real, n: nat): real {
    if n == 0 then 1.0 else x * Pow(x, n - 1)
  }

  /** 1 + 2 + ... + h */
  function Triangle(h: nat): nat { h * (h + 1) / 2 }

  function EdgeProduct(net: Net, p: Path): real {
    if |p| == 1 then 1.0 else Times(EdgeProduct(net, p[..|p| - 1]), Edge(net, p[|p| - 2], Last(p)))
  }

  /** A walk's worth, edge by edge: each edge at hop h costs one more decay^h.  `WeightIsClosed` gives
    * it as seed weight, edge weights and decay^(h(h+1)/2). */
  function Weight(net: Net, p: Path): real {
    if |p| == 1 then Seed(net, p[0])
    else Along(Weight(net, p[..|p| - 1]), Edge(net, p[|p| - 2], Last(p)), Pow(net.decay, |p| - 1))
  }

  function Along(w: real, e: real, d: real): real { w * e * d }

  function Times(a: real, b: real): real { a * b }

  /** A walk starts at a seed of the graph and follows edges. */
  predicate IsWalk(net: Net, p: Path) {
    && p[0] in net.seeds && p[0] in net.adj
    && forall i | 0 <= i < |p| - 1 :: HasEdge(net, p[i], p[i + 1])
  }

  // ----- sums over sets of walks -------------------------------------------------------

  ghost function At(s: set<Path>, v: Node): set<Path> { set p | p in s && Last(p) == v }

  ghost function Starts(s: set<Path>): set<Node> { set p | p in s :: p[0] }

  ghost function Ends(s: set<Path>): set<Node> { set p | p in s :: Last(p) }

  /** `level` holds, for each end of a walk in `s`, the sum and the seeds of the walks ending there. */
  ghost predicate Summarises(f: Worth, level: Level, s: set<Path>) {
    && (forall p | p in s :: Last(p) in level)
    && (forall v | v in level :: SumsAt(f, level, s, v))
  }

  ghost predicate SumsAt(f: Worth, level: Level, s: set<Path>, v: Node)
    requires v in level
  {
    At(s, v) != {} && level[v].0 == Sum(f, At(s, v)) && level[v].1 == Starts(At(s, v))
  }

  /** Adding the walks `t`, all ending at `v`, to the entry of `v`. */
  lemma Merge(f: Worth, level: Level, s: set<Path>, t: set<Path>, v: Node, w: real, prov: set<Node>)
    requires Summarises(f, level, s) && s !! t && t != {}
    requires forall p | p in t :: Last(p) == v
    requires w == Sum(f, t) && prov == Starts(t)
    ensures Summarises(f, Bump(level, v, w, prov), s + t)
  {
    var after := Bump(level, v, w, prov);
    forall u | u in after ensures SumsAt(f, after, s + t, u) {
      if u == v {
        assert At(s + t, v) == At(s, v) + t;
        SumUnion(f, At(s, v), t);
        assert v !in level ==> At(s, v) == {};
      } else {
        assert SumsAt(f, level, s, u);
        assert At(s + t, u) == At(s, u);
      }
    }
  }

  /** `cur_w, cur_prov = level.get(v, (0.0, set())); level[v] = (cur_w + w, cur_prov | prov)` */
  function Bump(level: Level, v: Node, w: real, prov: set<Node>): Level {
    var cur := if v in level then level[v] else (0.0, {});
    level[v := (cur.0 + w, cur.1 + prov)]
  }

  // ----- one more step -----------------------------------------------------------------

  ghost function Extend(net: Net, s: set<Path>): set<Path> {
    set p, v | p in s && Last(p) in net.adj && v in net.adj[Last(p)] :: p + [v]
  }

  ghost function ExtendTo(s: set<Path>, v: Node): set<Path> {
    set p | p in s :: p + [v]
  }

  /** `q` is a walk of `s` and one edge. */
  ghost predicate Extends(net: Net, s: set<Path>, q: Path) {
    |q| >= 2 && q[..|q| - 1] in s && HasEdge(net, q[|q| - 2], Last(q))
  }

  lemma ExtendIs(net: Net, s: set<Path>, q: Path)
    ensures q in Extend(net, s) <==> Extends(net, s, q)
  {
    if Extends(net, s, q) {
      assert q == q[..|q| - 1] + [Last(q)];
    }
    if q in Extend(net, s) {
      var p, v :| p in s && Last(p) in net.adj && v in net.adj[Last(p)] && q == p + [v];
      assert q[..|q| - 1] == p;
    }
  }

  lemma ExtendToIs(s: set<Path>, v: Node, q: Path)
    ensures q in ExtendTo(s, v) <==> |q| >= 2 && Last(q) == v && q[..|q| - 1] in s
  {
    if |q| >= 2 && Last(q) == v && q[..|q| - 1] in s {
      assert q == q[..|q| - 1] + [v];
    }
    if q in ExtendTo(s, v) {
      var p :| p in s && q == p + [v];
      assert q[..|q| - 1] == p;
    }
  }

  lemma {:induction false} PowAdd(x: real, m: nat, n: nat)
    ensures Pow(x, m + n) == Pow(x, m) * Pow(x, n)
  {
    if m > 0 {
      PowAdd(x, m - 1, n);
    }
  }

  /** The parts of that weight: powers by repeated multiplication, the edges' product edge by edge, and
    * the hops of all steps together. */
  lemma PartsAre(net: Net, p: Path, v: Node, x: real, n: nat)
    requires HasEdge(net, Last(p), v)
    ensures Pow(x, 0) == 1.0 && Pow(x, 1) == x && Pow(x, n + 1) == Pow(x, n) * x
    ensures EdgeProduct(net, [v]) == 1.0 && EdgeProduct(net, p + [v]) == EdgeProduct(net, p) * net.adj[Last(p)][v]
    ensures Triangle(0) == 0 && Triangle(n + 1) == Triangle(n) + n + 1
    ensures Seed(net, v) == if v in net.seeds then net.seeds[v] else 0.0
  {
    assert Pow(x, 1) == x * Pow(x, 0);
    PowAdd(x, n, 1);
    assert (p + [v])[..|p|] == p;
    TriangleStep(n);
  }

  lemma TriangleStep(h: nat)
    ensures Triangle(h + 1) == Triangle(h) + h + 1
  {
    assert (h + 1) * (h + 2) == h * (h + 1) + 2 * (h + 1);
  }

  lemma Regroup(a: real, b: real, c: real, e: real, d: real)
    ensures a * (b * e) * (c * d) == a * b * c * e * d
  {
    assert a * (b * e) == a * b * e;
    assert a * b * e * (c * d) == (a * b) * (e * c * d);
    assert e * c * d == c * e * d;
    assert (a * b) * (c * e * d) == a * b * c * e * d;
  }

  lemma PowerStep(x: real, h: nat)
    ensures Pow(x, Triangle(h + 1)) == Times(Pow(x, Triangle(h)), Pow(x, h + 1))
  {
    TriangleStep(h);
    PowAdd(x, Triangle(h), h + 1);
  }

  lemma ClosedStep(s: real, product: real, power: real, e: real, d: real, product1: real, power1: real, w: real, w1: real)
    requires w == Along(s, product, power) && w1 == Along(w, e, d)
    requires product1 == Times(product, e) && power1 == Times(power, d)
    ensures w1 == Along(s, product1, power1)
  {
    Regroup(s, product, power, e, d);
  }

  /** A walk of h edges is worth its seed's weight, times its edges' weights, times decay^(h(h+1)/2). */
  lemma {:induction false} WeightIsClosed(net: Net, p: Path, s: real)
    requires s == Seed(net, p[0])
    ensures Weight(net, p) == Along(s, EdgeProduct(net, p), Pow(net.decay, Triangle(|p| - 1)))
    decreases |p|
  {
    if |p| > 1 {
      var front: Path := p[..|p| - 1];
      WeightIsClosed(net, front, s);
      PowerStep(net.decay, |p| - 2);
      ClosedStep(s, EdgeProduct(net, front), Pow(net.decay, Triangle(|front| - 1)), Edge(net, p[|p| - 2], Last(p)),
                 Pow(net.decay, |p| - 1), EdgeProduct(net, p), Pow(net.decay, Triangle(|p| - 1)),
                 Weight(net, front), Weight(net, p));
    } else {
      assert Pow(net.decay, Triangle(0)) == 1.0;
    }
  }

  lemma WeightStep(net: Net, p: Path, v: Node)
    ensures Weight(net, p + [v]) == Along(Weight(net, p), Edge(net, Last(p), v), Pow(net.decay, |p|))
  {
    assert (p + [v])[..|p|] == p;
  }

  ghost predicate IsWorth(net: Net, f: Worth) {
    forall p :: f(p) == Weight(net, p)
  }

  lemma ScalesIf(f: Worth, p: Path, v: Node, w: real, next: real, e: real, d: real)
    requires f(p) == w && f(p + [v]) == next && next == Along(w, e, d)
    ensures ScalesBy(f, p, v, By(e, d))
  {
  }

  /** The step for `f`, given what the weights do. */
  lemma WorthStep(f: Worth, p: Path, v: Node, w: real, next: real, e: real, d: real, g: real -> real)
    requires f(p) == w && f(p + [v]) == next && next == Along(w, e, d) && g == By(e, d)
    ensures ScalesBy(f, p, v, g)
  {
    ScalesIf(f, p, v, w, next, e, d);
  }

  lemma WorthMultiplies(net: Net, f: Worth)
    requires IsWorth(net, f)
    ensures Multiplies(net, f)
  {
    forall p, v ensures ScalesBy(f, p, v, By(Edge(net, Last(p), v), Pow(net.decay, |p|))) {
      WeightStep(net, p, v);
      WorthStep(f, p, v, Weight(net, p), Weight(net, p + [v]), Edge(net, Last(p), v), Pow(net.decay, |p|),
                By(Edge(net, Last(p), v), Pow(net.decay, |p|)));
    }
  }

  lemma Distribute(a: real, b: real, e: real, d: real)
    ensures (a + b) * e * d == a * e * d + b * e * d
  {
    assert (a + b) * e == a * e + b * e;
  }

  /** One more edge multiplies a walk's worth by the edge and by decay to the number of edges. */
  ghost predicate Multiplies(net: Net, f: Worth) {
    forall p, v :: ScalesBy(f, p, v, By(Edge(net, Last(p), v), Pow(net.decay, |p|)))
  }

  ghost predicate ScalesBy(f: Worth, p: Path, v: Node, g: real -> real) {
    f(p + [v]) == g(f(p))
  }

  /** Multiplication by `e` and then by `d`. */
  function By(e: real, d: real): real -> real { (x: real) => Along(x, e, d) }

  ghost predicate Additive(g: real -> real) {
    g(0.0) == 0.0 && forall a, b :: AddsAt(g, a, b)
  }

  ghost predicate AddsAt(g: real -> real, a: real, b: real) {
    g(a + b) == g(a) + g(b)
  }

  lemma ByIsAdditive(e: real, d: real)
    ensures Additive(By(e, d))
  {
    forall a, b ensures AddsAt(By(e, d), a, b) {
      Distribute(a, b, e, d);
    }
  }

  /** Extending every walk of `t` by one edge scales the sum. */
  lemma {:induction false} SumExtended(f: Worth, t: set<Path>, v: Node, g: real -> real)
    requires Additive(g) && forall p | p in t :: ScalesBy(f, p, v, g)
    ensures Sum(f, ExtendTo(t, v)) == g(Sum(f, t))
  {
    if t == {} {
      assert ExtendTo(t, v) == {};
    } else {
      var p :| p in t;
      SumExtended(f, t - {p}, v, g);
      SumRemove(f, t, p);
      SumOfExtended(f, t, p, v);
      assert ScalesBy(f, p, v, g) && AddsAt(g, f(p), Sum(f, t - {p}));
    }
  }

  lemma EdgeScales(net: Net, f: Worth, t: set<Path>, u: Node, v: Node, h: nat)
    requires Multiplies(net, f) && forall p | p in t :: Last(p) == u && |p| == h
    ensures forall p | p in t :: ScalesBy(f, p, v, By(Edge(net, u, v), Pow(net.decay, h)))
  {
    forall p | p in t ensures ScalesBy(f, p, v, By(Edge(net, u, v), Pow(net.decay, h))) {
      assert ScalesBy(f, p, v, By(Edge(net, Last(p), v), Pow(net.decay, |p|)));
    }
  }

  lemma ScaleBoth(f: Worth, t: set<Path>, v: Node, e: real, d: real)
    requires forall p | p in t :: ScalesBy(f, p, v, By(e, d))
    ensures Sum(f, ExtendTo(t, v)) == Sum(f, t) * e * d
  {
    ByIsAdditive(e, d);
    SumExtended(f, t, v, By(e, d));
  }

  lemma OneEdge(net: Net, f: Worth, t: set<Path>, u: Node, v: Node, h: nat)
    requires Multiplies(net, f) && forall p | p in t :: Last(p) == u && |p| == h
    ensures Sum(f, ExtendTo(t, v)) == Sum(f, t) * Edge(net, u, v) * Pow(net.decay, h)
  {
    EdgeScales(net, f, t, u, v, h);
    ScaleBoth(f, t, v, Edge(net, u, v), Pow(net.decay, h));
  }

  lemma SumOfExtended(f: Worth, t: set<Path>, p: Path, v: Node)
    requires p in t
    ensures Sum(f, ExtendTo(t, v)) == f(p + [v]) + Sum(f, ExtendTo(t - {p}, v))
  {
    var q: Path := p + [v];
    WithoutOne(t, p, v);
    assert q in ExtendTo(t, v);
    SumRemove(f, ExtendTo(t, v), q);
  }

  lemma WithoutOne(t: set<Path>, p: Path, v: Node)
    requires p in t
    ensures ExtendTo(t, v) - {p + [v]} == ExtendTo(t - {p}, v)
  {
    forall q: Path ensures q in ExtendTo(t, v) - {p + [v]} <==> q in ExtendTo(t - {p}, v) {
      ExtendToIs(t, v, q);
      ExtendToIs(t - {p}, v, q);
      assert q == p + [v] ==> q[..|q| - 1] == p;
      assert |q| >= 2 && q[..|q| - 1] == p && Last(q) == v ==> q == p + [v];
    }
  }

  lemma StartsExtended(t: set<Path>, v: Node)
    ensures Starts(ExtendTo(t, v)) == Starts(t)
  {
    forall s ensures s in Starts(ExtendTo(t, v)) <==> s in Starts(t) {
      if s in Starts(t) {
        var p :| p in t && p[0] == s;
        assert p + [v] in ExtendTo(t, v) && (p + [v])[0] == s;
      }
    }
  }

  // ----- the levels of a run -----------------------------------------------------------

  ghost function Started(net: Net): set<Path> {
    set s | s in net.seeds && s in net.adj :: [s]
  }

  /** `kept` is `all` cut to the `cap` ends of greatest weight. */
  ghost predicate Cut(f: Worth, all: set<Path>, kept: set<Path>, cap: nat) {
    && kept <= all
    && (forall p | p in all && Last(p) in Ends(kept) :: p in kept)
    && (if |Ends(all)| <= cap then kept == all
        else |Ends(kept)| == cap
             && forall u, v | u in Ends(kept) && v in Ends(all) - Ends(kept)
                  :: Sum(f, At(all, u)) >= Sum(f, At(all, v)))
  }

  /** The walks kept at each hop. */
  ghost predicate IsRun(net: Net, f: Worth, levels: seq<set<Path>>, cap: nat) {
    && levels != [] && levels[0] == Started(net)
    && forall h | 0 <= h < |levels| - 1 :: Cut(f, Extend(net, levels[h]), levels[h + 1], cap)
  }

  ghost function Union(levels: seq<set<Path>>): set<Path> {
    if levels == [] then {} else Union(levels[..|levels| - 1]) + levels[|levels| - 1]
  }

  /** All walks of exactly h edges. */
  ghost function WalksOf(net: Net, h: nat): set<Path> {
    if h == 0 then Started(net) else Extend(net, WalksOf(net, h - 1))
  }

  /** All walks of at most h edges. */
  ghost function WalksUpTo(net: Net, h: nat): set<Path> {
    if h == 0 then WalksOf(net, 0) else WalksUpTo(net, h - 1) + WalksOf(net, h)
  }

  lemma StartedIs(net: Net, p: Path)
    ensures p in Started(net) <==> |p| == 1 && p[0] in net.seeds && p[0] in net.adj
  {
    if |p| == 1 && p[0] in net.seeds && p[0] in net.adj {
      var s := p[0];
      assert p == [s] && [s] in Started(net);
    }
  }

  lemma {:induction false} WalksOfAre(net: Net, h: nat, p: Path)
    ensures p in WalksOf(net, h) <==> IsWalk(net, p) && |p| == h + 1
  {
    if h == 0 {
      StartedIs(net, p);
    } else {
      ExtendIs(net, WalksOf(net, h - 1), p);
      if |p| >= 2 {
        WalksOfAre(net, h - 1, p[..|p| - 1]);
        WalkStep(net, p);
      }
    }
  }

  lemma WalkStep(net: Net, p: Path)
    requires |p| >= 2
    ensures IsWalk(net, p) <==> IsWalk(net, p[..|p| - 1]) && HasEdge(net, p[|p| - 2], Last(p))
  {
    var q: Path := p[..|p| - 1];
    if IsWalk(net, p) {
      forall i | 0 <= i < |q| - 1 ensures HasEdge(net, q[i], q[i + 1]) {
        assert HasEdge(net, p[i], p[i + 1]);
      }
      assert HasEdge(net, p[|p| - 2], p[|p| - 2 + 1]);
    }
    if IsWalk(net, q) && HasEdge(net, p[|p| - 2], Last(p)) {
      forall i | 0 <= i < |p| - 1 ensures HasEdge(net, p[i], p[i + 1]) {
        assert i < |q| - 1 ==> HasEdge(net, q[i], q[i + 1]);
      }
    }
  }

  /** `WalksUpTo` is the set of all walks of at most h edges, and nothing else. */
  lemma {:induction false} WalksUpToAre(net: Net, h: nat, p: Path)
    ensures p in WalksUpTo(net, h) <==> IsWalk(net, p) && |p| <= h + 1
  {
    WalksOfAre(net, h, p);
    if h > 0 {
      WalksUpToAre(net, h - 1, p);
    }
  }

  lemma {:induction false} RunIsWalks(net: Net, f: Worth, levels: seq<set<Path>>, cap: nat, h: nat)
    requires IsRun(net, f, levels, cap) && h < |levels|
    ensures levels[h] <= WalksOf(net, h)
    ensures (forall i | 1 <= i <= h :: |Ends(WalksOf(net, i))| <= cap) ==> levels[h] == WalksOf(net, h)
  {
    if h > 0 {
      RunIsWalks(net, f, levels, cap, h - 1);
      assert Cut(f, Extend(net, levels[h - 1]), levels[h - 1 + 1], cap);
      forall p | p in Extend(net, levels[h - 1]) ensures p in WalksOf(net, h) {
        ExtendIs(net, levels[h - 1], p);
        ExtendIs(net, WalksOf(net, h - 1), p);
      }
    }
  }

  lemma {:induction false} UnionIsWalks(net: Net, f: Worth, levels: seq<set<Path>>, cap: nat)
    requires IsRun(net, f, levels, cap)
    ensures Union(levels) <= WalksUpTo(net, |levels| - 1)
    ensures (forall i | 1 <= i < |levels| :: |Ends(WalksOf(net, i))| <= cap)
            ==> Union(levels) == WalksUpTo(net, |levels| - 1)
  {
    var h := |levels| - 1;
    RunIsWalks(net, f, levels, cap, h);
    if h > 0 {
      var front := levels[..h];
      forall i | 0 <= i < |front| - 1 ensures Cut(f, Extend(net, front[i]), front[i + 1], cap) {
        assert Cut(f, Extend(net, levels[i]), levels[i + 1], cap);
      }
      UnionIsWalks(net, f, front, cap);
    } else {
      assert Union(levels[..0]) == {};
    }
  }

  // ----- nothing is overcounted --------------------------------------------------------

  ghost predicate NonNegative(net: Net) {
    && net.decay >= 0.0
    && (forall s | s in net.seeds :: net.seeds[s] >= 0.0)
    && (forall u, v | u in net.adj && v in net.adj[u] :: net.adj[u][v] >= 0.0)
  }

  lemma TimesPositive(a: real, b: real)
    requires a >= 0.0 && b >= 0.0
    ensures a * b >= 0.0
  {
  }

  lemma {:induction false} PowPositive(x: real, n: nat)
    requires x >= 0.0
    ensures Pow(x, n) >= 0.0
  {
    if n > 0 {
      PowPositive(x, n - 1);
      TimesPositive(x, Pow(x, n - 1));
    }
  }

  lemma {:induction false} WeightPositive(net: Net, p: Path)
    requires NonNegative(net)
    ensures Weight(net, p) >= 0.0
    decreases |p|
  {
    if |p| > 1 {
      var w, e, d := Weight(net, p[..|p| - 1]), Edge(net, p[|p| - 2], Last(p)), Pow(net.decay, |p| - 1);
      WeightPositive(net, p[..|p| - 1]);
      PowPositive(net.decay, |p| - 1);
      TimesPositive(w, e);
      TimesPositive(w * e, d);
    }
  }

  /** Whatever walks were kept, each node's weight and seeds are at most those of all its walks. */
  lemma KeptIsAtMostAll(f: Worth, acc: Level, kept: set<Path>, all: set<Path>, v: Node)
    requires Summarises(f, acc, kept) && kept <= all && v in acc
    ensures At(all, v) != {} && acc[v].1 <= Starts(At(all, v))
    ensures NeverNegative(f) ==> acc[v].0 <= Sum(f, At(all, v))
  {
    assert SumsAt(f, acc, kept, v);
    assert At(kept, v) <= At(all, v);
    if NeverNegative(f) {
      SumGrows(f, At(kept, v), At(all, v));
    }
  }

  // ----- the walk ----------------------------------------------------------------------

  lemma MoreLeft(kept: Level, rest: set<Node>, level: Level, cap: nat)
    requires |level| > cap && |kept| < cap && kept.Keys + rest == level.Keys
    ensures rest != {}
  {
    assert rest == {} ==> kept.Keys == level.Keys;
  }

  /** Keeps the `cap` heaviest entries. */
  method Truncate(level: Level, cap: nat) returns (kept: Level)
    requires |level| > cap
    ensures kept.Keys <= level.Keys && |kept| == cap && forall v | v in kept :: kept[v] == level[v]
    ensures forall u, v | u in kept && v in level && v !in kept :: level[u].0 >= level[v].0
  {
    kept := map[];
    var rest := level.Keys;
    while |kept| < cap
      invariant |kept| <= cap && kept.Keys !! rest && kept.Keys + rest == level.Keys
      invariant forall v | v in kept :: kept[v] == level[v]
      invariant forall u, v | u in kept && v in rest :: level[u].0 >= level[v].0
    {
      MoreLeft(kept, rest, level, cap);
      var best := Heaviest(level, rest);
      kept := kept[best := level[best]];
      rest := rest - {best};
    }
  }

  method Heaviest(level: Level, among: set<Node>) returns (best: Node)
    requires among != {} && among <= level.Keys
    ensures best in among && forall v | v in among :: level[best].0 >= level[v].0
  {
    best := Pick(among);
    var todo := among - {best};
    while todo != {}
      invariant todo <= among && best in among - todo
      invariant forall v | v in among - todo :: level[best].0 >= level[v].0
    {
      var v := Pick(todo);
      if level[v].0 > level[best].0 {
        best := v;
      }
      todo := todo - {v};
    }
  }

  /** The walks of `s` that leave a node outside `todo`, extended. */
  ghost predicate Passed(net: Net, s: set<Path>, todo: set<Node>, q: Path) {
    Extends(net, s, q) && q[|q| - 2] !in todo
  }

  ghost predicate AllPassed(net: Net, s: set<Path>, todo: set<Node>, done: set<Path>) {
    forall q: Path :: q in done <==> Passed(net, s, todo, q)
  }

  method Spread(net: Net, ghost f: Worth, frontier: Level, step: real, ghost s: set<Path>, ghost h: nat) returns (level: Level)
    requires Multiplies(net, f) && Summarises(f, frontier, s)
    requires step == Pow(net.decay, h) && forall p | p in s :: |p| == h
    ensures Summarises(f, level, Extend(net, s))
  {
    level := map[];
    ghost var done: set<Path> := {};
    var todo := frontier.Keys;
    forall q: Path ensures !Passed(net, s, todo, q) {
      assert Extends(net, s, q) ==> Last(q[..|q| - 1]) in frontier;
    }
    while todo != {}
      invariant todo <= frontier.Keys
      invariant Summarises(f, level, done)
      invariant AllPassed(net, s, todo, done)
    {
      var node := Pick(todo);
      level, done := SpreadFrom(net, f, frontier, step, node, level, s, h, done, todo);
      todo := todo - {node};
    }
    assert done == Extend(net, s) by {
      forall q: Path ensures q in done <==> q in Extend(net, s) {
        ExtendIs(net, s, q);
        assert q in done <==> Passed(net, s, todo, q);
      }
    }
  }

  /** What one edge adds is the worth of the walks it extends. */
  lemma EdgeSum(net: Net, f: Worth, frontier: Level, node: Node, nb: Node, s: set<Path>, h: nat)
    requires Multiplies(net, f) && Summarises(f, frontier, s) && forall p | p in s :: |p| == h
    requires node in frontier && HasEdge(net, node, nb)
    ensures Sum(f, ExtendTo(At(s, node), nb)) == frontier[node].0 * net.adj[node][nb] * Pow(net.decay, h)
    ensures Starts(ExtendTo(At(s, node), nb)) == frontier[node].1 && At(s, node) != {}
  {
    assert SumsAt(f, frontier, s, node);
    OneEdge(net, f, At(s, node), node, nb, h);
    StartsExtended(At(s, node), nb);
  }

  lemma SpreadStep(net: Net, f: Worth, node: Node, nb: Node, level: Level, s: set<Path>, add: real, prov: set<Node>,
                   seen: set<Path>, done: set<Path>, todo: set<Node>, left: set<Node>)
    requires node in todo && HasEdge(net, node, nb) && nb in left && At(s, node) != {}
    requires add == Sum(f, ExtendTo(At(s, node), nb)) && prov == Starts(ExtendTo(At(s, node), nb))
    requires Summarises(f, level, done) && AllPassed(net, s, todo, seen) && Reached(net, s, node, left, seen, done)
    ensures Summarises(f, Bump(level, nb, add, prov), done + ExtendTo(At(s, node), nb))
    ensures Reached(net, s, node, left - {nb}, seen, done + ExtendTo(At(s, node), nb))
  {
    FreshExtensions(net, s, node, left, nb, seen, done, todo);
    Merge(f, level, done, ExtendTo(At(s, node), nb), nb, add, prov);
  }

  /** One node's neighbours. */
  method SpreadFrom(net: Net, ghost f: Worth, frontier: Level, step: real, node: Node, before: Level,
                    ghost s: set<Path>, ghost h: nat, ghost seen: set<Path>, ghost todo: set<Node>)
    returns (level: Level, ghost done: set<Path>)
    requires Multiplies(net, f) && Summarises(f, frontier, s)
    requires step == Pow(net.decay, h) && forall p | p in s :: |p| == h
    requires node in todo && node in frontier
    requires Summarises(f, before, seen) && AllPassed(net, s, todo, seen)
    ensures Summarises(f, level, done) && AllPassed(net, s, todo - {node}, done)
  {
    level, done := before, seen;
    var nbrs := if node in net.adj then net.adj[node] else map[];
    var left := nbrs.Keys;
    ghost var t := At(s, node);
    NoneReached(net, s, node, seen);
    while left != {}
      invariant left <= nbrs.Keys
      invariant Summarises(f, level, done)
      invariant Reached(net, s, node, left, seen, done)
    {
      var nb := Pick(left);
      var add := frontier[node].0 * nbrs[nb] * step;
      EdgeSum(net, f, frontier, node, nb, s, h);
      SpreadStep(net, f, node, nb, level, s, add, frontier[node].1, seen, done, todo, left);
      level, done := Bump(level, nb, add, frontier[node].1), done + ExtendTo(t, nb);
      left := left - {nb};
    }
    AllReached(net, s, node, seen, done, todo);
  }

  /** An extension of a walk at `node` to a neighbour outside `left`. */
  ghost predicate InReach(net: Net, s: set<Path>, node: Node, left: set<Node>, q: Path) {
    Extends(net, s, q) && q[|q| - 2] == node && Last(q) !in left
  }

  ghost predicate Reached(net: Net, s: set<Path>, node: Node, left: set<Node>, seen: set<Path>, done: set<Path>) {
    forall q: Path :: q in done <==> q in seen || InReach(net, s, node, left, q)
  }

  lemma NoneReached(net: Net, s: set<Path>, node: Node, seen: set<Path>)
    ensures Reached(net, s, node, if node in net.adj then net.adj[node].Keys else {}, seen, seen)
  {
  }

  lemma AllReached(net: Net, s: set<Path>, node: Node, seen: set<Path>, done: set<Path>, todo: set<Node>)
    requires AllPassed(net, s, todo, seen) && Reached(net, s, node, {}, seen, done)
    requires node in todo
    ensures AllPassed(net, s, todo - {node}, done)
  {
    forall q: Path ensures q in done <==> Passed(net, s, todo - {node}, q) {
      assert q in seen <==> Passed(net, s, todo, q);
      assert q in done <==> q in seen || InReach(net, s, node, {}, q);
    }
  }

  lemma FreshExtensions(net: Net, s: set<Path>, node: Node, left: set<Node>, nb: Node,
                        seen: set<Path>, done: set<Path>, todo: set<Node>)
    requires node in todo && HasEdge(net, node, nb) && nb in left && At(s, node) != {}
    requires AllPassed(net, s, todo, seen) && Reached(net, s, node, left, seen, done)
    ensures done !! ExtendTo(At(s, node), nb) && ExtendTo(At(s, node), nb) != {}
    ensures forall q | q in ExtendTo(At(s, node), nb) :: Last(q) == nb
    ensures Reached(net, s, node, left - {nb}, seen, done + ExtendTo(At(s, node), nb))
  {
    var e := ExtendTo(At(s, node), nb);
    forall q: Path
      ensures q in e <==> InReach(net, s, node, left - {nb}, q) && !InReach(net, s, node, left, q)
      ensures q in e ==> q !in seen && Last(q) == nb
    {
      ExtendToIs(At(s, node), nb, q);
      assert |q| >= 2 ==> Last(q[..|q| - 1]) == q[|q| - 2];
    }
    var p :| p in At(s, node);
    assert p + [nb] in e;
  }

  method Absorb(ghost f: Worth, before: Level, level: Level, ghost s: set<Path>, ghost t: set<Path>) returns (acc: Level)
    requires Summarises(f, before, s) && Summarises(f, level, t) && s !! t
    ensures Summarises(f, acc, s + t)
  {
    acc := before;
    var todo := level.Keys;
    ghost var done: set<Path> := {};
    assert s + done == s;
    while todo != {}
      invariant todo <= level.Keys && done <= t
      invariant forall p | p in t :: p in done <==> Last(p) !in todo
      invariant Summarises(f, acc, s + done)
    {
      var nb := Pick(todo);
      assert SumsAt(f, level, t, nb);
      Merge(f, acc, s + done, At(t, nb), nb, level[nb].0, level[nb].1);
      acc := Bump(acc, nb, level[nb].0, level[nb].1);
      assert s + done + At(t, nb) == s + (done + At(t, nb));
      done := done + At(t, nb);
      todo := todo - {nb};
    }
    assert done == t;
  }

  lemma TruncateKeeps(f: Worth, level: Level, kept: Level, all: set<Path>, cap: nat)
    requires Summarises(f, level, all) && |level| > cap
    requires kept.Keys <= level.Keys && |kept| == cap && forall v | v in kept :: kept[v] == level[v]
    requires forall u, v | u in kept && v in level && v !in kept :: level[u].0 >= level[v].0
    ensures Summarises(f, kept, EndingIn(all, kept.Keys)) && Cut(f, all, EndingIn(all, kept.Keys), cap)
  {
    var s := EndingIn(all, kept.Keys);
    EndsAreKeys(f, level, all);
    forall v | v in kept ensures SumsAt(f, kept, s, v) {
      assert SumsAt(f, level, all, v);
      assert At(s, v) == At(all, v);
    }
    EndsAreKeys(f, kept, s);
    forall u, v | u in Ends(s) && v in Ends(all) - Ends(s) ensures Sum(f, At(all, u)) >= Sum(f, At(all, v)) {
      assert SumsAt(f, level, all, u) && SumsAt(f, level, all, v);
    }
  }

  ghost function EndingIn(s: set<Path>, ends: set<Node>): set<Path> {
    set p | p in s && Last(p) in ends
  }

  lemma EndsAreKeys(f: Worth, level: Level, s: set<Path>)
    requires Summarises(f, level, s)
    ensures Ends(s) == level.Keys && |Ends(s)| == |level|
  {
    forall v | v in level ensures v in Ends(s) {
      assert SumsAt(f, level, s, v);
      var p :| p in At(s, v);
      assert Last(p) == v;
    }
    assert Ends(s) == level.Keys;
  }

  /** Cuts a level that is over the cap. */
  method Trim(ghost f: Worth, full: Level, cap: nat, ghost all: set<Path>) returns (level: Level, ghost next: set<Path>)
    requires Summarises(f, full, all)
    ensures Summarises(f, level, next) && Cut(f, all, next, cap)
  {
    level, next := full, all;
    EndsAreKeys(f, full, all);
    if |full| > cap {
      level := Truncate(full, cap);
      TruncateKeeps(f, full, level, all, cap);
      next := EndingIn(all, level.Keys);
    }
  }

  lemma LengthsDiffer(net: Net, f: Worth, levels: seq<set<Path>>, next: set<Path>, cap: nat)
    requires IsRun(net, f, levels, cap) && next <= Extend(net, levels[|levels| - 1])
    ensures Union(levels) !! next
    ensures forall p | p in levels[|levels| - 1] :: |p| == |levels|
  {
    UnionIsWalks(net, f, levels, cap);
    var h := |levels| - 1;
    RunIsWalks(net, f, levels, cap, h);
    forall p | p in next ensures |p| == h + 2 {
      ExtendIs(net, levels[h], p);
      WalksOfAre(net, h, p[..|p| - 1]);
    }
    forall p | p in Union(levels) ensures |p| <= h + 1 {
      WalksUpToAre(net, h, p);
    }
    forall p | p in levels[h] ensures |p| == h + 1 {
      WalksOfAre(net, h, p);
    }
  }

  method Begin(net: Net, ghost f: Worth) returns (acc: Level)
    requires IsWorth(net, f)
    ensures Summarises(f, acc, Started(net))
  {
    acc := map[];
    var todo := net.seeds.Keys;
    while todo != {}
      invariant todo <= net.seeds.Keys
      invariant forall s :: s in acc <==> s in net.seeds && s in net.adj && s !in todo
      invariant forall s | s in acc :: acc[s] == (net.seeds[s], {s})
    {
      var s := Pick(todo);
      if s in net.adj {
        acc := acc[s := (net.seeds[s], {s})];
      }
      todo := todo - {s};
    }
    forall v | v in acc ensures SumsAt(f, acc, Started(net), v) {
      OneStart(net, f, v);
    }
  }

  lemma OneStart(net: Net, f: Worth, v: Node)
    requires IsWorth(net, f) && v in net.seeds && v in net.adj
    ensures At(Started(net), v) != {} && Starts(At(Started(net), v)) == {v}
    ensures Sum(f, At(Started(net), v)) == net.seeds[v]
  {
    var p: Path := [v];
    var one: set<Path> := {p};
    assert At(Started(net), v) == one;
    SumRemove(f, one, p);
    assert one - {p} == {};
    assert f(p) == Weight(net, p) == net.seeds[v];
  }

  /** The levels of the expansion.  `levels` are the walks kept at each hop. */
  method Expand(net: Net, hops: nat, cap: nat, ghost f: Worth) returns (acc: Level, ghost levels: seq<set<Path>>)
    requires IsWorth(net, f)
    ensures |levels| == hops + 1 && IsRun(net, f, levels, cap) && Summarises(f, acc, Union(levels))
  {
    WorthMultiplies(net, f);
    acc := Begin(net, f);
    levels := [Started(net)];
    assert levels[..0] == [];
    assert Union(levels) == Started(net);
    var frontier, hop := acc, 0;
    while hop < hops
      invariant 0 <= hop <= hops && |levels| == hop + 1
      invariant IsRun(net, f, levels, cap) && Summarises(f, acc, Union(levels))
      invariant Summarises(f, frontier, levels[hop])
    {
      LengthsDiffer(net, f, levels, {}, cap);
      ghost var all := Extend(net, levels[hop]);
      var level := Spread(net, f, frontier, Pow(net.decay, hop + 1), levels[hop], hop + 1);
      EndsAreKeys(f, level, all);
      if level == map[] {
        break;
      }
      ghost var next;
      level, next := Trim(f, level, cap, all);
      LengthsDiffer(net, f, levels, next, cap);
      acc := Absorb(f, acc, level, Union(levels), next);
      AddLevel(net, f, levels, next, cap);
      levels, frontier, hop := levels + [next], level, hop + 1;
    }
    levels := Padded(net, f, levels, hops, cap);
  }

  ghost predicate CapHolds(net: Net, hops: nat, cap: nat) {
    forall i | 1 <= i <= hops :: |Ends(WalksOf(net, i))| <= cap
  }

  /** With no level over the cap, the result is the sum over all walks, and their seeds. */
  lemma UncappedIsExact(net: Net, hops: nat, cap: nat, f: Worth, acc: Level, levels: seq<set<Path>>)
    requires |levels| == hops + 1 && IsRun(net, f, levels, cap) && Summarises(f, acc, Union(levels))
    requires CapHolds(net, hops, cap)
    ensures Summarises(f, acc, WalksUpTo(net, hops))
  {
    UnionIsWalks(net, f, levels, cap);
  }

  /** Capped or not, with weights that are not negative nothing is overcounted. */
  lemma CappedIsBelow(net: Net, hops: nat, cap: nat, f: Worth, acc: Level, levels: seq<set<Path>>, v: Node)
    requires |levels| == hops + 1 && IsRun(net, f, levels, cap) && Summarises(f, acc, Union(levels)) && v in acc
    requires IsWorth(net, f) && NonNegative(net)
    ensures v in Ends(WalksUpTo(net, hops)) && acc[v].1 <= Starts(At(WalksUpTo(net, hops), v))
    ensures acc[v].0 <= Sum(f, At(WalksUpTo(net, hops), v))
  {
    UnionIsWalks(net, f, levels, cap);
    forall p ensures f(p) >= 0.0 {
      WeightPositive(net, p);
    }
    KeptIsAtMostAll(f, acc, Union(levels), WalksUpTo(net, hops), v);
    var p :| p in At(WalksUpTo(net, hops), v);
  }

  /** When every walk counts for something, a level over the cap always loses weight. */
  lemma OverCapIsNotExact(net: Net, hops: nat, cap: nat, f: Worth, acc: Level, levels: seq<set<Path>>)
    requires |levels| == hops + 1 && IsRun(net, f, levels, cap) && Summarises(f, acc, Union(levels))
    requires forall p | IsWalk(net, p) :: f(p) > 0.0
    requires !CapHolds(net, hops, cap)
    ensures !Summarises(f, acc, WalksUpTo(net, hops))
  {
    UnionIsWalks(net, f, levels, cap);
    var p := SomeWalkIsLost(net, hops, cap, f, levels);
    forall q | q in WalksUpTo(net, hops) ensures f(q) > 0.0 {
      WalksUpToAre(net, hops, q);
    }
    LosesWeight(f, acc, Union(levels), WalksUpTo(net, hops), p);
  }

  lemma LosesWeight(f: Worth, acc: Level, some: set<Path>, all: set<Path>, p: Path)
    requires Summarises(f, acc, some) && some <= all && p in all - some
    requires forall q | q in all :: f(q) > 0.0
    ensures !Summarises(f, acc, all)
  {
    if Summarises(f, acc, all) {
      var v := Last(p);
      assert SumsAt(f, acc, all, v) && SumsAt(f, acc, some, v);
      LostIsLess(f, At(some, v), At(all, v), p);
      assert false;
    }
  }

  lemma {:induction false} PositiveSum(f: Worth, s: set<Path>)
    requires forall q | q in s :: f(q) > 0.0
    ensures Sum(f, s) >= 0.0
  {
    if s != {} {
      var p :| p in s && Sum(f, s) == f(p) + Sum(f, s - {p});
      PositiveSum(f, s - {p});
    }
  }

  lemma LostIsLess(f: Worth, s: set<Path>, t: set<Path>, p: Path)
    requires s <= t && p in t - s && forall q | q in t :: f(q) > 0.0
    ensures Sum(f, s) < Sum(f, t)
  {
    SumUnion(f, s, t - s);
    assert s + (t - s) == t;
    SumRemove(f, t - s, p);
    PositiveSum(f, t - s - {p});
  }

  /** The first level over the cap. */
  lemma FirstOver(net: Net, hops: nat, cap: nat) returns (i: nat)
    requires !CapHolds(net, hops, cap)
    ensures 1 <= i <= hops && CapHolds(net, i - 1, cap) && |Ends(WalksOf(net, i))| > cap
  {
    i := 1;
    while |Ends(WalksOf(net, i))| <= cap
      invariant 1 <= i <= hops && CapHolds(net, i - 1, cap)
      decreases hops - i
    {
      i := i + 1;
    }
  }

  lemma CutLoses(f: Worth, all: set<Path>, kept: set<Path>, cap: nat) returns (p: Path)
    requires Cut(f, all, kept, cap) && |Ends(all)| > cap
    ensures p in all && p !in kept
  {
    assert all <= kept ==> kept == all;
    p :| p in all && p !in kept;
  }

  lemma SomeWalkIsLost(net: Net, hops: nat, cap: nat, f: Worth, levels: seq<set<Path>>) returns (p: Path)
    requires |levels| == hops + 1 && IsRun(net, f, levels, cap) && !CapHolds(net, hops, cap)
    ensures p in WalksUpTo(net, hops) && p !in Union(levels)
  {
    var i := FirstOver(net, hops, cap);
    RunIsWalks(net, f, levels, cap, i - 1);
    assert Cut(f, Extend(net, levels[i - 1]), levels[i - 1 + 1], cap);
    p := CutLoses(f, Extend(net, levels[i - 1]), levels[i], cap);
    RunIsWalks(net, f, levels, cap, i);
    WalksOfAre(net, i, p);
    WalksUpToAre(net, hops, p);
    NotElsewhere(net, f, levels, cap, i, p);
  }

  lemma NotElsewhere(net: Net, f: Worth, levels: seq<set<Path>>, cap: nat, i: nat, p: Path)
    requires IsRun(net, f, levels, cap) && i < |levels| && |p| == i + 1 && p !in levels[i]
    ensures p !in Union(levels)
  {
    if p in Union(levels) {
      var j := InSomeLevel(levels, p);
      RunIsWalks(net, f, levels, cap, j);
      WalksOfAre(net, j, p);
      assert false;
    }
  }

  lemma {:induction false} InSomeLevel(levels: seq<set<Path>>, p: Path) returns (j: nat)
    requires p in Union(levels)
    ensures j < |levels| && p in levels[j]
  {
    if p in levels[|levels| - 1] {
      j := |levels| - 1;
    } else {
      j := InSomeLevel(levels[..|levels| - 1], p);
    }
  }

  lemma AddLevel(net: Net, f: Worth, levels: seq<set<Path>>, next: set<Path>, cap: nat)
    requires IsRun(net, f, levels, cap) && Cut(f, Extend(net, levels[|levels| - 1]), next, cap)
    ensures IsRun(net, f, levels + [next], cap) && Union(levels + [next]) == Union(levels) + next
  {
    var more := levels + [next];
    assert more[..|more| - 1] == levels;
    forall h | 0 <= h < |more| - 1 ensures Cut(f, Extend(net, more[h]), more[h + 1], cap) {
      if h < |levels| - 1 {
        assert Cut(f, Extend(net, levels[h]), levels[h + 1], cap);
      }
    }
  }

  /** Once no walk goes on, the remaining hops add nothing. */
  ghost function Padded(net: Net, f: Worth, levels: seq<set<Path>>, hops: nat, cap: nat): (r: seq<set<Path>>)
    requires IsRun(net, f, levels, cap) && |levels| <= hops + 1
    requires |levels| <= hops ==> Extend(net, levels[|levels| - 1]) == {}
    ensures |r| == hops + 1 && IsRun(net, f, r, cap) && Union(r) == Union(levels)
    decreases hops + 1 - |levels|
  {
    if |levels| == hops + 1 then levels
    else
      assert Ends({}) == {};
      AddLevel(net, f, levels, {}, cap);
      assert Extend(net, {}) == {};
      Padded(net, f, levels + [{}], hops, cap)
  }
}
