/** Concrete runs of the read-only registry, put together from short pieces. */
module ReadOnlyRuns {
  import opened Options
  import opened ReadOnlyMachine
  import opened ReadOnlyTheorems

  /** `s2` is what `acts` lead to from `s1`. */
  predicate Leads(s1: State, acts: seq<Action>, s2: State) {
    Runs(s1, acts) && AfterRun(s1, acts) == s2
  }

  lemma LeadsCons(s1: State, a: Action, rest: seq<Action>, s2: State)
    requires Enabled(s1, a) && Leads(Step(s1, a), rest, s2)
    ensures Leads(s1, [a] + rest, s2)
  {
    assert ([a] + rest)[1..] == rest;
  }

  lemma LeadsTail(s1: State, p: seq<Action>, s2: State) returns (s: State)
    requires Leads(s1, p, s2) && p != []
    ensures Enabled(s1, p[0]) && s == Step(s1, p[0]) && Leads(s, p[1..], s2)
  {
    s := Step(s1, p[0]);
  }

  lemma {:induction false} LeadsAppend(s1: State, p: seq<Action>, s2: State, q: seq<Action>, s3: State)
    requires Leads(s1, p, s2) && Leads(s2, q, s3)
    ensures Leads(s1, p + q, s3)
    decreases |p|
  {
    if p == [] {
      assert p + q == q;
    } else {
      var s := LeadsTail(s1, p, s2);
      LeadsAppend(s, p[1..], s2, q, s3);
      LeadsCons(s1, p[0], p[1..] + q, s3);
      assert [p[0]] + (p[1..] + q) == p + q;
    }
  }

  lemma LeadsTwo(s1: State, a: Action, s2: State, b: Action, s3: State)
    requires Enabled(s1, a) && Step(s1, a) == s2 && Enabled(s2, b) && Step(s2, b) == s3
    ensures Leads(s1, [a, b], s3)
  {
    LeadsCons(s2, b, [], s3);
    LeadsCons(s1, a, [b], s3);
    assert [a] + [b] == [a, b] && [b] + [] == [b];
  }

  const PATH := "catalog.duckdb"

  /** Only thread `t` works: the path's history, the one instance if made, and its place. */
  function Alone(h: seq<Option<Inode>>, insts: seq<Inst>, t: Tid, p: PC): State {
    State(map[PATH := h], insts, map[], map[t := p], None, [], [], {})
  }
}
