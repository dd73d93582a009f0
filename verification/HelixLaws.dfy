/** The rows of a ring, line by line, and the session a ring belongs to. */
module HelixLaws {
  import opened Options
  import opened StableSort
  import opened HelixModel
  import opened Helix

  // ----- rows --------------------------------------------------------------------------

  /** How often a line names a token: not at all without a time. */
  function Mentions(ev: Event, tok: Token): set<int> {
    if ev.ts == 0.0 || tok == "" then {} else set j | 0 <= j < |ev.refs| && ev.refs[j] == tok
  }

  lemma {:induction false} LineRowsAre(ts: real, stem: Stem, line: nat, refs: seq<Token>, tok: Token)
    ensures |LineRows(ts, stem, line, refs, tok)| == |Mentions(Event(ts, refs), tok)|
    ensures forall r | r in LineRows(ts, stem, line, refs, tok) :: r == Row(ts, stem, line)
  {
    if refs != [] {
      var n := |refs| - 1;
      LineRowsAre(ts, stem, line, refs[..n], tok);
      var all, rest := Mentions(Event(ts, refs), tok), Mentions(Event(ts, refs[..n]), tok);
      assert all == rest + if ts != 0.0 && tok != "" && refs[n] == tok then {n} else {};
    } else {
      assert Mentions(Event(ts, refs), tok) == {};
    }
  }

  /** Line after line, one row for every mention on it, with the line's time and number. */
  lemma RingRowsAre(stem: Stem, events: seq<Event>, ev: Event, tok: Token) returns (more: seq<Row>)
    ensures RingRows(stem, [], tok) == [] && RingRows(stem, events + [ev], tok) == RingRows(stem, events, tok) + more
    ensures |more| == |Mentions(ev, tok)| && forall r | r in more :: r == Row(ev.ts, stem, |events|)
  {
    more := LineRows(ev.ts, stem, |events|, ev.refs, tok);
    LineRowsAre(ev.ts, stem, |events|, ev.refs, tok);
    assert (events + [ev])[..|events|] == events;
  }

  /** A row of a ring is a mention of its token on its line. */
  lemma {:induction false} RowIs(stem: Stem, events: seq<Event>, tok: Token, r: Row)
    ensures r in RingRows(stem, events, tok)
      <==> r.stem == stem && r.line < |events| && r.ts == events[r.line].ts && r.ts != 0.0 && tok != "" && tok in events[r.line].refs
  {
    if events != [] {
      var n := |events| - 1;
      RowIs(stem, events[..n], tok, r);
      assert events == events[..n] + [events[n]];
      var more := RingRowsAre(stem, events[..n], events[n], tok);
      if tok in events[n].refs && tok != "" && events[n].ts != 0.0 {
        var j :| 0 <= j < |events[n].refs| && events[n].refs[j] == tok;
        assert j in Mentions(events[n], tok);
        assert more != [];
        assert more[0] in more;
      }
      if more != [] {
        assert Mentions(events[n], tok) != {};
        assert more[0] in more;
      }
    }
  }

  // ----- sessions ----------------------------------------------------------------------

  /** `s` is a name up to its first double underscore. */
  predicate IsSession(stem: string, s: string) {
    && s <= stem && (forall i | 0 <= i < |s| - 1 :: !(s[i] == '_' && s[i + 1] == '_'))
    && (s == stem || (|s| + 2 <= |stem| && stem[|s|] == '_' && stem[|s| + 1] == '_' && (s == "" || s[|s| - 1] != '_')))
  }

  /** The session of a ring is its name up to the first double underscore, or all of it. */
  lemma {:induction false} SessionOf(stem: string)
    ensures IsSession(stem, BaseStem(stem))
  {
    if |stem| >= 2 && !(stem[0] == '_' && stem[1] == '_') {
      SessionOf(stem[1..]);
      var s, rest := BaseStem(stem), BaseStem(stem[1..]);
      assert s == [stem[0]] + rest && stem == [stem[0]] + stem[1..];
    }
  }

  lemma NotShorter(stem: string, a: string, b: string)
    requires IsSession(stem, a) && IsSession(stem, b)
    ensures |a| >= |b|
  {
    assert b == stem[..|b|];
  }

  lemma SessionIsOne(stem: string, s: string)
    ensures IsSession(stem, s) <==> s == BaseStem(stem)
  {
    SessionOf(stem);
    var b := BaseStem(stem);
    if IsSession(stem, s) {
      NotShorter(stem, s, b);
      NotShorter(stem, b, s);
    }
    assert IsSession(stem, s) ==> s == stem[..|s|] && b == stem[..|b|];
  }

  /** A row is left out exactly when its ring and the excluded one, if one is named, are of one session. */
  lemma ExcludedIff(r: Row, ex: Option<string>, s: string)
    requires IsSession(r.stem, s)
    ensures Excluded(r, ex) <==> ex.Some? && ex.value != "" && IsSession(ex.value, s)
  {
    SessionIsOne(r.stem, s);
    if ex.Some? {
      SessionIsOne(ex.value, s);
    }
  }
}
