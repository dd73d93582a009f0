/** The write opener of one path as the object the code keeps: the module registry
  * `_WRITERS[key]` and the process's connections, updated step by step. */
module WriteOpener {
  import opened WriteOpen

  lemma NextPass(w: World, passes: seq<Pass>, i: nat)
    requires i < |passes|
    ensures var (w1, r) := RunPass(w, passes[i]);
            OpenWrite(w, passes[i..]) == if r.Replaced? then OpenWrite(w1, passes[i + 1..]) else (w1, r)
  {
    assert passes[i..][0] == passes[i] && passes[i..][1..] == passes[i + 1..];
  }

  class Opener {
    var path: Inode
    var next: Inode
    var conns: seq<Conn>
    var writers: seq<(ConnId, Inode)>

    function View(): World
      reads this
    {
      World(path, next, conns, writers)
    }

    constructor (first: Inode)
      ensures Valid(View()) && View() == World(first, first + 1, [], [])
    {
      path, next, conns, writers := first, first + 1, [], [];
    }

    /** The environment's turn between two steps. */
    method Environment(e: Env)
      modifies this
      ensures View() == Disturb(old(View()), e)
    {
      var w := Disturb(View(), e);
      path, next, conns := w.path, w.next, w.conns;
    }

    method CloseConn(c: ConnId)
      modifies this`conns
      ensures View() == Close(old(View()), c)
    {
      if c < |conns| {
        conns := conns[c := conns[c].(open := false)];
      }
    }

    /** The registry split by the scan: entries of the present file, entries of a replaced one. */
    method SplitHolders() returns (kept: seq<(ConnId, Inode)>, stale: seq<(ConnId, Inode)>)
      ensures kept == Kept(View(), writers) && stale == StaleEntries(View(), writers)
    {
      kept, stale := [], [];
      var i := 0;
      while i < |writers|
        invariant i <= |writers|
        invariant kept + Kept(View(), writers[i..]) == Kept(View(), writers)
        invariant stale + StaleEntries(View(), writers[i..]) == StaleEntries(View(), writers)
      {
        var e := writers[i];
        assert writers[i..] == [e] + writers[i + 1..];
        if e.0 < |conns| && conns[e.0].alive {
          if e.1 != path {
            stale := stale + [e];
          } else {
            kept := kept + [e];
          }
        }
        i := i + 1;
      }
      assert writers[i..] == [];
    }

    method CloseStaleHolders(stuck: set<ConnId>) returns (ok: bool)
      modifies this
      ensures (View(), ok) == CloseStale(old(View()), stuck)
    {
      var kept, stale := SplitHolders();
      writers := kept;
      ghost var begun := View();
      var i := 0;
      assert stale[0..] == stale;
      while i < |stale|
        invariant i <= |stale|
        invariant CloseEach(View(), stale[i..], stuck) == CloseEach(begun, stale, stuck)
      {
        assert stale[i..][1..] == stale[i + 1..];
        if stale[i].0 in stuck {
          return false;
        }
        CloseConn(stale[i].0);
        i := i + 1;
      }
      return true;
    }

    method ConnectUntil(tries: seq<(Env, Try)>) returns (ok: bool)
      modifies this
      ensures (View(), ok) == ConnectLoop(old(View()), tries)
    {
      ghost var was := View();
      var i := 0;
      while i < |tries|
        invariant i <= |tries|
        invariant ConnectLoop(View(), tries[i..]) == ConnectLoop(was, tries)
      {
        assert tries[i..][1..] == tries[i + 1..];
        Environment(tries[i].0);
        match tries[i].1
        case Connects => return true;
        case Broken => return false;
        case Refused => i := i + 1;
      }
      return false;
    }

    method ConnectDatabase() returns (c: ConnId)
      modifies this`conns
      ensures View() == Connect(old(View())) && c == |old(conns)|
    {
      c := |conns|;
      var i := 0;
      while i < |conns| && !conns[i].open
        invariant i <= |conns|
        invariant forall j | 0 <= j < i :: !conns[j].open
        invariant AnyOpen(View()) ==>
                    (exists j | 0 <= j < |conns[i..]| :: conns[i..][j].open) && FirstBound(conns[i..]) == FirstBound(conns)
      {
        if AnyOpen(View()) {
          assert conns[i..][1..] == conns[i + 1..];
          var j :| 0 <= j < |conns[i..]| && conns[i..][j].open;
          assert conns[i + 1..][j - 1].open;
        }
        i := i + 1;
      }
      conns := conns + [Conn(if i < |conns| then conns[i].bound else path, true, true)];
    }

    method LiveHolders() returns (live: seq<(ConnId, Inode)>)
      ensures live == Alive(View(), writers)
    {
      live := [];
      var i := 0;
      while i < |writers|
        invariant i <= |writers|
        invariant live + Alive(View(), writers[i..]) == Alive(View(), writers)
      {
        assert writers[i..] == [writers[i]] + writers[i + 1..];
        if writers[i].0 < |conns| && conns[writers[i].0].alive {
          live := live + [writers[i]];
        }
        i := i + 1;
      }
      assert writers[i..] == [];
    }

    method SettleConn(now: Inode, before: Inode, finish: Env) returns (r: Outcome)
      modifies this
      ensures (View(), r) == Settle(old(View()), now, before, finish)
    {
      var joined := exists c | 0 <= c < |conns| :: conns[c].open;
      var c := ConnectDatabase();
      Environment(Env(finish.replaced, finish.closed - {c}, finish.collected - {c}));
      var after := path;
      if after != before {
        CloseConn(c);
        return Replaced;
      }
      var live := LiveHolders();
      writers := live + [(c, after)];
      return Opened(c, now, before, after, joined);
    }

    /** One pass of `_open_write`'s retry loop. */
    method OpenOnce(p: Pass) returns (r: Outcome)
      modifies this
      ensures (View(), r) == RunPass(old(View()), p)
    {
      Environment(p.start);
      var now := path;
      var closed := CloseStaleHolders(p.stuck);
      if !closed {
        return Raised;
      }
      Environment(p.window);
      var before := path;
      var ok := ConnectUntil(p.tries);
      if !ok {
        return Raised;
      }
      r := SettleConn(now, before, p.finish);
    }

    /** The passes, until one does not find its file replaced. */
    method TryPasses(passes: seq<Pass>) returns (r: Outcome)
      requires Base(View()) && |passes| == OPEN_RETRIES
      modifies this
      ensures (View(), r) == OpenWrite(old(View()), passes)
    {
      ghost var was := View();
      var i := 0;
      while i < OPEN_RETRIES
        invariant i <= |passes|
        invariant OpenWrite(View(), passes[i..]) == OpenWrite(was, passes)
      {
        NextPass(View(), passes, i);
        ghost var w := View();
        r := OpenOnce(passes[i]);
        assert (View(), r) == RunPass(w, passes[i]);
        if !r.Replaced? {
          return;
        }
        i := i + 1;
      }
      return Raised;
    }

    method Open(passes: seq<Pass>) returns (r: Outcome)
      requires Base(View()) && |passes| == OPEN_RETRIES
      modifies this
      ensures (View(), r) == OpenWrite(old(View()), passes)
      ensures r.Opened? ==>
                && IsOpen(View(), r.c) && r.after == path
                && (conns[r.c].bound == r.after
                    <==> !r.joined || (r.now == r.before && !SomeEscapes(LastScan(old(View()), passes))))
    {
      OpenWriteIsExact(View(), passes);
      r := TryPasses(passes);
    }

    method OtherHolders(c: ConnId) returns (kept: seq<(ConnId, Inode)>)
      ensures kept == Without(writers, View(), c)
    {
      kept := [];
      var i := 0;
      while i < |writers|
        invariant i <= |writers|
        invariant kept + Without(writers[i..], View(), c) == Without(writers, View(), c)
      {
        assert writers[i..] == [writers[i]] + writers[i + 1..];
        if writers[i].0 < |conns| && conns[writers[i].0].alive && writers[i].0 != c {
          kept := kept + [writers[i]];
        }
        i := i + 1;
      }
      assert writers[i..] == [];
    }

    /** `release_duckdb`: forget the connection, then close it. */
    method ReleaseConn(c: ConnId)
      requires Base(View())
      modifies this
      ensures View() == Release(old(View()), c) && Freed(old(View()), View(), c)
      ensures Base(View()) && !IsOpen(View(), c) && (Valid(old(View())) ==> Valid(View()))
    {
      ReleaseKeeps(View(), c);
      writers := OtherHolders(c);
      CloseConn(c);
    }
  }
}
