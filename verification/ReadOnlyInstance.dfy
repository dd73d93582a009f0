/** One shared read-only DuckDB instance (`_ROInstance`): its counters and flags, the
  * critical sections that update them, and the class whose methods run those sections.
  *
  * `closes` counts the calls of `base.close()`, so that "closed at most once" can be said.
  */
module ReadOnlyInstance {
  datatype Core = Core(refs: int, closed: bool, baseClosed: bool, closes: nat, inflight: int)

  const FreshCore := Core(0, false, false, 0, 0)

  function CloseBase(c: Core): Core {
    c.(baseClosed := true, closes := c.closes + 1)
  }

  /** `leave`: one statement fewer; the last one performs a deferred close. */
  function Left(c: Core): Core {
    var d := c.(inflight := c.inflight - 1);
    if d.inflight == 0 && d.closed && !d.baseClosed then CloseBase(d) else d
  }

  /** The closing section shared by a drained `shut` and the last dropped handle. */
  function ClosedIfDrained(c: Core): Core {
    if c.inflight == 0 && !c.baseClosed then CloseBase(c) else c
  }

  /** What every section keeps of one instance on its own. */
  predicate Sound(c: Core) {
    && 0 <= c.inflight
    && (c.baseClosed ==> c.closed && c.inflight == 0)
    && c.closes == (if c.baseClosed then 1 else 0)
  }

  class ROInstance {
    var refs: int
    var closed: bool
    var baseClosed: bool
    var closes: nat
    var inflight: int

    function View(): Core
      reads this
    {
      Core(refs, closed, baseClosed, closes, inflight)
    }

    constructor ()
      ensures View() == FreshCore
      ensures Sound(View())
    {
      refs, closed, baseClosed, closes, inflight := 0, false, false, 0, 0;
    }

    /** Refuses on a closed instance, counts a statement otherwise. */
    method Enter() returns (ok: bool)
      requires Sound(View())
      modifies this
      ensures ok == !old(closed)
      ensures View() == if ok then old(View()).(inflight := old(inflight) + 1) else old(View())
      ensures Sound(View())
    {
      if closed {
        return false;
      }
      inflight := inflight + 1;
      return true;
    }

    method CloseBaseLocked()
      modifies this
      ensures View() == CloseBase(old(View()))
    {
      baseClosed := true;
      closes := closes + 1;
    }

    method Leave()
      requires Sound(View())
      requires 0 < inflight
      modifies this
      ensures View() == Left(old(View()))
      ensures Sound(View())
      ensures closed && inflight == 0 ==> baseClosed
    {
      inflight := inflight - 1;
      if inflight == 0 {
        if closed && !baseClosed {
          CloseBaseLocked();
        }
      }
    }

    /** `shut` without interference from other threads: the wait ends drained exactly
      * when no statement is running, and then the base is closed on return. */
    method Shut() returns (now: bool)
      requires Sound(View())
      modifies this
      ensures now == (old(inflight) == 0)
      ensures View() == if now then ClosedIfDrained(old(View()).(closed := true))
                        else old(View()).(closed := true)
      ensures Sound(View())
      ensures now == baseClosed
    {
      closed := true;
      if inflight == 0 {
        if !baseClosed {
          CloseBaseLocked();
        }
        return true;
      }
      return false;
    }
  }
}
