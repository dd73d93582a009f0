/** What holds of the read-only registry over every run. */
module ReadOnlyTheorems {
  import opened Options
  import opened ReadOnlyInstance
  import opened ReadOnlyMachine
  import opened ReadOnlyProofs

  // ----- the rest of the invariant -----------------------------------------------------

  lemma HandlesKeepLocks(s: State, a: Action)
    requires Inv(s) && Enabled(s, a) && OfHandles(a)
    ensures LockOk(Step(s, a)) && OwnersOk(Step(s, a))
  {
    assert a.t in s.pc ==> ThreadOk(s, a.t);
  }

  lemma OpensKeepLocks(s: State, a: Action)
    requires Inv(s) && Enabled(s, a) && !OfHandles(a)
    ensures LockOk(Step(s, a)) && OwnersOk(Step(s, a))
  {
    if !a.AReplace? {
      assert a.t in s.pc ==> ThreadOk(s, a.t);
    }
  }

  lemma KeepsLocks(s: State, a: Action)
    requires Inv(s) && Enabled(s, a)
    ensures LockOk(Step(s, a)) && OwnersOk(Step(s, a))
  {
    if OfHandles(a) {
      HandlesKeepLocks(s, a);
    } else {
      OpensKeepLocks(s, a);
    }
  }

  lemma KeepsHistory(s: State, a: Action)
    requires HistOk(s) && Enabled(s, a)
    ensures HistOk(Step(s, a))
  {
  }

  lemma HandlesKeepDrops(s: State, a: Action)
    requires Inv(s) && Enabled(s, a) && OfHandles(a)
    ensures DropsOk(Step(s, a))
  {
  }

  lemma OpensKeepDrops(s: State, a: Action)
    requires Inv(s) && Enabled(s, a) && !OfHandles(a)
    ensures DropsOk(Step(s, a))
  {
  }

  lemma KeepsDrops(s: State, a: Action)
    requires Inv(s) && Enabled(s, a)
    ensures DropsOk(Step(s, a))
  {
    if OfHandles(a) {
      HandlesKeepDrops(s, a);
    } else {
      OpensKeepDrops(s, a);
    }
  }

  /** Steps that neither close an instance nor touch the registry. */
  lemma RegsStay(s: State, s': State)
    requires RegsOk(s) && s'.reg == s.reg && |s.insts| <= |s'.insts|
    requires forall i: Iid | i < |s.insts| ::
               SameFor(s.insts[i], s'.insts[i]) && s.insts[i].core.closed == s'.insts[i].core.closed
    ensures RegsOk(s')
  {
    forall kf | kf in s'.reg ensures RegOk(s', kf) {
      assert RegOk(s, kf);
    }
  }

  lemma HandlesKeepRegs(s: State, a: Action)
    requires Inv(s) && Enabled(s, a) && OfHandles(a) && !a.AMark?
    ensures RegsOk(Step(s, a))
  {
    RegsStay(s, Step(s, a));
  }

  lemma OpensKeepRegs(s: State, a: Action)
    requires Inv(s) && Enabled(s, a) && !OfHandles(a)
    requires !(a.AShut? || a.AScan? || a.AScanFails? || a.ARegister?)
    ensures RegsOk(Step(s, a))
  {
    RegsStay(s, Step(s, a));
  }

  lemma KeepsRegs(s: State, a: Action)
    requires Inv(s) && Enabled(s, a)
    requires !(a.AMark? || a.AShut? || a.AScan? || a.AScanFails? || a.ARegister?)
    ensures RegsOk(Step(s, a))
  {
    if OfHandles(a) {
      HandlesKeepRegs(s, a);
    } else {
      OpensKeepRegs(s, a);
    }
  }

  lemma MarkKeepsRegs(s: State, t: Tid)
    requires Inv(s) && CanMark(s, t)
    ensures RegsOk(DropMark(s, t))
  {
    assert ThreadOk(s, t);
    forall kf | kf in DropMark(s, t).reg ensures RegOk(DropMark(s, t), kf) {
      assert RegOk(s, kf);
    }
  }

  lemma ShutKeepsRegs(s: State, t: Tid)
    requires Inv(s) && CanShut(s, t)
    ensures RegsOk(ShutMark(s, t))
  {
    assert ThreadOk(s, t);
    forall kf | kf in s.reg ensures RegOk(ShutMark(s, t), kf) {
      assert RegOk(s, kf);
    }
  }

  lemma ScanKeepsRegs(s: State, t: Tid, k: Key, found: seq<Iid>)
    requires Inv(s) && CanScan(s, t, k, found)
    ensures RegsOk(StaleScan(s, t, k, found))
  {
    forall kf | kf in StaleScan(s, t, k, found).reg ensures RegOk(StaleScan(s, t, k, found), kf) {
      assert RegOk(s, kf);
    }
  }

  lemma RaisingScanKeepsRegs(s: State, t: Tid, k: Key, found: seq<Iid>)
    requires Inv(s) && CanScan(s, t, k, found)
    ensures RegsOk(ScanRaises(s, t, k, found))
  {
    forall kf | kf in ScanRaises(s, t, k, found).reg ensures RegOk(ScanRaises(s, t, k, found), kf) {
      assert RegOk(s, kf);
    }
  }

  lemma RegisterKeepsRegs(s: State, t: Tid)
    requires Inv(s) && CanRegister(s, t)
    ensures RegsOk(RegisterNew(s, t))
  {
    assert ThreadOk(s, t) && InstOk(s, Pc(s, t).n);
    if Usable(s, Pc(s, t).o) {
      RegsStay(s, UseEqual(s, t));
    } else {
      forall kf | kf in Publish(s, t).reg ensures RegOk(Publish(s, t), kf) {
        assert kf in s.reg ==> RegOk(s, kf);
      }
    }
  }

  lemma ReturnsStay(s: State, s': State)
    requires ReturnsOk(s) && |s.insts| <= |s'.insts|
    requires forall k | k in s.hist :: k in s'.hist && s.hist[k] <= s'.hist[k]
    requires forall i: Iid | i < |s.insts| :: SameFor(s.insts[i], s'.insts[i])
    ensures forall r | r in s.done :: ReturnOk(s', r)
  {
    forall r | r in s.done ensures ReturnOk(s', r) {
      assert ReturnOk(s, r);
    }
  }

  lemma HandlesKeepReturns(s: State, a: Action)
    requires Inv(s) && Enabled(s, a) && OfHandles(a)
    ensures ReturnsOk(Step(s, a))
  {
    ReturnsStay(s, Step(s, a));
  }

  lemma OpensKeepReturns(s: State, a: Action)
    requires Inv(s) && Enabled(s, a) && !OfHandles(a)
    requires !(a.ALook? || a.ARegister?)
    ensures ReturnsOk(Step(s, a))
  {
    ReturnsStay(s, Step(s, a));
  }

  lemma KeepsReturns(s: State, a: Action)
    requires Inv(s) && Enabled(s, a)
    requires !(a.ALook? || a.ARegister?)
    ensures ReturnsOk(Step(s, a))
  {
    if OfHandles(a) {
      HandlesKeepReturns(s, a);
    } else {
      OpensKeepReturns(s, a);
    }
  }

  lemma LookKeepsReturns(s: State, t: Tid)
    requires Inv(s) && CanLook(s, t)
    ensures ReturnsOk(LookUp(s, t))
  {
    assert ThreadOk(s, t);
    ReturnsStay(s, LookUp(s, t));
    var o := Pc(s, t).o;
    assert Usable(s, o) ==> RegOk(s, (o.key, o.fid)) && InstOk(s, s.reg[(o.key, o.fid)]);
  }

  lemma RegisterKeepsReturns(s: State, t: Tid)
    requires Inv(s) && CanRegister(s, t)
    ensures ReturnsOk(RegisterNew(s, t))
  {
    assert ThreadOk(s, t) && InstOk(s, Pc(s, t).n);
    ReturnsStay(s, RegisterNew(s, t));
    var o := Pc(s, t).o;
    assert Usable(s, o) ==> RegOk(s, (o.key, o.fid)) && InstOk(s, s.reg[(o.key, o.fid)]);
  }

  lemma ReplaceKeeps(s: State, k: Key, now: Option<Inode>)
    requires Inv(s) && CanReplace(s, k, now)
    ensures InstsOk(ReplaceFile(s, k, now)) && AllTended(ReplaceFile(s, k, now)) && ThreadsOk(ReplaceFile(s, k, now))
  {
    var s' := ReplaceFile(s, k, now);
    forall i: Iid | i < |s'.insts| ensures InstOk(s', i) && Tended(s', i) {
      assert InstOk(s, i) && Tended(s, i);
      WitnessesStay(s, s', 0, i);
    }
    forall u | u in s'.pc ensures ThreadOk(s', u) {
      assert ThreadOk(s, u);
    }
  }

  lemma KeepsInstances(s: State, a: Action)
    requires Inv(s) && Enabled(s, a)
    ensures InstsOk(Step(s, a)) && AllTended(Step(s, a)) && ThreadsOk(Step(s, a))
  {
    match a
    case AReplace(k, now) => ReplaceKeeps(s, k, now);
    case ATest(t, i) => TestEntryInsts(s, t, i); TestEntryThreads(s, t, i);
    case ACount(t) => CountEntryInsts(s, t); CountEntryTended(s, t); CountEntryThreads(s, t);
    case ALeave(t) => LeaveStatementInsts(s, t); LeaveStatementThreads(s, t);
    case ADrop(t, h) => DropCursorInsts(s, t, h); DropCursorThreads(s, t, h);
    case ADecide(t) => DropDecideInsts(s, t); DropDecideTended(s, t); DropDecideThreads(s, t);
    case AMark(t) => DropMarkInsts(s, t); DropMarkThreads(s, t);
    case AFinish(t) => DropFinishInsts(s, t); DropFinishThreads(s, t);
    case ABegin(t, k) => BeginOpenInsts(s, t, k); BeginOpenThreads(s, t, k);
    case AStat(t) => StatPathInsts(s, t); StatPathThreads(s, t);
    case ALook(t) => LookUpInsts(s, t); LookUpTended(s, t); LookUpThreads(s, t);
    case AAttach(t) => AttachNewInsts(s, t); AttachNewThreads(s, t);
    case ARecheck(t) =>
      if Now(s, Pc(s, t).o.key) != Pc(s, t).o.fid {
        AbandonNewInsts(s, t); AbandonNewTended(s, t); AbandonNewThreads(s, t);
      } else {
        RecheckInsts(s, t); RecheckTended(s, t); RecheckThreads(s, t);
      }
    case ARegister(t) =>
      if Usable(s, Pc(s, t).o) {
        UseEqualInsts(s, t); UseEqualTended(s, t); UseEqualThreads(s, t);
      } else {
        PublishInsts(s, t); PublishTended(s, t); PublishThreads(s, t);
      }
    case AShut(t) => ShutMarkInsts(s, t); ShutMarkThreads(s, t);
    case AEndShut(t) => ShutEndInsts(s, t); ShutEndThreads(s, t);
    case AScan(t, k, found) => StaleScanInsts(s, t, k, found); StaleScanThreads(s, t, k, found);
    case AScanFails(t, k, found) => ScanRaisesInsts(s, t, k, found); ScanRaisesThreads(s, t, k, found);
  }

  lemma StepKeepsInv(s: State, a: Action)
    requires Inv(s) && Enabled(s, a)
    ensures Inv(Step(s, a))
  {
    KeepsInstances(s, a);
    KeepsLocks(s, a);
    KeepsHistory(s, a);
    KeepsDrops(s, a);
    KeepsDropped(s, a);
    KeepsAllRegs(s, a);
    KeepsAllReturns(s, a);
  }

  lemma KeepsAllRegs(s: State, a: Action)
    requires Inv(s) && Enabled(s, a)
    ensures RegsOk(Step(s, a))
  {
    match a
    case AMark(t) => MarkKeepsRegs(s, t);
    case AShut(t) => ShutKeepsRegs(s, t);
    case AScan(t, k, found) => ScanKeepsRegs(s, t, k, found);
    case AScanFails(t, k, found) => RaisingScanKeepsRegs(s, t, k, found);
    case ARegister(t) => RegisterKeepsRegs(s, t);
    case _ => KeepsRegs(s, a);
  }

  lemma KeepsAllReturns(s: State, a: Action)
    requires Inv(s) && Enabled(s, a)
    ensures ReturnsOk(Step(s, a))
  {
    match a
    case ALook(t) => LookKeepsReturns(s, t);
    case ARegister(t) => RegisterKeepsReturns(s, t);
    case _ => KeepsReturns(s, a);
  }

  // ----- runs --------------------------------------------------------------------------

  predicate Init(s: State) {
    HistOk(s) && s == State(s.hist, [], map[], map[], None, [], [], {})
  }

  predicate Runs(s: State, acts: seq<Action>)
    decreases |acts|
  {
    acts == [] || (Enabled(s, acts[0]) && Runs(Step(s, acts[0]), acts[1..]))
  }

  function AfterRun(s: State, acts: seq<Action>): State
    requires Runs(s, acts)
    decreases |acts|
  {
    if acts == [] then s else AfterRun(Step(s, acts[0]), acts[1..])
  }

  lemma {:induction false} RunKeepsInv(s: State, acts: seq<Action>)
    requires Inv(s) && Runs(s, acts)
    ensures Inv(AfterRun(s, acts))
    decreases |acts|
  {
    if acts != [] {
      StepKeepsInv(s, acts[0]);
      RunKeepsInv(Step(s, acts[0]), acts[1..]);
    }
  }

  lemma ReachableInv(s0: State, acts: seq<Action>)
    requires Init(s0) && Runs(s0, acts)
    ensures Inv(AfterRun(s0, acts))
  {
    RunKeepsInv(s0, acts);
  }

  /** Nothing about instance `i` is undone. */
  predicate StaysShut(s: State, next: State, i: Iid)
    requires Known(s, i)
  {
    && Known(next, i)
    && (s.insts[i].core.closed ==> next.insts[i].core.closed)
    && (s.insts[i].core.baseClosed ==> next.insts[i].core.baseClosed)
  }

  lemma HandlesNeverReopen(s: State, a: Action, i: Iid)
    requires Inv(s) && Enabled(s, a) && Known(s, i) && OfHandles(a)
    ensures StaysShut(s, Step(s, a), i)
  {
  }

  lemma OpensNeverReopen(s: State, a: Action, i: Iid)
    requires Inv(s) && Enabled(s, a) && Known(s, i) && !OfHandles(a)
    ensures StaysShut(s, Step(s, a), i)
  {
  }

  lemma StepNeverReopens(s: State, a: Action, i: Iid)
    requires Inv(s) && Enabled(s, a) && Known(s, i)
    ensures StaysShut(s, Step(s, a), i)
  {
    if OfHandles(a) {
      HandlesNeverReopen(s, a, i);
    } else {
      OpensNeverReopen(s, a, i);
    }
  }

  lemma {:induction false} RunNeverReopens(s: State, acts: seq<Action>, i: Iid)
    requires Inv(s) && Runs(s, acts) && Known(s, i)
    ensures Known(AfterRun(s, acts), i)
    ensures s.insts[i].core.baseClosed ==> AfterRun(s, acts).insts[i].core.baseClosed
    decreases |acts|
  {
    if acts != [] {
      StepKeepsInv(s, acts[0]);
      StepNeverReopens(s, acts[0], i);
      RunNeverReopens(Step(s, acts[0]), acts[1..], i);
    }
  }

  // ----- closing -----------------------------------------------------------------------

  /** The base connection of every instance is closed at most once, and never under a
    * running statement. */
  lemma ClosedAtMostOnceAndDrained(s0: State, acts: seq<Action>, i: Iid)
    requires Init(s0) && Runs(s0, acts) && Known(AfterRun(s0, acts), i)
    ensures var x := AfterRun(s0, acts).insts[i];
            && x.core.closes <= 1
            && (x.core.closes == 1 <==> x.core.baseClosed)
            && (x.core.baseClosed ==> x.core.inflight == 0 && x.running == {})
            && x.core.inflight == |x.running| && x.core.refs == |x.live|
  {
    ReachableInv(s0, acts);
    assert InstOk(AfterRun(s0, acts), i);
  }

  /** Once the base is closed no statement ever runs on the instance again. */
  lemma NoStatementAfterClose(s0: State, acts: seq<Action>, more: seq<Action>, i: Iid)
    requires Init(s0) && Runs(s0, acts) && Known(AfterRun(s0, acts), i)
    requires AfterRun(s0, acts).insts[i].core.baseClosed
    requires Runs(AfterRun(s0, acts), more)
    ensures var s := AfterRun(AfterRun(s0, acts), more);
            && Known(s, i) && s.insts[i].core.closes == 1
            && forall t | t in s.pc :: s.pc[t] != Running(i) && s.pc[t] != Entering(i)
  {
    ReachableInv(s0, acts);
    RunKeepsInv(AfterRun(s0, acts), more);
    RunNeverReopens(AfterRun(s0, acts), more, i);
    var s := AfterRun(AfterRun(s0, acts), more);
    assert InstOk(s, i);
    forall t | t in s.pc ensures s.pc[t] != Running(i) && s.pc[t] != Entering(i) {
      assert ThreadOk(s, t);
    }
  }

  /** A closed instance with nothing in flight is closed, or a thread is about to close it. */
  lemma DeferredCloseIsNotLost(s0: State, acts: seq<Action>, i: Iid)
    requires Init(s0) && Runs(s0, acts) && Known(AfterRun(s0, acts), i)
    ensures var s := AfterRun(s0, acts); var x := s.insts[i];
            x.core.closed && x.core.inflight == 0 ==> x.core.baseClosed || HasCloser(s, i)
  {
    ReachableInv(s0, acts);
    assert Tended(AfterRun(s0, acts), i) && InstOk(AfterRun(s0, acts), i);
  }

  /** ... and whichever thread gets there, by its own step, does close it: the pending
    * closer when nothing is in flight, the last statement when the close was deferred. */
  lemma CloserCloses(s: State, t: Tid, i: Iid)
    requires Inv(s) && Known(s, i) && s.insts[i].core.closed && CvFree(s, i)
    requires (Closing(Pc(s, t), i) && s.insts[i].core.inflight == 0)
             || (Pc(s, t) == Running(i) && s.insts[i].core.inflight == 1)
    ensures var a := if Pc(s, t).ShutWait? then AEndShut(t) else if Pc(s, t).DropClose? then AFinish(t) else ALeave(t);
            Enabled(s, a) && Step(s, a).insts[i].core.baseClosed && Step(s, a).insts[i].core.inflight == 0
  {
    assert InstOk(s, i);
  }

  /** With every thread idle: a closed instance has its base closed, one without handles is closed,
    * and the open ones are the registered ones and those that a raising scan left with handles. */
  lemma QuiescentOpenIff(s0: State, acts: seq<Action>, i: Iid)
    requires Init(s0) && Runs(s0, acts) && Known(AfterRun(s0, acts), i)
    requires forall t | t in AfterRun(s0, acts).pc :: AfterRun(s0, acts).pc[t] == Idle
    ensures var s := AfterRun(s0, acts); var x := s.insts[i];
            && (x.core.closed <==> x.core.baseClosed)
            && (!x.core.closed <==> Registered(s, i) || (i in s.dropped && 0 < x.core.refs))
            && (x.core.refs == 0 ==> x.core.baseClosed)
  {
    ReachableInv(s0, acts);
    var s := AfterRun(s0, acts);
    assert InstOk(s, i) && Tended(s, i);
    assert i in s.dropped ==> DroppedOk(s, i);
    var kf := (s.insts[i].key, s.insts[i].fid);
    assert kf in s.reg ==> RegOk(s, kf);
  }

  lemma {:induction false} NothingDropped(s: State, acts: seq<Action>)
    requires Runs(s, acts) && s.dropped == {} && forall a | a in acts :: !a.AScanFails?
    ensures AfterRun(s, acts).dropped == {}
    decreases |acts|
  {
    if acts != [] {
      assert acts[0] in acts;
      NothingDropped(Step(s, acts[0]), acts[1..]);
    }
  }

  /** When no scan raises nothing is leaked: the open instances are the registered ones. */
  lemma QuiescentLeavesNothingOpen(s0: State, acts: seq<Action>, i: Iid)
    requires Init(s0) && Runs(s0, acts) && Known(AfterRun(s0, acts), i)
    requires forall t | t in AfterRun(s0, acts).pc :: AfterRun(s0, acts).pc[t] == Idle
    requires forall a | a in acts :: !a.AScanFails?
    ensures !AfterRun(s0, acts).insts[i].core.closed <==> Registered(AfterRun(s0, acts), i)
  {
    NothingDropped(s0, acts);
    QuiescentOpenIff(s0, acts, i);
  }

  // ----- what an open returns ----------------------------------------------------------

  /** Every registered instance is unclosed, under its own (path, inode) key, with one
    * reference for each handle not yet released. */
  lemma RegistryIsConsistent(s0: State, acts: seq<Action>, kf: (Key, Option<Inode>))
    requires Init(s0) && Runs(s0, acts) && kf in AfterRun(s0, acts).reg
    ensures var s := AfterRun(s0, acts); var i := s.reg[kf];
            && Known(s, i) && (s.insts[i].key, s.insts[i].fid) == kf
            && !s.insts[i].core.closed && s.insts[i].core.refs == |s.insts[i].live|
            && (kf.1.Some? ==> s.insts[i].attached == kf.1.value)
  {
    ReachableInv(s0, acts);
    assert RegOk(AfterRun(s0, acts), kf) && InstOk(AfterRun(s0, acts), AfterRun(s0, acts).reg[kf]);
  }

  /** The file a returned cursor reads was at the path at some moment of that open. */
  predicate ReadsPresentFile(s: State, r: Return)
    requires r.o.key in s.hist && r.end <= |s.hist[r.o.key]| && Known(s, r.inst)
  {
    exists m | r.o.start <= m < r.end :: s.hist[r.o.key][m] == Some(s.insts[r.inst].attached)
  }

  /** It was, if and only if the instance was attached to a file that was at the path when the open
    * began, or later; which holds of every open that saw a file or made its instance itself. */
  lemma OpenReturnsPresentIff(s0: State, acts: seq<Action>, r: Return)
    requires Init(s0) && Runs(s0, acts) && r in AfterRun(s0, acts).done
    ensures var s := AfterRun(s0, acts);
            && r.o.key in s.hist && r.end <= |s.hist[r.o.key]| && Known(s, r.inst)
            && (ReadsPresentFile(s, r) <==> r.o.start <= s.insts[r.inst].attachedAt)
            && (r.o.fid.Some? || r.own ==> ReadsPresentFile(s, r))
  {
    ReachableInv(s0, acts);
    var s := AfterRun(s0, acts);
    assert ReturnOk(s, r) && InstOk(s, r.inst);
    var x := s.insts[r.inst];
    assert s.hist[r.o.key][x.attachedAt] == Some(x.attached) && NeverReused(s.hist[r.o.key]);
  }

  /** For a path that was never missing, every open qualifies. */
  lemma ExistingPathOpensPresentFile(s0: State, acts: seq<Action>, r: Return)
    requires Init(s0) && Runs(s0, acts) && r in AfterRun(s0, acts).done
    requires r.o.key in AfterRun(s0, acts).hist && None !in AfterRun(s0, acts).hist[r.o.key]
    ensures var s := AfterRun(s0, acts);
            r.end <= |s.hist[r.o.key]| && Known(s, r.inst) && ReadsPresentFile(s, r)
  {
    ReachableInv(s0, acts);
    assert ReturnOk(AfterRun(s0, acts), r);
  }
}
