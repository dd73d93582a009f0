/** The reachable states of the read-only registry keep `ReadOnlyMachine.Inv`. */
module ReadOnlyProofs {
  import opened Options
  import opened ReadOnlyInstance
  import opened ReadOnlyMachine

  // ----- what does not move ------------------------------------------------------------

  /** Only thread `t` moves. */
  ghost predicate OthersStay(s: State, s': State, t: Tid) {
    forall u | u != t && (u in s.pc || u in s'.pc) :: u in s.pc && u in s'.pc && s'.pc[u] == s.pc[u]
  }

  lemma WitnessesStay(s: State, s': State, t: Tid, i: Iid)
    requires OthersStay(s, s', t)
    ensures HasCloser(s, i) ==> HasCloser(s', i) || (t in s.pc && Closing(s.pc[t], i))
    ensures HasShutter(s, i) ==> HasShutter(s', i) || (t in s.pc && WillShut(s.pc[t], i))
    ensures t in s'.pc && Closing(s'.pc[t], i) ==> HasCloser(s', i)
    ensures t in s'.pc && WillShut(s'.pc[t], i) ==> HasShutter(s', i)
  {
    if HasCloser(s, i) && !(t in s.pc && Closing(s.pc[t], i)) {
      var u :| u in s.pc && Closing(s.pc[u], i);
      assert s'.pc[u] == s.pc[u];
    }
    if HasShutter(s, i) && !(t in s.pc && WillShut(s.pc[t], i)) {
      var u :| u in s.pc && WillShut(s.pc[u], i);
      assert s'.pc[u] == s.pc[u];
    }
  }

  /** What an instance owes the threads that are not moving. */
  predicate SameFor(x: Inst, y: Inst) {
    && (x.key, x.fid, x.attached, x.attachedAt) == (y.key, y.fid, y.attached, y.attachedAt)
    && (x.core.closed ==> y.core.closed)
  }

  ghost predicate InstancesStay(s: State, s': State) {
    && s.hist == s'.hist && s.owner <= s'.owner && |s.insts| <= |s'.insts|
    && (forall i: Iid | i < |s.insts| :: SameFor(s.insts[i], s'.insts[i]))
    && (forall i: Iid | i < |s.insts| && Condemned(s, i) :: Condemned(s', i))
  }

  /** What a waiting thread at `p` still finds where it left it. */
  predicate Undisturbed(s: State, s': State, u: Tid, p: PC) {
    match p
    case Entering(i) => Known(s', i) && s'.insts[i].cv == Some(u)
    case Running(i) => Known(s', i) && u in s'.insts[i].running
    case DropRefs(h) => h < |s.owner| && Known(s', s.owner[h]) && h in s'.insts[s.owner[h]].live
    case DropLast(i) => Known(s', i) && s'.hl == Some(u) && s'.insts[i].live == {} && s'.insts[i].maker == None
    case OpenRecheck(_, n) => Known(s', n) && s'.insts[n].maker == Some(u)
    case OpenRegister(_, n) => Known(s', n) && s'.insts[n].maker == Some(u)
    case _ => true
  }

  lemma ThreadStays(s: State, s': State, u: Tid)
    requires u in s.pc && u in s'.pc && s'.pc[u] == s.pc[u] && ThreadOk(s, u)
    requires InstancesStay(s, s') && Undisturbed(s, s', u, s.pc[u])
    ensures ThreadOk(s', u)
  {
    match s.pc[u]
    case ShutStart(i, after) => assert Condemned(s', i) && AfterOk(s', after);
    case ShutWait(i, after) => assert Condemned(s', i) && AfterOk(s', after);
    case _ =>
  }

  /** An untouched instance, when the moving thread is not one of its own. */
  lemma InstStays(s: State, s': State, t: Tid, i: Iid)
    requires Known(s, i) && InstOk(s, i) && OthersStay(s, s', t)
    requires Known(s', i) && s'.insts[i] == s.insts[i]
    requires s.hist == s'.hist && s.owner <= s'.owner
    requires t !in s.insts[i].running && s.insts[i].cv != Some(t) && s.insts[i].maker != Some(t)
    requires s.insts[i].maker.Some? ==> !Registered(s', i)
    ensures InstOk(s', i)
  {
    forall u | u in s.insts[i].running ensures Pc(s', u) == Running(i) {
      assert Pc(s, u) == Running(i);
    }
  }

  lemma RecheckMover(s: State, t: Tid)
    requires HistOk(s) && InstsOk(s) && ThreadsOk(s)
    requires CanRecheck(s, t) && Now(s, Pc(s, t).o.key) == Pc(s, t).o.fid
    ensures ThreadOk(Recheck(s, t), t)
  {
    assert ThreadOk(s, t);
    var o, n := Pc(s, t).o, Pc(s, t).n;
    assert InstOk(s, n) && NeverReused(s.hist[o.key]);
    assert s.hist[o.key][|s.hist[o.key]| - 1] == Now(s, o.key);
  }

  lemma ShutEndMover(s: State, t: Tid)
    requires ThreadsOk(s) && InstsOk(s)
    requires CanEndShut(s, t)
    ensures ThreadOk(ShutEnd(s, t), t)
  {
    assert ThreadOk(s, t);
    var after := Pc(s, t).after;
    if after.NextShut? && after.rest != [] {
      assert after.rest[0] in after.rest;
      assert forall i | i in after.rest[1..] :: i in after.rest;
    }
  }

  // ----- each step ---------------------------------------------------------------------

  lemma TestEntryInsts(s: State, t: Tid, i: Iid)
    requires InstsOk(s) && AllTended(s) && ThreadsOk(s) && RegsOk(s) && OwnersOk(s) && LockOk(s)
    requires CanTest(s, t, i)
    ensures InstsOk(TestEntry(s, t, i)) && AllTended(TestEntry(s, t, i))
  {
    var s' := TestEntry(s, t, i);
    assert t in s.pc ==> ThreadOk(s, t);
    forall i: Iid | i < |s'.insts| ensures InstOk(s', i) && Tended(s', i) {
      assert i < |s.insts| ==> InstOk(s, i) && Tended(s, i);
      if i < |s.insts| && s.insts[i] == s'.insts[i] {
        InstStays(s, s', t, i);
      }
      WitnessesStay(s, s', t, i);
    }
  }

  lemma TestEntryThreads(s: State, t: Tid, i: Iid)
    requires HistOk(s) && LockOk(s) && DropsOk(s) && InstsOk(s) && ThreadsOk(s) && RegsOk(s)
    requires CanTest(s, t, i)
    ensures ThreadsOk(TestEntry(s, t, i))
  {
    var s' := TestEntry(s, t, i);
    if s' != s {
      forall u | u in s'.pc ensures ThreadOk(s', u) {
        if u != t {
          assert ThreadOk(s, u);
          ThreadStays(s, s', u);
        }
      }
    }
  }

  lemma CountEntryInsts(s: State, t: Tid)
    requires InstsOk(s) && ThreadsOk(s) && RegsOk(s) && OwnersOk(s)
    requires CanCount(s, t)
    ensures InstsOk(CountEntry(s, t))
  {
    var s' := CountEntry(s, t);
    assert t in s.pc ==> ThreadOk(s, t);
    forall i: Iid | i < |s'.insts| ensures InstOk(s', i) {
      assert i < |s.insts| ==> InstOk(s, i);
      if i < |s.insts| && s.insts[i] == s'.insts[i] {
        InstStays(s, s', t, i);
      }
    }
  }

  lemma CountEntryTended(s: State, t: Tid)
    requires LockOk(s) && InstsOk(s) && AllTended(s) && ThreadsOk(s) && RegsOk(s)
    requires CanCount(s, t)
    ensures AllTended(CountEntry(s, t))
  {
    var s' := CountEntry(s, t);
    assert t in s.pc ==> ThreadOk(s, t);
    forall i: Iid | i < |s'.insts| ensures Tended(s', i) {
      assert i < |s.insts| ==> InstOk(s, i) && Tended(s, i);
      WitnessesStay(s, s', t, i);
    }
  }

  lemma CountEntryThreads(s: State, t: Tid)
    requires HistOk(s) && LockOk(s) && DropsOk(s) && InstsOk(s) && ThreadsOk(s) && RegsOk(s)
    requires CanCount(s, t)
    ensures ThreadsOk(CountEntry(s, t))
  {
    var s' := CountEntry(s, t);
    assert t in s.pc ==> ThreadOk(s, t);
    forall i: Iid | i < |s.insts| && Condemned(s, i) ensures Condemned(s', i) {
      assert InstOk(s, i);
    }
    forall u | u in s'.pc ensures ThreadOk(s', u) {
      if u != t {
        assert ThreadOk(s, u);
        ThreadStays(s, s', u);
      }
    }
  }

  lemma LeaveStatementInsts(s: State, t: Tid)
    requires InstsOk(s) && AllTended(s) && ThreadsOk(s) && RegsOk(s) && OwnersOk(s) && LockOk(s)
    requires CanLeave(s, t)
    ensures InstsOk(LeaveStatement(s, t)) && AllTended(LeaveStatement(s, t))
  {
    var s' := LeaveStatement(s, t);
    assert t in s.pc ==> ThreadOk(s, t);
    forall i: Iid | i < |s'.insts| ensures InstOk(s', i) && Tended(s', i) {
      assert i < |s.insts| ==> InstOk(s, i) && Tended(s, i);
      if i < |s.insts| && s.insts[i] == s'.insts[i] {
        InstStays(s, s', t, i);
      }
      WitnessesStay(s, s', t, i);
      assert i == Pc(s, t).i ==> |s'.insts[i].running| == |s.insts[i].running| - 1;
    }
  }

  lemma LeaveStatementThreads(s: State, t: Tid)
    requires HistOk(s) && LockOk(s) && DropsOk(s) && InstsOk(s) && ThreadsOk(s) && RegsOk(s)
    requires CanLeave(s, t)
    ensures ThreadsOk(LeaveStatement(s, t))
  {
    var s' := LeaveStatement(s, t);
    assert t in s.pc ==> ThreadOk(s, t);
    forall i: Iid | i < |s.insts| && Condemned(s, i) ensures Condemned(s', i) {
      assert InstOk(s, i);
    }
    forall u | u in s'.pc ensures ThreadOk(s', u) {
      if u != t {
        assert ThreadOk(s, u);
        ThreadStays(s, s', u);
      }
    }
  }

  lemma DropCursorInsts(s: State, t: Tid, h: Hid)
    requires InstsOk(s) && AllTended(s) && ThreadsOk(s) && RegsOk(s) && OwnersOk(s) && LockOk(s)
    requires CanDrop(s, t, h)
    ensures InstsOk(DropCursor(s, t, h)) && AllTended(DropCursor(s, t, h))
  {
    var s' := DropCursor(s, t, h);
    assert t in s.pc ==> ThreadOk(s, t);
    forall i: Iid | i < |s'.insts| ensures InstOk(s', i) && Tended(s', i) {
      assert i < |s.insts| ==> InstOk(s, i) && Tended(s, i);
      if i < |s.insts| && s.insts[i] == s'.insts[i] {
        InstStays(s, s', t, i);
      }
      WitnessesStay(s, s', t, i);
    }
  }

  lemma DropCursorThreads(s: State, t: Tid, h: Hid)
    requires HistOk(s) && LockOk(s) && DropsOk(s) && InstsOk(s) && ThreadsOk(s) && RegsOk(s)
    requires CanDrop(s, t, h)
    ensures ThreadsOk(DropCursor(s, t, h))
  {
    var s' := DropCursor(s, t, h);
    assert t in s.pc ==> ThreadOk(s, t);
    forall i: Iid | i < |s.insts| && Condemned(s, i) ensures Condemned(s', i) {
      assert InstOk(s, i);
    }
    forall u | u in s'.pc ensures ThreadOk(s', u) {
      if u != t {
        assert ThreadOk(s, u);
        ThreadStays(s, s', u);
      }
    }
  }

  lemma DropDecideInsts(s: State, t: Tid)
    requires InstsOk(s) && ThreadsOk(s) && RegsOk(s) && OwnersOk(s)
    requires CanDecide(s, t)
    ensures InstsOk(DropDecide(s, t))
  {
    var s' := DropDecide(s, t);
    assert t in s.pc ==> ThreadOk(s, t);
    forall i: Iid | i < |s'.insts| ensures InstOk(s', i) {
      assert i < |s.insts| ==> InstOk(s, i);
      if i < |s.insts| && s.insts[i] == s'.insts[i] {
        InstStays(s, s', t, i);
      }
    }
  }

  lemma DropDecideTended(s: State, t: Tid)
    requires LockOk(s) && InstsOk(s) && AllTended(s) && ThreadsOk(s) && RegsOk(s)
    requires CanDecide(s, t)
    ensures AllTended(DropDecide(s, t))
  {
    var s' := DropDecide(s, t);
    assert ThreadOk(s, t);
    forall i: Iid | i < |s'.insts| ensures Tended(s', i) {
      assert InstOk(s, i) && Tended(s, i);
      WitnessesStay(s, s', t, i);
      assert i == s.owner[Pc(s, t).h] ==> |s'.insts[i].live| == |s.insts[i].live| - 1;
    }
  }

  lemma DropDecideThreads(s: State, t: Tid)
    requires HistOk(s) && LockOk(s) && DropsOk(s) && InstsOk(s) && ThreadsOk(s) && RegsOk(s)
    requires CanDecide(s, t)
    ensures ThreadsOk(DropDecide(s, t))
  {
    var s' := DropDecide(s, t);
    DropDecideMover(s, t);
    forall u | u in s'.pc ensures ThreadOk(s', u) {
      if u != t {
        assert ThreadOk(s, u);
        assert s.pc[u] != s.pc[t];
        ThreadStays(s, s', u);
      }
    }
  }

  lemma DropDecideMover(s: State, t: Tid)
    requires HistOk(s) && LockOk(s) && DropsOk(s) && InstsOk(s) && ThreadsOk(s) && RegsOk(s)
    requires CanDecide(s, t)
    ensures ThreadOk(DropDecide(s, t), t)
  {
    var s' := DropDecide(s, t);
    assert ThreadOk(s, t);
    var i0 := s.owner[Pc(s, t).h];
    assert InstOk(s, i0);
    assert |s'.insts[i0].live| == |s.insts[i0].live| - 1;
  }

  lemma DropMarkInsts(s: State, t: Tid)
    requires InstsOk(s) && AllTended(s) && ThreadsOk(s) && RegsOk(s) && OwnersOk(s) && LockOk(s)
    requires CanMark(s, t)
    ensures InstsOk(DropMark(s, t)) && AllTended(DropMark(s, t))
  {
    var s' := DropMark(s, t);
    assert t in s.pc ==> ThreadOk(s, t);
    forall i: Iid | i < |s'.insts| ensures InstOk(s', i) && Tended(s', i) {
      assert i < |s.insts| ==> InstOk(s, i) && Tended(s, i);
      if i < |s.insts| && s.insts[i] == s'.insts[i] {
        InstStays(s, s', t, i);
      }
      WitnessesStay(s, s', t, i);
    }
  }

  lemma DropMarkThreads(s: State, t: Tid)
    requires HistOk(s) && LockOk(s) && DropsOk(s) && InstsOk(s) && ThreadsOk(s) && RegsOk(s)
    requires CanMark(s, t)
    ensures ThreadsOk(DropMark(s, t))
  {
    var s' := DropMark(s, t);
    assert t in s.pc ==> ThreadOk(s, t);
    forall i: Iid | i < |s.insts| && Condemned(s, i) ensures Condemned(s', i) {
      assert InstOk(s, i);
    }
    forall u | u in s'.pc ensures ThreadOk(s', u) {
      if u != t {
        assert ThreadOk(s, u);
        ThreadStays(s, s', u);
      }
    }
  }

  lemma DropFinishInsts(s: State, t: Tid)
    requires InstsOk(s) && AllTended(s) && ThreadsOk(s) && RegsOk(s) && OwnersOk(s) && LockOk(s)
    requires CanFinish(s, t)
    ensures InstsOk(DropFinish(s, t)) && AllTended(DropFinish(s, t))
  {
    var s' := DropFinish(s, t);
    assert t in s.pc ==> ThreadOk(s, t);
    forall i: Iid | i < |s'.insts| ensures InstOk(s', i) && Tended(s', i) {
      assert i < |s.insts| ==> InstOk(s, i) && Tended(s, i);
      if i < |s.insts| && s.insts[i] == s'.insts[i] {
        InstStays(s, s', t, i);
      }
      WitnessesStay(s, s', t, i);
    }
  }

  lemma DropFinishThreads(s: State, t: Tid)
    requires HistOk(s) && LockOk(s) && DropsOk(s) && InstsOk(s) && ThreadsOk(s) && RegsOk(s)
    requires CanFinish(s, t)
    ensures ThreadsOk(DropFinish(s, t))
  {
    var s' := DropFinish(s, t);
    assert t in s.pc ==> ThreadOk(s, t);
    forall i: Iid | i < |s.insts| && Condemned(s, i) ensures Condemned(s', i) {
      assert InstOk(s, i);
    }
    forall u | u in s'.pc ensures ThreadOk(s', u) {
      if u != t {
        assert ThreadOk(s, u);
        ThreadStays(s, s', u);
      }
    }
  }

  lemma BeginOpenInsts(s: State, t: Tid, k: Key)
    requires InstsOk(s) && AllTended(s) && ThreadsOk(s) && RegsOk(s) && OwnersOk(s) && LockOk(s)
    requires CanBegin(s, t, k)
    ensures InstsOk(BeginOpen(s, t, k)) && AllTended(BeginOpen(s, t, k))
  {
    var s' := BeginOpen(s, t, k);
    assert t in s.pc ==> ThreadOk(s, t);
    forall i: Iid | i < |s'.insts| ensures InstOk(s', i) && Tended(s', i) {
      assert i < |s.insts| ==> InstOk(s, i) && Tended(s, i);
      if i < |s.insts| && s.insts[i] == s'.insts[i] {
        InstStays(s, s', t, i);
      }
      WitnessesStay(s, s', t, i);
    }
  }

  lemma BeginOpenThreads(s: State, t: Tid, k: Key)
    requires HistOk(s) && LockOk(s) && DropsOk(s) && InstsOk(s) && ThreadsOk(s) && RegsOk(s)
    requires CanBegin(s, t, k)
    ensures ThreadsOk(BeginOpen(s, t, k))
  {
    var s' := BeginOpen(s, t, k);
    assert t in s.pc ==> ThreadOk(s, t);
    forall i: Iid | i < |s.insts| && Condemned(s, i) ensures Condemned(s', i) {
      assert InstOk(s, i);
    }
    forall u | u in s'.pc ensures ThreadOk(s', u) {
      if u != t {
        assert ThreadOk(s, u);
        ThreadStays(s, s', u);
      }
    }
  }

  lemma StatPathInsts(s: State, t: Tid)
    requires InstsOk(s) && AllTended(s) && ThreadsOk(s) && RegsOk(s) && OwnersOk(s) && LockOk(s)
    requires CanStat(s, t)
    ensures InstsOk(StatPath(s, t)) && AllTended(StatPath(s, t))
  {
    var s' := StatPath(s, t);
    assert t in s.pc ==> ThreadOk(s, t);
    forall i: Iid | i < |s'.insts| ensures InstOk(s', i) && Tended(s', i) {
      assert i < |s.insts| ==> InstOk(s, i) && Tended(s, i);
      if i < |s.insts| && s.insts[i] == s'.insts[i] {
        InstStays(s, s', t, i);
      }
      WitnessesStay(s, s', t, i);
    }
  }

  lemma StatPathThreads(s: State, t: Tid)
    requires HistOk(s) && LockOk(s) && DropsOk(s) && InstsOk(s) && ThreadsOk(s) && RegsOk(s)
    requires CanStat(s, t)
    ensures ThreadsOk(StatPath(s, t))
  {
    var s' := StatPath(s, t);
    assert t in s.pc ==> ThreadOk(s, t);
    forall i: Iid | i < |s.insts| && Condemned(s, i) ensures Condemned(s', i) {
      assert InstOk(s, i);
    }
    forall u | u in s'.pc ensures ThreadOk(s', u) {
      if u != t {
        assert ThreadOk(s, u);
        ThreadStays(s, s', u);
      }
    }
  }

  lemma LookUpInsts(s: State, t: Tid)
    requires InstsOk(s) && ThreadsOk(s) && RegsOk(s) && OwnersOk(s)
    requires CanLook(s, t)
    ensures InstsOk(LookUp(s, t))
  {
    var s' := LookUp(s, t);
    assert t in s.pc ==> ThreadOk(s, t);
    forall i: Iid | i < |s'.insts| ensures InstOk(s', i) {
      assert i < |s.insts| ==> InstOk(s, i);
      if i < |s.insts| && s.insts[i] == s'.insts[i] {
        InstStays(s, s', t, i);
      }
    }
  }

  lemma LookUpTended(s: State, t: Tid)
    requires LockOk(s) && InstsOk(s) && AllTended(s) && ThreadsOk(s) && RegsOk(s)
    requires CanLook(s, t)
    ensures AllTended(LookUp(s, t))
  {
    var s' := LookUp(s, t);
    assert t in s.pc ==> ThreadOk(s, t);
    forall i: Iid | i < |s'.insts| ensures Tended(s', i) {
      assert i < |s.insts| ==> InstOk(s, i) && Tended(s, i);
      WitnessesStay(s, s', t, i);
    }
  }

  lemma LookUpThreads(s: State, t: Tid)
    requires HistOk(s) && LockOk(s) && DropsOk(s) && InstsOk(s) && ThreadsOk(s) && RegsOk(s)
    requires CanLook(s, t)
    ensures ThreadsOk(LookUp(s, t))
  {
    var s' := LookUp(s, t);
    assert t in s.pc ==> ThreadOk(s, t);
    forall i: Iid | i < |s.insts| && Condemned(s, i) ensures Condemned(s', i) {
      assert InstOk(s, i);
    }
    forall u | u in s'.pc ensures ThreadOk(s', u) {
      if u != t {
        assert ThreadOk(s, u);
        ThreadStays(s, s', u);
      }
    }
  }

  lemma AttachNewInsts(s: State, t: Tid)
    requires InstsOk(s) && AllTended(s) && ThreadsOk(s) && RegsOk(s) && OwnersOk(s) && LockOk(s)
    requires CanAttach(s, t)
    ensures InstsOk(AttachNew(s, t)) && AllTended(AttachNew(s, t))
  {
    var s' := AttachNew(s, t);
    assert t in s.pc ==> ThreadOk(s, t);
    forall i: Iid | i < |s'.insts| ensures InstOk(s', i) && Tended(s', i) {
      assert i < |s.insts| ==> InstOk(s, i) && Tended(s, i);
      if i < |s.insts| && s.insts[i] == s'.insts[i] {
        InstStays(s, s', t, i);
      }
      WitnessesStay(s, s', t, i);
    }
  }

  lemma AttachNewThreads(s: State, t: Tid)
    requires HistOk(s) && LockOk(s) && DropsOk(s) && InstsOk(s) && ThreadsOk(s) && RegsOk(s)
    requires CanAttach(s, t)
    ensures ThreadsOk(AttachNew(s, t))
  {
    var s' := AttachNew(s, t);
    assert t in s.pc ==> ThreadOk(s, t);
    forall i: Iid | i < |s.insts| && Condemned(s, i) ensures Condemned(s', i) {
      assert InstOk(s, i);
    }
    forall u | u in s'.pc ensures ThreadOk(s', u) {
      if u != t {
        assert ThreadOk(s, u);
        ThreadStays(s, s', u);
      }
    }
  }

  lemma AbandonNewInsts(s: State, t: Tid)
    requires InstsOk(s) && ThreadsOk(s) && RegsOk(s) && OwnersOk(s)
    requires CanRecheck(s, t) && Now(s, Pc(s, t).o.key) != Pc(s, t).o.fid
    ensures InstsOk(AbandonNew(s, t))
  {
    var s' := AbandonNew(s, t);
    assert ThreadOk(s, t);
    forall i: Iid | i < |s'.insts| ensures InstOk(s', i) {
      assert InstOk(s, i);
      if i != Pc(s, t).n {
        InstStays(s, s', t, i);
      }
    }
  }

  lemma AbandonNewTended(s: State, t: Tid)
    requires LockOk(s) && InstsOk(s) && AllTended(s) && ThreadsOk(s) && RegsOk(s)
    requires CanRecheck(s, t) && Now(s, Pc(s, t).o.key) != Pc(s, t).o.fid
    ensures AllTended(AbandonNew(s, t))
  {
    var s' := AbandonNew(s, t);
    assert t in s.pc ==> ThreadOk(s, t);
    forall i: Iid | i < |s'.insts| ensures Tended(s', i) {
      assert i < |s.insts| ==> InstOk(s, i) && Tended(s, i);
      WitnessesStay(s, s', t, i);
    }
  }

  lemma AbandonNewThreads(s: State, t: Tid)
    requires HistOk(s) && LockOk(s) && DropsOk(s) && InstsOk(s) && ThreadsOk(s) && RegsOk(s)
    requires CanRecheck(s, t) && Now(s, Pc(s, t).o.key) != Pc(s, t).o.fid
    ensures ThreadsOk(AbandonNew(s, t))
  {
    var s' := AbandonNew(s, t);
    assert ThreadOk(s, t) && InstOk(s, Pc(s, t).n);
    forall i: Iid | i < |s.insts| && Condemned(s, i) ensures Condemned(s', i) {
      assert InstOk(s, i);
    }
    forall u | u in s'.pc ensures ThreadOk(s', u) {
      if u != t {
        assert ThreadOk(s, u);
        ThreadStays(s, s', u);
      }
    }
  }

  lemma RecheckInsts(s: State, t: Tid)
    requires InstsOk(s) && ThreadsOk(s) && RegsOk(s) && OwnersOk(s)
    requires CanRecheck(s, t) && Now(s, Pc(s, t).o.key) == Pc(s, t).o.fid
    ensures InstsOk(Recheck(s, t))
  {
    var s' := Recheck(s, t);
    assert ThreadOk(s, t);
    forall i: Iid | i < |s'.insts| ensures InstOk(s', i) {
      assert InstOk(s, i);
      if i != Pc(s, t).n {
        InstStays(s, s', t, i);
      }
    }
  }

  lemma RecheckTended(s: State, t: Tid)
    requires LockOk(s) && InstsOk(s) && AllTended(s) && ThreadsOk(s) && RegsOk(s)
    requires CanRecheck(s, t) && Now(s, Pc(s, t).o.key) == Pc(s, t).o.fid
    ensures AllTended(Recheck(s, t))
  {
    var s' := Recheck(s, t);
    assert t in s.pc ==> ThreadOk(s, t);
    forall i: Iid | i < |s'.insts| ensures Tended(s', i) {
      assert i < |s.insts| ==> InstOk(s, i) && Tended(s, i);
      WitnessesStay(s, s', t, i);
    }
  }

  lemma RecheckThreads(s: State, t: Tid)
    requires HistOk(s) && LockOk(s) && DropsOk(s) && InstsOk(s) && ThreadsOk(s) && RegsOk(s)
    requires CanRecheck(s, t) && Now(s, Pc(s, t).o.key) == Pc(s, t).o.fid
    ensures ThreadsOk(Recheck(s, t))
  {
    var s' := Recheck(s, t);
    RecheckMover(s, t);
    forall u | u in s'.pc && u != t ensures ThreadOk(s', u) {
      assert ThreadOk(s, u);
      ThreadStays(s, s', u);
    }
  }

  lemma UseEqualInsts(s: State, t: Tid)
    requires InstsOk(s) && ThreadsOk(s) && RegsOk(s) && OwnersOk(s)
    requires CanRegister(s, t) && Usable(s, Pc(s, t).o)
    ensures InstsOk(UseEqual(s, t))
  {
    var s' := UseEqual(s, t);
    assert ThreadOk(s, t);
    var o, n := Pc(s, t).o, Pc(s, t).n;
    var to := s.reg[(o.key, o.fid)];
    UseEqualSpare(s, t);
    UseEqualShared(s, t);
    forall i: Iid | i < |s'.insts| ensures InstOk(s', i) {
      assert InstOk(s, i);
      if i != n && i != to {
        InstStays(s, s', t, i);
      }
    }
  }

  lemma UseEqualSpare(s: State, t: Tid)
    requires InstsOk(s) && ThreadsOk(s) && RegsOk(s) && OwnersOk(s)
    requires CanRegister(s, t) && Usable(s, Pc(s, t).o)
    ensures Pc(s, t).n < |s.insts| && InstOk(UseEqual(s, t), Pc(s, t).n)
  {
    assert ThreadOk(s, t) && InstOk(s, Pc(s, t).n);
  }

  lemma UseEqualShared(s: State, t: Tid)
    requires InstsOk(s) && ThreadsOk(s) && RegsOk(s) && OwnersOk(s)
    requires CanRegister(s, t) && Usable(s, Pc(s, t).o)
    ensures s.reg[(Pc(s, t).o.key, Pc(s, t).o.fid)] < |s.insts|
    ensures InstOk(UseEqual(s, t), s.reg[(Pc(s, t).o.key, Pc(s, t).o.fid)])
  {
    var s' := UseEqual(s, t);
    assert ThreadOk(s, t);
    var to := s.reg[(Pc(s, t).o.key, Pc(s, t).o.fid)];
    assert InstOk(s, to);
    assert |s'.insts[to].live| == |s.insts[to].live| + 1;
  }

  lemma UseEqualTended(s: State, t: Tid)
    requires LockOk(s) && InstsOk(s) && AllTended(s) && ThreadsOk(s) && RegsOk(s)
    requires CanRegister(s, t) && Usable(s, Pc(s, t).o)
    ensures AllTended(UseEqual(s, t))
  {
    var s' := UseEqual(s, t);
    assert t in s.pc ==> ThreadOk(s, t);
    forall i: Iid | i < |s'.insts| ensures Tended(s', i) {
      assert i < |s.insts| ==> InstOk(s, i) && Tended(s, i);
      WitnessesStay(s, s', t, i);
    }
  }

  lemma UseEqualThreads(s: State, t: Tid)
    requires HistOk(s) && LockOk(s) && DropsOk(s) && InstsOk(s) && ThreadsOk(s) && RegsOk(s)
    requires CanRegister(s, t) && Usable(s, Pc(s, t).o)
    ensures ThreadsOk(UseEqual(s, t))
  {
    var s' := UseEqual(s, t);
    assert ThreadOk(s, t) && InstOk(s, Pc(s, t).n);
    forall i: Iid | i < |s.insts| && Condemned(s, i) ensures Condemned(s', i) {
      assert InstOk(s, i);
    }
    forall u | u in s'.pc ensures ThreadOk(s', u) {
      if u != t {
        assert ThreadOk(s, u);
        ThreadStays(s, s', u);
      }
    }
  }

  lemma PublishInsts(s: State, t: Tid)
    requires InstsOk(s) && ThreadsOk(s) && RegsOk(s) && OwnersOk(s)
    requires CanRegister(s, t) && !Usable(s, Pc(s, t).o)
    ensures InstsOk(Publish(s, t))
  {
    var s' := Publish(s, t);
    assert ThreadOk(s, t);
    var n := Pc(s, t).n;
    assert InstOk(s, n);
    assert |s'.insts[n].live| == |s.insts[n].live| + 1;
    forall i: Iid | i < |s'.insts| ensures InstOk(s', i) {
      assert InstOk(s, i);
      if i != n {
        InstStays(s, s', t, i);
      }
    }
  }

  lemma PublishTended(s: State, t: Tid)
    requires LockOk(s) && InstsOk(s) && AllTended(s) && ThreadsOk(s) && RegsOk(s)
    requires CanRegister(s, t) && !Usable(s, Pc(s, t).o)
    ensures AllTended(Publish(s, t))
  {
    var s' := Publish(s, t);
    assert ThreadOk(s, t);
    assert InstOk(s, Pc(s, t).n) && |s.owner| in s'.insts[Pc(s, t).n].live;
    forall i: Iid | i < |s'.insts| ensures Tended(s', i) {
      assert InstOk(s, i) && Tended(s, i);
      WitnessesStay(s, s', t, i);
    }
  }

  lemma PublishThreads(s: State, t: Tid)
    requires HistOk(s) && LockOk(s) && DropsOk(s) && InstsOk(s) && ThreadsOk(s) && RegsOk(s)
    requires CanRegister(s, t) && !Usable(s, Pc(s, t).o)
    ensures ThreadsOk(Publish(s, t))
  {
    var s' := Publish(s, t);
    assert t in s.pc ==> ThreadOk(s, t);
    forall i: Iid | i < |s.insts| && Condemned(s, i) ensures Condemned(s', i) {
      assert InstOk(s, i);
    }
    forall u | u in s'.pc ensures ThreadOk(s', u) {
      if u != t {
        assert ThreadOk(s, u);
        ThreadStays(s, s', u);
      }
    }
  }

  lemma ShutMarkInsts(s: State, t: Tid)
    requires InstsOk(s) && AllTended(s) && ThreadsOk(s) && RegsOk(s) && OwnersOk(s) && LockOk(s)
    requires CanShut(s, t)
    ensures InstsOk(ShutMark(s, t)) && AllTended(ShutMark(s, t))
  {
    var s' := ShutMark(s, t);
    assert t in s.pc ==> ThreadOk(s, t);
    forall i: Iid | i < |s'.insts| ensures InstOk(s', i) && Tended(s', i) {
      assert i < |s.insts| ==> InstOk(s, i) && Tended(s, i);
      if i < |s.insts| && s.insts[i] == s'.insts[i] {
        InstStays(s, s', t, i);
      }
      WitnessesStay(s, s', t, i);
    }
  }

  lemma ShutMarkThreads(s: State, t: Tid)
    requires HistOk(s) && LockOk(s) && DropsOk(s) && InstsOk(s) && ThreadsOk(s) && RegsOk(s)
    requires CanShut(s, t)
    ensures ThreadsOk(ShutMark(s, t))
  {
    var s' := ShutMark(s, t);
    assert t in s.pc ==> ThreadOk(s, t);
    forall i: Iid | i < |s.insts| && Condemned(s, i) ensures Condemned(s', i) {
      assert InstOk(s, i);
    }
    forall u | u in s'.pc ensures ThreadOk(s', u) {
      if u != t {
        assert ThreadOk(s, u);
        ThreadStays(s, s', u);
      }
    }
  }

  lemma ShutEndInsts(s: State, t: Tid)
    requires InstsOk(s) && AllTended(s) && ThreadsOk(s) && RegsOk(s) && OwnersOk(s) && LockOk(s)
    requires CanEndShut(s, t)
    ensures InstsOk(ShutEnd(s, t)) && AllTended(ShutEnd(s, t))
  {
    var s' := ShutEnd(s, t);
    assert t in s.pc ==> ThreadOk(s, t);
    forall i: Iid | i < |s'.insts| ensures InstOk(s', i) && Tended(s', i) {
      assert i < |s.insts| ==> InstOk(s, i) && Tended(s, i);
      if i < |s.insts| && s.insts[i] == s'.insts[i] {
        InstStays(s, s', t, i);
      }
      WitnessesStay(s, s', t, i);
    }
  }

  lemma ShutEndThreads(s: State, t: Tid)
    requires HistOk(s) && LockOk(s) && DropsOk(s) && InstsOk(s) && ThreadsOk(s) && RegsOk(s)
    requires CanEndShut(s, t)
    ensures ThreadsOk(ShutEnd(s, t))
  {
    var s' := ShutEnd(s, t);
    ShutEndMover(s, t);
    forall u | u in s'.pc && u != t ensures ThreadOk(s', u) {
      assert ThreadOk(s, u);
      ThreadStays(s, s', u);
    }
  }

  lemma StaleScanInsts(s: State, t: Tid, k: Key, found: seq<Iid>)
    requires InstsOk(s) && AllTended(s) && ThreadsOk(s) && RegsOk(s) && OwnersOk(s) && LockOk(s)
    requires CanScan(s, t, k, found)
    ensures InstsOk(StaleScan(s, t, k, found)) && AllTended(StaleScan(s, t, k, found))
  {
    var s' := StaleScan(s, t, k, found);
    assert t in s.pc ==> ThreadOk(s, t);
    forall i: Iid | i < |s'.insts| ensures InstOk(s', i) && Tended(s', i) {
      assert i < |s.insts| ==> InstOk(s, i) && Tended(s, i);
      if i < |s.insts| && s.insts[i] == s'.insts[i] {
        InstStays(s, s', t, i);
      }
      WitnessesStay(s, s', t, i);
    }
  }

  lemma StaleScanThreads(s: State, t: Tid, k: Key, found: seq<Iid>)
    requires HistOk(s) && LockOk(s) && DropsOk(s) && InstsOk(s) && ThreadsOk(s) && RegsOk(s)
    requires CanScan(s, t, k, found)
    ensures ThreadsOk(StaleScan(s, t, k, found))
  {
    var s' := StaleScan(s, t, k, found);
    forall i | i in found ensures Condemned(s', i) {
      assert InstOk(s, i) && IsStale(s, k, i);
    }
    assert found != [] ==> found[0] in found;
    forall u | u in s'.pc ensures ThreadOk(s', u) {
      if u != t {
        assert ThreadOk(s, u);
        ThreadStays(s, s', u);
      }
    }
  }

  lemma ScanRaisesInsts(s: State, t: Tid, k: Key, found: seq<Iid>)
    requires InstsOk(s) && AllTended(s) && ThreadsOk(s) && RegsOk(s) && OwnersOk(s) && LockOk(s)
    requires CanScan(s, t, k, found)
    ensures InstsOk(ScanRaises(s, t, k, found)) && AllTended(ScanRaises(s, t, k, found))
  {
    var s' := ScanRaises(s, t, k, found);
    forall i: Iid | i < |s'.insts| ensures InstOk(s', i) && Tended(s', i) {
      assert InstOk(s, i) && Tended(s, i);
      WitnessesStay(s, s', t, i);
    }
  }

  lemma ScanRaisesThreads(s: State, t: Tid, k: Key, found: seq<Iid>)
    requires HistOk(s) && LockOk(s) && DropsOk(s) && InstsOk(s) && ThreadsOk(s) && RegsOk(s)
    requires CanScan(s, t, k, found)
    ensures ThreadsOk(ScanRaises(s, t, k, found))
  {
    var s' := ScanRaises(s, t, k, found);
    forall u | u in s'.pc ensures ThreadOk(s', u) {
      assert ThreadOk(s, u);
      ThreadStays(s, s', u);
    }
  }

  // ----- what a raising scan left behind -----------------------------------------------

  /** A dropped instance that only loses handles, and that no thread comes to shut. */
  lemma DroppedStays(s: State, s': State, i: Iid)
    requires DroppedOk(s, i) && Known(s', i) && SameFor(s.insts[i], s'.insts[i])
    requires s'.insts[i].maker == None && !Registered(s', i) && s'.insts[i].live <= s.insts[i].live
    requires s'.insts[i].core.closed ==> s.insts[i].core.closed || s'.insts[i].live == {}
    requires forall t | t in s'.pc :: (t in s.pc && s'.pc[t] == s.pc[t]) || Unshut(s'.pc[t], i)
    ensures DroppedOk(s', i)
  {
  }

  lemma StatementsKeepDropped(s: State, a: Action, i: Iid)
    requires Inv(s) && Enabled(s, a) && i in s.dropped && (a.ATest? || a.ACount? || a.ALeave?)
    ensures DroppedOk(Step(s, a), i)
  {
    assert a.t in s.pc ==> ThreadOk(s, a.t);
    assert DroppedOk(s, i);
    DroppedStays(s, Step(s, a), i);
  }

  lemma DecideKeepsDropped(s: State, t: Tid, i: Iid)
    requires Inv(s) && CanDecide(s, t) && i in s.dropped
    ensures DroppedOk(DropDecide(s, t), i)
  {
    assert ThreadOk(s, t) && DroppedOk(s, i);
    DroppedStays(s, DropDecide(s, t), i);
  }

  lemma HandlesKeepDropped(s: State, a: Action, i: Iid)
    requires Inv(s) && Enabled(s, a) && i in s.dropped && (a.ADrop? || a.AMark? || a.AFinish?)
    ensures DroppedOk(Step(s, a), i)
  {
    assert a.t in s.pc ==> ThreadOk(s, a.t);
    assert DroppedOk(s, i);
    DroppedStays(s, Step(s, a), i);
  }

  lemma OpensKeepDropped(s: State, a: Action, i: Iid)
    requires Inv(s) && Enabled(s, a) && i in s.dropped && (a.AReplace? || a.ABegin? || a.AStat? || a.AAttach?)
    ensures DroppedOk(Step(s, a), i)
  {
    assert !a.AReplace? && a.t in s.pc ==> ThreadOk(s, a.t);
    assert DroppedOk(s, i);
    DroppedStays(s, Step(s, a), i);
  }

  lemma LookKeepsDropped(s: State, t: Tid, i: Iid)
    requires Inv(s) && CanLook(s, t) && i in s.dropped
    ensures DroppedOk(LookUp(s, t), i)
  {
    assert ThreadOk(s, t) && DroppedOk(s, i);
    var o := Pc(s, t).o;
    assert (o.key, o.fid) in s.reg ==> RegOk(s, (o.key, o.fid));
    DroppedStays(s, LookUp(s, t), i);
  }

  lemma MakersKeepDropped(s: State, a: Action, i: Iid)
    requires Inv(s) && Enabled(s, a) && i in s.dropped && (a.ARecheck? || a.ARegister?)
    ensures DroppedOk(Step(s, a), i)
  {
    assert ThreadOk(s, a.t) && DroppedOk(s, i);
    assert i != Pc(s, a.t).n;
    var o := Pc(s, a.t).o;
    assert (o.key, o.fid) in s.reg ==> RegOk(s, (o.key, o.fid));
    DroppedStays(s, Step(s, a), i);
  }

  lemma ShutsKeepDropped(s: State, a: Action, i: Iid)
    requires Inv(s) && Enabled(s, a) && i in s.dropped && (a.AShut? || a.AEndShut?)
    ensures DroppedOk(Step(s, a), i)
  {
    assert ThreadOk(s, a.t) && DroppedOk(s, i);
    assert Unshut(s.pc[a.t], i);
    DroppedStays(s, Step(s, a), i);
  }

  lemma ScanKeepsDropped(s: State, t: Tid, k: Key, found: seq<Iid>, i: Iid)
    requires Inv(s) && CanScan(s, t, k, found) && i in s.dropped
    ensures DroppedOk(StaleScan(s, t, k, found), i)
  {
    assert DroppedOk(s, i);
    assert i !in found by {
      assert i in found ==> IsStale(s, k, i);
    }
    DroppedStays(s, StaleScan(s, t, k, found), i);
  }

  lemma ScanDrops(s: State, t: Tid, k: Key, found: seq<Iid>, i: Iid)
    requires Inv(s) && CanScan(s, t, k, found) && i in ScanRaises(s, t, k, found).dropped
    ensures DroppedOk(ScanRaises(s, t, k, found), i)
  {
    var s' := ScanRaises(s, t, k, found);
    if i in s.dropped {
      assert DroppedOk(s, i);
      DroppedStays(s, s', i);
    } else {
      assert IsStale(s, k, i) && InstOk(s, i);
      forall u | u in s'.pc ensures Unshut(s'.pc[u], i) {
        assert ThreadOk(s, u);
      }
    }
  }

  lemma KeepsDropped(s: State, a: Action)
    requires Inv(s) && Enabled(s, a)
    ensures DroppedsOk(Step(s, a))
  {
    OnlyRaisingDrops(s, a);
    forall i | i in Step(s, a).dropped ensures DroppedOk(Step(s, a), i) {
      if a.AScanFails? {
        ScanDrops(s, a.t, a.k, a.found, i);
      } else {
        OneKeepsDropped(s, a, i);
      }
    }
  }

  lemma OnlyRaisingDrops(s: State, a: Action)
    requires Enabled(s, a)
    ensures !a.AScanFails? ==> Step(s, a).dropped == s.dropped
  {
  }

  lemma OneKeepsDropped(s: State, a: Action, i: Iid)
    requires Inv(s) && Enabled(s, a) && !a.AScanFails? && i in s.dropped
    ensures DroppedOk(Step(s, a), i)
  {
    if a.AScan? {
      ScanKeepsDropped(s, a.t, a.k, a.found, i);
    } else if a.ALook? {
      LookKeepsDropped(s, a.t, i);
    } else if a.ARecheck? || a.ARegister? {
      MakersKeepDropped(s, a, i);
    } else if a.AShut? || a.AEndShut? {
      ShutsKeepDropped(s, a, i);
    } else if a.ATest? || a.ACount? || a.ALeave? {
      StatementsKeepDropped(s, a, i);
    } else if a.ADecide? {
      DecideKeepsDropped(s, a.t, i);
    } else if OfHandles(a) {
      HandlesKeepDropped(s, a, i);
    } else {
      OpensKeepDropped(s, a, i);
    }
  }
}
