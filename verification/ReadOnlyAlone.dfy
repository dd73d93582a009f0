/** What a call does that nothing interrupts: an open, a statement, a dropped handle, a scan. */
module ReadOnlyAlone {
  import opened Options
  import opened ReadOnlyInstance
  import opened ReadOnlyMachine
  import opened ReadOnlyTheorems
  import opened ReadOnlyRuns

  /** Between calls: the thread is idle and no lock is held. */
  predicate Quiet(s: State, t: Tid) { Inv(s) && Pc(s, t) == Idle && s.hl == None && forall i: Iid | i < |s.insts| :: s.insts[i].cv == None }

  lemma LeadsThree(s1: State, a: Action, s2: State, b: Action, s3: State, c: Action, s4: State)
    requires Enabled(s1, a) && Step(s1, a) == s2 && Enabled(s2, b) && Step(s2, b) == s3 && Enabled(s3, c) && Step(s3, c) == s4
    ensures Leads(s1, [a, b, c], s4)
  {
    LeadsTwo(s2, b, s3, c, s4);
    LeadsCons(s1, a, [b, c], s4);
    assert [a] + [b, c] == [a, b, c];
  }

  // ----- opens -------------------------------------------------------------------------

  /** The place of an open that has read the file at the path. */
  function Reading(s: State, k: Key): OpenCall
    requires PathKnown(s, k)
  {
    var m := |s.hist[k]| - 1;
    OpenCall(k, m, 0, s.hist[k][m], m)
  }

  lemma BeginAndStat(s: State, t: Tid, k: Key)
    requires Quiet(s, t) && PathKnown(s, k)
    ensures Leads(s, [ABegin(t, k), AStat(t)], SetPc(s, t, OpenLook(Reading(s, k))))
  {
    var m := |s.hist[k]| - 1;
    var s1 := SetPc(s, t, OpenStat(OpenCall(k, m, 0, None, m)));
    var s2 := SetPc(s, t, OpenLook(Reading(s, k)));
    assert s.pc[t := OpenStat(OpenCall(k, m, 0, None, m))][t := OpenLook(Reading(s, k))] == s.pc[t := OpenLook(Reading(s, k))];
    LeadsTwo(s, ABegin(t, k), s1, AStat(t), s2);
  }

  /** An open of a file that has an instance takes one more handle of that instance, and nothing else. */
  lemma OpenJoins(s: State, t: Tid, k: Key) returns (i: Iid)
    requires Quiet(s, t) && PathKnown(s, k) && (k, Now(s, k)) in s.reg
    ensures i == s.reg[(k, Now(s, k))] && i < |s.insts|
    ensures var x := s.insts[i];
      Leads(s, [ABegin(t, k), AStat(t), ALook(t)],
            s.(insts := s.insts[i := x.(core := x.core.(refs := x.core.refs + 1), live := x.live + {|s.owner|})],
               owner := s.owner + [i], pc := s.pc[t := Idle],
               done := s.done + [Return(Reading(s, k), |s.hist[k]|, i, false)]))
  {
    i := s.reg[(k, Now(s, k))];
    assert RegOk(s, (k, Now(s, k)));
    var s2 := SetPc(s, t, OpenLook(Reading(s, k)));
    BeginAndStat(s, t, k);
    var s3 := Joins(s, t, k, s2);
    LeadsLast(s, [ABegin(t, k), AStat(t)], s2, ALook(t), s3);
    assert [ABegin(t, k), AStat(t)] + [ALook(t)] == [ABegin(t, k), AStat(t), ALook(t)];
  }

  lemma Joins(s: State, t: Tid, k: Key, s2: State) returns (s3: State)
    requires RegsOk(s) && s.hl == None && PathKnown(s, k) && (k, Now(s, k)) in s.reg
    requires s2 == SetPc(s, t, OpenLook(Reading(s, k)))
    ensures Enabled(s2, ALook(t)) && s3 == Step(s2, ALook(t))
    ensures var i := s.reg[(k, Now(s, k))]; i < |s.insts| && var x := s.insts[i];
      s3 == s.(insts := s.insts[i := x.(core := x.core.(refs := x.core.refs + 1), live := x.live + {|s.owner|})],
               owner := s.owner + [i], pc := s.pc[t := Idle],
               done := s.done + [Return(Reading(s, k), |s.hist[k]|, i, false)])
  {
    assert RegOk(s, (k, Now(s, k)));
    s3 := Step(s2, ALook(t));
    assert s2.pc[t := Idle] == s.pc[t := Idle];
  }

  lemma LeadsLast(s1: State, acts: seq<Action>, s2: State, a: Action, s3: State)
    requires Leads(s1, acts, s2) && Enabled(s2, a) && Step(s2, a) == s3
    ensures Leads(s1, acts + [a], s3)
  {
    assert [a][1..] == [];
    LeadsAppend(s1, acts, s2, [a], s3);
  }

  /** An open of a file that has none makes one, bound to it, registers it and holds its only handle. */
  lemma OpenMakes(s: State, t: Tid, k: Key)
    requires Quiet(s, t) && PathKnown(s, k) && Now(s, k).Some? && (k, Now(s, k)) !in s.reg
    ensures var made := Inst(k, Now(s, k), Now(s, k).value, |s.hist[k]| - 1, Core(1, false, false, 0, 0), None, {|s.owner|}, {}, None);
      Leads(s, [ABegin(t, k), AStat(t), ALook(t), AAttach(t), ARecheck(t), ARegister(t)],
            s.(insts := s.insts + [made], reg := s.reg[(k, Now(s, k)) := |s.insts|],
               owner := s.owner + [|s.insts|], pc := s.pc[t := Idle],
               done := s.done + [Return(Reading(s, k), |s.hist[k]|, |s.insts|, true)]))
  {
    var o, n := Reading(s, k), |s.insts|;
    var s2 := SetPc(s, t, OpenLook(o));
    var s3 := SetPc(s, t, OpenAttach(o));
    BeginAndStat(s, t, k);
    assert s2.pc[t := OpenAttach(o)] == s3.pc;
    LeadsLast(s, [ABegin(t, k), AStat(t)], s2, ALook(t), s3);
    assert [ABegin(t, k), AStat(t)] + [ALook(t)] == [ABegin(t, k), AStat(t), ALook(t)];
    Attached(s, t, k, s3);
    var s6 := Made3(s, t, k);
    LeadsAppend(s, [ABegin(t, k), AStat(t), ALook(t)], s3, [AAttach(t), ARecheck(t), ARegister(t)], s6);
    assert [ABegin(t, k), AStat(t), ALook(t)] + [AAttach(t), ARecheck(t), ARegister(t)]
      == [ABegin(t, k), AStat(t), ALook(t), AAttach(t), ARecheck(t), ARegister(t)];
  }

  function Made3(s: State, t: Tid, k: Key): State
    requires PathKnown(s, k) && Now(s, k).Some?
  {
    var made := Inst(k, Now(s, k), Now(s, k).value, |s.hist[k]| - 1, Core(1, false, false, 0, 0), None, {|s.owner|}, {}, None);
    s.(insts := s.insts + [made], reg := s.reg[(k, Now(s, k)) := |s.insts|],
       owner := s.owner + [|s.insts|], pc := s.pc[t := Idle],
       done := s.done + [Return(Reading(s, k), |s.hist[k]|, |s.insts|, true)])
  }

  lemma Attached(s: State, t: Tid, k: Key, s3: State)
    requires Quiet(s, t) && PathKnown(s, k) && Now(s, k).Some? && (k, Now(s, k)) !in s.reg
    requires s3 == SetPc(s, t, OpenAttach(Reading(s, k)))
    ensures Leads(s3, [AAttach(t), ARecheck(t), ARegister(t)], Made3(s, t, k))
  {
    var o, n := Reading(s, k), |s.insts|;
    var x := Inst(k, o.fid, o.fid.value, |s.hist[k]| - 1, FreshCore, None, {}, {}, Some(t));
    var s4 := s.(pc := s.pc[t := OpenRecheck(o, n)], insts := s.insts + [x]);
    var s5 := s.(pc := s.pc[t := OpenRegister(o, n)], insts := s.insts + [x]);
    Registers(s, t, k, o, n, x, s5);
    Attaches(s, t, k, s3, s4, s5, x);
    LeadsThree(s3, AAttach(t), s4, ARecheck(t), s5, ARegister(t), Made3(s, t, k));
  }

  lemma Attaches(s: State, t: Tid, k: Key, s3: State, s4: State, s5: State, x: Inst)
    requires PathKnown(s, k) && Now(s, k).Some? && s3 == SetPc(s, t, OpenAttach(Reading(s, k)))
    requires x == Inst(k, Now(s, k), Now(s, k).value, |s.hist[k]| - 1, FreshCore, None, {}, {}, Some(t))
    requires s4 == s.(pc := s.pc[t := OpenRecheck(Reading(s, k), |s.insts|)], insts := s.insts + [x])
    requires s5 == s.(pc := s.pc[t := OpenRegister(Reading(s, k), |s.insts|)], insts := s.insts + [x])
    ensures CanAttach(s3, t) && AttachNew(s3, t) == s4 && CanRecheck(s4, t) && Recheck(s4, t) == s5
  {
    var o, n := Reading(s, k), |s.insts|;
    assert s3.pc[t := OpenRecheck(o, n)] == s4.pc && s4.pc[t := OpenRegister(o, n)] == s5.pc;
  }

  lemma Registers(s: State, t: Tid, k: Key, o: OpenCall, n: Iid, x: Inst, s5: State)
    requires PathKnown(s, k) && Now(s, k).Some? && (k, Now(s, k)) !in s.reg && s.hl == None
    requires o == Reading(s, k) && n == |s.insts|
    requires x == Inst(k, o.fid, o.fid.value, |s.hist[k]| - 1, FreshCore, None, {}, {}, Some(t))
    requires s5 == s.(pc := s.pc[t := OpenRegister(o, n)], insts := s.insts + [x])
    ensures CanRegister(s5, t) && RegisterNew(s5, t) == Made3(s, t, k)
  {
    var s6, want := RegisterNew(s5, t), Made3(s, t, k);
    var y := x.(maker := None);
    var z := y.(core := y.core.(refs := y.core.refs + 1), live := y.live + {|s.owner|});
    assert {} + {|s.owner|} == {|s.owner|};
    assert z == want.insts[n];
    assert s5.insts[n := y][n := z] == s.insts + [z];
    assert s6.insts == want.insts;
    assert s6.pc == want.pc;
  }

  /** An open that finds its path replaced under the new instance closes that and reads the path again; it
    * does so three times and then raises. */
  lemma OpenRetries(s: State, t: Tid)
    requires Inv(s) && Pc(s, t).OpenRecheck? && var o, n := Pc(s, t).o, Pc(s, t).n; n < |s.insts| && s.insts[n].cv == None
    requires Now(s, Pc(s, t).o.key) != Pc(s, t).o.fid && s.insts[Pc(s, t).n].running == {}
    ensures var o, n := Pc(s, t).o, Pc(s, t).n; var x := s.insts[n];
      Leads(s, [ARecheck(t), AShut(t), AEndShut(t)],
            s.(insts := s.insts[n := x.(maker := None, core := Core(x.core.refs, true, true, 1, 0))],
               pc := s.pc[t := OpenStat(o.(tries := o.tries + 1))]))
  {
    var o, n := Pc(s, t).o, Pc(s, t).n;
    var x := s.insts[n];
    assert ThreadOk(s, t) && InstOk(s, n);
    var y := x.(maker := None);
    var s1 := s.(insts := s.insts[n := y], pc := s.pc[t := ShutStart(n, RetryOpen(o))]);
    var s2 := s.(insts := s.insts[n := y.(core := y.core.(closed := true))], pc := s.pc[t := ShutWait(n, RetryOpen(o))]);
    assert s1.pc[t := ShutWait(n, RetryOpen(o))] == s2.pc && s1.insts[n := y.(core := y.core.(closed := true))] == s2.insts;
    var s3 := ShutAfterRetry(s, t, o, n, y, s2);
    LeadsThree(s, ARecheck(t), s1, AShut(t), s2, AEndShut(t), s3);
  }

  lemma ShutAfterRetry(s: State, t: Tid, o: OpenCall, n: Iid, y: Inst, s2: State) returns (s3: State)
    requires n < |s.insts| && y.cv == None && y.core.inflight == 0 && Sound(y.core)
    requires s2 == s.(insts := s.insts[n := y.(core := y.core.(closed := true))], pc := s.pc[t := ShutWait(n, RetryOpen(o))])
    ensures Enabled(s2, AEndShut(t)) && s3 == Step(s2, AEndShut(t))
    ensures s3 == s.(insts := s.insts[n := y.(core := Core(y.core.refs, true, true, 1, 0))],
                     pc := s.pc[t := OpenStat(o.(tries := o.tries + 1))])
  {
    s3 := Step(s2, AEndShut(t));
    assert s2.pc[t := OpenStat(o.(tries := o.tries + 1))] == s.pc[t := OpenStat(o.(tries := o.tries + 1))];
  }

  lemma OpenGivesUp(s: State, t: Tid)
    requires Inv(s) && Pc(s, t).OpenStat?
    ensures PathKnown(s, Pc(s, t).o.key)
    ensures var o := Pc(s, t).o; var m := |s.hist[o.key]| - 1;
      Leads(s, [AStat(t)], if o.tries >= 3 then s.(pc := s.pc[t := Idle])
                           else s.(pc := s.pc[t := OpenLook(o.(fid := s.hist[o.key][m], fidAt := m))]))
  {
    assert ThreadOk(s, t);
    LeadsOne(s, AStat(t));
  }

  /** An open that finds another instance of its file registered meanwhile takes a handle of that and closes
    * its own. */
  lemma OpenYields(s: State, t: Tid) returns (i: Iid)
    requires Inv(s) && s.hl == None && Pc(s, t).OpenRegister? && (Pc(s, t).o.key, Pc(s, t).o.fid) in s.reg
    requires var n := Pc(s, t).n; n < |s.insts| && s.insts[n].running == {} && s.insts[n].cv == None
    ensures var o, n := Pc(s, t).o, Pc(s, t).n; i == s.reg[(o.key, o.fid)] && i < |s.insts| && i != n
    ensures var o, n := Pc(s, t).o, Pc(s, t).n; var x, y := s.insts[n], s.insts[i];
      Leads(s, [ARegister(t), AShut(t), AEndShut(t)],
            s.(insts := s.insts[i := y.(core := y.core.(refs := y.core.refs + 1), live := y.live + {|s.owner|})]
                               [n := x.(maker := None, core := Core(x.core.refs, true, true, 1, 0))],
               owner := s.owner + [i], pc := s.pc[t := Idle],
               done := s.done + [Return(o, |s.hist[o.key]|, i, false)]))
  {
    var o, n := Pc(s, t).o, Pc(s, t).n;
    i := s.reg[(o.key, o.fid)];
    assert ThreadOk(s, t) && RegOk(s, (o.key, o.fid)) && InstOk(s, n);
    var s1 := Step(s, ARegister(t));
    var x, y := s.insts[n], s.insts[i].(core := s.insts[i].core.(refs := s.insts[i].core.refs + 1), live := s.insts[i].live + {|s.owner|});
    assert s1.insts == s.insts[i := y][n := x.(maker := None)];
    var s3 := ShutOwn(s1, t, n, x.(maker := None));
    LeadsCons(s, ARegister(t), [AShut(t), AEndShut(t)], s3);
    assert [ARegister(t)] + [AShut(t), AEndShut(t)] == [ARegister(t), AShut(t), AEndShut(t)];
    assert s.insts[i := y][n := x.(maker := None)][n := x.(maker := None, core := Core(x.core.refs, true, true, 1, 0))]
      == s.insts[i := y][n := x.(maker := None, core := Core(x.core.refs, true, true, 1, 0))];
    assert s1.pc[t := Idle] == s.pc[t := Idle];
  }

  lemma ShutOwn(s1: State, t: Tid, n: Iid, x: Inst) returns (s3: State)
    requires n < |s1.insts| && s1.insts[n] == x && x.cv == None && x.core.inflight == 0 && Sound(x.core)
    requires Pc(s1, t) == ShutStart(n, NextShut([]))
    ensures Leads(s1, [AShut(t), AEndShut(t)], s3)
    ensures s3 == s1.(insts := s1.insts[n := x.(core := Core(x.core.refs, true, true, 1, 0))], pc := s1.pc[t := Idle])
  {
    var s2 := s1.(insts := s1.insts[n := x.(core := x.core.(closed := true))], pc := s1.pc[t := ShutWait(n, NextShut([]))]);
    s3 := Step(s2, AEndShut(t));
    assert s2.pc[t := Idle] == s1.pc[t := Idle];
    LeadsTwo(s1, AShut(t), s2, AEndShut(t), s3);
  }

  // ----- statements --------------------------------------------------------------------

  /** A statement leaves everything as it was; one on a closed instance does not begin. */
  lemma StatementRuns(s: State, t: Tid, i: Iid)
    requires Quiet(s, t) && i < |s.insts|
    ensures s.insts[i].core.closed ==> Leads(s, [ATest(t, i)], s)
    ensures !s.insts[i].core.closed ==>
      Leads(s, [ATest(t, i), ACount(t), ALeave(t)], s.(pc := s.pc[t := Idle]))
  {
    var x := s.insts[i];
    assert InstOk(s, i);
    if x.core.closed {
      LeadsOne(s, ATest(t, i));
    } else {
      var y := x.(running := x.running + {t}, core := x.core.(inflight := x.core.inflight + 1));
      var s2 := s.(pc := s.pc[t := Running(i)], insts := s.insts[i := y]);
      Enters(s, t, i, x, y, s2);
      assert t !in x.running;
      assert x.running + {t} - {t} == x.running;
      assert s2.insts[i := x] == s.insts && s2.pc[t := Idle] == s.pc[t := Idle];
      LeadsLast(s, [ATest(t, i), ACount(t)], s2, ALeave(t), s.(pc := s.pc[t := Idle]));
      assert [ATest(t, i), ACount(t)] + [ALeave(t)] == [ATest(t, i), ACount(t), ALeave(t)];
    }
  }

  lemma Enters(s: State, t: Tid, i: Iid, x: Inst, y: Inst, s2: State)
    requires Quiet(s, t) && i < |s.insts| && x == s.insts[i] && !x.core.closed && x.cv == None
    requires y == x.(running := x.running + {t}, core := x.core.(inflight := x.core.inflight + 1))
    requires s2 == s.(pc := s.pc[t := Running(i)], insts := s.insts[i := y])
    ensures Leads(s, [ATest(t, i), ACount(t)], s2)
  {
    var s1 := s.(pc := s.pc[t := Entering(i)], insts := s.insts[i := x.(cv := Some(t))]);
    assert s1.insts[i := y] == s2.insts && s1.pc[t := Running(i)] == s2.pc;
    LeadsTwo(s, ATest(t, i), s1, ACount(t), s2);
  }

  lemma LeadsOne(s: State, a: Action)
    requires Enabled(s, a)
    ensures Leads(s, [a], Step(s, a))
  {
    assert [a][1..] == [];
  }

  // ----- dropped handles ---------------------------------------------------------------

  predicate MayDrop(s: State, t: Tid, h: Hid) {
    Quiet(s, t) && h < |s.owner| && Known(s, s.owner[h]) && h in s.insts[s.owner[h]].live && forall u | u in s.pc :: s.pc[u] != DropRefs(h)
  }

  /** A dropped handle that is not the last one is one handle less. */
  lemma DropOne(s: State, t: Tid, h: Hid)
    requires MayDrop(s, t, h) && s.insts[s.owner[h]].live != {h}
    ensures var i := s.owner[h]; var x := s.insts[i];
      Leads(s, [ADrop(t, h), ADecide(t)],
            s.(insts := s.insts[i := x.(core := x.core.(refs := x.core.refs - 1), live := x.live - {h})], pc := s.pc[t := Idle]))
  {
    var i := s.owner[h];
    var x := s.insts[i];
    assert InstOk(s, i);
    SomeLeft(x.live, h);
    var s1 := s.(pc := s.pc[t := DropRefs(h)]);
    var s2 := Step(s1, ADecide(t));
    assert s1.pc[t := Idle] == s.pc[t := Idle];
    LeadsTwo(s, ADrop(t, h), s1, ADecide(t), s2);
  }

  lemma SomeLeft(live: set<Hid>, h: Hid)
    requires h in live && live != {h}
    ensures |live| >= 2
  {
    var g :| g in live && g != h;
    assert |live - {h}| == |live| - 1 && g in live - {h};
  }

  /** The last handle of an instance closes it and takes it out of the registry; its base is closed there
    * and then exactly when no statement runs. */
  lemma DropLastOne(s: State, t: Tid, h: Hid)
    requires MayDrop(s, t, h) && s.insts[s.owner[h]].live == {h} && !s.insts[s.owner[h]].core.closed
    ensures var i := s.owner[h]; var x := s.insts[i];
      var core := if x.running == {} then Core(0, true, true, 1, 0) else Core(0, true, false, 0, |x.running|);
      Leads(s, [ADrop(t, h), ADecide(t), AMark(t), AFinish(t)],
            s.(insts := s.insts[i := x.(core := core, live := {})], pc := s.pc[t := Idle],
               reg := if Registered(s, i) then s.reg - {(x.key, x.fid)} else s.reg))
  {
    var i := s.owner[h];
    var x := s.insts[i];
    assert InstOk(s, i);
    assert x.live == {h} && |x.live| == 1;
    var y := x.(core := x.core.(refs := 0), live := {});
    var s2 := s.(pc := s.pc[t := DropLast(i)], insts := s.insts[i := y], hl := Some(t));
    Decided(s, t, h, s2);
    var reg := if Registered(s, i) then s.reg - {(x.key, x.fid)} else s.reg;
    var s4 := Marked(s, t, i, y, s2, reg);
    LeadsAppend(s, [ADrop(t, h), ADecide(t)], s2, [AMark(t), AFinish(t)], s4);
    assert [ADrop(t, h), ADecide(t)] + [AMark(t), AFinish(t)] == [ADrop(t, h), ADecide(t), AMark(t), AFinish(t)];
  }

  lemma Decided(s: State, t: Tid, h: Hid, s2: State)
    requires MayDrop(s, t, h) && s.insts[s.owner[h]].live == {h} && !s.insts[s.owner[h]].core.closed
    requires var i := s.owner[h]; var x := s.insts[i];
      s2 == s.(pc := s.pc[t := DropLast(i)], insts := s.insts[i := x.(core := x.core.(refs := 0), live := {})], hl := Some(t))
    ensures Leads(s, [ADrop(t, h), ADecide(t)], s2)
  {
    var i := s.owner[h];
    var x := s.insts[i];
    assert InstOk(s, i);
    assert x.live == {h} && |x.live| == 1;
    var s1 := s.(pc := s.pc[t := DropRefs(h)]);
    assert x.live - {h} == {};
    assert s1.pc[t := DropLast(i)] == s2.pc;
    LeadsTwo(s, ADrop(t, h), s1, ADecide(t), s2);
  }

  lemma Marked(s: State, t: Tid, i: Iid, y: Inst, s2: State, reg: map<(Key, Option<Inode>), Iid>) returns (s4: State)
    requires Quiet(s, t) && i < |s.insts| && s.insts[i].cv == None && y.cv == None
    requires (y.key, y.fid) == (s.insts[i].key, s.insts[i].fid)
    requires s2 == s.(pc := s.pc[t := DropLast(i)], insts := s.insts[i := y], hl := Some(t))
    requires reg == if Registered(s, i) then s.reg - {(y.key, y.fid)} else s.reg
    ensures Leads(s2, [AMark(t), AFinish(t)], s4)
    ensures s4 == s.(pc := s.pc[t := Idle], reg := reg,
                     insts := s.insts[i := y.(core := ClosedIfDrained(y.core.(closed := true)))])
  {
    var z := y.(core := y.core.(closed := true));
    var s3 := s.(pc := s.pc[t := DropClose(i)], insts := s.insts[i := z], reg := reg);
    assert s2.pc[t := DropClose(i)] == s3.pc && s2.insts[i := z] == s3.insts;
    s4 := Step(s3, AFinish(t));
    assert s3.pc[t := Idle] == s.pc[t := Idle];
    LeadsTwo(s2, AMark(t), s3, AFinish(t), s4);
  }

  // ----- the scan ----------------------------------------------------------------------

  /** A scan takes out of the registry what is bound to another file than the one at its path, and nothing
    * else; whether it then raises or not. */
  lemma ScanUnregisters(s: State, t: Tid, k: Key, found: seq<Iid>, kf: (Key, Option<Inode>))
    requires Inv(s) && CanScan(s, t, k, found)
    ensures var s' := StaleScan(s, t, k, found);
      && (kf in s'.reg <==> kf in s.reg && (kf.0 != k || kf.1 == Now(s, k))) && (kf in s'.reg ==> s'.reg[kf] == s.reg[kf])
      && s'.insts == s.insts && s'.owner == s.owner && s'.done == s.done && s'.dropped == s.dropped
    ensures ScanRaises(s, t, k, found) == s.(reg := StaleScan(s, t, k, found).reg, dropped := s.dropped + set i | i in found)
  {
    if kf in s.reg {
      var i := s.reg[kf];
      assert RegOk(s, kf);
      if kf.0 == k && kf.1 != Now(s, k) {
        assert IsStale(s, k, i) && i in found;
        assert kf in KeysOf(s, found);
      }
    }
    if kf in KeysOf(s, found) {
      var i :| i in found && Known(s, i) && (s.insts[i].key, s.insts[i].fid) == kf;
      assert IsStale(s, k, i);
    }
  }

  /** Then it shuts them one after the other: each closed, its base there and then if no statement runs. */
  lemma ShutOne(s: State, t: Tid, i: Iid, rest: seq<Iid>)
    requires Inv(s) && Pc(s, t) == ShutStart(i, NextShut(rest)) && Known(s, i) && s.insts[i].cv == None
    ensures var x := s.insts[i];
      var core := if x.running == {} then Core(x.core.refs, true, true, 1, 0) else Core(x.core.refs, true, x.core.baseClosed, x.core.closes, |x.running|);
      var next := if rest == [] then Idle else ShutStart(rest[0], NextShut(rest[1..]));
      Leads(s, [AShut(t), AEndShut(t)], s.(insts := s.insts[i := x.(core := core)], pc := s.pc[t := next]))
  {
    var x := s.insts[i];
    assert InstOk(s, i);
    var y := x.(core := x.core.(closed := true));
    var s1 := s.(insts := s.insts[i := y], pc := s.pc[t := ShutWait(i, NextShut(rest))]);
    var s2 := Step(s1, AEndShut(t));
    assert s1.pc[t := Resume(NextShut(rest))] == s.pc[t := Resume(NextShut(rest))];
    LeadsTwo(s, AShut(t), s1, AEndShut(t), s2);
  }
}
