/** A scan that cannot close a stale writer raises after it has unregistered the stale readers:
  * the run in which a reader of the replaced file stays open, with every thread idle. */
module ReadOnlyRaisingScan {
  import opened Options
  import opened ReadOnlyInstance
  import opened ReadOnlyMachine
  import opened ReadOnlyTheorems
  import opened ReadOnlyRuns

  const Start := State(map[PATH := [Some(7)]], [], map[], map[], None, [], [], {})
  const Call := OpenCall(PATH, 0, 0, Some(7), 0)
  const Made := Inst(PATH, Some(7), 7, 0, FreshCore, None, {}, {}, Some(1))
  const Reader := Inst(PATH, Some(7), 7, 0, Core(1, false, false, 0, 0), None, {0}, {}, None)

  function At(p: PC, insts: seq<Inst>): State { Alone([Some(7)], insts, 1, p) }

  const Opened :=
    State(map[PATH := [Some(7)]], [Reader], map[(PATH, Some(7)) := 0], map[1 := Idle], None, [0],
          [Return(Call, 1, 0, true)], {})

  const Left :=
    State(map[PATH := [Some(7), Some(8)]], [Reader], map[], map[1 := Idle], None, [0],
          [Return(Call, 1, 0, true)], {0})

  /** Thread 1 opens the file; it is replaced; a scan drops the reader and raises. */
  const LeakRun: seq<Action> :=
    [ABegin(1, PATH), AStat(1)] + ([ALook(1), AAttach(1)] + ([ARecheck(1), ARegister(1)]
      + [AReplace(PATH, Some(8)), AScanFails(2, PATH, [0])]))

  lemma ReaderLooks()
    ensures Leads(Start, [ABegin(1, PATH), AStat(1)], At(OpenLook(Call), []))
  {
    LeadsTwo(Start, ABegin(1, PATH), At(OpenStat(OpenCall(PATH, 0, 0, None, 0)), []), AStat(1), At(OpenLook(Call), []));
  }

  lemma ReaderAttaches()
    ensures Leads(At(OpenLook(Call), []), [ALook(1), AAttach(1)], At(OpenRecheck(Call, 0), [Made]))
  {
    LeadsTwo(At(OpenLook(Call), []), ALook(1), At(OpenAttach(Call), []), AAttach(1), At(OpenRecheck(Call, 0), [Made]));
  }

  lemma ReaderRegisters()
    ensures Leads(At(OpenRecheck(Call, 0), [Made]), [ARecheck(1), ARegister(1)], Opened)
  {
    var s := At(OpenRegister(Call, 0), [Made]);
    assert Recheck(At(OpenRecheck(Call, 0), [Made]), 1) == s;
    var p := Publish(s, 1);
    assert p.insts[0] == Reader;
    assert p == Opened;
    LeadsTwo(At(OpenRecheck(Call, 0), [Made]), ARecheck(1), s, ARegister(1), Opened);
  }

  lemma ScanLeavesReader()
    ensures Leads(Opened, [AReplace(PATH, Some(8)), AScanFails(2, PATH, [0])], Left)
  {
    var s := Opened.(hist := map[PATH := [Some(7), Some(8)]]);
    assert [Some(7)] + [Some(8)] == [Some(7), Some(8)];
    assert ReplaceFile(Opened, PATH, Some(8)) == s;
    assert IsStale(s, PATH, 0);
    assert CanScan(s, 2, PATH, [0]);
    assert KeysOf(s, [0]) == {(PATH, Some(7))};
    assert ScanRaises(s, 2, PATH, [0]) == Left;
    LeadsTwo(Opened, AReplace(PATH, Some(8)), s, AScanFails(2, PATH, [0]), Left);
  }

  /** Nothing runs any more, and the reader of the replaced file is open and not registered. */
  lemma RaisingScanLeaksReader()
    ensures Init(Start) && Runs(Start, LeakRun)
    ensures var s := AfterRun(Start, LeakRun);
            && (forall t | t in s.pc :: s.pc[t] == Idle)
            && PathKnown(s, PATH) && Known(s, 0) && !s.insts[0].core.closed && !Registered(s, 0) && s.insts[0].fid != Now(s, PATH)
  {
    ReaderLooks();
    ReaderAttaches();
    ReaderRegisters();
    ScanLeavesReader();
    LeadsAppend(At(OpenRecheck(Call, 0), [Made]), [ARecheck(1), ARegister(1)], Opened,
                [AReplace(PATH, Some(8)), AScanFails(2, PATH, [0])], Left);
    LeadsAppend(At(OpenLook(Call), []), [ALook(1), AAttach(1)], At(OpenRecheck(Call, 0), [Made]),
                [ARecheck(1), ARegister(1)] + [AReplace(PATH, Some(8)), AScanFails(2, PATH, [0])], Left);
    LeadsAppend(Start, [ABegin(1, PATH), AStat(1)], At(OpenLook(Call), []),
                [ALook(1), AAttach(1)] + ([ARecheck(1), ARegister(1)]
                  + [AReplace(PATH, Some(8)), AScanFails(2, PATH, [0])]), Left);
  }
}
