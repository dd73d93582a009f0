/** A path that is missing at both inode reads of an open: the run in which a later open is
  * served a file that was not at the path. */
module ReadOnlyMissingPath {
  import opened Options
  import opened ReadOnlyInstance
  import opened ReadOnlyMachine
  import opened ReadOnlyTheorems
  import opened ReadOnlyRuns

  const Missing := State(map[PATH := [None]], [], map[], map[], None, [], [], {})
  const Call1 := OpenCall(PATH, 0, 0, None, 0)
  const Made7 := Inst(PATH, None, 7, 1, FreshCore, None, {}, {}, Some(1))
  const Looked := Alone([None], [], 1, OpenLook(Call1))
  const Attached := Alone([None, Some(7)], [Made7], 1, OpenRecheck(Call1, 0))
  const Published :=
    State(map[PATH := [None, Some(7), None]],
          [Inst(PATH, None, 7, 1, Core(1, false, false, 0, 0), None, {0}, {}, None)],
          map[(PATH, None) := 0], map[1 := Idle], None, [0],
          [Return(Call1, 3, 0, true)], {})

  /** Thread 1 opens while the path is missing, then holds a file, then is missing again. */
  const FirstOpen: seq<Action> :=
    [ABegin(1, PATH), AStat(1)] + ([ALook(1), AReplace(PATH, Some(7))] +
    ([AAttach(1), AReplace(PATH, None)] + [ARecheck(1), ARegister(1)]))

  lemma OpenLooks()
    ensures Leads(Missing, [ABegin(1, PATH), AStat(1)], Looked)
  {
    LeadsTwo(Missing, ABegin(1, PATH), Alone([None], [], 1, OpenStat(Call1)), AStat(1), Looked);
  }

  lemma OpenFindsFile()
    ensures Leads(Looked, [ALook(1), AReplace(PATH, Some(7))], Alone([None, Some(7)], [], 1, OpenAttach(Call1)))
  {
    var s := Alone([None], [], 1, OpenAttach(Call1));
    assert LookUp(Looked, 1) == s;
    assert [None] + [Some(7)] == [None, Some(7)];
    LeadsTwo(Looked, ALook(1), s, AReplace(PATH, Some(7)), Alone([None, Some(7)], [], 1, OpenAttach(Call1)));
  }

  lemma OpenLosesFile()
    ensures Leads(Alone([None, Some(7)], [], 1, OpenAttach(Call1)), [AAttach(1), AReplace(PATH, None)],
                  Alone([None, Some(7), None], [Made7], 1, OpenRecheck(Call1, 0)))
  {
    assert AttachNew(Alone([None, Some(7)], [], 1, OpenAttach(Call1)), 1) == Attached;
    assert [None, Some(7)] + [None] == [None, Some(7), None];
    LeadsTwo(Alone([None, Some(7)], [], 1, OpenAttach(Call1)), AAttach(1), Attached, AReplace(PATH, None),
             Alone([None, Some(7), None], [Made7], 1, OpenRecheck(Call1, 0)));
  }

  lemma OpenPublishes()
    ensures Leads(Alone([None, Some(7), None], [Made7], 1, OpenRecheck(Call1, 0)), [ARecheck(1), ARegister(1)], Published)
  {
    var s := Alone([None, Some(7), None], [Made7], 1, OpenRegister(Call1, 0));
    assert Recheck(Alone([None, Some(7), None], [Made7], 1, OpenRecheck(Call1, 0)), 1) == s;
    var p := Publish(s, 1);
    assert p.insts[0] == Published.insts[0];
    assert p == Published;
    LeadsTwo(Alone([None, Some(7), None], [Made7], 1, OpenRecheck(Call1, 0)), ARecheck(1), s, ARegister(1), Published);
  }

  lemma FirstOpenPublishes()
    ensures Leads(Missing, FirstOpen, Published)
  {
    OpenLooks();
    OpenFindsFile();
    OpenLosesFile();
    OpenPublishes();
    var s2 := Alone([None, Some(7)], [], 1, OpenAttach(Call1));
    var s3 := Alone([None, Some(7), None], [Made7], 1, OpenRecheck(Call1, 0));
    LeadsAppend(s2, [AAttach(1), AReplace(PATH, None)], s3, [ARecheck(1), ARegister(1)], Published);
    LeadsAppend(Looked, [ALook(1), AReplace(PATH, Some(7))], s2,
                [AAttach(1), AReplace(PATH, None)] + [ARecheck(1), ARegister(1)], Published);
    LeadsAppend(Missing, [ABegin(1, PATH), AStat(1)], Looked,
                [ALook(1), AReplace(PATH, Some(7))] + ([AAttach(1), AReplace(PATH, None)] + [ARecheck(1), ARegister(1)]), Published);
  }

  /** Thread 2 opens afterwards, with the path missing all the time. */
  const Call2 := OpenCall(PATH, 2, 0, None, 2)

  function Second(p: PC): State {
    Published.(pc := Published.pc[2 := p])
  }

  lemma SecondOpenBegins()
    ensures Leads(Published, [ABegin(2, PATH), AStat(2)], Second(OpenLook(Call2)))
  {
    LeadsTwo(Published, ABegin(2, PATH), Second(OpenStat(Call2)), AStat(2), Second(OpenLook(Call2)));
  }

  lemma SecondOpenReturns() returns (s: State)
    ensures Leads(Second(OpenLook(Call2)), [ALook(2)], s)
    ensures s.hist == Published.hist && |s.insts| == 1 && s.insts[0].attached == 7
    ensures s.done == Published.done + [Return(Call2, 3, 0, false)]
  {
    s := LookUp(Second(OpenLook(Call2)), 2);
    LeadsCons(Second(OpenLook(Call2)), ALook(2), [], s);
    assert [ALook(2)] + [] == [ALook(2)];
  }

  /** A missing path has no inode to compare, so `None == None` passes the second read: the
    * instance is registered under no inode, and a later open of the missing path is served
    * a file that was not at the path at any moment of that open. */
  lemma MissingPathServesAbsentFile() returns (acts: seq<Action>, r: Return)
    ensures Init(Missing) && Runs(Missing, acts)
    ensures var s := AfterRun(Missing, acts);
            r in s.done && r.o.fid == None && !r.own
            && r.o.key in s.hist && r.end <= |s.hist[r.o.key]| && Known(s, r.inst)
            && !ReadsPresentFile(s, r)
  {
    FirstOpenPublishes();
    SecondOpenBegins();
    var s := SecondOpenReturns();
    LeadsAppend(Published, [ABegin(2, PATH), AStat(2)], Second(OpenLook(Call2)), [ALook(2)], s);
    acts := FirstOpen + ([ABegin(2, PATH), AStat(2)] + [ALook(2)]);
    LeadsAppend(Missing, FirstOpen, Published, [ABegin(2, PATH), AStat(2)] + [ALook(2)], s);
    r := Return(Call2, 3, 0, false);
    assert s.done[1] == r;
  }

  // ----- the same reads, and the file was there ----------------------------------------

  /** Thread 2 opens while the file is there, and reads the path once it is gone. */
  const Call3 := OpenCall(PATH, 1, 0, None, 1)
  const Late3 := OpenCall(PATH, 1, 0, None, 2)

  function Beside(s: State, p: PC): State { s.(pc := s.pc[2 := p]) }

  const Rechecking := Alone([None, Some(7), None], [Made7], 1, OpenRecheck(Call1, 0))

  lemma BeginsBeside()
    ensures Leads(Alone([None, Some(7)], [], 1, OpenAttach(Call1)), [AAttach(1), ABegin(2, PATH)], Beside(Attached, OpenStat(Call3)))
  {
    var s := Alone([None, Some(7)], [], 1, OpenAttach(Call1));
    assert AttachNew(s, 1) == Attached;
    LeadsTwo(s, AAttach(1), Attached, ABegin(2, PATH), Beside(Attached, OpenStat(Call3)));
  }

  lemma ReadsBeside()
    ensures Leads(Beside(Attached, OpenStat(Call3)), [AReplace(PATH, None), AStat(2)], Beside(Rechecking, OpenLook(Late3)))
  {
    assert [None, Some(7)] + [None] == [None, Some(7), None];
    LeadsTwo(Beside(Attached, OpenStat(Call3)), AReplace(PATH, None), Beside(Rechecking, OpenStat(Call3)),
             AStat(2), Beside(Rechecking, OpenLook(Late3)));
  }

  lemma PublishesBeside()
    ensures Leads(Beside(Rechecking, OpenLook(Late3)), [ARecheck(1), ARegister(1)], Beside(Published, OpenLook(Late3)))
  {
    var s := Beside(Alone([None, Some(7), None], [Made7], 1, OpenRegister(Call1, 0)), OpenLook(Late3));
    assert Recheck(Beside(Rechecking, OpenLook(Late3)), 1) == s;
    var p := Publish(s, 1);
    assert p.insts[0] == Published.insts[0];
    assert p == Beside(Published, OpenLook(Late3));
    LeadsTwo(Beside(Rechecking, OpenLook(Late3)), ARecheck(1), s, ARegister(1), p);
  }

  lemma FindsBeside() returns (s: State)
    ensures Leads(Beside(Published, OpenLook(Late3)), [ALook(2)], s)
    ensures s.hist == Published.hist && |s.insts| == 1 && s.insts[0].attached == 7
    ensures s.done == Published.done + [Return(Late3, 3, 0, false)]
  {
    s := LookUp(Beside(Published, OpenLook(Late3)), 2);
    LeadsCons(Beside(Published, OpenLook(Late3)), ALook(2), [], s);
    assert [ALook(2)] + [] == [ALook(2)];
  }

  lemma BesideRuns() returns (acts: seq<Action>, s: State)
    ensures Leads(Missing, acts, s) && s.hist == Published.hist && |s.insts| == 1 && s.insts[0].attached == 7
    ensures s.done == Published.done + [Return(Late3, 3, 0, false)]
  {
    OpenLooks();
    OpenFindsFile();
    BeginsBeside();
    ReadsBeside();
    PublishesBeside();
    s := FindsBeside();
    var s2, s3 := Alone([None, Some(7)], [], 1, OpenAttach(Call1)), Beside(Attached, OpenStat(Call3));
    var s4, s5 := Beside(Rechecking, OpenLook(Late3)), Beside(Published, OpenLook(Late3));
    LeadsAppend(Missing, [ABegin(1, PATH), AStat(1)], Looked, [ALook(1), AReplace(PATH, Some(7))], s2);
    acts := [ABegin(1, PATH), AStat(1)] + [ALook(1), AReplace(PATH, Some(7))];
    LeadsAppend(Missing, acts, s2, [AAttach(1), ABegin(2, PATH)], s3);
    acts := acts + [AAttach(1), ABegin(2, PATH)];
    LeadsAppend(Missing, acts, s3, [AReplace(PATH, None), AStat(2)], s4);
    acts := acts + [AReplace(PATH, None), AStat(2)];
    LeadsAppend(Missing, acts, s4, [ARecheck(1), ARegister(1)], s5);
    acts := acts + [ARecheck(1), ARegister(1)];
    LeadsAppend(Missing, acts, s5, [ALook(2)], s);
    acts := acts + [ALook(2)];
  }

  /** What an open reads cannot tell: with no inode at its read and an instance found under none, as in
    * `MissingPathServesAbsentFile`, the file it is served may also have been there during the open. */
  lemma MissingPathMayServePresentFile() returns (acts: seq<Action>, r: Return)
    ensures Init(Missing) && Runs(Missing, acts)
    ensures var s := AfterRun(Missing, acts);
            r in s.done && r.o.fid == None && !r.own
            && r.o.key in s.hist && r.end <= |s.hist[r.o.key]| && Known(s, r.inst)
            && ReadsPresentFile(s, r)
  {
    var s;
    acts, s := BesideRuns();
    r := Return(Late3, 3, 0, false);
    assert s.done[1] == r && s.hist[PATH][1] == Some(7);
  }
}
