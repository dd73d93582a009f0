/** Every interleaving of read-only opens, statements, handle drops and stale-holder
  * scans over the shared registry, with the files replaced underneath at any moment.
  *
  * A step is one critical section, cut where the code touches shared data that the lock
  * held does not protect: `closed` is written under `_HOLDERS_LOCK` by a dropped handle
  * and under `cv` by `shut`, so `enter` is two steps (test, then count) and the drop of a
  * last handle is two steps (decide, then mark) with the lock held in between.  All other
  * data of a section belongs to the lock it holds, so the section is one step.
  */
module ReadOnlyMachine {
  import opened Options
  import opened ReadOnlyInstance

  type Tid = nat
  type Iid = nat
  type Hid = nat
  type Inode = nat
  type Key = string

  /** The last four fields are bookkeeping the code keeps implicitly: who holds `cv`,
    * which handles are not yet released, which threads run a statement, and which open
    * call still owns an instance it has not published. */
  datatype Inst = Inst(key: Key, fid: Option<Inode>, attached: Inode, attachedAt: nat, core: Core,
                       cv: Option<Tid>, live: set<Hid>, running: set<Tid>, maker: Option<Tid>)

  /** One `_open_read_only` call: `start` and `fidAt` are positions in the path's history. */
  datatype OpenCall = OpenCall(key: Key, start: nat, tries: nat, fid: Option<Inode>, fidAt: nat)

  datatype After = RetryOpen(o: OpenCall) | NextShut(rest: seq<Iid>)

  datatype PC =
    | Idle
    | Entering(i: Iid)
    | Running(i: Iid)
    | DropRefs(h: Hid)
    | DropLast(i: Iid)
    | DropClose(i: Iid)
    | OpenStat(o: OpenCall)
    | OpenLook(o: OpenCall)
    | OpenAttach(o: OpenCall)
    | OpenRecheck(o: OpenCall, n: Iid)
    | OpenRegister(o: OpenCall, n: Iid)
    | ShutStart(i: Iid, after: After)
    | ShutWait(i: Iid, after: After)

  /** A returned open: the cursor is on `inst`; `own` when this call created the instance. */
  datatype Return = Return(o: OpenCall, end: nat, inst: Iid, own: bool)

  /** `hist[k]` lists everything that was ever at path `k`, the present state last; `dropped`
    * the instances unregistered by a scan that raised before it could shut them. */
  datatype State = State(hist: map<Key, seq<Option<Inode>>>, insts: seq<Inst>,
                         reg: map<(Key, Option<Inode>), Iid>, pc: map<Tid, PC>,
                         hl: Option<Tid>, owner: seq<Iid>, done: seq<Return>, dropped: set<Iid>)

  const OPEN_RETRIES := 3

  function Pc(s: State, t: Tid): PC {
    if t in s.pc then s.pc[t] else Idle
  }

  function Now(s: State, k: Key): Option<Inode>
    requires k in s.hist && 0 < |s.hist[k]|
  {
    s.hist[k][|s.hist[k]| - 1]
  }

  predicate NewInode(s: State, f: Inode) {
    forall k | k in s.hist :: Some(f) !in s.hist[k]
  }

  predicate Known(s: State, i: Iid) { i < |s.insts| }

  predicate CvFree(s: State, i: Iid)
    requires Known(s, i)
  {
    s.insts[i].cv == None
  }

  predicate Registered(s: State, i: Iid)
    requires Known(s, i)
  {
    var kf := (s.insts[i].key, s.insts[i].fid);
    kf in s.reg && s.reg[kf] == i
  }

  /** Where an open finds a usable instance. */
  predicate Usable(s: State, o: OpenCall) {
    (o.key, o.fid) in s.reg && Known(s, s.reg[(o.key, o.fid)]) && !s.insts[s.reg[(o.key, o.fid)]].core.closed
  }

  /** The registered instances of `k` that are bound to another file than the present one. */
  predicate IsStale(s: State, k: Key, i: Iid)
    requires k in s.hist && 0 < |s.hist[k]|
  {
    Known(s, i) && Registered(s, i) && s.insts[i].key == k && s.insts[i].fid != Now(s, k) && !s.insts[i].core.closed
  }

  predicate PathKnown(s: State, k: Key) { k in s.hist && 0 < |s.hist[k]| }

  function SetPc(s: State, t: Tid, p: PC): State {
    s.(pc := s.pc[t := p])
  }

  function SetInst(s: State, i: Iid, x: Inst): State
    requires Known(s, i)
  {
    s.(insts := s.insts[i := x])
  }

  /** `handle()`: a new cursor of instance `i`. */
  function AddHandle(s: State, i: Iid): State
    requires Known(s, i)
  {
    var x := s.insts[i];
    SetInst(s, i, x.(core := x.core.(refs := x.core.refs + 1), live := x.live + {|s.owner|}))
      .(owner := s.owner + [i])
  }

  function NextShutPc(rest: seq<Iid>): PC {
    if rest == [] then Idle else ShutStart(rest[0], NextShut(rest[1..]))
  }

  function Resume(after: After): PC {
    match after
    case RetryOpen(o) => OpenStat(o.(tries := o.tries + 1))
    case NextShut(rest) => NextShutPc(rest)
  }

  // ----- the steps: when each can run and what it does -----------------------------------

  predicate CanReplace(s: State, k: Key, now: Option<Inode>) {
    PathKnown(s, k) && (now.Some? ==> NewInode(s, now.value))
  }

  /** The environment: `os.replace` puts a file with a new inode at `k`, or `k` is removed. */
  function ReplaceFile(s: State, k: Key, now: Option<Inode>): State
    requires CanReplace(s, k, now)
  {
    s.(hist := s.hist[k := s.hist[k] + [now]])
  }

  predicate CanTest(s: State, t: Tid, i: Iid) {
    Pc(s, t) == Idle && Known(s, i) && CvFree(s, i)
  }

  /** `enter`, first half: raise on a closed instance, else keep `cv`. */
  function TestEntry(s: State, t: Tid, i: Iid): State
    requires CanTest(s, t, i)
  {
    var x := s.insts[i];
    if x.core.closed then s else SetPc(SetInst(s, i, x.(cv := Some(t))), t, Entering(i))
  }

  predicate CanCount(s: State, t: Tid) {
    Pc(s, t).Entering? && Known(s, Pc(s, t).i)
  }

  /** `enter`, second half: count the statement and release `cv`. */
  function CountEntry(s: State, t: Tid): State
    requires CanCount(s, t)
  {
    var i := Pc(s, t).i;
    var x := s.insts[i];
    SetPc(SetInst(s, i, x.(cv := None, running := x.running + {t},
                           core := x.core.(inflight := x.core.inflight + 1))), t, Running(i))
  }

  predicate CanLeave(s: State, t: Tid) {
    Pc(s, t).Running? && Known(s, Pc(s, t).i) && CvFree(s, Pc(s, t).i)
  }

  function LeaveStatement(s: State, t: Tid): State
    requires CanLeave(s, t)
  {
    var i := Pc(s, t).i;
    var x := s.insts[i];
    SetPc(SetInst(s, i, x.(running := x.running - {t}, core := Left(x.core))), t, Idle)
  }

  predicate CanDrop(s: State, t: Tid, h: Hid) {
    && Pc(s, t) == Idle && h < |s.owner| && Known(s, s.owner[h])
    && h in s.insts[s.owner[h]].live && CvFree(s, s.owner[h])
    && forall u | u in s.pc :: s.pc[u] != DropRefs(h)
  }

  /** The finalizer of handle `h` starts (it runs once) and closes its cursor. */
  function DropCursor(s: State, t: Tid, h: Hid): State
    requires CanDrop(s, t, h)
  {
    SetPc(s, t, DropRefs(h))
  }

  predicate CanDecide(s: State, t: Tid) {
    Pc(s, t).DropRefs? && s.hl == None && Pc(s, t).h < |s.owner| && Known(s, s.owner[Pc(s, t).h])
  }

  /** Under `_HOLDERS_LOCK`: one reference fewer; the last one keeps the lock. */
  function DropDecide(s: State, t: Tid): State
    requires CanDecide(s, t)
  {
    var h := Pc(s, t).h;
    var i := s.owner[h];
    var x := s.insts[i];
    var y := x.(core := x.core.(refs := x.core.refs - 1), live := x.live - {h});
    if y.core.refs <= 0 && !y.core.closed
    then SetPc(SetInst(s, i, y), t, DropLast(i)).(hl := Some(t))
    else SetPc(SetInst(s, i, y), t, Idle)
  }

  predicate CanMark(s: State, t: Tid) {
    Pc(s, t).DropLast? && Known(s, Pc(s, t).i)
  }

  /** Still under the lock: mark the instance closed, outside `cv`, and unregister it. */
  function DropMark(s: State, t: Tid): State
    requires CanMark(s, t)
  {
    var i := Pc(s, t).i;
    var x := s.insts[i];
    var s1 := SetPc(SetInst(s, i, x.(core := x.core.(closed := true))), t, DropClose(i)).(hl := None);
    if Registered(s, i) then s1.(reg := s1.reg - {(x.key, x.fid)}) else s1
  }

  predicate CanFinish(s: State, t: Tid) {
    Pc(s, t).DropClose? && Known(s, Pc(s, t).i) && CvFree(s, Pc(s, t).i)
  }

  function DropFinish(s: State, t: Tid): State
    requires CanFinish(s, t)
  {
    var i := Pc(s, t).i;
    var x := s.insts[i];
    SetPc(SetInst(s, i, x.(core := ClosedIfDrained(x.core))), t, Idle)
  }

  predicate CanBegin(s: State, t: Tid, k: Key) {
    Pc(s, t) == Idle && PathKnown(s, k)
  }

  function BeginOpen(s: State, t: Tid, k: Key): State
    requires CanBegin(s, t, k)
  {
    SetPc(s, t, OpenStat(OpenCall(k, |s.hist[k]| - 1, 0, None, |s.hist[k]| - 1)))
  }

  predicate CanStat(s: State, t: Tid) {
    Pc(s, t).OpenStat? && PathKnown(s, Pc(s, t).o.key)
  }

  /** `fid = _file_id(key)`, or give up after the last retry. */
  function StatPath(s: State, t: Tid): State
    requires CanStat(s, t)
  {
    var o := Pc(s, t).o;
    if OPEN_RETRIES <= o.tries then SetPc(s, t, Idle)
    else SetPc(s, t, OpenLook(o.(fid := Now(s, o.key), fidAt := |s.hist[o.key]| - 1)))
  }

  predicate CanLook(s: State, t: Tid) {
    Pc(s, t).OpenLook? && s.hl == None && PathKnown(s, Pc(s, t).o.key)
  }

  /** Under the lock: return a cursor of a registered unclosed instance, if there is one. */
  function LookUp(s: State, t: Tid): State
    requires CanLook(s, t)
  {
    var o := Pc(s, t).o;
    if Usable(s, o) then
      var i := s.reg[(o.key, o.fid)];
      SetPc(AddHandle(s, i), t, Idle).(done := s.done + [Return(o, |s.hist[o.key]|, i, false)])
    else SetPc(s, t, OpenAttach(o))
  }

  predicate CanAttach(s: State, t: Tid) {
    Pc(s, t).OpenAttach? && PathKnown(s, Pc(s, t).o.key)
  }

  /** A new private instance attaches whatever is at the path now; nothing there raises. */
  function AttachNew(s: State, t: Tid): State
    requires CanAttach(s, t)
  {
    var o := Pc(s, t).o;
    if Now(s, o.key) == None then SetPc(s, t, Idle)
    else
      var x := Inst(o.key, o.fid, Now(s, o.key).value, |s.hist[o.key]| - 1, FreshCore, None, {}, {}, Some(t));
      SetPc(s, t, OpenRecheck(o, |s.insts|)).(insts := s.insts + [x])
  }

  predicate CanRecheck(s: State, t: Tid) {
    Pc(s, t).OpenRecheck? && PathKnown(s, Pc(s, t).o.key) && Known(s, Pc(s, t).n)
  }

  /** The second inode read: a replaced path shuts the new instance and retries. */
  function Recheck(s: State, t: Tid): State
    requires CanRecheck(s, t)
  {
    if Now(s, Pc(s, t).o.key) != Pc(s, t).o.fid then AbandonNew(s, t)
    else SetPc(s, t, OpenRegister(Pc(s, t).o, Pc(s, t).n))
  }

  function AbandonNew(s: State, t: Tid): State
    requires CanRecheck(s, t)
  {
    var o, n := Pc(s, t).o, Pc(s, t).n;
    SetPc(SetInst(s, n, s.insts[n].(maker := None)), t, ShutStart(n, RetryOpen(o)))
  }

  predicate CanRegister(s: State, t: Tid) {
    Pc(s, t).OpenRegister? && s.hl == None && PathKnown(s, Pc(s, t).o.key) && Known(s, Pc(s, t).n)
  }

  /** Under the lock: publish the new instance, or use an equal one and shut the new one. */
  function RegisterNew(s: State, t: Tid): State
    requires CanRegister(s, t)
  {
    if Usable(s, Pc(s, t).o) then UseEqual(s, t) else Publish(s, t)
  }

  function UseEqual(s: State, t: Tid): State
    requires CanRegister(s, t) && Usable(s, Pc(s, t).o)
  {
    var o, n := Pc(s, t).o, Pc(s, t).n;
    var i := s.reg[(o.key, o.fid)];
    SetPc(AddHandle(SetInst(s, n, s.insts[n].(maker := None)), i), t, ShutStart(n, NextShut([])))
      .(done := s.done + [Return(o, |s.hist[o.key]|, i, false)])
  }

  function Publish(s: State, t: Tid): State
    requires CanRegister(s, t)
  {
    var o, n := Pc(s, t).o, Pc(s, t).n;
    SetPc(AddHandle(SetInst(s, n, s.insts[n].(maker := None)), n), t, Idle)
      .(reg := s.reg[(o.key, o.fid) := n],
        done := s.done + [Return(o, |s.hist[o.key]|, n, true)])
  }

  predicate CanShut(s: State, t: Tid) {
    Pc(s, t).ShutStart? && Known(s, Pc(s, t).i) && CvFree(s, Pc(s, t).i)
  }

  function ShutMark(s: State, t: Tid): State
    requires CanShut(s, t)
  {
    var i := Pc(s, t).i;
    var x := s.insts[i];
    SetPc(SetInst(s, i, x.(core := x.core.(closed := true))), t, ShutWait(i, Pc(s, t).after))
  }

  predicate CanEndShut(s: State, t: Tid) {
    Pc(s, t).ShutWait? && Known(s, Pc(s, t).i) && CvFree(s, Pc(s, t).i)
  }

  /** The wait is over: drained, so close; or timed out, so leave it to the last statement. */
  function ShutEnd(s: State, t: Tid): State
    requires CanEndShut(s, t)
  {
    var i := Pc(s, t).i;
    var x := s.insts[i];
    SetPc(SetInst(s, i, x.(core := ClosedIfDrained(x.core))), t, Resume(Pc(s, t).after))
  }

  predicate CanScan(s: State, t: Tid, k: Key, found: seq<Iid>) {
    && Pc(s, t) == Idle && s.hl == None && PathKnown(s, k) && Now(s, k).Some?
    && (forall i | i in found :: IsStale(s, k, i))
    && (forall i | 0 <= i < |s.insts| && IsStale(s, k, i) :: i in found)
  }

  /** Under the lock: unregister every holder of a replaced file; they are shut afterwards. */
  function StaleScan(s: State, t: Tid, k: Key, found: seq<Iid>): State
    requires CanScan(s, t, k, found)
  {
    SetPc(s, t, NextShutPc(found)).(reg := s.reg - KeysOf(s, found))
  }

  function KeysOf(s: State, found: seq<Iid>): set<(Key, Option<Inode>)> {
    set i | i in found && Known(s, i) :: (s.insts[i].key, s.insts[i].fid)
  }

  /** The same scan when a stale writer cannot be closed: it raises before it shuts any reader. */
  function ScanRaises(s: State, t: Tid, k: Key, found: seq<Iid>): State
    requires CanScan(s, t, k, found)
  {
    s.(reg := s.reg - KeysOf(s, found), dropped := s.dropped + set i | i in found)
  }

  datatype Action =
    | AReplace(k: Key, now: Option<Inode>)
    | ATest(t: Tid, i: Iid)
    | ACount(t: Tid)
    | ALeave(t: Tid)
    | ADrop(t: Tid, h: Hid)
    | ADecide(t: Tid)
    | AMark(t: Tid)
    | AFinish(t: Tid)
    | ABegin(t: Tid, k: Key)
    | AStat(t: Tid)
    | ALook(t: Tid)
    | AAttach(t: Tid)
    | ARecheck(t: Tid)
    | ARegister(t: Tid)
    | AShut(t: Tid)
    | AEndShut(t: Tid)
    | AScan(t: Tid, k: Key, found: seq<Iid>)
    | AScanFails(t: Tid, k: Key, found: seq<Iid>)

  predicate Enabled(s: State, a: Action) {
    match a
    case AReplace(k, now) => CanReplace(s, k, now)
    case ATest(t, i) => CanTest(s, t, i)
    case ACount(t) => CanCount(s, t)
    case ALeave(t) => CanLeave(s, t)
    case ADrop(t, h) => CanDrop(s, t, h)
    case ADecide(t) => CanDecide(s, t)
    case AMark(t) => CanMark(s, t)
    case AFinish(t) => CanFinish(s, t)
    case ABegin(t, k) => CanBegin(s, t, k)
    case AStat(t) => CanStat(s, t)
    case ALook(t) => CanLook(s, t)
    case AAttach(t) => CanAttach(s, t)
    case ARecheck(t) => CanRecheck(s, t)
    case ARegister(t) => CanRegister(s, t)
    case AShut(t) => CanShut(s, t)
    case AEndShut(t) => CanEndShut(s, t)
    case AScan(t, k, found) => CanScan(s, t, k, found)
    case AScanFails(t, k, found) => CanScan(s, t, k, found)
  }

  function Step(s: State, a: Action): State
    requires Enabled(s, a)
  {
    match a
    case AReplace(k, now) => ReplaceFile(s, k, now)
    case ATest(t, i) => TestEntry(s, t, i)
    case ACount(t) => CountEntry(s, t)
    case ALeave(t) => LeaveStatement(s, t)
    case ADrop(t, h) => DropCursor(s, t, h)
    case ADecide(t) => DropDecide(s, t)
    case AMark(t) => DropMark(s, t)
    case AFinish(t) => DropFinish(s, t)
    case ABegin(t, k) => BeginOpen(s, t, k)
    case AStat(t) => StatPath(s, t)
    case ALook(t) => LookUp(s, t)
    case AAttach(t) => AttachNew(s, t)
    case ARecheck(t) => Recheck(s, t)
    case ARegister(t) => RegisterNew(s, t)
    case AShut(t) => ShutMark(s, t)
    case AEndShut(t) => ShutEnd(s, t)
    case AScan(t, k, found) => StaleScan(s, t, k, found)
    case AScanFails(t, k, found) => ScanRaises(s, t, k, found)
  }

  /** Steps of statements and dropped handles; the others open, close and replace. */
  predicate OfHandles(a: Action) {
    a.ATest? || a.ACount? || a.ALeave? || a.ADrop? || a.ADecide? || a.AMark? || a.AFinish?
  }

  // ----- what every reachable state satisfies ------------------------------------------

  /** The instances a thread has still to shut. */
  predicate WillShut(p: PC, i: Iid) {
    match p
    case ShutStart(j, after) => i == j || (after.NextShut? && i in after.rest)
    case ShutWait(_, after) => after.NextShut? && i in after.rest
    case _ => false
  }

  /** A thread that is about to run the closing section of instance `i`. */
  predicate Closing(p: PC, i: Iid) {
    (p.ShutWait? || p.DropClose?) && p.i == i
  }

  predicate Making(p: PC, i: Iid) {
    (p.OpenRecheck? || p.OpenRegister?) && p.n == i
  }

  predicate HasCloser(s: State, i: Iid) {
    exists t | t in s.pc :: Closing(s.pc[t], i)
  }

  predicate HasShutter(s: State, i: Iid) {
    exists t | t in s.pc :: WillShut(s.pc[t], i)
  }

  predicate NeverReused(h: seq<Option<Inode>>) {
    forall m, n | 0 <= m < |h| && 0 <= n < |h| && h[m].Some? && h[m] == h[n] :: m == n
  }

  predicate HistOk(s: State) {
    forall k | k in s.hist :: 0 < |s.hist[k]| && NeverReused(s.hist[k])
  }

  predicate InstOk(s: State, i: Iid)
    requires Known(s, i)
  {
    var x := s.insts[i];
    && x.core.refs == |x.live|
    && x.core.inflight == |x.running|
    && Sound(x.core)
    && x.key in s.hist && x.attachedAt < |s.hist[x.key]| && s.hist[x.key][x.attachedAt] == Some(x.attached)
    && (forall t | t in x.running :: Pc(s, t) == Running(i))
    && (x.cv.Some? ==> Pc(s, x.cv.value) == Entering(i) && !x.core.baseClosed)
    && (forall h | h in x.live :: h < |s.owner| && s.owner[h] == i)
    && (x.maker.Some? ==> Making(Pc(s, x.maker.value), i) && !Registered(s, i) && x.live == {} && !x.core.closed)
  }

  /** No close is lost, and no open instance is forgotten. */
  predicate Tended(s: State, i: Iid)
    requires Known(s, i)
  {
    var x := s.insts[i];
    && (x.core.closed && !x.core.baseClosed && x.running == {} ==> HasCloser(s, i))
    && (!x.core.closed ==>
          || x.maker.Some?
          || (Registered(s, i) && x.live != {})
          || (i in s.dropped && x.live != {})
          || HasShutter(s, i)
          || (s.hl.Some? && Pc(s, s.hl.value) == DropLast(i)))
  }

  predicate Condemned(s: State, i: Iid) {
    Known(s, i) && s.insts[i].maker == None && !Registered(s, i)
  }

  /** No thread has still to shut, or close after shutting, instance `i`. */
  predicate Unshut(p: PC, i: Iid) { !WillShut(p, i) && !(p.ShutWait? && p.i == i) }

  /** What a raising scan left behind: nobody shuts it, and it stays open while it has handles. */
  predicate DroppedOk(s: State, i: Iid) {
    && Condemned(s, i) && (s.insts[i].core.closed ==> s.insts[i].live == {})
    && forall t | t in s.pc :: Unshut(s.pc[t], i)
  }

  predicate DroppedsOk(s: State) { forall i | i in s.dropped :: DroppedOk(s, i) }

  predicate OpenOk(s: State, o: OpenCall) {
    && o.key in s.hist && o.start <= o.fidAt < |s.hist[o.key]|
  }

  predicate StatOk(s: State, o: OpenCall) {
    OpenOk(s, o) && s.hist[o.key][o.fidAt] == o.fid
  }

  predicate Made(s: State, t: Tid, o: OpenCall, n: Iid) {
    && StatOk(s, o) && Known(s, n) && s.insts[n].maker == Some(t)
    && s.insts[n].key == o.key && s.insts[n].fid == o.fid && o.fidAt <= s.insts[n].attachedAt
  }

  predicate AfterOk(s: State, after: After) {
    match after
    case RetryOpen(o) => OpenOk(s, o)
    case NextShut(rest) => forall i | i in rest :: Condemned(s, i)
  }

  predicate ThreadOk(s: State, t: Tid) {
    match Pc(s, t)
    case Idle => true
    case Entering(i) => Known(s, i) && s.insts[i].cv == Some(t)
    case Running(i) => Known(s, i) && t in s.insts[i].running
    case DropRefs(h) => h < |s.owner| && Known(s, s.owner[h]) && h in s.insts[s.owner[h]].live
    case DropLast(i) => Known(s, i) && s.hl == Some(t) && s.insts[i].live == {} && s.insts[i].maker == None
    case DropClose(i) => Known(s, i) && s.insts[i].core.closed
    case OpenStat(o) => OpenOk(s, o)
    case OpenLook(o) => StatOk(s, o)
    case OpenAttach(o) => StatOk(s, o)
    case OpenRecheck(o, n) => Made(s, t, o, n)
    case OpenRegister(o, n) => Made(s, t, o, n) && (o.fid.Some? ==> o.fid == Some(s.insts[n].attached))
    case ShutStart(i, after) => Condemned(s, i) && AfterOk(s, after)
    case ShutWait(i, after) => Condemned(s, i) && s.insts[i].core.closed && AfterOk(s, after)
  }

  /** Every registered instance is unclosed, under its own key, attached to that key's file. */
  predicate RegOk(s: State, kf: (Key, Option<Inode>))
    requires kf in s.reg
  {
    var i := s.reg[kf];
    && Known(s, i) && (s.insts[i].key, s.insts[i].fid) == kf && !s.insts[i].core.closed
    && (kf.1.Some? ==> kf.1 == Some(s.insts[i].attached))
  }

  predicate LockOk(s: State) {
    s.hl.Some? ==> Pc(s, s.hl.value).DropLast?
  }

  predicate DropsOk(s: State) {
    forall t, u | t in s.pc && u in s.pc && s.pc[t].DropRefs? && s.pc[t] == s.pc[u] :: t == u
  }

  /** What a returned open may rely on; see `OpenReturnsPresentIff`. */
  predicate ReturnOk(s: State, r: Return) {
    && StatOk(s, r.o) && Known(s, r.inst) && r.end <= |s.hist[r.o.key]| && r.o.fidAt < r.end
    && s.insts[r.inst].key == r.o.key && s.insts[r.inst].attachedAt < r.end
    && (r.o.fid.Some? || r.own ==>
          exists m | r.o.start <= m < r.end :: s.hist[r.o.key][m] == Some(s.insts[r.inst].attached))
  }

  predicate InstsOk(s: State) { forall i: Iid | i < |s.insts| :: InstOk(s, i) }

  predicate AllTended(s: State) { forall i: Iid | i < |s.insts| :: Tended(s, i) }

  predicate ThreadsOk(s: State) { forall t | t in s.pc :: ThreadOk(s, t) }

  predicate RegsOk(s: State) { forall kf | kf in s.reg :: RegOk(s, kf) }

  predicate ReturnsOk(s: State) { forall r | r in s.done :: ReturnOk(s, r) }

  predicate OwnersOk(s: State) { forall h | 0 <= h < |s.owner| :: Known(s, s.owner[h]) }

  predicate Inv(s: State) {
    && HistOk(s) && LockOk(s) && DropsOk(s) && InstsOk(s) && AllTended(s)
    && ThreadsOk(s) && RegsOk(s) && ReturnsOk(s) && OwnersOk(s) && DroppedsOk(s)
  }
}
