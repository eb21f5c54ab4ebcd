// Pieces of concrete runs: commands of a client, a START as the pulse receiver handles it, a
// STOP as the main and the index receiver handle it, and transfers up to a full buffer.
module Runs {
  import opened Common
  import Naming
  import opened Descriptors
  import opened Channels
  import opened Protocol
  import opened Frames
  import WorkState

  lemma GoMain(boot: Boot, s: State, e: Env) returns (t: State)
    requires Reachable(boot, s)
    ensures t == MainNext(s, e) && Reachable(boot, t)
  {
    hide Reachable, MainNext;
    t := Go(boot, s, MnStep(e));
  }

  lemma GoIndex(boot: Boot, s: State, e: Env) returns (t: State)
    requires Reachable(boot, s)
    ensures t == IndexNext(s, e) && Reachable(boot, t)
  {
    hide Reachable, IndexNext;
    t := Go(boot, s, SyStep(e));
  }

  lemma GoPulse(boot: Boot, s: State, e: Env) returns (t: State)
    requires Reachable(boot, s)
    ensures t == PulseNext(s, e) && Reachable(boot, t)
  {
    hide Reachable, PulseNext;
    t := Go(boot, s, LsStep(e));
  }

  lemma Booted(boot: Boot)
    ensures Reachable(boot, Init(boot))
  {
    hide Init;
    assert Exec(Init(boot), []) == Init(boot);
  }

  // ---------- commands (src/tcp_process.c:137-146, 263-311, 326-337) ----------

  lemma {:induction false} Written(boot: Boot, s: State, ws: seq<WorkState.RegisterWrite>)
    requires Reachable(boot, s)
    ensures Reachable(boot, WorkState.Net(s, ws))
    decreases |ws|
  {
    hide Reachable, NetNext;
    if ws != [] {
      var t := Go(boot, s, Net(ws[0].0, ws[0].1));
      Written(boot, t, ws[1..]);
    }
  }

  // All register writes of a command, one after the other.
  function Commanded(s: State, d: WorkState.Device, e: WorkState.Event): State {
    WorkState.Net(s, WorkState.Writes(d, e))
  }

  const READY := WorkState.Device(WorkState.WORK_READY, false, Registers(false, false, false, false, false))
  const RECORDING := WorkState.Device(WorkState.WORK_RECORD, true, Registers(false, false, false, false, false))

  lemma StopCommand(boot: Boot, s: State) returns (t: State)
    requires Reachable(boot, s)
    ensures t == Commanded(s, RECORDING, WorkState.Command(WorkState.CMD_SET_STOP)) && Reachable(boot, t)
    ensures t == s.(rg := Registers(false, false, true, true, true), se := s.se.(clean := s.se.clean && s.Spare()))
  {
    hide Reachable, WorkState.Net;
    t := Commanded(s, RECORDING, WorkState.Command(WorkState.CMD_SET_STOP));
    Written(boot, s, WorkState.Writes(RECORDING, WorkState.Command(WorkState.CMD_SET_STOP)));
    WorkState.NetStop(s);
  }

  lemma StartCommand(boot: Boot, s: State) returns (t: State)
    requires Reachable(boot, s)
    ensures t == Commanded(s, READY, WorkState.Command(WorkState.CMD_SET_START)) && Reachable(boot, t)
    ensures t == s.(rg := Registers(true, true, false, false, false))
  {
    hide Reachable, WorkState.Net;
    t := Commanded(s, READY, WorkState.Command(WorkState.CMD_SET_START));
    Written(boot, s, WorkState.Writes(READY, WorkState.Command(WorkState.CMD_SET_START)));
    WorkState.NetStart(s);
  }

  lemma DiskFull(boot: Boot, s: State) returns (t: State)
    requires Reachable(boot, s)
    ensures t == Commanded(s, RECORDING, WorkState.Poll(0)) && Reachable(boot, t)
    ensures t == s.(rg := s.rg.(starStore := false, fileMark := false),
                    se := s.se.(clean := s.se.clean && s.Spare()))
  {
    hide Reachable, WorkState.Net;
    t := Commanded(s, RECORDING, WorkState.Poll(0));
    Written(boot, s, WorkState.Writes(RECORDING, WorkState.Poll(0)));
    WorkState.NetEnables(s, false);
  }

  // ---------- a START (src/store.c:457-503) ----------

  // Steps to the end of the START branch, from LStop once round the loop first.
  function StartDistance(pc: PulsePc): nat {
    match pc
    case LFirstMark => 1 case LStarClear => 2 case LFirstInc => 3 case LMnReset => 4 case LSyReset => 5
    case LFirstOpen => 6 case LFirstEnd => 7 case LFirstBegin => 8 case LNumReset => 9 case LReset => 10
    case LHead => 11 case LCut => 12 case LFull => 13 case LFifo => 14 case LStored => 15 case LStop => 16
    case _ => 0
  }

  // The session has begun under the number n, and nothing has happened since.
  ghost predicate Begun(p: PulseThread, t: Track, n: int) {
    && p.began && p.intact && p.positive == (n > 0) && !p.robbed && p.data.fd == n && p.data.staged == []
    && p.saved == 0 && p.lost == 0 && p.alien == 0
    && t.home == n && t.made && !t.robbed && t.lost == 0 && t.alien == 0 && t.gap == 0
  }

  predicate Quiet(s: State) { !s.fl.slice1 && !s.fl.stored1 && !s.rg.lsStop }

  ghost predicate Starting(s: State, n: int) {
    var d, p := StartDistance(s.ls.pc), s.ls;
    && d > 0 && Quiet(s) && (d > 10 ==> s.rg.starStore) && (d == 1 ==> !s.rg.starStore)
    && (d > 11 ==> |p.data.staged| != IFD_WRITE_MN)
    && (d > 5 ==> s.os.Free(n)) && (d < 10 ==> p.data.staged == [] && p.saved == 0 && !s.nm.zeroMark)
    && (d <= 5 ==> Begun(p, s.os.ls, n))
    && (3 <= d <= 8 ==> s.nm.lsNum == 0) && (d == 3 ==> s.nm.mnNum == 0)
    && (d < 3 ==> s.nm.lsNum == 1 && s.nm.mnNum == 0)
  }

  // The reset will find FILE_MARK 1 and no number taken, or has.
  predicate Cleanly(s: State) {
    if StartDistance(s.ls.pc) > 3 then s.rg.fileMark && !s.mn.pc.Numbering() else s.se.clean
  }

  // What a START leaves alone.
  predicate Elsewhere(s: State, t: State) {
    && t.mn == s.mn && t.sy == s.sy && t.ct == s.ct && t.os.mn == s.os.mn && PulseFlags(s.fl, t.fl)
    && t.rg.mnStop == s.rg.mnStop && t.rg.syStop == s.rg.syStop
  }

  ghost predicate InSession(s: State, n: int) {
    && s.ls.pc.LStop? && Begun(s.ls, s.os.ls, n) && Quiet(s) && !s.rg.starStore && !s.rg.fileMark && !s.nm.zeroMark
    && s.nm.lsNum == 1 && s.nm.mnNum == 0
  }

  ghost predicate Started(s: State, t: State, n: int) {
    if s.ls.pc.LFirstMark? then InSession(t, n)
    else Starting(t, n) && StartDistance(t.ls.pc) == StartDistance(s.ls.pc) - 1
  }

  lemma LoopStep(pc: PulsePc, s: State, e: Env)
    requires pc == s.ls.pc && StartDistance(pc) > 10 && Starting(s, e.fd) && !e.fifo
    ensures Started(s, PulseNext(s, e), e.fd)
    ensures PulseNext(s, e).rg == s.rg
  {
    hide PulseNext, PulseStart, PulseMove, PulseTurn, Naming.BaseName, Table.After, Begun;
    PulseStores(s, e);
    if pc.LHead? { HeadStep(s, e); } else { RoundStep(pc, s, e); }
  }

  // With nothing in the FIFO and no cut the receiver goes round its loop.
  lemma RoundStep(pc: PulsePc, s: State, e: Env)
    requires pc == s.ls.pc && StartDistance(pc) > 11 && Quiet(s) && !e.fifo && |s.ls.data.staged| != IFD_WRITE_MN
    ensures var (p, w) := PulseMove(s, e);
      && w == Nothing && StartDistance(p.pc) == StartDistance(pc) - 1
      && p == s.ls.(pc := p.pc)
  {
  }

  lemma HeadStep(s: State, e: Env)
    requires s.ls.pc.LHead? && s.rg.starStore
    ensures PulseStart(s, e) == (s.ls.(pc := LReset), Nothing)
  {
  }

  lemma BeforeOpen(pc: PulsePc, s: State, e: Env)
    requires pc == s.ls.pc && 6 < StartDistance(pc) <= 10 && Starting(s, e.fd)
    ensures Started(s, PulseNext(s, e), e.fd)
    ensures PulseNext(s, e).rg == s.rg
  {
    hide PulseNext, PulseMove, PulseTurn, SessionAfter, IndexSessionAfter, Naming.BaseName, Table.After, Begun;
    PulseStores(s, e);
  }

  lemma StartOpens(s: State, e: Env)
    requires s.ls.pc.LFirstOpen? && Starting(s, e.fd)
    ensures Started(s, PulseNext(s, e), e.fd) && PulseNext(s, e).rg == s.rg
    ensures PulseNext(s, e).os.mn == s.os.mn
  {
    hide Naming.BaseName;
  }

  lemma AfterOpen(pc: PulsePc, s: State, e: Env)
    requires pc == s.ls.pc && 3 < StartDistance(pc) < 6 && Starting(s, e.fd)
    ensures Started(s, PulseNext(s, e), e.fd) && PulseNext(s, e).rg == s.rg
  {
    hide PulseNext, PulseMove, PulseTurn, SessionAfter, IndexSessionAfter, Naming.BaseName, Table.After;
    PulseStores(s, e);
  }

  lemma AfterReset(pc: PulsePc, s: State, e: Env)
    requires pc == s.ls.pc && 0 < StartDistance(pc) <= 3 && Starting(s, e.fd)
    ensures Started(s, PulseNext(s, e), e.fd)
    ensures var r := PulseNext(s, e).rg; r.mnStop == s.rg.mnStop && r.syStop == s.rg.syStop
  {
    hide PulseNext, PulseMove, PulseTurn, SessionAfter, IndexSessionAfter, Naming.BaseName, Table.After;
    PulseStores(s, e);
  }

  lemma StartStep(pc: PulsePc, s: State, e: Env)
    requires pc == s.ls.pc && Starting(s, e.fd) && !e.fifo
    ensures Started(s, PulseNext(s, e), e.fd) && Elsewhere(s, PulseNext(s, e))
    ensures StartDistance(pc) > 3 ==> PulseNext(s, e).rg == s.rg
  {
    assert StartDistance(pc) > 0 && !(pc.LFull? && |s.ls.data.staged| == IFD_WRITE_MN);
    hide PulseNext, Starting, InSession, PulseStart, PulseFlags, TakesOnly;
    PulseTouches(pc, s, e);
    if StartDistance(pc) > 10 { LoopStep(pc, s, e); }
    else if StartDistance(pc) > 6 { BeforeOpen(pc, s, e); }
    else if pc.LFirstOpen? { StartOpens(s, e); }
    else if StartDistance(pc) > 3 { AfterOpen(pc, s, e); }
    else { AfterReset(pc, s, e); }
    PulseOthers(pc, s, e);
  }

  // A reset that finds FILE_MARK 1 and no number taken begins a clean session.
  lemma StaysClean(pc: PulsePc, s: State, t: State)
    requires pc == s.ls.pc && Cleanly(s) && t.se == SessionAfter(s) && t.mn == s.mn
    requires StartDistance(pc) > 3 ==> t.rg == s.rg
    requires StartDistance(pc) > 0 && (!pc.LFirstMark? ==> StartDistance(t.ls.pc) == StartDistance(pc) - 1)
    ensures if pc.LFirstMark? then t.se.clean else Cleanly(t)
  {
  }

  // What START has taken from its environment e so far, and whether it has reset mn_file_num.
  predicate Stamped(s: State, e: Env) {
    var d := StartDistance(s.ls.pc);
    (d < 10 ==> s.ls.dir == e.dir) && (d < 7 ==> s.ls.times == [e.time]) && (d < 4 ==> s.se.named)
  }

  lemma StampStep(pc: PulsePc, s: State, e: Env)
    requires pc == s.ls.pc && StartDistance(pc) > 0 && Stamped(s, e)
    requires !pc.LFirstMark? ==> StartDistance(PulseNext(s, e).ls.pc) == StartDistance(pc) - 1
    ensures var t := PulseNext(s, e);
      if pc.LFirstMark? then t.ls.dir == e.dir && t.ls.times == [e.time] && t.se.named else Stamped(t, e)
  {
    hide PulseNext, PulseStart, Naming.BaseName;
    if StartDistance(pc) <= 10 {
      StampStart(pc, s, e);
      PulseStores(s, e);
      PulseSession(s, e);
      hide PulseMove, PulseTurn;
    }
  }

  lemma StampStart(pc: PulsePc, s: State, e: Env)
    requires pc == s.ls.pc && 0 < StartDistance(pc) <= 10
    ensures var p := PulseStart(s, e).0;
      && pc.Commanded()
      && p.dir == (if pc.LReset? then e.dir else s.ls.dir)
      && p.times == (if pc.LNumReset? then [] else if pc.LFirstEnd? then [e.time] else s.ls.times)
  {
    hide Naming.BaseName;
  }

  lemma PulseSession(s: State, e: Env)
    ensures PulseNext(s, e).se == SessionAfter(s)
  {
    hide PulseStep, SessionAfter;
  }

  // The main file is not touched but by a close, a write or a pad on its number.
  lemma PulseOthers(pc: PulsePc, s: State, e: Env)
    requires pc == s.ls.pc && StartDistance(pc) > 0 && !(pc.LFull? && |s.ls.data.staged| == IFD_WRITE_MN)
    ensures PulseNext(s, e).os.mn == s.os.mn && TakesOnly(s, PulseNext(s, e), e.fd)
  {
    hide Naming.BaseName;
  }

  // No number but n is taken.
  ghost predicate TakesOnly(s: State, t: State, n: int) { forall k :: k != n && s.os.Free(k) ==> t.os.Free(k) }

  // A START that opens its file under the number e.fd, from the head of the loop or from LStop.
  lemma {:induction false} RunsSession(boot: Boot, s: State, e: Env) returns (t: State)
    requires Reachable(boot, s) && Starting(s, e.fd) && !e.fifo
    ensures Reachable(boot, t) && InSession(t, e.fd) && Elsewhere(s, t) && (Cleanly(s) ==> t.se.clean)
    ensures TakesOnly(s, t, e.fd)
    ensures Stamped(s, e) ==> t.ls.dir == e.dir && t.ls.times == [e.time] && t.se.named
    decreases StartDistance(s.ls.pc)
  {
    hide Reachable, PulseNext, Starting, InSession, StartDistance, Cleanly, Stamped;
    StartStep(s.ls.pc, s, e);
    PulseSession(s, e);
    assert TakesOnly(s, PulseNext(s, e), e.fd) by { NotFull(s, e.fd); PulseOthers(s.ls.pc, s, e); }
    assert StartDistance(s.ls.pc) > 0 && (!s.ls.pc.LFirstMark? ==> StartDistance(PulseNext(s, e).ls.pc) > 0) by {
      StartsSomewhere(s, e.fd);
      if !s.ls.pc.LFirstMark? { StartsSomewhere(PulseNext(s, e), e.fd); }
    }
    if Cleanly(s) { StaysClean(s.ls.pc, s, PulseNext(s, e)); }
    if Stamped(s, e) { StampStep(s.ls.pc, s, e); }
    t := GoPulse(boot, s, e);
    if !s.ls.pc.LFirstMark? { t := RunsSession(boot, t, e); }
  }

  lemma NotFull(s: State, n: int)
    requires Starting(s, n)
    ensures StartDistance(s.ls.pc) > 0 && !(s.ls.pc.LFull? && |s.ls.data.staged| == IFD_WRITE_MN)
  {
  }

  lemma StartsSomewhere(s: State, n: int)
    requires Starting(s, n)
    ensures StartDistance(s.ls.pc) > 0
  {
  }

  // The same, but only up to the reset of the numbers.
  lemma {:induction false} RunsToReset(boot: Boot, s: State, e: Env) returns (t: State)
    requires Reachable(boot, s) && Starting(s, e.fd) && StartDistance(s.ls.pc) >= 4 && !e.fifo
    ensures Reachable(boot, t) && t.ls.pc.LMnReset? && Starting(t, e.fd) && Elsewhere(s, t) && t.rg == s.rg
    decreases StartDistance(s.ls.pc)
  {
    hide Reachable, PulseNext, Starting, InSession;
    t := s;
    if !s.ls.pc.LMnReset? {
      StartStep(s.ls.pc, s, e);
      t := GoPulse(boot, s, e);
      t := RunsToReset(boot, t, e);
    }
  }

  // ---------- a STOP in the main receiver (src/store.c:364-384) ----------

  function StopDistance(pc: MainPc): nat {
    match pc
    case MStopClose => 1 case MStopAck => 2 case MStopStored => 3 case MStopSlice => 4 case MStopZero => 5
    case MHead => 6 case MWait => 7 case MStored => 8
    case _ => 0
  }

  predicate Halting(s: State) {
    var d := StopDistance(s.mn.pc);
    && d > 0 && !s.nm.zeroMark && (d > 5 ==> s.rg.mnStop) && (d < 3 || d == 8 ==> s.fl.stored0)
  }

  // The number in use is closed, whoever holds it.
  predicate Halted(s: State, t: State) {
    && t.ls == s.ls && t.sy == s.sy && t.nm == s.nm && t.mn.data.fd == s.mn.data.fd
    && t.fl.slice1 == s.fl.slice1 && t.fl.stored1 == s.fl.stored1
    && t.rg.starStore == s.rg.starStore && t.rg.lsStop == s.rg.lsStop && t.rg.syStop == s.rg.syStop
  }

  lemma HaltStep(pc: MainPc, s: State, e: Env)
    requires pc == s.mn.pc && Halting(s) && e.flow
    ensures var (m, w) := MainIdle(s, e); var f, r := FlagsAfter(s.fl, w), RegistersAfter(s.rg, w);
      && m.data.fd == s.mn.data.fd && NamesAfter(s.nm, w) == s.nm
      && f.slice1 == s.fl.slice1 && f.stored1 == s.fl.stored1 && r == s.rg.(mnStop := r.mnStop)
      && m.pc == (match pc
                  case MWait | MStored => MHead case MHead => MStopZero case MStopZero => MStopSlice
                  case MStopSlice => MStopStored case MStopStored => MStopAck case MStopAck => MStopClose
                  case _ => MStored)
      && (StopDistance(m.pc) < 3 || StopDistance(m.pc) == 8 ==> f.stored0)
      && (StopDistance(m.pc) > 5 && !pc.MStopClose? ==> r.mnStop)
      && w.Sys? == pc.MStopClose? && (w.Sys? ==> w == Sys(CloseAt(AsDescriptor(s.mn.data.fd)), 0))
  {
    hide AsDescriptor;
  }

  lemma Halts(pc: MainPc, s: State, e: Env)
    requires pc == s.mn.pc && Halting(s) && e.flow
    ensures var t := MainNext(s, e);
      && Halted(s, t) && (!pc.MStopClose? ==> StopDistance(t.mn.pc) < StopDistance(pc))
      && (if pc.MStopClose? then
            && t.mn.pc.MStored? && t.fl.stored0
            && t.os == s.os.After(Mn, CloseAt(AsDescriptor(s.mn.data.fd)), 0)
          else Halting(t) && t.os == s.os)
  {
    hide MainNext, MainIdle, MainName, MainMove, Table.After, AsDescriptor, FlagsAfter, NamesAfter, RegistersAfter;
    MainStores(s, e);
    HaltStep(pc, s, e);
  }

  lemma {:induction false} RunsHalt(boot: Boot, s: State, e: Env) returns (t: State)
    requires Reachable(boot, s) && Halting(s) && e.flow
    ensures Reachable(boot, t) && Halted(s, t) && t.mn.pc.MStored? && t.fl.stored0
    ensures t.os == s.os.After(Mn, CloseAt(AsDescriptor(s.mn.data.fd)), 0)
    decreases StopDistance(s.mn.pc)
  {
    hide MainNext, Halting, StopDistance, Table.After, AsDescriptor, Reachable;
    Halts(s.mn.pc, s, e);
    t := GoMain(boot, s, e);
    if !s.mn.pc.MStopClose? { t := RunsHalt(boot, t, e); }
  }

  // ---------- a STOP in the index receiver (src/store.c:282-301) ----------

  function IndexStopDistance(pc: IndexPc): nat {
    match pc
    case IStopClose => 1 case IStopAck => 2 case IStopIndexed => 3 case IStopAlt => 4 case IStopIndex => 5
    case IStopZero => 6 case IHead => 7
    case _ => 0
  }

  predicate IndexHalting(s: State) {
    var d := IndexStopDistance(s.sy.pc);
    d > 0 && !s.nm.zeroMark && (d == 7 ==> s.rg.syStop)
  }

  lemma IndexHalts(pc: IndexPc, s: State, e: Env)
    requires pc == s.sy.pc && IndexHalting(s)
    ensures var t := IndexNext(s, e);
      && t.ls == s.ls && t.mn == s.mn && t.nm == s.nm && t.sy.fd == s.sy.fd && IndexFlags(s.fl, t.fl)
      && t.rg == s.rg.(syStop := t.rg.syStop) && IndexStopDistance(t.sy.pc) == IndexStopDistance(pc) - 1
      && (if pc.IStopClose? then t.os == s.os.After(Sy, CloseAt(s.sy.fd), 0) else IndexHalting(t) && t.os == s.os)
  {
    hide IndexNext, IndexTake, IndexName, IndexSave, Table.After, IndexFlags;
    IndexStores(s, e);
    IndexTouches(pc, s, e);
  }

  lemma {:induction false} RunsIndexHalt(boot: Boot, s: State, e: Env) returns (t: State)
    requires Reachable(boot, s) && IndexHalting(s)
    ensures Reachable(boot, t) && t.ls == s.ls && t.mn == s.mn && t.nm == s.nm && IndexFlags(s.fl, t.fl)
    ensures t.rg == s.rg.(syStop := t.rg.syStop) && t.os == s.os.After(Sy, CloseAt(s.sy.fd), 0)
    decreases IndexStopDistance(s.sy.pc)
  {
    hide IndexNext, IndexHalting, IndexStopDistance, Table.After, Reachable;
    IndexHalts(s.sy.pc, s, e);
    t := GoIndex(boot, s, e);
    if !s.sy.pc.IStopClose? { t := RunsIndexHalt(boot, t, e); }
  }

  // ---------- twelve chunks of pulse data (src/store.c:534-550) ----------

  // The pulse receiver takes chunk after chunk; no START, STOP or cut comes in between.
  ghost predicate Feeding(s: State) {
    var p, t := s.ls, s.os.ls;
    && Quiet(s) && !s.rg.starStore
    && p.began && p.intact && p.saved == 0 && p.lost == 0 && t.lost == 0 && p.alien == 0 && t.alien == 0
    && |p.data.staged| % DMA_TRANS_SIZE == 0 && |p.data.staged| <= IFD_WRITE_MN
    && match p.pc case LHead | LStop | LStored | LFifo | LDma | LCut => |p.data.staged| < IFD_WRITE_MN
                  case LFull => true case _ => false
  }

  function FeedDistance(p: PulseThread): int {
    8 * (13 - |p.data.staged| / DMA_TRANS_SIZE)
    + (match p.pc case LFull => 7 case LCut => 6 case LHead => 5 case LStop => 4 case LStored => 3 case LFifo => 2
       case LDma => 1 case _ => 0)
  }

  // The rest of the system is as it was.
  predicate OnlyPulse(s: State, t: State) {
    && t.mn == s.mn && t.sy == s.sy && t.fl == s.fl && t.rg == s.rg && t.nm == s.nm && t.os == s.os
    && t.ls.data.fd == s.ls.data.fd && t.ls.positive == s.ls.positive
  }

  lemma Feeds(pc: PulsePc, s: State, e: Env)
    requires pc == s.ls.pc && Feeding(s) && e.fifo && e.dma.Some?
    requires pc.LFull? ==> |s.ls.data.staged| < IFD_WRITE_MN
    ensures var t := PulseNext(s, e);
      Feeding(t) && OnlyPulse(s, t) && 0 <= FeedDistance(t.ls) < FeedDistance(s.ls)
  {
  }

  lemma {:induction false} RunsFull(boot: Boot, s: State, e: Env) returns (t: State)
    requires Reachable(boot, s) && Feeding(s) && e.fifo && e.dma.Some?
    ensures Reachable(boot, t) && Feeding(t) && OnlyPulse(s, t)
    ensures t.ls.pc.LFull? && |t.ls.data.staged| == IFD_WRITE_MN
    decreases FeedDistance(s.ls)
  {
    hide PulseNext, FeedDistance, Reachable;
    t := s;
    if !(s.ls.pc.LFull? && |s.ls.data.staged| == IFD_WRITE_MN) {
      Feeds(s.ls.pc, s, e);
      hide Feeding;
      t := GoPulse(boot, s, e);
      t := RunsFull(boot, t, e);
    }
  }

  // The flush misses the file.
  lemma Misses(s: State, e: Env)
    requires s.ls.pc.LFull? && |s.ls.data.staged| == IFD_WRITE_MN && s.ls.saved == 0
    requires s.ls.data.fd <= 0 || !s.os.ls.Holds(s.ls.data.fd)
    ensures var t := PulseNext(s, e);
      && t.ls.began == s.ls.began && t.ls.intact == s.ls.intact && t.ls.positive == s.ls.positive
      && t.ls.lost + t.os.ls.lost == s.ls.lost + s.os.ls.lost + IFD_WRITE_MN
      && t.ls.alien + t.os.ls.alien == s.ls.alien + s.os.ls.alien
  {
  }

  // ---------- twelve chunks of main data (src/store.c:403-416) ----------

  ghost predicate MainFeeding(s: State) {
    var m := s.mn;
    && !s.fl.stored0 && !s.fl.sliceAlt0 && !s.fl.slice0 && !s.rg.mnStop
    && |m.data.staged| % DMA_TRANS_SIZE == 0 && |m.data.staged| <= IFD_WRITE_MN
    && match m.pc case MHead | MStored | MAlt | MFifo | MAltAgain | MDma | MCut => |m.data.staged| < IFD_WRITE_MN
                  case MFull => true case _ => false
  }

  function MainFeedDistance(m: MainThread): int {
    8 * (13 - |m.data.staged| / DMA_TRANS_SIZE)
    + (match m.pc case MFull => 7 case MCut => 6 case MHead => 5 case MStored => 4 case MAlt => 3 case MFifo => 2
       case MAltAgain => 1 case _ => 0)
  }

  predicate OnlyMain(s: State, t: State) {
    && t.ls == s.ls && t.sy == s.sy && t.fl == s.fl && t.rg == s.rg && t.nm == s.nm && t.os == s.os
    && t.mn.data.fd == s.mn.data.fd
  }

  lemma MainFeeds(pc: MainPc, s: State, e: Env)
    requires pc == s.mn.pc && MainFeeding(s) && e.fifo && e.dma.Some?
    requires pc.MFull? ==> |s.mn.data.staged| < IFD_WRITE_MN
    ensures var t := MainNext(s, e);
      MainFeeding(t) && OnlyMain(s, t) && 0 <= MainFeedDistance(t.mn) < MainFeedDistance(s.mn)
  {
  }

  lemma {:induction false} RunsMainFull(boot: Boot, s: State, e: Env) returns (t: State)
    requires Reachable(boot, s) && MainFeeding(s) && e.fifo && e.dma.Some?
    ensures Reachable(boot, t) && MainFeeding(t) && OnlyMain(s, t)
    ensures t.mn.pc.MFull? && |t.mn.data.staged| == IFD_WRITE_MN
    decreases MainFeedDistance(s.mn)
  {
    hide MainNext, MainFeedDistance, Reachable;
    t := s;
    if !(s.mn.pc.MFull? && |s.mn.data.staged| == IFD_WRITE_MN) {
      MainFeeds(s.mn.pc, s, e);
      hide MainFeeding;
      t := GoMain(boot, s, e);
      t := RunsMainFull(boot, t, e);
    }
  }

  // ---------- back from an open (src/store.c:395-438) ----------

  predicate Back(s: State, t: State) {
    && t.ls == s.ls && t.sy == s.sy && t.nm == s.nm && t.ct == s.ct && t.os == s.os && t.se.clean == s.se.clean
    && t.fl.stored0 == s.fl.stored0 && t.fl.slice0 == s.fl.slice0 && t.fl.slice1 == s.fl.slice1
    && t.fl.stored1 == s.fl.stored1 && t.rg == s.rg.(fileMark := t.rg.fileMark)
    && t.mn.data.fd == s.mn.data.fd
  }

  lemma BackNames(pc: MainPc, s: State, e: Env)
    requires pc == s.mn.pc && (pc.MAltClear? || pc.MMarkSet?)
    ensures MainNext(s, e) ==
      if pc.MAltClear? then s.(mn := s.mn.(pc := MMarkSet), fl := s.fl.(sliceAlt0 := false))
      else s.(mn := s.mn.(pc := MFifo), rg := s.rg.(fileMark := true))
  {
  }

  lemma BackMoves(pc: MainPc, s: State, e: Env)
    requires pc == s.mn.pc && (pc.MFifo? || pc.MFull? || pc.MCut?) && s.mn.data.staged == [] && !s.fl.slice0 && !e.fifo
    ensures MainNext(s, e) == s.(mn := s.mn.(pc := if pc.MFifo? then MFull else if pc.MFull? then MCut else MHead))
  {
  }

  // With nothing in the FIFO the main receiver comes back to the head of its loop.
  lemma RunsBack(boot: Boot, s: State, e: Env) returns (t: State)
    requires Reachable(boot, s) && s.mn.pc.MAltClear? && s.mn.data.staged == [] && !s.fl.slice0 && !e.fifo
    ensures Reachable(boot, t)
    ensures t == s.(mn := s.mn.(pc := MHead), fl := s.fl.(sliceAlt0 := false), rg := s.rg.(fileMark := true))
  {
    hide MainNext, Reachable;
    BackNames(s.mn.pc, s, e);
    t := GoMain(boot, s, e);
    BackNames(t.mn.pc, t, e);
    t := GoMain(boot, t, e);
    BackMoves(t.mn.pc, t, e);
    t := GoMain(boot, t, e);
    BackMoves(t.mn.pc, t, e);
    t := GoMain(boot, t, e);
    BackMoves(t.mn.pc, t, e);
    t := GoMain(boot, t, e);
  }

  lemma OpenSucceeds(s: State, e: Env)
    requires s.mn.pc.MOpen? && s.os.Free(e.fd)
    ensures var t := MainNext(s, e);
      && t.mn.pc.MAltClear? && AsDescriptor(t.mn.data.fd) == e.fd && t.mn.data.staged == s.mn.data.staged
      && t.os == s.os.After(Mn, OpenAt(e.fd), 0) && Back(s, t.(os := s.os, mn := s.mn)) && t.fl == s.fl
  {
    DescriptorKept(e.fd);
    hide Table.After, AsDescriptor;
  }

  // The main receiver opens its file under the number e.fd and comes back.
  lemma RunsOpen(boot: Boot, s: State, e: Env) returns (t: State)
    requires Reachable(boot, s) && s.mn.pc.MOpen? && s.mn.data.staged == [] && !s.fl.slice0 && s.os.Free(e.fd)
    requires !e.fifo
    ensures Reachable(boot, t) && t.mn.pc.MHead? && t.mn.data.staged == [] && AsDescriptor(t.mn.data.fd) == e.fd
    ensures Back(s, t.(os := s.os, mn := s.mn)) && t.os == s.os.After(Mn, OpenAt(e.fd), 0)
    ensures !t.fl.slice0 && !t.fl.sliceAlt0 && t.rg.fileMark
  {
    hide MainNext, Reachable, Table.After, AsDescriptor;
    OpenSucceeds(s, e);
    t := GoMain(boot, s, e);
    t := RunsBack(boot, t, e);
  }
}
