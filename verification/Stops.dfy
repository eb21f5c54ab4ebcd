// STOP is obeyed: as long as its stop register is 1, each receiver comes by its own steps to
// clear it and to close its file, wherever it is (src/store.c:284-299, 366-381, 505-531).
module Stops {
  import opened Common
  import Naming
  import opened Descriptors
  import opened Protocol
  import opened Frames
  import opened Barrier
  import opened Continuations
  import opened Rotations
  import Companions
  import IndexPages
  import Ownership

  // ---------- the main receiver ----------

  // Steps to the end of a STOP; stop says that the register is 1.
  function MainHaltDistance(pc: MainPc, stop: bool): nat {
    match pc
    case MStopClose => if stop then 29 else 1
    case MStopAck => 2 case MStopStored => 3 case MStopSlice => 4 case MStopCompare => 5 case MStopNum => 6
    case MStopZero => 7 case MHead => 8 case MWait => 9 case MStoredSet => 9 case MSliceClear => 10 case MClose => 11
    case MDrain => 12 case MCut => 13 case MFull => 14 case MDma => 15 case MAltAgain => 16 case MFifo => 17
    case MMarkSet => 18 case MAltClear => 19 case MOpen => 20 case MStore => 21 case MLoad => 22 case MSlotEnd => 23
    case MSlot => 24 case MNum => 25 case MMark => 26 case MAlt => 27 case MStored => 28
  }

  // The register is 1, or was cleared for the STOP in progress.
  predicate MainHalting(stop: bool, pc: MainPc) { stop || pc.MStopClose? }

  predicate MainCloser(s: State, m: MainThread, w: Write) {
    var stop := RegistersAfter(s.rg, w).mnStop;
    MainHalting(stop, m.pc) && MainHaltDistance(m.pc, stop) < MainHaltDistance(s.mn.pc, s.rg.mnStop)
  }

  lemma IdleCloser(pc: MainPc, s: State, e: Env)
    requires pc == s.mn.pc && !pc.Active() && e.flow
    requires MainHalting(s.rg.mnStop, pc) && !(pc.MStopClose? && !s.rg.mnStop)
    ensures MainCloser(s, MainIdle(s, e).0, MainIdle(s, e).1)
  {
  }

  lemma NameCloser(pc: MainPc, s: State, e: Env)
    requires pc == s.mn.pc && pc.Naming() && s.rg.mnStop
    ensures MainCloser(s, MainName(s, e).0, MainName(s, e).1)
  {
  }

  lemma MoveCloser(pc: MainPc, s: State, e: Env)
    requires pc == s.mn.pc && pc.Active() && !pc.Naming() && s.rg.mnStop
    ensures MainCloser(s, MainMove(s, e).0, MainMove(s, e).1)
  {
  }

  lemma MainHaltStep(pc: MainPc, s: State, e: Env)
    requires pc == s.mn.pc && e.flow && MainHalting(s.rg.mnStop, pc)
    ensures var t := MainNext(s, e);
      if pc.MStopClose? && !s.rg.mnStop then t.mn.pc.MStored? && !t.rg.mnStop && t.os.mn == CLOSED && !t.mn.busy
      else && MainHalting(t.rg.mnStop, t.mn.pc)
           && MainHaltDistance(t.mn.pc, t.rg.mnStop) < MainHaltDistance(pc, s.rg.mnStop)
  {
    hide MainNext, MainIdle, MainName, MainMove, MainHaltDistance;
    MainStores(s, e);
    if pc.MStopClose? && !s.rg.mnStop { MainCloses(s, e); }
    else if !pc.Active() { IdleCloser(pc, s, e); }
    else if pc.Naming() { NameCloser(pc, s, e); }
    else { MoveCloser(pc, s, e); }
  }

  lemma MainCloses(s: State, e: Env)
    requires s.mn.pc.MStopClose?
    ensures var (m, w) := MainIdle(s, e);
      m.pc.MStored? && !m.busy && TableAfter(s.os, Mn, w).mn == CLOSED && RegistersAfter(s.rg, w) == s.rg
  {
  }

  lemma {:induction false} MainHaltsFrom(boot: Boot, s: State, t: State, e: Env) returns (u: State)
    requires Path(boot, s, t) && e.flow && MainHalting(t.rg.mnStop, t.mn.pc)
    ensures Path(boot, s, u) && u.mn.pc.MStored? && !u.rg.mnStop && u.os.mn == CLOSED && !u.mn.busy
    decreases MainHaltDistance(t.mn.pc, t.rg.mnStop)
  {
    hide Path, MainNext, MainHaltDistance;
    MainHaltStep(t.mn.pc, t, e);
    u := MoveMain(boot, s, t, e);
    if !(t.mn.pc.MStopClose? && !t.rg.mnStop) { u := MainHaltsFrom(boot, s, u, e); }
  }

  // ---------- the index receiver ----------

  function IndexHaltDistance(x: IndexThread, stop: bool, w: Hardware): nat {
    match x.pc
    case IStopClose => if stop then 9002 else 1
    case IStopAck => 2 case IStopIndexed => 3 case IStopAlt => 4 case IStopIndex => 5 case IStopCompare => 6
    case IStopNum => 7 case IStopZero => 8 case IHead => 9 case ICutIndexed => 10 case ICutAlt => 11
    case ICutIndex => 12 case ICutClose => 13 case ICut => 14 case ISave => 15 case IAltClear => 16 case IOpen => 17
    case IStore => 18 case ILoad => 19 case ISlotEnd => 20 case ISlot => 21 case INum => 22 case IMark => 23
    case IAlt => 24 case IRelease => 25 case ISpin => 26 + Bit(w.valid) case IInvalid => 28
    case ICopy => if x.copied <= BRAM_SIZE then 29 + (BRAM_SIZE - x.copied) else 29
    case IValid => 9000 case IIndexed => 9001
  }

  predicate IndexHaltingIn(stop: bool, x: IndexThread) {
    (stop || x.pc.IStopClose?) && x.recv == 0 && x.copied <= BRAM_SIZE <= |x.buf|
  }

  predicate IndexCloser(s: State, x: IndexThread, w: Write) {
    var stop := RegistersAfter(s.rg, w).syStop;
    && (stop || x.pc.IStopClose?)
    && IndexHaltDistance(x, stop, LinesAfter(s.hw, w)) < IndexHaltDistance(s.sy, s.rg.syStop, s.hw)
  }

  lemma IndexIdleCloser(pc: IndexPc, s: State, e: Env)
    requires pc == s.sy.pc && !pc.Active() && IndexHaltingIn(s.rg.syStop, s.sy) && !(pc.IStopClose? && !s.rg.syStop)
    ensures IndexCloser(s, IndexIdle(s, e).0, IndexIdle(s, e).1)
  {
  }

  lemma IndexTakeCloser(pc: IndexPc, s: State, e: Env)
    requires pc == s.sy.pc && pc.Active() && pc.Taking() && s.rg.syStop && IndexHaltingIn(s.rg.syStop, s.sy)
    requires !(pc.ISpin? && s.hw.valid)
    ensures IndexCloser(s, IndexTake(s, e).0, IndexTake(s, e).1)
  {
  }

  lemma IndexNameCloser(pc: IndexPc, s: State, e: Env)
    requires pc == s.sy.pc && pc.Active() && !pc.Taking() && pc.Naming() && s.rg.syStop
    ensures IndexCloser(s, IndexName(s, e).0, IndexName(s, e).1)
  {
  }

  lemma IndexSaveCloser(pc: IndexPc, s: State, e: Env)
    requires pc == s.sy.pc && pc.Active() && !pc.Taking() && !pc.Naming() && s.rg.syStop
    ensures IndexCloser(s, IndexSave(s, e).0, IndexSave(s, e).1)
  {
  }

  lemma IndexCloses(s: State, e: Env)
    requires s.sy.pc.IStopClose?
    ensures var (x, w) := IndexIdle(s, e);
      x.pc.IIndexed? && !x.busy && TableAfter(s.os, Sy, w).sy == CLOSED && RegistersAfter(s.rg, w) == s.rg
  {
  }

  lemma IndexHaltStep(pc: IndexPc, s: State, e: Env)
    requires pc == s.sy.pc && IndexHaltingIn(s.rg.syStop, s.sy) && !(pc.ISpin? && s.hw.valid)
    ensures var t := IndexNext(s, e);
      if pc.IStopClose? && !s.rg.syStop then t.sy.pc.IIndexed? && !t.rg.syStop && t.os.sy == CLOSED && !t.sy.busy
      else && (t.rg.syStop || t.sy.pc.IStopClose?)
           && IndexHaltDistance(t.sy, t.rg.syStop, t.hw) < IndexHaltDistance(s.sy, s.rg.syStop, s.hw)
  {
    hide IndexNext, IndexIdle, IndexTake, IndexName, IndexSave, IndexHaltDistance;
    IndexStores(s, e);
    if pc.IStopClose? && !s.rg.syStop { IndexCloses(s, e); }
    else if !pc.Active() { IndexIdleCloser(pc, s, e); }
    else if pc.Taking() { IndexTakeCloser(pc, s, e); }
    else if pc.Naming() { IndexNameCloser(pc, s, e); }
    else { IndexSaveCloser(pc, s, e); }
  }

  lemma ConsumeCloser(s: State)
    requires s.sy.pc.ISpin? && s.hw.valid && IndexPages.Paged(s)
    ensures var t := s.(hw := HardwareStep(s.hw, Consume));
      IndexHaltDistance(t.sy, t.rg.syStop, t.hw) < IndexHaltDistance(s.sy, s.rg.syStop, s.hw)
  {
    hide Armed, IndexPages.BusyWhen, IndexPages.Local;
  }

  lemma {:induction false} IndexHaltsFrom(boot: Boot, s: State, t: State, e: Env) returns (u: State)
    requires Path(boot, s, t) && (t.rg.syStop || t.sy.pc.IStopClose?)
    ensures Path(boot, s, u) && u.sy.pc.IIndexed? && !u.rg.syStop && u.os.sy == CLOSED && !u.sy.busy
    decreases IndexHaltDistance(t.sy, t.rg.syStop, t.hw)
  {
    Invariants(boot, t);
    hide Reachable, Leads, Armed, IndexNext, IndexHaltDistance, HardwareStep;
    IndexPages.StagedCopies(t);
    assert IndexHaltingIn(t.rg.syStop, t.sy);
    if t.sy.pc.ISpin? && t.hw.valid {
      ConsumeCloser(t);
      u := MoveHardware(boot, s, t, Consume);
      u := IndexHaltsFrom(boot, s, u, e);
    } else {
      IndexHaltStep(t.sy.pc, t, e);
      u := MoveIndex(boot, s, t, e);
      if !(t.sy.pc.IStopClose? && !t.rg.syStop) { u := IndexHaltsFrom(boot, s, u, e); }
    }
  }

  // ---------- the pulse receiver ----------

  function PulseHaltDistance(pc: PulsePc, stop: bool): nat {
    match pc
    case LStopClose => if stop then 34 else 1
    case LStopAck => 2 case LStopRemove => 3 case LStopZero => 4 case LStopSeek => 5 case LStop => 6
    case LFirstMark => 7 case LStarClear => 8 case LFirstInc => 9 case LMnReset => 10 case LSyReset => 11
    case LFirstOpen => 12 case LFirstEnd => 13 case LFirstBegin => 14 case LNumReset => 15 case LReset => 16
    case LHead => 17 case LStoredSet => 18 case LSliceClear => 19 case LMark => 20 case LOpen => 21 case LInc => 22
    case LSlotEnd => 23 case LSlotBegin => 24 case LClose => 25 case LPad => 26 case LDrain => 27 case LCut => 28
    case LFull => 29 case LDma => 30 case LFifo => 31 case LStored => 32
  }

  predicate PulseHalting(stop: bool, pc: PulsePc) { stop || pc.LStopClose? }

  predicate PulseCloser(s: State, p: PulseThread, w: Write) {
    var stop := RegistersAfter(s.rg, w).lsStop;
    PulseHalting(stop, p.pc) && PulseHaltDistance(p.pc, stop) < PulseHaltDistance(s.ls.pc, s.rg.lsStop)
  }

  lemma StartCloser(pc: PulsePc, s: State, e: Env)
    requires pc == s.ls.pc && pc.Commanded() && s.rg.lsStop && (pc.LFirstOpen? ==> s.os.Free(e.fd))
    ensures PulseCloser(s, PulseStart(s, e).0, PulseStart(s, e).1)
  {
    hide Naming.BaseName;
  }

  lemma MovingCloser(pc: PulsePc, s: State, e: Env)
    requires pc == s.ls.pc && pc.Moving() && PulseHalting(s.rg.lsStop, pc) && !(pc.LStopClose? && !s.rg.lsStop)
    ensures PulseCloser(s, PulseMove(s, e).0, PulseMove(s, e).1)
  {
  }

  lemma TurnCloser(pc: PulsePc, s: State, e: Env)
    requires pc == s.ls.pc && !pc.Commanded() && !pc.Moving() && s.rg.lsStop
    ensures PulseCloser(s, PulseTurn(s, e).0, PulseTurn(s, e).1)
  {
    hide Naming.BaseName;
  }

  lemma PulseCloses(s: State, e: Env)
    requires s.ls.pc.LStopClose?
    ensures var (p, w) := PulseMove(s, e);
      p.pc.LStored? && TableAfter(s.os, Ls, w).ls == CLOSED && RegistersAfter(s.rg, w) == s.rg
  {
  }

  lemma PulseHaltStep(pc: PulsePc, s: State, e: Env)
    requires pc == s.ls.pc && PulseHalting(s.rg.lsStop, pc) && (pc.LFirstOpen? ==> s.os.Free(e.fd))
    ensures var t := PulseNext(s, e);
      if pc.LStopClose? && !s.rg.lsStop then t.ls.pc.LStored? && !t.rg.lsStop && t.os.ls == CLOSED
      else && PulseHalting(t.rg.lsStop, t.ls.pc)
           && PulseHaltDistance(t.ls.pc, t.rg.lsStop) < PulseHaltDistance(pc, s.rg.lsStop)
  {
    hide PulseNext, PulseStart, PulseMove, PulseTurn, PulseHaltDistance;
    PulseStores(s, e);
    if pc.LStopClose? && !s.rg.lsStop { PulseCloses(s, e); }
    else if pc.Commanded() { StartCloser(pc, s, e); }
    else if pc.Moving() { MovingCloser(pc, s, e); }
    else { TurnCloser(pc, s, e); }
  }

  // A number stays free up to the open of a START that may be pending.
  lemma StaysFree(pc: PulsePc, s: State, e: Env, n: int)
    requires pc == s.ls.pc && s.os.Free(n) && (pc.LOpen? ==> e.fd < 0) && !pc.LFirstOpen?
    ensures PulseNext(s, e).os.Free(n)
  {
    hide PulseNext, TableAfter;
    PulseStores(s, e);
    OpensNothing(pc, s, e);
    var w := PulseStep(s, e).1;
    if w == Sys(OpenAt(-1), 0) { FailedOpen(s.os, n); } else { FreeAfter(s.os, Ls, w, n); }
  }

  lemma OpensNothing(pc: PulsePc, s: State, e: Env)
    requires pc == s.ls.pc && (pc.LOpen? ==> e.fd < 0) && !pc.LFirstOpen?
    ensures var w := PulseStep(s, e).1; w.Sys? && w.call.OpenAt? ==> w == Sys(OpenAt(-1), 0)
  {
    hide Naming.BaseName;
  }

  lemma FailedOpen(os: Table, n: int)
    requires os.Free(n)
    ensures TableAfter(os, Ls, Sys(OpenAt(-1), 0)).Free(n)
  {
  }

  // No open but that of a START succeeds.
  function Sparing(pc: PulsePc, n: int): Env { Environment(if pc.LFirstOpen? then n else -1) }

  lemma {:induction false} PulseHaltsFrom(boot: Boot, s: State, t: State, n: int) returns (u: State)
    requires PathOn(boot, s, t) && PulseHalting(t.rg.lsStop, t.ls.pc)
    requires t.os.Free(n) || PulseHaltDistance(t.ls.pc, t.rg.lsStop) < 12
    ensures PathOn(boot, s, u) && u.ls.pc.LStored? && !u.rg.lsStop && u.os.ls == CLOSED
    decreases PulseHaltDistance(t.ls.pc, t.rg.lsStop)
  {
    hide PathOn, PulseNext, Table.Free;
    var pc, e := t.ls.pc, Sparing(t.ls.pc, n);
    PulseHaltStep(pc, t, e);
    if t.os.Free(n) && !pc.LFirstOpen? { StaysFree(pc, t, e, n); }
    hide PulseHaltDistance;
    FirstOpenHalts(pc, t.rg.lsStop);
    u := MovePulse(boot, s, t, e);
    if !(pc.LStopClose? && !t.rg.lsStop) { u := PulseHaltsFrom(boot, s, u, n); }
  }

  lemma FirstOpenHalts(pc: PulsePc, stop: bool)
    ensures pc.LFirstOpen? ==> PulseHaltDistance(pc, stop) == 12
  {
  }

  // ---------- together ----------

  // Whatever everybody is doing: with its stop register 1, each receiver comes, by its own
  // steps and, for the index receiver, those of the hardware, to finish a STOP: the register is
  // 0, and the file it had is closed. The pulse receiver may need a number for a START that is
  // pending.
  lemma {:induction false} StopIsObeyed(boot: Boot, steps: seq<Step>)
    ensures var s := Exec(Init(boot), steps);
      && (s.rg.mnStop ==>
            exists u :: Leads(s, u) && u.mn.pc.MStored? && !u.rg.mnStop && u.os.mn == CLOSED && !u.mn.busy)
      && (s.rg.syStop ==>
            exists u :: Leads(s, u) && u.sy.pc.IIndexed? && !u.rg.syStop && u.os.sy == CLOSED && !u.sy.busy)
      && (s.rg.lsStop && NumberFree(s) ==>
            exists u :: LeadsOn(s, u) && u.ls.pc.LStored? && !u.rg.lsStop && u.os.ls == CLOSED)
  {
    hide Exec, Leads, LeadsOn, Reachable, Table.Free;
    var s := Exec(Init(boot), steps);
    assert Reachable(boot, s) by { hide *; Reaches(boot, steps); }
    Stay(boot, s);
    StayOn(boot, s);
    if s.rg.mnStop { var u := MainHaltsFrom(boot, s, s, Environment(-1)); }
    if s.rg.syStop { var u := IndexHaltsFrom(boot, s, s, Environment(-1)); }
    if s.rg.lsStop && NumberFree(s) {
      var n :| s.os.Free(n);
      var u := PulseHaltsFrom(boot, s, s, n);
    }
  }

  lemma Reaches(boot: Boot, steps: seq<Step>)
    ensures Reachable(boot, Exec(Init(boot), steps))
  {
    hide Exec, Init;
  }

  // ---------- zero_mark (src/store.c:463, 509-514) ----------

  // It is 1 from a STOP that found the pulse file empty until the next START.
  lemma ZeroMarkStep(s: State, st: Step)
    ensures Next(s, st).nm.zeroMark ==
      ((st.LsStep? && s.ls.pc.LStopZero?) || (s.nm.zeroMark && !(st.LsStep? && s.ls.pc.LReset?)))
  {
    hide MainNext, IndexNext, PulseNext, ControlNext, MainStep, IndexStep, PulseStep, ControlStep, NamesAfter,
         FlagsAfter, RegistersAfter, LinesAfter, TableAfter;
    match st
    case MnStep(e) => MainTouches(s.mn.pc, s, e);
    case SyStep(e) => Companions.IndexLeavesNames(s.sy.pc, s, e); IndexStores(s, e);
    case LsStep(e) => PulseZero(s.ls.pc, s, e); PulseStores(s, e);
    case CtStep(e) => Companions.ControlLeavesNames(s.ct.pc, s, e); ControlStores(s, e);
    case _ => OutsideZero(s, st);
  }

  lemma OutsideZero(s: State, st: Step)
    requires st.Net? || st.Hw? || st.Other?
    ensures Next(s, st).nm.zeroMark == s.nm.zeroMark
  {
  }

  lemma PulseZero(pc: PulsePc, s: State, e: Env)
    requires pc == s.ls.pc
    ensures NamesAfter(s.nm, PulseStep(s, e).1).zeroMark == (pc.LStopZero? || (s.nm.zeroMark && !pc.LReset?))
  {
    hide Naming.BaseName;
  }

  // A STOP that finds the file of the pulse receiver open and empty marks that, notes which
  // slice it was and removes the file by name; one that finds bytes in it does none of this.
  lemma {:induction false} EmptyIsMarked(boot: Boot, steps: seq<Step>, e: Env)
    ensures var s := Exec(Init(boot), steps);
      s.ls.pc.LStopSeek? && s.os.ls.Holds(s.ls.data.fd) ==>
        var t := PulseNext(s, e); var u := PulseNext(PulseNext(t, e), e);
        var sought := s.ls.data.calls + [SeekAt(s.ls.data.fd)];
        if s.os.ls.bytes == [] then
          && u.ls.pc.LStopAck? && u.nm.zeroMark && u.ls.emptyBase == s.ls.base && u.ls.emptyNum == s.nm.lsNum
          && u.ls.data.calls == sought + [Remove]
        else t.ls.pc.LStopAck? && t.nm == s.nm && t.ls.data.calls == sought
  {
    var s := Exec(Init(boot), steps);
    Ownership.HomesRun(boot, steps);
    hide Exec;
    if s.ls.pc.LStopSeek? && s.os.ls.Holds(s.ls.data.fd) { Seeks(s, e); }
    hide PulseNext, Ownership.Homes;
  }

  lemma Seeks(s: State, e: Env)
    requires s.ls.pc.LStopSeek? && s.os.ls.Holds(s.ls.data.fd) && s.os.Distinct()
    ensures var t := PulseNext(s, e); var u := PulseNext(PulseNext(t, e), e);
      var sought := s.ls.data.calls + [SeekAt(s.ls.data.fd)];
      if s.os.ls.bytes == [] then
        && u.ls.pc.LStopAck? && u.nm.zeroMark && u.ls.emptyBase == s.ls.base && u.ls.emptyNum == s.nm.lsNum
        && u.ls.data.calls == sought + [Remove]
      else t.ls.pc.LStopAck? && t.nm == s.nm && t.ls.data.calls == sought
  {
    Seek(s, e);
    hide PulseNext, Table.Empty;
    if s.os.ls.bytes == [] {
      Zeroes(PulseNext(s, e), e);
      Removes(PulseNext(PulseNext(s, e), e), e);
    }
  }

  lemma Seek(s: State, e: Env)
    requires s.ls.pc.LStopSeek? && s.os.ls.Holds(s.ls.data.fd) && s.os.Distinct()
    ensures var t := PulseNext(s, e);
      && t.nm == s.nm && t.ls.base == s.ls.base && t.ls.data.calls == s.ls.data.calls + [SeekAt(s.ls.data.fd)]
      && t.ls.pc == if s.os.ls.bytes == [] then LStopZero else LStopAck
  {
  }

  lemma Zeroes(s: State, e: Env)
    requires s.ls.pc.LStopZero?
    ensures var t := PulseNext(s, e);
      && t.ls.pc.LStopRemove? && t.nm == s.nm.(zeroMark := true) && t.ls.data == s.ls.data
      && t.ls.emptyBase == s.ls.base && t.ls.emptyNum == s.nm.lsNum
  {
  }

  lemma Removes(s: State, e: Env)
    requires s.ls.pc.LStopRemove?
    ensures var t := PulseNext(s, e);
      && t.ls.pc.LStopAck? && t.nm == s.nm && t.ls.data.calls == s.ls.data.calls + [Remove]
      && t.ls.emptyBase == s.ls.emptyBase && t.ls.emptyNum == s.ls.emptyNum
  {
  }
}
