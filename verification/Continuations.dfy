// What the threads and the hardware can do from a reachable state on their own, without
// another command: finish a generation, be armed again and open the next main file
// (src/store.c:187-243, 284-347, 366-438). It shows what one FILE_MARK token too many leads to.
module Continuations {
  import opened Common
  import Naming
  import opened Descriptors
  import opened Protocol
  import opened Frames
  import opened Barrier
  import opened Companions
  import Cuts
  import IndexPages
  import Ownership

  // ---------- runs of the threads and the hardware ----------

  predicate OwnStep(st: Step) { st.MnStep? || st.SyStep? || st.CtStep? || st.Hw? }

  ghost predicate Leads(s: State, t: State) {
    exists steps: seq<Step> :: (forall st <- steps :: OwnStep(st)) && Exec(s, steps) == t
  }

  // A run from s to t, which is reachable.
  ghost predicate Path(boot: Boot, s: State, t: State) { Reachable(boot, t) && Leads(s, t) }

  lemma Stay(boot: Boot, s: State)
    requires Reachable(boot, s)
    ensures Path(boot, s, s)
  {
    hide Reachable;
    assert Exec(s, []) == s;
  }

  lemma Move(boot: Boot, s: State, t: State, st: Step) returns (u: State)
    requires Path(boot, s, t) && OwnStep(st)
    ensures u == Next(t, st) && Path(boot, s, u)
  {
    hide Reachable, Next;
    u := Go(boot, t, st);
    var steps: seq<Step> :| (forall st <- steps :: OwnStep(st)) && Exec(s, steps) == t;
    var more := steps + [st];
    assert more[..|steps|] == steps;
    assert Exec(s, more) == u;
  }

  lemma MoveMain(boot: Boot, s: State, t: State, e: Env) returns (u: State)
    requires Path(boot, s, t)
    ensures u == MainNext(t, e) && Path(boot, s, u)
  {
    hide Path, MainNext;
    u := Move(boot, s, t, MnStep(e));
  }

  lemma MoveIndex(boot: Boot, s: State, t: State, e: Env) returns (u: State)
    requires Path(boot, s, t)
    ensures u == IndexNext(t, e) && Path(boot, s, u)
  {
    hide Path, IndexNext;
    u := Move(boot, s, t, SyStep(e));
  }

  lemma MoveControl(boot: Boot, s: State, t: State, e: Env) returns (u: State)
    requires Path(boot, s, t)
    ensures u == ControlNext(t, e) && Path(boot, s, u)
  {
    hide Path, ControlNext;
    u := Move(boot, s, t, CtStep(e));
  }

  lemma MoveHardware(boot: Boot, s: State, t: State, signal: Signal) returns (u: State)
    requires Path(boot, s, t)
    ensures u == t.(hw := HardwareStep(t.hw, signal)) && Path(boot, s, u)
  {
    hide Path, HardwareStep;
    u := Move(boot, s, t, Hw(signal));
  }

  lemma Invariants(boot: Boot, s: State)
    requires Reachable(boot, s)
    ensures Armed(s) && Cuts.Cut(s) && IndexPages.Paged(s) && Named(s)
  {
    var steps :| Exec(Init(boot), steps) == s;
    hide Exec, Init, Armed, Cuts.Cut, IndexPages.Paged, Named;
    ArmedRun(boot, steps);
    Cuts.CutRun(boot, steps);
    IndexPages.PagedRun(boot, steps);
    NamedRun(boot, steps);
  }

  // ---------- the control thread ----------

  // Only the control thread and the hardware have moved.
  predicate Aside(s: State, t: State) {
    && t.mn == s.mn && t.sy == s.sy && t.ls == s.ls && t.nm == s.nm && t.rg == s.rg && t.se == s.se && t.os == s.os
  }

  // ... and nothing was granted.
  predicate Ungranted(s: State, t: State) {
    && Aside(s, t) && t.ct.count0 == s.ct.count0
    && t.fl.stored0 == s.fl.stored0 && t.fl.indexed0 == s.fl.indexed0
    && t.fl.sliceAlt0 == s.fl.sliceAlt0 && t.fl.indexAlt0 == s.fl.indexAlt0
    && (s.fl.slice0 ==> t.fl.slice0) && (s.fl.index0 ==> t.fl.index0)
  }

  // A re-arming is decided on, and chan_stored[0] not cleared yet.
  predicate Granted(pc: ControlPc) { pc.Rearming() && !pc.CIndexed0? }

  lemma LastRearmStep(s: State, e: Env)
    requires s.ct.pc.CIndexed0?
    ensures var t := ControlNext(s, e); Aside(s, t) && t.ct.pc.CStored1? && t.ct.count0 == s.ct.count0 + 1
  {
  }

  // The last step of a re-arming, if it is under way.
  lemma FinishRearming(boot: Boot, s: State, t: State, e: Env) returns (u: State)
    requires Path(boot, s, t) && !Granted(t.ct.pc)
    ensures Path(boot, s, u) && Aside(t, u) && !u.ct.pc.Rearming()
    ensures u.ct.count0 == t.ct.count0 + Bit(t.ct.pc.CIndexed0?)
  {
    hide ControlNext, Path;
    u := t;
    if t.ct.pc.CIndexed0? {
      LastRearmStep(t, e);
      u := MoveControl(boot, s, t, e);
    }
  }

  // Steps to the next look for a cut on channel 0, once round the loop, without a re-arming.
  function Rank(c: Control, w: Hardware): nat {
    match c.pc
    case CReq0 => 0 case CStoredClear1 => 1 case CAlt1 => 2 case CStored1 => 3 case CFlow => 4 case CStored => 5
    case CIndexed => 6 case CSliceSet1 => 7 case CRelease1 => 8 case CSpin1 => 9 + Bit(w.req1) case CAck1 => 11
    case CReq1 => 12 case CSliceSet0 => 13 case CIndexSet => 14 case CRelease0 => 15 case CSpin0 => 16 + Bit(w.req0)
    case CAck0 => 18
    case _ => 20
  }

  ghost predicate Served(s: State, t: State) {
    var a, b := Rank(s.ct, s.hw), Rank(t.ct, t.hw);
    && Ungranted(s, t) && b < a && (a > 6 ==> b >= 6) && (a > 12 ==> b >= 12)
    && (a > 12 && b == 12 ==> a == 13) && (b == 13 ==> a == 14)
    && (s.ct.pc.CIndexSet? ==> t.fl.index0) && (s.ct.pc.CSliceSet0? ==> t.fl.slice0)
    && (6 < a < 12 && b == 6 ==> t.fl.slice1) && (s.fl.slice1 ==> t.fl.slice1)
    && (t.fl.stored1 ==> s.fl.stored1)
  }

  lemma GrantStep(pc: ControlPc, s: State, e: Env)
    requires pc == s.ct.pc && pc.Granting() && 0 < Rank(s.ct, s.hw) < 20 && !e.flow
    ensures Served(s, ControlNext(s, e))
  {
    Skips(pc, s, e);
    hide ControlNext, ControlRearm, ControlCut, NamesAfter, RegistersAfter, FlagsAfter, LinesAfter, Rank;
    ControlStores(s, e);
    ControlLeavesNames(pc, s, e);
    Ownership.ControlWrites(pc, s, e);
  }

  // Without flow control nothing is granted on channel 0.
  lemma Skips(pc: ControlPc, s: State, e: Env)
    requires pc == s.ct.pc && pc.Granting() && 0 < Rank(s.ct, s.hw) < 20 && !e.flow
    ensures var (c, w) := ControlRearm(s, e); var f := FlagsAfter(s.fl, w);
      && Rank(c, s.hw) < Rank(s.ct, s.hw) <= 6 && LinesAfter(s.hw, w) == s.hw && c.count0 == s.ct.count0
      && f == s.fl.(sliceAlt1 := f.sliceAlt1, stored1 := f.stored1) && (f.stored1 ==> s.fl.stored1)
      && !pc.CIndexSet? && !pc.CSliceSet0?
  {
  }

  lemma RankFalls(pc: ControlPc, s: State, e: Env)
    requires pc == s.ct.pc && 6 < Rank(s.ct, s.hw) < 20 && !(pc.CSpin0? && s.hw.req0) && !(pc.CSpin1? && s.hw.req1)
    ensures var (c, w) := ControlCut(s, e); var a, b := Rank(s.ct, s.hw), Rank(c, LinesAfter(s.hw, w));
      && !pc.Granting() && 6 <= b < a && (a > 12 ==> b >= 12)
      && (a > 12 && b == 12 ==> a == 13) && (b == 13 ==> a == 14) && (6 < a < 12 && b == 6 ==> pc.CSliceSet1?)
  {
  }

  lemma CutMove(pc: ControlPc, s: State, e: Env)
    requires pc == s.ct.pc && 6 < Rank(s.ct, s.hw) < 20 && !(pc.CSpin0? && s.hw.req0) && !(pc.CSpin1? && s.hw.req1)
    ensures Served(s, ControlNext(s, e))
  {
    RankFalls(pc, s, e);
    hide ControlNext, ControlRearm, NamesAfter, RegistersAfter, Rank;
    ControlStores(s, e);
    ControlLeavesNames(pc, s, e);
    Ownership.ControlWrites(pc, s, e);
  }

  // The hardware lowers a request that is being acknowledged.
  lemma LowerStep(s: State)
    requires Cuts.Cut(s) && ((s.ct.pc.CSpin0? && s.hw.req0) || (s.ct.pc.CSpin1? && s.hw.req1))
    ensures Served(s, s.(hw := HardwareStep(s.hw, if s.ct.pc.CSpin0? then Lower0 else Lower1)))
  {
  }

  lemma Serves(boot: Boot, s: State, t: State, e: Env) returns (u: State)
    requires Path(boot, s, t) && 0 < Rank(t.ct, t.hw) < 20 && !e.flow
    ensures Path(boot, s, u) && Served(t, u)
  {
    Invariants(boot, t);
    hide ControlNext, Reachable, Leads, Served, HardwareStep, Armed, IndexPages.Paged, Named;
    if (t.ct.pc.CSpin0? && t.hw.req0) || (t.ct.pc.CSpin1? && t.hw.req1) {
      LowerStep(t);
      u := MoveHardware(boot, s, t, if t.ct.pc.CSpin0? then Lower0 else Lower1);
    } else {
      if Rank(t.ct, t.hw) > 6 { CutMove(t.ct.pc, t, e); } else { GrantStep(t.ct.pc, t, e); }
      u := MoveControl(boot, s, t, e);
    }
  }

  lemma {:induction false} ServesDownTo(boot: Boot, s: State, t: State, e: Env, goal: nat) returns (u: State)
    requires Path(boot, s, t) && goal <= Rank(t.ct, t.hw) < 20 && !e.flow
    requires goal == 0 || goal == 6 || goal == 12
    ensures Path(boot, s, u) && Ungranted(t, u) && Rank(u.ct, u.hw) == goal && (t.fl.slice1 ==> u.fl.slice1)
    ensures u.fl.stored1 ==> t.fl.stored1
    decreases Rank(t.ct, t.hw)
  {
    hide Path, Rank;
    u := t;
    if Rank(t.ct, t.hw) > goal {
      u := Serves(boot, s, t, e);
      u := ServesDownTo(boot, s, u, e, goal);
    }
  }

  lemma {:induction false} Latches(boot: Boot, s: State, t: State, e: Env) returns (u: State)
    requires Path(boot, s, t) && 12 <= Rank(t.ct, t.hw) < 20 && !e.flow
    requires (t.ct.pc.CSliceSet0? ==> t.fl.index0) && (t.ct.pc.CReq1? ==> t.fl.index0 && t.fl.slice0)
    ensures Path(boot, s, u) && Ungranted(t, u) && u.ct.pc.CReq1? && u.fl.index0 && u.fl.slice0
    decreases Rank(t.ct, t.hw)
  {
    hide Path;
    u := t;
    if !t.ct.pc.CReq1? {
      u := Serves(boot, s, t, e);
      u := Latches(boot, s, u, e);
    }
  }

  lemma Requested(s: State, e: Env)
    requires s.ct.pc.CReq0? && s.hw.req0
    ensures var t := ControlNext(s, e); Ungranted(s, t) && t.ct.pc.CAck0?
  {
  }

  lemma RaiseStep(s: State)
    requires s.ct.pc.CReq0? && !s.hw.req0 && Cuts.Cut(s)
    ensures var t := s.(hw := HardwareStep(s.hw, Raise0)); t.hw.req0 && Ungranted(s, t)
  {
  }

  // The hardware raises a cut on channel 0, unless there is one, and it is latched.
  lemma LatchCut(boot: Boot, s: State, t: State, e: Env) returns (u: State)
    requires Path(boot, s, t) && !t.ct.pc.Rearming() && !e.flow
    ensures Path(boot, s, u) && Ungranted(t, u) && u.ct.pc.CReq1? && u.fl.index0 && u.fl.slice0
  {
    var r := ServesDownTo(boot, s, t, e, 0);
    assert r.ct.pc.CReq0?;
    hide Path, ControlNext, Rank;
    var v := Raises(boot, s, r);
    Requested(v, e);
    var w := MoveControl(boot, s, v, e);
    assert 12 <= Rank(w.ct, w.hw) < 20 by { Acknowledges(w.ct, w.hw); }
    u := Latches(boot, s, w, e);
  }

  lemma Raises(boot: Boot, s: State, t: State) returns (u: State)
    requires Path(boot, s, t) && t.ct.pc.CReq0?
    ensures Path(boot, s, u) && Ungranted(t, u) && u.ct.pc.CReq0? && u.hw.req0
  {
    hide Reachable, Leads, Armed, IndexPages.Paged, Named, Cuts.Cut, HardwareStep;
    u := t;
    if !t.hw.req0 {
      Invariants(boot, t);
      RaiseStep(t);
      u := MoveHardware(boot, s, t, Raise0);
    }
  }

  lemma Acknowledges(c: Control, w: Hardware)
    requires c.pc.CAck0?
    ensures Rank(c, w) == 18
  {
  }

  // ---------- the main receiver ----------

  // Steps to its next open or to its waiting with chan_stored[0] set; a cut is latched.
  function MainDistance(pc: MainPc, stored: bool): nat {
    match pc
    case MWait => if stored then 20 else 75 case MHead => if stored then 19 else 74
    case MStopZero => 18 case MStopNum => 17 case MStopCompare => 16 case MStopSlice => 15 case MStopStored => 14
    case MStopAck => if stored then 13 else 61 case MStopClose => if stored then 12 else 60
    case MStored => if stored then 0 else 59
    case MAlt => 58 case MMark => 57
    case MNum => 56 case MSlot => 55 case MSlotEnd => 54 case MLoad => 53 case MStore => 52
    case MFifo => 50 case MAltAgain => 49 case MDma => 48 case MFull => 47 case MCut => 46 case MDrain => 45
    case MClose => 44 case MSliceClear => 43 case MStoredSet => 42
    case _ => 0
  }

  // It will not get past its test for a cut without setting chan_stored[0].
  predicate EndingIn(f: Flags, m: MainThread, n: Names) {
    && (m.pc.Active() ==> !f.stored0) && (f.stored0 || f.slice0 || m.pc.MStopStored? || m.pc.MStoredSet?)
    && !m.pc.MOpen? && !m.pc.MAltClear? && !m.pc.MMarkSet?
    && (m.pc.Numbering() && m.pc.HoldsNumber() ==> m.reg == n.mnNum)
  }

  predicate Ending(s: State) { EndingIn(s.fl, s.mn, s.nm) }

  // One step nearer to an open, or to the end of the generation.
  ghost predicate Nears(s: State, m: MainThread, w: Write) {
    var f, n := FlagsAfter(s.fl, w), NamesAfter(s.nm, w);
    if s.mn.pc.MStore? then m.pc.MOpen? && n.mnNum == s.nm.mnNum + 1
    else EndingIn(f, m, n) && n.mnNum == s.nm.mnNum && RegistersAfter(s.rg, w).fileMark == s.rg.fileMark
         && MainDistance(m.pc, f.stored0) < MainDistance(s.mn.pc, s.fl.stored0)
  }

  // The next program point of an idle step, and the flag it writes.
  lemma IdleSteps(pc: MainPc, s: State, e: Env)
    requires pc == s.mn.pc && !pc.Active() && e.flow
    ensures var (m, w) := MainIdle(s, e);
      && m.pc == (match pc
                  case MWait => MHead
                  case MHead => if s.rg.mnStop then MStopZero else MStored
                  case MStopZero => if s.nm.zeroMark then MStopNum else MStopSlice
                  case MStopNum => MStopCompare case MStopCompare => MStopSlice case MStopSlice => MStopStored
                  case MStopStored => MStopAck case MStopAck => MStopClose case MStopClose => MStored
                  case _ => if s.fl.stored0 then MHead else MAlt)
      && NamesAfter(s.nm, w) == s.nm && RegistersAfter(s.rg, w).fileMark == s.rg.fileMark
      && FlagsAfter(s.fl, w).stored0 == (s.fl.stored0 || pc.MStopStored?)
      && FlagsAfter(s.fl, w).slice0 == (s.fl.slice0 && !pc.MStopSlice?)
  {
  }

  lemma IdleNears(pc: MainPc, s: State, e: Env)
    requires pc == s.mn.pc && !pc.Active() && Ending(s) && e.flow && !(pc.MStored? && s.fl.stored0)
    ensures Nears(s, MainIdle(s, e).0, MainIdle(s, e).1)
  {
    hide MainIdle, FlagsAfter, NamesAfter, RegistersAfter;
    IdleSteps(pc, s, e);
  }

  lemma NameNears(pc: MainPc, s: State, e: Env)
    requires pc == s.mn.pc && pc.Naming() && Ending(s)
    ensures Nears(s, MainName(s, e).0, MainName(s, e).1)
  {
    hide MainIdle, MainMove;
    if !pc.MStore? { NameSteps(pc, s, e); hide MainName, FlagsAfter, NamesAfter, RegistersAfter; }
  }

  lemma NameSteps(pc: MainPc, s: State, e: Env)
    requires pc == s.mn.pc && pc.Naming() && Ending(s) && !pc.MStore?
    ensures var (m, w) := MainName(s, e);
      && m.pc == (match pc
                  case MAlt => if s.fl.sliceAlt0 then MMark else MFifo
                  case MMark => if s.rg.fileMark then MFifo else MNum
                  case MNum => MSlot case MSlot => MSlotEnd case MSlotEnd => MLoad case _ => MStore)
      && (m.pc.HoldsNumber() ==> m.reg == s.nm.mnNum) && w == Nothing
  {
  }

  lemma MoveSteps(pc: MainPc, s: State, e: Env)
    requires pc == s.mn.pc && pc.Active() && !pc.Naming()
    ensures var (m, w) := MainMove(s, e);
      && m.pc == (match pc
                  case MFifo => if e.fifo then MAltAgain else MFull
                  case MAltAgain => if s.fl.sliceAlt0 then MFull else MDma
                  case MDma => MFull case MFull => MCut
                  case MCut => if s.fl.slice0 then MDrain else MHead
                  case MDrain => MClose case MClose => MSliceClear case MSliceClear => MStoredSet
                  case _ => MHead)
      && FlagsAfter(s.fl, w).stored0 == (s.fl.stored0 || pc.MStoredSet?)
      && FlagsAfter(s.fl, w).slice0 == (s.fl.slice0 && !pc.MSliceClear?)
  {
  }

  lemma MoveNears(pc: MainPc, s: State, e: Env)
    requires pc == s.mn.pc && pc.Active() && !pc.Naming() && Ending(s)
    ensures Nears(s, MainMove(s, e).0, MainMove(s, e).1)
  {
    MoveLeaves(pc, s, e);
    hide MainMove, FlagsAfter, NamesAfter, RegistersAfter;
    MoveSteps(pc, s, e);
  }

  // Only the main receiver has moved; the index flags are as before.
  ghost predicate Ahead(s: State, t: State) {
    && t.sy == s.sy && t.ls == s.ls && t.ct == s.ct && t.hw == s.hw && t.se.clean == s.se.clean
    && t.fl.index0 == s.fl.index0 && t.fl.indexed0 == s.fl.indexed0
    && t.nm.lsNum == s.nm.lsNum && Frees(s, t)
  }

  // No number is taken.
  ghost predicate Frees(s: State, t: State) { forall n :: s.os.Free(n) ==> t.os.Free(n) }

  lemma FreeAfter(os: Table, who: Who, w: Write, n: int)
    requires os.Free(n) && !(w.Sys? && w.call.OpenAt?)
    ensures TableAfter(os, who, w).Free(n)
  {
  }

  lemma MainFrees(pc: MainPc, s: State, e: Env)
    requires pc == s.mn.pc && !pc.MOpen?
    ensures !(MainStep(s, e).1.Sys? && MainStep(s, e).1.call.OpenAt?)
  {
  }

  lemma EndStep(pc: MainPc, s: State, e: Env)
    requires pc == s.mn.pc && Ending(s) && e.flow && !(pc.MStored? && s.fl.stored0)
    ensures var t := MainNext(s, e);
      && Ahead(s, t)
      && (if pc.MStore? then t.mn.pc.MOpen? && t.nm.mnNum == s.nm.mnNum + 1
          else && Ending(t) && t.nm.mnNum == s.nm.mnNum && t.rg.fileMark == s.rg.fileMark
               && MainDistance(t.mn.pc, t.fl.stored0) < MainDistance(pc, s.fl.stored0))
  {
    hide MainNext, MainIdle, MainName, MainMove, EndingIn, MainDistance, FlagsAfter, NamesAfter, RegistersAfter;
    MainStores(s, e);
    MainTouches(pc, s, e);
    assert !pc.MOpen? by { NotOpen(s); }
    MainFrees(pc, s, e);
    forall n | s.os.Free(n) ensures MainNext(s, e).os.Free(n) { FreeAfter(s.os, Mn, MainStep(s, e).1, n); }
    hide TableAfter;
    if !pc.Active() { IdleNears(pc, s, e); } else if pc.Naming() { NameNears(pc, s, e); } else { MoveNears(pc, s, e); }
  }

  // The main receiver, with a cut latched, comes to an open or ends its generation.
  lemma {:induction false} MainEnds(boot: Boot, s: State, t: State, e: Env) returns (u: State)
    requires Path(boot, s, t) && Ending(t) && e.flow
    ensures Path(boot, s, u) && Ahead(t, u)
    ensures if u.mn.pc.MOpen? then u.nm.mnNum == t.nm.mnNum + 1
            else u.mn.pc.MStored? && u.fl.stored0 && u.nm.mnNum == t.nm.mnNum && u.rg.fileMark == t.rg.fileMark
    decreases MainDistance(t.mn.pc, t.fl.stored0)
  {
    hide MainNext, Path, Ending, MainDistance;
    u := t;
    if !(t.mn.pc.MStored? && t.fl.stored0) {
      assert !t.mn.pc.MOpen? by { NotOpen(t); }
      EndStep(t.mn.pc, t, e);
      u := MoveMain(boot, s, t, e);
      if !t.mn.pc.MStore? { u := MainEnds(boot, s, u, e); }
    }
  }

  lemma NotOpen(s: State)
    requires Ending(s)
    ensures !s.mn.pc.MOpen?
  {
  }

  // ---------- the index receiver ----------

  // Steps to its setting of chan0_indexed; a cut is latched.
  function IndexDistance(x: IndexThread, w: Hardware): nat {
    match x.pc
    case IStopIndexed | ICutIndexed => 1 case IStopAlt | ICutAlt => 2 case IStopIndex | ICutIndex => 3
    case IStopCompare | ICutClose => 4 case IStopNum | ICut => 5 case IStopZero | ISave => 6
    case IAltClear => 7 case IOpen => 8 case IStore => 9 case ILoad => 10 case ISlotEnd => 11 case ISlot => 12
    case INum => 13 case IMark => 14 case IAlt => 15 case IRelease => 16 case ISpin => 17 + Bit(w.valid)
    case IInvalid => 19 case ICopy => if x.copied <= BRAM_SIZE then 20 + (BRAM_SIZE - x.copied) else 20
    case IValid => 9000 case IIndexed => 9001 case IStopClose => 9002 case IStopAck => 9003 case IHead => 9004
  }

  predicate IndexEndingIn(f: Flags, x: IndexThread) {
    && (f.index0 || x.pc.IStopAlt? || x.pc.IStopIndexed? || x.pc.ICutAlt? || x.pc.ICutIndexed?)
    && x.recv == 0 && (x.ret == 0 || x.ret == BRAM_SIZE) && x.copied <= BRAM_SIZE <= |x.buf|
  }

  ghost predicate IndexNears(s: State, x: IndexThread, w: Write) {
    var f := FlagsAfter(s.fl, w);
    f.indexed0 || (IndexEndingIn(f, x) && IndexDistance(x, LinesAfter(s.hw, w)) < IndexDistance(s.sy, s.hw))
  }

  lemma IndexIdleNears(pc: IndexPc, s: State, e: Env)
    requires pc == s.sy.pc && !pc.Active() && !s.fl.indexed0 && IndexEndingIn(s.fl, s.sy)
    ensures IndexNears(s, IndexIdle(s, e).0, IndexIdle(s, e).1)
  {
    StopStepsOn(pc, s, e);
    hide IndexIdle, FlagsAfter, LinesAfter;
  }

  lemma StopStepsOn(pc: IndexPc, s: State, e: Env)
    requires pc == s.sy.pc && !pc.Active()
    ensures var (x, w) := IndexIdle(s, e); var f := FlagsAfter(s.fl, w);
      && x.pc == (match pc
                  case IHead => if s.rg.syStop then IStopZero else IIndexed
                  case IStopZero => if s.nm.zeroMark then IStopNum else IStopIndex
                  case IStopNum => IStopCompare case IStopCompare => IStopIndex case IStopIndex => IStopAlt
                  case IStopAlt => IStopIndexed case IStopIndexed => IStopAck case IStopAck => IStopClose
                  case IStopClose => IIndexed case _ => if s.fl.indexed0 then IHead else IValid)
      && x.recv == (if pc.IStopIndex? then 0 else s.sy.recv) && x.ret == (if pc.IStopIndex? then 0 else s.sy.ret)
      && x.buf == s.sy.buf && LinesAfter(s.hw, w) == s.hw && x.copied == s.sy.copied
      && f.index0 == (s.fl.index0 && !pc.IStopIndex?) && f.indexed0 == (s.fl.indexed0 || pc.IStopIndexed?)
  {
  }

  lemma IndexTakeNears(pc: IndexPc, s: State, e: Env)
    requires pc == s.sy.pc && pc.Active() && pc.Taking() && !s.fl.indexed0 && IndexEndingIn(s.fl, s.sy)
    requires !(pc.ISpin? && s.hw.valid)
    ensures IndexNears(s, IndexTake(s, e).0, IndexTake(s, e).1)
  {
  }

  lemma IndexNameNears(pc: IndexPc, s: State, e: Env)
    requires pc == s.sy.pc && pc.Active() && !pc.Taking() && pc.Naming() && !s.fl.indexed0 && IndexEndingIn(s.fl, s.sy)
    requires pc.IOpen? ==> s.os.Free(e.fd)
    ensures IndexNears(s, IndexName(s, e).0, IndexName(s, e).1)
  {
    if !pc.IOpen? { NameStepsOn(pc, s, e); hide IndexName, FlagsAfter, LinesAfter; }
  }

  lemma NameStepsOn(pc: IndexPc, s: State, e: Env)
    requires pc == s.sy.pc && pc.Active() && !pc.Taking() && pc.Naming() && !pc.IOpen?
    ensures var (x, w) := IndexName(s, e);
      && x.pc == (match pc
                  case IAlt => if s.fl.indexAlt0 then IMark else ISave
                  case IMark => if s.rg.fileMark then ISave else INum
                  case INum => ISlot case ISlot => ISlotEnd case ISlotEnd => ILoad case ILoad => IStore
                  case IStore => IOpen case _ => ISave)
      && x.buf == s.sy.buf && x.copied == s.sy.copied && x.ret == s.sy.ret
      && x.recv == (if pc.IAltClear? then 0 else s.sy.recv)
      && FlagsAfter(s.fl, w).index0 == s.fl.index0 && FlagsAfter(s.fl, w).indexed0 == s.fl.indexed0
      && LinesAfter(s.hw, w) == s.hw
  {
  }

  lemma IndexSaveNears(pc: IndexPc, s: State, e: Env)
    requires pc == s.sy.pc && pc.Active() && !pc.Taking() && !pc.Naming() && !s.fl.indexed0 && IndexEndingIn(s.fl, s.sy)
    requires e.endSeen
    ensures IndexNears(s, IndexSave(s, e).0, IndexSave(s, e).1)
  {
    if pc.ISave? { SaveStepsOn(s, e); } else { CutStepsOn(pc, s, e); }
    hide IndexSave, FlagsAfter, LinesAfter;
  }

  lemma CutStepsOn(pc: IndexPc, s: State, e: Env)
    requires pc == s.sy.pc && (pc.ICut? || pc.ICutClose? || pc.Cutting()) && e.endSeen
    ensures var (x, w) := IndexSave(s, e); var f := FlagsAfter(s.fl, w);
      && x.pc == (match pc
                  case ICut => if s.fl.index0 then ICutClose else IHead
                  case ICutClose => ICutIndex case ICutIndex => ICutAlt case ICutAlt => ICutIndexed case _ => IHead)
      && x.recv == (if pc.ICutClose? then 0 else s.sy.recv) && x.ret == (if pc.ICutClose? then 0 else s.sy.ret)
      && x.buf == s.sy.buf && x.copied == s.sy.copied && LinesAfter(s.hw, w) == s.hw
      && f.index0 == (s.fl.index0 && !pc.ICutIndex?) && f.indexed0 == (s.fl.indexed0 || pc.ICutIndexed?)
  {
  }

  lemma SaveStepsOn(s: State, e: Env)
    requires s.sy.pc.ISave? && s.sy.recv == 0 && (s.sy.ret == 0 || s.sy.ret == BRAM_SIZE)
    ensures var (x, w) := IndexSave(s, e);
      && x.pc.ICut? && x.recv == 0 && x.ret == 0 && x.buf == s.sy.buf && x.copied == s.sy.copied
      && FlagsAfter(s.fl, w) == s.fl && LinesAfter(s.hw, w) == s.hw
  {
  }

  lemma IndexFrees(pc: IndexPc, s: State, e: Env)
    requires pc == s.sy.pc && !pc.IOpen?
    ensures !(IndexStep(s, e).1.Sys? && IndexStep(s, e).1.call.OpenAt?)
  {
  }

  // Only the index receiver and the hardware have moved; the flags of the main receiver are
  // as before.
  predicate Beside(s: State, t: State) {
    && t.mn == s.mn && t.ls == s.ls && t.ct == s.ct && t.se == s.se
    && t.fl.stored0 == s.fl.stored0 && t.fl.sliceAlt0 == s.fl.sliceAlt0
    && t.nm.mnNum == s.nm.mnNum && t.nm.lsNum == s.nm.lsNum && t.rg.fileMark == s.rg.fileMark
  }

  ghost predicate IndexEnding(s: State, e: Env) {
    IndexEndingIn(s.fl, s.sy) && e.endSeen && (IndexDistance(s.sy, s.hw) > 7 ==> s.os.Free(e.fd))
  }

  ghost predicate IndexNearer(s: State, t: State, e: Env) {
    && Beside(s, t)
    && (t.fl.indexed0 || (IndexEnding(t, e) && IndexDistance(t.sy, t.hw) < IndexDistance(s.sy, s.hw)))
  }

  lemma IndexStepNears(pc: IndexPc, s: State, e: Env)
    requires pc == s.sy.pc && IndexEnding(s, e) && !s.fl.indexed0 && !(pc.ISpin? && s.hw.valid)
    ensures IndexNearer(s, IndexNext(s, e), e)
  {
    hide IndexNext, IndexIdle, IndexTake, IndexName, IndexSave, IndexEndingIn, IndexDistance;
    hide FlagsAfter, NamesAfter, RegistersAfter, LinesAfter, TableAfter;
    IndexStores(s, e);
    IndexTouches(pc, s, e);
    IndexLeavesNames(pc, s, e);
    OpenDistance(s);
    if !pc.IOpen? {
      IndexFrees(pc, s, e);
      if s.os.Free(e.fd) { FreeAfter(s.os, Sy, IndexStep(s, e).1, e.fd); }
    }
    if !pc.Active() { IndexIdleNears(pc, s, e); }
    else if pc.Taking() { IndexTakeNears(pc, s, e); }
    else if pc.Naming() { IndexNameNears(pc, s, e); }
    else { IndexSaveNears(pc, s, e); }
  }

  lemma OpenDistance(s: State)
    ensures s.sy.pc.IOpen? ==> IndexDistance(s.sy, s.hw) == 8
  {
  }

  lemma ConsumeNears(s: State, e: Env)
    requires s.sy.pc.ISpin? && s.hw.valid && IndexPages.Paged(s) && IndexEnding(s, e)
    ensures IndexNearer(s, s.(hw := HardwareStep(s.hw, Consume)), e)
  {
    hide Armed, Ownership.Homes, IndexPages.BusyWhen, IndexPages.Local;
  }

  lemma IndexComesNearer(boot: Boot, s: State, t: State, e: Env) returns (u: State)
    requires Path(boot, s, t) && IndexEnding(t, e) && !t.fl.indexed0
    ensures Path(boot, s, u) && IndexNearer(t, u, e)
  {
    Invariants(boot, t);
    hide Reachable, Leads, IndexNext, IndexEnding, IndexNearer, HardwareStep, Armed, Cuts.Cut, IndexPages.Paged, Named;
    if t.sy.pc.ISpin? && t.hw.valid {
      ConsumeNears(t, e);
      u := MoveHardware(boot, s, t, Consume);
    } else {
      IndexStepNears(t.sy.pc, t, e);
      u := MoveIndex(boot, s, t, e);
    }
  }

  // The index receiver, with a cut latched, ends its generation.
  lemma {:induction false} IndexEnds(boot: Boot, s: State, t: State, e: Env) returns (u: State)
    requires Path(boot, s, t) && (t.fl.indexed0 || IndexEnding(t, e))
    ensures Path(boot, s, u) && Beside(t, u) && u.fl.indexed0
    decreases IndexDistance(t.sy, t.hw)
  {
    hide Path, IndexEnding, IndexDistance;
    u := t;
    if !t.fl.indexed0 {
      u := IndexComesNearer(boot, s, t, e);
      if !u.fl.indexed0 { u := IndexEnds(boot, s, u, e); }
    }
  }

  // ---------- both are armed again ----------

  lemma GrantMove(pc: ControlPc, s: State, e: Env)
    requires pc == s.ct.pc && s.fl.stored0 && s.fl.indexed0 && s.ct.count0 < MAX_FILE_COUNT && e.flow
    requires pc.CIndexed? || pc.CStored? || pc.CFlow? || pc.CAlt0? || pc.CIndexAlt? || pc.CStored0?
    requires pc.CIndexAlt? || pc.CStored0? ==> s.fl.sliceAlt0
    ensures var t := ControlNext(s, e);
      && Aside(s, t) && t.ct.count0 == s.ct.count0 && t.fl.slice0 == s.fl.slice0
      && t.fl.indexed0 && t.fl.stored0 == !pc.CStored0?
      && (pc.CAlt0? || pc.CIndexAlt? || pc.CStored0? ==> t.fl.sliceAlt0)
      && t.ct.pc == match pc case CIndexed => CStored case CStored => CFlow case CFlow => CAlt0 case CAlt0 => CIndexAlt
                             case CIndexAlt => CStored0 case _ => CIndexed0
  {
    hide ControlNext, NamesAfter, RegistersAfter;
    ControlStores(s, e);
    ControlLeavesNames(pc, s, e);
    Ownership.ControlWrites(pc, s, e);
  }

  function GrantDistance(pc: ControlPc): nat {
    match pc
    case CStored0 => 1 case CIndexAlt => 2 case CAlt0 => 3 case CFlow => 4 case CStored => 5 case CIndexed => 6
    case _ => 0
  }

  lemma {:induction false} Grants(boot: Boot, s: State, t: State, e: Env) returns (u: State)
    requires Path(boot, s, t) && GrantDistance(t.ct.pc) > 0 && t.fl.stored0 && t.fl.indexed0
    requires t.ct.count0 < MAX_FILE_COUNT && e.flow && (t.ct.pc.AltGiven() ==> t.fl.sliceAlt0)
    ensures Path(boot, s, u) && Aside(t, u) && !u.fl.stored0 && u.fl.sliceAlt0
    decreases GrantDistance(t.ct.pc)
  {
    hide Path, ControlNext;
    GrantMove(t.ct.pc, t, e);
    u := MoveControl(boot, s, t, e);
    if !t.ct.pc.CStored0? { u := Grants(boot, s, u, e); }
  }

  // chan_stored[0] can be cleared once more, by the re-arming under way or by another one.
  predicate Room(s: State) { s.ct.rearms + 1 < MAX_FILE_COUNT }

  // The same session, numbers and token; the pulse receiver has not moved.
  predicate Even(s: State, t: State) {
    && t.ls == s.ls && t.se.clean == s.se.clean && t.nm.lsNum == s.nm.lsNum
    && t.nm.mnNum == s.nm.mnNum && t.rg.fileMark == s.rg.fileMark
  }

  // One more main file has been opened, or tried.
  predicate Opened(s: State, t: State) {
    t.mn.pc.MOpen? && t.ls == s.ls && t.nm.lsNum == s.nm.lsNum && t.nm.mnNum == s.nm.mnNum + 1
  }

  // The environment of these runs: flow control asks for data or not, the FIFO is empty, and
  // an open gets a number that is free.
  ghost predicate Willing(s: State, e: Env) { e.flow && e.endSeen && s.os.Free(e.fd) }

  // A cut on channel 0 is latched; everything else is as before, but that a re-arming may have
  // been finished.
  ghost predicate Latched(s: State, t: State, e: Env) {
    && Aside(s, t) && t.ct.count0 < MAX_FILE_COUNT && t.ct.pc.CReq1? && Ending(t) && IndexEnding(t, e)
  }

  lemma LatchesCut(boot: Boot, s: State, t: State, e: Env) returns (u: State)
    requires Path(boot, s, t) && !t.mn.pc.Opening() && Room(t) && Willing(t, e) && !Granted(t.ct.pc)
    ensures Path(boot, s, u) && Latched(t, u, e)
  {
    hide Reachable, Leads;
    var still := e.(flow := false);
    Invariants(boot, t);
    Counted(t);
    var a := FinishRearming(boot, s, t, still);
    u := LatchCut(boot, s, a, still);
    Invariants(boot, u);
    hide Armed, Cuts.Cut, IndexPages.Paged, Named, EndingIn, IndexEndingIn, IndexDistance, Rank;
    BeginsToEnd(u);
    IndexBeginsToEnd(u);
  }

  // The main receiver has ended its generation too.
  ghost predicate MainEnded(s: State, t: State, e: Env) {
    && Even(s, t) && t.ct.count0 < MAX_FILE_COUNT && t.ct.pc.CReq1?
    && t.mn.pc.MStored? && t.fl.stored0 && IndexEnding(t, e)
  }

  lemma EndsMain(boot: Boot, s: State, t: State, r: State, e: Env) returns (u: State)
    requires Path(boot, s, t) && Latched(r, t, e) && e.flow
    ensures Path(boot, s, u) && (Opened(r, u) || MainEnded(r, u, e))
  {
    hide Path, Ending;
    u := MainEnds(boot, s, t, e);
    hide IndexEndingIn, IndexDistance;
  }

  // Both have, and control is at the head of its loop.
  predicate BothEnded(s: State, t: State) {
    && Even(s, t) && t.ct.count0 < MAX_FILE_COUNT && t.ct.pc.CIndexed?
    && t.mn.pc.MStored? && t.fl.stored0 && t.fl.indexed0
  }

  lemma EndsIndex(boot: Boot, s: State, t: State, r: State, e: Env) returns (u: State)
    requires Path(boot, s, t) && MainEnded(r, t, e)
    ensures Path(boot, s, u) && BothEnded(r, u)
  {
    hide Path, IndexEnding;
    var v := IndexEnds(boot, s, t, e);
    assert Rank(v.ct, v.hw) == 12;
    u := ServesDownTo(boot, s, v, e.(flow := false), 6);
    assert u.ct.pc.CIndexed?;
    hide Rank;
  }

  // Armed again, and waiting in front of the test of chan_stored[0].
  predicate Rearmed(s: State, t: State) {
    Even(s, t) && t.mn.pc.MStored? && !t.fl.stored0 && t.fl.sliceAlt0
  }

  lemma Counted(s: State)
    requires Armed(s)
    ensures Room(s) <==> s.ct.count0 + Bit(s.ct.pc.CIndexed0?) < MAX_FILE_COUNT
    ensures Granted(s.ct.pc) ==> Room(s) && s.fl.stored0 && s.fl.indexed0 && (s.ct.pc.AltGiven() ==> s.fl.sliceAlt0)
    ensures Granted(s.ct.pc) && !s.mn.pc.Opening() ==> Ending(s)
  {
  }

  // When a re-arming is under way the main receiver, whose generation has ended, comes to wait
  // for it, and it is finished.
  lemma FinishGrant(boot: Boot, s: State, t: State, e: Env) returns (u: State)
    requires Path(boot, s, t) && !t.mn.pc.Opening() && Granted(t.ct.pc) && e.flow
    ensures Path(boot, s, u) && (Opened(t, u) || Rearmed(t, u))
  {
    hide Reachable, Leads;
    Invariants(boot, t);
    hide Armed, Cuts.Cut, IndexPages.Paged, Named, EndingIn, ControlNext;
    Counted(t);
    u := MainEnds(boot, s, t, e);
    if !Opened(t, u) {
      Invariants(boot, u);
      Counted(u);
      u := Grants(boot, s, u, e);
    }
  }

  // Whatever the threads are doing, as long as the main receiver is not opening a file: the
  // hardware can cut channel 0, the receivers end their generation, unless the main one opens
  // another file first, and control arms them again; or control finishes a re-arming.
  lemma Rearms(boot: Boot, s: State, t: State, e: Env) returns (u: State)
    requires Path(boot, s, t) && !t.mn.pc.Opening() && Room(t) && Willing(t, e)
    ensures Path(boot, s, u) && (Opened(t, u) || Rearmed(t, u))
  {
    hide Path, Latched, MainEnded, Room, Granted;
    if Granted(t.ct.pc) {
      u := FinishGrant(boot, s, t, e);
    } else {
      u := LatchesCut(boot, s, t, e);
      u := EndsMain(boot, s, u, t, e);
      if !Opened(t, u) {
        u := EndsIndex(boot, s, u, t, e);
        u := Grants(boot, s, u, e);
      }
    }
  }

  lemma BeginsToEnd(s: State)
    requires Armed(s) && s.fl.slice0 && !s.mn.pc.Opening()
    ensures Ending(s)
  {
  }

  lemma IndexBeginsToEnd(s: State)
    requires IndexPages.Paged(s) && s.fl.index0
    ensures IndexEndingIn(s.fl, s.sy)
  {
  }

  // ---------- the next open ----------

  // Steps to the next open, with FILE_MARK 0 and nothing to hold the receiver up.
  function Distance(pc: MainPc): nat {
    match pc
    case MStore => 1 case MLoad => 2 case MSlotEnd => 3 case MSlot => 4 case MNum => 5 case MMark => 6
    case MAlt => 7 case MStored => 8 case MHead => 9 case MWait => 10 case MCut => 10 case MFull => 11
    case MAltAgain => 12 case MFifo => 13
    case _ => 0
  }

  // Armed, with no STOP and no cut in front of it.
  predicate OnTheWay(s: State) {
    && !s.fl.stored0 && s.fl.sliceAlt0 && !s.rg.fileMark
    && Distance(s.mn.pc) > 0 && (s.mn.pc.Numbering() && s.mn.pc.HoldsNumber() ==> s.mn.reg == s.nm.mnNum)
    && (Distance(s.mn.pc) > 8 ==> !s.rg.mnStop && (s.mn.pc.Active() ==> !s.fl.slice0))
  }

  // What does not change on the way.
  predicate Along(s: State, t: State) {
    && t.ls == s.ls && t.os == s.os && t.fl == s.fl && t.rg == s.rg && t.sy == s.sy && t.ct == s.ct && t.hw == s.hw
    && t.se.clean == s.se.clean && t.nm == s.nm.(mnNum := t.nm.mnNum)
    && t.mn.data.fd == s.mn.data.fd && |t.mn.data.staged| <= |s.mn.data.staged|
  }

  ghost predicate GoesOn(s: State, m: MainThread, w: Write) {
    && w == Nothing && Distance(s.mn.pc) > Distance(m.pc) > 0
    && (Distance(m.pc) > 8 ==> Distance(s.mn.pc) > 8 && (m.pc.Active() ==> s.mn.pc.Active()))
    && (m.pc.Numbering() && m.pc.HoldsNumber() ==> m.reg == s.nm.mnNum)
    && m.data.fd == s.mn.data.fd && |m.data.staged| <= |s.mn.data.staged|
  }

  lemma OnwardIdle(pc: MainPc, s: State, e: Env)
    requires pc == s.mn.pc && !pc.Active() && OnTheWay(s) && e.flow
    ensures GoesOn(s, MainIdle(s, e).0, MainIdle(s, e).1)
  {
  }

  lemma OnwardName(pc: MainPc, s: State, e: Env)
    requires pc == s.mn.pc && pc.Naming() && OnTheWay(s) && !pc.MStore?
    ensures GoesOn(s, MainName(s, e).0, MainName(s, e).1)
  {
  }

  lemma OnwardMove(pc: MainPc, s: State, e: Env)
    requires pc == s.mn.pc && pc.Active() && !pc.Naming() && OnTheWay(s)
    ensures GoesOn(s, MainMove(s, e).0, MainMove(s, e).1)
  {
  }

  lemma Onward(pc: MainPc, s: State, e: Env)
    requires pc == s.mn.pc && OnTheWay(s) && e.flow && !pc.MStore?
    ensures var t := MainNext(s, e); OnTheWay(t) && Along(s, t) && Distance(t.mn.pc) < Distance(pc)
    ensures MainNext(s, e).nm == s.nm
  {
    hide MainNext, MainIdle, MainName, MainMove;
    MainStores(s, e);
    MainTouches(pc, s, e);
    if !pc.Active() { OnwardIdle(pc, s, e); }
    else if pc.Naming() { OnwardName(pc, s, e); }
    else { OnwardMove(pc, s, e); }
  }

  lemma Stored(s: State, e: Env)
    requires s.mn.pc.MStore? && OnTheWay(s)
    ensures var t := MainNext(s, e); t.mn.pc.MOpen? && Along(s, t) && t.nm.mnNum == s.nm.mnNum + 1
  {
  }

  lemma {:induction false} ReachesOpen(boot: Boot, s: State, t: State, e: Env) returns (u: State)
    requires Path(boot, s, t) && OnTheWay(t) && e.flow
    ensures Path(boot, s, u) && u.mn.pc.MOpen? && Along(t, u) && u.nm.mnNum == t.nm.mnNum + 1
    decreases Distance(t.mn.pc)
  {
    hide MainNext, OnTheWay, Distance, Path;
    if t.mn.pc.MStore? {
      Stored(t, e);
      u := MoveMain(boot, s, t, e);
    } else {
      Onward(t.mn.pc, t, e);
      u := MoveMain(boot, s, t, e);
      u := ReachesOpen(boot, s, u, e);
    }
  }

  // ... and, on the way, to the point that is goal steps in front of the open.
  lemma {:induction false} ReachesPoint(boot: Boot, s: State, t: State, e: Env, goal: nat) returns (u: State)
    requires Path(boot, s, t) && OnTheWay(t) && e.flow && 0 < goal <= 5 && goal <= Distance(t.mn.pc)
    ensures Path(boot, s, u) && Distance(u.mn.pc) == goal && Along(t, u) && u.nm.mnNum == t.nm.mnNum
    decreases Distance(t.mn.pc)
  {
    hide MainNext, OnTheWay, Path;
    u := t;
    if Distance(t.mn.pc) > goal {
      Onward(t.mn.pc, t, e);
      OneNearer(t.mn.pc, t, e, goal);
      u := MoveMain(boot, s, t, e);
      Going(u);
      u := ReachesPoint(boot, s, u, e, goal);
    }
  }

  lemma Going(s: State)
    requires OnTheWay(s)
    ensures Distance(s.mn.pc) > 0
  {
  }

  lemma OneNearer(pc: MainPc, s: State, e: Env, goal: nat)
    requires pc == s.mn.pc && Distance(pc) > goal && goal <= 5
    ensures Distance(MainNext(s, e).mn.pc) < goal ==> Distance(MainNext(s, e).mn.pc) == 0
  {
  }

  // ---------- one more open ----------

  // Armed, with no STOP and no cut in front of its next test of FILE_MARK.
  predicate ReadyIn(f: Flags, stop: bool, pc: MainPc) {
    && !f.stored0 && f.sliceAlt0
    && match pc
       case MStopAck | MStopClose | MStored | MAlt | MMark => true
       case MWait | MHead => !stop
       case MFifo | MAltAgain | MFull | MCut => !stop && !f.slice0
       case _ => false
  }

  predicate Ready(s: State) { ReadyIn(s.fl, s.rg.mnStop, s.mn.pc) }

  // What lets the main receiver come to its next open: it is ready, or can be armed once more.
  predicate Able(s: State) { Ready(s) || Room(s) }

  // The index receiver, which has to end its generation for a re-arming, may need a number.
  ghost predicate NumberFree(s: State) { exists n :: s.os.Free(n) }

  function Environment(n: int): Env {
    Env(false, true, None, n, false, true, "", Naming.Time(0, 0, 0, 0, 0, 0))
  }

  // Armed again in the middle of a STOP, the main receiver first finishes that.
  lemma {:induction false} Unwinds(boot: Boot, s: State, t: State, e: Env) returns (u: State)
    requires Path(boot, s, t) && Ready(t) && !t.rg.fileMark
    ensures Path(boot, s, u) && OnTheWay(u) && u.ls == t.ls && u.nm == t.nm
    decreases t.mn.pc.MStopAck?
  {
    hide Path, MainNext;
    u := t;
    if t.mn.pc.Unwinding() {
      UnwindStep(t.mn.pc, t, e);
      u := MoveMain(boot, s, t, e);
      if t.mn.pc.MStopAck? { u := Unwinds(boot, s, u, e); }
    }
  }

  lemma UnwindStep(pc: MainPc, s: State, e: Env)
    requires pc == s.mn.pc && pc.Unwinding() && Ready(s)
    ensures var t := MainNext(s, e);
      && t.mn.pc == (if pc.MStopAck? then MStopClose else MStored) && t.fl == s.fl && t.ls == s.ls && t.nm == s.nm
      && t.rg.fileMark == s.rg.fileMark
  {
    hide MainNext, MainName, MainMove;
    MainStores(s, e);
    MainTouches(pc, s, e);
  }

  // With FILE_MARK 0 and no open under way the threads come to one more open by themselves.
  lemma OpensOneMore(boot: Boot, s: State) returns (u: State)
    requires Reachable(boot, s) && !s.rg.fileMark && !s.mn.pc.Opening()
    requires Ready(s) || (Room(s) && NumberFree(s))
    ensures Path(boot, s, u) && Opened(s, u)
  {
    Stay(boot, s);
    if Ready(s) { u := OpensReady(boot, s); } else { u := OpensRearmed(boot, s); }
    hide Path, Opened, Ready, NumberFree;
  }

  lemma OpensReady(boot: Boot, s: State) returns (u: State)
    requires Path(boot, s, s) && Ready(s) && !s.rg.fileMark
    ensures Path(boot, s, u) && Opened(s, u)
  {
    hide Path, Ready, OnTheWay;
    u := Unwinds(boot, s, s, Environment(0));
    u := ReachesOpen(boot, s, u, Environment(0));
  }

  lemma OpensRearmed(boot: Boot, s: State) returns (u: State)
    requires Path(boot, s, s) && !s.rg.fileMark && !s.mn.pc.Opening() && Room(s) && NumberFree(s)
    ensures Path(boot, s, u) && Opened(s, u)
  {
    hide Path, Room, Table.Free;
    var n :| s.os.Free(n);
    u := Rearms(boot, s, s, Environment(n));
    if !Opened(s, u) {
      assert OnTheWay(u);
      u := ReachesOpen(boot, s, u, Environment(n));
    }
  }

  // ---------- no more opens ----------

  // Nothing lets the main receiver come to its next open.
  ghost predicate Unable(s: State) { Armed(s) && !s.mn.pc.Opening() && !Able(s) }

  // The main receiver opens nothing, and it does not get ready.
  ghost predicate StaysBack(s: State, t: State) {
    && t.ls == s.ls && t.nm == s.nm.(syNum := t.nm.syNum) && !t.mn.pc.Opening() && !Ready(t)
    && t.ct.rearms == s.ct.rearms
  }

  lemma MainStaysUnable(pc: MainPc, s: State, e: Env)
    requires pc == s.mn.pc && Unable(s)
    ensures StaysBack(s, MainNext(s, e))
  {
    hide MainNext, MainIdle, MainName, MainMove, ReadyIn;
    MainStores(s, e);
    MainTouches(pc, s, e);
    if !pc.Active() { IdleUnable(pc, s, e); }
    else if pc.Naming() { NameUnable(pc, s, e); }
    else { MoveUnable(pc, s, e); }
  }

  lemma IdleUnable(pc: MainPc, s: State, e: Env)
    requires pc == s.mn.pc && !pc.Active() && Unable(s)
    ensures var (m, w) := MainIdle(s, e);
      && NamesAfter(s.nm, w) == s.nm && !m.pc.Opening()
      && !ReadyIn(FlagsAfter(s.fl, w), RegistersAfter(s.rg, w).mnStop, m.pc)
  {
  }

  lemma NameUnable(pc: MainPc, s: State, e: Env)
    requires pc == s.mn.pc && pc.Naming() && Unable(s)
    ensures var (m, w) := MainName(s, e);
      && NamesAfter(s.nm, w) == s.nm && !m.pc.Opening()
      && !ReadyIn(FlagsAfter(s.fl, w), RegistersAfter(s.rg, w).mnStop, m.pc)
  {
  }

  lemma MoveUnable(pc: MainPc, s: State, e: Env)
    requires pc == s.mn.pc && pc.Active() && !pc.Naming() && Unable(s)
    ensures var (m, w) := MainMove(s, e);
      && NamesAfter(s.nm, w) == s.nm && !m.pc.Opening()
      && !ReadyIn(FlagsAfter(s.fl, w), RegistersAfter(s.rg, w).mnStop, m.pc)
  {
    hide Generations;
    MoveSteps(pc, s, e);
  }

  lemma ControlRearmUnable(pc: ControlPc, s: State, e: Env)
    requires pc == s.ct.pc && pc.Granting() && Unable(s)
    ensures StaysBack(s, ControlNext(s, e))
  {
    hide ControlNext, ControlCut, NamesAfter, RegistersAfter, MainPc.Opening;
    ControlStores(s, e);
    ControlLeavesNames(pc, s, e);
  }

  lemma ControlCutUnable(pc: ControlPc, s: State, e: Env)
    requires pc == s.ct.pc && !pc.Granting() && Unable(s)
    ensures StaysBack(s, ControlNext(s, e))
  {
    hide ControlNext, ControlRearm, NamesAfter, RegistersAfter, Armed, MainPc.Opening;
    ControlStores(s, e);
    ControlLeavesNames(pc, s, e);
  }

  lemma ControlStaysUnable(pc: ControlPc, s: State, e: Env)
    requires pc == s.ct.pc && Unable(s)
    ensures StaysBack(s, ControlNext(s, e))
  {
    if pc.Granting() { ControlRearmUnable(pc, s, e); } else { ControlCutUnable(pc, s, e); }
    hide ControlNext, StaysBack, Unable;
  }

  lemma IndexStaysUnable(pc: IndexPc, s: State, e: Env)
    requires pc == s.sy.pc && Unable(s)
    ensures StaysBack(s, IndexNext(s, e))
  {
    hide IndexNext, IndexStep, ReadyIn, Armed, MainPc.Opening;
    IndexTouches(pc, s, e);
    IndexStores(s, e);
    IndexLeavesNames(pc, s, e);
    assert RegistersAfter(s.rg, IndexStep(s, e).1).mnStop == s.rg.mnStop by { IndexLeavesStop(pc, s, e); }
    hide RegistersAfter, NamesAfter;
    SameReady(s.fl, IndexNext(s, e).fl, s.rg.mnStop, s.mn.pc);
  }

  lemma IndexLeavesStop(pc: IndexPc, s: State, e: Env)
    requires pc == s.sy.pc
    ensures RegistersAfter(s.rg, IndexStep(s, e).1).mnStop == s.rg.mnStop
  {
    hide NamesAfter;
  }

  lemma SameReady(f: Flags, g: Flags, stop: bool, pc: MainPc)
    requires IndexFlags(f, g)
    ensures ReadyIn(f, stop, pc) <==> ReadyIn(g, stop, pc)
  {
  }

  // Then the threads and the hardware never come to it.
  lemma {:induction false} NeverOpens(s: State, steps: seq<Step>)
    requires Unable(s) && forall st <- steps :: OwnStep(st)
    ensures var t := Exec(s, steps); Unable(t) && t.ls == s.ls && t.nm == s.nm.(syNum := t.nm.syNum)
  {
    hide Armed, ReadyIn, MainNext, IndexNext, PulseNext, ControlNext, NetNext;
    if steps != [] {
      var n := |steps| - 1;
      NeverOpens(s, steps[..n]);
      var t := Exec(s, steps[..n]);
      ArmedStep(t, steps[n]);
      var st := steps[n];
      assert OwnStep(st);
      if st.MnStep? { MainStaysUnable(t.mn.pc, t, st.e); }
      else if st.SyStep? { IndexStaysUnable(t.sy.pc, t, st.e); }
      else if st.CtStep? { ControlStaysUnable(t.ct.pc, t, st.e); }
      assert StaysBack(t, Next(t, st));
    }
  }

  // ---------- one token too many ----------

  // More main files are opened than FILE_MARK tokens were issued for slices.
  predicate Exceeds(s: State) { s.nm.mnNum > s.Issued() }

  lemma {:induction false} CleanStays(s: State, steps: seq<Step>)
    requires Named(s) && s.se.clean && forall st <- steps :: OwnStep(st)
    ensures Named(Exec(s, steps)) && Exec(s, steps).se.clean
  {
    hide Named, Next;
    if steps != [] {
      var n := |steps| - 1;
      CleanStays(s, steps[..n]);
      var t := Exec(s, steps[..n]);
      NamedStep(t, steps[n]);
      OwnKeepsClean(t, steps[n]);
    }
  }

  lemma OwnKeepsClean(s: State, st: Step)
    requires OwnStep(st)
    ensures Next(s, st).se.clean == s.se.clean
  {
    hide MainNext, IndexNext, ControlNext;
    if st.MnStep? { MainTouches(s.mn.pc, s, st.e); }
    else if st.SyStep? { IndexTouches(s.sy.pc, s, st.e); }
    else if st.CtStep? { ControlStores(s, st.e); }
  }

  // In a clean session the threads never exceed the issued slices by themselves.
  lemma CleanNeverExceeds(s: State, u: State)
    requires Named(s) && s.se.clean && Leads(s, u)
    ensures !Exceeds(u)
  {
    hide Named, Exec;
    var steps: seq<Step> :| (forall st <- steps :: OwnStep(st)) && Exec(s, steps) == u;
    CleanStays(s, steps);
    Lawful(u);
  }

  lemma UnableNeverExceeds(s: State, u: State)
    requires Unable(s) && !Exceeds(s) && Leads(s, u)
    ensures !Exceeds(u)
  {
    hide Exec, Armed, Able;
    var steps: seq<Step> :| (forall st <- steps :: OwnStep(st)) && Exec(s, steps) == u;
    NeverOpens(s, steps);
  }

  lemma Lawful(s: State)
    requires Named(s) && s.se.clean
    ensures !Exceeds(s)
  {
    hide Naming.BaseName;
  }

  // A client's write of 0 to FILE_MARK, as in STOP and on a full disk, in a clean session: the
  // threads and the hardware come to open a file beyond the slices issued only if the main
  // receiver was not opening one, had no issued slice left, and is ready for its next file or
  // can be armed once more; and then they can, unless the process is out of descriptors. While
  // no slice is half issued that file is beyond all slices there are.
  lemma {:induction false} ForgedToken(boot: Boot, steps: seq<Step>)
    ensures var s := Exec(Init(boot), steps); var t := NetNext(s, FileMark, false);
      s.se.clean ==>
        && ((exists u :: Leads(t, u) && Exceeds(u)) ==> !s.Spare() && Able(s))
        && (!s.Spare() && Able(s) && (Ready(s) || NumberFree(s)) ==>
              exists u :: Leads(t, u) && Exceeds(u) && (s.ls.pc.Unissued() || u.nm.mnNum > u.nm.lsNum))
  {
    hide Exec, Able, Ready;
    var s := Exec(Init(boot), steps);
    if s.se.clean {
      assert Reachable(boot, s);
      Forged(boot, s);
    }
  }

  lemma Forged(boot: Boot, s: State)
    requires Reachable(boot, s) && s.se.clean
    ensures var t := NetNext(s, FileMark, false);
      && ((exists u :: Leads(t, u) && Exceeds(u)) ==> !s.Spare() && Able(s))
      && (!s.Spare() && Able(s) && (Ready(s) || NumberFree(s)) ==>
            exists u :: Leads(t, u) && Exceeds(u) && (s.ls.pc.Unissued() || u.nm.mnNum > u.nm.lsNum))
  {
    hide Reachable, Leads, Named, Armed, Cuts.Cut, IndexPages.Paged, Ready, Room, NumberFree, NetNext;
    Invariants(boot, s);
    var t := Go(boot, s, Net(FileMark, false));
    Invariants(boot, t);
    Lawful(s);
    Forges(s, t);
    if s.Spare() {
      forall u | Leads(t, u) ensures !Exceeds(u) { CleanNeverExceeds(t, u); }
    } else if !Able(s) {
      forall u | Leads(t, u) ensures !Exceeds(u) { UnableNeverExceeds(t, u); }
    } else if Ready(s) || NumberFree(s) {
      var u := OpensOneMore(boot, t);
      assert Leads(t, u) && Exceeds(u);
    }
  }

  lemma Forges(s: State, t: State)
    requires t == NetNext(s, FileMark, false) && s.se.clean
    ensures !t.rg.fileMark && t.mn == s.mn && t.ls == s.ls && t.nm == s.nm && t.os == s.os && t.se.clean == s.Spare()
    ensures (Ready(t) <==> Ready(s)) && (Room(t) <==> Room(s)) && (NumberFree(t) <==> NumberFree(s))
  {
  }

  // ---------- which resets break the law (src/store.c:493-499) ----------

  // From MNum to MStore the receiver counts one file by itself, whatever FILE_MARK is.
  lemma {:induction false} CountsOne(boot: Boot, s: State, t: State, e: Env) returns (u: State)
    requires Path(boot, s, t) && t.mn.pc.Numbering()
    ensures Path(boot, s, u) && u.ls == t.ls && u.nm.lsNum == t.nm.lsNum && u.nm.mnNum > 0
    decreases Distance(t.mn.pc)
  {
    hide MainNext, Path;
    CountStep(t.mn.pc, t, e);
    u := MoveMain(boot, s, t, e);
    if !t.mn.pc.MStore? { u := CountsOne(boot, s, u, e); }
  }

  lemma CountStep(pc: MainPc, s: State, e: Env)
    requires pc == s.mn.pc && pc.Numbering()
    ensures var t := MainNext(s, e);
      && t.ls == s.ls && t.nm.lsNum == s.nm.lsNum
      && (if pc.MStore? then t.nm.mnNum > 0 else t.mn.pc.Numbering() && Distance(t.mn.pc) < Distance(pc))
  {
    hide MainNext, MainIdle, MainMove, MainName, NamesAfter, FlagsAfter, RegistersAfter;
    MainStores(s, e);
    MainTouches(pc, s, e);
    NumberStep(pc, s, e);
  }

  lemma NumberStep(pc: MainPc, s: State, e: Env)
    requires pc == s.mn.pc && pc.Numbering()
    ensures var (m, w) := MainName(s, e);
      if pc.MStore? then NamesAfter(s.nm, w).mnNum > 0 else m.pc.Numbering() && Distance(m.pc) < Distance(pc)
  {
  }

  // When START resets the numbers the law holds right after it, and as long as only the threads
  // move, if the main receiver is not about to count a file and FILE_MARK is 1 or about to be;
  // that is what a clean session is. In the others the threads can break it if they can bring
  // the main receiver to its next open, and only then.
  lemma {:induction false} ResetLaw(boot: Boot, steps: seq<Step>, e: Env)
    ensures var s := Exec(Init(boot), steps); var t := PulseNext(s, e);
      s.ls.pc.LMnReset? ==>
        && (t.se.clean <==> !s.mn.pc.Numbering() && (s.rg.fileMark || s.mn.pc.Opening()))
        && (t.se.clean <==> TokenLaw(t.nm, t.rg.fileMark, t.mn.pc, t.ls.pc))
        && ((exists u :: Leads(t, u) && Exceeds(u)) ==> !t.se.clean && (t.mn.pc.Numbering() || Able(t)))
        && (!t.se.clean && (t.mn.pc.Numbering() || Ready(t) || (Room(t) && NumberFree(t))) ==>
              exists u :: Leads(t, u) && Exceeds(u))
  {
    hide Exec, Able, Ready;
    var s := Exec(Init(boot), steps);
    if s.ls.pc.LMnReset? {
      assert Reachable(boot, s);
      Reset(boot, s, e);
    }
  }

  lemma ResetStep(s: State, e: Env)
    requires s.ls.pc.LMnReset? && Named(s)
    ensures var t := PulseNext(s, e);
      && t.mn == s.mn && t.rg == s.rg && t.nm.mnNum == 0 == t.nm.lsNum && t.Issued() == 0
      && (t.se.clean <==> !s.mn.pc.Numbering() && (s.rg.fileMark || s.mn.pc.Opening()))
  {
    hide Naming.BaseName;
  }

  lemma Reset(boot: Boot, s: State, e: Env)
    requires Reachable(boot, s) && s.ls.pc.LMnReset?
    ensures var t := PulseNext(s, e);
      && (t.se.clean <==> !s.mn.pc.Numbering() && (s.rg.fileMark || s.mn.pc.Opening()))
      && (t.se.clean <==> TokenLaw(t.nm, t.rg.fileMark, t.mn.pc, t.ls.pc))
      && ((exists u :: Leads(t, u) && Exceeds(u)) ==> !t.se.clean && (t.mn.pc.Numbering() || Able(t)))
      && (!t.se.clean && (t.mn.pc.Numbering() || Ready(t) || (Room(t) && NumberFree(t))) ==>
            exists u :: Leads(t, u) && Exceeds(u))
  {
    hide Reachable, Leads, Named, Ready, Room, PulseNext, Armed, Cuts.Cut, IndexPages.Paged,
         NumberFree;
    Invariants(boot, s);
    ResetStep(s, e);
    PulseNames(s.ls.pc, s, e);
    var t := Go(boot, s, LsStep(e));
    Invariants(boot, t);
    if t.se.clean {
      forall u | Leads(t, u) ensures !Exceeds(u) { CleanNeverExceeds(t, u); }
    } else if t.mn.pc.Numbering() {
      Stay(boot, t);
      var u := CountsOne(boot, t, t, e);
      assert Leads(t, u) && Exceeds(u);
    } else if !Able(t) {
      forall u | Leads(t, u) ensures !Exceeds(u) { UnableNeverExceeds(t, u); }
    } else if Ready(t) || (Room(t) && NumberFree(t)) {
      var u := OpensOneMore(boot, t);
      assert Leads(t, u) && Exceeds(u);
    }
  }
}
