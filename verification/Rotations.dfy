// What a cut on channel 1 leads to: the pulse receiver closes its slice, opens the next one and
// issues the FILE_MARK token, which leads to the next main file (src/store.c:195-203, 231-237,
// 386-390, 555-598).
module Rotations {
  import opened Common
  import Naming
  import opened Descriptors
  import opened Protocol
  import opened Frames
  import opened Barrier
  import opened Companions
  import opened Continuations
  import Cuts
  import IndexPages
  import Ownership

  // ---------- runs of all threads and the hardware ----------

  predicate ThreadStep(st: Step) { OwnStep(st) || st.LsStep? }

  ghost predicate LeadsOn(s: State, t: State) {
    exists steps: seq<Step> :: (forall st <- steps :: ThreadStep(st)) && Exec(s, steps) == t
  }

  ghost predicate PathOn(boot: Boot, s: State, t: State) { Reachable(boot, t) && LeadsOn(s, t) }

  lemma StayOn(boot: Boot, s: State)
    requires Reachable(boot, s)
    ensures PathOn(boot, s, s)
  {
    hide Reachable;
    assert Exec(s, []) == s;
  }

  lemma {:induction false} ExecConcat(s: State, a: seq<Step>, b: seq<Step>)
    ensures Exec(s, a + b) == Exec(Exec(s, a), b)
  {
    hide Next;
    if b == [] {
      assert a + b == a;
    } else {
      var n := |b| - 1;
      assert (a + b)[..|a| + n] == a + b[..n] && (a + b)[|a| + n] == b[n];
      ExecConcat(s, a, b[..n]);
    }
  }

  // A run without the pulse receiver continues one with it.
  lemma Join(boot: Boot, s: State, t: State, u: State)
    requires PathOn(boot, s, t) && Path(boot, t, u)
    ensures PathOn(boot, s, u)
  {
    hide Reachable, Exec, OwnStep;
    var a: seq<Step> :| (forall st <- a :: ThreadStep(st)) && Exec(s, a) == t;
    var b: seq<Step> :| (forall st <- b :: OwnStep(st)) && Exec(t, b) == u;
    ExecConcat(s, a, b);
    assert forall st <- a + b :: ThreadStep(st);
  }

  lemma MovePulse(boot: Boot, s: State, t: State, e: Env) returns (u: State)
    requires PathOn(boot, s, t)
    ensures u == PulseNext(t, e) && PathOn(boot, s, u)
  {
    hide Reachable, PulseNext, Exec;
    u := Go(boot, t, LsStep(e));
    var steps: seq<Step> :| (forall st <- steps :: ThreadStep(st)) && Exec(s, steps) == t;
    ExecConcat(s, steps, [LsStep(e)]);
    OneStep(t, LsStep(e));
    assert forall st <- steps + [LsStep(e)] :: ThreadStep(st);
  }

  lemma OneStep(s: State, st: Step)
    ensures Exec(s, [st]) == Next(s, st)
  {
    hide Next;
    assert Exec(s, [st][..0]) == s;
  }

  // ---------- control finishes its round of re-armings ----------

  function Round(pc: ControlPc): nat {
    match pc
    case CIndexed => 10 case CStored => 9 case CFlow => 8 case CAlt0 => 7 case CIndexAlt => 6 case CStored0 => 5
    case CIndexed0 => 4 case CStored1 => 3 case CAlt1 => 2 case CStoredClear1 => 1
    case _ => 0
  }

  // Only the control thread has moved, and the cuts latched on channel 1 still are.
  predicate Around(s: State, t: State) {
    && Aside(s, t) && t.hw == s.hw && t.fl.slice1 == s.fl.slice1 && (t.fl.stored1 ==> s.fl.stored1)
  }

  lemma RoundStep(pc: ControlPc, s: State, e: Env)
    requires pc == s.ct.pc && pc.Granting()
    ensures var t := ControlNext(s, e);
      && Around(s, t) && Round(t.ct.pc) < Round(pc) && (t.ct.pc.Granting() || t.ct.pc.CReq0?)
      && (if pc.CStoredClear1? then !t.fl.stored1 else t.fl.stored1 == s.fl.stored1 && t.ct.count1 == s.ct.count1)
      && (pc.CStored1? && s.fl.stored1 && s.ct.count1 < MAX_FILE_COUNT ==> t.ct.pc.CAlt1?)
      && (t.ct.pc.CReq0? ==> pc.CStored1? || pc.CStoredClear1?)
  {
    hide ControlNext, ControlRearm, ControlCut, NamesAfter, RegistersAfter, FlagsAfter, LinesAfter;
    ControlStores(s, e);
    ControlLeavesNames(pc, s, e);
    Ownership.ControlWrites(pc, s, e);
    GoesRound(pc, s, e);
  }

  lemma GoesRound(pc: ControlPc, s: State, e: Env)
    requires pc == s.ct.pc && pc.Granting()
    ensures var (c, w) := ControlRearm(s, e); var f := FlagsAfter(s.fl, w);
      && Round(c.pc) < Round(pc) && (c.pc.Granting() || c.pc.CReq0?) && LinesAfter(s.hw, w) == s.hw
      && (if pc.CStoredClear1? then !f.stored1 else f.stored1 == s.fl.stored1 && c.count1 == s.ct.count1)
      && (pc.CStored1? && s.fl.stored1 && s.ct.count1 < MAX_FILE_COUNT ==> c.pc.CAlt1?) && f.slice1 == s.fl.slice1
      && (c.pc.CReq0? ==> pc.CStored1? || pc.CStoredClear1?)
  {
  }

  // At the end of the round chan_stored[1] is cleared, if slice_count[1] allows.
  lemma {:induction false} FinishRound(boot: Boot, s: State, t: State, e: Env) returns (u: State)
    requires Path(boot, s, t) && t.ct.pc.Granting()
    ensures Path(boot, s, u) && Around(t, u) && u.ct.pc.CReq0?
    ensures t.fl.stored1 && t.ct.count1 < MAX_FILE_COUNT ==> !u.fl.stored1
    decreases Round(t.ct.pc)
  {
    hide Path, ControlNext, Round;
    RoundStep(t.ct.pc, t, e);
    u := MoveControl(boot, s, t, e);
    if u.ct.pc.Granting() { u := FinishRound(boot, s, u, e); }
  }

  lemma LooksForCut(s: State, e: Env)
    requires s.ct.pc.CReq0? || (s.ct.pc.CReq1? && s.hw.req1)
    ensures var t := ControlNext(s, e);
      && Around(s, t) && t.ct.pc == if s.ct.pc.CReq1? then CAck1 else if s.hw.req0 then CAck0 else CReq1
  {
  }

  lemma Ranked(c: Control, w: Hardware)
    requires !c.pc.Granting() && !c.pc.CReq0?
    ensures 6 < Rank(c, w) < 20 && (c.pc.CReq1? <==> Rank(c, w) == 12)
    ensures c.pc.CAck0? || c.pc.CReq1? ==> Rank(c, w) >= 12
    ensures c.pc.CAck1? ==> Rank(c, w) == 11
  {
  }

  lemma HeadRank(c: Control, w: Hardware)
    ensures Rank(c, w) == 6 <==> c.pc.CIndexed?
    ensures Rank(c, w) == 12 <==> c.pc.CReq1?
  {
  }

  // From its handshakes control comes back to the head of its loop.
  lemma ComesRound(boot: Boot, s: State, t: State, e: Env) returns (u: State)
    requires Path(boot, s, t) && !t.ct.pc.Granting()
    ensures Path(boot, s, u) && Aside(t, u) && u.ct.pc.CIndexed? && (u.fl.stored1 ==> t.fl.stored1)
  {
    var still := e.(flow := false);
    hide Path, ControlNext, Rank;
    u := t;
    if t.ct.pc.CReq0? {
      LooksForCut(t, still);
      u := MoveControl(boot, s, t, still);
    }
    Ranked(u.ct, u.hw);
    u := ServesDownTo(boot, s, u, still, 6);
    HeadRank(u.ct, u.hw);
  }

  // Whatever control is doing, it comes to arm the pulse receiver again.
  lemma ArmsPulse(boot: Boot, s: State, t: State, e: Env) returns (u: State)
    requires Path(boot, s, t) && t.ls.rotations < MAX_FILE_COUNT
    ensures Path(boot, s, u) && Aside(t, u) && !u.fl.stored1
  {
    hide Reachable, Leads, Armed, IndexPages.Paged, Named;
    u := t;
    if t.fl.stored1 {
      if !t.ct.pc.Granting() { u := ComesRound(boot, s, t, e); }
      Invariants(boot, u);
      Stored1(u);
      hide Cuts.Cut;
      if u.fl.stored1 { u := FinishRound(boot, s, u, e); }
    }
  }

  lemma Stored1(s: State)
    requires Cuts.Cut(s) && s.ls.rotations < MAX_FILE_COUNT
    ensures s.fl.stored1 ==> s.ct.count1 < MAX_FILE_COUNT
  {
  }

  // ---------- the hardware cuts channel 1 ----------

  lemma RaiseStep1(s: State)
    requires s.ct.pc.CReq1? && !s.hw.req1 && Cuts.Cut(s)
    ensures var t := s.(hw := HardwareStep(s.hw, Raise1)); t.hw.req1 && Aside(s, t)
  {
  }

  lemma ComesToRequest(boot: Boot, s: State, t: State, e: Env) returns (u: State)
    requires Path(boot, s, t)
    ensures Path(boot, s, u) && Aside(t, u) && u.ct.pc.CReq1? && (u.fl.stored1 ==> t.fl.stored1)
  {
    var still := e.(flow := false);
    hide Path, ControlNext, Rank, Round;
    var v := t;
    if t.ct.pc.CReq1? { return t; }
    if !t.ct.pc.Granting() && !t.ct.pc.CReq0? {
      v := ComesRound(boot, s, t, e);
    }
    if v.ct.pc.Granting() { v := FinishRound(boot, s, v, still); }
    LooksForCut(v, still);
    u := MoveControl(boot, s, v, still);
    Ranked(u.ct, u.hw);
    u := ServesDownTo(boot, s, u, still, 12);
    HeadRank(u.ct, u.hw);
  }

  // It raises a cut, unless there is one, and it is latched.
  lemma LatchesCut1(boot: Boot, s: State, t: State, e: Env) returns (u: State)
    requires Path(boot, s, t)
    ensures Path(boot, s, u) && Aside(t, u) && u.fl.slice1 && (u.fl.stored1 ==> t.fl.stored1)
  {
    hide Reachable, Leads, ControlNext, Rank, HardwareStep, Armed, Cuts.Cut, IndexPages.Paged, Named;
    var still := e.(flow := false);
    u := ComesToRequest(boot, s, t, e);
    if !u.hw.req1 {
      Invariants(boot, u);
      RaiseStep1(u);
      u := MoveHardware(boot, s, u, Raise1);
    }
    LooksForCut(u, still);
    u := MoveControl(boot, s, u, still);
    Ranked(u.ct, u.hw);
    u := Latches1(boot, s, u, still);
  }

  lemma {:induction false} Latches1(boot: Boot, s: State, t: State, e: Env) returns (u: State)
    requires Path(boot, s, t) && 6 < Rank(t.ct, t.hw) < 12 && !e.flow
    ensures Path(boot, s, u) && Aside(t, u) && u.fl.slice1 && (u.fl.stored1 ==> t.fl.stored1)
    decreases Rank(t.ct, t.hw)
  {
    hide Path, Rank;
    u := Serves(boot, s, t, e);
    if Rank(u.ct, u.hw) > 6 { u := Latches1(boot, s, u, e); }
  }

  // ---------- the pulse receiver turns to the next file ----------

  // Steps to the end of the open of the next slice.
  function TurnDistance(pc: PulsePc): nat {
    match pc
    case LOpen => 1 case LInc => 2 case LSlotEnd => 3 case LSlotBegin => 4 case LClose => 5 case LPad => 6
    case LDrain => 7 case LCut => 8 case LFull => 9 case LDma => 10 case LFifo => 11
    case _ => 0
  }

  // Steps to the next test for data, or to the reading of chan_stored[1] before it.
  function LoopDistance(pc: PulsePc): nat {
    match pc
    case LStored => 1 case LStopClose => 2 case LStopAck => 3 case LStopRemove => 4 case LStopZero => 5
    case LStopSeek => 6 case LStop => 7 case LFirstMark => 8 case LStarClear => 9 case LFirstInc => 10
    case LMnReset => 11 case LSyReset => 12 case LFirstOpen => 13 case LFirstEnd => 14 case LFirstBegin => 15
    case LNumReset => 16 case LReset => 17 case LHead => 18
    case _ => 0
  }

  // The number n is free, or START took it for a file that the thread will close.
  ghost predicate Mine(os: Table, n: int) { 0 <= n < 0x8000_0000 && (os.Free(n) || os.ls.Holds(n)) }

  ghost predicate Available(s: State, n: int) {
    Mine(s.os, n) && (s.os.Free(n) || 0 < LoopDistance(s.ls.pc) < 13 || TurnDistance(s.ls.pc) >= 5)
  }

  ghost predicate Owned(s: State) { s.os.Distinct() && s.os.ls.Kept(s.ls.data.fd) }

  // Only the pulse receiver has moved; it has not turned to another slice.
  predicate Alone(s: State, t: State) {
    && t.mn == s.mn && t.sy == s.sy && t.ct == s.ct && t.hw == s.hw && PulseFlags(s.fl, t.fl)
    && t.fl.slice1 == s.fl.slice1 && t.fl.stored1 == s.fl.stored1 && t.rg.mnStop == s.rg.mnStop
    && t.ls.rotations == s.ls.rotations
  }

  // Its other calls leave the number alone, and its close gives it back.
  lemma StaysMine(os: Table, w: Write, fd: int, n: int)
    requires os.Distinct() && os.ls.Kept(fd) && Mine(os, n)
    requires w.Sys? ==> !w.call.OpenAt? && (w.call.CloseAt? ==> w.call.n == fd)
    ensures Mine(TableAfter(os, Ls, w), n)
    ensures w.Sys? && w.call.CloseAt? ==> TableAfter(os, Ls, w).Free(n)
  {
  }

  // What such a step of it writes.
  predicate Modest(p: PulseThread, q: PulseThread, w: Write) {
    && q.rotations == p.rotations && q.data.fd == p.data.fd && !w.SetFlag? && (w.SetReg? ==> !w.r.MnStop?)
    && (w.Sys? ==> !w.call.OpenAt? && (w.call.CloseAt? ==> w.call.n == p.data.fd))
  }

  lemma ModestStep(s: State, e: Env, n: int)
    requires Modest(s.ls, PulseStep(s, e).0, PulseStep(s, e).1) && Owned(s) && Mine(s.os, n)
    ensures var t := PulseNext(s, e);
      && Alone(s, t) && Mine(t.os, n) && Frees(s, t)
      && (PulseStep(s, e).1.Sys? && PulseStep(s, e).1.call.CloseAt? ==> t.os.Free(n))
  {
    hide PulseNext, PulseStep, TableAfter, Mine, LinesAfter, NamesAfter;
    PulseStores(s, e);
    PulseTouches(s.ls.pc, s, e);
    StaysMine(s.os, PulseStep(s, e).1, s.ls.data.fd, n);
    forall k | s.os.Free(k) ensures PulseNext(s, e).os.Free(k) { FreeAfter(s.os, Ls, PulseStep(s, e).1, k); }
  }

  // ---------- round the loop ----------

  lemma StartLoops(pc: PulsePc, s: State, e: Env)
    requires pc == s.ls.pc && pc.Commanded() && !pc.LFirstOpen?
    ensures var (p, w) := PulseStart(s, e);
      Modest(s.ls, p, w) && 0 < LoopDistance(p.pc) < LoopDistance(pc)
  {
    hide Naming.BaseName;
  }

  lemma StopLoops(pc: PulsePc, s: State, e: Env)
    requires pc == s.ls.pc && pc.Moving() && 0 < LoopDistance(pc) && !(pc.LStored? && s.fl.stored1)
    ensures var (p, w) := PulseMove(s, e);
      && Modest(s.ls, p, w)
      && (if pc.LStored? then p.pc.LFifo? else 0 < LoopDistance(p.pc) < LoopDistance(pc) < 13)
  {
  }

  lemma StartFile(s: State, e: Env)
    requires s.ls.pc.LFirstOpen? && s.os.Free(e.fd)
    ensures var t := PulseNext(s, e); Alone(s, t) && Available(t, e.fd) && LoopDistance(t.ls.pc) == 12
  {
    hide Naming.BaseName;
  }

  lemma LoopStep(pc: PulsePc, s: State, e: Env)
    requires pc == s.ls.pc && LoopDistance(pc) > 0 && !(pc.LStored? && s.fl.stored1)
    requires Available(s, e.fd) && Owned(s)
    ensures var t := PulseNext(s, e);
      && Alone(s, t) && Available(t, e.fd)
      && (if pc.LStored? then t.ls.pc.LFifo? else 0 < LoopDistance(t.ls.pc) < LoopDistance(pc))
  {
    hide PulseNext, PulseStart, PulseMove, PulseTurn, Modest, Alone, Owned, Mine;
    if pc.LFirstOpen? {
      StartFile(s, e);
    } else {
      PulseStores(s, e);
      if pc.Commanded() { StartLoops(pc, s, e); } else { StopLoops(pc, s, e); }
      ModestStep(s, e, e.fd);
    }
  }

  lemma Owner(boot: Boot, s: State)
    requires Reachable(boot, s)
    ensures Owned(s)
  {
    var steps :| Exec(Init(boot), steps) == s;
    hide Exec, Init;
    Ownership.HomesRun(boot, steps);
  }

  // Armed, and with a number for the file of a START that may be pending, the pulse receiver
  // comes to take data.
  lemma {:induction false} ReachesFifo(boot: Boot, s: State, t: State, e: Env) returns (u: State)
    requires PathOn(boot, s, t) && LoopDistance(t.ls.pc) > 0 && !t.fl.stored1 && Available(t, e.fd)
    ensures PathOn(boot, s, u) && Alone(t, u) && u.ls.pc.LFifo? && Available(u, e.fd)
    decreases LoopDistance(t.ls.pc)
  {
    hide Reachable, LeadsOn, PulseNext, LoopDistance, Available, Owned;
    Owner(boot, t);
    LoopStep(t.ls.pc, t, e);
    u := MovePulse(boot, s, t, e);
    if !t.ls.pc.LStored? { u := ReachesFifo(boot, s, u, e); }
  }

  // ---------- to the next open ----------

  lemma TurnsMoving(pc: PulsePc, s: State, e: Env)
    requires pc == s.ls.pc && TurnDistance(pc) >= 8 && s.fl.slice1 && !e.fifo
    ensures var (p, w) := PulseMove(s, e);
      && pc.Moving() && Modest(s.ls, p, w) && 7 <= TurnDistance(p.pc) < TurnDistance(pc) && NamesAfter(s.nm, w) == s.nm
      && !w.SetReg?
  {
  }

  lemma TurnsTurning(pc: PulsePc, s: State, e: Env)
    requires pc == s.ls.pc && 1 < TurnDistance(pc) <= 7
    ensures var (p, w) := PulseTurn(s, e);
      && Modest(s.ls, p, w) && TurnDistance(p.pc) == TurnDistance(pc) - 1
      && (pc.LClose? ==> w == Sys(CloseAt(s.ls.data.fd), 0)) && !w.SetReg?
      && NamesAfter(s.nm, w).mnNum == s.nm.mnNum && NamesAfter(s.nm, w).lsNum == s.nm.lsNum + Bit(pc.LInc?)
  {
    if TurnDistance(pc) <= 4 { TurnsNames(pc, s, e); } else { TurnsFile(pc, s, e); }
    hide PulseTurn, NamesAfter, Modest;
  }

  lemma TurnsNames(pc: PulsePc, s: State, e: Env)
    requires pc == s.ls.pc && 1 < TurnDistance(pc) <= 4
    ensures var (p, w) := PulseTurn(s, e);
      && Modest(s.ls, p, w) && TurnDistance(p.pc) == TurnDistance(pc) - 1 && !w.SetReg?
      && NamesAfter(s.nm, w).mnNum == s.nm.mnNum && NamesAfter(s.nm, w).lsNum == s.nm.lsNum + Bit(pc.LInc?)
  {
    hide Naming.BaseName;
  }

  lemma TurnsFile(pc: PulsePc, s: State, e: Env)
    requires pc == s.ls.pc && 4 < TurnDistance(pc) <= 7
    ensures var (p, w) := PulseTurn(s, e);
      && Modest(s.ls, p, w) && TurnDistance(p.pc) == TurnDistance(pc) - 1
      && (pc.LClose? ==> w == Sys(CloseAt(s.ls.data.fd), 0)) && !w.SetReg? && NamesAfter(s.nm, w) == s.nm
  {
    hide Naming.BaseName;
  }

  lemma TurnStep(pc: PulsePc, s: State, e: Env, n: int)
    requires pc == s.ls.pc && TurnDistance(pc) > 1 && s.fl.slice1 && !e.fifo && Available(s, n) && Owned(s)
    ensures var t := PulseNext(s, e);
      && Alone(s, t) && Available(t, n) && Frees(s, t) && 0 < TurnDistance(t.ls.pc) < TurnDistance(pc) && t.rg == s.rg
      && t.nm.mnNum == s.nm.mnNum && t.nm.lsNum == s.nm.lsNum + Bit(pc.LInc?) && (t.ls.pc.LOpen? <==> pc.LInc?)
  {
    hide PulseNext, PulseStart, PulseMove, PulseTurn, Modest, Alone, Owned, Mine, NamesAfter;
    PulseStores(s, e);
    if pc.Moving() { TurnsMoving(pc, s, e); } else { TurnsTurning(pc, s, e); }
    ModestStep(s, e, n);
  }

  lemma {:induction false} ReachesTurn(boot: Boot, s: State, t: State, e: Env, n: int) returns (u: State)
    requires PathOn(boot, s, t) && TurnDistance(t.ls.pc) > 0 && t.fl.slice1 && !e.fifo && Available(t, n)
    ensures PathOn(boot, s, u) && Alone(t, u) && u.ls.pc.LOpen? && u.os.Free(n) && Frees(t, u) && u.rg == t.rg
    ensures u.nm.mnNum == t.nm.mnNum && u.nm.lsNum == t.nm.lsNum + Bit(!t.ls.pc.LOpen?)
    decreases TurnDistance(t.ls.pc)
  {
    hide Reachable, LeadsOn, PulseNext, TurnDistance, Owned;
    u := t;
    if t.ls.pc.LOpen? {
      AtOpen(t, n);
    } else {
      assert TurnDistance(t.ls.pc) > 1 by { NotOpen1(t.ls.pc); }
      Owner(boot, t);
      TurnStep(t.ls.pc, t, e, n);
      hide Available;
      u := MovePulse(boot, s, t, e);
      u := ReachesTurn(boot, s, u, e, n);
    }
  }

  lemma AtOpen(s: State, n: int)
    requires s.ls.pc.LOpen? && Available(s, n)
    ensures s.os.Free(n)
  {
  }

  lemma NotOpen1(pc: PulsePc)
    requires TurnDistance(pc) > 0 && !pc.LOpen?
    ensures TurnDistance(pc) > 1
  {
  }

  // The open succeeds, the token is issued and the cut is done with.
  lemma TurnOpens(s: State, e: Env)
    requires s.ls.pc.LOpen? && s.os.Free(e.fd)
    ensures var t := PulseNext(s, e);
      && Alone(s, t) && t.ls.pc.LMark? && t.rg == s.rg && t.nm == s.nm && t.ls.data.fd == e.fd
      && t.os.ls == s.os.ls.Own(OpenAt(e.fd), 0) && (forall n :: n != e.fd && s.os.Free(n) ==> t.os.Free(n))
  {
  }

  lemma TurnMarks(s: State, e: Env)
    requires s.ls.pc.LMark?
    ensures var t := PulseNext(s, e);
      && Alone(s, t) && t.ls.pc.LSliceClear? && t.rg == s.rg.(fileMark := false) && t.nm == s.nm && t.os == s.os
      && t.ls.data.fd == s.ls.data.fd
  {
  }

  lemma TurnClears(s: State, e: Env)
    requires s.ls.pc.LSliceClear?
    ensures var t := PulseNext(s, e);
      && t.ls.pc.LStoredSet? && !t.fl.slice1 && t.ls.rotations == s.ls.rotations + 1 && t.ls.data.staged == []
      && t.rg == s.rg && t.nm == s.nm && t.os == s.os && t.ls.data.fd == s.ls.data.fd
  {
  }

  lemma TurnEnds(s: State, e: Env)
    requires s.ls.pc.LStoredSet?
    ensures var t := PulseNext(s, e);
      && t == s.(ls := t.ls, fl := t.fl) && t.ls == s.ls.(pc := LHead) && t.fl == s.fl.(stored1 := true)
  {
  }

  // ---------- a cut on channel 1 ----------

  // With the cut latched and a number free, the next slice is opened.
  lemma Opens1(boot: Boot, s: State, t: State, e: Env) returns (u: State)
    requires PathOn(boot, s, t) && TurnDistance(t.ls.pc) > 0 && t.fl.slice1 && !e.fifo && Available(t, e.fd)
    ensures PathOn(boot, s, u) && Alone(t, u) && u.ls.pc.LMark? && Fresh(u) && u.rg == t.rg
    ensures u.nm.mnNum == t.nm.mnNum && u.nm.lsNum == t.nm.lsNum + Bit(!t.ls.pc.LOpen?)
    ensures forall k :: k != e.fd && t.os.Free(k) ==> u.os.Free(k)
  {
    hide Reachable, LeadsOn, PulseNext, Available, Table.Free;
    u := ReachesTurn(boot, s, t, e, e.fd);
    TurnOpens(u, e);
    assert 0 <= e.fd by { hide *; NumberIs(u, e.fd); }
    u := MovePulse(boot, s, u, e);
  }

  lemma NumberIs(s: State, n: int)
    requires s.os.Free(n)
    ensures 0 <= n
  {
  }

  // The current file of the pulse receiver is open and empty.
  predicate Fresh(s: State) { s.os.ls.Holds(s.ls.data.fd) && s.os.ls.made && s.os.ls.bytes == [] }

  // The turn is done.
  predicate Turned(s: State, u: State) {
    u.ls.pc.LStoredSet? && u.ls.rotations == s.ls.rotations + 1 && !u.fl.slice1 && u.ls.data.staged == []
  }

  lemma FinishTurn(boot: Boot, s: State, t: State, e: Env) returns (u: State)
    requires PathOn(boot, s, t) && (t.ls.pc.LMark? || t.ls.pc.LSliceClear?)
    ensures PathOn(boot, s, u) && Turned(t, u) && u.nm == t.nm && u.os == t.os && u.ls.data.fd == t.ls.data.fd
    ensures t.ls.pc.LMark? ==> !u.rg.fileMark
  {
    hide Reachable, LeadsOn, PulseNext;
    u := t;
    if t.ls.pc.LMark? {
      TurnMarks(t, e);
      u := MovePulse(boot, s, t, e);
    }
    TurnClears(u, e);
    u := MovePulse(boot, s, u, e);
  }

  // From taking data to the end of the turn, with a cut raised if there is none.
  lemma CutTurns(boot: Boot, s: State, t: State, e: Env) returns (u: State)
    requires PathOn(boot, s, t) && TurnDistance(t.ls.pc) > 0 && !e.fifo && Available(t, e.fd)
    ensures PathOn(boot, s, u) && Turned(t, u) && Fresh(u) && !u.rg.fileMark
    ensures u.nm.lsNum == t.nm.lsNum + Bit(!t.ls.pc.LOpen?)
  {
    hide Reachable, Leads, LeadsOn, TurnDistance, Table.Free, Table.After;
    var v := t;
    if !t.fl.slice1 {
      Stay(boot, t);
      v := LatchesCut1(boot, t, t, e);
      Join(boot, s, t, v);
    }
    v := Opens1(boot, s, v, e);
    u := FinishTurn(boot, s, v, e);
  }

  // Armed again, if it was not, the receiver comes to take data.
  lemma ComesToFifo(boot: Boot, s: State, t: State, e: Env) returns (u: State)
    requires PathOn(boot, s, t) && LoopDistance(t.ls.pc) > 0 && t.ls.rotations < MAX_FILE_COUNT && t.os.Free(e.fd)
    ensures PathOn(boot, s, u) && u.ls.pc.LFifo? && Available(u, e.fd) && u.ls.rotations == t.ls.rotations
  {
    hide Reachable, Leads, LeadsOn, LoopDistance;
    var v := t;
    if t.fl.stored1 {
      Stay(boot, t);
      v := ArmsPulse(boot, t, t, e);
      Join(boot, s, t, v);
    }
    u := ReachesFifo(boot, s, v, e);
  }

  lemma Somewhere(pc: PulsePc)
    ensures TurnDistance(pc) > 0 || LoopDistance(pc) > 0 || pc.LMark? || pc.LSliceClear? || pc.LStoredSet?
    ensures TurnDistance(pc) > 0 ==> !pc.LMark? && !pc.LSliceClear? && !pc.LStoredSet?
    ensures pc.LHead? ==> LoopDistance(pc) > 0
    ensures pc.LFifo? ==> TurnDistance(pc) > 0
  {
  }

  lemma Rotating(boot: Boot, s: State, e: Env) returns (u: State)
    requires Reachable(boot, s) && s.ls.rotations < MAX_FILE_COUNT && s.os.Free(e.fd) && !e.fifo
    ensures PathOn(boot, s, u) && Turned(s, u)
    ensures !s.ls.pc.LMark? && !s.ls.pc.LSliceClear? ==> Fresh(u)
    ensures !s.ls.pc.LSliceClear? ==> !u.rg.fileMark
    ensures TurnDistance(s.ls.pc) > 0 ==> u.nm.lsNum == s.nm.lsNum + Bit(!s.ls.pc.LOpen?)
  {
    hide Reachable, LeadsOn, PulseNext, LoopDistance, TurnDistance, Fresh, Table.Free, Table.After;
    StayOn(boot, s);
    Somewhere(s.ls.pc);
    if s.ls.pc.LMark? || s.ls.pc.LSliceClear? {
      u := FinishTurn(boot, s, s, e);
    } else if TurnDistance(s.ls.pc) > 0 {
      assert Available(s, e.fd) by { FreeAvailable(s, e.fd); }
      u := CutTurns(boot, s, s, e);
    } else {
      var t := s;
      if s.ls.pc.LStoredSet? {
        TurnEnds(s, e);
        t := MovePulse(boot, s, s, e);
        Somewhere(t.ls.pc);
      }
      t := ComesToFifo(boot, s, t, e);
      Somewhere(t.ls.pc);
      u := CutTurns(boot, s, t, e);
    }
  }

  lemma FreeAvailable(s: State, n: int)
    requires s.os.Free(n)
    ensures Available(s, n)
  {
  }

  // The slice is turned: the cut is done with, and, unless the open was made before, a new
  // empty file is open and FILE_MARK is 0.
  ghost predicate Next1(s: State, u: State) {
    && LeadsOn(s, u) && Turned(s, u)
    && (!s.ls.pc.LMark? && !s.ls.pc.LSliceClear? ==> Fresh(u) && !u.rg.fileMark)
    && (TurnDistance(s.ls.pc) > 0 ==> u.nm.lsNum == s.nm.lsNum + Bit(!s.ls.pc.LOpen?))
  }

  // Whatever state the threads are in, STOP and START pending included: as long as fewer than
  // MAX_FILE_COUNT slices were turned and a number is free, the hardware can cut channel 1, and
  // the pulse receiver turns to its next slice; and unless that was the last one, control then
  // arms it again.
  lemma {:induction false} CutLeadsOn(boot: Boot, steps: seq<Step>)
    ensures var s := Exec(Init(boot), steps);
      s.ls.rotations < MAX_FILE_COUNT && NumberFree(s) ==>
        exists u :: Next1(s, u)
                    && (u.ls.rotations < MAX_FILE_COUNT ==>
                          exists v :: LeadsOn(u, v) && !v.fl.stored1 && v.ls == u.ls.(pc := LHead))
  {
    hide Exec, Next1, NumberFree;
    var s := Exec(Init(boot), steps);
    if s.ls.rotations < MAX_FILE_COUNT && NumberFree(s) {
      assert Reachable(boot, s);
      var u := Turns(boot, s);
      if u.ls.rotations < MAX_FILE_COUNT { var v := Rearms1(boot, u); }
    }
  }

  lemma Turns(boot: Boot, s: State) returns (u: State)
    requires Reachable(boot, s) && s.ls.rotations < MAX_FILE_COUNT && NumberFree(s)
    ensures Reachable(boot, u) && Next1(s, u) && u.ls.pc.LStoredSet?
  {
    hide Reachable, LeadsOn, Fresh, Table.Free;
    var n :| s.os.Free(n);
    u := Rotating(boot, s, Environment(n));
  }

  lemma Rearms1(boot: Boot, s: State) returns (u: State)
    requires Reachable(boot, s) && s.ls.pc.LStoredSet? && s.ls.rotations < MAX_FILE_COUNT
    ensures LeadsOn(s, u) && !u.fl.stored1 && u.ls == s.ls.(pc := LHead)
  {
    hide Reachable, Leads, LeadsOn, PulseNext;
    StayOn(boot, s);
    TurnEnds(s, Environment(0));
    var t := MovePulse(boot, s, s, Environment(0));
    Stay(boot, t);
    u := ArmsPulse(boot, t, t, Environment(0));
    Join(boot, s, t, u);
  }

  // ---------- a turn leads to the next main file ----------

  // A number for the pulse file, and one more for the index receiver in a re-arming.
  ghost predicate Supplied(s: State) {
    || (Ready(s) && NumberFree(s))
    || (Room(s) && exists m, n :: m != n && s.os.Free(m) && s.os.Free(n))
  }

  // A slice is being turned and its token not issued yet.
  predicate UnderWay(s: State) { s.ls.pc.LMark? || (TurnDistance(s.ls.pc) > 0 && s.fl.slice1) }

  // With a turn under way, and the main receiver not opening a file but ready for the next
  // one, or with room for a re-arming, and with numbers to give, the threads and the hardware alone come to its next
  // open: the pulse receiver opens its slice and issues the token, and no client has to write.
  lemma {:induction false} TurnOpensMain(boot: Boot, steps: seq<Step>)
    ensures var s := Exec(Init(boot), steps);
      UnderWay(s) && !s.mn.pc.Opening() && Supplied(s) ==> exists u :: LeadsOn(s, u) && Opens(s, u)
  {
    hide Exec, Opens, UnderWay, Supplied;
    var s := Exec(Init(boot), steps);
    if UnderWay(s) && !s.mn.pc.Opening() && Supplied(s) {
      assert Reachable(boot, s);
      var u := ToMainOpen(boot, s);
    }
  }

  // The main receiver is at its next open, with one slice more, or the one that was counted.
  predicate Opens(s: State, u: State) {
    && u.mn.pc.MOpen? && u.nm.mnNum == s.nm.mnNum + 1
    && u.nm.lsNum == s.nm.lsNum + Bit(!s.ls.pc.LOpen? && !s.ls.pc.LMark?)
  }

  lemma ToMainOpen(boot: Boot, s: State) returns (u: State)
    requires Reachable(boot, s) && UnderWay(s) && !s.mn.pc.Opening() && Supplied(s)
    ensures LeadsOn(s, u) && Opens(s, u)
  {
    hide Reachable, LeadsOn, Leads, Table.Free, Fresh, Ready, Room;
    var n :| s.os.Free(n) && (Ready(s) || (Room(s) && exists m :: m != n && s.os.Free(m)));
    StayOn(boot, s);
    var t := s;
    if !s.ls.pc.LMark? {
      FreeAvailable(s, n);
      t := Opens1(boot, s, s, Environment(n));
    }
    var v := Marks1(boot, s, t, Environment(n));
    SameReady1(s, v);
    var w := OpensOneMore(boot, v);
    Join(boot, s, v, w);
    u := w;
  }

  lemma Marks1(boot: Boot, s: State, t: State, e: Env) returns (u: State)
    requires PathOn(boot, s, t) && t.ls.pc.LMark?
    ensures PathOn(boot, s, u) && Alone(t, u) && !u.rg.fileMark && u.nm == t.nm && u.os == t.os
  {
    hide Reachable, LeadsOn, PulseNext;
    TurnMarks(t, e);
    u := MovePulse(boot, s, t, e);
  }

  lemma SameReady1(s: State, t: State)
    requires t.mn == s.mn && t.ct == s.ct && PulseFlags(s.fl, t.fl) && t.rg.mnStop == s.rg.mnStop
    ensures (Ready(t) <==> Ready(s)) && (Room(t) <==> Room(s))
  {
  }
}
