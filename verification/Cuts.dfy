// The four-phase cut handshake (src/ubram.c:116-129, src/store.c:187-209) and what the
// receivers make of the flags it sets (src/store.c:334-346, 418-438, 555-596).
module Cuts {
  import opened Common
  import Naming
  import opened Protocol
  import opened Barrier
  import opened Frames

  // A lowered request that has not been latched into chan_slice yet.
  ghost predicate Served0(c: Control, w: Hardware) { c.pc.Serving0() || (c.pc.CSpin0? && !w.req0) }

  ghost predicate Served1(c: Control, w: Hardware) { c.pc.Serving1() || (c.pc.CSpin1? && !w.req1) }

  ghost predicate Handshake0(c: Control, w: Hardware) {
    && w.raised0 == c.latched0 + Bit(w.req0) + Bit(Served0(c, w))
    && (w.ack0 <==> c.pc.CSpin0? || c.pc.CRelease0?)
    && (c.pc.CAck0? ==> w.req0)
    && (c.pc.CRelease0? ==> !w.req0)
    && c.latchedIndex == c.latched0 + Bit(c.pc.CSliceSet0?)
  }

  ghost predicate Handshake1(c: Control, w: Hardware) {
    && w.raised1 == c.latched1 + Bit(w.req1) + Bit(Served1(c, w))
    && (w.ack1 <==> c.pc.CSpin1? || c.pc.CRelease1?)
    && (c.pc.CAck1? ==> w.req1)
    && (c.pc.CRelease1? ==> !w.req1)
  }

  // A receiver acts on a cut only if one was latched, and once for each time.
  ghost predicate Consumed(f: Flags, m: MainThread, x: IndexThread, p: PulseThread, c: Control) {
    && m.cuts + Bit(f.slice0) <= c.latched0
    && (m.pc.MDrain? || m.pc.MClose? || m.pc.MSliceClear? ==> f.slice0)
    && x.cuts + Bit(f.index0) <= c.latchedIndex
    && (x.pc.ICutClose? || x.pc.ICutIndex? ==> f.index0)
    && p.rotations + Bit(f.slice1) <= c.latched1
    && (p.pc.LDrain? || p.pc.Rotating() ==> f.slice1)
  }

  // The pulse stream rotates at most once for each time it was armed.
  ghost predicate PulseArmed(f: Flags, p: PulseThread, c: Control) {
    && p.rotations + 1 == c.count1 + Bit(f.stored1 || p.pc.LStoredSet?)
    && (p.pc.Receiving() ==> !f.stored1)
    && c.count1 <= MAX_FILE_COUNT
    && (c.pc.CAlt1? || c.pc.CStoredClear1? ==> f.stored1 && c.count1 < MAX_FILE_COUNT)
  }

  // A flag is 1 exactly when more cuts were latched than its receiver had seen when it last
  // cleared it.
  ghost predicate Pending(f: Flags, main: nat, index: nat, pulse: nat, c: Control) {
    && main <= c.latched0 && (f.slice0 <==> main < c.latched0)
    && index <= c.latchedIndex && (f.index0 <==> index < c.latchedIndex)
    && pulse <= c.latched1 && (f.slice1 <==> pulse < c.latched1)
  }

  ghost predicate Cut(s: State) {
    && Handshake0(s.ct, s.hw) && Handshake1(s.ct, s.hw)
    && Consumed(s.fl, s.mn, s.sy, s.ls, s.ct) && PulseArmed(s.fl, s.ls, s.ct)
    && Pending(s.fl, s.mn.cleared, s.sy.cleared, s.ls.cleared, s.ct)
  }

  lemma ControlLatches(pc: ControlPc, s: State, e: Env)
    requires pc == s.ct.pc && Cut(s)
    ensures var (c, w) := ControlStep(s, e);
      Pending(FlagsAfter(s.fl, w), s.mn.cleared, s.sy.cleared, s.ls.cleared, c)
  {
    hide Handshake0, Handshake1, Consumed, PulseArmed;
  }

  // A receiver clears its flag only when it has seen all cuts latched.
  ghost predicate Cleared(flag: bool, cleared: nat, flagAfter: bool, clearedAfter: nat, latched: nat) {
    if flagAfter == flag then clearedAfter == cleared || (!flag && clearedAfter == latched)
    else !flagAfter && clearedAfter == latched
  }

  // Each receiver trades a latched cut for a rotation, or drops it.
  ghost predicate MainTraded(s: State, m: MainThread, f: Flags) {
    && m.cuts + Bit(f.slice0) <= s.mn.cuts + Bit(s.fl.slice0)
    && Cleared(s.fl.slice0, s.mn.cleared, f.slice0, m.cleared, s.ct.latched0)
    && (m.pc.MDrain? || m.pc.MClose? || m.pc.MSliceClear? ==> f.slice0)
  }

  lemma MainTrades(pc: MainPc, s: State, e: Env)
    requires pc == s.mn.pc && (pc.MDrain? || pc.MClose? || pc.MSliceClear? ==> s.fl.slice0)
    ensures MainTraded(s, MainStep(s, e).0, FlagsAfter(s.fl, MainStep(s, e).1))
  {
    if !pc.Active() { MainIdleTrades(pc, s, e); }
    else if pc.Naming() { MainNameTrades(pc, s, e); }
    else { MainMoveTrades(pc, s, e); }
    hide MainIdle, MainName, MainMove, MainTraded;
  }

  lemma MainIdleTrades(pc: MainPc, s: State, e: Env)
    requires pc == s.mn.pc && !pc.Active()
    ensures MainTraded(s, MainIdle(s, e).0, FlagsAfter(s.fl, MainIdle(s, e).1))
  {
  }

  lemma MainNameTrades(pc: MainPc, s: State, e: Env)
    requires pc == s.mn.pc && pc.Naming()
    ensures MainTraded(s, MainName(s, e).0, FlagsAfter(s.fl, MainName(s, e).1))
  {
  }

  lemma MainMoveTrades(pc: MainPc, s: State, e: Env)
    requires pc == s.mn.pc && pc.Active() && !pc.Naming()
    requires (pc.MDrain? || pc.MClose? || pc.MSliceClear? ==> s.fl.slice0)
    ensures MainTraded(s, MainMove(s, e).0, FlagsAfter(s.fl, MainMove(s, e).1))
  {
  }

  ghost predicate IndexTraded(s: State, x: IndexThread, f: Flags) {
    && x.cuts + Bit(f.index0) <= s.sy.cuts + Bit(s.fl.index0)
    && Cleared(s.fl.index0, s.sy.cleared, f.index0, x.cleared, s.ct.latchedIndex)
    && (x.pc.ICutClose? || x.pc.ICutIndex? ==> f.index0)
  }

  lemma IndexTrades(pc: IndexPc, s: State, e: Env)
    requires pc == s.sy.pc && (pc.ICutClose? || pc.ICutIndex? ==> s.fl.index0)
    ensures IndexTraded(s, IndexStep(s, e).0, FlagsAfter(s.fl, IndexStep(s, e).1))
  {
    if !pc.Active() { IndexIdleTrades(pc, s, e); }
    else if pc.Taking() || pc.Naming() { IndexTakeTrades(pc, s, e); }
    else { IndexSaveTrades(pc, s, e); }
    hide IndexIdle, IndexTake, IndexName, IndexSave, IndexTraded;
  }

  lemma IndexIdleTrades(pc: IndexPc, s: State, e: Env)
    requires pc == s.sy.pc && !pc.Active()
    ensures IndexTraded(s, IndexIdle(s, e).0, FlagsAfter(s.fl, IndexIdle(s, e).1))
  {
  }

  lemma IndexTakeTrades(pc: IndexPc, s: State, e: Env)
    requires pc == s.sy.pc && (pc.Taking() || pc.Naming())
    ensures IndexTraded(s, IndexTake(s, e).0, FlagsAfter(s.fl, IndexTake(s, e).1))
    ensures IndexTraded(s, IndexName(s, e).0, FlagsAfter(s.fl, IndexName(s, e).1))
  {
  }

  lemma IndexSaveTrades(pc: IndexPc, s: State, e: Env)
    requires pc == s.sy.pc && pc.Active() && !pc.Taking() && !pc.Naming()
    requires (pc.ICutClose? || pc.ICutIndex? ==> s.fl.index0)
    ensures IndexTraded(s, IndexSave(s, e).0, FlagsAfter(s.fl, IndexSave(s, e).1))
  {
  }

  ghost predicate PulseTraded(s: State, p: PulseThread, f: Flags) {
    && p.rotations + Bit(f.slice1) == s.ls.rotations + Bit(s.fl.slice1)
    && Cleared(s.fl.slice1, s.ls.cleared, f.slice1, p.cleared, s.ct.latched1)
    && (p.pc.LDrain? || p.pc.Rotating() ==> f.slice1)
    && p.rotations + Bit(s.fl.stored1 || s.ls.pc.LStoredSet?) == s.ls.rotations + Bit(f.stored1 || p.pc.LStoredSet?)
    && (s.fl.stored1 ==> f.stored1)
    && (p.pc.Receiving() ==> !f.stored1)
  }

  lemma PulseStartTrades(pc: PulsePc, s: State, e: Env)
    requires pc == s.ls.pc && pc.Commanded()
    ensures PulseTraded(s, PulseStart(s, e).0, FlagsAfter(s.fl, PulseStart(s, e).1))
  {
    hide Naming.BaseName;
  }

  lemma PulseStopTrades(pc: PulsePc, s: State, e: Env)
    requires pc == s.ls.pc && pc.Moving() && !pc.Receiving()
    ensures PulseTraded(s, PulseMove(s, e).0, FlagsAfter(s.fl, PulseMove(s, e).1))
  {
  }

  lemma PulseMoveTrades(pc: PulsePc, s: State, e: Env)
    requires pc == s.ls.pc && pc.Moving() && pc.Receiving() && !s.fl.stored1
    ensures PulseTraded(s, PulseMove(s, e).0, FlagsAfter(s.fl, PulseMove(s, e).1))
  {
  }

  lemma PulseTurnTrades(pc: PulsePc, s: State, e: Env)
    requires pc == s.ls.pc && !pc.Commanded() && !pc.Moving() && !s.fl.stored1
    requires pc.LDrain? || pc.Rotating() ==> s.fl.slice1
    ensures PulseTraded(s, PulseTurn(s, e).0, FlagsAfter(s.fl, PulseTurn(s, e).1))
  {
    hide Naming.BaseName;
  }

  lemma PulseTrades(pc: PulsePc, s: State, e: Env)
    requires pc == s.ls.pc && (pc.LDrain? || pc.Rotating() ==> s.fl.slice1) && (pc.Receiving() ==> !s.fl.stored1)
    ensures PulseTraded(s, PulseStep(s, e).0, FlagsAfter(s.fl, PulseStep(s, e).1))
  {
    if pc.Commanded() { PulseStartTrades(pc, s, e); }
    else if pc.Moving() && pc.Receiving() { PulseMoveTrades(pc, s, e); }
    else if pc.Moving() { PulseStopTrades(pc, s, e); }
    else { PulseTurnTrades(pc, s, e); }
    hide PulseStart, PulseMove, PulseTurn, PulseTraded;
  }

  // A trade of one receiver keeps what is said of all three.
  lemma TradesKeep(s: State, f: Flags, m: MainThread, x: IndexThread, p: PulseThread)
    requires MainTraded(s, m, f) && IndexTraded(s, x, f) && PulseTraded(s, p, f) && Cut(s)
    ensures Consumed(f, m, x, p, s.ct) && PulseArmed(f, p, s.ct) && Pending(f, m.cleared, x.cleared, p.cleared, s.ct)
  {
    hide Handshake0, Handshake1;
  }

  lemma MainCuts(pc: MainPc, s: State, e: Env)
    requires pc == s.mn.pc && Cut(s)
    ensures Cut(MainNext(s, e))
  {
    MainTrades(pc, s, e);
    MainTouches(pc, s, e);
    MainStores(s, e);
    hide MainNext, MainStep, FlagsAfter;
    var t := MainNext(s, e);
    TradesKeep(s, t.fl, t.mn, t.sy, t.ls);
    hide Handshake0, Handshake1, Consumed, PulseArmed, Pending;
  }

  lemma IndexCuts(pc: IndexPc, s: State, e: Env)
    requires pc == s.sy.pc && Cut(s)
    ensures Cut(IndexNext(s, e))
  {
    IndexTrades(pc, s, e);
    IndexTouches(pc, s, e);
    IndexStores(s, e);
    hide IndexNext, IndexStep, FlagsAfter;
    var t := IndexNext(s, e);
    TradesKeep(s, t.fl, t.mn, t.sy, t.ls);
    SameLines(s.ct, s.hw, t.hw);
    hide Handshake0, Handshake1, Consumed, PulseArmed, Pending;
  }

  lemma SameLines(c: Control, w: Hardware, v: Hardware)
    requires Handshake0(c, w) && Handshake1(c, w) && (v == w || v == w.(invalidate := v.invalidate))
    ensures Handshake0(c, v) && Handshake1(c, v)
  {
  }

  lemma PulseCuts(pc: PulsePc, s: State, e: Env)
    requires pc == s.ls.pc && Cut(s)
    ensures Cut(PulseNext(s, e))
  {
    PulseTrades(pc, s, e);
    PulseTouches(pc, s, e);
    PulseStores(s, e);
    hide PulseNext, PulseStep, FlagsAfter;
    var t := PulseNext(s, e);
    TradesKeep(s, t.fl, t.mn, t.sy, t.ls);
    hide Handshake0, Handshake1, Consumed, PulseArmed, Pending;
  }

  lemma ControlRearmCuts(pc: ControlPc, s: State, e: Env)
    requires pc == s.ct.pc && pc.Granting() && Cut(s)
    ensures var (c, w) := ControlRearm(s, e);
      Handshake0(c, LinesAfter(s.hw, w)) && Handshake1(c, LinesAfter(s.hw, w))
  {
    hide Consumed, PulseArmed, Pending;
  }

  lemma ControlRearmConsumes(pc: ControlPc, s: State, e: Env)
    requires pc == s.ct.pc && pc.Granting() && Cut(s)
    ensures var (c, w) := ControlRearm(s, e); Consumed(FlagsAfter(s.fl, w), s.mn, s.sy, s.ls, c)
  {
    hide Handshake0, Handshake1, PulseArmed, Pending;
  }

  lemma ControlRearmArms(pc: ControlPc, s: State, e: Env)
    requires pc == s.ct.pc && pc.Granting() && Cut(s)
    ensures var (c, w) := ControlRearm(s, e); PulseArmed(FlagsAfter(s.fl, w), s.ls, c)
  {
    hide Handshake0, Handshake1, Consumed, Pending;
    var (c, w) := ControlRearm(s, e);
    assert c.count1 == s.ct.count1 + Bit(pc.CStoredClear1?);
    assert FlagsAfter(s.fl, w).stored1 == (s.fl.stored1 && !pc.CStoredClear1?);
  }

  lemma ControlCutServes(pc: ControlPc, s: State, e: Env)
    requires pc == s.ct.pc && !pc.Granting() && Cut(s)
    ensures var (c, w) := ControlCut(s, e);
      Handshake0(c, LinesAfter(s.hw, w)) && Handshake1(c, LinesAfter(s.hw, w))
  {
    hide Consumed, PulseArmed, Pending;
  }

  lemma ControlCutLatches(pc: ControlPc, s: State, e: Env)
    requires pc == s.ct.pc && !pc.Granting() && Cut(s)
    ensures var (c, w) := ControlCut(s, e);
      Consumed(FlagsAfter(s.fl, w), s.mn, s.sy, s.ls, c) && PulseArmed(FlagsAfter(s.fl, w), s.ls, c)
  {
    hide Handshake0, Handshake1, Pending;
  }

  lemma ControlCuts(pc: ControlPc, s: State, e: Env)
    requires pc == s.ct.pc && Cut(s)
    ensures Cut(ControlNext(s, e))
  {
    ControlStores(s, e);
    ControlLatches(pc, s, e);
    if pc.Granting() {
      ControlRearmCuts(pc, s, e);
      ControlRearmConsumes(pc, s, e);
      ControlRearmArms(pc, s, e);
    } else {
      ControlCutServes(pc, s, e);
      ControlCutLatches(pc, s, e);
    }
    hide ControlNext, ControlRearm, ControlCut, Handshake0, Handshake1, Consumed, PulseArmed, Pending,
         FlagsAfter, LinesAfter;
  }

  lemma SignalCuts(s: State, signal: Signal)
    requires Cut(s)
    ensures Cut(Next(s, Hw(signal)))
  {
    hide Consumed, PulseArmed, Pending;
  }

  lemma OutsideCuts(s: State, st: Step)
    requires (st.Net? || st.Other?) && Cut(s)
    ensures Cut(Next(s, st))
  {
    hide Handshake0, Handshake1, Consumed, PulseArmed, Pending;
  }

  lemma CutStep(s: State, st: Step)
    requires Cut(s)
    ensures Cut(Next(s, st))
  {
    hide Cut, MainNext, IndexNext, PulseNext, ControlNext, NetNext, OtherNext;
    match st
    case MnStep(e) => MainCuts(s.mn.pc, s, e);
    case SyStep(e) => IndexCuts(s.sy.pc, s, e);
    case LsStep(e) => PulseCuts(s.ls.pc, s, e);
    case CtStep(e) => ControlCuts(s.ct.pc, s, e);
    case Hw(signal) => SignalCuts(s, signal);
    case _ => OutsideCuts(s, st);
  }

  lemma {:induction false} CutRun(boot: Boot, steps: seq<Step>)
    ensures Cut(Exec(Init(boot), steps))
  {
    if steps != [] {
      var n := |steps| - 1;
      CutRun(boot, steps[..n]);
      CutStep(Exec(Init(boot), steps[..n]), steps[n]);
    }
  }

  // Every cut raised is latched once. At most two are on their way, because the acknowledge
  // falls before chan_slice is written; outside the handshake it is low.
  lemma {:induction false} CutsExactlyOnce(boot: Boot, steps: seq<Step>)
    ensures var s := Exec(Init(boot), steps);
      && s.hw.raised0 == s.ct.latched0 + Bit(s.hw.req0) + Bit(Served0(s.ct, s.hw))
      && s.hw.raised1 == s.ct.latched1 + Bit(s.hw.req1) + Bit(Served1(s.ct, s.hw))
      && (s.ct.pc.Granting() || s.ct.pc.CReq0? || s.ct.pc.CReq1? ==>
            !s.hw.ack0 && !s.hw.ack1
            && s.hw.raised0 <= s.ct.latched0 + 1 && s.hw.raised1 <= s.ct.latched1 + 1)
      && (s.fl.slice0 <==> s.mn.cleared < s.ct.latched0)
      && (s.fl.index0 <==> s.sy.cleared < s.ct.latchedIndex) && s.ct.latched0 <= s.ct.latchedIndex <= s.ct.latched0 + 1
      && (s.fl.slice1 <==> s.ls.cleared < s.ct.latched1)
  {
    CutRun(boot, steps);
    hide Exec;
  }

  // No rotation is spurious: what was acted on and what is pending never exceeds what was raised.
  lemma {:induction false} NoSpuriousRotation(boot: Boot, steps: seq<Step>)
    ensures var s := Exec(Init(boot), steps);
      && s.mn.cuts + Bit(s.fl.slice0) <= s.hw.raised0
      && s.sy.cuts + Bit(s.fl.index0) <= s.hw.raised0
      && s.ls.rotations + Bit(s.fl.slice1) <= s.hw.raised1
      && s.ls.rotations <= MAX_FILE_COUNT
  {
    CutRun(boot, steps);
    hide Exec;
  }

  ghost predicate Serving(boot: Boot, s: State, pc: ControlPc, req: bool, ack: bool) {
    && Reachable(boot, s) && s.ct.pc == pc && s.hw.req0 == req && s.hw.ack0 == ack
    && !s.fl.indexed0 && !s.fl.stored1 && s.hw.raised0 == 1 && s.ct.latched0 == 0
  }

  lemma Serve(boot: Boot, s: State, pc: ControlPc, req: bool, ack: bool, e: Env) returns (t: State)
    requires Serving(boot, s, pc, req, ack)
    requires pc.CIndexed? || pc.CStored1? || (pc.CReq0? && req) || pc.CAck0? || (pc.CSpin0? && !req) || pc.CRelease0?
    ensures Serving(boot, t, t.ct.pc, req, t.hw.ack0)
    ensures t.ct.pc == match pc
                       case CIndexed => CStored1 case CStored1 => CReq0 case CReq0 => CAck0 case CAck0 => CSpin0
                       case CSpin0 => CRelease0 case _ => CIndexSet
    ensures t.hw.ack0 == match pc case CAck0 => true case CRelease0 => false case _ => ack
  {
    hide Exec, Init;
    t := Go(boot, s, CtStep(e));
  }

  lemma Signalled(boot: Boot, s: State, signal: Signal) returns (t: State)
    requires s == Init(boot) || Reachable(boot, s)
    ensures Reachable(boot, t) && t == s.(hw := HardwareStep(s.hw, signal))
  {
    hide Exec, Init, HardwareStep;
    t := Go(boot, s, Hw(signal));
  }

  lemma FirstRaised(boot: Boot) returns (s: State)
    ensures Serving(boot, s, CIndexed, true, false)
  {
    s := Signalled(boot, Init(boot), Raise0);
  }

  // The second cut can indeed be raised before the first is latched.
  lemma TwoCutsOnTheWay(boot: Boot, e: Env)
    ensures exists s :: Reachable(boot, s) && s.hw.raised0 == 2 && s.ct.latched0 == 0
  {
    hide Reachable, Exec, Init;
    var s := FirstRaised(boot);
    s := Serve(boot, s, CIndexed, true, false, e);
    s := Serve(boot, s, CStored1, true, false, e);
    s := Serve(boot, s, CReq0, true, false, e);
    s := Serve(boot, s, CAck0, true, false, e);
    s := Signalled(boot, s, Lower0);
    s := Serve(boot, s, CSpin0, false, true, e);
    s := Serve(boot, s, CRelease0, false, true, e);
    s := Signalled(boot, s, Raise0);
  }
}
