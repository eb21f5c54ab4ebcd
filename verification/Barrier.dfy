// The re-arm barrier between the main and the index receiver, kept by store_control
// (src/store.c:216-227, 284-300, 334-346, 366-383, 418-438).
module Barrier {
  import opened Common
  import opened Protocol
  import opened Frames

  function Bit(b: bool): nat { if b then 1 else 0 }

  // Who may rely on which flag, program point by program point.
  ghost predicate Reliance(f: Flags, m: MainThread, x: IndexThread, c: Control) {
    && (m.pc.Active() ==> !f.stored0)
    && (x.pc.Active() ==> !f.indexed0)
    && (c.pc.SawStored() ==> f.stored0)
    && (c.pc.SawIndexed() ==> f.indexed0)
    && (c.pc.AltGiven() ==> f.sliceAlt0)
    && (m.pc.Unwinding() ==> f.stored0 || f.sliceAlt0)
    && (x.pc.AltSet() ==> f.indexAlt0)
  }

  // Every 0-to-1 change of a flag is either undone by a re-arm or still visible in the flag.
  ghost predicate Generations(f: Flags, m: MainThread, x: IndexThread, c: Control) {
    && m.gen == c.rearms + Bit(f.stored0)
    && x.gen == c.indexRearms + Bit(f.indexed0)
    && c.rearms == c.indexRearms + Bit(c.pc.CIndexed0?)
    && c.altGrants == c.rearms + Bit(c.pc.AltGiven())
    && c.count0 == 1 + c.indexRearms
    && c.count0 <= MAX_FILE_COUNT
    && (c.pc.Rearming() ==> c.count0 < MAX_FILE_COUNT)
  }

  // A receiver opens at most one file for each time it was armed.
  ghost predicate Opens(f: Flags, m: MainThread, x: IndexThread, c: Control) {
    && m.opens + Bit(f.sliceAlt0 && !m.pc.MAltClear?) <= c.altGrants + 1
    && (m.pc.SawAlt() ==> f.sliceAlt0) && (m.pc.MDma? ==> !f.sliceAlt0)
    && x.opens <= x.lastGen <= c.indexRearms + 1
    && (x.lastGen == c.indexRearms + 1 && f.indexAlt0 && !f.indexed0 ==> x.pc.AltOwned())
    && (x.pc.SawAlt() ==> f.indexAlt0)
  }

  ghost predicate ArmedIn(f: Flags, m: MainThread, x: IndexThread, c: Control) {
    Reliance(f, m, x, c) && Generations(f, m, x, c) && Opens(f, m, x, c)
  }

  ghost predicate Armed(s: State) {
    ArmedIn(s.fl, s.mn, s.sy, s.ct)
  }

  lemma MainIdleKeeps(pc: MainPc, s: State, e: Env)
    requires pc == s.mn.pc && !pc.Active() && Armed(s)
    ensures ArmedIn(FlagsAfter(s.fl, MainIdle(s, e).1), MainIdle(s, e).0, s.sy, s.ct)
  {
  }

  lemma MainNameKeeps(pc: MainPc, s: State, e: Env)
    requires pc == s.mn.pc && pc.Naming() && Armed(s)
    ensures ArmedIn(FlagsAfter(s.fl, MainName(s, e).1), MainName(s, e).0, s.sy, s.ct)
  {
  }

  lemma MainMoveKeeps(pc: MainPc, s: State, e: Env)
    requires pc == s.mn.pc && pc.Active() && !pc.Naming() && Armed(s)
    ensures ArmedIn(FlagsAfter(s.fl, MainMove(s, e).1), MainMove(s, e).0, s.sy, s.ct)
  {
  }

  lemma IndexIdleKeeps(pc: IndexPc, s: State, e: Env)
    requires pc == s.sy.pc && !pc.Active() && Armed(s)
    ensures ArmedIn(FlagsAfter(s.fl, IndexIdle(s, e).1), s.mn, IndexIdle(s, e).0, s.ct)
  {
  }

  lemma IndexTakeKeeps(pc: IndexPc, s: State, e: Env)
    requires pc == s.sy.pc && pc.Active() && pc.Taking() && Armed(s)
    ensures ArmedIn(FlagsAfter(s.fl, IndexTake(s, e).1), s.mn, IndexTake(s, e).0, s.ct)
  {
  }

  lemma IndexNameKeeps(pc: IndexPc, s: State, e: Env)
    requires pc == s.sy.pc && pc.Active() && !pc.Taking() && pc.Naming() && Armed(s)
    ensures ArmedIn(FlagsAfter(s.fl, IndexName(s, e).1), s.mn, IndexName(s, e).0, s.ct)
  {
  }

  lemma IndexSaveKeeps(pc: IndexPc, s: State, e: Env)
    requires pc == s.sy.pc && pc.Active() && !pc.Taking() && !pc.Naming() && Armed(s)
    ensures ArmedIn(FlagsAfter(s.fl, IndexSave(s, e).1), s.mn, IndexSave(s, e).0, s.ct)
  {
    if pc.ISave? { SaveMoves(s, e); hide IndexSave, FlagsAfter; }
  }

  lemma SaveMoves(s: State, e: Env)
    requires s.sy.pc.ISave?
    ensures var (x, w) := IndexSave(s, e);
      && x.pc.ICut? && x.gen == s.sy.gen && x.opens == s.sy.opens && x.lastGen == s.sy.lastGen
      && FlagsAfter(s.fl, w) == s.fl
  {
  }

  lemma ControlRearmRelies(pc: ControlPc, s: State, e: Env)
    requires pc == s.ct.pc && pc.Granting() && Armed(s)
    ensures var (c, w) := ControlRearm(s, e); Reliance(FlagsAfter(s.fl, w), s.mn, s.sy, c)
  {
    hide Opens;
  }

  lemma ControlRearmCounts(pc: ControlPc, s: State, e: Env)
    requires pc == s.ct.pc && pc.Granting() && Armed(s)
    ensures var (c, w) := ControlRearm(s, e); Generations(FlagsAfter(s.fl, w), s.mn, s.sy, c)
  {
    hide Opens;
  }

  lemma ControlRearmGrants(pc: ControlPc, s: State, e: Env)
    requires pc == s.ct.pc && pc.Granting() && Armed(s)
    ensures var (c, w) := ControlRearm(s, e); Opens(FlagsAfter(s.fl, w), s.mn, s.sy, c)
  {
  }

  lemma ControlCutKeeps(pc: ControlPc, s: State, e: Env)
    requires pc == s.ct.pc && !pc.Granting() && Armed(s)
    ensures ArmedIn(FlagsAfter(s.fl, ControlCut(s, e).1), s.mn, s.sy, ControlCut(s, e).0)
  {
  }

  lemma MainKeeps(pc: MainPc, s: State, e: Env)
    requires pc == s.mn.pc && Armed(s)
    ensures Armed(MainNext(s, e))
  {
    MainStores(s, e);
    if !pc.Active() { MainIdleKeeps(pc, s, e); }
    else if pc.Naming() { MainNameKeeps(pc, s, e); }
    else { MainMoveKeeps(pc, s, e); }
    hide ArmedIn, MainNext, MainIdle, MainName, MainMove, FlagsAfter;
  }

  lemma IndexKeeps(pc: IndexPc, s: State, e: Env)
    requires pc == s.sy.pc && Armed(s)
    ensures Armed(IndexNext(s, e))
  {
    IndexStores(s, e);
    if !pc.Active() { IndexIdleKeeps(pc, s, e); }
    else if pc.Taking() { IndexTakeKeeps(pc, s, e); }
    else if pc.Naming() { IndexNameKeeps(pc, s, e); }
    else { IndexSaveKeeps(pc, s, e); }
    hide ArmedIn, IndexNext, IndexIdle, IndexTake, IndexName, IndexSave, FlagsAfter;
  }

  lemma PulseKeeps(pc: PulsePc, s: State, e: Env)
    requires pc == s.ls.pc && Armed(s)
    ensures Armed(PulseNext(s, e))
  {
    PulseTouches(pc, s, e);
    hide PulseNext, ArmedIn;
    OtherFlags(s.fl, PulseNext(s, e).fl, s.mn, s.sy, s.ct);
  }

  lemma OtherFlags(f: Flags, g: Flags, m: MainThread, x: IndexThread, c: Control)
    requires PulseFlags(f, g) && ArmedIn(f, m, x, c)
    ensures ArmedIn(g, m, x, c)
  {
  }

  lemma ControlKeeps(s: State, e: Env)
    requires Armed(s)
    ensures Armed(ControlNext(s, e))
  {
    ControlStores(s, e);
    if s.ct.pc.Granting() {
      ControlRearmRelies(s.ct.pc, s, e);
      ControlRearmCounts(s.ct.pc, s, e);
      ControlRearmGrants(s.ct.pc, s, e);
    } else {
      ControlCutKeeps(s.ct.pc, s, e);
    }
    hide Reliance, Generations, Opens, ControlNext, ControlRearm, ControlCut, FlagsAfter;
  }

  lemma OutsideKeeps(s: State, st: Step)
    requires (st.Net? || st.Hw? || st.Other?) && Armed(s)
    ensures Armed(Next(s, st))
  {
    hide ArmedIn;
  }

  lemma ArmedStep(s: State, st: Step)
    requires Armed(s)
    ensures Armed(Next(s, st))
  {
    hide Armed, MainNext, IndexNext, PulseNext, ControlNext, NetNext, OtherNext;
    match st
    case MnStep(e) => MainKeeps(s.mn.pc, s, e);
    case SyStep(e) => IndexKeeps(s.sy.pc, s, e);
    case LsStep(e) => PulseKeeps(s.ls.pc, s, e);
    case CtStep(e) => ControlKeeps(s, e);
    case _ => OutsideKeeps(s, st);
  }

  lemma {:induction false} ArmedRun(boot: Boot, steps: seq<Step>)
    ensures Armed(Exec(Init(boot), steps))
  {
    if steps != [] {
      var n := |steps| - 1;
      ArmedRun(boot, steps[..n]);
      ArmedStep(Exec(Init(boot), steps[..n]), steps[n]);
    }
  }

  // In any interleaving, STOP included, the two receivers finish generations in step: neither
  // is more than one ahead, and whoever works on generation n + 1 finds n finished by both.
  lemma {:induction false} BarrierHolds(boot: Boot, steps: seq<Step>)
    ensures var s := Exec(Init(boot), steps);
      && s.mn.gen <= s.sy.gen + 1 && s.sy.gen <= s.mn.gen + 1
      && (!s.fl.stored0 ==> s.mn.gen <= s.sy.gen)
      && (!s.fl.indexed0 ==> s.sy.gen <= s.mn.gen)
  {
    ArmedRun(boot, steps);
    hide Exec;
  }

  // Files are opened only against re-arms, of which there are fewer than MAX_FILE_COUNT.
  lemma {:induction false} OpensBounded(boot: Boot, steps: seq<Step>)
    ensures var s := Exec(Init(boot), steps);
      && s.mn.opens + Bit(s.fl.sliceAlt0 && !s.mn.pc.MAltClear?) <= s.ct.altGrants + 1 <= MAX_FILE_COUNT
      && s.sy.opens <= s.ct.indexRearms + 1 <= MAX_FILE_COUNT
  {
    ArmedRun(boot, steps);
    hide Exec;
  }

  // A successful open of the index receiver is the first one of the generation it is armed for.
  lemma {:induction false} IndexOpensOnce(boot: Boot, steps: seq<Step>, e: Env)
    ensures var s := Exec(Init(boot), steps); var t := IndexNext(s, e);
      t.sy.opens > s.sy.opens ==>
        s.sy.pc.IOpen? && s.sy.lastGen < t.sy.lastGen == s.ct.indexRearms + 1 && t.sy.opens == s.sy.opens + 1
  {
    ArmedRun(boot, steps);
    hide Exec;
    var s := Exec(Init(boot), steps);
    hide IndexNext;
    FirstInGeneration(s.sy.pc, s, e);
    IndexStores(s, e);
    hide IndexStep, Armed;
  }

  lemma FirstInGeneration(pc: IndexPc, s: State, e: Env)
    requires pc == s.sy.pc && Armed(s)
    ensures var x := IndexStep(s, e).0;
      x.opens > s.sy.opens ==>
        pc.IOpen? && s.sy.lastGen < x.lastGen == s.ct.indexRearms + 1 && x.opens == s.sy.opens + 1
  {
    if !pc.IOpen? { OnlyOpens(pc, s, e); hide IndexStep; }
    hide IndexIdle, IndexTake, IndexSave;
  }

  lemma OnlyOpens(pc: IndexPc, s: State, e: Env)
    requires pc == s.sy.pc && !pc.IOpen?
    ensures IndexStep(s, e).0.opens == s.sy.opens
  {
  }

  ghost predicate Exhausted(s: State) {
    Armed(s) && s.ct.count0 == MAX_FILE_COUNT && !s.fl.sliceAlt0
  }

  lemma NoOpenWithoutGrant(pc: MainPc, s: State, e: Env)
    requires pc == s.mn.pc && Exhausted(s)
    ensures MainStep(s, e).0.opens == s.mn.opens && !FlagsAfter(s.fl, MainStep(s, e).1).sliceAlt0
  {
    hide Reliance, Generations;
  }

  lemma MainStaysExhausted(pc: MainPc, s: State, e: Env)
    requires pc == s.mn.pc && Exhausted(s)
    ensures MainNext(s, e).mn.opens == s.mn.opens && !MainNext(s, e).fl.sliceAlt0
    ensures MainNext(s, e).ct == s.ct
  {
    hide MainNext;
    NoOpenWithoutGrant(pc, s, e);
    hide MainStep, FlagsAfter, Exhausted;
    MainStores(s, e);
  }

  lemma ControlStaysExhausted(pc: ControlPc, s: State, e: Env)
    requires pc == s.ct.pc && Exhausted(s)
    ensures ControlNext(s, e).ct.count0 == s.ct.count0 && !ControlNext(s, e).fl.sliceAlt0
    ensures ControlNext(s, e).mn == s.mn
  {
  }

  lemma OthersStayExhausted(x: IndexPc, p: PulsePc, s: State, st: Step)
    requires x == s.sy.pc && p == s.ls.pc && !s.fl.sliceAlt0 && !st.MnStep? && !st.CtStep?
    ensures Next(s, st).mn == s.mn && Next(s, st).ct == s.ct && !Next(s, st).fl.sliceAlt0
  {
    match st
    case SyStep(e) => IndexTouches(x, s, e);
    case LsStep(e) => PulseTouches(p, s, e);
    case _ =>
    hide IndexNext, PulseNext;
  }

  // Once the limit is reached and the last grant used, no run opens another main file.
  lemma {:induction false} NoMoreFiles(s: State, steps: seq<Step>)
    requires Exhausted(s)
    ensures Exhausted(Exec(s, steps)) && Exec(s, steps).mn.opens == s.mn.opens
  {
    hide Armed, MainNext, IndexNext, PulseNext, ControlNext, NetNext;
    if steps != [] {
      var n := |steps| - 1;
      NoMoreFiles(s, steps[..n]);
      var t := Exec(s, steps[..n]);
      ArmedStep(t, steps[n]);
      match steps[n]
      case MnStep(e) => MainStaysExhausted(t.mn.pc, t, e);
      case CtStep(e) => ControlStaysExhausted(t.ct.pc, t, e);
      case _ => OthersStayExhausted(t.sy.pc, t.ls.pc, t, steps[n]);
    }
  }
}
