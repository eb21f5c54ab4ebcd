// Numbering and naming across threads: the ring file_name_all refines the unbounded log of
// slice names, FILE_MARK is a token for one more main file, and STOP removes only companions
// (src/store.c:366-371, 386-398, 479-499, 505-517, 579-591).
module Companions {
  import opened Common
  import opened Naming
  import opened Protocol
  import opened Frames

  lemma ModDistinct(i: nat, j: nat)
    requires i < j < i + CYC_MARK
    ensures i % CYC_MARK != j % CYC_MARK
  {
  }

  // The last 128 names of the log are in the ring, except one that is being overwritten.
  ghost predicate RingHolds(n: Names, p: PulseThread)
    requires |n.ring| > CYC_MARK
  {
    forall k: nat | k < |p.times| <= k + CYC_MARK && !(p.pc.LSlotEnd? && |p.times| == k + CYC_MARK) ::
      n.ring[k % CYC_MARK] == Full(p.SliceName(k))
  }

  ghost predicate LogHolds(n: Names, p: PulseThread, e: Session) {
    && |n.ring| == CYC_MARK + 1
    && (p.pc.Numbered() ==> n.lsNum == 0 && !n.zeroMark)
    && (p.pc.FirstNamed() ==> |p.times| == 1 && p.base == Full(p.SliceName(0)) && n.ring[0] == p.base)
    && (p.pc.Starting() ==> !e.named && !n.zeroMark)
    && (e.clean ==> e.named && !e.drift)
    && (e.named ==>
          && |p.times| == n.lsNum + (if p.pc.LInc? || p.pc.LFirstInc? then 1 else 0)
          && |p.times| > 0
          && (n.lsNum > 0 || p.pc.LFirstInc?)
          && p.base == Full(p.SliceName(|p.times| - 1))
          && RingHolds(n, p))
  }

  // The main receiver has read a number of this session and then fetched the name for it.
  predicate HasName(n: Names, pc: MainPc, e: Session) {
    !e.drift && !pc.MSlot? && (pc.Fetched() || n.mnNum > 0)
  }

  // file_name of the main receiver belongs to the number it took last; live says that this
  // slice was recorded and fewer than 128 slices back while the name was fetched.
  ghost predicate MainNamed(n: Names, m: MainThread, p: PulseThread, e: Session) {
    e.named ==>
      && (!e.drift && m.pc.Numbering() && m.pc.HoldsNumber() ==> m.reg == n.mnNum)
      && (HasName(n, m.pc, e) ==>
            && m.num == (if m.pc.Fetched() then n.mnNum else n.mnNum - 1)
            && (m.live ==> m.num < |p.times| && m.base == Full(p.SliceName(m.num)))
            && (e.clean && n.lsNum < m.num + CYC_MARK ==> m.live))
      && (!e.stale ==> (m.pc.Comparing() ==> n.zeroMark) && (m.pc.MStopCompare? ==> m.reg == n.mnNum))
  }

  // What STOP found empty is slice emptyNum - 1 of this session.
  ghost predicate EmptyNamed(n: Names, p: PulseThread, e: Session) {
    e.named && n.zeroMark ==>
      0 < p.emptyNum <= |p.times| && p.emptyBase == Full(p.SliceName(p.emptyNum - 1))
  }

  // An issued and unused slice for each token, and for the number the receiver is about to take.
  ghost predicate TokenLaw(n: Names, mark: bool, mn: MainPc, ls: PulsePc) {
    && n.mnNum <= IssuedBy(n, ls)
    && (mn.Numbering() || (!mark && !mn.Opening()) ==> n.mnNum < IssuedBy(n, ls))
  }

  ghost predicate Tokens(n: Names, mark: bool, m: MainThread, ls: PulsePc) {
    && TokenLaw(n, mark, m.pc, ls)
    && (m.pc.Numbering() && m.pc.HoldsNumber() ==> m.reg == n.mnNum)
  }

  // The live main files opened so far have their slices' names, in the order of their numbers.
  ghost predicate UsedNamed(n: Names, mn: MainPc, p: PulseThread, e: Session) {
    var u := e.used;
    e.named ==>
      && (e.drift ==> u == [])
      && (forall i :: 0 <= i < |u| ==>
            && u[i].0 < n.mnNum - (if mn.MOpen? && n.mnNum > 0 then 1 else 0)
            && u[i].0 < |p.times| && u[i].1 == Full(p.SliceName(u[i].0)))
      && (forall i, j :: 0 <= i < j < |u| ==> u[i].0 < u[j].0)
  }

  ghost predicate NamedIn(n: Names, mark: bool, m: MainThread, p: PulseThread, e: Session) {
    && LogHolds(n, p, e) && MainNamed(n, m, p, e) && EmptyNamed(n, p, e)
    && (e.clean ==> Tokens(n, mark, m, p.pc)) && UsedNamed(n, m.pc, p, e)
  }

  ghost predicate Named(s: State) {
    NamedIn(s.nm, s.rg.fileMark, s.mn, s.ls, s.se)
  }

  // ---------- the main receiver ----------

  // It writes none of the names but its own number.
  lemma MainKeepsLog(n: Names, v: Names, p: PulseThread, e: Session, f: Session)
    requires LogHolds(n, p, e) && EmptyNamed(n, p, e)
    requires v == n.(mnNum := v.mnNum) && f == e.(stale := f.stale, drift := f.drift, used := f.used)
    requires f.drift ==> e.drift
    ensures LogHolds(v, p, f) && EmptyNamed(v, p, f)
  {
    hide BaseName;
  }

  ghost predicate MainNamedAfter(s: State, m: MainThread, w: Write) {
    var n := NamesAfter(s.nm, w);
    && MainNamed(n, m, s.ls, UsedAfter(s))
    && (s.se.clean ==> Tokens(n, RegistersAfter(s.rg, w).fileMark, m, s.ls.pc))
  }

  lemma MainIdleNamed(pc: MainPc, s: State, e: Env)
    requires pc == s.mn.pc && !pc.Active() && Named(s)
    ensures MainNamedAfter(s, MainIdle(s, e).0, MainIdle(s, e).1)
  {
    IdleLeaves(pc, s, e);
    hide MainIdle, BaseName, LogHolds, EmptyNamed, UsedNamed, NamesAfter, RegistersAfter;
  }

  // Outside an iteration it only compares.
  lemma IdleLeaves(pc: MainPc, s: State, e: Env)
    requires pc == s.mn.pc && !pc.Active()
    ensures var (m, w) := MainIdle(s, e);
      && NamesAfter(s.nm, w) == s.nm && RegistersAfter(s.rg, w).fileMark == s.rg.fileMark
      && m.num == s.mn.num && m.base == s.mn.base && m.live == s.mn.live
      && !m.pc.Opening() && !m.pc.Fetched() && (m.pc.Comparing() ==> (m.pc.MStopNum? && s.nm.zeroMark) || pc.MStopNum?)
      && (m.pc.MStopCompare? ==> m.reg == s.nm.mnNum && pc.MStopNum?)
  {
  }

  lemma FetchNamed(s: State, e: Env)
    requires (s.mn.pc.MSlot? || s.mn.pc.MSlotEnd?) && Named(s)
    ensures MainNamedAfter(s, MainName(s, e).0, MainName(s, e).1)
  {
    hide BaseName, EmptyNamed, UsedNamed;
  }

  lemma MainNameNamed(pc: MainPc, s: State, e: Env)
    requires pc == s.mn.pc && pc.Naming() && !pc.MSlot? && !pc.MSlotEnd? && Named(s)
    ensures MainNamedAfter(s, MainName(s, e).0, MainName(s, e).1)
  {
    MainNameTokens(pc, s, e);
    MainNameBase(pc, s, e);
    hide MainName, MainNamed, Tokens;
  }

  lemma MainNameBase(pc: MainPc, s: State, e: Env)
    requires pc == s.mn.pc && pc.Naming() && !pc.MSlot? && !pc.MSlotEnd? && Named(s)
    ensures MainNamed(NamesAfter(s.nm, MainName(s, e).1), MainName(s, e).0, s.ls, UsedAfter(s))
  {
    hide BaseName, RingHolds, EmptyNamed, UsedNamed, Tokens, LogHolds;
  }

  lemma MainNameTokens(pc: MainPc, s: State, e: Env)
    requires pc == s.mn.pc && pc.Naming() && Named(s)
    ensures var (m, w) := MainName(s, e);
      s.se.clean ==> Tokens(NamesAfter(s.nm, w), RegistersAfter(s.rg, w).fileMark, m, s.ls.pc)
  {
    hide BaseName, RingHolds, EmptyNamed, UsedNamed;
  }

  // Receiving data has nothing to do with names.
  lemma MoveLeaves(pc: MainPc, s: State, e: Env)
    requires pc == s.mn.pc && pc.Active() && !pc.Naming()
    ensures var (m, w) := MainMove(s, e);
      && NamesAfter(s.nm, w) == s.nm && RegistersAfter(s.rg, w).fileMark == s.rg.fileMark && UsedAfter(s) == s.se
      && m.num == s.mn.num && m.base == s.mn.base && m.live == s.mn.live && m.reg == s.mn.reg
      && !m.pc.Opening() && !m.pc.Comparing() && !m.pc.Fetched() && !pc.Opening() && !pc.Fetched()
  {
  }

  lemma MainMoveNamed(pc: MainPc, s: State, e: Env)
    requires pc == s.mn.pc && pc.Active() && !pc.Naming() && Named(s)
    ensures MainNamedAfter(s, MainMove(s, e).0, MainMove(s, e).1)
  {
    MoveLeaves(pc, s, e);
    hide MainMove, BaseName, RingHolds, EmptyNamed, UsedNamed, NamesAfter, RegistersAfter, UsedAfter;
  }

  // An open is entered behind the earlier ones.
  lemma MainUses(pc: MainPc, s: State, e: Env)
    requires pc == s.mn.pc && Named(s)
    ensures var (m, w) := MainStep(s, e); UsedNamed(NamesAfter(s.nm, w), m.pc, s.ls, UsedAfter(s))
  {
    hide BaseName, RingHolds, EmptyNamed, Tokens;
    MainNumbers(pc, s, e);
    hide MainStep, NamesAfter;
  }

  lemma MainNumbers(pc: MainPc, s: State, e: Env)
    requires pc == s.mn.pc && Named(s)
    ensures var (m, w) := MainStep(s, e); var n := NamesAfter(s.nm, w);
      && (m.pc.MOpen? <==> pc.MStore?)
      && (pc.MStore? ==> s.se.named && !s.se.drift ==> n.mnNum == s.nm.mnNum + 1)
      && (!pc.MStore? ==> n.mnNum == s.nm.mnNum)
  {
    hide BaseName, LogHolds, EmptyNamed, Tokens, UsedNamed;
    if pc.Active() && !pc.Naming() { MoveNumbers(pc, s, e); }
    hide MainMove;
  }

  lemma MoveNumbers(pc: MainPc, s: State, e: Env)
    requires pc == s.mn.pc && pc.Active() && !pc.Naming()
    ensures !MainMove(s, e).0.pc.MOpen? && NamesAfter(s.nm, MainMove(s, e).1) == s.nm
  {
  }

  lemma MainNames(pc: MainPc, s: State, e: Env)
    requires pc == s.mn.pc && Named(s)
    ensures Named(MainNext(s, e))
  {
    MainStores(s, e);
    MainTouches(pc, s, e);
    MainUses(pc, s, e);
    if !pc.Active() { MainIdleNamed(pc, s, e); }
    else if pc.MSlot? || pc.MSlotEnd? { FetchNamed(s, e); }
    else if pc.Naming() { MainNameNamed(pc, s, e); }
    else { MainMoveNamed(pc, s, e); }
    var t := MainNext(s, e);
    assert t.se == UsedAfter(s) by { hide MainStep; }
    MainKeepsLog(s.nm, t.nm, s.ls, s.se, t.se);
    hide MainNext, MainIdle, MainName, MainMove, LogHolds, EmptyNamed, UsedNamed, Tokens, NamesAfter, RegistersAfter,
         BaseName;
  }

  // ---------- the pulse receiver ----------

  ghost predicate NamedAfter(s: State, p: PulseThread, w: Write, e: Session) {
    NamedIn(NamesAfter(s.nm, w), RegistersAfter(s.rg, w).fileMark, s.mn, p, e)
  }

  lemma ResetNamed(pc: PulsePc, s: State, e: Env)
    requires pc == s.ls.pc && (pc.LHead? || pc.LReset? || pc.LMnReset?) && Named(s)
    ensures NamedAfter(s, PulseStart(s, e).0, PulseStart(s, e).1, SessionAfter(s))
  {
    hide BaseName;
  }

  lemma StartNamed(pc: PulsePc, s: State, e: Env)
    requires pc == s.ls.pc && pc.Starting() && !pc.LMnReset? && Named(s)
    ensures NamedAfter(s, PulseStart(s, e).0, PulseStart(s, e).1, SessionAfter(s))
  {
    hide BaseName;
  }

  lemma FirstNamed(s: State, e: Env)
    requires s.ls.pc.LFirstInc? && Named(s)
    ensures NamedAfter(s, PulseStart(s, e).0, PulseStart(s, e).1, s.se)
  {
    hide BaseName;
  }

  lemma MarkNamed(pc: PulsePc, s: State, e: Env)
    requires pc == s.ls.pc && (pc.LStarClear? || pc.LFirstMark?) && Named(s)
    ensures NamedAfter(s, PulseStart(s, e).0, PulseStart(s, e).1, s.se)
  {
    hide BaseName;
  }

  lemma StopNamed(s: State, e: Env)
    requires s.ls.pc.LStopZero? && Named(s)
    ensures NamedAfter(s, PulseMove(s, e).0, PulseMove(s, e).1, s.se)
  {
    hide BaseName;
  }

  // Nothing about names changes while the pulse receiver moves data.
  ghost predicate SameNames(p: PulseThread, q: PulseThread) {
    && p.pc.Plain() && q.pc.Plain() && q.times == p.times && q.dir == p.dir
    && q.base == p.base && q.emptyBase == p.emptyBase && q.emptyNum == p.emptyNum
  }

  lemma SameNamesNamed(n: Names, mark: bool, m: MainThread, p: PulseThread, q: PulseThread, e: Session)
    requires SameNames(p, q) && NamedIn(n, mark, m, p, e)
    ensures NamedIn(n, mark, m, q, e)
  {
    hide BaseName;
    assert forall k :: 0 <= k < |p.times| ==> p.SliceName(k) == q.SliceName(k);
    hide PulseThread.SliceName;
  }

  lemma StopLeaves(pc: PulsePc, s: State, e: Env)
    requires pc == s.ls.pc && pc.Moving() && !pc.Receiving() && !pc.LStopZero?
    ensures var (p, w) := PulseMove(s, e);
      SameNames(s.ls, p) && NamesAfter(s.nm, w) == s.nm && RegistersAfter(s.rg, w).fileMark == s.rg.fileMark
  {
  }

  lemma ReceivingLeaves(pc: PulsePc, s: State, e: Env)
    requires pc == s.ls.pc && pc.Moving() && pc.Receiving()
    ensures var (p, w) := PulseMove(s, e);
      SameNames(s.ls, p) && NamesAfter(s.nm, w) == s.nm && RegistersAfter(s.rg, w).fileMark == s.rg.fileMark
  {
  }

  lemma SlotBeginNamed(s: State, e: Env)
    requires s.ls.pc.LSlotBegin? && Named(s)
    ensures NamedAfter(s, PulseTurn(s, e).0, PulseTurn(s, e).1, s.se)
  {
    hide BaseName;
    forall k: nat | k < s.nm.lsNum < k + CYC_MARK ensures k % CYC_MARK != s.nm.lsNum % CYC_MARK {
      ModDistinct(k, s.nm.lsNum);
    }
  }

  lemma SlotEndNamed(s: State, e: Env)
    requires s.ls.pc.LSlotEnd? && Named(s)
    ensures NamedAfter(s, PulseTurn(s, e).0, PulseTurn(s, e).1, s.se)
  {
    hide BaseName;
    forall k: nat | k < s.nm.lsNum < k + CYC_MARK ensures k % CYC_MARK != s.nm.lsNum % CYC_MARK {
      ModDistinct(k, s.nm.lsNum);
    }
  }

  lemma CountedNamed(s: State, e: Env)
    requires s.ls.pc.LInc? && Named(s)
    ensures NamedAfter(s, PulseTurn(s, e).0, PulseTurn(s, e).1, s.se)
  {
    hide BaseName;
  }

  lemma OpenedNamed(s: State, e: Env)
    requires s.ls.pc.LOpen? && Named(s)
    ensures NamedAfter(s, PulseTurn(s, e).0, PulseTurn(s, e).1, s.se)
  {
    hide BaseName;
  }

  lemma IssuedNamed(s: State, e: Env)
    requires s.ls.pc.LMark? && Named(s)
    ensures NamedAfter(s, PulseTurn(s, e).0, PulseTurn(s, e).1, s.se)
  {
    hide BaseName;
  }

  lemma TurnNamed(pc: PulsePc, s: State, e: Env)
    requires pc.LDrain? || pc.LPad? || pc.LClose? || pc.LSliceClear? || pc.LStoredSet?
    requires pc == s.ls.pc
    ensures SameNames(s.ls, PulseTurn(s, e).0)
    ensures NamesAfter(s.nm, PulseTurn(s, e).1) == s.nm
    ensures RegistersAfter(s.rg, PulseTurn(s, e).1).fileMark == s.rg.fileMark
  {
  }

  lemma PulseNamed(pc: PulsePc, s: State, e: Env)
    requires pc == s.ls.pc && Named(s)
    ensures NamedAfter(s, PulseStep(s, e).0, PulseStep(s, e).1, SessionAfter(s))
  {
    if pc.LHead? || pc.LReset? || pc.LMnReset? { ResetNamed(pc, s, e); }
    else if pc.Starting() { StartNamed(pc, s, e); }
    else if pc.LFirstInc? { FirstNamed(s, e); }
    else if pc.Commanded() { MarkNamed(pc, s, e); }
    else if pc.LStopZero? { StopNamed(s, e); }
    else if pc.Moving() {
      if pc.Receiving() { ReceivingLeaves(pc, s, e); } else { StopLeaves(pc, s, e); }
      SameNamesNamed(s.nm, s.rg.fileMark, s.mn, s.ls, PulseMove(s, e).0, s.se);
    } else {
      match pc
      case LSlotBegin => SlotBeginNamed(s, e);
      case LSlotEnd => SlotEndNamed(s, e);
      case LInc => CountedNamed(s, e);
      case LOpen => OpenedNamed(s, e);
      case LMark => IssuedNamed(s, e);
      case _ =>
        TurnNamed(pc, s, e);
        SameNamesNamed(s.nm, s.rg.fileMark, s.mn, s.ls, PulseTurn(s, e).0, s.se);
    }
    hide NamedIn, SameNames, PulseStart, PulseMove, PulseTurn, NamesAfter, RegistersAfter;
  }

  lemma PulseNames(pc: PulsePc, s: State, e: Env)
    requires pc == s.ls.pc && Named(s)
    ensures Named(PulseNext(s, e))
  {
    PulseStores(s, e);
    PulseNamed(pc, s, e);
    assert PulseNext(s, e).se == SessionAfter(s) by { hide PulseStep; }
    hide NamedIn, PulseNext, PulseStep, NamesAfter, RegistersAfter;
  }

  // ---------- everybody else ----------

  lemma IndexNames(pc: IndexPc, s: State, e: Env)
    requires pc == s.sy.pc && Named(s)
    ensures Named(IndexNext(s, e))
  {
    IndexTouches(pc, s, e);
    IndexStores(s, e);
    IndexLeavesNames(pc, s, e);
    var t := IndexNext(s, e);
    hide IndexNext, IndexStep;
    SyNamed(s.nm, t.nm, s.rg.fileMark, s.mn, s.ls, s.se);
    hide NamedIn;
  }

  lemma IndexLeavesNames(pc: IndexPc, s: State, e: Env)
    requires pc == s.sy.pc
    ensures var n := NamesAfter(s.nm, IndexStep(s, e).1); n == s.nm.(syNum := n.syNum)
    ensures RegistersAfter(s.rg, IndexStep(s, e).1).fileMark == s.rg.fileMark
  {
  }

  lemma SyNamed(n: Names, v: Names, mark: bool, m: MainThread, p: PulseThread, e: Session)
    requires NamedIn(n, mark, m, p, e) && v == n.(syNum := v.syNum)
    ensures NamedIn(v, mark, m, p, e)
  {
    hide BaseName;
  }

  lemma ControlNames(pc: ControlPc, s: State, e: Env)
    requires pc == s.ct.pc && Named(s)
    ensures Named(ControlNext(s, e))
  {
    ControlStores(s, e);
    ControlLeavesNames(pc, s, e);
    hide NamedIn, ControlNext, ControlStep;
  }

  lemma ControlLeavesNames(pc: ControlPc, s: State, e: Env)
    requires pc == s.ct.pc
    ensures NamesAfter(s.nm, ControlStep(s, e).1) == s.nm && RegistersAfter(s.rg, ControlStep(s, e).1) == s.rg
  {
  }

  lemma NetNames(s: State, reg: RegisterName, value: bool)
    requires Named(s)
    ensures Named(NetNext(s, reg, value))
  {
    hide BaseName, RingHolds;
  }

  lemma NamedStep(s: State, st: Step)
    requires Named(s)
    ensures Named(Next(s, st))
  {
    hide Named, MainNext, IndexNext, PulseNext, ControlNext, NetNext;
    match st
    case MnStep(e) => MainNames(s.mn.pc, s, e);
    case SyStep(e) => IndexNames(s.sy.pc, s, e);
    case LsStep(e) => PulseNames(s.ls.pc, s, e);
    case CtStep(e) => ControlNames(s.ct.pc, s, e);
    case Net(reg, value) => NetNames(s, reg, value);
    case _ => OutsideNames(s, st);
  }

  lemma OutsideNames(s: State, st: Step)
    requires (st.Hw? || st.Other?) && Named(s)
    ensures Named(Next(s, st))
  {
    hide NamedIn;
  }

  lemma {:induction false} NamedRun(boot: Boot, steps: seq<Step>)
    ensures Named(Exec(Init(boot), steps))
  {
    if steps != [] {
      var n := |steps| - 1;
      NamedRun(boot, steps[..n]);
      NamedStep(Exec(Init(boot), steps[..n]), steps[n]);
    }
  }

  // In a clean session the main receiver never opens more files than there are slices, and
  // an unused token means that it has at least one slice to catch up with. This outlasts a
  // STOP, a full disk and a failed open.
  lemma {:induction false} TokenAccounting(boot: Boot, steps: seq<Step>)
    ensures var s := Exec(Init(boot), steps);
      s.se.clean ==>
        && s.nm.mnNum <= s.Issued() <= s.nm.lsNum
        && (!s.rg.fileMark && !s.mn.pc.Opening() ==> s.nm.mnNum < s.Issued())
  {
    NamedRun(boot, steps);
    hide Exec;
    hide BaseName;
  }

  // The ring refines the log: the name fetched for number k, with slice k recorded and fewer
  // than 128 slices back, is the name of slice k; and so is the name of the file opened. In a
  // clean session slice k has always been recorded.
  lemma {:induction false} CompanionName(boot: Boot, steps: seq<Step>, e: Env)
    ensures var s := Exec(Init(boot), steps); var (k, l) := (s.nm.mnNum, s.nm.lsNum);
      s.se.named && !s.se.drift ==>
        && (s.mn.pc.MSlot? ==> (MainNext(s, e).mn.live <==> k < l < k + CYC_MARK) && (s.se.clean ==> k < l))
        && (s.mn.pc.MSlotEnd? && (s.mn.live || s.se.clean) && l < k + CYC_MARK ==>
              k < |s.ls.times| && MainNext(s, e).mn.base == Full(s.ls.SliceName(k)))
        && (s.mn.pc.MOpen? && k > 0 && (s.mn.live || (s.se.clean && l < k - 1 + CYC_MARK)) ==>
              k <= |s.ls.times| && s.mn.base == Full(s.ls.SliceName(k - 1)))
  {
    NamedRun(boot, steps);
    hide Exec, MainNext, MainName, BaseName;
    var s := Exec(Init(boot), steps);
    if s.mn.pc.MSlotEnd? { FetchNamed(s, e); Fetches(s, e); }
    if s.mn.pc.MSlot? { Fetches(s, e); }
    hide LogHolds, UsedNamed, EmptyNamed;
  }

  lemma Fetches(s: State, e: Env)
    requires s.mn.pc.MSlot? || s.mn.pc.MSlotEnd?
    ensures MainNext(s, e).mn == MainName(s, e).0 && NamesAfter(s.nm, MainName(s, e).1) == s.nm
    ensures s.mn.pc.MSlot? ==> (MainNext(s, e).mn.live <==> s.mn.reg < s.nm.lsNum < s.mn.reg + CYC_MARK)
    ensures s.mn.pc.MSlotEnd? ==>
      var m := MainNext(s, e).mn;
      m.live == (s.mn.live && s.nm.lsNum < s.mn.reg + CYC_MARK) && m.num == s.mn.num && m.pc.MLoad?
  {
  }

  // All names of one session differ by number and stream.
  lemma SliceNamesDistinct(p: PulseThread, i: nat, j: nat, s: Stream, t: Stream)
    requires i < |p.times| && j < |p.times|
    requires FileName(p.SliceName(i), s) == FileName(p.SliceName(j), t)
    ensures i == j && s == t
  {
    FileNameInjective(p.SliceName(i), s, p.SliceName(j), t);
    BaseNameInjective(p.dir, p.times[i], i, p.times[j], j);
  }

  // No open of a live main file truncates another live main file of the session; in a clean
  // session a file is live if it is opened less than 128 slices after its own.
  lemma {:induction false} LiveOpensDistinct(boot: Boot, steps: seq<Step>)
    ensures var s := Exec(Init(boot), steps); var u := s.se.used;
      s.se.named ==>
        && (forall i, j :: 0 <= i < j < |u| ==> u[i].1 != u[j].1)
        && (s.mn.pc.MOpen? && s.nm.mnNum > 0 && !s.se.drift
              && (s.mn.live || (s.se.clean && s.nm.lsNum < s.nm.mnNum - 1 + CYC_MARK)) ==>
              forall i :: 0 <= i < |u| ==> u[i].1 != s.mn.base)
  {
    NamedRun(boot, steps);
    hide Exec;
    var s := Exec(Init(boot), steps);
    var u := s.se.used;
    if s.se.named {
      forall i, j | 0 <= i < j < |u| ensures u[i].1 != u[j].1 { NamesDiffer(s, u[i], u[j]); }
      if s.mn.pc.MOpen? && s.nm.mnNum > 0 && !s.se.drift && s.mn.live {
        forall i | 0 <= i < |u| ensures u[i].1 != s.mn.base { NamesDiffer(s, u[i], (s.mn.num, s.mn.base)); }
      }
    }
    hide BaseName;
  }

  lemma NamesDiffer(s: State, a: (nat, Slot), b: (nat, Slot))
    requires a.0 < b.0 < |s.ls.times|
    requires a.1 == Full(s.ls.SliceName(a.0)) && b.1 == Full(s.ls.SliceName(b.0))
    ensures a.1 != b.1
  {
    if a.1 == b.1 { BaseNameInjective(s.ls.dir, s.ls.times[a.0], a.0, s.ls.times[b.0], b.0); }
  }
}
