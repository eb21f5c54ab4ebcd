// The numbers and names of index files: the index receiver numbers its files by itself, and a
// name it fetches in time is that of the pulse slice (src/store.c:288-313, 493).
module IndexNames {
  import opened Common
  import opened Naming
  import opened Protocol
  import opened Frames
  import opened Companions

  // The index receiver has read a number of this session and then fetched the name for it.
  predicate HasIndexName(n: Names, pc: IndexPc, e: IndexSession) {
    !e.drift && !pc.ISlot? && (pc.Fetched() || n.syNum > 0)
  }

  // file_name of the index receiver belongs to the number it took last; live says that this
  // slice was recorded and fewer than 128 slices back while the name was fetched.
  ghost predicate IndexNamed(n: Names, x: IndexThread, p: PulseThread, e: IndexSession) {
    e.named ==>
      && (!e.drift && x.pc.HoldsNumber() ==> x.reg == n.syNum)
      && (HasIndexName(n, x.pc, e) ==>
            && x.num == (if x.pc.Fetched() then n.syNum else n.syNum - 1)
            && (x.live ==> x.num < |p.times| && x.base == Full(p.SliceName(x.num))))
      && (!e.stale ==> (x.pc.Comparing() ==> n.zeroMark) && (x.pc.IStopCompare? ==> x.reg == n.syNum))
  }

  // The live index files counted so far have their slices' names, in the order of their numbers.
  ghost predicate IndexUsed(n: Names, pc: IndexPc, p: PulseThread, e: IndexSession) {
    var u := e.used;
    e.named ==>
      && (e.drift ==> u == [])
      && (forall i :: 0 <= i < |u| ==>
            && u[i].0 < n.syNum - (if pc.IOpen? && n.syNum > 0 then 1 else 0)
            && u[i].0 < |p.times| && u[i].1 == Full(p.SliceName(u[i].0)))
      && (forall i, j :: 0 <= i < j < |u| ==> u[i].0 < u[j].0)
  }

  // sy_file_num is reset before mn_file_num.
  ghost predicate Order(p: PulsePc, e: Session, x: IndexSession) {
    && (p.Starting() ==> (x.named <==> p.LMnReset?))
    && (e.named ==> x.named) && (x.named && !e.named ==> p.LMnReset?)
  }

  ghost predicate Numbered(s: State) {
    Named(s) && Order(s.ls.pc, s.se, s.ix) && IndexNamed(s.nm, s.sy, s.ls, s.ix)
    && IndexUsed(s.nm, s.sy.pc, s.ls, s.ix)
  }

  // ---------- the index receiver ----------

  lemma IdleNumbers(pc: IndexPc, s: State, e: Env)
    requires pc == s.sy.pc && !pc.Active() && Numbered(s)
    ensures var (x, w) := IndexIdle(s, e); IndexNamed(NamesAfter(s.nm, w), x, s.ls, IndexUsedAfter(s))
  {
    hide BaseName, LogHolds, MainNamed, EmptyNamed, Tokens, UsedNamed, IndexUsed;
  }

  lemma FetchNumbers(s: State, e: Env)
    requires (s.sy.pc.ISlot? || s.sy.pc.ISlotEnd?) && Numbered(s)
    ensures var (x, w) := IndexName(s, e); IndexNamed(NamesAfter(s.nm, w), x, s.ls, IndexUsedAfter(s))
  {
    hide BaseName, MainNamed, EmptyNamed, Tokens, UsedNamed, IndexUsed;
  }

  lemma NameNumbers(pc: IndexPc, s: State, e: Env)
    requires pc == s.sy.pc && pc.Active() && !pc.Taking() && pc.Naming() && !pc.ISlot? && !pc.ISlotEnd?
    requires IndexNamed(s.nm, s.sy, s.ls, s.ix)
    ensures var (x, w) := IndexName(s, e); IndexNamed(NamesAfter(s.nm, w), x, s.ls, IndexUsedAfter(s))
  {
    NameStores(pc, s, e);
    NameKeeps(pc, s, e);
    hide IndexName, NamesAfter, PulseThread.SliceName;
  }

  lemma NameKeeps(pc: IndexPc, s: State, e: Env)
    requires pc == s.sy.pc && pc.Active() && !pc.Taking() && pc.Naming() && !pc.ISlot? && !pc.ISlotEnd?
    ensures var (x, w) := IndexName(s, e);
      && x.num == s.sy.num && x.base == s.sy.base && x.live == s.sy.live
      && NamesAfter(s.nm, w).zeroMark == s.nm.zeroMark
      && (pc.INum? || pc.ILoad? ==> x.reg == s.nm.syNum) && x.pc.HoldsNumber() == (pc.INum? || pc.ILoad?)
      && x.pc.Fetched() == pc.ILoad? && x.pc.ISlot? == pc.INum? && !x.pc.Comparing()
  {
  }

  // Taking and saving pages has nothing to do with names.
  lemma PageLeaves(pc: IndexPc, s: State, e: Env)
    requires pc == s.sy.pc && pc.Active() && (pc.Taking() || !pc.Naming())
    ensures var (x, w) := IndexStep(s, e);
      && NamesAfter(s.nm, w) == s.nm && IndexUsedAfter(s) == s.ix
      && x.num == s.sy.num && x.base == s.sy.base && x.live == s.sy.live && x.reg == s.sy.reg
      && !x.pc.Comparing() && !x.pc.HoldsNumber() && !x.pc.Fetched() && !x.pc.IOpen?
      && !pc.Fetched() && !pc.ISlot?
  {
  }

  lemma PageNumbers(pc: IndexPc, s: State, e: Env)
    requires pc == s.sy.pc && pc.Active() && (pc.Taking() || !pc.Naming()) && Numbered(s)
    ensures var (x, w) := IndexStep(s, e); IndexNamed(NamesAfter(s.nm, w), x, s.ls, IndexUsedAfter(s))
  {
    PageLeaves(pc, s, e);
    hide IndexStep, BaseName, Named, IndexUsed, NamesAfter, IndexUsedAfter;
  }

  lemma StoreCounts(pc: IndexPc, s: State, e: Env)
    requires pc == s.sy.pc && Numbered(s)
    ensures var (x, w) := IndexStep(s, e); var n := NamesAfter(s.nm, w);
      && (x.pc.IOpen? <==> pc.IStore?)
      && (pc.IStore? ==> s.ix.named && !s.ix.drift ==> n.syNum == s.nm.syNum + 1)
      && (!pc.IStore? ==> n.syNum == s.nm.syNum)
  {
    hide Named, IndexUsed, IndexIdle, IndexTake, IndexName, IndexSave;
    if !pc.Active() { IdleStores(pc, s, e); }
    else if pc.Taking() || !pc.Naming() { PageLeaves(pc, s, e); }
    else { NameStores(pc, s, e); }
  }

  lemma IdleStores(pc: IndexPc, s: State, e: Env)
    requires pc == s.sy.pc && !pc.Active()
    ensures !IndexIdle(s, e).0.pc.IOpen? && NamesAfter(s.nm, IndexIdle(s, e).1) == s.nm
  {
  }

  lemma NameStores(pc: IndexPc, s: State, e: Env)
    requires pc == s.sy.pc && pc.Active() && !pc.Taking() && pc.Naming()
    ensures var (x, w) := IndexName(s, e); var n := NamesAfter(s.nm, w);
      (x.pc.IOpen? <==> pc.IStore?) && n.syNum == if pc.IStore? then s.sy.reg + 1 else s.nm.syNum
  {
  }

  // An open is entered behind the earlier ones.
  lemma OpenUses(pc: IndexPc, s: State, e: Env)
    requires pc == s.sy.pc && Numbered(s)
    ensures var (x, w) := IndexStep(s, e); IndexUsed(NamesAfter(s.nm, w), x.pc, s.ls, IndexUsedAfter(s))
  {
    StoreCounts(pc, s, e);
    Uses(s, NamesAfter(s.nm, IndexStep(s, e).1), IndexStep(s, e).0.pc);
    hide Named, IndexStep, NamesAfter, IndexNamed, IndexUsed, IndexUsedAfter;
  }

  lemma Uses(s: State, n: Names, next: IndexPc)
    requires IndexNamed(s.nm, s.sy, s.ls, s.ix) && IndexUsed(s.nm, s.sy.pc, s.ls, s.ix)
    requires next.IOpen? <==> s.sy.pc.IStore?
    requires if s.sy.pc.IStore? then s.ix.named && !s.ix.drift ==> n.syNum == s.nm.syNum + 1 else n.syNum == s.nm.syNum
    ensures IndexUsed(n, next, s.ls, IndexUsedAfter(s))
  {
    hide PulseThread.SliceName;
  }

  lemma IndexNumbers(pc: IndexPc, s: State, e: Env)
    requires pc == s.sy.pc && Numbered(s)
    ensures Numbered(IndexNext(s, e))
  {
    IndexNames(pc, s, e);
    IndexStores(s, e);
    OpenUses(pc, s, e);
    if !pc.Active() { IdleNumbers(pc, s, e); }
    else if pc.Taking() || !pc.Naming() { PageNumbers(pc, s, e); }
    else if pc.ISlot? || pc.ISlotEnd? { FetchNumbers(s, e); }
    else { NameNumbers(pc, s, e); }
    assert Order(s.ls.pc, s.se, IndexUsedAfter(s));
    hide IndexNext, IndexIdle, IndexTake, IndexName, IndexSave, Named, IndexNamed, IndexUsed, NamesAfter, Order,
         IndexUsedAfter;
  }

  // ---------- the pulse receiver ----------

  // It adds to the log, and writes none of the numbers of the index receiver but at START.
  ghost predicate Grows(s: State, p: PulseThread, n: Names) {
    && p.dir == s.ls.dir && s.ls.times <= p.times && n.syNum == s.nm.syNum && (s.nm.zeroMark ==> n.zeroMark)
  }

  lemma GrownNumbers(s: State, p: PulseThread, n: Names)
    requires Grows(s, p, n) && IndexNamed(s.nm, s.sy, s.ls, s.ix) && IndexUsed(s.nm, s.sy.pc, s.ls, s.ix)
    ensures IndexNamed(n, s.sy, p, s.ix) && IndexUsed(n, s.sy.pc, p, s.ix)
  {
    hide BaseName;
    assert forall k: nat :: k < |s.ls.times| ==> p.SliceName(k) == s.ls.SliceName(k);
    hide PulseThread.SliceName;
  }

  lemma StartGrows(pc: PulsePc, s: State, e: Env)
    requires pc == s.ls.pc && pc.Commanded() && !pc.LReset? && !pc.LNumReset? && !pc.LFirstEnd? && !pc.LSyReset?
    ensures Grows(s, PulseStart(s, e).0, NamesAfter(s.nm, PulseStart(s, e).1))
  {
  }

  lemma MoveGrows(pc: PulsePc, s: State, e: Env)
    requires pc == s.ls.pc && pc.Moving()
    ensures Grows(s, PulseMove(s, e).0, NamesAfter(s.nm, PulseMove(s, e).1))
  {
  }

  lemma TurnGrows(pc: PulsePc, s: State, e: Env)
    requires pc == s.ls.pc && !pc.Commanded() && !pc.Moving()
    ensures Grows(s, PulseTurn(s, e).0, NamesAfter(s.nm, PulseTurn(s, e).1))
  {
    hide BaseName;
  }

  lemma PulseGrows(pc: PulsePc, s: State, e: Env)
    requires pc == s.ls.pc && !pc.LReset? && !pc.LNumReset? && !pc.LFirstEnd? && !pc.LSyReset?
    ensures Grows(s, PulseStep(s, e).0, NamesAfter(s.nm, PulseStep(s, e).1))
  {
    if pc.Commanded() { StartGrows(pc, s, e); }
    else if pc.Moving() { MoveGrows(pc, s, e); }
    else { TurnGrows(pc, s, e); }
    hide PulseStart, PulseMove, PulseTurn, NamesAfter, Grows;
  }

  // The reset makes the next number 0 and the session's names those fetched from now on.
  lemma ResetNumbers(s: State, e: Env)
    requires s.ls.pc.LSyReset? && Numbered(s)
    ensures var (p, w) := PulseStep(s, e); var n, x := NamesAfter(s.nm, w), IndexSessionAfter(s);
      n.syNum == 0 && IndexNamed(n, s.sy, p, x) && IndexUsed(n, s.sy.pc, p, x)
  {
    hide BaseName, MainNamed, Tokens, UsedNamed;
  }

  lemma PulseOrder(pc: PulsePc, s: State, e: Env)
    requires pc == s.ls.pc && Order(pc, s.se, s.ix)
    ensures Order(PulseStep(s, e).0.pc, SessionAfter(s), IndexSessionAfter(s))
  {
    StartsNext(pc, s, e);
    hide PulseStep;
  }

  lemma StartsNext(pc: PulsePc, s: State, e: Env)
    requires pc == s.ls.pc
    ensures var q := PulseStep(s, e).0.pc;
      && (q.Starting() ==> pc.LReset? || (pc.Starting() && !pc.LMnReset?)) && (q.LMnReset? <==> pc.LSyReset?)
  {
    if pc.Commanded() { CommandedNext(pc, s, e); } else if pc.Moving() { MovingNext(pc, s, e); }
    hide BaseName, PulseStart, PulseMove;
  }

  lemma CommandedNext(pc: PulsePc, s: State, e: Env)
    requires pc == s.ls.pc && pc.Commanded()
    ensures var q := PulseStart(s, e).0.pc;
      && (q.Starting() ==> pc.LReset? || (pc.Starting() && !pc.LMnReset?)) && (q.LMnReset? <==> pc.LSyReset?)
  {
    hide BaseName;
  }

  lemma MovingNext(pc: PulsePc, s: State, e: Env)
    requires pc == s.ls.pc && pc.Moving()
    ensures !PulseMove(s, e).0.pc.Starting()
  {
  }

  lemma PulseNumbers(pc: PulsePc, s: State, e: Env)
    requires pc == s.ls.pc && Numbered(s)
    ensures Numbered(PulseNext(s, e))
  {
    PulseNames(pc, s, e);
    PulseStores(s, e);
    PulseOrder(pc, s, e);
    if pc.LSyReset? { ResetNumbers(s, e); }
    else if !pc.LReset? && !pc.LNumReset? && !pc.LFirstEnd? {
      PulseGrows(pc, s, e);
      GrownNumbers(s, PulseNext(s, e).ls, PulseNext(s, e).nm);
    }
    hide PulseNext, PulseStep, Named, NamesAfter, SessionAfter, BaseName;
  }

  // ---------- everybody else ----------

  ghost predicate SameNumbers(s: State, t: State) {
    && t.sy == s.sy && t.ls == s.ls && t.ix == s.ix && t.nm == s.nm.(mnNum := t.nm.mnNum)
    && t.se.named == s.se.named
  }

  lemma KeptNumbers(s: State, t: State)
    requires Numbered(s) && SameNumbers(s, t) && Named(t)
    ensures Numbered(t)
  {
    hide Named, BaseName;
  }

  lemma OthersSame(s: State, st: Step)
    requires !st.SyStep? && !st.LsStep?
    ensures SameNumbers(s, Next(s, st))
  {
    match st
    case MnStep(e) =>
      MainTouches(s.mn.pc, s, e);
      MainStores(s, e);
      hide MainNext;
    case CtStep(e) =>
      ControlStores(s, e);
      ControlLeavesNames(s.ct.pc, s, e);
      hide ControlNext;
    case _ =>
  }

  lemma NumberedStep(s: State, st: Step)
    requires Numbered(s)
    ensures Numbered(Next(s, st))
  {
    hide Numbered, MainNext, IndexNext, PulseNext, ControlNext, NetNext, OtherNext;
    match st
    case SyStep(e) => IndexNumbers(s.sy.pc, s, e);
    case LsStep(e) => PulseNumbers(s.ls.pc, s, e);
    case _ =>
      OthersSame(s, st);
      assert Named(s) by { NumberedNamed(s); }
      NamedStep(s, st);
      KeptNumbers(s, Next(s, st));
  }

  lemma NumberedNamed(s: State)
    requires Numbered(s)
    ensures Named(s)
  {
  }

  lemma {:induction false} NumberedRun(boot: Boot, steps: seq<Step>)
    ensures Numbered(Exec(Init(boot), steps))
  {
    if steps == [] {
      NamedRun(boot, steps);
    } else {
      var n := |steps| - 1;
      NumberedRun(boot, steps[..n]);
      NumberedStep(Exec(Init(boot), steps[..n]), steps[n]);
    }
  }

  // A name fetched for number k, with slice k recorded and fewer than 128 slices back, is the
  // name of slice k in the log, and so is the name of the index file opened; START makes k
  // start at 0 again.
  lemma {:induction false} IndexCompanionName(boot: Boot, steps: seq<Step>, e: Env)
    ensures var s := Exec(Init(boot), steps); var (k, l) := (s.nm.syNum, s.nm.lsNum);
      && (s.ls.pc.LSyReset? ==> PulseNext(s, e).nm.syNum == 0)
      && (s.ix.named && !s.ix.drift ==>
            && (s.sy.pc.ISlot? ==> (IndexNext(s, e).sy.live <==> k < l < k + CYC_MARK))
            && (s.sy.pc.ISlotEnd? && s.sy.live && l < k + CYC_MARK ==>
                  k < |s.ls.times| && IndexNext(s, e).sy.base == Full(s.ls.SliceName(k)))
            && (s.sy.pc.IStore? ==> IndexNext(s, e).nm.syNum == k + 1)
            && (s.sy.pc.IOpen? && k > 0 ==>
                  && s.sy.num == k - 1
                  && (s.sy.live ==> k <= |s.ls.times| && s.sy.base == Full(s.ls.SliceName(k - 1)))))
  {
    hide Exec, Numbered, IndexNext, PulseNext, BaseName;
    NumberedRun(boot, steps);
    var s := Exec(Init(boot), steps);
    if s.ls.pc.LSyReset? { Resets(s, e); }
    if s.ix.named && !s.ix.drift {
      if s.sy.pc.ISlot? || s.sy.pc.ISlotEnd? { FetchedName(s, e); }
      if s.sy.pc.IStore? { Counted(s, e); }
      if s.sy.pc.IOpen? && s.nm.syNum > 0 { OpenedName(s); }
    }
  }

  lemma Resets(s: State, e: Env)
    requires s.ls.pc.LSyReset? && Numbered(s)
    ensures PulseNext(s, e).nm.syNum == 0
  {
    ResetNumbers(s, e);
    hide Numbered, PulseNext, PulseStep, NamesAfter;
    PulseStores(s, e);
  }

  lemma FetchedName(s: State, e: Env)
    requires Numbered(s) && (s.sy.pc.ISlot? || s.sy.pc.ISlotEnd?) && s.ix.named && !s.ix.drift
    ensures var (k, l) := (s.nm.syNum, s.nm.lsNum); var x := IndexNext(s, e).sy;
      && (s.sy.pc.ISlot? ==> (x.live <==> k < l < k + CYC_MARK))
      && (s.sy.pc.ISlotEnd? && s.sy.live && l < k + CYC_MARK ==>
            k < |s.ls.times| && x.base == Full(s.ls.SliceName(k)))
  {
    hide IndexNext, IndexName, IndexStep, Named, IndexUsed, Order, NamesAfter, IndexUsedAfter, PulseThread.SliceName,
         FlagsAfter, RegistersAfter, LinesAfter, TableAfter;
    FetchNumbers(s, e);
    IndexFetches(s, e);
    IndexStores(s, e);
  }

  lemma Counted(s: State, e: Env)
    requires Numbered(s) && s.sy.pc.IStore? && s.ix.named && !s.ix.drift
    ensures IndexNext(s, e).nm.syNum == s.nm.syNum + 1
  {
    StoreCounts(s.sy.pc, s, e);
    hide Numbered, IndexNext, IndexStep, NamesAfter;
    IndexStores(s, e);
  }

  lemma OpenedName(s: State)
    requires Numbered(s) && s.sy.pc.IOpen? && s.ix.named && !s.ix.drift && s.nm.syNum > 0
    ensures s.sy.num == s.nm.syNum - 1
    ensures s.sy.live ==> s.nm.syNum <= |s.ls.times| && s.sy.base == Full(s.ls.SliceName(s.nm.syNum - 1))
  {
    hide Named, IndexUsed, BaseName;
  }

  lemma IndexFetches(s: State, e: Env)
    requires s.sy.pc.ISlot? || s.sy.pc.ISlotEnd?
    ensures IndexStep(s, e) == IndexName(s, e) && NamesAfter(s.nm, IndexName(s, e).1) == s.nm
    ensures IndexUsedAfter(s) == s.ix
    ensures s.sy.pc.ISlot? ==> (IndexName(s, e).0.live <==> s.sy.reg < s.nm.lsNum < s.sy.reg + CYC_MARK)
    ensures s.sy.pc.ISlotEnd? ==>
      var x := IndexName(s, e).0;
      x.live == (s.sy.live && s.nm.lsNum < s.sy.reg + CYC_MARK) && x.num == s.sy.num && x.pc.ILoad?
  {
  }

  // The live index files of a session have different numbers and names, so that no open of one
  // truncates another.
  lemma {:induction false} LiveIndexFilesDistinct(boot: Boot, steps: seq<Step>)
    ensures var s := Exec(Init(boot), steps); var u := s.ix.used;
      s.ix.named ==>
        && (forall i, j :: 0 <= i < j < |u| ==> u[i].0 < u[j].0 && u[i].1 != u[j].1)
        && (s.sy.pc.IOpen? && s.nm.syNum > 0 && !s.ix.drift && s.sy.live ==>
              forall i :: 0 <= i < |u| ==> u[i].0 < s.sy.num && u[i].1 != s.sy.base)
  {
    NumberedRun(boot, steps);
    hide Exec;
    var s := Exec(Init(boot), steps);
    var u := s.ix.used;
    if s.ix.named {
      forall i, j | 0 <= i < j < |u| ensures u[i].1 != u[j].1 { NamesDiffer(s, u[i], u[j]); }
      if s.sy.pc.IOpen? && s.nm.syNum > 0 && !s.ix.drift && s.sy.live {
        forall i | 0 <= i < |u| ensures u[i].1 != s.sy.base { NamesDiffer(s, u[i], (s.sy.num, s.sy.base)); }
      }
    }
    hide BaseName, Named;
  }
}
