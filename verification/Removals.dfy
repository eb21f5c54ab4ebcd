// Which files the main and the index receiver remove by name at a STOP: the companions of the
// pulse slice that STOP found empty (src/store.c:288-289, 370-371, 509-514).
module Removals {
  import opened Common
  import opened Naming
  import opened Protocol
  import opened Frames
  import opened Companions
  import opened IndexNames

  // The name in hand is known to be that of the slice it was fetched for.
  predicate Sure(k: Look) {
    k.zero && k.counted && k.own > 0 && (k.live || (k.clean && k.ls < k.own - 1 + CYC_MARK))
  }

  // A file was removed exactly when its receiver saw zero_mark 1 and the number of its next
  // file was that of the next slice; and its name is that of the slice found empty exactly
  // when it is the last file before that number.
  ghost predicate Judged(base: Slot, gone: bool, k: Look) {
    && (gone <==> k.zero && k.own == k.ls)
    && (Sure(k) ==> (base == k.emptyBase <==> k.own == k.emptyNum))
  }

  ghost predicate MainLooks(m: MainThread) {
    && (m.pc.MStopNum? ==> m.look.zero)
    && (m.pc.MStopCompare? ==> m.look.zero && m.reg == m.look.own)
    && (m.busy ==>
          match m.pc
          case MStopNum | MStopCompare => !m.gone
          case MStopSlice | MStopStored | MStopAck | MStopClose => Judged(m.base, m.gone, m.look)
          case _ => !m.gone && !m.look.zero)
    && (forall f <- m.done :: Judged(f.base, f.gone, f.look) && (f.byCut ==> !f.gone))
  }

  ghost predicate IndexLooks(x: IndexThread) {
    && (x.pc.IStopNum? ==> x.look.zero)
    && (x.pc.IStopCompare? ==> x.look.zero && x.reg == x.look.own)
    && (x.busy ==>
          match x.pc
          case IStopNum | IStopCompare => !x.gone
          case IStopIndex | IStopAlt | IStopIndexed | IStopAck | IStopClose => Judged(x.base, x.gone, x.look)
          case _ => !x.gone && !x.look.zero)
    && (forall f <- x.done :: Judged(f.base, f.gone, f.look))
  }

  // ---------- the main receiver ----------

  // What it compares is what it read, and its file_name is the companion it counted last.
  lemma MainCompares(s: State, e: Env)
    requires s.mn.pc.MStopCompare? && Named(s) && MainLooks(s.mn)
    ensures MainLooks(MainIdle(s, e).0)
  {
    var k := MainIdle(s, e).0.look;
    if Sure(k) { SureName(s, k); }
    hide Named, Sure, BaseName;
  }

  lemma SureName(s: State, k: Look)
    requires Named(s) && s.mn.pc.MStopCompare? && s.mn.reg == k.own && k.ls == s.nm.lsNum
    requires k.counted == s.se.Counts() && k.clean == s.se.clean && k.live == s.mn.live && Sure(k)
    ensures s.mn.base == s.ls.emptyBase <==> k.own == s.ls.emptyNum
  {
    var i, j := s.mn.num, s.ls.emptyNum - 1;
    assert s.nm.mnNum == k.own && s.nm.zeroMark && i == k.own - 1 && s.mn.live;
    if s.mn.base == s.ls.emptyBase { BaseNameInjective(s.ls.dir, s.ls.times[i], i, s.ls.times[j], j); }
    hide BaseName, TokenLaw, UsedNamed;
  }

  lemma MainIdleLooks(pc: MainPc, s: State, e: Env)
    requires pc == s.mn.pc && !pc.Active() && !pc.MStopCompare? && MainLooks(s.mn)
    ensures MainLooks(MainIdle(s, e).0)
  {
  }

  lemma MainNameLooks(pc: MainPc, s: State, e: Env)
    requires pc == s.mn.pc && pc.Naming() && MainLooks(s.mn)
    ensures MainLooks(MainName(s, e).0)
  {
  }

  lemma MainMoveLooks(pc: MainPc, s: State, e: Env)
    requires pc == s.mn.pc && pc.Active() && !pc.Naming() && MainLooks(s.mn)
    ensures MainLooks(MainMove(s, e).0)
  {
  }

  lemma MainStepLooks(pc: MainPc, s: State, e: Env)
    requires pc == s.mn.pc && Named(s) && MainLooks(s.mn)
    ensures MainLooks(MainNext(s, e).mn)
  {
    hide MainNext, MainIdle, MainName, MainMove, Named, MainLooks;
    MainStores(s, e);
    if pc.MStopCompare? { MainCompares(s, e); }
    else if !pc.Active() { MainIdleLooks(pc, s, e); }
    else if pc.Naming() { MainNameLooks(pc, s, e); }
    else { MainMoveLooks(pc, s, e); }
  }

  // ---------- the index receiver ----------

  lemma IndexCompares(s: State, e: Env)
    requires s.sy.pc.IStopCompare? && Numbered(s) && IndexLooks(s.sy)
    ensures IndexLooks(IndexIdle(s, e).0)
  {
    var k := IndexIdle(s, e).0.look;
    if Sure(k) { SureIndexName(s, k); }
    hide Numbered, Sure, BaseName;
  }

  lemma SureIndexName(s: State, k: Look)
    requires Numbered(s) && s.sy.pc.IStopCompare? && s.sy.reg == k.own
    requires k.counted == s.ix.Counts() && k.live == s.sy.live && !k.clean && Sure(k)
    ensures s.sy.base == s.ls.emptyBase <==> k.own == s.ls.emptyNum
  {
    var i, j := s.sy.num, s.ls.emptyNum - 1;
    assert s.nm.syNum == k.own && s.nm.zeroMark && i == k.own - 1;
    if s.sy.base == s.ls.emptyBase { BaseNameInjective(s.ls.dir, s.ls.times[i], i, s.ls.times[j], j); }
    hide BaseName, Tokens, UsedNamed, IndexUsed, MainNamed;
  }

  lemma IndexIdleLooks(pc: IndexPc, s: State, e: Env)
    requires pc == s.sy.pc && !pc.Active() && !pc.IStopCompare? && IndexLooks(s.sy)
    ensures IndexLooks(IndexIdle(s, e).0)
  {
  }

  lemma IndexTakeLooks(pc: IndexPc, s: State, e: Env)
    requires pc == s.sy.pc && pc.Active() && pc.Taking() && IndexLooks(s.sy)
    ensures IndexLooks(IndexTake(s, e).0)
  {
  }

  lemma IndexNameLooks(pc: IndexPc, s: State, e: Env)
    requires pc == s.sy.pc && pc.Active() && !pc.Taking() && pc.Naming() && IndexLooks(s.sy)
    ensures IndexLooks(IndexName(s, e).0)
  {
  }

  lemma IndexSaveLooks(pc: IndexPc, s: State, e: Env)
    requires pc == s.sy.pc && pc.Active() && !pc.Taking() && !pc.Naming() && IndexLooks(s.sy)
    ensures IndexLooks(IndexSave(s, e).0)
  {
  }

  lemma IndexStepLooks(pc: IndexPc, s: State, e: Env)
    requires pc == s.sy.pc && Numbered(s) && IndexLooks(s.sy)
    ensures IndexLooks(IndexNext(s, e).sy)
  {
    hide IndexNext, IndexIdle, IndexTake, IndexName, IndexSave, Numbered, IndexLooks;
    IndexStores(s, e);
    if pc.IStopCompare? { IndexCompares(s, e); }
    else if !pc.Active() { IndexIdleLooks(pc, s, e); }
    else if pc.Taking() { IndexTakeLooks(pc, s, e); }
    else if pc.Naming() { IndexNameLooks(pc, s, e); }
    else { IndexSaveLooks(pc, s, e); }
  }

  lemma {:induction false} LooksRun(boot: Boot, steps: seq<Step>)
    ensures MainLooks(Exec(Init(boot), steps).mn) && IndexLooks(Exec(Init(boot), steps).sy)
  {
    if steps != [] {
      var n := |steps| - 1;
      var s := Exec(Init(boot), steps[..n]);
      LooksRun(boot, steps[..n]);
      NumberedRun(boot, steps[..n]);
      OwnLocals(s, steps[n]);
      assert Named(s) by { NumberedNamed(s); }
      hide Numbered, Named, MainLooks, IndexLooks, MainNext, IndexNext;
      if steps[n].MnStep? { MainStepLooks(s.mn.pc, s, steps[n].e); }
      if steps[n].SyStep? { IndexStepLooks(s.sy.pc, s, steps[n].e); }
    }
  }

  // ---------- what is removed ----------

  // A main file was removed exactly when a STOP closed it and the receiver had seen zero_mark
  // 1 and read a number equal to ls_file_num. If that number was counted in this session and
  // the name fetched in time, as it always is in a clean session unless the receiver is 128
  // slices behind, and if no cut has opened another slice since, this is to say: exactly when
  // it is the companion of the pulse file found empty.
  lemma {:induction false} MainRemovals(boot: Boot, steps: seq<Step>)
    ensures forall f <- Exec(Init(boot), steps).mn.done :: var k := f.look;
      && (f.gone <==> k.zero && k.own == k.ls) && (f.gone ==> !f.byCut)
      && (Sure(k) ==> (f.base == k.emptyBase <==> k.own == k.emptyNum))
      && (Sure(k) && k.ls == k.emptyNum ==> (f.gone <==> f.base == k.emptyBase))
      && (f.gone && k.counted && k.clean && k.own > 0 ==> (f.base == k.emptyBase <==> k.ls == k.emptyNum))
  {
    LooksRun(boot, steps);
    hide Exec;
    var m := Exec(Init(boot), steps).mn;
    assert forall f <- m.done :: Judged(f.base, f.gone, f.look);
  }

  // The same for index files, if the name was fetched in time.
  lemma {:induction false} IndexRemovals(boot: Boot, steps: seq<Step>)
    ensures forall f <- Exec(Init(boot), steps).sy.done :: var k := f.look;
      && (f.gone <==> k.zero && k.own == k.ls)
      && (Sure(k) ==> (f.base == k.emptyBase <==> k.own == k.emptyNum))
      && (Sure(k) && k.ls == k.emptyNum ==> (f.gone <==> f.base == k.emptyBase))
  {
    LooksRun(boot, steps);
    hide Exec;
    var x := Exec(Init(boot), steps).sy;
    assert forall f <- x.done :: Judged(f.base, f.gone, f.look);
  }
}
