// What a step of one thread leaves alone.
module Frames {
  import opened Descriptors
  import opened Protocol

  // The shared locations that each receiver writes at all.
  predicate MainWrites(w: Write) {
    match w
    case Nothing | SetReg(_, _) | SetMn(_) | Sys(_, _) => true
    case SetFlag(f, _) => f.Slice0? || f.SliceAlt0? || f.Stored0?
    case _ => false
  }

  predicate IndexWrites(w: Write) {
    match w
    case Nothing | SetReg(_, _) | SetSy(_) | Sys(_, _) => true
    case SetFlag(f, _) => f.Index0? || f.IndexAlt0? || f.Indexed0?
    case SetLine(line, _) => line.Invalidate?
    case _ => false
  }

  predicate PulseWrites(w: Write) {
    match w
    case SetFlag(f, _) => f.Slice1? || f.Stored1?
    case SetLine(_, _) => false
    case _ => true
  }

  lemma MainWritten(pc: MainPc, s: State, e: Env)
    requires pc == s.mn.pc
    ensures MainWrites(MainStep(s, e).1)
  {
  }

  lemma IndexWritten(pc: IndexPc, s: State, e: Env)
    requires pc == s.sy.pc
    ensures IndexWrites(IndexStep(s, e).1)
  {
  }

  lemma PulseWritten(pc: PulsePc, s: State, e: Env)
    requires pc == s.ls.pc
    ensures PulseWrites(PulseStep(s, e).1)
  {
  }

  // The flags that each receiver leaves alone.
  predicate MainFlags(f: Flags, g: Flags) {
    g.slice1 == f.slice1 && g.stored1 == f.stored1 && g.index0 == f.index0 && g.indexAlt0 == f.indexAlt0
    && g.indexed0 == f.indexed0 && g.sliceAlt1 == f.sliceAlt1
  }

  predicate IndexFlags(f: Flags, g: Flags) {
    g.slice0 == f.slice0 && g.slice1 == f.slice1 && g.stored0 == f.stored0 && g.stored1 == f.stored1
    && g.sliceAlt0 == f.sliceAlt0 && g.sliceAlt1 == f.sliceAlt1
  }

  predicate PulseFlags(f: Flags, g: Flags) {
    g.slice0 == f.slice0 && g.stored0 == f.stored0 && g.sliceAlt0 == f.sliceAlt0 && g.sliceAlt1 == f.sliceAlt1
    && g.index0 == f.index0 && g.indexAlt0 == f.indexAlt0 && g.indexed0 == f.indexed0
  }

  lemma MainWith(f: Flags, name: FlagName, b: bool)
    requires name.Slice0? || name.SliceAlt0? || name.Stored0?
    ensures MainFlags(f, f.With(name, b))
  {
  }

  lemma MainSpares(f: Flags, h: Hardware, n: Names, w: Write)
    requires MainWrites(w)
    ensures MainFlags(f, FlagsAfter(f, w))
    ensures LinesAfter(h, w) == h && NamesAfter(n, w) == n.(mnNum := NamesAfter(n, w).mnNum)
  {
    if w.SetFlag? { MainWith(f, w.f, w.b); }
    hide Flags.With;
  }

  lemma IndexWith(f: Flags, name: FlagName, b: bool)
    requires name.Index0? || name.IndexAlt0? || name.Indexed0?
    ensures IndexFlags(f, f.With(name, b))
  {
  }

  lemma IndexSpares(f: Flags, h: Hardware, w: Write)
    requires IndexWrites(w)
    ensures IndexFlags(f, FlagsAfter(f, w))
    ensures LinesAfter(h, w) == h || LinesAfter(h, w) == h.(invalidate := LinesAfter(h, w).invalidate)
  {
    if w.SetFlag? { IndexWith(f, w.f, w.b); }
    hide Flags.With;
  }

  lemma PulseWith(f: Flags, name: FlagName, b: bool)
    requires name.Slice1? || name.Stored1?
    ensures PulseFlags(f, f.With(name, b))
  {
  }

  lemma PulseSpares(f: Flags, h: Hardware, w: Write)
    requires PulseWrites(w)
    ensures PulseFlags(f, FlagsAfter(f, w))
    ensures LinesAfter(h, w) == h
  {
    if w.SetFlag? { PulseWith(f, w.f, w.b); }
    hide Flags.With;
  }

  lemma MainTouches(pc: MainPc, s: State, e: Env)
    requires pc == s.mn.pc
    ensures var t := MainNext(s, e); t.sy == s.sy && t.ls == s.ls && t.ct == s.ct && t.hw == s.hw
    ensures var t := MainNext(s, e);
      t.nm == s.nm.(mnNum := t.nm.mnNum) && t.se == s.se.(stale := t.se.stale, drift := t.se.drift, used := t.se.used)
    ensures MainNext(s, e).se.drift ==> s.se.drift
    ensures MainFlags(s.fl, MainNext(s, e).fl)
  {
    MainWritten(pc, s, e);
    MainStores(s, e);
    MainSpares(s.fl, s.hw, s.nm, MainStep(s, e).1);
    assert MainNext(s, e).se == UsedAfter(s) by { hide MainStep; }
    hide MainNext, MainStep, MainWrites, MainFlags, FlagsAfter, LinesAfter, NamesAfter, RegistersAfter, TableAfter;
  }

  lemma IndexTouches(pc: IndexPc, s: State, e: Env)
    requires pc == s.sy.pc
    ensures var t := IndexNext(s, e); t.mn == s.mn && t.ls == s.ls && t.ct == s.ct && t.se == s.se
    ensures var w, v := s.hw, IndexNext(s, e).hw; v == w || v == w.(invalidate := v.invalidate)
    ensures IndexFlags(s.fl, IndexNext(s, e).fl)
  {
    IndexWritten(pc, s, e);
    IndexStores(s, e);
    IndexSpares(s.fl, s.hw, IndexStep(s, e).1);
    hide IndexNext, IndexStep, IndexWrites, IndexFlags, FlagsAfter, LinesAfter, NamesAfter, RegistersAfter, TableAfter;
  }

  lemma PulseTouches(pc: PulsePc, s: State, e: Env)
    requires pc == s.ls.pc
    ensures var t := PulseNext(s, e); t.mn == s.mn && t.sy == s.sy && t.ct == s.ct && t.hw == s.hw
    ensures PulseFlags(s.fl, PulseNext(s, e).fl)
  {
    PulseWritten(pc, s, e);
    PulseStores(s, e);
    PulseSpares(s.fl, s.hw, PulseStep(s, e).1);
    hide PulseNext, PulseStep, PulseWrites, PulseFlags, FlagsAfter, LinesAfter, NamesAfter, RegistersAfter, TableAfter;
  }

  // The locals of a thread change in its own steps only.
  lemma OwnLocals(s: State, st: Step)
    ensures var t := Next(s, st);
      && (!st.MnStep? ==> t.mn == s.mn) && (!st.SyStep? ==> t.sy == s.sy) && (!st.LsStep? ==> t.ls == s.ls)
  {
    hide MainStep, IndexStep, PulseStep, ControlStep;
  }

  // Where the effect of a step ends up.
  lemma MainStores(s: State, e: Env)
    ensures var t, r := MainNext(s, e), MainStep(s, e);
      && t.mn == r.0 && t.fl == FlagsAfter(s.fl, r.1) && t.rg == RegistersAfter(s.rg, r.1)
      && t.nm == NamesAfter(s.nm, r.1) && t.hw == LinesAfter(s.hw, r.1) && t.os == TableAfter(s.os, Mn, r.1)
      && t.sy == s.sy && t.ls == s.ls && t.ct == s.ct && t.ix == s.ix
  {
    hide MainStep, FlagsAfter, RegistersAfter, NamesAfter, LinesAfter, TableAfter;
  }

  lemma IndexStores(s: State, e: Env)
    ensures var t, r := IndexNext(s, e), IndexStep(s, e);
      && t.sy == r.0 && t.fl == FlagsAfter(s.fl, r.1) && t.rg == RegistersAfter(s.rg, r.1)
      && t.nm == NamesAfter(s.nm, r.1) && t.hw == LinesAfter(s.hw, r.1) && t.os == TableAfter(s.os, Sy, r.1)
      && t.mn == s.mn && t.ls == s.ls && t.ct == s.ct && t.se == s.se && t.ix == IndexUsedAfter(s)
  {
    hide IndexStep, FlagsAfter, RegistersAfter, NamesAfter, LinesAfter, TableAfter, IndexUsedAfter;
  }

  lemma PulseStores(s: State, e: Env)
    ensures var t, r := PulseNext(s, e), PulseStep(s, e);
      && t.ls == r.0 && t.fl == FlagsAfter(s.fl, r.1) && t.rg == RegistersAfter(s.rg, r.1)
      && t.nm == NamesAfter(s.nm, r.1) && t.hw == LinesAfter(s.hw, r.1) && t.os == TableAfter(s.os, Ls, r.1)
      && t.mn == s.mn && t.sy == s.sy && t.ct == s.ct && t.se == SessionAfter(s) && t.ix == IndexSessionAfter(s)
  {
    hide PulseStep, FlagsAfter, RegistersAfter, NamesAfter, LinesAfter, TableAfter, SessionAfter, IndexSessionAfter;
  }

  lemma ControlStores(s: State, e: Env)
    ensures var t, r := ControlNext(s, e), ControlStep(s, e);
      && t.ct == r.0 && t.fl == FlagsAfter(s.fl, r.1) && t.rg == RegistersAfter(s.rg, r.1)
      && t.nm == NamesAfter(s.nm, r.1) && t.hw == LinesAfter(s.hw, r.1) && t.os == TableAfter(s.os, Out, r.1)
      && t.mn == s.mn && t.sy == s.sy && t.ls == s.ls && t.se == s.se && t.ix == s.ix
  {
    hide ControlStep, FlagsAfter, RegistersAfter, NamesAfter, LinesAfter, TableAfter;
  }
}
