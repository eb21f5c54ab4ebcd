// FILE_MARK as a token for one more main file: who writes it, how long it stays, and that every
// token is accounted for (src/store.c:386, 399, 501, 591).
module MarkTokens {
  import Naming
  import opened Protocol
  import opened Frames
  import opened Barrier
  import opened Companions

  // The main receiver takes the token, or a client overwrites it.
  predicate Takes(s: State, st: Step) { (st.MnStep? && s.mn.pc.MMarkSet?) || st == Net(FileMark, true) }

  // The pulse receiver is done with the open of a slice, or a client writes a token.
  predicate Issues(s: State, st: Step) {
    (st.LsStep? && (s.ls.pc.LMark? || s.ls.pc.LFirstMark?)) || st == Net(FileMark, false)
  }

  lemma MainMarks(pc: MainPc, s: State, e: Env)
    requires pc == s.mn.pc
    ensures RegistersAfter(s.rg, MainStep(s, e).1).fileMark == (s.rg.fileMark || pc.MMarkSet?)
  {
  }

  lemma PulseMarks(pc: PulsePc, s: State, e: Env)
    requires pc == s.ls.pc
    ensures RegistersAfter(s.rg, PulseStep(s, e).1).fileMark == (s.rg.fileMark && !pc.LMark? && !pc.LFirstMark?)
  {
    hide Naming.BaseName;
  }

  lemma MarkStep(s: State, st: Step)
    ensures Next(s, st).rg.fileMark == (Takes(s, st) || (s.rg.fileMark && !Issues(s, st)))
  {
    hide MainNext, IndexNext, PulseNext, ControlNext, MainStep, IndexStep, PulseStep, ControlStep, RegistersAfter,
         FlagsAfter, NamesAfter, LinesAfter, TableAfter;
    match st
    case MnStep(e) => MainMarks(s.mn.pc, s, e); MainStores(s, e);
    case SyStep(e) => IndexLeavesNames(s.sy.pc, s, e); IndexStores(s, e);
    case LsStep(e) => PulseMarks(s.ls.pc, s, e); PulseStores(s, e);
    case CtStep(e) => ControlLeavesNames(s.ct.pc, s, e); ControlStores(s, e);
    case _ => OutsideMarks(s, st);
  }

  lemma OutsideMarks(s: State, st: Step)
    requires st.Net? || st.Hw? || st.Other?
    ensures Next(s, st).rg.fileMark == (st == Net(FileMark, true) || (s.rg.fileMark && st != Net(FileMark, false)))
  {
  }

  // Once the pulse receiver is past the write that ends an open, FILE_MARK stays 0 until the
  // main receiver or a client writes 1, whatever else anybody does.
  lemma {:induction false} TokenStays(s: State, e: Env, more: seq<Step>)
    requires s.ls.pc.LMark? || s.ls.pc.LFirstMark?
    requires forall i :: 0 <= i < |more| ==> !Takes(Exec(PulseNext(s, e), more[..i]), more[i])
    ensures !Exec(PulseNext(s, e), more).rg.fileMark
  {
    hide Next, PulseNext, Takes, Issues;
    var t := PulseNext(s, e);
    if more == [] {
      Issued(s, e);
    } else {
      var n := |more| - 1;
      assert forall i :: 0 <= i < n ==> more[..n][..i] == more[..i];
      TokenStays(s, e, more[..n]);
      MarkStep(Exec(t, more[..n]), more[n]);
    }
  }

  lemma Issued(s: State, e: Env)
    requires s.ls.pc.LMark? || s.ls.pc.LFirstMark?
    ensures !PulseNext(s, e).rg.fileMark
  {
    hide PulseNext;
    PulseMarks(s.ls.pc, s, e);
    PulseStores(s, e);
  }

  // Tokens that the main receiver has not used yet.
  function Unused(mark: bool, pc: MainPc): nat {
    if pc.Numbering() then 1 else if pc.Opening() || mark then 0 else 1
  }

  // Issued slices for which it has no token any more.
  function Behind(s: State): int { s.Issued() - s.nm.mnNum - Unused(s.rg.fileMark, s.mn.pc) }

  // The token of a slice is lost when there is one already or the main receiver is about to
  // write 1, and there is none when the open of the slice failed.
  predicate Misses(s: State, st: Step) {
    st.LsStep? &&
      match s.ls.pc
      case LMark | LFirstMark => !s.rg.fileMark || s.mn.pc.Opening()
      case LOpen => s.os.Result(st.e.fd) < 0
      case _ => false
  }

  lemma MainBalances(pc: MainPc, s: State, e: Env)
    requires pc == s.mn.pc && Named(s) && s.se.named && !s.se.drift
    ensures Behind(MainNext(s, e)) == Behind(s)
  {
    hide MainNext, MainIdle, MainName, MainMove, Naming.BaseName, LogHolds, EmptyNamed, Tokens, UsedNamed;
    MainStores(s, e);
    if !pc.Active() { IdleBalances(pc, s, e); }
    else if pc.Naming() { NameBalances(pc, s, e); }
    else { MoveBalances(pc, s, e); }
  }

  lemma IdleBalances(pc: MainPc, s: State, e: Env)
    requires pc == s.mn.pc && !pc.Active()
    ensures var (m, w) := MainIdle(s, e);
      && NamesAfter(s.nm, w) == s.nm && RegistersAfter(s.rg, w).fileMark == s.rg.fileMark && !m.pc.Opening()
  {
  }

  lemma NameBalances(pc: MainPc, s: State, e: Env)
    requires pc == s.mn.pc && pc.Naming() && (pc.MStore? ==> s.mn.reg == s.nm.mnNum)
    ensures var (m, w) := MainName(s, e); var n := NamesAfter(s.nm, w);
      n.lsNum == s.nm.lsNum
      && n.mnNum + Unused(RegistersAfter(s.rg, w).fileMark, m.pc) == s.nm.mnNum + Unused(s.rg.fileMark, pc)
  {
  }

  lemma MoveBalances(pc: MainPc, s: State, e: Env)
    requires pc == s.mn.pc && pc.Active() && !pc.Naming()
    ensures var (m, w) := MainMove(s, e);
      && NamesAfter(s.nm, w) == s.nm && RegistersAfter(s.rg, w).fileMark == s.rg.fileMark && !m.pc.Opening()
  {
  }

  lemma PulseBalances(pc: PulsePc, s: State, e: Env)
    requires pc == s.ls.pc && Named(s) && s.se.named && !pc.LReset?
    ensures Behind(PulseNext(s, e)) == Behind(s) + Bit(Misses(s, LsStep(e)))
  {
    hide PulseNext, PulseStart, PulseMove, PulseTurn, Naming.BaseName, MainNamed, EmptyNamed, Tokens, UsedNamed;
    PulseStores(s, e);
    PulseMarks(pc, s, e);
    if pc.Commanded() { StartBalances(pc, s, e); }
    else if pc.Moving() { MovingBalances(pc, s, e); }
    else { TurnBalances(pc, s, e); }
  }

  lemma StartBalances(pc: PulsePc, s: State, e: Env)
    requires pc == s.ls.pc && pc.Commanded() && !pc.Starting() && !pc.LReset?
    ensures var (p, w) := PulseStart(s, e); var n := NamesAfter(s.nm, w);
      n.mnNum == s.nm.mnNum && IssuedBy(n, p.pc) == s.Issued() + Bit(pc.LFirstMark?)
  {
  }

  lemma MovingBalances(pc: PulsePc, s: State, e: Env)
    requires pc == s.ls.pc && pc.Moving()
    ensures var (p, w) := PulseMove(s, e); var n := NamesAfter(s.nm, w);
      n.mnNum == s.nm.mnNum && IssuedBy(n, p.pc) == s.Issued()
  {
  }

  lemma TurnBalances(pc: PulsePc, s: State, e: Env)
    requires pc == s.ls.pc && !pc.Commanded() && !pc.Moving()
    ensures var (p, w) := PulseTurn(s, e); var n := NamesAfter(s.nm, w);
      n.mnNum == s.nm.mnNum
      && IssuedBy(n, p.pc) == s.Issued() + Bit(pc.LMark? || (pc.LOpen? && s.os.Result(e.fd) < 0))
  {
    hide Naming.BaseName;
  }

  // Every token is accounted for. From the reset on, with numbers read since, the slices
  // issued are those the main receiver has counted a file for, the one it has a token for, and
  // those whose token was lost, never fewer than none in a clean session: with every step the
  // last number grows by one exactly when a token is lost or not issued, and changes otherwise
  // only by what a client writes.
  lemma {:induction false} TokenConservation(boot: Boot, steps: seq<Step>, st: Step)
    ensures var s := Exec(Init(boot), steps); var t := Next(s, st);
      && (s.se.clean ==> Behind(s) >= 0)
      && (s.se.named && !s.se.drift && !(st.LsStep? && s.ls.pc.LReset?) ==>
            Behind(t) == Behind(s) + Bit(Misses(s, st))
                         + (if st.Net? then Unused(s.rg.fileMark, s.mn.pc) - Unused(t.rg.fileMark, t.mn.pc) else 0))
  {
    hide Exec, Named, MainNext, IndexNext, PulseNext, ControlNext, NetNext, OtherNext, Behind, Misses, Unused;
    NamedRun(boot, steps);
    var s := Exec(Init(boot), steps);
    if s.se.clean { CleanBehind(s); }
    if s.se.named && !s.se.drift && !(st.LsStep? && s.ls.pc.LReset?) {
      NoMiss(s, st);
      match st
      case MnStep(e) => MainBalances(s.mn.pc, s, e);
      case LsStep(e) => PulseBalances(s.ls.pc, s, e);
      case _ => OthersBalance(s, st);
    }
  }

  lemma CleanBehind(s: State)
    requires Named(s) && s.se.clean
    ensures Behind(s) >= 0
  {
    hide Naming.BaseName, LogHolds, MainNamed, EmptyNamed, UsedNamed;
  }

  lemma NoMiss(s: State, st: Step)
    ensures Misses(s, st) ==> st.LsStep?
  {
  }

  lemma OthersBalance(s: State, st: Step)
    requires !st.MnStep? && !st.LsStep?
    ensures var t := Next(s, st);
      Behind(t) == Behind(s)
                   + (if st.Net? then Unused(s.rg.fileMark, s.mn.pc) - Unused(t.rg.fileMark, t.mn.pc) else 0)
  {
    hide IndexNext, ControlNext, Unused;
    match st
    case SyStep(e) =>
      IndexTouches(s.sy.pc, s, e);
      IndexStores(s, e);
      IndexLeavesNames(s.sy.pc, s, e);
    case CtStep(e) =>
      ControlStores(s, e);
      ControlLeavesNames(s.ct.pc, s, e);
    case _ =>
  }
}
