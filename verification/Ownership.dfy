// Who holds which descriptor number: a thread keeps the file it opened under the number it
// uses until it closes it, unless another thread closes that number first
// (src/store.c:297, 313, 339, 380, 390, 424, 484, 529, 564, 582).
module Ownership {
  import Naming
  import opened Descriptors
  import opened Channels
  import opened Protocol
  import opened Frames

  ghost predicate Held(os: Table, mn: int, sy: int, ls: int) {
    os.mn.Kept(mn) && os.sy.Kept(sy) && os.ls.Kept(ls) && os.Distinct()
  }

  ghost predicate Homes(s: State) {
    Held(s.os, AsDescriptor(s.mn.data.fd), s.sy.fd, s.ls.data.fd)
  }

  lemma ForeignKept(t: Track, fd: int, c: Call)
    requires t.Kept(fd)
    ensures t.Foreign(c).Kept(fd)
  {
  }

  // The number in use changes by an open only, to what the open returned.
  predicate Follows(os: Table, w: Write, fd: int, next: int) {
    if w.Sys? && w.call.OpenAt? then w.call.n == next && (next >= 0 ==> os.Free(next)) else next == fd
  }

  lemma OwnKept(os: Table, t: Track, w: Write, fd: int, next: int)
    requires w.Sys? && t.Kept(fd) && Follows(os, w, fd, next)
    ensures t.Own(w.call, w.past).Kept(next)
  {
  }

  lemma DistinctAfter(os: Table, who: Who, c: Call, past: nat)
    requires os.Distinct() && (c.OpenAt? && c.n >= 0 ==> os.Free(c.n))
    ensures os.After(who, c, past).Distinct()
  {
  }

  lemma HeldAfter(os: Table, who: Who, w: Write, mn: int, sy: int, ls: int, next: int)
    requires Held(os, mn, sy, ls)
    requires w.Sys? && w.call.OpenAt? && w.call.n >= 0 ==> os.Free(w.call.n)
    requires match who case Mn => Follows(os, w, mn, next) case Sy => Follows(os, w, sy, next)
                       case Ls => Follows(os, w, ls, next) case Out => true
    ensures Held(TableAfter(os, who, w), if who.Mn? then next else mn, if who.Sy? then next else sy,
                 if who.Ls? then next else ls)
  {
    if w.Sys? {
      var c := w.call;
      DistinctAfter(os, who, c, w.past);
      if who.Mn? { OwnKept(os, os.mn, w, mn, next); } else { ForeignKept(os.mn, mn, c); }
      if who.Sy? { OwnKept(os, os.sy, w, sy, next); } else { ForeignKept(os.sy, sy, c); }
      if who.Ls? { OwnKept(os, os.ls, w, ls, next); } else { ForeignKept(os.ls, ls, c); }
    }
    hide Track.Kept, Track.Own, Track.Foreign, Table.Distinct;
  }

  lemma MainFollows(pc: MainPc, s: State, e: Env)
    requires pc == s.mn.pc
    ensures Follows(s.os, MainStep(s, e).1, AsDescriptor(s.mn.data.fd), AsDescriptor(MainStep(s, e).0.data.fd))
  {
    if pc.MOpen? { DescriptorKept(s.os.Result(e.fd)); }
    hide AsDescriptor;
  }

  lemma IndexFollows(pc: IndexPc, s: State, e: Env)
    requires pc == s.sy.pc
    ensures Follows(s.os, IndexStep(s, e).1, s.sy.fd, IndexStep(s, e).0.fd)
  {
    if !pc.Active() { IndexIdleFollows(pc, s, e); }
    else if pc.Taking() { IndexTakeFollows(pc, s, e); }
    else { IndexLaterFollows(pc, s, e); }
    hide IndexIdle, IndexTake, IndexName, IndexSave, Follows;
  }

  lemma IndexIdleFollows(pc: IndexPc, s: State, e: Env)
    requires pc == s.sy.pc && !pc.Active()
    ensures Follows(s.os, IndexIdle(s, e).1, s.sy.fd, IndexIdle(s, e).0.fd)
  {
  }

  lemma IndexTakeFollows(pc: IndexPc, s: State, e: Env)
    requires pc == s.sy.pc && pc.Active() && pc.Taking()
    ensures Follows(s.os, IndexTake(s, e).1, s.sy.fd, IndexTake(s, e).0.fd)
  {
  }

  lemma IndexLaterFollows(pc: IndexPc, s: State, e: Env)
    requires pc == s.sy.pc && pc.Active() && !pc.Taking()
    ensures Follows(s.os, IndexName(s, e).1, s.sy.fd, IndexName(s, e).0.fd)
    ensures Follows(s.os, IndexSave(s, e).1, s.sy.fd, IndexSave(s, e).0.fd)
  {
  }

  lemma PulseStartFollows(pc: PulsePc, s: State, e: Env)
    requires pc == s.ls.pc
    ensures Follows(s.os, PulseStart(s, e).1, s.ls.data.fd, PulseStart(s, e).0.data.fd)
  {
    hide Naming.BaseName;
  }

  lemma PulseMoveFollows(pc: PulsePc, s: State, e: Env)
    requires pc == s.ls.pc
    ensures Follows(s.os, PulseMove(s, e).1, s.ls.data.fd, PulseMove(s, e).0.data.fd)
  {
  }

  lemma PulseFollows(pc: PulsePc, s: State, e: Env)
    requires pc == s.ls.pc
    ensures Follows(s.os, PulseStep(s, e).1, s.ls.data.fd, PulseStep(s, e).0.data.fd)
  {
    hide Naming.BaseName;
    if pc.Commanded() { PulseStartFollows(pc, s, e); } else if pc.Moving() { PulseMoveFollows(pc, s, e); }
    hide PulseStart, PulseMove;
  }

  lemma ControlWrites(pc: ControlPc, s: State, e: Env)
    requires pc == s.ct.pc
    ensures !ControlStep(s, e).1.Sys?
  {
  }

  lemma HomesStep(s: State, st: Step)
    requires Homes(s)
    ensures Homes(Next(s, st))
  {
    var mn, sy, ls := AsDescriptor(s.mn.data.fd), s.sy.fd, s.ls.data.fd;
    hide Held, MainStep, IndexStep, PulseStep, ControlStep, MainNext, IndexNext, PulseNext, ControlNext, TableAfter;
    match st
    case MnStep(e) =>
      MainFollows(s.mn.pc, s, e);
      MainStores(s, e);
      HeldAfter(s.os, Mn, MainStep(s, e).1, mn, sy, ls, AsDescriptor(MainStep(s, e).0.data.fd));
    case SyStep(e) =>
      IndexFollows(s.sy.pc, s, e);
      IndexStores(s, e);
      HeldAfter(s.os, Sy, IndexStep(s, e).1, mn, sy, ls, IndexStep(s, e).0.fd);
    case LsStep(e) =>
      PulseFollows(s.ls.pc, s, e);
      PulseStores(s, e);
      HeldAfter(s.os, Ls, PulseStep(s, e).1, mn, sy, ls, PulseStep(s, e).0.data.fd);
    case CtStep(e) =>
      ControlWrites(s.ct.pc, s, e);
      ControlStores(s, e);
      HeldAfter(s.os, Out, ControlStep(s, e).1, mn, sy, ls, 0);
    case _ => OutsideHomes(s, st);
  }

  lemma OutsideHomes(s: State, st: Step)
    requires (st.Net? || st.Hw? || st.Other?) && Homes(s)
    ensures Homes(Next(s, st))
  {
    if st.Other? {
      var mn, sy, ls := AsDescriptor(s.mn.data.fd), s.sy.fd, s.ls.data.fd;
      if s.os.Free(st.n) {
        HeldAfter(s.os, Out, Sys(OpenAt(st.n), 0), mn, sy, ls, 0);
      } else {
        HeldAfter(s.os, Out, Sys(CloseAt(st.n), 0), mn, sy, ls, 0);
      }
    }
    hide Held;
  }

  lemma {:induction false} HomesRun(boot: Boot, steps: seq<Step>)
    ensures Homes(Exec(Init(boot), steps))
  {
    if steps != [] {
      var n := |steps| - 1;
      HomesRun(boot, steps[..n]);
      HomesStep(Exec(Init(boot), steps[..n]), steps[n]);
    }
  }

  // What a step does to the file of another thread.
  lemma TracksAfter(os: Table, who: Who, w: Write)
    ensures var t := TableAfter(os, who, w);
      && (!who.Mn? ==> t.mn == if w.Sys? then os.mn.Foreign(w.call) else os.mn)
      && (!who.Sy? ==> t.sy == if w.Sys? then os.sy.Foreign(w.call) else os.sy)
      && (!who.Ls? ==> t.ls == if w.Sys? then os.ls.Foreign(w.call) else os.ls)
  {
  }

  lemma OutsideTracks(s: State, st: Step)
    requires st.Net? || st.Hw? || st.Other?
    ensures var t := Next(s, st);
      && t.mn == s.mn && t.sy == s.sy && t.ls == s.ls && t.ct == s.ct && t.fl == s.fl
      && (t.os.mn == s.os.mn || exists c :: t.os.mn == s.os.mn.Foreign(c))
      && (t.os.sy == s.os.sy || exists c :: t.os.sy == s.os.sy.Foreign(c))
      && (t.os.ls == s.os.ls || exists c :: t.os.ls == s.os.ls.Foreign(c))
  {
    if st.Other? {
      TracksAfter(s.os, Out, Sys(OpenAt(st.n), 0));
      TracksAfter(s.os, Out, Sys(CloseAt(st.n), 0));
    }
    hide TableAfter;
  }

  // A number is held by one thread at most, by the thread that uses it, and exactly as long as
  // its open succeeded and nobody else closed it.
  lemma {:induction false} OneHolder(boot: Boot, steps: seq<Step>)
    ensures var s := Exec(Init(boot), steps); var os := s.os;
      && os.Distinct()
      && (os.mn.home >= 0 ==> os.mn.home == AsDescriptor(s.mn.data.fd))
      && (os.sy.home >= 0 ==> os.sy.home == s.sy.fd)
      && (os.ls.home >= 0 ==> os.ls.home == s.ls.data.fd)
      && (os.mn.home >= 0 <==> os.mn.made && !os.mn.robbed)
      && (os.sy.home >= 0 <==> os.sy.made && !os.sy.robbed)
      && (os.ls.home >= 0 <==> os.ls.made && !os.ls.robbed)
  {
    HomesRun(boot, steps);
    hide Exec;
  }
}
