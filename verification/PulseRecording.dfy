// What the pulse stream records from a START on (src/store.c:446-603).
module PulseRecording {
  import opened Common
  import Naming
  import opened Descriptors
  import opened Channels
  import opened Protocol
  import opened Frames
  import opened Ownership

  // Staged bytes, and how many of them were passed to a write before.
  ghost predicate Staged(p: PulseThread, t: Track) {
    var n := |p.data.staged|;
    && n % DMA_TRANS_SIZE == 0
    && n <= IFD_WRITE_MN
    && (n == IFD_WRITE_MN ==> p.pc.LFull?)
    && (p.pc.Starting() ==> n == 0)
    && p.saved <= n
    && (p.pc.Rotating() ==> p.saved == n)
    && (p.saved > 0 ==> p.pc.Rotating() || t.home < 0)
    && (p.pc.Between() ==> t == CLOSED)
  }

  // The books of the session, from the START whose open succeeded.
  ghost predicate Books(p: PulseThread, t: Track) {
    && (p.pc.Unopened() ==> !p.began)
    && (p.intact ==> p.began)
    && (!t.made ==> t.bytes == [])
    && (p.began && p.saved <= |p.data.staged| ==>
          Balanced(Concat(p.done), t, p.data.staged[p.saved..], p.got, p.lost, p.alien))
  }

  // While every open succeeded and no STOP was seen, a byte is lost only if a number was 0 or
  // another thread closed it; and there is one file for each name.
  ghost predicate Sound(p: PulseThread, t: Track) {
    p.intact ==>
      && (t.made <==> !p.pc.Between())
      && (p.positive && t.made ==> p.data.fd > 0)
      && (p.positive && !p.robbed && !t.robbed ==> p.lost + t.lost == 0)
      && |p.times| == |p.done| + (if t.made || p.pc.LInc? || p.pc.LOpen? then 1 else 0)
  }

  // What STOP removes as empty is empty, unless another thread wrote there since.
  ghost predicate Emptied(p: PulseThread, t: Track) {
    (p.pc.LStopZero? || p.pc.LStopRemove?) && t.home >= 0 ==> t.bytes == [] || t.alien > 0
  }

  ghost predicate RecordingIn(p: PulseThread, t: Track) {
    Staged(p, t) && Books(p, t) && Sound(p, t) && Emptied(p, t) && (p.pc.LFirstOpen? ==> |p.times| == 1)
  }

  ghost predicate Recording(s: State) {
    Homes(s) && RecordingIn(s.ls, s.os.ls)
  }

  ghost predicate Records(s: State, p: PulseThread, w: Write) {
    RecordingIn(p, TableAfter(s.os, Ls, w).ls)
  }

  // Nothing is delivered, written, opened or closed.
  ghost predicate Same(p: PulseThread, q: PulseThread) {
    && q.data == p.data && q.saved == p.saved && q.began == p.began && q.intact == p.intact && q.got == p.got
    && q.done == p.done && q.lost == p.lost && q.alien == p.alien && q.robbed == p.robbed && q.positive == p.positive
    && q.times == p.times && Quiet(p.pc)
    && !q.pc.Starting() && !q.pc.Unopened() && !q.pc.Between() && !q.pc.LStopZero? && !q.pc.LStopRemove?
    && (q.pc.Rotating() ==> p.pc.LMark?) && (p.pc.LMark? ==> q.pc.Rotating())
  }

  ghost predicate Quiet(pc: PulsePc) {
    match pc
    case LFirstInc | LStarClear | LFirstMark | LStop | LStopAck | LStored | LFifo | LCut | LMark | LStoredSet => true
    case _ => false
  }

  lemma QuietSame(pc: PulsePc, s: State, e: Env)
    requires pc == s.ls.pc && Quiet(pc)
    ensures Same(s.ls, PulseStep(s, e).0) && !PulseStep(s, e).1.Sys?
  {
    hide Naming.BaseName;
  }

  lemma SameRecords(p: PulseThread, q: PulseThread, t: Track)
    requires Same(p, q) && RecordingIn(p, t)
    ensures RecordingIn(q, t)
  {
    hide Balanced, Concat;
  }

  lemma StartRecords(pc: PulsePc, s: State, e: Env)
    requires pc == s.ls.pc && pc.Commanded() && !Quiet(pc) && Recording(s)
    ensures Records(s, PulseStart(s, e).0, PulseStart(s, e).1)
  {
    hide Homes, Naming.BaseName;
    assert Concat([]) == [];
    hide Concat;
  }

  lemma StopRecords(pc: PulsePc, s: State, e: Env)
    requires pc == s.ls.pc && (pc.LStopSeek? || pc.LStopZero? || pc.LStopRemove?) && Recording(s)
    ensures Records(s, PulseMove(s, e).0, PulseMove(s, e).1)
  {
    hide Concat;
  }

  // The file is closed and counts as done.
  lemma ClosedBooks(p: PulseThread, t: Track, pc: PulsePc, intact: bool)
    requires Books(p, t) && p.saved <= |p.data.staged| && (intact ==> p.intact) && !pc.Unopened()
    ensures Books(p.Closed(t).(pc := pc, intact := intact), CLOSED)
  {
    if p.began {
      ClosedBalanced(Concat(p.done), t, p.data.staged[p.saved..], p.got, p.lost, p.alien);
      ConcatSnoc(p.done, t.bytes);
      assert Concat(p.done) + [] == Concat(p.done);
    }
    hide Balanced, Concat;
  }

  lemma StopCloses(s: State, e: Env)
    requires s.ls.pc.LStopClose? && Recording(s)
    ensures Records(s, PulseMove(s, e).0, PulseMove(s, e).1)
  {
    ClosedBooks(s.ls, s.os.ls, LStored, false);
    hide Homes, Books;
  }

  lemma CutCloses(s: State, e: Env)
    requires s.ls.pc.LClose? && Recording(s)
    ensures Records(s, PulseTurn(s, e).0, PulseTurn(s, e).1)
  {
    ClosedBooks(s.ls, s.os.ls, LSlotBegin, s.ls.intact);
    hide Homes, Books;
  }

  lemma Delivers(s: State, e: Env)
    requires s.ls.pc.LDma? && Recording(s)
    ensures Records(s, PulseMove(s, e).0, PulseMove(s, e).1)
  {
    var p, c := s.ls, e.Bytes();
    if p.began { DeliveredBalanced(Concat(p.done), s.os.ls, p.data.staged[p.saved..], p.got, p.lost, p.alien, c); }
    assert p.data.staged[p.saved..] + c == (p.data.staged + c)[p.saved..];
    assert p.data.staged + [] == p.data.staged && p.got + [] == p.got;
    hide Homes, Balanced, Concat;
  }

  // A write of the staged bytes, of which the first saved ones were written before.
  lemma Puts(p: PulseThread, t: Track)
    requires Books(p, t) && p.saved <= |p.data.staged| && t.Kept(p.data.fd)
    ensures var u := t.Own(PutAt(p.data.fd, p.data.staged), p.saved);
      && (p.began ==> Balanced(Concat(p.done), u, [], p.got, p.lost, p.alien))
      && u.Kept(p.data.fd) && u.made == t.made && u.robbed == t.robbed && (!u.made ==> u.bytes == [])
      && (t.made && !t.robbed ==> u.lost == t.lost)
  {
    if p.began { PutBalanced(Concat(p.done), t, p.data.staged, p.saved, p.got, p.lost, p.alien, p.data.fd); }
    hide Balanced, Concat;
  }

  lemma Flushes(s: State, e: Env)
    requires s.ls.pc.LFull? && |s.ls.data.staged| == IFD_WRITE_MN && Recording(s)
    ensures Records(s, PulseMove(s, e).0, PulseMove(s, e).1)
  {
    var p, t := s.ls, s.os.ls;
    if p.data.fd > 0 { Puts(p, t); }
    else if p.began {
      SkippedBalanced(Concat(p.done), t, p.data.staged[p.saved..], p.got, p.lost, p.alien);
    }
    hide Balanced, Concat, Track.Own;
    var none: Bytes := [];
    assert none[0..] == none;
  }

  lemma FlushesNothing(s: State, e: Env)
    requires s.ls.pc.LFull? && |s.ls.data.staged| != IFD_WRITE_MN && Recording(s)
    ensures Records(s, PulseMove(s, e).0, PulseMove(s, e).1)
  {
    hide Homes, Balanced, Concat;
  }

  lemma Drains(s: State, e: Env)
    requires s.ls.pc.LDrain? && Recording(s)
    ensures Records(s, PulseTurn(s, e).0, PulseTurn(s, e).1)
  {
    var p, t := s.ls, s.os.ls;
    Puts(p, t);
    assert p.data.staged[|p.data.staged|..] == [];
    assert p.data.staged == [] ==> p.data.staged[p.saved..] == [];
    hide Balanced, Concat, Track.Own;
  }

  lemma PadRecords(s: State, e: Env)
    requires s.ls.pc.LPad? && Recording(s)
    ensures Records(s, PulseTurn(s, e).0, PulseTurn(s, e).1)
  {
    hide Concat, Balanced;
    assert Balanced(Concat(s.ls.done), s.os.ls.Own(PadAt(s.ls.data.fd), 0), s.ls.data.staged[s.ls.saved..], s.ls.got,
        s.ls.lost, s.ls.alien) || !s.ls.began by { PadBalanced(s.ls, s.os.ls); }
  }

  lemma PadBalanced(p: PulseThread, t: Track)
    requires p.saved <= |p.data.staged|
    ensures var b, r := Concat(p.done), p.data.staged[p.saved..];
      Balanced(b, t, r, p.got, p.lost, p.alien) ==> Balanced(b, t.Own(PadAt(p.data.fd), 0), r, p.got, p.lost, p.alien)
  {
    hide Concat;
  }

  lemma NameRecords(pc: PulsePc, s: State, e: Env)
    requires pc == s.ls.pc && (pc.LSlotBegin? || pc.LSlotEnd? || pc.LInc?) && Recording(s)
    ensures Records(s, PulseTurn(s, e).0, PulseTurn(s, e).1)
  {
    hide Homes, Concat, Balanced, Naming.BaseName;
  }

  lemma ClearRecords(s: State, e: Env)
    requires s.ls.pc.LSliceClear? && Recording(s)
    ensures Records(s, PulseTurn(s, e).0, PulseTurn(s, e).1)
  {
    var p := s.ls;
    assert p.data.staged[p.saved..] == [];
    hide Homes, Concat, Balanced;
  }

  lemma Opens(s: State, e: Env)
    requires s.ls.pc.LOpen? && Recording(s)
    ensures Records(s, PulseTurn(s, e).0, PulseTurn(s, e).1)
  {
    hide Concat, Naming.BaseName;
  }

  lemma PulseRecords(pc: PulsePc, s: State, e: Env)
    requires pc == s.ls.pc && Recording(s)
    ensures var t := PulseNext(s, e); RecordingIn(t.ls, t.os.ls)
  {
    PulseStores(s, e);
    if Quiet(pc) { QuietSame(pc, s, e); hide PulseStep; SameRecords(s.ls, PulseStep(s, e).0, s.os.ls); }
    else if pc.Commanded() { StartRecords(pc, s, e); }
    else {
      match pc
      case LStopSeek | LStopZero | LStopRemove => StopRecords(pc, s, e);
      case LStopClose => StopCloses(s, e);
      case LClose => CutCloses(s, e);
      case LDma => Delivers(s, e);
      case LFull => if |s.ls.data.staged| == IFD_WRITE_MN { Flushes(s, e); } else { FlushesNothing(s, e); }
      case LDrain => Drains(s, e);
      case LOpen => Opens(s, e);
      case LPad => PadRecords(s, e);
      case LSliceClear => ClearRecords(s, e);
      case _ => NameRecords(pc, s, e);
    }
    hide RecordingIn, PulseNext, PulseStart, PulseMove, PulseTurn;
  }

  // Another thread can spoil the file, but the books record it.
  lemma OthersRecord(s: State, t: State)
    requires Recording(s) && t.ls == s.ls
    requires t.os.ls == s.os.ls || exists c :: t.os.ls == s.os.ls.Foreign(c)
    ensures RecordingIn(t.ls, t.os.ls)
  {
    if t.os.ls != s.os.ls {
      var c :| t.os.ls == s.os.ls.Foreign(c);
      var p := s.ls;
      if p.began {
        ForeignBalanced(Concat(p.done), s.os.ls, p.data.staged[p.saved..], p.got, p.lost, p.alien, c);
      }
    }
    hide Balanced, Concat;
  }

  lemma RecordingStep(s: State, st: Step)
    requires Recording(s)
    ensures Recording(Next(s, st))
  {
    HomesStep(s, st);
    hide Homes, RecordingIn, MainNext, IndexNext, PulseNext, ControlNext, MainStep, IndexStep, ControlStep, TableAfter;
    match st
    case LsStep(e) => PulseRecords(s.ls.pc, s, e);
    case MnStep(e) =>
      MainStores(s, e);
      TracksAfter(s.os, Mn, MainStep(s, e).1);
      OthersRecord(s, MainNext(s, e));
    case SyStep(e) =>
      IndexStores(s, e);
      TracksAfter(s.os, Sy, IndexStep(s, e).1);
      OthersRecord(s, IndexNext(s, e));
    case CtStep(e) =>
      ControlStores(s, e);
      TracksAfter(s.os, Out, ControlStep(s, e).1);
      OthersRecord(s, ControlNext(s, e));
    case _ => OutsideTracks(s, st); OthersRecord(s, Next(s, st));
  }

  lemma {:induction false} RecordingRun(boot: Boot, steps: seq<Step>)
    ensures Recording(Exec(Init(boot), steps))
  {
    if steps != [] {
      var n := |steps| - 1;
      RecordingRun(boot, steps[..n]);
      RecordingStep(Exec(Init(boot), steps[..n]), steps[n]);
    }
  }

  // The files of the session in order, closed and open, and the bytes not passed to a write.
  function Written(p: PulseThread, t: Track): Bytes { Concat(p.done) + t.bytes }

  function Pending(p: PulseThread): Bytes
    requires p.saved <= |p.data.staged|
  {
    p.data.staged[p.saved..]
  }

  // On every run, from a START whose open succeeded on and until the next one, whatever the
  // cuts, the opens, the DMA and the other threads do: the books are kept, and as long as no
  // other thread wrote into the files, they and the staged bytes are exactly what was
  // delivered if and only if no write missed its file. It takes a failed open, a STOP, the
  // number 0 or a close by another thread to make one miss.
  lemma {:induction false} PulseConservation(boot: Boot, steps: seq<Step>)
    ensures var s := Exec(Init(boot), steps); var p, t := s.ls, s.os.ls;
      p.began ==>
        && p.saved <= |p.data.staged|
        && |Written(p, t)| + |Pending(p)| + p.lost + t.lost == |p.got| + p.alien + t.alien
        && (p.alien + t.alien == 0 ==> (Written(p, t) + Pending(p) == p.got <==> p.lost + t.lost == 0))
        && (p.intact && p.positive && !p.robbed && !t.robbed ==> p.lost + t.lost == 0)
        && (p.intact && (p.pc.LStopSeek? || p.pc.LHead?) ==> |Pending(p)| < IFD_WRITE_MN && |p.times| == |p.done| + 1)
  {
    RecordingRun(boot, steps);
    hide Exec;
    var s := Exec(Init(boot), steps);
    var p, t := s.ls, s.os.ls;
    if p.began && p.alien + t.alien == 0 {
      ExactlyWhenNothingLost(Concat(p.done), t, Pending(p), p.got, p.lost, p.alien);
    }
    hide Concat;
  }

  // Whether opens succeed or not: the flush test never misses and transfers stay in bounds.
  lemma {:induction false} PulseTransfersSafely(boot: Boot, steps: seq<Step>)
    ensures var p := Exec(Init(boot), steps).ls;
      && |p.data.staged| % DMA_TRANS_SIZE == 0
      && (!p.pc.LFull? ==> |p.data.staged| < IFD_WRITE_MN)
      && (p.pc.LDma? ==> |p.data.staged| + DMA_TRANS_SIZE <= IFD_WRITE_MN == CHECKED_PAGES * 0x1000 <= BUFFER_SIZE)
  {
    RecordingRun(boot, steps);
    hide Exec;
  }

  // A write of fresh bytes that misses the file.
  predicate Misses(p: PulseThread, t: Track) {
    && p.Fresh() > 0
    && ((p.pc.LFull? && |p.data.staged| == IFD_WRITE_MN && (p.data.fd <= 0 || !t.Holds(p.data.fd)))
        || (p.pc.LDrain? && !t.Holds(p.data.fd)))
  }

  // Step by step: bytes are lost exactly by a flush that finds the number not positive or not
  // its own any more, and by a last write before a close that finds it not its own.
  lemma {:induction false} PulseLosses(boot: Boot, steps: seq<Step>, e: Env)
    ensures var s := Exec(Init(boot), steps); var n := PulseNext(s, e);
      s.ls.began && n.ls.began ==>
        (n.ls.lost + n.os.ls.lost > s.ls.lost + s.os.ls.lost <==> Misses(s.ls, s.os.ls))
  {
    RecordingRun(boot, steps);
    hide Exec;
    var s := Exec(Init(boot), steps);
    Losses(s.ls.pc, s, e);
    hide PulseNext, Recording, Misses;
  }

  ghost predicate LosesIn(s: State, q: PulseThread, w: Write) {
    var p, t, u := s.ls, s.os.ls, TableAfter(s.os, Ls, w).ls;
    p.began && q.began ==> (q.lost + u.lost > p.lost + t.lost <==> Misses(p, t))
  }

  lemma StartLoses(pc: PulsePc, s: State, e: Env)
    requires pc == s.ls.pc && pc.Commanded() && Recording(s)
    ensures LosesIn(s, PulseStart(s, e).0, PulseStart(s, e).1)
  {
    hide Homes, Balanced, Concat, Naming.BaseName;
  }

  lemma MoveLoses(pc: PulsePc, s: State, e: Env)
    requires pc == s.ls.pc && pc.Moving() && Recording(s)
    ensures LosesIn(s, PulseMove(s, e).0, PulseMove(s, e).1)
  {
    hide Homes, Books, Sound, Emptied;
  }

  lemma TurnLoses(pc: PulsePc, s: State, e: Env)
    requires pc == s.ls.pc && !pc.Commanded() && !pc.Moving() && Recording(s)
    ensures LosesIn(s, PulseTurn(s, e).0, PulseTurn(s, e).1)
  {
    hide Homes, Books, Sound, Emptied, Naming.BaseName;
  }

  lemma Losses(pc: PulsePc, s: State, e: Env)
    requires pc == s.ls.pc && Recording(s)
    ensures LosesIn(s, PulseStep(s, e).0, PulseStep(s, e).1)
    ensures PulseNext(s, e).ls == PulseStep(s, e).0
    ensures PulseNext(s, e).os == TableAfter(s.os, Ls, PulseStep(s, e).1)
  {
    PulseStores(s, e);
    if pc.Commanded() { StartLoses(pc, s, e); }
    else if pc.Moving() { MoveLoses(pc, s, e); }
    else { TurnLoses(pc, s, e); }
    hide PulseNext, PulseStart, PulseMove, PulseTurn, LosesIn, TableAfter;
  }

  // Step by step: alien bytes come into the current file exactly by a write of another thread
  // on the number it is open under.
  lemma AlienWhen(s: State, who: Who, w: Write)
    requires !who.Ls?
    ensures var t, u := s.os.ls, TableAfter(s.os, who, w).ls;
      u.alien > t.alien <==> w.Sys? && w.call.PutAt? && t.Holds(w.call.n) && |w.call.b| + t.gap > 0
  {
  }

  // Writes of the main receiver, seen from the pulse file.
  lemma {:induction false} PulseAlien(boot: Boot, steps: seq<Step>, e: Env)
    ensures var s := Exec(Init(boot), steps); var n := MainNext(s, e); var m := s.mn;
      && n.ls == s.ls
      && (n.os.ls.alien > s.os.ls.alien <==>
            && s.os.ls.Holds(AsDescriptor(m.data.fd))
            && ((m.pc.MFull? && |m.data.staged| == IFD_WRITE_MN && !s.fl.sliceAlt0)
                || (m.pc.MDrain? && m.data.staged != [])))
  {
    hide Exec;
    var s := Exec(Init(boot), steps);
    hide MainNext;
    MainStores(s, e);
    MainPuts(s.mn.pc, s, e);
    hide MainStep, TableAfter, AsDescriptor;
    AlienWhen(s, Mn, MainStep(s, e).1);
  }

  // The system calls that carry bytes.
  lemma MainPuts(pc: MainPc, s: State, e: Env)
    requires pc == s.mn.pc
    ensures var w, m := MainStep(s, e).1, s.mn;
      if (pc.MFull? && |m.data.staged| == IFD_WRITE_MN && !s.fl.sliceAlt0) || (pc.MDrain? && m.data.staged != []) then
        w == Sys(PutAt(AsDescriptor(m.data.fd), m.data.staged), 0)
      else !(w.Sys? && w.call.PutAt?)
  {
    hide AsDescriptor;
  }

  // What STOP removes because it is empty is empty, unless another thread wrote into it.
  lemma {:induction false} RemovesEmptyFile(boot: Boot, steps: seq<Step>)
    ensures var s := Exec(Init(boot), steps); var p, t := s.ls, s.os.ls;
      p.pc.LStopRemove? && t.Holds(p.data.fd) ==> t.bytes == [] || t.alien > 0
  {
    RecordingRun(boot, steps);
    hide Exec;
  }
}
