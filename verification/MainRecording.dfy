// What the main stream records: every chunk the DMA delivers on channel 0 belongs to one
// armed period, and what becomes of it there (src/store.c:354-445, resting on the order of
// writes at 224-225).
module MainRecording {
  import opened Common
  import opened Descriptors
  import opened Channels
  import opened Protocol
  import opened Barrier
  import opened Frames
  import opened Ownership

  // The books of a finished period. Only a STOP leaves bytes unwritten, less than one
  // threshold; bytes are lost only if the open failed or another thread closed the number.
  ghost predicate Recorded(f: MainFile) {
    && Balanced([], f.track, f.left, f.got, 0, 0)
    && |f.left| < IFD_WRITE_MN
    && (f.byCut ==> f.left == [])
    && (f.track.made && !f.track.robbed ==> f.track.lost == 0)
    && (!f.track.made ==> f.track.bytes == [])
  }

  function Gots(files: seq<MainFile>): seq<Bytes> {
    seq(|files|, i requires 0 <= i < |files| => files[i].got)
  }

  lemma GotsSnoc(files: seq<MainFile>, f: MainFile)
    ensures Concat(Gots(files + [f])) == Concat(Gots(files)) + f.got
  {
    assert Gots(files + [f]) == Gots(files) + [f.got];
    ConcatSnoc(Gots(files), f.got);
  }

  // When the receiver is between an open and its close.
  ghost predicate BusyWhen(f: Flags, m: MainThread) {
    && (!f.stored0 && !f.sliceAlt0 ==> m.busy || m.pc.Shut())
    && (m.busy ==> m.pc.Unwinding() || (!f.stored0 && (!f.sliceAlt0 || m.pc.MAltClear?)))
    && (m.busy ==> !m.pc.Shut())
    && (m.pc.MDma? || m.pc.MAltClear? ==> m.busy)
  }

  // What is staged, and the counters.
  ghost predicate Kept(m: MainThread) {
    var d := m.data;
    && |d.staged| % DMA_TRANS_SIZE == 0
    && |d.staged| <= IFD_WRITE_MN
    && (|d.staged| == IFD_WRITE_MN ==> m.pc.MFull?)
    && ((m.busy && !m.pc.Stopping()) || (d.staged == [] && d.writeDisk == 0))
    && (m.pc.MClose? || d.Accounted())
    && (m.busy && m.pc.Stopping() ==> |m.left| < IFD_WRITE_MN)
    && (m.busy && !m.pc.Stopping() ==>
          && m.left == []
          && |Pending(m)| <= |m.got|
          && d.writeDisk == (|m.got| - |Pending(m)|) % TWO64)
  }

  // Bytes of this period that were not passed to a write; at MClose the staged ones were.
  function Pending(m: MainThread): Bytes {
    if m.pc.MClose? then [] else m.left + m.data.staged
  }

  ghost predicate Books(m: MainThread, t: Track) {
    if m.busy then
      && Balanced([], t, Pending(m), m.got, 0, 0)
      && (t.made && !t.robbed ==> t.lost == 0)
      && (!t.made ==> t.bytes == [])
    else t == CLOSED
  }

  ghost predicate Files(m: MainThread) {
    && (forall f <- m.done :: Recorded(f))
    && m.all == Concat(Gots(m.done)) + (if m.busy then m.got else [])
  }

  ghost predicate RecordingIn(f: Flags, m: MainThread, t: Track) {
    BusyWhen(f, m) && Kept(m) && Books(m, t) && Files(m)
  }

  ghost predicate Recording(s: State) {
    Armed(s) && Homes(s) && RecordingIn(s.fl, s.mn, s.os.mn)
  }

  lemma ClosedFiles(m: MainThread, t: Track, byCut: bool)
    requires Files(m) && (m.busy ==> Recorded(MainFile(m.num, m.base, m.got, m.left, t, m.gone, m.look, byCut)))
    ensures Files(m.Closed(t, byCut))
  {
    GotsSnoc(m.done, MainFile(m.num, m.base, m.got, m.left, t, m.gone, m.look, byCut));
  }

  lemma ForeignBooks(m: MainThread, t: Track, c: Call, fd: int)
    requires Books(m, t) && t.Kept(fd)
    ensures Books(m, t.Foreign(c))
  {
    if m.busy { ForeignBalanced([], t, Pending(m), m.got, 0, 0, c); }
  }

  lemma MainIdleBusyWhen(pc: MainPc, s: State, e: Env)
    requires pc == s.mn.pc && !pc.Active() && Recording(s)
    ensures BusyWhen(FlagsAfter(s.fl, MainIdle(s, e).1), MainIdle(s, e).0)
  {
    hide Generations, Kept, Books, Files, Homes;
  }

  // A STOP closes the file with what it has.
  lemma StopCloses(s: State, e: Env)
    requires s.mn.pc.MStopClose? && Recording(s)
    ensures var (m, w) := MainIdle(s, e); Kept(m) && Files(m) && Books(m, TableAfter(s.os, Mn, w).mn)
  {
    hide Armed, Homes, Concat, Gots, Balanced;
    assert s.mn.busy ==> Pending(s.mn) == s.mn.left + [] == s.mn.left;
    ClosedFiles(s.mn, s.os.mn, false);
  }

  lemma StopDiscards(s: State, e: Env)
    requires s.mn.pc.MStopSlice? && Recording(s)
    ensures var (m, w) := MainIdle(s, e); Kept(m) && Files(m) && Books(m, TableAfter(s.os, Mn, w).mn)
  {
    hide Armed, Homes, Concat, Gots, Balanced, Recorded;
    var m := s.mn;
    assert m.busy ==> m.left + m.data.staged == m.data.staged == m.data.staged + [];
  }

  // Nothing is delivered, written, opened or closed.
  ghost predicate Same(m: MainThread, n: MainThread) {
    && n.data == m.data.(calls := n.data.calls) && n.busy == m.busy && n.got == m.got && n.left == m.left
    && n.all == m.all && n.done == m.done
    && !m.pc.MClose? && !n.pc.MClose? && !m.pc.MFull? && n.pc.Stopping() == m.pc.Stopping()
  }

  ghost predicate Quiet(pc: MainPc) {
    match pc
    case MStopSlice | MStopClose | MOpen | MDma | MFull | MDrain | MClose => false
    case _ => true
  }

  lemma SameRecords(m: MainThread, n: MainThread, t: Track)
    requires Same(m, n) && Kept(m) && Books(m, t) && Files(m)
    ensures Kept(n) && Books(n, t) && Files(n)
  {
    hide Balanced, Recorded, Concat, Gots;
  }

  lemma QuietSame(pc: MainPc, s: State, e: Env)
    requires pc == s.mn.pc && Quiet(pc)
    ensures Same(s.mn, MainStep(s, e).0) && !MainStep(s, e).1.Touches()
  {
    if !pc.Active() { IdleSame(pc, s, e); } else if pc.Naming() { NameSame(pc, s, e); } else { MoveSame(pc, s, e); }
    hide MainIdle, MainName, MainMove, Same;
  }

  lemma IdleSame(pc: MainPc, s: State, e: Env)
    requires pc == s.mn.pc && Quiet(pc) && !pc.Active()
    ensures Same(s.mn, MainIdle(s, e).0) && !MainIdle(s, e).1.Touches()
  {
  }

  lemma NameSame(pc: MainPc, s: State, e: Env)
    requires pc == s.mn.pc && Quiet(pc) && pc.Naming()
    ensures Same(s.mn, MainName(s, e).0) && !MainName(s, e).1.Touches()
  {
  }

  lemma MoveSame(pc: MainPc, s: State, e: Env)
    requires pc == s.mn.pc && Quiet(pc) && pc.Active() && !pc.Naming()
    ensures Same(s.mn, MainMove(s, e).0) && !MainMove(s, e).1.Touches()
  {
  }

  lemma OpenRecords(s: State, e: Env)
    requires s.mn.pc.MOpen? && Recording(s)
    ensures var (m, w) := MainName(s, e); Kept(m) && Files(m) && Books(m, TableAfter(s.os, Mn, w).mn)
  {
    hide Concat, Gots, Recorded;
    NotBusy(s);
    hide Armed, Homes, BusyWhen;
  }

  lemma NotBusy(s: State)
    requires s.mn.pc.MOpen? && Recording(s)
    ensures !s.mn.busy
  {
    hide Homes, Kept, Books, Files, Generations;
  }

  lemma MainNameBusyWhen(pc: MainPc, s: State, e: Env)
    requires pc == s.mn.pc && pc.Naming() && Recording(s)
    ensures BusyWhen(FlagsAfter(s.fl, MainName(s, e).1), MainName(s, e).0)
  {
    hide Generations, Homes, Kept, Books, Files;
  }

  lemma MainMoveBusyWhen(pc: MainPc, s: State, e: Env)
    requires pc == s.mn.pc && pc.Active() && !pc.Naming() && Recording(s)
    ensures BusyWhen(FlagsAfter(s.fl, MainMove(s, e).1), MainMove(s, e).0)
  {
    hide Generations, Opens, Kept, Books, Files, Homes;
  }

  // Delivering, flushing and draining move bytes along.
  lemma DeliveredRecords(m: MainThread, t: Track, dma: Option<Chunk>)
    requires m.pc.MDma? && m.busy && Kept(m) && Books(m, t) && Files(m)
    ensures var b := if dma.Some? then dma.value else [];
      var n := m.(pc := MFull, data := m.data.Delivered(dma), got := m.got + b, all := m.all + b);
      Kept(n) && Books(n, t) && Files(n)
  {
    hide Concat, Gots, Balanced, Recorded;
    var b := if dma.Some? then dma.value else [];
    m.data.DeliveredAccounts(dma);
    DeliveredBalanced([], t, Pending(m), m.got, 0, 0, b);
    assert m.left + m.data.staged + b == m.left + (m.data.staged + b);
    assert m.got + [] == m.got && m.data.staged + [] == m.data.staged;
    assert m.all + b == Concat(Gots(m.done)) + (m.got + b);
  }

  lemma Delivers(s: State, e: Env)
    requires s.mn.pc.MDma? && Recording(s)
    ensures var (m, w) := MainMove(s, e); Kept(m) && Files(m) && Books(m, TableAfter(s.os, Mn, w).mn)
  {
    DeliveredRecords(s.mn, s.os.mn, e.dma);
    hide Armed, Homes, Kept, Files, Books;
  }

  // A write of everything that is staged, on the number the thread uses.
  lemma Puts(m: MainThread, t: Track)
    requires Books(m, t) && m.busy && m.left == [] && !m.pc.MClose? && t.Kept(AsDescriptor(m.data.fd))
    ensures var u := t.Own(PutAt(AsDescriptor(m.data.fd), m.data.staged), 0);
      && Balanced([], u, [], m.got, 0, 0)
      && (u.made && !u.robbed ==> u.lost == 0)
      && (!u.made ==> u.bytes == [])
  {
    var b := m.data.staged;
    assert b[0..] == b && [] + b == b;
    PutBalanced([], t, b, 0, m.got, 0, 0, AsDescriptor(m.data.fd));
    hide Balanced, AsDescriptor;
  }

  // The bytes written are added to the 64-bit counter.
  lemma Counts(got: nat, n: nat)
    requires n <= got
    ensures (((got - n) % TWO64) + n) % TWO64 == got % TWO64
  {
  }

  lemma FlushedRecords(m: MainThread, u: Track)
    requires m.pc.MFull? && |m.data.staged| == IFD_WRITE_MN && Kept(m) && Files(m) && m.busy
    requires Balanced([], u, [], m.got, 0, 0) && (u.made && !u.robbed ==> u.lost == 0) && (!u.made ==> u.bytes == [])
    ensures var n := m.(pc := MCut, data := m.data.Flushed(true)); Kept(n) && Files(n) && Books(n, u)
  {
    hide Balanced, Recorded, Concat, Gots;
    m.data.FlushedAccounts(true);
    assert m.left + m.data.staged == m.data.staged && m.left + [] == m.left;
    Counts(|m.got|, |m.data.staged|);
  }

  lemma FullBusy(s: State)
    requires s.mn.pc.MFull? && |s.mn.data.staged| == IFD_WRITE_MN && Recording(s)
    ensures s.mn.busy && !s.fl.sliceAlt0 && s.mn.left == [] && s.os.mn.Kept(AsDescriptor(s.mn.data.fd))
    ensures Books(s.mn, s.os.mn) && Kept(s.mn) && Files(s.mn)
  {
    hide Books, Files, Generations, Opens;
  }

  lemma Flushes(s: State, e: Env)
    requires s.mn.pc.MFull? && Recording(s) && |s.mn.data.staged| == IFD_WRITE_MN
    ensures var (m, w) := MainMove(s, e); Kept(m) && Files(m) && Books(m, TableAfter(s.os, Mn, w).mn)
  {
    hide Recording, Kept, Files, Books, Balanced, Track.Own, Track.Kept, AsDescriptor, MainData.Flushed;
    var m := s.mn;
    FullBusy(s);
    Puts(m, s.os.mn);
    var put := PutAt(AsDescriptor(m.data.fd), m.data.staged);
    FlushedRecords(m, s.os.mn.Own(put, 0));
    assert MainMove(s, e) == (m.(pc := MCut, data := m.data.Flushed(true)), Sys(put, 0));
  }

  lemma FlushesNothing(s: State, e: Env)
    requires s.mn.pc.MFull? && Recording(s) && |s.mn.data.staged| != IFD_WRITE_MN
    ensures var (m, w) := MainMove(s, e); Kept(m) && Files(m) && Books(m, TableAfter(s.os, Mn, w).mn)
  {
    hide Armed, Homes, Balanced, Recorded, Concat, Gots;
  }

  lemma DrainedRecords(m: MainThread, u: Track)
    requires m.pc.MDrain? && m.data.staged != [] && Kept(m) && Files(m)
    requires Balanced([], u, [], m.got, 0, 0) && (u.made && !u.robbed ==> u.lost == 0) && (!u.made ==> u.bytes == [])
    ensures var n := m.(pc := MClose, data := m.data.Drained()); Kept(n) && Files(n) && Books(n, u)
  {
    hide Balanced, Recorded, Concat, Gots;
    assert m.left + m.data.staged == m.data.staged;
    Counts(|m.got|, |m.data.staged|);
  }

  lemma DrainReady(s: State)
    requires s.mn.pc.MDrain? && Recording(s)
    ensures s.mn.data.staged != [] ==> s.mn.busy && s.mn.left == []
    ensures s.os.mn.Kept(AsDescriptor(s.mn.data.fd)) && Books(s.mn, s.os.mn) && Kept(s.mn) && Files(s.mn)
  {
    hide Books, Files, Armed;
  }

  lemma Drains(s: State, e: Env)
    requires s.mn.pc.MDrain? && Recording(s) && s.mn.data.staged != []
    ensures var (m, w) := MainMove(s, e); Kept(m) && Files(m) && Books(m, TableAfter(s.os, Mn, w).mn)
  {
    hide Recording, Kept, Files, Books, Balanced, Track.Own, Track.Kept, AsDescriptor, MainData.Drained;
    var m := s.mn;
    DrainReady(s);
    Puts(m, s.os.mn);
    var put := PutAt(AsDescriptor(m.data.fd), m.data.staged);
    DrainedRecords(m, s.os.mn.Own(put, 0));
    assert MainMove(s, e) == (m.(pc := MClose, data := m.data.Drained()), Sys(put, 0));
  }

  lemma DrainsNothing(s: State, e: Env)
    requires s.mn.pc.MDrain? && Recording(s) && s.mn.data.staged == []
    ensures var (m, w) := MainMove(s, e); Kept(m) && Files(m) && Books(m, TableAfter(s.os, Mn, w).mn)
  {
    hide Armed, Homes, Balanced, Recorded, Concat, Gots;
    var m := s.mn;
    assert m.busy ==> m.left + m.data.staged == [];
  }

  lemma Closes(s: State, e: Env)
    requires s.mn.pc.MClose? && Recording(s)
    ensures var (m, w) := MainMove(s, e); Kept(m) && Files(m) && Books(m, TableAfter(s.os, Mn, w).mn)
  {
    hide Armed, Homes, Concat, Gots, Balanced;
    ClosedFiles(s.mn, s.os.mn, true);
  }

  lemma MainBusyWhen(pc: MainPc, s: State, e: Env)
    requires pc == s.mn.pc && Recording(s)
    ensures BusyWhen(FlagsAfter(s.fl, MainStep(s, e).1), MainStep(s, e).0)
  {
    if !pc.Active() { MainIdleBusyWhen(pc, s, e); }
    else if pc.Naming() { MainNameBusyWhen(pc, s, e); }
    else { MainMoveBusyWhen(pc, s, e); }
    hide BusyWhen, MainIdle, MainName, MainMove, FlagsAfter;
  }

  lemma MainBooks(pc: MainPc, s: State, e: Env)
    requires pc == s.mn.pc && Recording(s)
    ensures var (m, w) := MainStep(s, e); Kept(m) && Files(m) && Books(m, TableAfter(s.os, Mn, w).mn)
  {
    hide Kept, Files, Books, MainIdle, MainName, MainMove, Armed, Homes, BusyWhen;
    match pc
    case MStopSlice => StopDiscards(s, e);
    case MStopClose => StopCloses(s, e);
    case MOpen => OpenRecords(s, e);
    case MDma => Delivers(s, e);
    case MFull => if |s.mn.data.staged| == IFD_WRITE_MN { Flushes(s, e); } else { FlushesNothing(s, e); }
    case MDrain => if s.mn.data.staged != [] { Drains(s, e); } else { DrainsNothing(s, e); }
    case MClose => Closes(s, e);
    case _ => QuietBooks(pc, s, e);
  }

  lemma QuietBooks(pc: MainPc, s: State, e: Env)
    requires pc == s.mn.pc && Quiet(pc) && Recording(s)
    ensures var (m, w) := MainStep(s, e); Kept(m) && Files(m) && Books(m, TableAfter(s.os, Mn, w).mn)
  {
    hide MainStep, Kept, Files, Books, Armed, Homes, BusyWhen, Same;
    QuietSame(pc, s, e);
    SameRecords(s.mn, MainStep(s, e).0, s.os.mn);
  }

  lemma MainRecords(pc: MainPc, s: State, e: Env)
    requires pc == s.mn.pc && Recording(s)
    ensures var t := MainNext(s, e); RecordingIn(t.fl, t.mn, t.os.mn)
  {
    MainStores(s, e);
    MainBusyWhen(pc, s, e);
    MainBooks(pc, s, e);
    hide BusyWhen, Kept, Books, Files, MainNext, MainStep, FlagsAfter, TableAfter;
  }

  // Another thread can spoil the file, but the books record it.
  lemma OthersRecord(s: State, t: State)
    requires Recording(s) && t.mn == s.mn
    requires t.os.mn == s.os.mn || exists c :: t.os.mn == s.os.mn.Foreign(c)
    requires t.fl.stored0 == s.fl.stored0 && t.fl.sliceAlt0 == s.fl.sliceAlt0
    ensures RecordingIn(t.fl, t.mn, t.os.mn)
  {
    if t.os.mn != s.os.mn {
      var c :| t.os.mn == s.os.mn.Foreign(c);
      ForeignBooks(s.mn, s.os.mn, c, AsDescriptor(s.mn.data.fd));
    }
    hide Books, Kept, Files, Armed, AsDescriptor;
  }

  lemma ControlRecords(pc: ControlPc, s: State, e: Env)
    requires pc == s.ct.pc && Recording(s)
    ensures var t := ControlNext(s, e); RecordingIn(t.fl, t.mn, t.os.mn)
  {
    ControlWrites(pc, s, e);
    ControlStores(s, e);
    ControlBusyWhen(pc, s, e);
    hide Armed, BusyWhen, Kept, Books, Files, ControlNext, ControlStep, FlagsAfter;
  }

  lemma ControlBusyWhen(pc: ControlPc, s: State, e: Env)
    requires pc == s.ct.pc && Armed(s) && BusyWhen(s.fl, s.mn)
    ensures BusyWhen(FlagsAfter(s.fl, ControlStep(s, e).1), s.mn)
  {
    hide Generations;
  }

  lemma RecordingStep(s: State, st: Step)
    requires Recording(s)
    ensures Recording(Next(s, st))
  {
    ArmedStep(s, st);
    HomesStep(s, st);
    hide Armed, Homes, RecordingIn, MainNext, IndexNext, PulseNext, ControlNext, IndexStep, PulseStep, TableAfter;
    match st
    case MnStep(e) => MainRecords(s.mn.pc, s, e);
    case SyStep(e) =>
      IndexTouches(s.sy.pc, s, e);
      IndexStores(s, e);
      TracksAfter(s.os, Sy, IndexStep(s, e).1);
      OthersRecord(s, IndexNext(s, e));
    case LsStep(e) =>
      PulseTouches(s.ls.pc, s, e);
      PulseStores(s, e);
      TracksAfter(s.os, Ls, PulseStep(s, e).1);
      OthersRecord(s, PulseNext(s, e));
    case CtStep(e) => ControlRecords(s.ct.pc, s, e);
    case _ => OutsideTracks(s, st); OthersRecord(s, Next(s, st));
  }

  lemma {:induction false} RecordingRun(boot: Boot, steps: seq<Step>)
    ensures Recording(Exec(Init(boot), steps))
  {
    if steps != [] {
      var n := |steps| - 1;
      RecordingRun(boot, steps[..n]);
      RecordingStep(Exec(Init(boot), steps[..n]), steps[n]);
    }
  }

  // On every run: all bytes ever delivered on channel 0, in order, are the bytes of the
  // finished periods followed by those of the current one, and each period has its books.
  // When its open succeeded, nobody closed its number and nobody wrote there, a period ended
  // by a cut has left exactly its bytes in its file, and one ended by a STOP all but fewer
  // than 0x60000 at the end.
  lemma {:induction false} MainConservation(boot: Boot, steps: seq<Step>)
    ensures var s := Exec(Init(boot), steps); var m, t := s.mn, s.os.mn;
      && m.all == Concat(Gots(m.done)) + (if m.busy then m.got else [])
      && (m.busy ==> Balanced([], t, Pending(m), m.got, 0, 0))
      && (forall f <- m.done :: Recorded(f))
      && (forall f <- m.done :: f.track.made && !f.track.robbed && f.track.alien == 0 ==>
            && f.track.bytes + f.left == f.got
            && |f.left| < IFD_WRITE_MN
            && (f.byCut ==> f.track.bytes == f.got))
  {
    RecordingRun(boot, steps);
    hide Exec;
    var m := Exec(Init(boot), steps).mn;
    forall f | f in m.done && f.track.made && !f.track.robbed && f.track.alien == 0
      ensures f.track.bytes + f.left == f.got && (f.byCut ==> f.track.bytes == f.got)
    {
      assert Recorded(f);
      assert [] + f.track.bytes + f.left == f.track.bytes + f.left;
      assert f.byCut ==> f.track.bytes + [] == f.track.bytes;
    }
  }

  // The condition is exact: in a period that nobody else wrote into, bytes are missing exactly
  // when some write did not reach the file, which takes a failed open or a close by another
  // thread; a failed open keeps all of them from reaching any file.
  lemma {:induction false} MainLosses(boot: Boot, steps: seq<Step>)
    ensures forall f <- Exec(Init(boot), steps).mn.done ::
      && (f.track.alien == 0 ==> (f.track.bytes + f.left == f.got <==> f.track.lost == 0))
      && (f.track.lost > 0 ==> !f.track.made || f.track.robbed)
      && (!f.track.made ==> f.track.bytes == [] && f.track.lost + |f.left| == |f.got| + f.track.alien)
  {
    RecordingRun(boot, steps);
    hide Exec;
    var m := Exec(Init(boot), steps).mn;
    forall f | f in m.done
      ensures f.track.alien == 0 ==> (f.track.bytes + f.left == f.got <==> f.track.lost == 0)
    {
      assert Recorded(f);
      assert [] + f.track.bytes + f.left == f.track.bytes + f.left;
      if f.track.alien == 0 { ExactlyWhenNothingLost([], f.track, f.left, f.got, 0, 0); }
    }
  }

  // A write of staged bytes on a number that the thread does not hold.
  predicate Misses(s: State) {
    var m, t := s.mn, s.os.mn;
    && !t.Holds(AsDescriptor(m.data.fd))
    && ((m.pc.MFull? && |m.data.staged| == IFD_WRITE_MN) || (m.pc.MDrain? && m.data.staged != []))
  }

  // Step by step: bytes of the current period are lost exactly by such a write.
  lemma {:induction false} MainLosesWhen(boot: Boot, steps: seq<Step>, e: Env)
    ensures var s := Exec(Init(boot), steps); var n := MainNext(s, e);
      s.mn.busy && n.mn.busy && !s.mn.pc.MOpen? ==> (n.os.mn.lost > s.os.mn.lost <==> Misses(s))
  {
    RecordingRun(boot, steps);
    hide Exec;
    var s := Exec(Init(boot), steps);
    hide MainNext, Recording, Misses;
    MainLoses(s.mn.pc, s, e);
    MainStores(s, e);
  }

  ghost predicate LosesIn(s: State, m: MainThread, w: Write) {
    s.mn.busy && m.busy && !s.mn.pc.MOpen? ==> (TableAfter(s.os, Mn, w).mn.lost > s.os.mn.lost <==> Misses(s))
  }

  lemma MainLoses(pc: MainPc, s: State, e: Env)
    requires pc == s.mn.pc && Recording(s)
    ensures LosesIn(s, MainStep(s, e).0, MainStep(s, e).1)
  {
    if Quiet(pc) { QuietLoses(pc, s, e); hide MainStep, LosesIn; }
    else if pc.MFull? && |s.mn.data.staged| == IFD_WRITE_MN { FullBusy(s); }
    hide Armed, Homes, Books, Files;
  }

  lemma QuietLoses(pc: MainPc, s: State, e: Env)
    requires pc == s.mn.pc && Quiet(pc)
    ensures LosesIn(s, MainStep(s, e).0, MainStep(s, e).1)
  {
    hide MainStep, Same;
    QuietSame(pc, s, e);
  }

  // A transfer is started only in an armed period, on a chunk boundary, and lands inside the
  // staging buffer and the pages checked to be present. It has a file to go to unless the
  // last open failed or another thread closed the number.
  lemma {:induction false} MainTransfersSafely(boot: Boot, steps: seq<Step>)
    ensures var s := Exec(Init(boot), steps); var m, t := s.mn, s.os.mn;
      m.pc.MDma? ==>
        && m.busy
        && |m.data.staged| % DMA_TRANS_SIZE == 0
        && |m.data.staged| + DMA_TRANS_SIZE <= IFD_WRITE_MN == CHECKED_PAGES * 0x1000 <= BUFFER_SIZE
        && (t.Holds(AsDescriptor(m.data.fd)) <==> t.made && !t.robbed)
  {
    RecordingRun(boot, steps);
    hide Exec;
  }

  // The equality test of the flush never misses, the two byte counters agree, and after the
  // last write before a cut write_disk_bytes is the length of the file, if nothing was lost.
  lemma {:induction false} MainAccounting(boot: Boot, steps: seq<Step>)
    ensures var s := Exec(Init(boot), steps); var m, t := s.mn, s.os.mn;
      && (m.pc.MHead? ==> |m.data.staged| % DMA_TRANS_SIZE == 0 && |m.data.staged| < IFD_WRITE_MN)
      && (!m.pc.MClose? ==> m.data.fileRead == (m.data.writeDisk + |m.data.staged|) % TWO32)
      && (m.pc.MClose? && m.busy ==> m.data.writeDisk == |m.got| % TWO64 && |t.bytes| + t.lost == |m.got| + t.alien)
  {
    RecordingRun(boot, steps);
    hide Exec;
  }
}
