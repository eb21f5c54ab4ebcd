// Runs that show the conditions of the main results to be needed. The commands in them are
// whole commands of a client, with all their register writes in program order.
module Witnesses {
  import opened Common
  import opened Descriptors
  import opened Channels
  import opened Protocol
  import opened Frames
  import opened Barrier
  import opened Runs
  import opened Continuations
  import Companions
  import Cuts
  import IndexPages
  import Ownership
  import WorkState

  // ---------- the first session ----------

  // An environment that offers the number n, with or without data.
  ghost predicate Offers(e: Env, n: int) { e.fd == n && e.flow && e.fifo && e.dma.Some? }

  function Without(e: Env): Env { e.(fifo := false) }

  lemma StartBegins(boot: Boot, s: State, n: int)
    requires s.ls.pc.LHead? || (s.ls.pc.LStop? && |s.ls.data.staged| != IFD_WRITE_MN)
    requires s.rg.starStore && !s.rg.lsStop && !s.fl.slice1 && !s.fl.stored1 && s.os.Free(n)
    requires s.ls.pc.LHead? ==> |s.ls.data.staged| != IFD_WRITE_MN
    ensures Starting(s, n)
  {
  }

  // A client starts recording, and the pulse receiver begins a session under the number n.
  lemma FirstStart(boot: Boot, e: Env) returns (s: State)
    requires Init(boot).os.Free(e.fd)
    ensures Reachable(boot, s) && InSession(s, e.fd) && Elsewhere(Init(boot), s) && s.se.clean
    ensures TakesOnly(Init(boot), s, e.fd) && s.ls.dir == e.dir && s.ls.times == [e.time]
  {
    Booted(boot);
    s := StartCommand(boot, Init(boot));
    hide Reachable;
    StartBegins(boot, s, e.fd);
    assert Cleanly(s);
    assert Elsewhere(Init(boot), s);
    s := RunsSession(boot, s, Without(e));
  }

  // Then the main receiver comes to the open of the companion.
  lemma FirstOpen(boot: Boot, e: Env) returns (s: State)
    requires Init(boot).os.Free(e.fd) && e.flow
    ensures Reachable(boot, s) && s.mn.pc.MOpen? && s.mn.data.staged == [] && s.nm.mnNum == 1 && s.nm.lsNum == 1
    ensures s.ls.pc.LStop? && Begun(s.ls, s.os.ls, e.fd) && Quiet(s) && s.se.clean && !s.nm.zeroMark
    ensures !s.fl.slice0 && !s.fl.stored0 && !s.rg.mnStop && s.sy == Init(boot).sy && s.ct == Init(boot).ct
    ensures TakesOnly(Init(boot), s, e.fd)
  {
    var t := FirstStart(boot, e);
    assert OnTheWay(t);
    hide Reachable, OnTheWay;
    Stay(boot, t);
    s := ReachesOpen(boot, t, t, e);
  }

  // ---------- a transfer without a file (src/store.c:390-404) ----------

  lemma OpenFails(s: State, e: Env)
    requires s.mn.pc.MOpen? && e.fd < 0
    ensures var t := MainNext(s, e); t.mn.pc.MAltClear? && !t.os.mn.made && t.os.mn.home == -1
  {
  }

  lemma AfterFailure(pc: MainPc, s: State, e: Env)
    requires pc == s.mn.pc && (pc.MAltClear? || pc.MMarkSet? || pc.MFifo? || pc.MAltAgain?) && e.fifo
    requires !pc.MAltClear? ==> !s.fl.sliceAlt0
    ensures var t := MainNext(s, e);
      && t.os == s.os && !t.fl.sliceAlt0
      && t.mn.pc == match pc case MAltClear => MMarkSet case MMarkSet => MFifo case MFifo => MAltAgain case _ => MDma
  {
  }

  // After a failed open the receiver takes data from the DMA all the same.
  lemma TransferWithoutFile(boot: Boot, e: Env)
    requires Offers(e, e.fd) && Init(boot).os.Free(e.fd)
    ensures exists s :: Reachable(boot, s) && s.mn.pc.MDma? && !s.os.mn.made && s.os.mn.home == -1
  {
    var s := FirstOpen(boot, e);
    hide Reachable, MainNext, Init;
    var f := e.(fd := -1);
    OpenFails(s, f);
    s := GoMain(boot, s, f);
    AfterFailure(s.mn.pc, s, f);
    s := GoMain(boot, s, f);
    AfterFailure(s.mn.pc, s, f);
    s := GoMain(boot, s, f);
    AfterFailure(s.mn.pc, s, f);
    s := GoMain(boot, s, f);
    AfterFailure(s.mn.pc, s, f);
    s := GoMain(boot, s, f);
  }

  // ---------- pulse bytes that miss their file (src/store.c:543-550) ----------

  lemma Missing(boot: Boot, s: State, e: Env) returns (t: State)
    requires Reachable(boot, s) && s.ls.pc.LFull? && |s.ls.data.staged| == IFD_WRITE_MN && s.ls.saved == 0
    requires s.ls.began && s.ls.intact && s.ls.lost + s.os.ls.lost == 0 == s.ls.alien + s.os.ls.alien
    requires s.ls.data.fd <= 0 || !s.os.ls.Holds(s.ls.data.fd)
    ensures Reachable(boot, t) && t.ls.began && t.ls.intact && t.ls.positive == s.ls.positive
    ensures t.ls.lost + t.os.ls.lost == IFD_WRITE_MN && t.ls.alien + t.os.ls.alien == 0
  {
    hide Reachable, PulseNext;
    Misses(s, e);
    t := GoPulse(boot, s, e);
  }

  lemma ZeroStarts(boot: Boot, e: Env) returns (s: State)
    requires 0 in boot.others && Offers(e, 0)
    ensures Reachable(boot, s) && Starting(s, 0)
  {
    Booted(boot);
    var r := StopCommand(boot, Init(boot));
    hide Reachable, Commanded;
    r := RunsHalt(boot, r, e);
    assert r.os.Free(0) && r.ls.pc.LHead?;
    s := StartCommand(boot, r);
    StartBegins(boot, s, 0);
  }

  lemma SessionFeeds(s: State, n: int)
    requires InSession(s, n)
    ensures Feeding(s) && s.ls.positive == (n > 0) && s.ls.data.fd == n && (n >= 0 ==> s.os.ls.Holds(n))
  {
  }

  // STOP before any START closes the number 0, the next START is given it, and then no flush
  // is ever written, although every open succeeded and nobody closed the file.
  lemma ZeroLoses(boot: Boot, e: Env)
    requires 0 in boot.others && Offers(e, 0)
    ensures exists s :: Reachable(boot, s) && s.ls.began && s.ls.intact && !s.ls.positive
                        && s.ls.lost + s.os.ls.lost == IFD_WRITE_MN && s.ls.alien + s.os.ls.alien == 0
  {
    hide Reachable, Init, Starting, InSession;
    var s := ZeroStarts(boot, e);
    s := RunsSession(boot, s, Without(e));
    SessionFeeds(s, 0);
    s := RunsFull(boot, s, e);
    s := Missing(boot, s, e);
  }

  // A main file under the number n, closed at a STOP.
  lemma StopsMain(boot: Boot, e: Env, n: int) returns (s: State)
    requires Offers(e, e.fd) && Init(boot).os.Free(e.fd) && Init(boot).os.Free(n) && n != e.fd
    ensures Reachable(boot, s) && s.mn.pc.MStored? && s.fl.stored0 && AsDescriptor(s.mn.data.fd) == n && s.os.Free(n)
    ensures s.ls.pc.LStop? && s.ls.data.staged == [] && !s.fl.slice1 && !s.fl.stored1 && !s.nm.zeroMark
  {
    s := FirstOpen(boot, e);
    hide Reachable, AsDescriptor, Init, Begun;
    assert s.ls.data.staged == [] by { assert Begun(s.ls, s.os.ls, e.fd); BegunEmpty(s.ls, s.os.ls, e.fd); }
    s := RunsOpen(boot, s, Without(e).(fd := n));
    s := StopCommand(boot, s);
    var t := RunsHalt(boot, s, e);
    assert t.os.Free(n);
    s := t;
  }

  lemma BegunEmpty(p: PulseThread, t: Track, n: int)
    requires Begun(p, t, n)
    ensures p.data.staged == []
  {
  }

  // The next START is given the number of the main file, and the pulse receiver has a full
  // buffer about to be written.
  lemma ReusesNumber(boot: Boot, e: Env, n: int) returns (s: State)
    requires Offers(e, e.fd) && Init(boot).os.Free(e.fd) && Init(boot).os.Free(n) && n > 0 && n != e.fd
    ensures Reachable(boot, s) && s.mn.pc.MStored? && s.fl.stored0 && AsDescriptor(s.mn.data.fd) == n
    ensures s.ls.pc.LFull? && |s.ls.data.staged| == IFD_WRITE_MN && s.ls.saved == 0 && !s.nm.zeroMark
    ensures s.ls.began && s.ls.intact && s.ls.lost + s.os.ls.lost == 0 == s.ls.alien + s.os.ls.alien
    ensures s.ls.positive && s.ls.data.fd == n && s.os.ls.Holds(n)
  {
    s := StopsMain(boot, e, n);
    hide Reachable, AsDescriptor, Init;
    s := StartCommand(boot, s);
    StartBegins(boot, s, n);
    s := RunsSession(boot, s, Without(e).(fd := n));
    SessionFeeds(s, n);
    var t := RunsFull(boot, s, e);
    s := t;
  }

  // The main receiver closes its number at a STOP, and the next START is given it. At the next
  // STOP the main receiver closes it again, before a write of the pulse receiver that is under
  // way: it loses what it writes, although every open succeeded with a positive number.
  lemma RobbedLoses(boot: Boot, e: Env, n: int)
    requires Offers(e, e.fd) && Init(boot).os.Free(e.fd) && Init(boot).os.Free(n) && n > 0 && n != e.fd
    ensures exists s :: Reachable(boot, s) && s.ls.began && s.ls.intact && s.ls.positive
                        && s.ls.lost + s.os.ls.lost == IFD_WRITE_MN && s.ls.alien + s.os.ls.alien == 0
  {
    hide Reachable, AsDescriptor, Init, Commanded;
    var s := ReusesNumber(boot, e, n);
    var t := StopCommand(boot, s);
    var u := RunsHalt(boot, t, e);
    u := Missing(boot, u, e);
  }

  // ---------- main bytes in a pulse file (src/store.c:297, 411) ----------

  lemma Trespasses(s: State, e: Env)
    requires s.mn.pc.MFull? && |s.mn.data.staged| == IFD_WRITE_MN && !s.fl.sliceAlt0
    requires s.os.ls.Holds(AsDescriptor(s.mn.data.fd)) && s.os.ls.gap == 0
    ensures var t := MainNext(s, e); t.ls == s.ls && t.os.ls.alien == s.os.ls.alien + IFD_WRITE_MN
  {
  }

  // A main file under the number 0, with a full buffer about to be written.
  lemma FillsMain(boot: Boot, e: Env) returns (s: State)
    requires Offers(e, e.fd) && Init(boot).os.Free(e.fd) && Init(boot).os.Free(0) && e.fd > 0
    ensures Reachable(boot, s) && s.mn.pc.MFull? && |s.mn.data.staged| == IFD_WRITE_MN && !s.fl.sliceAlt0
    ensures AsDescriptor(s.mn.data.fd) == 0 && s.sy.pc.IHead? && s.sy.fd == 0 && s.os.mn.home == 0
    ensures s.os.Distinct() && s.ls.pc.LStop? && s.ls.data.staged == [] && Quiet(s) && !s.nm.zeroMark
  {
    var r := FirstOpen(boot, e);
    hide Reachable, AsDescriptor;
    assert r.ls.data.staged == [] && r.sy.pc.IHead? && r.sy.fd == 0;
    hide Init, Begun;
    var t := RunsOpen(boot, r, Without(e).(fd := 0));
    s := RunsMainFull(boot, t, e);
    OneNumber(boot, s);
  }

  lemma OneNumber(boot: Boot, s: State)
    requires Reachable(boot, s)
    ensures s.os.Distinct()
  {
    var steps :| Exec(Init(boot), steps) == s;
    hide Exec, Init;
    Ownership.HomesRun(boot, steps);
  }

  // The index receiver closes 0 at a STOP, and START opens the pulse file under it.
  lemma ReusesZero(boot: Boot, e: Env) returns (s: State)
    requires Offers(e, e.fd) && Init(boot).os.Free(e.fd) && Init(boot).os.Free(0) && e.fd > 0
    ensures Reachable(boot, s) && s.mn.pc.MFull? && |s.mn.data.staged| == IFD_WRITE_MN && !s.fl.sliceAlt0
    ensures AsDescriptor(s.mn.data.fd) == 0 && Begun(s.ls, s.os.ls, 0) && s.os.ls.gap == 0
  {
    var r := FillsMain(boot, e);
    hide Reachable, AsDescriptor, Init;
    var t := StopCommand(boot, r);
    t := RunsIndexHalt(boot, t, e);
    assert t.os.Free(0) by { assert t.os == r.os.After(Sy, CloseAt(0), 0); FreedZero(r.os); }
    hide Table.After;
    t := StartCommand(boot, t);
    StartBegins(boot, t, 0);
    s := RunsSession(boot, t, Without(e).(fd := 0));
  }

  lemma FreedZero(os: Table)
    requires os.Distinct() && os.mn.home == 0
    ensures os.After(Sy, CloseAt(0), 0).Free(0)
  {
  }

  // In a process without standard input the main receiver is given the number 0. At a STOP the
  // index receiver, which never opened a file, closes 0; START opens the pulse file under it;
  // and a write of the main receiver that was under way goes into the pulse file.
  lemma Trespass(boot: Boot, e: Env)
    requires Offers(e, e.fd) && Init(boot).os.Free(e.fd) && Init(boot).os.Free(0) && e.fd > 0
    ensures exists s :: Reachable(boot, s) && s.ls.began && s.ls.intact && s.os.ls.alien == IFD_WRITE_MN
  {
    var s := ReusesZero(boot, e);
    hide Reachable, AsDescriptor, Init, MainNext;
    Trespasses(s, e);
    s := GoMain(boot, s, e);
  }

  // ---------- main files beyond the slices (src/ugpio.c:206-219, src/store.c:493-499) ----------

  // A STOP before any START: the threads end the generation and are armed again, and the main
  // receiver opens a file without a slice.
  lemma PhantomFile(boot: Boot, n: int)
    requires Init(boot).os.Free(n)
    ensures exists s :: Reachable(boot, s) && s.mn.pc.MOpen? && s.nm.mnNum > s.nm.lsNum
  {
    Booted(boot);
    var s := StopCommand(boot, Init(boot));
    assert Able(s) && s.nm.mnNum == s.nm.lsNum;
    hide Reachable, Able, Leads;
    s := OpensOneMore(boot, s);
  }

  // START, the first main file, a cut on channel 0 and a re-arming: the session is clean, the
  // receiver ready for its next file, and no issued slice is left.
  lemma Exhausts(boot: Boot, e: Env, m: int, n: int) returns (s: State)
    requires Offers(e, e.fd) && e.endSeen && e.fd != m && m != n && n != e.fd
    requires Init(boot).os.Free(e.fd) && Init(boot).os.Free(m) && Init(boot).os.Free(n)
    ensures Reachable(boot, s) && s.se.clean && Ready(s) && !s.Spare() && s.nm.mnNum == 1 == s.nm.lsNum
  {
    var r := FirstOpen(boot, e);
    assert Room(Init(boot));
    hide Reachable, Leads, AsDescriptor, Init, Begun;
    var t := RunsOpen(boot, r, Without(e).(fd := m));
    assert t.os.Free(n);
    Stay(boot, t);
    s := Rearms(boot, t, t, e.(fd := n));
    Exhausted(boot, t, s);
  }

  // A clean session does not let the receiver open another file before that.
  lemma Exhausted(boot: Boot, t: State, s: State)
    requires Reachable(boot, t) && Leads(t, s) && t.se.clean && t.nm.mnNum == 1 == t.nm.lsNum && t.ls.pc.LStop?
    requires (Opened(t, s) || Rearmed(t, s)) && !t.fl.slice0
    ensures s.se.clean && Ready(s) && !s.Spare() && s.nm.mnNum == 1 == s.nm.lsNum
  {
    hide Companions.Named, Armed, Cuts.Cut, IndexPages.Paged, Reachable, Leads;
    Invariants(boot, t);
    CleanNeverExceeds(t, s);
  }

  // When the disk is full then, the main receiver opens a file beyond all slices.
  lemma DiskFullOpensPhantom(boot: Boot, e: Env, m: int, n: int)
    requires Offers(e, e.fd) && e.endSeen && e.fd != m && m != n && n != e.fd
    requires Init(boot).os.Free(e.fd) && Init(boot).os.Free(m) && Init(boot).os.Free(n)
    ensures exists s, t :: Reachable(boot, s) && s.se.clean && Ready(s) && s.nm.mnNum == s.nm.lsNum
                           && Leads(Commanded(s, RECORDING, WorkState.Poll(0)), t) && t.nm.mnNum > t.nm.lsNum
  {
    var s := Exhausts(boot, e, m, n);
    hide Reachable, Leads;
    var f := DiskFull(boot, s);
    assert Able(f);
    hide Ready, Able;
    var t := OpensOneMore(boot, f);
  }

  // ---------- resets that break the law (src/store.c:493-495) ----------

  // A disk-full write between a START and the reset: FILE_MARK is 0 with no open under way.
  lemma ResetUnderForgedMark(boot: Boot, e: Env)
    requires Init(boot).os.Free(e.fd)
    ensures exists s, t, f :: Reachable(boot, s) && s.ls.pc.LMnReset? && !s.rg.fileMark && !s.mn.pc.Opening()
                              && Leads(PulseNext(s, f), t) && t.nm.mnNum > t.nm.lsNum
  {
    Booted(boot);
    var s := StartCommand(boot, Init(boot));
    hide Reachable;
    assert Starting(s, e.fd) by { StartBegins(boot, s, e.fd); }
    StartStep(s.ls.pc, s, Without(e));
    HeadStep(s, Without(e));
    hide Leads, PulseNext;
    var r := GoPulse(boot, s, Without(e));
    var d := DiskFull(boot, r);
    assert Starting(d, e.fd);
    var z := RunsToReset(boot, d, Without(e));
    var t := GoPulse(boot, z, e);
    assert Able(t) && t.nm.lsNum == 0 by { ResetsAtRest(boot, z, e); }
    hide Able;
    var u := OpensOneMore(boot, t);
  }

  lemma ResetsAtRest(boot: Boot, s: State, e: Env)
    requires Reachable(boot, s) && s.ls.pc.LMnReset? && !s.rg.fileMark && s.mn.pc.MWait?
    requires s.fl.sliceAlt0 && !s.fl.stored0 && !s.fl.slice0 && !s.rg.mnStop
    ensures var t := PulseNext(s, e);
      Able(t) && t.nm.mnNum == 0 == t.nm.lsNum && !t.rg.fileMark && !t.mn.pc.Opening()
  {
    hide PulseNext, Reachable, Armed, Cuts.Cut, IndexPages.Paged, Companions.Named;
    Invariants(boot, s);
    ResetStep(s, e);
    PulseTouches(s.ls.pc, s, e);
  }

  // The main receiver has read its number for the first main file, and is slow; STOP and START
  // of a client are quicker. After the reset the receiver still counts that file.
  lemma ResetWhileNumbering(boot: Boot, e: Env, n: int)
    requires Offers(e, e.fd) && Init(boot).os.Free(e.fd) && Init(boot).os.Free(n) && n != e.fd
    ensures exists s, t, f :: Reachable(boot, s) && s.ls.pc.LMnReset? && s.mn.pc.Numbering()
                              && Leads(PulseNext(s, f), t) && t.nm.mnNum > t.nm.lsNum
  {
    hide Reachable, Leads, Init, PulseNext, Starting, Begun;
    var r := FetchesFirst(boot, e, n, 5);
    var s := RunsToReset(boot, r, Without(e).(fd := n));
    var t := GoPulse(boot, s, e);
    assert t.mn.pc.Numbering() && t.nm.lsNum == 0 by { ResetsNumbers(boot, s, e); }
    Stay(boot, t);
    var u := CountsOne(boot, t, t, e);
  }

  // The main receiver is goal steps in front of its first open, and a second START is given the
  // number n.
  lemma FetchesFirst(boot: Boot, e: Env, n: int, goal: nat) returns (s: State)
    requires Offers(e, e.fd) && Init(boot).os.Free(e.fd) && Init(boot).os.Free(n) && n != e.fd && 0 < goal <= 5
    ensures Reachable(boot, s) && Distance(s.mn.pc) == goal && s.ls.pc.LStop? && Starting(s, n)
    ensures s.mn.pc.MLoad? ==> s.mn.live && s.mn.base == Full(Naming.BaseName(e.dir, e.time, 0))
  {
    var r := FirstStart(boot, e);
    assert OnTheWay(r);
    hide Reachable, Leads, OnTheWay, Naming.BaseName;
    Stay(boot, r);
    var t := ReachesPoint(boot, r, r, e, goal);
    if t.mn.pc.MLoad? { FetchedFirst(boot, t); }
    var u := StopCommand(boot, t);
    s := StartCommand(boot, u);
    StartBegins(boot, s, n);
  }

  lemma FetchedFirst(boot: Boot, s: State)
    requires Reachable(boot, s) && s.se.clean && s.mn.pc.MLoad? && s.nm.mnNum == 0 && s.nm.lsNum == 1 == |s.ls.times|
    ensures s.mn.live && s.mn.base == Full(Naming.BaseName(s.ls.dir, s.ls.times[0], 0))
  {
    hide Reachable, Armed, Cuts.Cut, IndexPages.Paged, Naming.BaseName;
    Invariants(boot, s);
  }

  lemma ResetsNumbers(boot: Boot, s: State, e: Env)
    requires Reachable(boot, s) && s.ls.pc.LMnReset? && s.mn.pc.Numbering()
    ensures var t := PulseNext(s, e); t.nm.lsNum == 0 && t.mn.pc.Numbering()
  {
    hide PulseNext, Reachable, Armed, Cuts.Cut, IndexPages.Paged, Companions.Named;
    Invariants(boot, s);
    ResetStep(s, e);
  }

  // ---------- a name of the session before (src/store.c:388-390) ----------

  lemma CountStored(s: State, e: Env)
    requires s.mn.pc.MLoad? || (s.mn.pc.MStore? && s.mn.reg == s.nm.mnNum)
    ensures var t := MainNext(s, e);
      && t.ls == s.ls && t.se == s.se && t.mn.live == s.mn.live && t.mn.base == s.mn.base
      && (if s.mn.pc.MLoad? then t.mn.pc.MStore? && t.mn.reg == t.nm.mnNum && t.nm == s.nm
          else t.mn.pc.MOpen? && t.nm == s.nm.(mnNum := s.nm.mnNum + 1))
  {
  }

  lemma RenumbersFirst(boot: Boot, e: Env, f: Env) returns (s: State)
    requires Offers(e, e.fd) && Init(boot).os.Free(e.fd) && Init(boot).os.Free(f.fd) && f.fd != e.fd
    ensures Reachable(boot, s) && s.se.named && s.mn.pc.MLoad? && s.mn.live
    ensures s.nm.mnNum == 0 && s.nm.lsNum == 1 && s.ls.dir == f.dir && s.ls.times == [f.time]
    ensures s.mn.base == Full(Naming.BaseName(e.dir, e.time, 0))
  {
    hide Reachable, Init, Naming.BaseName, Begun, Starting, TakesOnly, Cleanly, PulseFlags;
    var r := FetchesFirst(boot, e, f.fd, 2);
    assert Stamped(r, Without(f));
    s := RunsSession(boot, r, Without(f));
    hide Stamped;
  }

  // The main receiver has fetched the name of its first file, and is slow; STOP and START of a
  // client are quicker. It then counts and opens this file as the first one of the second
  // session, under the name that slice 0 had in the first.
  lemma OldName(boot: Boot, e: Env, f: Env)
    requires Offers(e, e.fd) && Init(boot).os.Free(e.fd) && Init(boot).os.Free(f.fd) && f.fd != e.fd
    ensures exists s :: Reachable(boot, s) && s.se.named && s.mn.pc.MOpen? && s.mn.live
                        && s.nm.mnNum == 1 == s.nm.lsNum && s.ls.dir == f.dir && s.ls.times == [f.time]
                        && s.mn.base == Full(Naming.BaseName(e.dir, e.time, 0))
  {
    var s := RenumbersFirst(boot, e, f);
    hide Reachable, Init, MainNext, Naming.BaseName;
    CountStored(s, e);
    s := GoMain(boot, s, e);
    CountStored(s, e);
    s := GoMain(boot, s, e);
  }
}
