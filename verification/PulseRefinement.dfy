// What the pulse receiver of the protocol does in any interleaving is a run of the array code.
module PulseRefinement {
  import opened Common
  import opened Channels
  import opened Dma
  import opened Protocol
  import opened Frames
  import opened PulseReceiver
  import Naming

  function Since(got: Bytes, r: Reads): Bytes { if r.star then [] else got }

  // The thread is in the middle of an iteration that started from d when got had been
  // delivered since START; r agrees with what it has read so far.
  ghost predicate At(d: PulseData, got: Bytes, r: Reads, p: PulseThread) {
    var underway := (r.star ==> r.startFd >= 0) && p.got == Since(got, r);
    var taken := !r.stored && (r.star ==> r.startFd >= 0) && p.got == Heard(got, r);
    match p.pc
    case LHead => p.data == d && p.got == got
    case LReset => r.star && p.data == d
    case LNumReset | LFirstBegin | LFirstEnd | LFirstOpen => r.star && p.data == d.Restarted()
    case LSyReset | LMnReset | LFirstInc | LStarClear | LFirstMark => r.star && underway && p.data == Begun(d, r)
    case LStop => underway && p.data == Begun(d, r)
    case LStopSeek => underway && r.stop && p.data == Begun(d, r)
    case LStopZero | LStopRemove => underway && r.stop && r.empty && p.data == Begun(d, r).Sought()
    case LStopAck | LStopClose => underway && r.stop && p.data.Closed() == Settled(d, r)
    case LStored => underway && p.data == Settled(d, r)
    case LFifo => !r.stored && underway && p.data == Settled(d, r)
    case LDma => !r.stored && underway && r.fifo && p.data == Settled(d, r)
    case LFull => taken && p.data == Received(d, r)
    case LCut => taken && p.data == Saved(d, r)
    case LDrain => taken && r.cut && p.data == Saved(d, r)
    case LPad => taken && r.cut && p.data == Saved(d, r).Drained()
    case LClose => taken && r.cut && p.data == Saved(d, r).Drained().Padded()
    case LSlotBegin | LSlotEnd | LInc | LOpen => taken && r.cut && p.data == Saved(d, r).Drained().Padded().Closed()
    case LMark | LSliceClear =>
      taken && r.cut && r.cutFd >= 0 && p.data == Saved(d, r).Drained().Padded().Closed().Opened(r.cutFd)
    case LStoredSet => taken && r.cut && r.cutFd >= 0 && p.data == Turned(Saved(d, r), r.cutFd)
  }

  // ... or it has just finished that iteration.
  ghost predicate Proceeded(d: PulseData, got: Bytes, r: Reads, p: PulseThread) {
    At(d, got, r, p) || (p.pc.LHead? && p.data == Iterated(d, r) && p.got == Heard(got, r))
  }

  lemma StartProceeds(pc: PulsePc, s: State, e: Env, d: PulseData, got: Bytes, r: Reads) returns (q: Reads)
    requires pc == s.ls.pc && pc.Commanded() && At(d, got, r, s.ls)
    ensures Proceeded(d, got, q, PulseStart(s, e).0)
  {
    hide PulseData.Restarted, PulseData.Opened, Stopped, Turned, PulseData.Delivered, PulseData.Flushed,
         Naming.BaseName;
    q := match pc
      case LHead => r.(star := s.rg.starStore)
      case LFirstOpen => r.(startFd := s.os.Result(e.fd))
      case _ => r;
  }

  lemma StopProceeds(pc: PulsePc, s: State, e: Env, d: PulseData, got: Bytes, r: Reads) returns (q: Reads)
    requires pc == s.ls.pc && pc.Moving() && !pc.Receiving() && !pc.LStored? && At(d, got, r, s.ls)
    ensures Proceeded(d, got, q, PulseMove(s, e).0)
  {
    hide PulseData.Opened, PulseData.Restarted, Iterated, PulseData.Delivered, PulseData.Flushed;
    q := match pc
      case LStop => r.(stop := s.rg.lsStop)
      case LStopSeek => r.(empty := s.os.Empty(s.ls.data.fd, e.zero))
      case _ => r;
  }

  lemma StoredProceeds(s: State, e: Env, d: PulseData, got: Bytes, r: Reads) returns (q: Reads)
    requires s.ls.pc.LStored? && At(d, got, r, s.ls)
    ensures Proceeded(d, got, q, PulseMove(s, e).0)
  {
    hide PulseData.Opened, PulseData.Restarted, Stopped, Turned, PulseData.Delivered, PulseData.Flushed;
    q := r.(stored := s.fl.stored1);
    assert Since(got, r) + [] == Since(got, r);
  }

  lemma FifoProceeds(s: State, e: Env, d: PulseData, got: Bytes, r: Reads) returns (q: Reads)
    requires s.ls.pc.LFifo? && At(d, got, r, s.ls)
    ensures Proceeded(d, got, q, PulseMove(s, e).0)
  {
    hide PulseData.Opened, PulseData.Restarted, Stopped, Turned, Iterated, PulseData.Delivered, PulseData.Flushed;
    q := r.(fifo := e.fifo);
    assert Since(got, r) + [] == Since(got, r);
  }

  lemma TransferProceeds(s: State, e: Env, d: PulseData, got: Bytes, r: Reads) returns (q: Reads)
    requires s.ls.pc.LDma? && At(d, got, r, s.ls)
    ensures Proceeded(d, got, q, PulseMove(s, e).0)
  {
    hide PulseData.Opened, PulseData.Restarted, Stopped, Turned, Iterated, PulseData.Delivered, PulseData.Flushed;
    q := r.(transfer := Outcome(e.dma));
  }

  lemma SaveProceeds(s: State, e: Env, d: PulseData, got: Bytes, r: Reads)
    requires s.ls.pc.LFull? && At(d, got, r, s.ls)
    ensures Proceeded(d, got, r, PulseMove(s, e).0)
  {
    hide PulseData.Opened, PulseData.Restarted, Stopped, Turned, Iterated, PulseData.Delivered;
  }

  lemma CutProceeds(s: State, e: Env, d: PulseData, got: Bytes, r: Reads) returns (q: Reads)
    requires s.ls.pc.LCut? && At(d, got, r, s.ls)
    ensures Proceeded(d, got, q, PulseMove(s, e).0)
  {
    hide PulseData.Opened, PulseData.Restarted, Stopped, Turned, PulseData.Delivered, PulseData.Flushed;
    q := r.(cut := s.fl.slice1);
  }

  lemma CloseProceeds(pc: PulsePc, s: State, e: Env, d: PulseData, got: Bytes, r: Reads)
    requires pc == s.ls.pc && (pc.LDrain? || pc.LPad? || pc.LClose?) && At(d, got, r, s.ls)
    ensures Proceeded(d, got, r, PulseTurn(s, e).0)
  {
    hide PulseData.Drained, PulseData.Restarted, PulseData.Padded, PulseData.Opened, Stopped, PulseData.Delivered,
         PulseData.Flushed, Naming.BaseName, Iterated;
  }

  lemma TurnProceeds(pc: PulsePc, s: State, e: Env, d: PulseData, got: Bytes, r: Reads)
    requires pc == s.ls.pc && At(d, got, r, s.ls)
    requires pc.LSlotBegin? || pc.LSlotEnd? || pc.LInc? || pc.LMark? || pc.LSliceClear?
    ensures Proceeded(d, got, r, PulseTurn(s, e).0)
  {
    hide PulseData.Drained, PulseData.Restarted, PulseData.Padded, PulseData.Opened, Stopped, PulseData.Delivered,
         PulseData.Flushed, Naming.BaseName, Iterated;
  }

  lemma OpenProceeds(s: State, e: Env, d: PulseData, got: Bytes, r: Reads) returns (q: Reads)
    requires s.ls.pc.LOpen? && At(d, got, r, s.ls)
    ensures Proceeded(d, got, q, PulseTurn(s, e).0)
  {
    hide PulseData.Drained, PulseData.Restarted, PulseData.Padded, PulseData.Opened, Stopped, PulseData.Delivered,
         PulseData.Flushed, Naming.BaseName;
    q := r.(cutFd := s.os.Result(e.fd));
  }

  lemma EndProceeds(s: State, e: Env, d: PulseData, got: Bytes, r: Reads)
    requires s.ls.pc.LStoredSet? && At(d, got, r, s.ls)
    ensures Proceeded(d, got, r, PulseTurn(s, e).0)
  {
    hide PulseData.Drained, PulseData.Restarted, PulseData.Padded, PulseData.Opened, Stopped, PulseData.Delivered,
         PulseData.Flushed, Naming.BaseName;
  }

  // What a new Receiver holds.
  function NewData(boot: Boot): PulseData { PulseData([], boot.fd, []) }

  ghost predicate Refined(boot: Boot, p: PulseThread) {
    exists rs: seq<Reads>, r: Reads :: At(Ran(NewData(boot), rs), HeardIn(rs), r, p)
  }

  lemma AtHead(d: PulseData, got: Bytes, r: Reads, p: PulseThread)
    requires p.pc.LHead? && p.data == d && p.got == got
    ensures At(d, got, r, p)
  {
  }

  lemma Phases(s: State, e: Env)
    ensures s.ls.pc.Commanded() ==> PulseNext(s, e).ls == PulseStart(s, e).0
    ensures !s.ls.pc.Commanded() && s.ls.pc.Moving() ==> PulseNext(s, e).ls == PulseMove(s, e).0
    ensures !s.ls.pc.Commanded() && !s.ls.pc.Moving() ==> PulseNext(s, e).ls == PulseTurn(s, e).0
  {
    hide PulseStart, PulseMove, PulseTurn;
  }

  lemma StepRefines(boot: Boot, s: State, e: Env)
    requires Refined(boot, s.ls)
    ensures Refined(boot, PulseNext(s, e).ls)
  {
    Phases(s, e);
    hide At, Iterated, PulseStart, PulseMove, PulseTurn, PulseNext, Heard;
    var rs: seq<Reads>, r: Reads :| At(Ran(NewData(boot), rs), HeardIn(rs), r, s.ls);
    var d, got, pc, p := Ran(NewData(boot), rs), HeardIn(rs), s.ls.pc, PulseNext(s, e).ls;
    var q: Reads;
    if pc.Commanded() { q := StartProceeds(pc, s, e, d, got, r); }
    else if pc.LFifo? { q := FifoProceeds(s, e, d, got, r); }
    else if pc.LDma? { q := TransferProceeds(s, e, d, got, r); }
    else if pc.LFull? { SaveProceeds(s, e, d, got, r); q := r; }
    else if pc.LCut? { q := CutProceeds(s, e, d, got, r); }
    else if pc.LStored? { q := StoredProceeds(s, e, d, got, r); }
    else if pc.Moving() { q := StopProceeds(pc, s, e, d, got, r); }
    else if pc.LOpen? { q := OpenProceeds(s, e, d, got, r); }
    else if pc.LStoredSet? { EndProceeds(s, e, d, got, r); q := r; }
    else if pc.LDrain? || pc.LPad? || pc.LClose? { CloseProceeds(pc, s, e, d, got, r); q := r; }
    else { TurnProceeds(pc, s, e, d, got, r); q := r; }
    assert Proceeded(d, got, q, p);
    if !At(d, got, q, p) {
      var more := rs + [q];
      assert more[..|rs|] == rs;
      AtHead(Ran(NewData(boot), more), HeardIn(more), q, p);
    }
  }

  lemma Started(boot: Boot)
    ensures Refined(boot, Init(boot).ls)
  {
    var t := Naming.Time(0, 0, 0, 0, 0, 0);
    var r := Reads(false, "", t, 0, false, false, false, false, Outcome(None), false, t, 0);
    assert Ran(NewData(boot), []) == NewData(boot) && HeardIn([]) == [];
    assert At(NewData(boot), [], r, Init(boot).ls);
  }

  lemma {:induction false} RefinedRun(boot: Boot, steps: seq<Step>)
    ensures Refined(boot, Exec(Init(boot), steps).ls)
  {
    hide Refined, PulseNext;
    if steps == [] {
      Started(boot);
    } else {
      var n := |steps| - 1;
      var s := Exec(Init(boot), steps[..n]);
      RefinedRun(boot, steps[..n]);
      OwnLocals(s, steps[n]);
      if steps[n].LsStep? { StepRefines(boot, s, steps[n].e); }
    }
  }

  // In every interleaving, whenever the thread is at the head of its loop, its data and
  // the system calls it has made, in order and with their arguments, are those of some run of
  // the array code, and that run took from the DMA since its last START exactly the bytes
  // delivered on channel 1.
  lemma {:induction false} ProtocolRunsArrayCode(boot: Boot, steps: seq<Step>)
    ensures var p := Exec(Init(boot), steps).ls;
      p.pc.LHead? ==> exists rs: seq<Reads> :: Ran(NewData(boot), rs) == p.data && HeardIn(rs) == p.got
  {
    RefinedRun(boot, steps);
    hide Exec;
    var p := Exec(Init(boot), steps).ls;
    var rs: seq<Reads>, r: Reads :| At(Ran(NewData(boot), rs), HeardIn(rs), r, p);
  }
}
