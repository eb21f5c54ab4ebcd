// What the main receiver of the protocol does in any interleaving is a run of the array code.
module MainRefinement {
  import opened Common
  import opened Channels
  import opened Dma
  import opened Protocol
  import opened Frames
  import opened MainReceiver

  // The thread is in the middle of an iteration that started from d when the bytes all had
  // been delivered; r agrees with what it has read so far.
  ghost predicate At(d: MainData, all: Bytes, r: Reads, m: MainThread) {
    match m.pc
    case MWait | MHead => m.data == d && m.all == all
    case MStopZero | MStopNum | MStopCompare => r.stop && m.data == d && m.all == all
    case MStopSlice => r.stop && m.data == Compared(d, r) && m.all == all
    case MStopStored | MStopAck | MStopClose => r.stop && m.data == Compared(d, r).Cleared() && m.all == all
    case MStored => m.data == Settled(d, r) && m.all == all
    case MAlt => !r.stored && m.data == Settled(d, r) && m.all == all
    case MMark => !r.stored && r.alt && m.data == Settled(d, r) && m.all == all
    case MNum | MSlot | MSlotEnd | MLoad | MStore | MOpen =>
      !r.stored && r.alt && !r.mark && m.data == Settled(d, r) && m.all == all
    case MAltClear | MMarkSet | MFifo => !r.stored && m.data == Opened(d, r) && m.all == all
    case MAltAgain => !r.stored && r.fifo && m.data == Opened(d, r) && m.all == all
    case MDma => !r.stored && r.fifo && !r.altAgain && m.data == Opened(d, r) && m.all == all
    case MFull => !r.stored && m.data == Received(d, r) && m.all == all + Took(r)
    case MCut => !r.stored && m.data == Saved(d, r) && m.all == all + Took(r)
    case MDrain => !r.stored && r.cut && m.data == Saved(d, r) && m.all == all + Took(r)
    case MClose => !r.stored && r.cut && m.data == Saved(d, r).Drained() && m.all == all + Took(r)
    case MSliceClear | MStoredSet =>
      !r.stored && r.cut && m.data == Saved(d, r).Drained().Closed().Cleared() && m.all == all + Took(r)
  }

  // ... or it has just finished that iteration.
  ghost predicate Proceeded(d: MainData, all: Bytes, r: Reads, m: MainThread) {
    At(d, all, r, m) || (m.pc.MHead? && m.data == Iterated(d, r) && m.all == all + Took(r))
  }

  lemma HeadProceeds(pc: MainPc, s: State, e: Env, d: MainData, all: Bytes, r: Reads) returns (q: Reads)
    requires pc == s.mn.pc && (pc.MWait? || pc.MHead? || pc.MStored?) && At(d, all, r, s.mn)
    ensures Proceeded(d, all, q, MainIdle(s, e).0)
  {
    hide MainData.Delivered, MainData.Flushed, MainData.Drained, MainData.Cleared, MainData.Opened, MainData.Closed;
    q := if pc.MHead? then r.(stop := s.rg.mnStop) else if pc.MStored? then r.(stored := s.fl.stored0) else r;
    assert all + [] == all;
  }

  lemma StopProceeds(pc: MainPc, s: State, e: Env, d: MainData, all: Bytes, r: Reads) returns (q: Reads)
    requires pc == s.mn.pc && !pc.Active() && !pc.MWait? && !pc.MHead? && !pc.MStored? && At(d, all, r, s.mn)
    ensures At(d, all, q, MainIdle(s, e).0)
  {
    hide MainData.Delivered, MainData.Flushed, MainData.Drained, MainData.Cleared, MainData.Opened, MainData.Closed,
         Iterated;
    q := if pc.MStopZero? then r.(empty := false)
         else if pc.MStopCompare? then r.(empty := s.mn.reg == s.nm.lsNum) else r;
  }

  lemma NameProceeds(pc: MainPc, s: State, e: Env, d: MainData, all: Bytes, r: Reads) returns (q: Reads)
    requires pc == s.mn.pc && pc.Naming() && At(d, all, r, s.mn)
    ensures Proceeded(d, all, q, MainName(s, e).0)
  {
    hide MainData.Delivered, MainData.Flushed, MainData.Drained, MainData.Cleared, MainData.Opened, Iterated, Settled;
    q := match pc
      case MAlt => r.(alt := s.fl.sliceAlt0)
      case MMark => r.(mark := s.rg.fileMark)
      case MOpen => r.(openFd := s.os.Result(e.fd))
      case _ => r;
    SameStop(d, r, q);
  }

  lemma SameStop(d: MainData, r: Reads, q: Reads)
    requires q.stop == r.stop && q.empty == r.empty
    ensures Settled(d, q) == Settled(d, r)
  {
  }

  lemma FifoProceeds(s: State, e: Env, d: MainData, all: Bytes, r: Reads) returns (q: Reads)
    requires s.mn.pc.MFifo? && At(d, all, r, s.mn)
    ensures Proceeded(d, all, q, MainMove(s, e).0)
  {
    hide Iterated, MainData.Delivered, MainData.Opened;
    q := r.(fifo := e.fifo);
    assert all + [] == all;
  }

  lemma AltProceeds(s: State, e: Env, d: MainData, all: Bytes, r: Reads) returns (q: Reads)
    requires s.mn.pc.MAltAgain? && At(d, all, r, s.mn)
    ensures Proceeded(d, all, q, MainMove(s, e).0)
  {
    hide Iterated, MainData.Delivered, MainData.Opened;
    q := r.(altAgain := s.fl.sliceAlt0);
    assert all + [] == all;
  }

  lemma TransferProceeds(s: State, e: Env, d: MainData, all: Bytes, r: Reads) returns (q: Reads)
    requires s.mn.pc.MDma? && At(d, all, r, s.mn)
    ensures Proceeded(d, all, q, MainMove(s, e).0)
  {
    hide Iterated, MainData.Delivered, MainData.Opened;
    q := r.(transfer := Outcome(e.dma));
  }

  lemma SaveProceeds(s: State, e: Env, d: MainData, all: Bytes, r: Reads) returns (q: Reads)
    requires s.mn.pc.MFull? && At(d, all, r, s.mn)
    ensures Proceeded(d, all, q, MainMove(s, e).0)
  {
    q := r.(altThird := s.fl.sliceAlt0);
    hide Iterated, Received, MainData.Flushed, MainIdle, MainName;
    SameReceived(d, r, q);
  }

  // The third reading of chan_slice_alt comes after the transfer.
  lemma SameReceived(d: MainData, r: Reads, q: Reads)
    requires q == r.(altThird := q.altThird)
    ensures Received(d, q) == Received(d, r)
  {
  }

  lemma CutProceeds(s: State, e: Env, d: MainData, all: Bytes, r: Reads)
    requires s.mn.pc.MCut? && s.fl.slice0 && At(d, all, r, s.mn)
    ensures At(d, all, r.(cut := true), MainMove(s, e).0)
  {
    hide MainData.Delivered, MainData.Opened, MainData.Flushed, MainData.Cleared, MainData.Closed,
         MainData.Drained, Iterated;
  }

  lemma LoopProceeds(s: State, e: Env, d: MainData, all: Bytes, r: Reads)
    requires s.mn.pc.MCut? && !s.fl.slice0 && At(d, all, r, s.mn)
    ensures Proceeded(d, all, r.(cut := false), MainMove(s, e).0)
  {
    hide MainData.Delivered, MainData.Opened, MainData.Flushed, MainData.Cleared, MainData.Closed, MainData.Drained;
  }

  lemma ShutProceeds(pc: MainPc, s: State, e: Env, d: MainData, all: Bytes, r: Reads)
    requires pc == s.mn.pc && (pc.MDrain? || pc.MClose? || pc.Shut()) && At(d, all, r, s.mn)
    ensures Proceeded(d, all, r, MainMove(s, e).0)
  {
    hide MainData.Delivered, MainData.Opened, MainData.Flushed, MainData.Drained, MainData.Cleared;
  }

  // What a new Receiver holds.
  const START := MainData([], 0, 0, 0, [])

  ghost predicate Refined(m: MainThread) {
    exists rs: seq<Reads>, r: Reads :: At(Ran(START, rs), Taken(rs), r, m)
  }

  lemma Phases(s: State, e: Env)
    ensures !s.mn.pc.Active() ==> MainNext(s, e).mn == MainIdle(s, e).0
    ensures s.mn.pc.Naming() ==> MainNext(s, e).mn == MainName(s, e).0
    ensures s.mn.pc.Active() && !s.mn.pc.Naming() ==> MainNext(s, e).mn == MainMove(s, e).0
  {
    hide MainIdle, MainName, MainMove;
  }

  lemma StepRefines(s: State, e: Env)
    requires Refined(s.mn)
    ensures Refined(MainNext(s, e).mn)
  {
    Phases(s, e);
    hide At, Iterated, MainIdle, MainName, MainMove, Took, MainNext;
    var rs: seq<Reads>, r: Reads :| At(Ran(START, rs), Taken(rs), r, s.mn);
    var d, all, pc, m := Ran(START, rs), Taken(rs), s.mn.pc, MainNext(s, e).mn;
    var q: Reads;
    if pc.MWait? || pc.MHead? || pc.MStored? { q := HeadProceeds(pc, s, e, d, all, r); }
    else if !pc.Active() { q := StopProceeds(pc, s, e, d, all, r); }
    else if pc.Naming() { q := NameProceeds(pc, s, e, d, all, r); }
    else if pc.MFull? { q := SaveProceeds(s, e, d, all, r); }
    else if pc.MFifo? { q := FifoProceeds(s, e, d, all, r); }
    else if pc.MAltAgain? { q := AltProceeds(s, e, d, all, r); }
    else if pc.MDma? { q := TransferProceeds(s, e, d, all, r); }
    else if pc.MCut? {
      q := r.(cut := s.fl.slice0);
      if s.fl.slice0 { CutProceeds(s, e, d, all, r); } else { LoopProceeds(s, e, d, all, r); }
    }
    else { ShutProceeds(pc, s, e, d, all, r); q := r; }
    assert Proceeded(d, all, q, m);
    if !At(d, all, q, m) {
      var more := rs + [q];
      assert more[..|rs|] == rs;
      AtHead(Ran(START, more), Taken(more), q, m);
    }
  }

  lemma AtHead(d: MainData, all: Bytes, r: Reads, m: MainThread)
    requires m.pc.MHead? && m.data == d && m.all == all
    ensures At(d, all, r, m)
  {
  }

  lemma Started(boot: Boot)
    ensures Refined(Init(boot).mn)
  {
    var r := Reads(false, false, false, false, false, "", 0, false, false, Outcome(None), false, false);
    assert Ran(START, []) == START && Taken([]) == [];
    assert At(START, [], r, Init(boot).mn);
  }

  lemma {:induction false} RefinedRun(boot: Boot, steps: seq<Step>)
    ensures Refined(Exec(Init(boot), steps).mn)
  {
    hide Refined, MainNext;
    if steps == [] {
      Started(boot);
    } else {
      var n := |steps| - 1;
      var s := Exec(Init(boot), steps[..n]);
      RefinedRun(boot, steps[..n]);
      OwnLocals(s, steps[n]);
      if steps[n].MnStep? { StepRefines(s, steps[n].e); }
    }
  }

  // In every interleaving, whenever the thread is at the head of its loop, its data and the
  // system calls it has made, in order and with their arguments, are those of some run of
  // the array code, and that run took from the DMA all the bytes ever delivered on channel 0.
  lemma {:induction false} ProtocolRunsArrayCode(boot: Boot, steps: seq<Step>)
    ensures var m := Exec(Init(boot), steps).mn;
      m.pc.MHead? ==> exists rs: seq<Reads> :: Ran(START, rs) == m.data && Taken(rs) == m.all
  {
    RefinedRun(boot, steps);
    hide Exec;
    var m := Exec(Init(boot), steps).mn;
    var rs: seq<Reads>, r: Reads :| At(Ran(START, rs), Taken(rs), r, m);
  }
}
