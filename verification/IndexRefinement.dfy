// What the index receiver of the protocol does in any interleaving is a run of the array code.
module IndexRefinement {
  import opened Common
  import opened Descriptors
  import opened Protocol
  import opened Frames
  import opened IndexReceiver
  import IndexPages

  // What can be seen of the thread while no page is being copied.
  ghost predicate Shows(x: IndexThread, h: Held) {
    |x.buf| >= BRAM_SIZE && h == Held(x.buf[..BRAM_SIZE], x.ret, x.fd, x.calls)
  }

  predicate Onward(r: Reads) { !r.indexed && (r.Opens() ==> r.openFd >= 0) }

  // The thread is in the middle of an iteration that started from h with these pages taken;
  // r agrees with what it has read so far.
  ghost predicate At(h: Held, pages: seq<Page>, r: Reads, x: IndexThread) {
    var all := pages + r.Took();
    match x.pc
    case IHead => Shows(x, h) && x.taken == pages
    case IStopZero | IStopNum | IStopCompare => r.stop && Shows(x, h) && x.taken == pages
    case IStopIndex => r.stop && Shows(x, Compared(h, r)) && x.taken == pages
    case IStopAlt | IStopIndexed | IStopAck | IStopClose =>
      r.stop && Shows(x, Compared(h, r).(ret := 0)) && x.taken == pages
    case IIndexed => Shows(x, Settled(h, r)) && x.taken == pages
    case IValid => !r.indexed && Shows(x, Settled(h, r)) && x.taken == pages
    case ICopy =>
      && !r.indexed && r.valid && x.taken == pages
      && |x.buf| >= BRAM_SIZE && Shows(x, Settled(h, r).(front := x.buf[..BRAM_SIZE]))
    case IInvalid | ISpin | IRelease => !r.indexed && r.valid && Shows(x, Filled(h, r)) && x.taken == all
    case IAlt => !r.indexed && Shows(x, Filled(h, r)) && x.taken == all
    case IMark => !r.indexed && r.alt && Shows(x, Filled(h, r)) && x.taken == all
    case INum | ISlot | ISlotEnd | ILoad | IStore | IOpen =>
      !r.indexed && r.Opens() && Shows(x, Filled(h, r)) && x.taken == all
    case IAltClear | ISave => Onward(r) && Shows(x, Opened(h, r)) && x.taken == all
    case ICut => Onward(r) && Shows(x, Saved(Opened(h, r), r.altAgain)) && x.taken == all
    case ICutClose => Onward(r) && r.cut && Shows(x, Saved(Opened(h, r), r.altAgain)) && x.taken == all
    case ICutIndex | ICutAlt | ICutIndexed =>
      var d := Saved(Opened(h, r), r.altAgain);
      Onward(r) && r.cut && Shows(x, d.(ret := 0).Made(CloseAt(d.fd))) && x.taken == all
  }

  // ... or it has just finished that iteration.
  ghost predicate Proceeded(h: Held, pages: seq<Page>, r: Reads, x: IndexThread) {
    At(h, pages, r, x) || (x.pc.IHead? && Shows(x, Iterated(h, r)) && x.taken == pages + r.Took())
  }

  lemma HeadProceeds(pc: IndexPc, s: State, e: Env, h: Held, pages: seq<Page>, r: Reads) returns (q: Reads)
    requires pc == s.sy.pc && (pc.IHead? || pc.IIndexed?) && At(h, pages, r, s.sy)
    ensures Proceeded(h, pages, q, IndexIdle(s, e).0)
  {
    q := if pc.IHead? then r.(stop := s.rg.syStop) else r.(indexed := s.fl.indexed0);
    assert pages + [] == pages;
  }

  lemma StopProceeds(pc: IndexPc, s: State, e: Env, h: Held, pages: seq<Page>, r: Reads) returns (q: Reads)
    requires pc == s.sy.pc && !pc.Active() && !pc.IHead? && !pc.IIndexed? && At(h, pages, r, s.sy)
    ensures At(h, pages, q, IndexIdle(s, e).0)
  {
    hide Iterated;
    q := if pc.IStopZero? then r.(empty := false)
         else if pc.IStopCompare? then r.(empty := s.sy.reg == s.nm.lsNum) else r;
  }

  lemma TakeProceeds(pc: IndexPc, s: State, e: Env, h: Held, pages: seq<Page>, r: Reads) returns (q: Reads)
    requires pc == s.sy.pc && pc.Active() && pc.Taking() && At(h, pages, r, s.sy)
    requires s.sy.recv == 0 && (pc.ICopy? ==> s.sy.copied <= BRAM_SIZE)
    ensures Proceeded(h, pages, q, IndexTake(s, e).0)
  {
    q := match pc
      case IValid => r.(valid := s.hw.valid)
      case ICopy => r.(page := s.sy.buf[..BRAM_SIZE])
      case _ => r;
    assert pages + [] == pages;
  }

  lemma MarkProceeds(pc: IndexPc, s: State, e: Env, h: Held, pages: seq<Page>, r: Reads) returns (q: Reads)
    requires pc == s.sy.pc && (pc.IAlt? || pc.IMark?) && At(h, pages, r, s.sy)
    ensures Proceeded(h, pages, q, IndexName(s, e).0)
  {
    hide Iterated;
    q := if pc.IAlt? then r.(alt := s.fl.indexAlt0) else r.(mark := s.rg.fileMark);
  }

  lemma OpenProceeds(pc: IndexPc, s: State, e: Env, h: Held, pages: seq<Page>, r: Reads) returns (q: Reads)
    requires pc == s.sy.pc && (pc.Opening() || pc.IAltClear?) && At(h, pages, r, s.sy)
    ensures Proceeded(h, pages, q, IndexName(s, e).0)
  {
    q := if pc.IOpen? then r.(openFd := s.os.Result(e.fd)) else r;
    if pc.IOpen? { FileProceeds(s, e, h, pages, r); } else { NumberProceeds(pc, s, e, h, pages, r); }
    hide At, Iterated, IndexName;
  }

  lemma FileProceeds(s: State, e: Env, h: Held, pages: seq<Page>, r: Reads)
    requires s.sy.pc.IOpen? && At(h, pages, r, s.sy)
    ensures Proceeded(h, pages, r.(openFd := s.os.Result(e.fd)), IndexName(s, e).0)
  {
    hide Saved;
  }

  lemma NumberProceeds(pc: IndexPc, s: State, e: Env, h: Held, pages: seq<Page>, r: Reads)
    requires pc == s.sy.pc && (pc.Opening() || pc.IAltClear?) && !pc.IOpen? && At(h, pages, r, s.sy)
    ensures At(h, pages, r, IndexName(s, e).0)
  {
    hide Saved, Iterated, Filled;
  }

  lemma SaveProceeds(s: State, e: Env, h: Held, pages: seq<Page>, r: Reads) returns (q: Reads)
    requires s.sy.pc.ISave? && At(h, pages, r, s.sy) && s.sy.recv == 0
    ensures Proceeded(h, pages, q, IndexSave(s, e).0)
  {
    hide Iterated;
    q := r.(altAgain := s.fl.indexAlt0);
  }

  lemma CutProceeds(s: State, e: Env, h: Held, pages: seq<Page>, r: Reads) returns (q: Reads)
    requires s.sy.pc.ICut? && At(h, pages, r, s.sy) && s.sy.recv == 0
    ensures Proceeded(h, pages, q, IndexSave(s, e).0)
  {
    hide Saved;
    q := r.(cut := s.fl.index0);
  }

  lemma CuttingProceeds(pc: IndexPc, s: State, e: Env, h: Held, pages: seq<Page>, r: Reads)
    requires pc == s.sy.pc && (pc.ICutClose? || pc.Cutting()) && At(h, pages, r, s.sy)
    ensures Proceeded(h, pages, r, IndexSave(s, e).0)
  {
    hide Saved;
  }

  // What a new Receiver holds; its buffer may contain anything.
  function Start(front: Page): Held { Held(front, 0, 0, []) }

  ghost predicate Refined(front: Page, x: IndexThread) {
    exists rs: seq<Reads>, r: Reads :: At(Ran(Start(front), rs), Taken(rs), r, x)
  }

  lemma AtHead(h: Held, pages: seq<Page>, r: Reads, x: IndexThread)
    requires x.pc.IHead? && Shows(x, h) && x.taken == pages
    ensures At(h, pages, r, x)
  {
  }

  lemma Phases(s: State, e: Env)
    ensures var pc, x := s.sy.pc, IndexNext(s, e).sy;
      && (!pc.Active() ==> x == IndexIdle(s, e).0)
      && (pc.Active() && pc.Taking() ==> x == IndexTake(s, e).0)
      && (pc.Active() && !pc.Taking() && pc.Naming() ==> x == IndexName(s, e).0)
      && (pc.Active() && !pc.Taking() && !pc.Naming() ==> x == IndexSave(s, e).0)
  {
    hide IndexIdle, IndexTake, IndexName, IndexSave;
  }

  lemma StepRefines(front: Page, s: State, e: Env)
    requires Refined(front, s.sy) && IndexPages.Paged(s)
    ensures Refined(front, IndexNext(s, e).sy)
  {
    hide IndexStep, FlagsAfter, RegistersAfter, NamesAfter, LinesAfter, TableAfter, IndexUsedAfter;
    Phases(s, e);
    IndexPages.StagedCopies(s);
    hide At, Iterated, IndexIdle, IndexTake, IndexName, IndexSave, IndexNext, IndexPages.Paged;
    var rs: seq<Reads>, r: Reads :| At(Ran(Start(front), rs), Taken(rs), r, s.sy);
    var h, pages, pc, x := Ran(Start(front), rs), Taken(rs), s.sy.pc, IndexNext(s, e).sy;
    var q: Reads;
    if pc.IHead? || pc.IIndexed? { q := HeadProceeds(pc, s, e, h, pages, r); }
    else if !pc.Active() { q := StopProceeds(pc, s, e, h, pages, r); }
    else if pc.Taking() { q := TakeProceeds(pc, s, e, h, pages, r); }
    else if pc.IAlt? || pc.IMark? { q := MarkProceeds(pc, s, e, h, pages, r); }
    else if pc.Naming() {
      q := OpenProceeds(pc, s, e, h, pages, r);
    }
    else if pc.ISave? { q := SaveProceeds(s, e, h, pages, r); }
    else if pc.ICut? { q := CutProceeds(s, e, h, pages, r); }
    else { CuttingProceeds(pc, s, e, h, pages, r); q := r; }
    assert Proceeded(h, pages, q, x);
    if !At(h, pages, q, x) {
      var more := rs + [q];
      assert more[..|rs|] == rs;
      AtHead(Ran(Start(front), more), Taken(more), q, x);
    }
  }

  lemma Started(boot: Boot)
    ensures Refined(boot.buf[..BRAM_SIZE], Init(boot).sy)
  {
    var r := Reads(false, false, false, false, boot.page, false, false, "", 0, false, false, false);
    var h := Start(boot.buf[..BRAM_SIZE]);
    assert Ran(h, []) == h && Taken([]) == [];
    assert At(h, [], r, Init(boot).sy);
  }

  lemma {:induction false} RefinedRun(boot: Boot, steps: seq<Step>)
    ensures Refined(boot.buf[..BRAM_SIZE], Exec(Init(boot), steps).sy)
  {
    hide Refined, IndexNext;
    if steps == [] {
      Started(boot);
    } else {
      var n := |steps| - 1;
      var s := Exec(Init(boot), steps[..n]);
      RefinedRun(boot, steps[..n]);
      IndexPages.PagedRun(boot, steps[..n]);
      OwnLocals(s, steps[n]);
      if steps[n].SyStep? { StepRefines(boot.buf[..BRAM_SIZE], s, steps[n].e); }
    }
  }

  // In every interleaving, whenever the thread is at the head of its loop, its first page, its
  // pending count and the system calls it has made, in order and with their arguments, are
  // those of some run of the array code, and that run took exactly the pages that the thread
  // took from the hardware.
  lemma {:induction false} ProtocolRunsArrayCode(boot: Boot, steps: seq<Step>)
    ensures var x := Exec(Init(boot), steps).sy;
      x.pc.IHead? ==> exists rs: seq<Reads> ::
        Shows(x, Ran(Start(boot.buf[..BRAM_SIZE]), rs)) && Taken(rs) == x.taken
  {
    RefinedRun(boot, steps);
    hide Exec;
    var x := Exec(Init(boot), steps).sy;
    var rs: seq<Reads>, r: Reads :| At(Ran(Start(boot.buf[..BRAM_SIZE]), rs), Taken(rs), r, x);
  }
}
