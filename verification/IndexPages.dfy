// Index pages are neither torn nor duplicated nor reordered: the page is copied while the
// hardware may not touch it and is invalidated afterwards (src/store.c:301-347,
// src/ubram.c:66-76 and 131-136).
module IndexPages {
  import opened Common
  import opened Descriptors
  import opened Protocol
  import opened Barrier
  import opened Frames
  import opened Ownership

  // The valid/invalidate handshake, and the page being copied.
  ghost predicate Lines(x: IndexThread, w: Hardware) {
    && (w.invalidate <==> x.pc.ISpin? || x.pc.IRelease?)
    && (x.pc.ICopy? || x.pc.IInvalid? ==> w.valid)
    && (x.pc.IRelease? ==> !w.valid)
    && x.copied <= BRAM_SIZE <= |x.buf|
    && (x.pc.ICopy? ==> x.buf[..x.copied] == w.page[..x.copied])
    && w.published == x.taken + (if w.valid && !x.pc.IInvalid? && !x.pc.ISpin? then [w.page] else [])
  }

  ghost function InHand(x: IndexThread): Bytes
    requires |x.buf| >= BRAM_SIZE
  {
    if x.ret == BRAM_SIZE then x.buf[..BRAM_SIZE] else []
  }

  ghost predicate Staged(x: IndexThread) {
    && x.recv == 0
    && (x.ret == 0 || x.ret == BRAM_SIZE)
    && (x.pc.ICut? || x.pc.ICutClose? ==> x.ret == 0)
    && (x.pc.IInvalid? ==> x.ret == BRAM_SIZE)
    && x.copied <= BRAM_SIZE <= |x.buf|
    && (x.ret == BRAM_SIZE && !x.pc.ICopy? ==> x.taken != [] && x.buf[..BRAM_SIZE] == x.taken[|x.taken| - 1])
    && (x.ret == BRAM_SIZE ==> x.taken != [])
    && (x.busy && x.ret == BRAM_SIZE ==> x.pc.Holding())
  }

  // When the receiver is between an open and its close.
  ghost predicate BusyWhen(f: Flags, x: IndexThread) {
    && (!f.indexAlt0 ==> x.busy || x.pc.ICutIndex? || x.pc.ICutAlt?)
    && (x.busy ==> !f.indexAlt0 || x.pc.IAltClear? || x.pc.AltSet())
    && (x.busy ==> !f.indexed0 || x.pc.IStopAck? || x.pc.IStopClose?)
    && (x.busy ==> !x.pc.Cutting())
    && (x.pc.IAltClear? ==> x.busy)
    && (x.pc.Ended() ==> x.ret == 0)
  }

  // The pages due to a file are consecutive, and the last one is the last that was taken
  // before the close; the books say how much of them is in the file.
  ghost predicate Whole(taken: seq<Page>, f: IndexFile) {
    && f.start + |f.due| == f.upTo <= |taken|
    && f.due == taken[f.start..f.upTo]
    && Balanced([], f.track, [], Concat(f.due), 0, 0)
    && (!f.track.robbed ==> f.track.lost == 0)
  }

  ghost function End(done: seq<IndexFile>): nat {
    if done == [] then 0 else done[|done| - 1].upTo
  }

  ghost predicate Files(x: IndexThread) {
    && (forall f <- x.done :: Whole(x.taken, f))
    && (forall i :: 0 < i < |x.done| ==> x.done[i - 1].upTo <= x.done[i].start)
    && End(x.done) + (if !x.busy && x.ret == BRAM_SIZE then 1 else 0) <= |x.taken|
  }

  ghost predicate Current(x: IndexThread, t: Track) {
    if x.busy then
      |x.buf| >= BRAM_SIZE ==>
        && End(x.done) <= x.start <= |x.taken|
        && x.due == x.taken[x.start..]
        && Balanced([], t, InHand(x), Concat(x.due), 0, 0)
        && t.made && (!t.robbed ==> t.lost == 0)
    else t == CLOSED
  }

  // The receiver's own side of it.
  ghost predicate Local(x: IndexThread, t: Track) {
    Staged(x) && Files(x) && Current(x, t)
  }

  ghost predicate PagedIn(f: Flags, x: IndexThread, w: Hardware, t: Track) {
    Lines(x, w) && BusyWhen(f, x) && Local(x, t)
  }

  ghost predicate Paged(s: State) {
    Armed(s) && Homes(s) && PagedIn(s.fl, s.sy, s.hw, s.os.sy)
  }

  lemma ClosedLocal(x: IndexThread, t: Track)
    requires Local(x, t) && x.ret == 0
    ensures Files(x.Closed(t))
  {
    if x.busy {
      assert x.taken[x.start..] == x.taken[x.start..|x.taken|];
      assert Whole(x.taken, IndexFile(x.start, x.due, |x.taken|, t, x.base, x.gone, x.look));
    }
  }

  // Nothing is taken, saved, opened or closed.
  ghost predicate SameData(x: IndexThread, y: IndexThread) {
    && y.recv == x.recv && y.ret == x.ret && y.buf == x.buf && y.busy == x.busy && y.copied == x.copied
    && y.start == x.start && y.due == x.due && y.taken == x.taken && y.done == x.done && y.fd == x.fd
    && !x.pc.Busy() && (!y.pc.ICut? && (y.pc.ICutClose? ==> x.pc.ICut?)) && !y.pc.IInvalid? && !y.pc.ICopy?
    && (x.pc.Holding() ==> y.pc.Holding())
  }

  lemma SameDataLocal(x: IndexThread, y: IndexThread, t: Track)
    requires SameData(x, y) && Local(x, t)
    ensures Local(y, t)
  {
    hide Concat, Whole, Balanced;
  }

  ghost predicate Quiet(pc: IndexPc) {
    match pc
    case IStopIndex | IStopClose | IValid | ICopy | IInvalid | ISpin | IRelease
       | IOpen | IAltClear | ISave | ICutClose => false
    case _ => true
  }

  lemma QuietSame(pc: IndexPc, s: State, e: Env)
    requires pc == s.sy.pc && Quiet(pc)
    ensures SameData(s.sy, IndexStep(s, e).0) && !IndexStep(s, e).1.Touches()
  {
    if !pc.Active() { QuietIdle(pc, s, e); hide IndexIdle, SameData; }
  }

  lemma QuietIdle(pc: IndexPc, s: State, e: Env)
    requires pc == s.sy.pc && Quiet(pc) && !pc.Active()
    ensures SameData(s.sy, IndexIdle(s, e).0) && !IndexIdle(s, e).1.Touches()
  {
  }

  lemma IdleBusyWhen(pc: IndexPc, s: State, e: Env)
    requires pc == s.sy.pc && !pc.Active() && Paged(s)
    ensures BusyWhen(FlagsAfter(s.fl, IndexIdle(s, e).1), IndexIdle(s, e).0)
  {
    hide Local, Generations, Lines, Homes;
  }

  lemma IdleLines(pc: IndexPc, s: State, e: Env)
    requires pc == s.sy.pc && !pc.Active() && Paged(s)
    ensures Lines(IndexIdle(s, e).0, LinesAfter(s.hw, IndexIdle(s, e).1))
  {
    hide Local, Armed, BusyWhen, Homes;
  }

  lemma StopLocal(s: State, e: Env)
    requires (s.sy.pc.IStopIndex? || s.sy.pc.IStopClose?) && Paged(s)
    ensures Local(IndexIdle(s, e).0, TableAfter(s.os, Sy, IndexIdle(s, e).1).sy)
  {
    hide Armed, Homes, Lines, Concat;
    if s.sy.pc.IStopClose? { ClosedLocal(s.sy, s.os.sy); }
    else { DropLocal(s.sy, s.os.sy); }
  }

  // STOP drops nothing that is due to a file: a page in hand is saved in the same iteration.
  lemma DropLocal(x: IndexThread, t: Track)
    requires Local(x, t) && x.pc.IStopIndex?
    ensures Current(x.(ret := 0), t) && (x.busy ==> x.ret == 0)
  {
  }

  // While the page is valid and not invalidated the hardware leaves it alone.
  lemma CopyByte(s: State, e: Env)
    requires s.sy.pc.ICopy? && s.sy.copied < BRAM_SIZE && Paged(s)
    ensures var (x, w) := IndexTake(s, e); PagedIn(FlagsAfter(s.fl, w), x, LinesAfter(s.hw, w), s.os.sy) && !w.Sys?
  {
    hide Armed, Homes, Whole, Balanced, Concat;
  }

  // The copy is complete and the page counts as taken.
  lemma TakeFlags(s: State, e: Env)
    requires s.sy.pc.ICopy? && s.sy.copied == BRAM_SIZE && Paged(s)
    ensures var (x, w) := IndexTake(s, e);
      BusyWhen(FlagsAfter(s.fl, w), x) && Lines(x, LinesAfter(s.hw, w)) && !w.Sys?
  {
    hide Armed, Homes, Concat, Whole, Balanced;
    assert s.sy.buf[s.sy.recv..s.sy.recv + BRAM_SIZE] == s.hw.page;
  }

  // A page more leaves the files that are closed alone.
  lemma TakenFiles(x: IndexThread, p: Page, f: IndexFile)
    requires Whole(x.taken, f)
    ensures Whole(x.taken + [p], f)
  {
    hide Concat, Balanced;
    assert (x.taken + [p])[f.start..f.upTo] == x.taken[f.start..f.upTo];
  }

  lemma TakenCurrent(x: IndexThread, t: Track, p: Page)
    requires Current(x, t) && x.busy && x.ret == 0 && |x.buf| >= BRAM_SIZE && p == x.buf[..BRAM_SIZE]
    ensures Current(x.(pc := IInvalid, ret := BRAM_SIZE, taken := x.taken + [p], due := x.due + [p]), t)
  {
    ConcatSnoc(x.due, p);
    assert (x.taken + [p])[x.start..] == x.taken[x.start..] + [p];
    DeliveredBalanced([], t, [], Concat(x.due), 0, 0, p);
    assert [] + p == p;
    hide Concat, Balanced;
  }

  lemma TakenLocal(x: IndexThread, t: Track, p: Page)
    requires Local(x, t) && x.pc.ICopy? && p == x.buf[..BRAM_SIZE]
    ensures Local(x.(pc := IInvalid, ret := BRAM_SIZE, taken := x.taken + [p],
                     due := if x.busy then x.due + [p] else x.due), t)
  {
    var y := x.(pc := IInvalid, ret := BRAM_SIZE, taken := x.taken + [p], due := if x.busy then x.due + [p] else x.due);
    forall f | f in x.done ensures Whole(y.taken, f) { TakenFiles(x, p, f); }
    assert Files(y) by { hide Whole, Current; }
    if x.busy { TakenCurrent(x, t, p); }
    assert Current(y, t);
    hide Whole, Files, Current;
  }

  lemma TakeLocal(s: State, e: Env)
    requires s.sy.pc.ICopy? && s.sy.copied == BRAM_SIZE && Paged(s)
    ensures Local(IndexTake(s, e).0, s.os.sy)
  {
    hide Armed, Homes, Lines, BusyWhen, Files, Current;
    var x := s.sy;
    assert x.buf[x.recv..x.recv + BRAM_SIZE] == x.buf[..BRAM_SIZE];
    TakenLocal(x, s.os.sy, x.buf[..BRAM_SIZE]);
  }

  lemma HandshakeFlags(pc: IndexPc, s: State, e: Env)
    requires pc == s.sy.pc && pc.Active() && pc.Taking() && !pc.ICopy? && Paged(s)
    ensures var (x, w) := IndexTake(s, e);
      BusyWhen(FlagsAfter(s.fl, w), x) && Lines(x, LinesAfter(s.hw, w)) && !w.Sys?
  {
    hide Armed, Homes, Local;
  }

  lemma HandshakeLocal(pc: IndexPc, s: State, e: Env)
    requires pc == s.sy.pc && pc.Active() && pc.Taking() && !pc.ICopy? && Paged(s)
    ensures Local(IndexTake(s, e).0, s.os.sy)
  {
    hide Armed, Homes, BusyWhen, Concat, Whole, Balanced, Lines;
  }

  lemma NameBusyWhen(pc: IndexPc, s: State, e: Env)
    requires pc == s.sy.pc && pc.Active() && !pc.Taking() && pc.Naming() && Paged(s)
    ensures BusyWhen(FlagsAfter(s.fl, IndexName(s, e).1), IndexName(s, e).0)
  {
    hide Local, Homes, Lines, Generations;
  }

  lemma NameLines(pc: IndexPc, s: State, e: Env)
    requires pc == s.sy.pc && pc.Active() && !pc.Taking() && pc.Naming() && Paged(s)
    ensures Lines(IndexName(s, e).0, LinesAfter(s.hw, IndexName(s, e).1))
  {
    hide Local, Homes, BusyWhen, Armed;
  }

  lemma NotBusy(s: State)
    requires s.sy.pc.IOpen? && Paged(s)
    ensures !s.sy.busy
  {
    hide Local, Lines, Generations, Homes;
  }

  lemma EmptyConcat()
    ensures Concat([]) == []
  {
  }

  // The page already in hand becomes the first page of the new file.
  lemma OpenedLocal(x: IndexThread, y: IndexThread, n: int)
    requires x.pc.IOpen? && !x.busy && Local(x, CLOSED) && n >= 0
    requires var first := if x.ret == BRAM_SIZE then |x.taken| - 1 else |x.taken|;
      y == x.(pc := IAltClear, fd := n, calls := y.calls, busy := true, opens := y.opens, lastGen := y.lastGen,
              gone := y.gone, look := y.look,
              start := first, due := x.taken[first..])
    ensures Local(y, CLOSED.Own(OpenAt(n), 0))
  {
    hide Whole, Concat;
    assert Concat([]) == [] by { EmptyConcat(); }
    if x.ret == BRAM_SIZE {
      var last := x.taken[|x.taken| - 1];
      assert y.due == [] + [last];
      ConcatSnoc([], last);
      assert [] + last == last == [] + [] + last;
    } else {
      assert y.due == [];
    }
  }

  lemma OpenLocal(s: State, e: Env)
    requires s.sy.pc.IOpen? && Paged(s)
    ensures Local(IndexName(s, e).0, TableAfter(s.os, Sy, IndexName(s, e).1).sy)
  {
    hide Armed, Homes, Lines, BusyWhen, Whole, Concat, Balanced;
    assert !s.sy.busy by { hide *; NotBusy(s); }
    if s.os.Result(e.fd) >= 0 { OpenedLocal(s.sy, IndexName(s, e).0, s.os.Result(e.fd)); }
  }

  lemma ClearLocal(s: State, e: Env)
    requires s.sy.pc.IAltClear? && Paged(s)
    ensures Local(IndexName(s, e).0, s.os.sy) && !IndexName(s, e).1.Sys?
  {
    hide Armed, Homes, Lines, Whole, Concat, Balanced;
  }

  lemma SaveBusyWhen(pc: IndexPc, s: State, e: Env)
    requires pc == s.sy.pc && pc.Active() && !pc.Taking() && !pc.Naming() && Paged(s)
    ensures BusyWhen(FlagsAfter(s.fl, IndexSave(s, e).1), IndexSave(s, e).0)
  {
    hide Local, Homes, Lines, Generations;
  }

  lemma SaveLines(pc: IndexPc, s: State, e: Env)
    requires pc == s.sy.pc && pc.Active() && !pc.Taking() && !pc.Naming() && Paged(s)
    ensures Lines(IndexSave(s, e).0, LinesAfter(s.hw, IndexSave(s, e).1))
  {
    hide Local, Homes, BusyWhen, Armed;
  }

  // The page goes to the file, if the number is still the thread's own.
  lemma SavedLocal(x: IndexThread, t: Track, y: IndexThread, put: Call)
    requires x.pc.ISave? && x.busy && x.ret == BRAM_SIZE && Local(x, t) && t.Kept(x.fd)
    requires put == PutAt(x.fd, x.buf[..BRAM_SIZE])
    requires y == x.(pc := ICut, recv := 0, ret := 0, calls := y.calls)
    ensures Local(y, t.Own(put, 0))
  {
    var b := x.buf[..BRAM_SIZE];
    assert b[0..] == b;
    PutBalanced([], t, b, 0, Concat(x.due), 0, 0, x.fd);
    hide Concat, Whole, Balanced;
  }

  lemma SaveLocal(s: State, e: Env)
    requires s.sy.pc.ISave? && Paged(s)
    ensures Local(IndexSave(s, e).0, TableAfter(s.os, Sy, IndexSave(s, e).1).sy)
  {
    hide Lines, Concat, Whole, Balanced, Generations, Opens;
    var x := s.sy;
    if x.ret == BRAM_SIZE && x.busy { SavedLocal(x, s.os.sy, IndexSave(s, e).0, PutAt(x.fd, x.buf[..BRAM_SIZE])); }
  }

  lemma CutLocal(s: State, e: Env)
    requires s.sy.pc.ICutClose? && Paged(s)
    ensures Local(IndexSave(s, e).0, TableAfter(s.os, Sy, IndexSave(s, e).1).sy)
  {
    hide Armed, Homes, Lines, Concat, Balanced;
    ClosedLocal(s.sy, s.os.sy);
  }

  lemma IndexFlagsPaged(pc: IndexPc, s: State, e: Env)
    requires pc == s.sy.pc && Paged(s)
    ensures var (x, w) := IndexStep(s, e); BusyWhen(FlagsAfter(s.fl, w), x) && Lines(x, LinesAfter(s.hw, w))
  {
    if !pc.Active() { IdleBusyWhen(pc, s, e); IdleLines(pc, s, e); }
    else if pc.ICopy? {
      if s.sy.copied < BRAM_SIZE { CopyByte(s, e); } else { TakeFlags(s, e); }
    }
    else if pc.Taking() { HandshakeFlags(pc, s, e); }
    else if pc.Naming() { NameBusyWhen(pc, s, e); NameLines(pc, s, e); }
    else { SaveBusyWhen(pc, s, e); SaveLines(pc, s, e); }
    hide Armed, Homes, BusyWhen, IndexIdle, IndexTake, IndexName, IndexSave, FlagsAfter, LinesAfter, Local;
  }

  lemma IndexLocal(pc: IndexPc, s: State, e: Env)
    requires pc == s.sy.pc && Paged(s)
    ensures var (x, w) := IndexStep(s, e); Local(x, TableAfter(s.os, Sy, w).sy)
  {
    StagedCopies(s);
    if Quiet(pc) { QuietLocal(pc, s, e); }
    else if pc.Active() && pc.Taking() { TakingLocal(pc, s, e); }
    else {
      match pc
      case IStopIndex | IStopClose => StopLocal(s, e);
      case IOpen => OpenLocal(s, e);
      case IAltClear => ClearLocal(s, e);
      case ISave => SaveLocal(s, e);
      case ICutClose => CutLocal(s, e);
    }
    hide Paged, IndexIdle, IndexTake, IndexName, IndexSave, Local;
  }

  lemma QuietLocal(pc: IndexPc, s: State, e: Env)
    requires pc == s.sy.pc && Quiet(pc) && Paged(s)
    ensures Local(IndexStep(s, e).0, TableAfter(s.os, Sy, IndexStep(s, e).1).sy)
  {
    QuietSame(pc, s, e);
    SameDataLocal(s.sy, IndexStep(s, e).0, s.os.sy);
    hide Armed, Homes, IndexStep, Local, SameData;
  }

  lemma TakingLocal(pc: IndexPc, s: State, e: Env)
    requires pc == s.sy.pc && pc.Active() && pc.Taking() && Paged(s)
    ensures Local(IndexTake(s, e).0, TableAfter(s.os, Sy, IndexTake(s, e).1).sy)
  {
    if !pc.ICopy? { HandshakeLocal(pc, s, e); HandshakeFlags(pc, s, e); }
    else if s.sy.copied < BRAM_SIZE { CopyByte(s, e); }
    else { StagedCopies(s); TakeLocal(s, e); TakeFlags(s, e); }
    hide Armed, Homes, BusyWhen, Lines, IndexTake, Local;
  }

  lemma StagedCopies(s: State)
    requires Paged(s)
    ensures s.sy.copied <= BRAM_SIZE && s.sy.recv == 0
  {
  }

  // Another thread can spoil the file, but the books record it.
  lemma OthersLocal(x: IndexThread, t: Track, u: Track)
    requires Local(x, t) && t.Kept(x.fd) && (u == t || exists c :: u == t.Foreign(c))
    ensures Local(x, u)
  {
    if u != t && x.busy {
      var c :| u == t.Foreign(c);
      ForeignBalanced([], t, InHand(x), Concat(x.due), 0, 0, c);
    }
    hide Concat, Whole, Balanced;
  }

  lemma OthersPaged(s: State, t: State)
    requires Paged(s) && t.sy == s.sy && (t.os.sy == s.os.sy || exists c :: t.os.sy == s.os.sy.Foreign(c))
    requires t.fl.indexAlt0 == s.fl.indexAlt0 && t.fl.indexed0 == s.fl.indexed0 && t.hw == s.hw
    ensures PagedIn(t.fl, t.sy, t.hw, t.os.sy)
  {
    OthersLocal(s.sy, s.os.sy, t.os.sy);
    hide Armed, Local, Lines;
  }

  lemma ControlPaged(pc: ControlPc, s: State, e: Env)
    requires pc == s.ct.pc && Paged(s)
    ensures var t := ControlNext(s, e); PagedIn(t.fl, t.sy, t.hw, t.os.sy)
  {
    ControlWrites(pc, s, e);
    ControlStores(s, e);
    ControlBusyWhen(pc, s, e);
    ControlLines(pc, s, e);
    hide Armed, Homes, BusyWhen, Lines, Local, ControlNext, ControlStep, FlagsAfter, LinesAfter;
  }

  lemma ControlBusyWhen(pc: ControlPc, s: State, e: Env)
    requires pc == s.ct.pc && Paged(s)
    ensures BusyWhen(FlagsAfter(s.fl, ControlStep(s, e).1), s.sy)
  {
    hide Local, Lines, Homes, Generations;
  }

  lemma ControlLines(pc: ControlPc, s: State, e: Env)
    requires pc == s.ct.pc && Paged(s)
    ensures Lines(s.sy, LinesAfter(s.hw, ControlStep(s, e).1))
  {
    hide Local, BusyWhen, Homes, Armed;
  }

  lemma SignalPaged(s: State, signal: Signal)
    requires Paged(s)
    ensures var t := Next(s, Hw(signal)); PagedIn(t.fl, t.sy, t.hw, t.os.sy)
  {
    hide Local, Armed, Homes, BusyWhen;
  }

  lemma PagedStep(s: State, st: Step)
    requires Paged(s)
    ensures Paged(Next(s, st))
  {
    ArmedStep(s, st);
    HomesStep(s, st);
    hide Armed, Homes, Lines, BusyWhen, Local, MainNext, IndexNext, PulseNext, ControlNext, NetNext, OtherNext;
    hide MainStep, IndexStep, PulseStep, TableAfter, FlagsAfter, LinesAfter;
    match st
    case MnStep(e) =>
      MainTouches(s.mn.pc, s, e);
      MainStores(s, e);
      TracksAfter(s.os, Mn, MainStep(s, e).1);
      OthersPaged(s, MainNext(s, e));
    case SyStep(e) =>
      IndexStores(s, e);
      IndexFlagsPaged(s.sy.pc, s, e);
      IndexLocal(s.sy.pc, s, e);
    case LsStep(e) =>
      PulseTouches(s.ls.pc, s, e);
      PulseStores(s, e);
      TracksAfter(s.os, Ls, PulseStep(s, e).1);
      OthersPaged(s, PulseNext(s, e));
    case CtStep(e) => ControlPaged(s.ct.pc, s, e);
    case Hw(signal) => SignalPaged(s, signal);
    case _ => OutsidePaged(s, st);
  }

  lemma OutsidePaged(s: State, st: Step)
    requires (st.Net? || st.Other?) && Paged(s)
    ensures var t := Next(s, st); PagedIn(t.fl, t.sy, t.hw, t.os.sy)
  {
    OutsideTracks(s, st);
    assert Next(s, st).hw == s.hw;
    OthersPaged(s, Next(s, st));
    hide Paged, PagedIn;
  }

  lemma {:induction false} PagedRun(boot: Boot, steps: seq<Step>)
    ensures Paged(Exec(Init(boot), steps))
  {
    if steps != [] {
      var n := |steps| - 1;
      PagedRun(boot, steps[..n]);
      PagedStep(Exec(Init(boot), steps[..n]), steps[n]);
    }
  }

  // Every published page is taken whole, once and in order. The pages due to an index file
  // are consecutive and end at the last one taken before its close, and those of successive
  // files do not overlap. If nobody closed its number or wrote there, the file holds exactly
  // these pages; without foreign writes it does so if and only if no write missed it.
  lemma {:induction false} PagesWhole(boot: Boot, steps: seq<Step>)
    ensures var s := Exec(Init(boot), steps); var x, t := s.sy, s.os.sy;
      && x.taken <= s.hw.published && |s.hw.published| <= |x.taken| + 1
      && (forall f <- x.done :: Whole(x.taken, f))
      && (forall f <- x.done :: f.track.alien == 0 ==>
            && (f.track.bytes == Concat(f.due) <==> f.track.lost == 0)
            && (!f.track.robbed ==> f.track.bytes == Concat(f.due) && |f.track.bytes| % BRAM_SIZE == 0))
      && (forall i :: 0 < i < |x.done| ==> x.done[i - 1].upTo <= x.done[i].start)
      && (x.busy && !x.pc.Holding() && !t.robbed && t.alien == 0 ==>
            x.start <= |x.taken| && t.bytes == Concat(x.taken[x.start..]))
  {
    PagedRun(boot, steps);
    hide Exec;
    var s := Exec(Init(boot), steps);
    forall f | f in s.sy.done && f.track.alien == 0
      ensures f.track.bytes == Concat(f.due) <==> f.track.lost == 0
      ensures !f.track.robbed ==> f.track.bytes == Concat(f.due) && |f.track.bytes| % BRAM_SIZE == 0
    {
      WholeFile(s.sy.taken, f);
    }
    assert [] + s.os.sy.bytes + [] == s.os.sy.bytes;
  }

  lemma WholeFile(taken: seq<Page>, f: IndexFile)
    requires Whole(taken, f) && f.track.alien == 0
    ensures f.track.bytes == Concat(f.due) <==> f.track.lost == 0
    ensures !f.track.robbed ==> f.track.bytes == Concat(f.due) && |f.track.bytes| % BRAM_SIZE == 0
  {
    ConcatOfPages(f.due);
    ExactlyWhenNothingLost([], f.track, [], Concat(f.due), 0, 0);
    assert [] + f.track.bytes + [] == f.track.bytes;
    hide Concat;
  }

  // Step by step: a page that is due to the current file is lost exactly when it is saved on a
  // number that the thread does not hold.
  lemma {:induction false} PageLostWhen(boot: Boot, steps: seq<Step>, e: Env)
    ensures var s := Exec(Init(boot), steps); var n := IndexNext(s, e);
      s.sy.busy && n.sy.busy ==>
        (n.os.sy.lost > s.os.sy.lost <==> s.sy.pc.ISave? && s.sy.ret == BRAM_SIZE && !s.os.sy.Holds(s.sy.fd))
  {
    PagedRun(boot, steps);
    hide Exec;
    var s := Exec(Init(boot), steps);
    hide IndexNext, Paged;
    IndexLoses(s.sy.pc, s, e);
    IndexStores(s, e);
  }

  ghost predicate LosesIn(s: State, x: IndexThread, w: Write) {
    s.sy.busy && x.busy ==>
      (TableAfter(s.os, Sy, w).sy.lost > s.os.sy.lost <==>
        s.sy.pc.ISave? && s.sy.ret == BRAM_SIZE && !s.os.sy.Holds(s.sy.fd))
  }

  lemma IndexLoses(pc: IndexPc, s: State, e: Env)
    requires pc == s.sy.pc && Paged(s)
    ensures LosesIn(s, IndexStep(s, e).0, IndexStep(s, e).1)
  {
    if Quiet(pc) { QuietSame(pc, s, e); hide IndexStep; }
    else if pc.IOpen? { NotBusy(s); }
    else if pc.ISave? { SavesBusy(s, e); }
    else if pc.Active() && pc.Taking() { TakesNothing(pc, s, e); hide IndexTake; }
    else { EndsNothing(pc, s, e); hide IndexStep; }
    hide Paged;
  }

  lemma EndsNothing(pc: IndexPc, s: State, e: Env)
    requires pc.IStopIndex? || pc.IStopClose? || pc.IAltClear? || pc.ICutClose?
    requires pc == s.sy.pc
    ensures (pc.IStopClose? || pc.ICutClose? ==> !IndexStep(s, e).0.busy)
    ensures (pc.IStopIndex? || pc.IAltClear? ==> !IndexStep(s, e).1.Sys?)
  {
  }

  // While a file is open, a page in hand goes out in this very step.
  lemma SavesBusy(s: State, e: Env)
    requires s.sy.pc.ISave? && Paged(s)
    ensures s.sy.busy ==> !s.fl.indexAlt0 && s.sy.recv == 0 && (s.sy.ret == 0 || s.sy.ret == BRAM_SIZE)
  {
    hide Generations, Homes, Lines, Files, Current;
  }

  lemma TakesNothing(pc: IndexPc, s: State, e: Env)
    requires pc == s.sy.pc && pc.Taking()
    ensures !IndexTake(s, e).1.Sys?
  {
  }

  // No page is ever half received when a cut is looked for: the memcmp arm is never needed.
  lemma {:induction false} NothingPartial(boot: Boot, steps: seq<Step>)
    ensures var x := Exec(Init(boot), steps).sy; x.recv == 0 && (x.pc.ICut? ==> x.ret == 0)
  {
    PagedRun(boot, steps);
    hide Exec;
  }
}
