// Polls and commands of several client processes, one access at a time (src/tcp_process.c:137-152,
// 263-311, 326-337, src/ugpio.c:206-219): the work state and the data source are written by two
// separate accesses, and other clients may come in between.
module WorkSteps {
  import opened WorkState

  // Where a client is; the write it makes next is in the comment.
  datatype Pc =
    | Idle                      // takes a snapshot of the free space
    | Full | Room               // reads the work state
    | OffSource                 // source := 0, the disk is full
    | OffStar | OffMark         // STAR_STORE := 0, FILE_MARK := 0
    | OffWork(disabled: bool)   // work := DISKFULL
    | Ready                     // work := READY
    | Wait                      // reads a command
    | StartRead                 // reads the work state
    | StartWork                 // work := RECORD
    | StartLs | StartMn | StartSy | StartStar | StartMark
    | StartSource               // source := 1
    | StartStar2 | StartMark2
    | StopWork                  // work := READY
    | StopLs | StopMn | StopSy
    | StopSource                // source := 0
    | StopStar | StopMark
  {
    // Between the two writes that belong together.
    predicate Midway() {
      match this
      case OffStar | OffMark | StartLs | StartMn | StartSy | StartStar | StartMark | StartSource
         | StopLs | StopMn | StopSy | StopSource => true
      case OffWork(disabled) => disabled
      case _ => false
    }

    // From the reading it acts on, or the first write, to the last of the two writes.
    predicate Acting() {
      match this
      case OffSource | OffStar | OffMark | OffWork(_) | Ready | StartWork | StartLs | StartMn | StartSy | StartStar
         | StartMark | StartSource | StopWork | StopLs | StopMn | StopSy | StopSource => true
      case _ => false
    }

    // The next write is the last one that concerns the work state or the source.
    predicate Closing() {
      match this
      case OffWork(_) | Ready | StartSource | StopSource => true
      case _ => false
    }

    // What a caller could check before that write.
    predicate Fits(d: Device) {
      match this
      case OffWork(_) | Ready => !d.source
      case StartSource => d.work == WORK_RECORD
      case StopSource => d.work != WORK_RECORD
      case _ => true
    }
  }

  datatype Input = Input(available: nat, cmd: nat)

  function Advance(d: Device, pc: Pc, i: Input): (Device, Pc) {
    var g := d.regs;
    match pc
    case Idle => (d, if i.available == 0 then Full else Room)
    case Full => (d, if d.work == WORK_RECORD then OffSource else OffWork(false))
    case Room => (d, if d.work != WORK_RECORD then Ready else Wait)
    case OffSource => (d.(source := false), OffStar)
    case OffStar => (d.(regs := g.(starStore := false)), OffMark)
    case OffMark => (d.(regs := g.(fileMark := false)), OffWork(true))
    case OffWork(_) => (d.(work := WORK_DISKFULL), Wait)
    case Ready => (d.(work := WORK_READY), Wait)
    case Wait => (d, if i.cmd == CMD_SET_START then StartRead else if i.cmd == CMD_SET_STOP then StopWork else Idle)
    case StartRead => (d, if d.work == WORK_READY then StartWork else Idle)
    case StartWork => (d.(work := WORK_RECORD), StartLs)
    case StartLs => (d.(regs := g.(lsStop := false)), StartMn)
    case StartMn => (d.(regs := g.(mnStop := false)), StartSy)
    case StartSy => (d.(regs := g.(syStop := false)), StartStar)
    case StartStar => (d.(regs := g.(starStore := true)), StartMark)
    case StartMark => (d.(regs := g.(fileMark := true)), StartSource)
    case StartSource => (d.(source := true), StartStar2)
    case StartStar2 => (d.(regs := g.(starStore := true)), StartMark2)
    case StartMark2 => (d.(regs := g.(fileMark := true)), Idle)
    case StopWork => (d.(work := WORK_READY), StopLs)
    case StopLs => (d.(regs := g.(lsStop := true)), StopMn)
    case StopMn => (d.(regs := g.(mnStop := true)), StopSy)
    case StopSy => (d.(regs := g.(syStop := true)), StopSource)
    case StopSource => (d.(source := false), StopStar)
    case StopStar => (d.(regs := g.(starStore := false)), StopMark)
    case StopMark => (d.(regs := g.(fileMark := false)), Idle)
  }

  // ---------- one client alone ----------

  function Solo(d: Device, pc: Pc, i: Input, n: nat): (Device, Pc)
    decreases n
  {
    if n == 0 then (d, pc) else
    var r := Advance(d, pc, i);
    Solo(r.0, r.1, i, n - 1)
  }

  // A poll that nobody interrupts has the effect it has in WorkState ...
  lemma SoloPoll(d: Device, i: Input) returns (n: nat)
    ensures Solo(d, Idle, i, n) == (d.Polled(i.available), Wait)
  {
    if i.available == 0 && d.work == WORK_RECORD {
      n := 6;
      assert Solo(d, Idle, i, 6) == Solo(d, Full, i, 5) == Solo(d, OffSource, i, 4);
      var e := d.(source := false);
      assert Solo(e, OffStar, i, 3) == Solo(e.(regs := e.regs.(starStore := false)), OffMark, i, 2);
      assert Solo(d.Enabled(false), OffWork(true), i, 1) == Solo(d.Polled(0), Wait, i, 0);
    } else if i.available == 0 {
      n := 3;
      assert Solo(d, Idle, i, 3) == Solo(d, Full, i, 2) == Solo(d, OffWork(false), i, 1)
          == Solo(d.Polled(0), Wait, i, 0);
    } else if d.work != WORK_RECORD {
      n := 3;
      assert Solo(d, Idle, i, 3) == Solo(d, Room, i, 2) == Solo(d, Ready, i, 1)
          == Solo(d.(work := WORK_READY), Wait, i, 0);
    } else {
      n := 2;
      assert Solo(d, Idle, i, 2) == Solo(d, Room, i, 1) == Solo(d, Wait, i, 0);
    }
  }

  // ... the first part of a START, up to the write that enables the source, ...
  lemma SoloStartWork(d: Device, i: Input) returns (e: Device)
    requires i.cmd == CMD_SET_START && d.work == WORK_READY
    ensures Solo(d, Wait, i, 8) == (e, StartSource)
    ensures e == d.(work := WORK_RECORD, regs := d.regs.(lsStop := false, mnStop := false, syStop := false,
                                                       starStore := true, fileMark := true))
  {
    var a := d.(work := WORK_RECORD);
    assert Solo(d, Wait, i, 3) == Solo(d, StartRead, i, 2) == Solo(d, StartWork, i, 1) == Solo(a, StartLs, i, 0);
    e := SoloStartRegisters(a, i);
    SoloAdd(d, Wait, i, 3, 5);
    hide Solo;
  }

  lemma SoloStep(d: Device, pc: Pc, i: Input, n: nat)
    requires n > 0
    ensures var r := Advance(d, pc, i); Solo(d, pc, i, n) == Solo(r.0, r.1, i, n - 1)
    ensures Solo(d, pc, i, 0) == (d, pc)
  {
  }

  lemma SoloStartRegisters(d: Device, i: Input) returns (e: Device)
    ensures Solo(d, StartLs, i, 5) == (e, StartSource)
    ensures e == d.(regs := d.regs.(lsStop := false, mnStop := false, syStop := false, starStore := true,
                                    fileMark := true))
  {
    hide Solo;
    var b := d.(regs := d.regs.(lsStop := false));
    var c := b.(regs := b.regs.(mnStop := false));
    var f := c.(regs := c.regs.(syStop := false));
    var g := f.(regs := f.regs.(starStore := true));
    e := g.(regs := g.regs.(fileMark := true));
    SoloStep(d, StartLs, i, 5);
    SoloStep(b, StartMn, i, 4);
    SoloStep(c, StartSy, i, 3);
    SoloStep(f, StartStar, i, 2);
    SoloStep(g, StartMark, i, 1);
    SoloStep(e, StartSource, i, 1);
  }

  // ... the rest of it, ...
  lemma SoloStartSource(d: Device, i: Input)
    ensures Solo(d, StartSource, i, 3) == (d.Enabled(true), Idle)
  {
    var a := d.(source := true);
    var b := a.(regs := a.regs.(starStore := true));
    assert Solo(d, StartSource, i, 3) == Solo(a, StartStar2, i, 2) == Solo(b, StartMark2, i, 1);
    assert Solo(b, StartMark2, i, 1) == Solo(d.Enabled(true), Idle, i, 0);
  }

  // ... and a STOP.
  lemma SoloStopWork(d: Device, i: Input) returns (e: Device)
    requires i.cmd == CMD_SET_STOP
    ensures Solo(d, Wait, i, 5) == (e, StopSource)
    ensures e == d.(work := WORK_READY, regs := d.regs.(lsStop := true, mnStop := true, syStop := true))
  {
    hide Solo;
    var a := d.(work := WORK_READY);
    var b := a.(regs := a.regs.(lsStop := true));
    var c := b.(regs := b.regs.(mnStop := true));
    e := c.(regs := c.regs.(syStop := true));
    SoloStep(d, Wait, i, 5);
    SoloStep(d, StopWork, i, 4);
    SoloStep(a, StopLs, i, 3);
    SoloStep(b, StopMn, i, 2);
    SoloStep(c, StopSy, i, 1);
    SoloStep(e, StopSource, i, 1);
  }

  lemma SoloStopSource(d: Device, i: Input)
    ensures Solo(d, StopSource, i, 3) == (d.Enabled(false), Idle)
  {
    var a := d.(source := false);
    var b := a.(regs := a.regs.(starStore := false));
    assert Solo(d, StopSource, i, 3) == Solo(a, StopStar, i, 2) == Solo(b, StopMark, i, 1);
    assert Solo(b, StopMark, i, 1) == Solo(d.Enabled(false), Idle, i, 0);
  }

  lemma {:induction false} SoloAdd(d: Device, pc: Pc, i: Input, m: nat, n: nat)
    ensures Solo(d, pc, i, m + n) == Solo(Solo(d, pc, i, m).0, Solo(d, pc, i, m).1, i, n)
    decreases m
  {
    if m > 0 { SoloAdd(Advance(d, pc, i).0, Advance(d, pc, i).1, i, m - 1, n); }
    hide Advance;
  }

  // A command that nobody interrupts has the effect it has in WorkState.
  lemma SoloCommand(d: Device, i: Input) returns (n: nat)
    ensures Solo(d, Wait, i, n) == (d.Dispatched(i.cmd), Idle)
  {
    if i.cmd == CMD_SET_START && d.work == WORK_READY {
      var e := SoloStartWork(d, i);
      SoloStartSource(e, i);
      SoloAdd(d, Wait, i, 8, 3);
      n := 11;
    } else if i.cmd == CMD_SET_START {
      n := 2;
      assert Solo(d, Wait, i, 2) == Solo(d, StartRead, i, 1) == Solo(d, Idle, i, 0);
    } else if i.cmd == CMD_SET_STOP {
      var e := SoloStopWork(d, i);
      SoloStopSource(e, i);
      SoloAdd(d, Wait, i, 5, 3);
      n := 8;
    } else {
      n := 1;
      assert Solo(d, Wait, i, 1) == Solo(d, Idle, i, 0);
    }
    hide Solo;
  }

  // ---------- several clients ----------

  // fits is history: whether the last closing write of anybody found what it needs.
  datatype System = System(d: Device, pcs: seq<Pc>, fits: bool)

  datatype Move = Move(client: nat, input: Input)

  function Moved(s: System, m: Move): System {
    if m.client >= |s.pcs| then s else
    var pc := s.pcs[m.client];
    var (d, next) := Advance(s.d, pc, m.input);
    System(d, s.pcs[m.client := next], if pc.Closing() then pc.Fits(s.d) else s.fits)
  }

  function After(s: System, moves: seq<Move>): System {
    if moves == [] then s else Moved(After(s, moves[..|moves| - 1]), moves[|moves| - 1])
  }

  // Nobody is between two writes that belong together.
  predicate Settled(s: System) {
    forall c :: 0 <= c < |s.pcs| ==> !s.pcs[c].Midway()
  }

  // A write that closes leaves the source and the work state in agreement exactly if it fits.
  lemma ClosingWrite(d: Device, pc: Pc, i: Input)
    requires pc.Closing()
    ensures Advance(d, pc, i).0.Safe() <==> pc.Fits(d)
    ensures !Advance(d, pc, i).1.Midway()
  {
  }

  // A step that writes neither, or opens a pair of writes.
  lemma OtherWrite(d: Device, pc: Pc, i: Input)
    requires !pc.Closing()
    ensures var (e, next) := Advance(d, pc, i);
      next.Midway() || (!pc.Midway() && e.work == d.work && e.source == d.source)
  {
  }

  lemma SettledStep(s: System, m: Move)
    requires Settled(s) ==> (s.d.Safe() <==> s.fits)
    ensures Settled(Moved(s, m)) ==> (Moved(s, m).d.Safe() <==> Moved(s, m).fits)
  {
    if m.client < |s.pcs| {
      var pc := s.pcs[m.client];
      var t := Moved(s, m);
      if pc.Closing() { ClosingWrite(s.d, pc, m.input); }
      else {
        OtherWrite(s.d, pc, m.input);
        assert t.pcs[m.client] == Advance(s.d, pc, m.input).1;
        if Settled(t) {
          assert !t.pcs[m.client].Midway();
          assert forall c :: 0 <= c < |s.pcs| && c != m.client ==> s.pcs[c] == t.pcs[c];
          assert Settled(s);
        }
      }
      hide Advance, Pc.Midway, Pc.Closing, Pc.Fits;
    }
  }

  // For any number of clients and any interleaving of their accesses: whenever no client is
  // between two writes that belong together, the source is enabled exactly in RECORD if and
  // only if the last closing write of anybody found what it needs.
  lemma {:induction false} SafeExactlyWhenLastFits(s: System, moves: seq<Move>)
    requires Settled(s) && s.fits && s.d.Safe()
    ensures var t := After(s, moves); Settled(t) ==> (t.d.Safe() <==> t.fits)
  {
    hide Moved;
    if moves != [] {
      var n := |moves| - 1;
      SafeExactlyWhenLastFits(s, moves[..n]);
      SettledStep(After(s, moves[..n]), moves[n]);
    }
  }

  // What a client alone in its critical part may rely on, program point by program point.
  predicate Relies(pc: Pc, d: Device) {
    match pc
    case OffSource => d.source && d.work == WORK_RECORD
    case OffStar | OffMark => !d.source && d.work == WORK_RECORD
    case OffWork(disabled) => !d.source && (d.work == WORK_RECORD <==> disabled)
    case Ready => !d.source && d.work != WORK_RECORD
    case StartWork => !d.source && d.work == WORK_READY
    case StartLs | StartMn | StartSy | StartStar | StartMark | StartSource => !d.source && d.work == WORK_RECORD
    case StopLs | StopMn | StopSy | StopSource => d.work == WORK_READY
    case _ => d.Safe()
  }

  // At most one client acts at any time.
  predicate Exclusive(s: System) {
    forall b, c :: 0 <= b < c < |s.pcs| ==> !(s.pcs[b].Acting() && s.pcs[c].Acting())
  }

  predicate Reliable(s: System) {
    && s.fits && (forall c :: 0 <= c < |s.pcs| && s.pcs[c].Acting() ==> Relies(s.pcs[c], s.d))
    && ((forall c :: 0 <= c < |s.pcs| ==> !s.pcs[c].Acting()) ==> s.d.Safe())
  }

  lemma ReliesOn(d: Device, pc: Pc, i: Input)
    requires Relies(pc, d) && (!pc.Acting() ==> d.Safe())
    ensures var (e, next) := Advance(d, pc, i); Relies(next, e) && (!next.Acting() ==> e.Safe())
    ensures pc.Closing() ==> pc.Fits(d)
  {
  }

  lemma Untouched(d: Device, pc: Pc, i: Input)
    requires !pc.Acting()
    ensures var e := Advance(d, pc, i).0; e.work == d.work && e.source == d.source && !pc.Closing()
  {
  }

  lemma SameReliance(d: Device, e: Device, pc: Pc)
    requires e.work == d.work && e.source == d.source
    ensures Relies(pc, d) == Relies(pc, e)
  {
  }

  lemma ReliableStep(s: System, m: Move)
    requires Reliable(s) && Exclusive(s) && Exclusive(Moved(s, m))
    ensures Reliable(Moved(s, m))
  {
    if m.client < |s.pcs| {
      var pc, t := s.pcs[m.client], Moved(s, m);
      var next := Advance(s.d, pc, m.input).1;
      assert t.pcs[m.client] == next;
      assert forall c :: 0 <= c < |s.pcs| && c != m.client ==> t.pcs[c] == s.pcs[c];
      if pc.Acting() {
        assert forall c :: 0 <= c < |s.pcs| && c != m.client ==> !s.pcs[c].Acting();
        ReliesOn(s.d, pc, m.input);
      } else {
        Untouched(s.d, pc, m.input);
        forall c | 0 <= c < |s.pcs| { SameReliance(s.d, t.d, s.pcs[c]); }
        if forall c :: 0 <= c < |s.pcs| ==> !s.pcs[c].Acting() { Harmless(s.d, pc); ReliesOn(s.d, pc, m.input); }
        else if next.Acting() { assert false; }
      }
      hide Advance, Relies, Pc.Acting, Pc.Closing, Pc.Fits;
    }
  }

  lemma Harmless(d: Device, pc: Pc)
    requires d.Safe() && !pc.Acting()
    ensures Relies(pc, d)
  {
  }

  // If no two clients act at the same time, every closing write finds what it needs, and the
  // source is enabled exactly in RECORD whenever nobody acts.
  lemma {:induction false} NoOverlapIsSafe(s: System, moves: seq<Move>)
    requires Reliable(s) && forall k :: 0 <= k <= |moves| ==> Exclusive(After(s, moves[..k]))
    ensures var t := After(s, moves);
      t.fits && ((forall c :: 0 <= c < |t.pcs| ==> !t.pcs[c].Acting()) ==> t.d.Safe())
    ensures Reliable(After(s, moves))
  {
    hide Moved, Exclusive;
    if moves != [] {
      var n := |moves| - 1;
      var before := moves[..n];
      assert forall k :: 0 <= k <= n ==> before[..k] == moves[..k];
      NoOverlapIsSafe(s, before);
      assert moves[..n + 1] == moves;
      ReliableStep(After(s, before), moves[n]);
    }
  }

  // ---------- overlaps that break it ----------

  function Times(m: Move, n: nat): seq<Move> { seq(n, _ => m) }

  lemma {:induction false} Drives(s: System, c: nat, i: Input, n: nat)
    requires c < |s.pcs|
    ensures var t, r := After(s, Times(Move(c, i), n)), Solo(s.d, s.pcs[c], i, n);
      t.d == r.0 && t.pcs == s.pcs[c := r.1]
  {
    if n > 0 {
      Drives(s, c, i, n - 1);
      SoloAdd(s.d, s.pcs[c], i, n - 1, 1);
      var moves := Times(Move(c, i), n);
      assert moves[..n - 1] == Times(Move(c, i), n - 1);
      var r := Solo(s.d, s.pcs[c], i, n - 1);
      assert Solo(r.0, r.1, i, 1) == Solo(Advance(r.0, r.1, i).0, Advance(r.0, r.1, i).1, i, 0);
    }
    hide Advance;
  }

  lemma {:induction false} AfterConcat(s: System, a: seq<Move>, b: seq<Move>)
    ensures After(s, a + b) == After(After(s, a), b)
  {
    hide Moved;
    if b == [] {
      assert a + b == a;
    } else {
      var n := |b| - 1;
      AfterConcat(s, a, b[..n]);
      assert (a + b)[..|a + b| - 1] == a + b[..n];
    }
  }

  // Some continuation ends with every client at rest and the source at odds with the work state.
  ghost predicate Breakable(s: System) {
    exists moves :: Settled(After(s, moves)) && !After(s, moves).d.Safe()
  }

  // n more steps of one client do not mend that.
  lemma BreakableBy(s: System, c: nat, i: Input, n: nat) returns (t: System)
    requires c < |s.pcs|
    ensures var r := Solo(s.d, s.pcs[c], i, n); t.d == r.0 && t.pcs == s.pcs[c := r.1]
    ensures Breakable(t) ==> Breakable(s)
  {
    var first := Times(Move(c, i), n);
    Drives(s, c, i, n);
    t := After(s, first);
    if Breakable(t) {
      var moves :| Settled(After(t, moves)) && !After(t, moves).d.Safe();
      AfterConcat(s, first, moves);
      assert Settled(After(s, first + moves));
    }
    hide After, Solo;
  }

  lemma BrokenNow(s: System)
    requires Settled(s) && !s.d.Safe()
    ensures Breakable(s)
  {
    assert After(s, []) == s;
    assert Settled(After(s, []));
  }

  // A STOP between the two writes of a START: the source runs in READY.
  lemma StopInsideStart(d: Device)
    requires d.Safe() && d.work == WORK_READY
    ensures Breakable(System(d, [Wait, Wait], true))
  {
    hide Solo, Breakable;
    var start, stop := Input(1, CMD_SET_START), Input(1, CMD_SET_STOP);
    var e := SoloStartWork(d, start);
    var s := System(d, [Wait, Wait], true);
    var t := BreakableBy(s, 0, start, 8);
    var n := SoloCommand(e, stop);
    var u := BreakableBy(t, 1, stop, n);
    SoloStartSource(u.d, start);
    var v := BreakableBy(u, 0, start, 3);
    assert v.pcs == [Idle, Idle];
    BrokenNow(v);
  }

  // A START between the two writes of a STOP: RECORD without the source.
  lemma StartInsideStop(d: Device)
    requires d.Safe()
    ensures Breakable(System(d, [Wait, Wait], true))
  {
    hide Solo, Breakable;
    var start, stop := Input(1, CMD_SET_START), Input(1, CMD_SET_STOP);
    var e := SoloStopWork(d, stop);
    var s := System(d, [Wait, Wait], true);
    var t := BreakableBy(s, 0, stop, 5);
    var n := SoloCommand(e, start);
    var u := BreakableBy(t, 1, start, n);
    SoloStopSource(u.d, stop);
    var v := BreakableBy(u, 0, stop, 3);
    assert v.pcs == [Idle, Idle];
    BrokenNow(v);
  }

  // A poll that saw another state than RECORD writes READY or DISKFULL after a START.
  lemma StartInsidePoll(d: Device, available: nat)
    requires d.Safe() && d.work == WORK_READY
    ensures Breakable(System(d, [Idle, Wait], true))
  {
    hide Breakable;
    var poll, start := Input(available, 0), Input(1, CMD_SET_START);
    var s := System(d, [Idle, Wait], true);
    var t := BreakableBy(s, 0, poll, 2);
    assert Solo(d, Idle, poll, 2) == Solo(d, if available == 0 then Full else Room, poll, 1)
        == Solo(d, if available == 0 then OffWork(false) else Ready, poll, 0);
    var n := SoloCommand(d, start);
    var u := BreakableBy(t, 1, start, n);
    var v := BreakableBy(u, 0, poll, 1);
    SoloStep(u.d, u.pcs[0], poll, 1);
    hide Solo;
    assert v.pcs == [Wait, Idle];
    BrokenNow(v);
  }

  // A poll that did see RECORD disables the source; STOP, poll and START of another client
  // enable it again before the poll writes DISKFULL.
  lemma SessionInsidePoll(d: Device)
    requires d.Safe() && d.work == WORK_RECORD
    ensures Breakable(System(d, [Idle, Wait], true))
  {
    hide Breakable;
    var poll, stop, room, start := Input(0, 0), Input(1, CMD_SET_STOP), Input(1, 0), Input(1, CMD_SET_START);
    var s := System(d, [Idle, Wait], true);
    var e := d.Enabled(false);
    assert Solo(d, Idle, poll, 5) == (e, OffWork(true)) by { DisablesSource(d, poll); }
    hide Solo;
    var t := BreakableBy(s, 0, poll, 5);
    var k := SoloCommand(e, stop);
    var u := BreakableBy(t, 1, stop, k);
    var l := SoloPoll(u.d, room);
    var v := BreakableBy(u, 1, room, l);
    var m := SoloCommand(v.d, start);
    var w := BreakableBy(v, 1, start, m);
    DiskFullLast(w.d, poll);
    var x := BreakableBy(w, 0, poll, 1);
    assert x.pcs == [Wait, Idle];
    BrokenNow(x);
  }

  lemma DisablesSource(d: Device, i: Input)
    requires i.available == 0 && d.work == WORK_RECORD
    ensures Solo(d, Idle, i, 5) == (d.Enabled(false), OffWork(true))
  {
    var e := d.(source := false);
    var f := e.(regs := e.regs.(starStore := false));
    assert Solo(d, Idle, i, 5) == Solo(d, Full, i, 4) == Solo(d, OffSource, i, 3) == Solo(e, OffStar, i, 2);
    assert Solo(e, OffStar, i, 2) == Solo(f, OffMark, i, 1) == Solo(d.Enabled(false), OffWork(true), i, 0);
  }

  lemma DiskFullLast(d: Device, i: Input)
    ensures Solo(d, OffWork(true), i, 1) == (d.(work := WORK_DISKFULL), Wait)
  {
    assert Solo(d, OffWork(true), i, 1) == Solo(d.(work := WORK_DISKFULL), Wait, i, 0);
  }
}
