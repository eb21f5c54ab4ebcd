// The work state kept in bram_vptr[1][25], shared by all client processes (src/tcp_process.c:89-152,
// 263-337), the data source it gates and the command registers (src/ugpio.c:206-219).
module WorkState {
  import opened Common
  import opened Protocol

  const WORK_READY: nat := 1
  const WORK_RECORD: nat := 2
  const WORK_DISKFULL: nat := 64
  const CMD_SET_START: nat := 3
  const CMD_SET_STOP: nat := 4
  const CAPACITY: nat := 0x2ba7def3000

  // What statfs reports; ext is f_type == EXT3_SUPEP_MAGIC.
  datatype Statfs = Statfs(ext: bool, blocks: nat, bfree: nat, bsize: nat) {
    // in 64-bit unsigned arithmetic
    function Used(): nat { ((blocks - bfree) * bsize) % TWO64 }

    // The blocks in use are so few that the product is below 2^64.
    ghost predicate Fits() { bfree <= blocks && (blocks - bfree) * bsize < TWO64 }

    lemma UsedBlocks()
      requires Fits()
      ensures Used() == (blocks - bfree) * bsize
    {
      assert 0 <= (blocks - bfree) * bsize;
    }

    // src/tcp_process.c:116-122. The reserve and the bytes of the blocks in use add up, up to
    // the capacity; otherwise to what the product leaves in 64 bits.
    function Available(): (a: nat)
      ensures a <= CAPACITY && (a == 0 <==> Used() >= CAPACITY)
      ensures Used() <= CAPACITY ==> a + Used() == CAPACITY
      ensures Fits() ==> (a == 0 <==> (blocks - bfree) * bsize >= CAPACITY)
      ensures Fits() && a > 0 ==> a + (blocks - bfree) * bsize == CAPACITY
    {
      assert Fits() ==> Used() == (blocks - bfree) * bsize by { if Fits() { UsedBlocks(); } }
      var a := if Used() <= CAPACITY then CAPACITY - Used() else 0;
      if a > CAPACITY then CAPACITY else a
    }
  }

  // work is the register 25, source what gpio 0 enables.
  datatype Device = Device(work: nat, source: bool, regs: Registers) {

    // enable_data_source also writes STAR_STORE and FILE_MARK
    function Enabled(value: bool): Device {
      this.(source := value, regs := regs.(starStore := value, fileMark := value))
    }

    // src/tcp_process.c:137-152
    function Polled(available: nat): Device {
      if available == 0 then (if work == WORK_RECORD then Enabled(false) else this).(work := WORK_DISKFULL)
      else if work != WORK_RECORD then this.(work := WORK_READY)
      else this
    }

    // src/tcp_process.c:263-312
    function Started(): Device {
      if work != WORK_READY then this
      else this.(work := WORK_RECORD, regs := regs.(lsStop := false, mnStop := false, syStop := false)).Enabled(true)
    }

    // src/tcp_process.c:326-337
    function Stopped(): Device {
      this.(work := WORK_READY, regs := regs.(lsStop := true, mnStop := true, syStop := true)).Enabled(false)
    }

    // No other command touches these registers.
    function Dispatched(cmd: nat): Device {
      if cmd == CMD_SET_START then Started() else if cmd == CMD_SET_STOP then Stopped() else this
    }

    function Handled(e: Event): Device {
      match e
      case Poll(a) => Polled(a)
      case Command(c) => Dispatched(c)
    }

    predicate Safe() { source <==> work == WORK_RECORD }
  }

  // A poll or a command of any client, however many are connected.
  datatype Event = Poll(available: nat) | Command(cmd: nat)

  function After(d: Device, es: seq<Event>): Device {
    if es == [] then d else After(d, es[..|es| - 1]).Handled(es[|es| - 1])
  }

  // As long as polls and commands do not overlap, the source runs exactly while the work state
  // is RECORD, for any clients in any order; WorkSteps.dfy is about the overlaps.
  lemma {:induction false} SourceFollowsWork(d: Device, es: seq<Event>)
    requires d.Safe()
    ensures After(d, es).Safe()
  {
    if es != [] {
      SourceFollowsWork(d, es[..|es| - 1]);
    }
  }

  // One client alone: a START after a poll takes the device to RECORD, with the source enabled,
  // exactly when the blocks in use in the poll's own snapshot leave space and the device was
  // not recording already.
  lemma StartNeedsSpace(d: Device, fs: Statfs)
    requires d.Safe()
    ensures var polled := d.Polled(fs.Available()); var started := polled.Dispatched(CMD_SET_START);
      && (!polled.source && started.source <==> fs.Used() < CAPACITY && d.work != WORK_RECORD)
      && (started.source <==> started.work == WORK_RECORD)
      && (fs.Used() >= CAPACITY ==> started.work == WORK_DISKFULL)
      && (fs.Fits() ==>
            && (!polled.source && started.source <==>
                  (fs.blocks - fs.bfree) * fs.bsize < CAPACITY && d.work != WORK_RECORD)
            && ((fs.blocks - fs.bfree) * fs.bsize >= CAPACITY ==> started.work == WORK_DISKFULL && !started.source))
  {
    if fs.Fits() { fs.UsedBlocks(); }
  }

  // ---------- the same commands as steps of the recording protocol ----------

  type RegisterWrite = (RegisterName, bool)

  function Stops(v: bool): seq<RegisterWrite> { [(LsStop, v), (MnStop, v), (SyStop, v)] }

  function Enables(v: bool): seq<RegisterWrite> { [(StarStore, v), (FileMark, v)] }

  // The register writes of a command or of a poll, in program order.
  function Writes(d: Device, e: Event): seq<RegisterWrite> {
    match e
    case Poll(a) => if a == 0 && d.work == WORK_RECORD then Enables(false) else []
    case Command(c) =>
      if c == CMD_SET_START && d.work == WORK_READY then Stops(false) + (Enables(true) + Enables(true))
      else if c == CMD_SET_STOP then Stops(true) + Enables(false)
      else []
  }

  // The protocol after these writes as network steps.
  function Net(s: State, ws: seq<RegisterWrite>): State
    decreases |ws|
  {
    if ws == [] then s else Net(NetNext(s, ws[0].0, ws[0].1), ws[1..])
  }

  lemma {:induction false} NetConcat(s: State, vs: seq<RegisterWrite>, ws: seq<RegisterWrite>)
    ensures Net(s, vs + ws) == Net(Net(s, vs), ws)
    decreases |vs|
  {
    if vs == [] {
      assert vs + ws == ws;
    } else {
      assert (vs + ws)[1..] == vs[1..] + ws;
      NetConcat(NetNext(s, vs[0].0, vs[0].1), vs[1..], ws);
    }
  }

  lemma NetOne(s: State, reg: RegisterName, v: bool)
    ensures Net(s, [(reg, v)]) == NetNext(s, reg, v)
    ensures NetNext(s, reg, v) ==
      s.(rg := RegistersAfter(s.rg, SetReg(reg, v)),
         se := s.se.(clean := s.se.clean && (reg == FileMark && !v ==> s.Spare())))
  {
    var ws := [(reg, v)];
    assert ws[1..] == [];
    assert Net(NetNext(s, reg, v), []) == NetNext(s, reg, v);
  }

  lemma NetStops(s: State, v: bool)
    ensures Net(s, Stops(v)) == s.(rg := s.rg.(lsStop := v, mnStop := v, syStop := v))
  {
    hide Net, NetNext;
    var a := NetNext(s, LsStop, v);
    var b := NetNext(a, MnStop, v);
    NetOne(s, LsStop, v);
    NetOne(a, MnStop, v);
    NetOne(b, SyStop, v);
    assert Stops(v) == [(LsStop, v)] + ([(MnStop, v)] + [(SyStop, v)]);
    NetConcat(s, [(LsStop, v)], [(MnStop, v)] + [(SyStop, v)]);
    NetConcat(a, [(MnStop, v)], [(SyStop, v)]);
  }

  lemma NetEnables(s: State, v: bool)
    ensures Net(s, Enables(v)) ==
      s.(rg := s.rg.(starStore := v, fileMark := v), se := s.se.(clean := s.se.clean && (v || s.Spare())))
  {
    hide Net, NetNext;
    var a := NetNext(s, StarStore, v);
    NetOne(s, StarStore, v);
    NetOne(a, FileMark, v);
    assert Enables(v) == [(StarStore, v)] + [(FileMark, v)];
    NetConcat(s, [(StarStore, v)], [(FileMark, v)]);
  }

  lemma NetStart(s: State)
    ensures Net(s, Stops(false) + (Enables(true) + Enables(true))) ==
      s.(rg := s.rg.(lsStop := false, mnStop := false, syStop := false, starStore := true, fileMark := true))
  {
    hide Net;
    NetStops(s, false);
    var t := Net(s, Stops(false));
    NetConcat(s, Stops(false), Enables(true) + Enables(true));
    NetConcat(t, Enables(true), Enables(true));
    NetEnables(t, true);
    NetEnables(Net(t, Enables(true)), true);
  }

  lemma NetStop(s: State)
    ensures Net(s, Stops(true) + Enables(false)) ==
      s.(rg := Registers(false, false, true, true, true), se := s.se.(clean := s.se.clean && s.Spare()))
  {
    hide Net;
    NetStops(s, true);
    NetConcat(s, Stops(true), Enables(false));
    NetEnables(Net(s, Stops(true)), false);
  }

  // Replaying the writes as network steps of the protocol leads to the registers the command
  // leaves and touches nothing else; a STOP or a full disk spoils the token accounting exactly
  // when the main receiver has nothing left to use the token on.
  lemma CommandsAreNetSteps(d: Device, e: Event, s: State)
    requires s.rg == d.regs
    ensures var t := Net(s, Writes(d, e));
      && t.rg == After(d, [e]).regs
      && t == s.(rg := t.rg, se := s.se.(clean := t.se.clean))
      && (t.se.clean <==> s.se.clean && (s.Spare() || (e != Command(CMD_SET_STOP)
                          && !(e.Poll? && e.available == 0 && d.work == WORK_RECORD))))
  {
    hide Stops, Enables, Net;
    NetEnables(s, false);
    NetStart(s);
    NetStop(s);
    NoWrites(s);
    assert After(d, [e]) == d.Handled(e) by { hide *; AfterOne(d, e); }
    hide After;
  }

  lemma NoWrites(s: State)
    ensures Net(s, []) == s
  {
  }

  // ---------- the server loop ----------

  // One turn of process_conn_server: the snapshot, whether the client hung up, and the
  // command code that buffer[3] holds.
  datatype Turn = Turn(fs: Statfs, hungUp: bool, cmd: nat)

  // What a client process does to the device until it returns.
  function Served(d: Device, turns: seq<Turn>): Device
    decreases |turns|
  {
    if turns == [] || !turns[0].fs.ext then d else
    var polled := d.Polled(turns[0].fs.Available());
    if turns[0].hungUp then polled else Served(polled.Dispatched(turns[0].cmd), turns[1..])
  }

  // ... as events, to which the interleaving theorems apply.
  function Events(turns: seq<Turn>): seq<Event>
    decreases |turns|
  {
    if turns == [] || !turns[0].fs.ext then [] else
    [Poll(turns[0].fs.Available())] + (if turns[0].hungUp then [] else [Command(turns[0].cmd)] + Events(turns[1..]))
  }

  lemma {:induction false} AfterConcat(d: Device, es: seq<Event>, fs: seq<Event>)
    ensures After(d, es + fs) == After(After(d, es), fs)
  {
    if fs == [] {
      assert es + fs == es;
    } else {
      var n := |fs| - 1;
      AfterConcat(d, es, fs[..n]);
      assert (es + fs)[..|es + fs| - 1] == es + fs[..n];
    }
  }

  lemma AfterOne(d: Device, e: Event)
    ensures After(d, [e]) == d.Handled(e)
  {
    assert [e][..0] == [];
  }

  lemma {:induction false} ServedIsAfter(d: Device, turns: seq<Turn>)
    ensures Served(d, turns) == After(d, Events(turns))
    decreases |turns|
  {
    hide After;
    if turns == [] || !turns[0].fs.ext {
      AfterNone(d);
    } else {
      var t := turns[0];
      var poll, rest := [Poll(t.fs.Available())], Events(turns[1..]);
      AfterOne(d, poll[0]);
      if !t.hungUp {
        var polled := After(d, poll);
        AfterOne(polled, Command(t.cmd));
        ServedIsAfter(After(polled, [Command(t.cmd)]), turns[1..]);
        AfterConcat(polled, [Command(t.cmd)], rest);
        AfterConcat(d, poll, [Command(t.cmd)] + rest);
      } else {
        assert poll + [] == poll;
      }
    }
  }

  lemma AfterNone(d: Device)
    ensures After(d, []) == d
  {
  }

  class Station {
    var work: nat             // bram_vptr[1][25]
    var source: bool          // gpio 0
    var regs: Registers       // bram_vptr[1][18..25]

    function View(): Device
      reads this
    {
      Device(work, source, regs)
    }

    // enable_data_source
    method Enable(value: bool)
      modifies this`source, this`regs
      ensures View() == old(View()).Enabled(value)
    {
      source := value;
      regs := regs.(starStore := value);
      regs := regs.(fileMark := value);
    }

    // src/tcp_process.c:107-152; false when the file system is not the expected one
    method Poll(fs: Statfs) returns (go: bool)
      modifies this
      ensures go == fs.ext
      ensures View() == if go then old(View()).Polled(fs.Available()) else old(View())
    {
      if !fs.ext {
        return false;
      }
      var available := 0;
      if fs.Used() <= CAPACITY {
        available := CAPACITY - fs.Used();
      }
      if available > CAPACITY {
        available := CAPACITY;
      }
      if available == 0 {
        if work == WORK_RECORD {
          Enable(false);
        }
        work := WORK_DISKFULL;
      } else if work != WORK_RECORD {
        work := WORK_READY;
      }
      go := true;
    }

    // src/tcp_process.c:162-337
    method Dispatch(cmd: nat)
      modifies this
      ensures View() == old(View()).Dispatched(cmd)
    {
      if cmd == CMD_SET_START {
        if work == WORK_READY {
          work := WORK_RECORD;
          regs := regs.(lsStop := false);
          regs := regs.(mnStop := false);
          regs := regs.(syStop := false);
          regs := regs.(starStore := true);
          regs := regs.(fileMark := true);
          Enable(true);
        }
      } else if cmd == CMD_SET_STOP {
        work := WORK_READY;
        regs := regs.(lsStop := true);
        regs := regs.(mnStop := true);
        regs := regs.(syStop := true);
        Enable(false);
      }
    }

    // process_conn_server for one client, until it hangs up.
    method Serve(turns: seq<Turn>)
      modifies this
      ensures View() == Served(old(View()), turns)
    {
      var i := 0;
      while i < |turns|
        invariant i <= |turns|
        invariant Served(View(), turns[i..]) == Served(old(View()), turns)
      {
        var t := turns[i];
        assert turns[i..][0] == t && turns[i..][1..] == turns[i + 1..];
        var go := Poll(t.fs);
        if !go || t.hungUp {
          return;
        }
        Dispatch(t.cmd);
        i := i + 1;
      }
    }
  }
}
