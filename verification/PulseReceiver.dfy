// chan1_recv as it runs (src/store.c:446-603): a staging buffer, a descriptor and a disk.
// Whatever the shared flags read as, its effect on its data, and the system calls it makes,
// are the ones the protocol uses.
module PulseReceiver {
  import opened Common
  import opened Naming
  import opened Descriptors
  import opened Channels
  import opened Dma
  import opened Kernel

  // What one iteration reads from shared memory and learns from the system: startFd and cutFd
  // are what open returns, empty whether lseek returns 0.
  datatype Reads = Reads(
    star: bool, dir: string, startTime: Time, startFd: int, stop: bool, empty: bool,
    stored: bool, fifo: bool, transfer: Transfer, cut: bool, cutTime: Time, cutFd: int)
  {
    // the same, with other answers of the system
    predicate Answered(q: Reads) { q == this.(startFd := q.startFd, empty := q.empty, cutFd := q.cutFd) }
  }

  // The stages of one iteration, in terms of the steps of the protocol.
  function Begun(d: PulseData, r: Reads): PulseData {
    if r.star then d.Restarted().Opened(r.startFd) else d
  }

  function Settled(d: PulseData, r: Reads): PulseData {
    if r.stop then Stopped(Begun(d, r), r.empty) else Begun(d, r)
  }

  function Received(d: PulseData, r: Reads): PulseData {
    if r.fifo then Settled(d, r).Delivered(r.transfer.Dma()) else Settled(d, r)
  }

  function Saved(d: PulseData, r: Reads): PulseData { Received(d, r).Flushed() }

  function Iterated(d: PulseData, r: Reads): PulseData {
    if r.star && r.startFd < 0 then Begun(d, r)
    else if r.stored then Settled(d, r)
    else if r.cut then Turned(Saved(d, r), r.cutFd)
    else Saved(d, r)
  }

  // The commands do not depend on what the later open returns.
  lemma SameSettled(d: PulseData, r: Reads, q: Reads)
    requires q == r.(cutFd := q.cutFd)
    ensures Settled(d, q) == Settled(d, r)
  {
  }

  // file_name_sys, ls_file_num, and file_name with the disk.
  datatype Desk = Desk(dir: string, number: nat, p: Place) {
    // open for the next number, which is used up either way
    function Opened(t: Time, n: int): Desk {
      this.(number := number + 1, p := p.Opened(FileName(BaseName(dir, t, number), PulseStream), n))
    }
  }

  function Begins(k: Desk, t: Time, n: int): Desk {
    var a := k.Opened(t, n);
    if n < 0 then a.(number := k.number) else a
  }

  // What one iteration does to them: first the commands, then the data.
  function Started(k: Desk, r: Reads): Desk {
    if r.star then Begins(Desk(r.dir, 0, k.p), r.startTime, r.startFd) else k
  }

  function Commanded(k: Desk, d: PulseData, r: Reads): Desk {
    var a := Started(k, r);
    if r.stop then a.(p := (if r.empty then a.p.Removed() else a.p).Closed(Begun(d, r).fd)) else a
  }

  function Stored(k: Desk, d: PulseData, r: Reads): Desk {
    var fd, full, left := Saved(d, r).fd, Received(d, r).staged, Saved(d, r).staged;
    var e := if |full| == IFD_WRITE_MN && fd > 0 then k.p.Written(fd, full) else k.p;
    if !r.cut then k.(p := e)
    else k.(p := (if left == [] then e else e.Written(fd, left)).Closed(fd)).Opened(r.cutTime, r.cutFd)
  }

  function Placed(k: Desk, d: PulseData, r: Reads): Desk {
    if r.star && r.startFd < 0 then Started(k, r)
    else if r.stored then Commanded(k, d, r)
    else Stored(Commanded(k, d, r), d, r)
  }

  function PlacedBy(k: Desk, d: PulseData, rs: seq<Reads>): Desk {
    if rs == [] then k else
    var n := |rs| - 1;
    Placed(PlacedBy(k, d, rs[..n]), Ran(d, rs[..n]), rs[n])
  }

  // src/store.c:505-531; an empty file is removed
  function Stopped(d: PulseData, empty: bool): PulseData {
    if empty then d.Sought().Removed().Closed() else d.Sought().Closed()
  }

  // src/store.c:555-598
  function Turned(d: PulseData, n: int): PulseData {
    var next := d.Drained().Padded().Closed().Opened(n);
    if n >= 0 then next.Restarted() else next
  }

  // Any number of iterations.
  function Ran(d: PulseData, rs: seq<Reads>): PulseData {
    if rs == [] then d else Iterated(Ran(d, rs[..|rs| - 1]), rs[|rs| - 1])
  }

  // The chunk an iteration takes from the DMA.
  function Took(r: Reads): Bytes {
    if r.fifo && !r.stored && r.transfer.Done? then r.transfer.chunk else []
  }

  function Taken(rs: seq<Reads>): Bytes {
    if rs == [] then [] else Taken(rs[..|rs| - 1]) + Took(rs[|rs| - 1])
  }

  // The bytes delivered since the last START.
  function Heard(g: Bytes, r: Reads): Bytes {
    if r.star && r.startFd < 0 then [] else (if r.star then [] else g) + Took(r)
  }

  function HeardIn(rs: seq<Reads>): Bytes {
    if rs == [] then [] else Heard(HeardIn(rs[..|rs| - 1]), rs[|rs| - 1])
  }

  // The files that a row of calls leaves, when nobody else makes any: at is the number the
  // last one is open under, named says that the last open succeeded and was not removed.
  datatype Shelf = Shelf(files: seq<Bytes>, at: int, named: bool) {
    function After(c: Call): Shelf {
      match c
      case OpenAt(n) => if n >= 0 then Shelf(files + [[]], n, true) else Shelf(files, -1, false)
      case PutAt(n, b) => if n >= 0 && n == at && files != [] then this.(files := Grown(files, b)) else this
      case CloseAt(n) => if n == at then this.(at := -1) else this
      case Remove => if named && files != [] then Shelf(files[..|files| - 1], -1, false) else this
      case _ => this
    }
  }

  function Grown(files: seq<Bytes>, b: Bytes): seq<Bytes>
    requires files != []
  {
    files[|files| - 1 := files[|files| - 1] + b]
  }

  function Shelved(calls: seq<Call>): Shelf {
    if calls == [] then Shelf([], -1, false) else Shelved(calls[..|calls| - 1]).After(calls[|calls| - 1])
  }

  lemma EmptyShelf()
    ensures Shelved([]) == Shelf([], -1, false)
  {
  }

  // The shelf as of the call number start.
  function On(d: PulseData, start: nat): Shelf {
    if start <= |d.calls| then Shelved(d.calls[start..]) else Shelf([], -1, false)
  }

  lemma OneMore(calls: seq<Call>, start: nat, c: Call)
    requires start <= |calls|
    ensures Shelved((calls + [c])[start..]) == Shelved(calls[start..]).After(c)
  {
    var all := (calls + [c])[start..];
    assert all[..|all| - 1] == calls[start..] && all[|all| - 1] == c;
  }

  // All bytes of the session, written or staged.
  function Everything(d: PulseData, start: nat): Bytes { Concat(On(d, start).files) + d.staged }

  ghost predicate Head(d: PulseData, start: nat) {
    var s := On(d, start);
    && start <= |d.calls| && s.at == d.fd > 0 && s.files != []
    && |d.staged| % DMA_TRANS_SIZE == 0 && |d.staged| < IFD_WRITE_MN
  }

  lemma PutConserves(d: PulseData, start: nat, b: Bytes)
    requires start <= |d.calls| && On(d, start).at == d.fd >= 0 && On(d, start).files != []
    ensures var e := d.(calls := d.calls + [PutAt(d.fd, b)]);
      && On(e, start).at == d.fd && On(e, start).files != []
      && Concat(On(e, start).files) == Concat(On(d, start).files) + b
  {
    OneMore(d.calls, start, PutAt(d.fd, b));
    ConcatGrowLast(On(d, start).files, b);
    hide Shelved, Concat;
  }

  lemma FlushConserves(d: PulseData, start: nat)
    requires start <= |d.calls| && On(d, start).at == d.fd > 0 && On(d, start).files != []
    ensures Everything(d.Flushed(), start) == Everything(d, start)
    ensures On(d.Flushed(), start).at == d.fd && On(d.Flushed(), start).files != []
  {
    PutConserves(d, start, d.staged);
    hide On, Concat;
  }

  lemma TurnConserves(d: PulseData, start: nat, n: int)
    requires start <= |d.calls| && On(d, start).at == d.fd > 0 && On(d, start).files != [] && n > 0
    ensures Everything(Turned(d, n), start) == Everything(d, start)
    ensures On(Turned(d, n), start).at == n && On(Turned(d, n), start).files != []
  {
    var a := d.Drained();
    if d.staged != [] { PutConserves(d, start, d.staged); }
    var b := a.Padded();
    OneMore(a.calls, start, PadAt(a.fd));
    var c := b.Closed();
    OneMore(b.calls, start, CloseAt(b.fd));
    OneMore(c.calls, start, OpenAt(n));
    ConcatSnoc(On(c, start).files, []);
    assert Concat(On(c, start).files) + [] == Concat(On(c, start).files);
    assert d.staged == [] ==> Concat(On(d, start).files) + [] == Concat(On(d, start).files);
    hide Shelved, Concat;
  }

  lemma IterationConserves(d: PulseData, start: nat, r: Reads)
    requires Head(d, start) && !r.star && !r.stop && (r.cut ==> r.cutFd > 0)
    ensures Head(Iterated(d, r), start) && Everything(Iterated(d, r), start) == Everything(d, start) + Took(r)
  {
    if !r.stored {
      var c := if r.fifo then d.Delivered(r.transfer.Dma()) else d;
      assert On(c, start) == On(d, start);
      assert Everything(c, start) == Everything(d, start) + Took(r);
      FlushConserves(c, start);
      if r.cut { TurnConserves(c.Flushed(), start, r.cutFd); }
      hide On, Everything, Shelved, Concat;
    }
  }

  // Between START and STOP, with every open returning a positive number: nothing is lost,
  // repeated or reordered, however often the file is turned and whatever transfers fail.
  lemma {:induction false} RunConserves(d: PulseData, start: nat, rs: seq<Reads>)
    requires Head(d, start) && forall r <- rs :: !r.star && !r.stop && (r.cut ==> r.cutFd > 0)
    ensures Head(Ran(d, rs), start) && Everything(Ran(d, rs), start) == Everything(d, start) + Taken(rs)
  {
    hide Iterated, Everything, Head;
    if rs != [] {
      var n := |rs| - 1;
      RunConserves(d, start, rs[..n]);
      IterationConserves(Ran(d, rs[..n]), start, rs[n]);
    }
  }

  ghost predicate AllOn(disk: Disk, names: seq<string>) {
    && (forall k :: 0 <= k < |names| ==> names[k] in disk)
    && (forall i, j :: 0 <= i < j < |names| ==> names[i] != names[j])
  }

  ghost function Contents(disk: Disk, names: seq<string>): (files: seq<Bytes>)
    requires AllOn(disk, names)
    ensures |files| == |names|
  {
    seq(|names|, k requires 0 <= k < |names| => disk[names[k]])
  }

  // Writing to the last file changes the last contents only.
  lemma ContentsWrite(disk: Disk, names: seq<string>, b: Bytes)
    requires AllOn(disk, names) && names != []
    ensures var last := names[|names| - 1];
      && AllOn(disk[last := disk[last] + b], names)
      && Contents(disk[last := disk[last] + b], names) == Grown(Contents(disk, names), b)
  {
  }

  lemma ContentsElsewhere(disk: Disk, names: seq<string>, name: string, b: Bytes)
    requires AllOn(disk, names) && name !in names
    ensures AllOn(disk[name := b], names) && Contents(disk[name := b], names) == Contents(disk, names)
    ensures AllOn(disk - {name}, names) && Contents(disk - {name}, names) == Contents(disk, names)
  {
  }

  // Creating a file under a new name leaves the others alone.
  lemma ContentsCreate(disk: Disk, names: seq<string>, name: string)
    requires AllOn(disk, names) && name !in names
    ensures AllOn(disk[name := []], names + [name])
    ensures Contents(disk[name := []], names + [name]) == Contents(disk, names) + [[]]
  {
  }

  lemma ContentsRemove(disk: Disk, names: seq<string>)
    requires AllOn(disk, names) && names != []
    ensures var n := |names| - 1;
      && AllOn(disk - {names[n]}, names[..n]) && names[n] !in names[..n]
      && Contents(disk - {names[n]}, names[..n]) == Contents(disk, names)[..n]
  {
  }

  class Receiver {
    const dma: DmaChannel
    const files: Files
    var readBytes: nat
    var dir: string
    var number: nat           // ls_file_num
    var file: string          // file_name
    var fd: int
    // The files opened since START, with their times and numbers, and the calls before it.
    ghost var names: seq<string>
    ghost var stamps: seq<(Time, nat)>
    ghost var start: nat

    constructor (files: Files, garbage: int)
      requires forall n <- files.table :: n >= 0
      ensures Valid() && fresh(dma) && fresh(dma.buf) && this.files == files
      ensures View() == PulseData([], garbage, files.calls)
    {
      dma := new DmaChannel();
      this.files := files;
      readBytes, dir, number, file, fd, names, stamps, start := 0, "", 0, "", garbage, [], [], |files.calls|;
    }

    ghost predicate Valid()
      reads this, dma, files
    {
      && dma.Valid()
      && readBytes % 0x8000 == 0 && readBytes <= IFD_WRITE_MN
      && start <= |files.calls| && |names| == |stamps| && AllOn(files.disk, names)
      && Shelved(files.calls[start..]) == Shelf(Contents(files.disk, names), At(), Named())
      && (forall n <- files.table :: n >= 0)
      && (fd in files.table && files.table[fd] in names ==> At() == fd)
      && (!Named() ==> file !in names)
      && (forall k :: 0 <= k < |names| ==>
            stamps[k].1 < number && names[k] == FileName(BaseName(dir, stamps[k].0, stamps[k].1), PulseStream))
    }

    // The session's last file is the one named file, and the number it is open under.
    ghost predicate Named()
      reads this
    {
      names != [] && file == names[|names| - 1]
    }

    ghost function At(): int
      reads this, files
    {
      if fd >= 0 && fd in files.table && Named() && files.table[fd] == file then fd else -1
    }

    ghost function View(): PulseData
      requires Valid()
      reads this, dma, dma.buf, files
    {
      PulseData(dma.buf[..readBytes], fd, files.calls)
    }

    function Here(): Desk
      reads this, files
    {
      Desk(dir, number, Place(file, files.Now()))
    }

    lemma NewName(t: Time)
      requires Valid()
      ensures FileName(BaseName(dir, t, number), PulseStream) !in names
    {
      forall k | 0 <= k < |names| ensures names[k] != FileName(BaseName(dir, t, number), PulseStream) {
        if names[k] == FileName(BaseName(dir, t, number), PulseStream) {
          FileNameInjective(BaseName(dir, stamps[k].0, stamps[k].1), PulseStream,
            BaseName(dir, t, number), PulseStream);
          BaseNameInjective(dir, stamps[k].0, stamps[k].1, t, number);
        }
      }
    }

    // write(fd, rxmem_vbase, n)
    method Write(n: nat)
      requires Valid() && n <= BUFFER_SIZE
      modifies files`disk, files`calls
      ensures Valid()
      ensures View() == old(View()).(calls := old(files.calls) + [PutAt(fd, dma.buf[..n])])
      ensures Here() == old(Here()).(p := old(Here()).p.Written(fd, dma.buf[..n]))
    {
      hide Concat, BaseName, FileName, Shelved;
      ghost var b := dma.buf[..n];
      OneMore(files.calls, start, PutAt(fd, b));
      if fd in files.table && files.table[fd] in files.disk {
        if files.table[fd] in names { ContentsWrite(files.disk, names, b); }
        else { ContentsElsewhere(files.disk, names, files.table[fd], files.disk[files.table[fd]] + b); }
      }
      files.Write(fd, dma.buf[..n]);
    }

    // open(file_name, O_CREAT | O_TRUNC) for the next number; the number is used up either way
    method OpenNext(t: Time, offered: int)
      requires Valid() && At() == -1
      modifies this`number, this`file, this`fd, this`names, this`stamps, files
      ensures Valid() && names == old(names) + (if fd >= 0 then [file] else [])
      ensures View() == old(View()).Opened(fd)
      ensures fd == if 0 <= offered < 0x8000_0000 && offered !in old(files.table) then offered else -1
      ensures Here() == old(Here()).Opened(t, fd)
    {
      hide Concat, BaseName, FileName, Shelved, AllOn, Contents;
      NewName(t);
      file := FileName(BaseName(dir, t, number), PulseStream);
      ContentsCreate(files.disk, names, file);
      ghost var calls, before := files.calls, files.Now();
      var n := files.Open(file, offered);
      fd := n;
      assert files.table == (if fd >= 0 then before.table[fd := file] else before.table);
      assert files.disk == (if fd >= 0 then before.disk[file := []] else before.disk);
      OneMore(calls, start, OpenAt(fd));
      if fd >= 0 {
        names, stamps := names + [file], stamps + [(t, number)];
      }
      number := number + 1;
    }

    // src/store.c:460-503
    method Start(newDir: string, t: Time, offered: int)
      requires Valid()
      modifies this, files
      ensures Valid() && readBytes == 0
      ensures View() == old(View()).Restarted().Opened(fd)
      ensures fd == if 0 <= offered < 0x8000_0000 && offered !in old(files.table) then offered else -1
      ensures Here() == Begins(Desk(newDir, 0, old(Here()).p), t, fd)
    {
      hide Concat, BaseName, FileName, Shelved;
      Forget(newDir);
      OpenNext(t, offered);
      if fd < 0 {
        number := 0;
      }
    }

    // A new session has no files yet; the number in use is simply forgotten.
    method Forget(newDir: string)
      requires Valid()
      modifies this
      ensures Valid() && At() == -1 && readBytes == 0 && names == [] && file == old(file)
      ensures Here() == Desk(newDir, 0, old(Here()).p)
      ensures View() == old(View()).Restarted()
    {
      hide Concat, BaseName, FileName, Shelved;
      readBytes, dir, number := 0, newDir, 0;
      names, stamps, start := [], [], |files.calls|;
      assert files.calls[start..] == [];
      EmptyShelf();
      assert Contents(files.disk, names) == [];
    }

    // src/store.c:505-531; the file is removed from disk if lseek finds it empty
    method Stop() returns (empty: bool)
      requires Valid()
      modifies this`names, this`stamps, files
      ensures Valid() && At() == -1
      ensures View() == Stopped(old(View()), empty)
      ensures old(At()) >= 0 ==> (empty <==> file in old(files.disk) && old(files.disk)[file] == [])
      ensures var p := old(Here()).p; Here() == old(Here()).(p := (if empty then p.Removed() else p).Closed(fd))
    {
      hide Concat, BaseName, FileName, Shelved;
      ghost var calls := files.calls;
      var length := files.Length(fd);
      OneMore(calls, start, SeekAt(fd));
      empty := length == 0;
      if empty {
        RemoveFile();
      }
      CloseFile();
    }

    method RemoveFile()
      requires Valid()
      modifies this`names, this`stamps, files`disk, files`calls
      ensures Valid() && fd == old(fd) && file == old(file)
      ensures View() == old(View()).Removed() && Here() == old(Here()).(p := old(Here()).p.Removed())
    {
      hide Concat, BaseName, FileName, Shelved;
      OneMore(files.calls, start, Remove);
      if Named() { ContentsRemove(files.disk, names); } else { ContentsElsewhere(files.disk, names, file, []); }
      files.Unlink(file);
      if Named() {
        names, stamps := names[..|names| - 1], stamps[..|stamps| - 1];
      }
    }

    // close(fd)
    method CloseFile()
      requires Valid()
      modifies files`table, files`calls
      ensures Valid() && At() == -1
      ensures View() == old(View()).Closed() && Here() == old(Here()).(p := old(Here()).p.Closed(fd))
    {
      hide Concat, BaseName, FileName, Shelved;
      OneMore(files.calls, start, CloseAt(fd));
      files.Close(fd);
    }

    // src/store.c:539-540
    method Deliver(t: Transfer)
      requires Valid() && readBytes < IFD_WRITE_MN
      modifies this`readBytes, dma, dma.buf
      ensures Valid()
      ensures View() == old(View()).Delivered(t.Dma())
    {
      hide Concat, BaseName, FileName, Shelved;
      One(t);
      ghost var before := dma.buf[..];
      var ret := dma.IoctlRead(readBytes, DMA_TRANS_SIZE, [t]);
      assert dma.buf[..] == before[..readBytes] + t.Memory() + before[readBytes + 0x8000..];
      assert dma.buf[..readBytes + ret] == if t.Done? then before[..readBytes] + t.chunk else before[..readBytes];
      readBytes := readBytes + ret;
    }

    // src/store.c:543-550
    method FlushIfFull()
      requires Valid()
      modifies this`readBytes, files`disk, files`calls
      ensures Valid() && readBytes < IFD_WRITE_MN
      ensures View() == old(View()).Flushed()
      ensures Here() == if old(readBytes) == IFD_WRITE_MN && fd > 0
                        then old(Here()).(p := old(Here()).p.Written(fd, dma.buf[..IFD_WRITE_MN])) else old(Here())
    {
      hide Concat, BaseName, FileName, Shelved;
      if readBytes == IFD_WRITE_MN {
        if fd > 0 {
          Write(IFD_WRITE_MN);
        }
        readBytes := 0;
      }
    }

    // src/store.c:557-564
    method CloseSlice()
      requires Valid()
      modifies files
      ensures Valid() && At() == -1
      ensures View() == old(View()).Drained().Padded().Closed()
      ensures var p := old(Here()).p;
        Here() == old(Here()).(p := (if readBytes > 0 then p.Written(fd, dma.buf[..readBytes]) else p).Closed(fd))
      ensures old(At()) >= 0 ==> file in old(files.disk)
      ensures old(At()) >= 0 ==> files.disk == old(files.disk)[file := old(files.disk)[file] + dma.buf[..readBytes]]
    {
      hide Concat, BaseName, FileName, Shelved;
      if readBytes > 0 {
        Write(readBytes);
      } else {
        assert dma.buf[..0] == [];
        assert At() >= 0 ==> files.disk[file] + [] == files.disk[file];
        assert At() >= 0 ==> files.disk == files.disk[file := files.disk[file]];
      }
      ghost var calls := files.calls;
      files.PadAndTruncate(fd, dma.buf[..IFD_WRITE_MN]);
      OneMore(calls, start, PadAt(fd));
      CloseFile();
    }

    // src/store.c:557-597
    method Turn(t: Time, offered: int)
      requires Valid()
      modifies this`readBytes, this`number, this`file, this`fd, this`names, this`stamps, files
      ensures Valid() && readBytes <= old(readBytes)
      ensures View() == Turned(old(View()), fd)
      ensures var p, n := old(Here()).p, old(fd);
        var q := (if old(readBytes) > 0 then p.Written(n, old(dma.buf[..readBytes])) else p).Closed(n);
        Here() == old(Here()).(p := q).Opened(t, fd)
    {
      hide Concat, BaseName, FileName, Shelved, Desk.Opened, Volume.Closed, Volume.Written, AllOn, Contents;
      CloseSlice();
      OpenNext(t, offered);
      if fd >= 0 {
        readBytes := 0;
        assert dma.buf[..readBytes] == [];
      }
    }

    // src/store.c:460-531; ok says that no open failed
    method HandleCommands(r: Reads) returns (q: Reads, ok: bool)
      requires Valid() && readBytes < IFD_WRITE_MN
      modifies this, files
      ensures Valid() && readBytes < IFD_WRITE_MN && q == r.(startFd := q.startFd, empty := q.empty)
      ensures ok <==> !(q.star && q.startFd < 0)
      ensures View() == if ok then Settled(old(View()), q) else Begun(old(View()), q)
      ensures Here() == if ok then Commanded(old(Here()), old(View()), q) else Started(old(Here()), q)
    {
      hide Concat, BaseName, FileName, Shelved;
      q, ok := r, true;
      if r.star {
        Start(r.dir, r.startTime, r.startFd);
        q := q.(startFd := fd);
        ok := fd >= 0;
      }
      if ok && r.stop {
        var empty := Stop();
        q := q.(empty := empty);
      }
    }

    // src/store.c:534-598
    method Receive(r: Reads, ghost d: PulseData) returns (q: Reads)
      requires Valid() && readBytes < IFD_WRITE_MN && View() == Settled(d, r)
      modifies this, dma, dma.buf, files
      ensures Valid() && readBytes < IFD_WRITE_MN && q == r.(cutFd := q.cutFd)
      ensures View() == if r.cut then Turned(Saved(d, q), q.cutFd) else Saved(d, q)
      ensures Here() == Stored(old(Here()), d, q)
    {
      hide Concat, BaseName, FileName, Shelved, Settled;
      q := r;
      if r.fifo {
        Deliver(r.transfer);
      }
      FlushIfFull();
      if r.cut {
        Turn(r.cutTime, r.cutFd);
        q := q.(cutFd := fd);
      }
      SameSettled(d, r, q);
    }

    // One turn of the while loop, from whatever the shared flags read as; q is r with what the
    // system answered.
    method Iterate(r: Reads) returns (q: Reads)
      requires Valid() && readBytes < IFD_WRITE_MN
      modifies this, dma, dma.buf, files
      ensures Valid() && readBytes < IFD_WRITE_MN && r.Answered(q)
      ensures View() == Iterated(old(View()), q) && Here() == Placed(old(Here()), old(View()), q)
    {
      hide Concat, BaseName, FileName, Shelved, Turned, Stored;
      var ok;
      q, ok := HandleCommands(r);
      if ok && !r.stored {
        q := Receive(q, old(View()));
      }
    }

    // The while loop, for as long as one cares to watch it.
    method Run(rs: seq<Reads>) returns (qs: seq<Reads>)
      requires Valid() && readBytes < IFD_WRITE_MN
      modifies this, dma, dma.buf, files
      ensures Valid() && readBytes < IFD_WRITE_MN
      ensures |qs| == |rs| && forall i :: 0 <= i < |rs| ==> rs[i].Answered(qs[i])
      ensures View() == Ran(old(View()), qs) && Here() == PlacedBy(old(Here()), old(View()), qs)
    {
      hide Concat, BaseName, FileName, Shelved, Iterated, Placed;
      var i := 0;
      qs := [];
      while i < |rs|
        invariant i == |qs| <= |rs|
        invariant Valid() && readBytes < IFD_WRITE_MN
        invariant forall k :: 0 <= k < i ==> rs[k].Answered(qs[k])
        invariant View() == Ran(old(View()), qs) && Here() == PlacedBy(old(Here()), old(View()), qs)
      {
        var q := Iterate(rs[i]);
        assert (qs + [q])[..i] == qs;
        qs := qs + [q];
        i := i + 1;
      }
    }
  }
}
