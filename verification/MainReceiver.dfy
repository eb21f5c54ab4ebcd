// chan_recv_routine as it runs (src/store.c:354-445), from whatever the shared flags read as.
module MainReceiver {
  import opened Common
  import opened Naming
  import opened Descriptors
  import opened Channels
  import opened Dma
  import opened Kernel

  // What one iteration reads; empty is the test at src/store.c:370, name what the ring of names
  // holds, alt, altAgain and altThird are the three readings of chan_slice_alt[0] at 386, 403
  // and 410, openFd is what open returns.
  datatype Reads = Reads(
    stop: bool, empty: bool, stored: bool, alt: bool, mark: bool, name: string, openFd: int, fifo: bool, altAgain: bool,
    transfer: Transfer, altThird: bool, cut: bool)

  // The stages of one iteration in terms of the steps of the protocol.
  function Compared(d: MainData, r: Reads): MainData { if r.empty then d.Removed() else d }

  function Settled(d: MainData, r: Reads): MainData { if r.stop then Compared(d, r).Cleared().Closed() else d }

  function Opened(d: MainData, r: Reads): MainData {
    if r.alt && !r.mark then Settled(d, r).Opened(r.openFd) else Settled(d, r)
  }

  function Received(d: MainData, r: Reads): MainData {
    var b := Opened(d, r);
    if r.fifo && !r.altAgain then b.Delivered(r.transfer.Dma()) else b
  }

  // STOP comes before the open.
  lemma SameSettled(d: MainData, r: Reads, q: Reads)
    requires q == r.(openFd := q.openFd)
    ensures Settled(d, q) == Settled(d, r)
  {
  }

  function Saved(d: MainData, r: Reads): MainData { Received(d, r).Flushed(!r.altThird) }

  function Iterated(d: MainData, r: Reads): MainData {
    if r.stored then Settled(d, r)
    else if r.cut then Saved(d, r).Drained().Closed().Cleared()
    else Saved(d, r)
  }

  // What one iteration does to the thread's file_name and to the disk.
  function Placed(p: Place, d: MainData, r: Reads): Place {
    var a := if r.stop then (if r.empty then p.Removed() else p).Closed(AsDescriptor(d.fd)) else p;
    if r.stored then a else Stored(a, d, r)
  }

  function Stored(p: Place, d: MainData, r: Reads): Place {
    var b := if r.alt && !r.mark then p.Opened(FileName(r.name, MainStream), r.openFd) else p;
    var fd, full, left := AsDescriptor(Opened(d, r).fd), Received(d, r).staged, Saved(d, r).staged;
    var c := if |full| == IFD_WRITE_MN && !r.altThird then b.Written(fd, full) else b;
    if r.cut then (if left == [] then c else c.Written(fd, left)).Closed(fd) else c
  }

  function Ran(d: MainData, rs: seq<Reads>): MainData {
    if rs == [] then d else Iterated(Ran(d, rs[..|rs| - 1]), rs[|rs| - 1])
  }

  function PlacedBy(p: Place, d: MainData, rs: seq<Reads>): Place {
    if rs == [] then p else
    var n := |rs| - 1;
    Placed(PlacedBy(p, d, rs[..n]), Ran(d, rs[..n]), rs[n])
  }

  // The chunk an iteration takes from the DMA.
  function Took(r: Reads): Bytes {
    if !r.stored && r.fifo && !r.altAgain && r.transfer.Done? then r.transfer.chunk else []
  }

  function Taken(rs: seq<Reads>): Bytes {
    if rs == [] then [] else Taken(rs[..|rs| - 1]) + Took(rs[|rs| - 1])
  }

  ghost predicate Head(d: MainData) {
    d.Accounted() && |d.staged| % DMA_TRANS_SIZE == 0 && |d.staged| < IFD_WRITE_MN
  }

  lemma IterationAccounts(d: MainData, r: Reads)
    requires Head(d)
    ensures Head(Iterated(d, r))
  {
    if !r.stored {
      Opened(d, r).DeliveredAccounts(r.transfer.Dma());
      var c := Received(d, r);
      assert |c.staged| % DMA_TRANS_SIZE == 0 && |c.staged| <= IFD_WRITE_MN;
      c.FlushedAccounts(!r.altThird);
    }
  }

  // For any readings of the flags, failed opens and failed transfers included, the counters
  // agree at every loop head and the flush has left less than a threshold of bytes.
  lemma {:induction false} RunAccounts(d: MainData, rs: seq<Reads>)
    requires Head(d)
    ensures Head(Ran(d, rs))
  {
    hide Iterated, Head;
    if rs != [] {
      RunAccounts(d, rs[..|rs| - 1]);
      IterationAccounts(Ran(d, rs[..|rs| - 1]), rs[|rs| - 1]);
    }
  }

  class Receiver {
    const dma: DmaChannel
    const files: Files
    var readBytes: nat
    var fileReadBytes: nat
    var writeDiskBytes: nat
    var fd: nat               // fd[0], a uint32_t
    var file: string          // file_name

    constructor (files: Files)
      ensures Valid() && fresh(dma) && fresh(dma.buf) && this.files == files
      ensures View() == MainData([], 0, 0, 0, files.calls) && file == ""
    {
      dma := new DmaChannel();
      this.files := files;
      readBytes, fileReadBytes, writeDiskBytes, fd, file := 0, 0, 0, 0, "";
    }

    ghost predicate Valid()
      reads this, dma
    {
      dma.Valid() && readBytes % 0x8000 == 0 && readBytes <= IFD_WRITE_MN && fileReadBytes < TWO32
    }

    ghost function View(): MainData
      requires Valid()
      reads this, dma, dma.buf, files
    {
      MainData(dma.buf[..readBytes], fileReadBytes, writeDiskBytes, fd, files.calls)
    }

    function Here(): Place
      reads this, files
    {
      Place(file, files.Now())
    }

    // src/store.c:366-381
    method Stop(empty: bool)
      requires Valid()
      modifies this`readBytes, this`fileReadBytes, this`writeDiskBytes, files
      ensures Valid() && readBytes == 0
      ensures View() == (if empty then old(View()).Removed() else old(View())).Cleared().Closed()
      ensures Here() == (if empty then old(Here()).Removed() else old(Here())).Closed(AsDescriptor(fd))
    {
      if empty {
        files.Unlink(file);
      }
      readBytes, fileReadBytes, writeDiskBytes := 0, 0, 0;
      files.Close(AsDescriptor(fd));
    }

    // src/store.c:388-399. The number is stored unsigned, so the test for a negative one
    // never holds.
    method Open(name: string, offered: int) returns (n: int)
      requires Valid()
      modifies this`fd, this`file, files
      ensures Valid() && View() == old(View()).Opened(n) && (n == -1 || n == offered)
      ensures Here() == old(Here()).Opened(FileName(name, MainStream), n)
    {
      file := FileName(name, MainStream);
      n := files.Open(file, offered);
      fd := n % TWO32;
    }

    // src/store.c:404-406
    method Deliver(t: Transfer)
      requires Valid() && readBytes < IFD_WRITE_MN
      modifies this`readBytes, this`fileReadBytes, dma, dma.buf
      ensures Valid()
      ensures View() == old(View()).Delivered(t.Dma())
    {
      One(t);
      ghost var before := dma.buf[..];
      var ret := dma.IoctlRead(readBytes, DMA_TRANS_SIZE, [t]);
      assert dma.buf[..] == before[..readBytes] + t.Memory() + before[readBytes + 0x8000..];
      assert dma.buf[..readBytes + ret] == if t.Done? then before[..readBytes] + t.chunk else before[..readBytes];
      fileReadBytes := (fileReadBytes + ret) % TWO32;
      readBytes := readBytes + ret;
    }

    // src/store.c:409-416
    method FlushIfFull(alt: bool)
      requires Valid()
      modifies this`readBytes, this`writeDiskBytes, files`disk, files`calls
      ensures Valid() && readBytes < IFD_WRITE_MN
      ensures View() == old(View()).Flushed(!alt)
      ensures Here() == if old(readBytes) == IFD_WRITE_MN && !alt
                        then old(Here()).Written(AsDescriptor(fd), dma.buf[..IFD_WRITE_MN]) else old(Here())
    {
      if readBytes == IFD_WRITE_MN {
        if !alt {
          files.Write(AsDescriptor(fd), dma.buf[..IFD_WRITE_MN]);
        }
        readBytes := 0;
        writeDiskBytes := (writeDiskBytes + IFD_WRITE_MN) % TWO64;
      }
    }

    // src/store.c:418-436
    method Cut()
      requires Valid()
      modifies this`readBytes, this`fileReadBytes, this`writeDiskBytes, files
      ensures Valid() && readBytes == 0
      ensures View() == old(View()).Drained().Closed().Cleared()
      ensures var n, p := AsDescriptor(fd), old(Here());
        Here() == (if old(readBytes) > 0 then p.Written(n, old(dma.buf[..readBytes])) else p).Closed(n)
    {
      if readBytes > 0 {
        files.Write(AsDescriptor(fd), dma.buf[..readBytes]);
        writeDiskBytes := (writeDiskBytes + readBytes) % TWO64;
      }
      files.Close(AsDescriptor(fd));
      readBytes, fileReadBytes, writeDiskBytes := 0, 0, 0;
    }

    // src/store.c:386-438
    method Receive(r: Reads, ghost d: MainData) returns (q: Reads)
      requires Valid() && readBytes < IFD_WRITE_MN && View() == Settled(d, r) && !r.stored
      modifies this, dma, dma.buf, files
      ensures Valid() && readBytes < IFD_WRITE_MN && q == r.(openFd := q.openFd)
      ensures View() == Iterated(d, q) && Here() == Stored(old(Here()), d, q)
    {
      hide Settled;
      q := r;
      if r.alt && !r.mark {
        var n := Open(r.name, r.openFd);
        q := q.(openFd := n);
      }
      if r.fifo && !r.altAgain {
        Deliver(r.transfer);
      }
      assert View() == Received(d, q) by { SameSettled(d, r, q); }
      FlushIfFull(r.altThird);
      if r.cut {
        Cut();
      }
    }

    // One turn of the while loop; q is r with what open returned.
    method Iterate(r: Reads) returns (q: Reads)
      requires Valid() && readBytes < IFD_WRITE_MN
      modifies this, dma, dma.buf, files
      ensures Valid() && readBytes < IFD_WRITE_MN && q == r.(openFd := q.openFd)
      ensures View() == Iterated(old(View()), q) && Here() == Placed(old(Here()), old(View()), q)
    {
      hide Stored;
      q := r;
      if r.stop {
        Stop(r.empty);
      }
      if !r.stored {
        q := Receive(r, old(View()));
      }
    }

    method Run(rs: seq<Reads>) returns (qs: seq<Reads>)
      requires Valid() && readBytes < IFD_WRITE_MN
      modifies this, dma, dma.buf, files
      ensures Valid() && readBytes < IFD_WRITE_MN
      ensures |qs| == |rs| && forall i :: 0 <= i < |rs| ==> qs[i] == rs[i].(openFd := qs[i].openFd)
      ensures View() == Ran(old(View()), qs) && Here() == PlacedBy(old(Here()), old(View()), qs)
    {
      hide Iterated, Placed;
      var i := 0;
      qs := [];
      while i < |rs|
        invariant i == |qs| <= |rs|
        invariant Valid() && readBytes < IFD_WRITE_MN
        invariant forall k :: 0 <= k < i ==> qs[k] == rs[k].(openFd := qs[k].openFd)
        invariant View() == Ran(old(View()), qs) && Here() == PlacedBy(old(Here()), old(View()), qs)
      {
        var q := Iterate(rs[i]);
        assert (qs + [q])[..i] == qs;
        qs := qs + [q];
        i := i + 1;
      }
    }
  }
}
