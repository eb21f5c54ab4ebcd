// index_recv_routine as it runs (src/store.c:271-352), with the copy out of the BRAM
// (src/ubram.c:66-76).
module IndexReceiver {
  import opened Common
  import opened Naming
  import opened Descriptors
  import opened Kernel

  const INDEX_BUFFER: nat := 0x100000

  // What one iteration reads; empty is the test at src/store.c:288, name what the ring of names
  // holds, altAgain the second reading of chan0_index_alt, openFd what open returns.
  datatype Reads = Reads(
    stop: bool, empty: bool, indexed: bool, valid: bool, page: Page, alt: bool, mark: bool, name: string, openFd: int,
    altAgain: bool, cut: bool, endSeen: bool)
  {
    predicate Opens() { alt && !mark }

    function Took(): seq<Page> { if valid && !indexed then [page] else [] }
  }

  // The first page of the buffer, the pending count, the number in use and the calls made.
  datatype Held = Held(front: Page, ret: nat, fd: int, calls: seq<Call>) {
    function Made(c: Call): Held { this.(calls := calls + [c]) }
  }

  // The stages of one iteration.
  function Compared(h: Held, r: Reads): Held { if r.empty then h.Made(Remove) else h }

  function Settled(h: Held, r: Reads): Held {
    if r.stop then Compared(h, r).(ret := 0).Made(CloseAt(h.fd)) else h
  }

  // STOP comes before the open.
  lemma SameSettled(h: Held, r: Reads, q: Reads)
    requires q == r.(openFd := q.openFd)
    ensures Settled(h, q) == Settled(h, r)
  {
  }

  function Filled(h: Held, r: Reads): Held {
    if r.valid then Settled(h, r).(front := r.page, ret := BRAM_SIZE) else Settled(h, r)
  }

  function Opened(h: Held, r: Reads): Held {
    if r.Opens() then Filled(h, r).(fd := r.openFd).Made(OpenAt(r.openFd)) else Filled(h, r)
  }

  function Iterated(h: Held, r: Reads): Held {
    if r.indexed then Settled(h, r)
    else if r.Opens() && r.openFd < 0 then Opened(h, r)
    else
      var d := Saved(Opened(h, r), r.altAgain);
      if r.cut then d.(ret := 0).Made(CloseAt(d.fd)) else d
  }

  // What one iteration does to the thread's file_name and to the disk.
  function Placed(p: Place, h: Held, r: Reads): Place {
    var a := if r.stop then (if r.empty then p.Removed() else p).Closed(h.fd) else p;
    if r.indexed then a else Stored(a, h, r)
  }

  function Stored(p: Place, h: Held, r: Reads): Place {
    var b := if r.Opens() then p.Opened(FileName(r.name, IndexStream), r.openFd) else p;
    if r.Opens() && r.openFd < 0 then b else
    var d := Opened(h, r);
    var c := if d.ret == IDX_WRITE_THRESHOLD && !r.altAgain then b.Written(d.fd, d.front) else b;
    if r.cut then c.Closed(d.fd) else c
  }

  function PlacedBy(p: Place, h: Held, rs: seq<Reads>): Place {
    if rs == [] then p else
    var n := |rs| - 1;
    Placed(PlacedBy(p, h, rs[..n]), Ran(h, rs[..n]), rs[n])
  }

  // src/store.c:325-332
  function Saved(h: Held, alt: bool): Held {
    if h.ret != IDX_WRITE_THRESHOLD then h
    else if alt then h.(ret := 0) else h.(ret := 0).Made(PutAt(h.fd, h.front))
  }

  function Ran(h: Held, rs: seq<Reads>): Held {
    if rs == [] then h else Iterated(Ran(h, rs[..|rs| - 1]), rs[|rs| - 1])
  }

  // The pages these iterations take, whether or not a file is open for them.
  function Taken(rs: seq<Reads>): seq<Page> {
    if rs == [] then [] else Taken(rs[..|rs| - 1]) + rs[|rs| - 1].Took()
  }

  // A write for each page.
  function Puts(fd: int, pages: seq<Page>): seq<Call> {
    seq(|pages|, i requires 0 <= i < |pages| => PutAt(fd, pages[i]))
  }

  // The file stays open throughout the iteration.
  predicate Steady(r: Reads) { !r.stop && !r.indexed && !r.alt && !r.altAgain && !r.cut }

  lemma IterationKeepsPage(h: Held, r: Reads)
    requires h.ret == 0 && Steady(r)
    ensures var n := Iterated(h, r); n.ret == 0 && n.fd == h.fd && n.calls == h.calls + Puts(h.fd, r.Took())
  {
  }

  // While a file stays open, each page that the hardware offers is written to its number
  // whole, once and in order.
  lemma {:induction false} RunKeepsPages(h: Held, rs: seq<Reads>)
    requires h.ret == 0 && forall r <- rs :: Steady(r)
    ensures Ran(h, rs).ret == 0 && Ran(h, rs).fd == h.fd && Ran(h, rs).calls == h.calls + Puts(h.fd, Taken(rs))
  {
    hide Iterated, Steady;
    if rs != [] {
      var n := |rs| - 1;
      RunKeepsPages(h, rs[..n]);
      IterationKeepsPage(Ran(h, rs[..n]), rs[n]);
      assert Puts(h.fd, Taken(rs)) == Puts(h.fd, Taken(rs[..n])) + Puts(h.fd, rs[n].Took());
    }
  }

  class Receiver {
    const buffer: array<byte>
    const files: Files
    var recv: nat
    var ret: nat
    var fd: int
    var file: string

    constructor (files: Files)
      ensures Valid() && fresh(buffer) && this.files == files && file == ""
      ensures View().(front := View().front) == Held(View().front, 0, 0, files.calls)
    {
      buffer := new byte[INDEX_BUFFER](_ => 0);
      this.files := files;
      recv, ret, fd, file := 0, 0, 0, "";
    }

    ghost predicate Valid()
      reads this
    {
      buffer.Length == INDEX_BUFFER && recv == 0 && (ret == 0 || ret == BRAM_SIZE)
    }

    ghost function View(): Held
      requires Valid()
      reads this, buffer, files
    {
      Held(buffer[..BRAM_SIZE], ret, fd, files.calls)
    }

    function Here(): Place
      reads this, files
    {
      Place(file, files.Now())
    }

    // ubram_read: nothing is copied when more than the BRAM is asked for.
    method UbramRead(bram: Page, offset: nat, size: nat) returns (n: nat)
      requires offset + size <= buffer.Length
      modifies buffer
      ensures n == if size > BRAM_SIZE then 0 else size
      ensures buffer[..] == old(buffer[..offset]) + bram[..n] + old(buffer[offset + n..])
    {
      if size > BRAM_SIZE {
        return 0;
      }
      var k := 0;
      while k < size
        invariant k <= size
        invariant forall j :: 0 <= j < k ==> buffer[offset + j] == bram[j]
        invariant forall j :: 0 <= j < buffer.Length && !(offset <= j < offset + k) ==> buffer[j] == old(buffer[j])
      {
        buffer[offset + k] := bram[k];
        k := k + 1;
      }
      n := size;
    }

    // src/store.c:288-297
    method Stop(empty: bool)
      requires Valid()
      modifies this`recv, this`ret, files
      ensures Valid()
      ensures View() == (if empty then old(View()).Made(Remove) else old(View())).(ret := 0).Made(CloseAt(fd))
      ensures Here() == (if empty then old(Here()).Removed() else old(Here())).Closed(fd)
    {
      if empty {
        files.Unlink(file);
      }
      CloseFile();
    }

    // src/store.c:290-297 and 339-341
    method CloseFile()
      requires Valid()
      modifies this`recv, this`ret, files
      ensures Valid() && View() == old(View()).(ret := 0).Made(CloseAt(fd)) && Here() == old(Here()).Closed(fd)
    {
      recv, ret := 0, 0;
      files.Close(fd);
    }

    // src/store.c:305
    method Take(page: Page)
      requires Valid()
      modifies this`ret, buffer
      ensures Valid() && View() == old(View()).(front := page, ret := BRAM_SIZE)
    {
      ret := UbramRead(page, recv, BRAM_SIZE);
      assert buffer[..BRAM_SIZE] == page;
    }

    // src/store.c:325-332
    method Save(alt: bool)
      requires Valid()
      modifies this`recv, this`ret, files`disk, files`calls
      ensures Valid() && ret == 0 && View() == Saved(old(View()), alt)
      ensures Here() == if old(ret) == BRAM_SIZE && !alt then old(Here()).Written(fd, buffer[..BRAM_SIZE])
                        else old(Here())
    {
      recv := recv + ret;
      if recv == IDX_WRITE_THRESHOLD {
        if !alt {
          files.Write(fd, buffer[..IDX_WRITE_THRESHOLD]);
        }
        recv, ret := 0, 0;
      }
    }

    // src/store.c:301-347. recv_bytes is 0 whenever a cut is looked for, so the comparison
    // with the end identifier never decides anything.
    method Receive(r: Reads, ghost h: Held) returns (q: Reads)
      requires Valid() && View() == Settled(h, r) && !r.indexed
      modifies this, buffer, files
      ensures Valid() && q == r.(openFd := q.openFd)
      ensures View() == Iterated(h, q) && Here() == Stored(old(Here()), h, q)
    {
      hide Saved, Settled;
      q := r;
      if r.valid {
        Take(r.page);
      }
      if r.alt && !r.mark {
        file := FileName(r.name, IndexStream);
        fd := files.Open(file, r.openFd);
        q := q.(openFd := fd);
        SameSettled(h, r, q);
        if fd < 0 {
          return;
        }
        recv := 0;
      }
      Save(r.altAgain);
      if r.cut {
        if recv == 0 || r.endSeen {
          CloseFile();
        }
      }
    }

    // One turn of the while loop; q is r with what open returned.
    method Iterate(r: Reads) returns (q: Reads)
      requires Valid()
      modifies this, buffer, files
      ensures Valid() && q == r.(openFd := q.openFd)
      ensures View() == Iterated(old(View()), q) && Here() == Placed(old(Here()), old(View()), q)
    {
      hide Saved, Stored;
      q := r;
      if r.stop {
        Stop(r.empty);
      }
      if !r.indexed {
        q := Receive(r, old(View()));
      }
    }

    method Run(rs: seq<Reads>) returns (qs: seq<Reads>)
      requires Valid()
      modifies this, buffer, files
      ensures Valid()
      ensures |qs| == |rs| && forall i :: 0 <= i < |rs| ==> qs[i] == rs[i].(openFd := qs[i].openFd)
      ensures View() == Ran(old(View()), qs) && Here() == PlacedBy(old(Here()), old(View()), qs)
    {
      hide Iterated, Placed;
      var i := 0;
      qs := [];
      while i < |rs|
        invariant i == |qs| <= |rs|
        invariant Valid()
        invariant forall k :: 0 <= k < i ==> qs[k] == rs[k].(openFd := qs[k].openFd)
        invariant View() == Ran(old(View()), qs) && Here() == PlacedBy(old(Here()), old(View()), qs)
      {
        var q := Iterate(rs[i]);
        assert (qs + [q])[..i] == qs;
        qs := qs + [q];
        i := i + 1;
      }
    }
  }
}
