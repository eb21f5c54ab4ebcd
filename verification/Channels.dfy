// What one receiver thread does to its own variables, and the system calls it makes, as
// functions on values. The protocol uses them as the effects of its atomic steps; the
// classes in PulseReceiver.dfy and MainReceiver.dfy prove that the array code computes them.
module Channels {
  import opened Common
  import opened Descriptors

  // fd[] is an array of uint32_t (src/store.c:75): the int that a call gets for an element.
  function AsDescriptor(fd: nat): int {
    if fd < 0x8000_0000 then fd else fd - TWO32
  }

  // Locals of chan_recv_routine (src/store.c:358-362), fd[0], and the calls made so far.
  datatype MainData = MainData(staged: Bytes, fileRead: nat, writeDisk: nat, fd: nat, calls: seq<Call>) {

    // src/store.c:390-391; a failure is stored as 0xffffffff, which is not below 0
    function Opened(n: int): MainData { this.(fd := n % TWO32, calls := calls + [OpenAt(n)]) }

    // src/store.c:404-406; a failed transfer returns 0
    function Delivered(dma: Option<Chunk>): MainData {
      match dma
      case None => this
      case Some(c) => this.(staged := staged + c, fileRead := (fileRead + DMA_TRANS_SIZE) % TWO32)
    }

    // src/store.c:409-416; writing is the third reading of chan_slice_alt
    function Flushed(writing: bool): MainData {
      if |staged| != IFD_WRITE_MN then this
      else this.(staged := [], writeDisk := (writeDisk + IFD_WRITE_MN) % TWO64,
                 calls := if writing then calls + [PutAt(AsDescriptor(fd), staged)] else calls)
    }

    // src/store.c:419-423, the write before a cut closes the file
    function Drained(): MainData {
      if staged == [] then this
      else this.(writeDisk := (writeDisk + |staged|) % TWO64, calls := calls + [PutAt(AsDescriptor(fd), staged)])
    }

    // src/store.c:380 and 424
    function Closed(): MainData { this.(calls := calls + [CloseAt(AsDescriptor(fd))]) }

    // src/store.c:371
    function Removed(): MainData { this.(calls := calls + [Remove]) }

    // src/store.c:372-377 and 431-436
    function Cleared(): MainData { this.(staged := [], fileRead := 0, writeDisk := 0) }

    // file_read_bytes counts what was passed to write and what is staged, in 32 bits.
    ghost predicate Accounted() {
      fileRead == (writeDisk + |staged|) % TWO32
    }

    lemma DeliveredAccounts(dma: Option<Chunk>)
      requires Accounted()
      ensures Delivered(dma).Accounted()
    {
      Wraps(writeDisk + |staged|, DMA_TRANS_SIZE);
    }

    lemma FlushedAccounts(writing: bool)
      requires Accounted()
      ensures Flushed(writing).Accounted()
    {
    }
  }

  // An addition in 32 bits.
  lemma Wraps(a: nat, n: nat)
    ensures ((a % TWO32) + n) % TWO32 == (a + n) % TWO32
  {
  }

  // The number that a successful open returned comes back out of the unsigned array.
  lemma DescriptorKept(n: int)
    requires -1 <= n < 0x8000_0000
    ensures AsDescriptor(n % TWO32) == n
  {
  }

  // Locals of chan1_recv (src/store.c:448-453) and the calls made so far.
  datatype PulseData = PulseData(staged: Bytes, fd: int, calls: seq<Call>) {

    // src/store.c:462 and 593
    function Restarted(): PulseData { this.(staged := []) }

    // src/store.c:484 and 582
    function Opened(n: int): PulseData { this.(fd := n, calls := calls + [OpenAt(n)]) }

    // src/store.c:539-540
    function Delivered(dma: Option<Chunk>): PulseData {
      match dma
      case None => this
      case Some(c) => this.(staged := staged + c)
    }

    // src/store.c:543-550; the test fd > 0 also refuses the number 0
    function Flushed(): PulseData {
      if |staged| != IFD_WRITE_MN then this
      else this.(staged := [], calls := if fd > 0 then calls + [PutAt(fd, staged)] else calls)
    }

    // src/store.c:557-560
    function Drained(): PulseData {
      if staged == [] then this else this.(calls := calls + [PutAt(fd, staged)])
    }

    // src/store.c:561-563
    function Padded(): PulseData { this.(calls := calls + [PadAt(fd)]) }

    // src/store.c:529 and 564
    function Closed(): PulseData { this.(calls := calls + [CloseAt(fd)]) }

    // src/store.c:509
    function Sought(): PulseData { this.(calls := calls + [SeekAt(fd)]) }

    // src/store.c:514
    function Removed(): PulseData { this.(calls := calls + [Remove]) }
  }
}
