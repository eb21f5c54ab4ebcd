// One DMA channel: its staging buffer and its counters (src/udma.c:74-76 and 445-479).
module Dma {
  import opened Common

  // What one ioctl does to its part of the buffer. A failed or short transfer may leave
  // anything there, and counts for nothing.
  datatype Transfer = Done(chunk: Chunk) | Failed(left: Chunk) {
    function Memory(): Chunk { if Done? then chunk else left }

    function Dma(): Option<Chunk> { if Done? then Some(chunk) else None }
  }

  // A transfer of which only the outcome is known.
  function Outcome(dma: Option<Chunk>): (t: Transfer)
    ensures t.Dma() == dma
  {
    if dma.Some? then Done(dma.value) else Failed(seq(DMA_TRANS_SIZE, i => 0))
  }

  function Successes(ts: seq<Transfer>): nat {
    if ts == [] then 0 else Successes(ts[..|ts| - 1]) + (if ts[|ts| - 1].Done? then 1 else 0)
  }

  // What a run of transfers leaves in memory, each in its own place.
  function Image(ts: seq<Transfer>): (b: Bytes)
    ensures |b| == 0x8000 * |ts|
  {
    if ts == [] then [] else Image(ts[..|ts| - 1]) + ts[|ts| - 1].Memory()
  }

  // b with patch written over it at offset.
  function Patched(b: Bytes, offset: nat, patch: Bytes): Bytes
    requires offset + |patch| <= |b|
  {
    b[..offset] + patch + b[offset + |patch|..]
  }

  lemma Extended(b: Bytes, c: Bytes, pos: nat, image: Bytes, m: Chunk)
    requires pos + |image| + |m| <= |b| && c == Patched(b, pos, image)
    ensures Patched(c, pos + |image|, m) == Patched(b, pos, image + m)
  {
  }

  // The number of turns of "for (bytes = 0; bytes < len; bytes += DMA_TRANS_SIZE)".
  function Turns(len: nat): (n: nat)
    ensures 0x8000 * n - 0x8000 < len <= 0x8000 * n
  {
    (len + 0x7fff) / 0x8000
  }

  lemma One(t: Transfer)
    ensures Image([t]) == t.Memory() && Successes([t]) == if t.Done? then 1 else 0
  {
    assert [t][..0] == [] && Image([t][..0]) == [];
  }

  lemma ModPlus(q: nat, n: nat)
    ensures (q * TWO32 + n) % TWO32 == n % TWO32
  {
    var d, m := n / TWO32, n % TWO32;
    assert q * TWO32 + n == (q + d) * TWO32 + m;
  }

  class DmaChannel {
    const buf: array<byte>
    var readable: nat
    var read: nat
    // Transfers asked for and completed and bytes reported since the process started.
    ghost var asked: nat
    ghost var completed: nat
    ghost var reported: nat

    ghost predicate Valid()
      reads this
    {
      && buf.Length == BUFFER_SIZE
      && read == completed % TWO32
      && readable == asked % TWO32
      && reported == 0x8000 * completed
    }

    constructor ()
      ensures Valid() && fresh(buf) && asked == 0 && completed == 0
    {
      buf := new byte[BUFFER_SIZE](_ => 0);
      readable, read, asked, completed, reported := 0, 0, 0, 0, 0;
    }

    // The wrapping counter and the bytes reported since the start agree modulo 2^32.
    lemma CountersAgree()
      requires Valid()
      ensures reported % TWO32 == (0x8000 * read) % TWO32
    {
      var q := completed / TWO32;
      assert completed == q * TWO32 + read;
      assert reported == (0x8000 * q) * TWO32 + 0x8000 * read;
      ModPlus(0x8000 * q, 0x8000 * read);
    }

    // dma_ioctl_read; transfers are the outcomes of the successive ioctl calls.
    method IoctlRead(pos: nat, len: nat, transfers: seq<Transfer>) returns (bytesRead: nat)
      requires Valid()
      requires |transfers| == Turns(len) && pos + 0x8000 * |transfers| <= BUFFER_SIZE
      modifies this, buf
      ensures Valid()
      ensures bytesRead == 0x8000 * Successes(transfers)
      ensures completed == old(completed) + Successes(transfers) && reported == old(reported) + bytesRead
      ensures asked == old(asked) + |transfers|
      ensures buf[..] == Patched(old(buf[..]), pos, Image(transfers))
    {
      bytesRead := 0;
      var bytes := 0;
      var n := 0;  // turns so far
      while bytes < len
        invariant n <= |transfers| && bytes == 0x8000 * n
        invariant Valid()
        invariant bytesRead == 0x8000 * Successes(transfers[..n])
        invariant completed == old(completed) + Successes(transfers[..n]) && reported == old(reported) + bytesRead
        invariant asked == old(asked) + n
        invariant buf[..] == Patched(old(buf[..]), pos, Image(transfers[..n]))
        decreases len - bytes
      {
        ghost var before := buf[..];
        var got := Ioctl(pos + bytes, transfers[n]);
        assert transfers[..n + 1][..n] == transfers[..n];
        Extended(old(buf[..]), before, pos, Image(transfers[..n]), transfers[n].Memory());
        bytesRead := bytesRead + got;
        bytes := bytes + DMA_TRANS_SIZE;
        n := n + 1;
      }
      assert transfers[..n] == transfers;
    }

    // The device writes one transfer into memory.
    method Fill(offset: nat, m: Chunk)
      requires buf.Length == BUFFER_SIZE && offset + |m| <= BUFFER_SIZE
      modifies buf
      ensures buf[..] == Patched(old(buf[..]), offset, m)
    {
      forall k | 0 <= k < |m| {
        buf[offset + k] := m[k];
      }
    }

    // One turn: the device writes its part of the buffer and the counters follow.
    method Ioctl(offset: nat, t: Transfer) returns (got: nat)
      requires Valid() && offset + 0x8000 <= BUFFER_SIZE
      modifies this, buf
      ensures Valid()
      ensures got == if t.Done? then 0x8000 else 0
      ensures completed == old(completed) + (if t.Done? then 1 else 0) && reported == old(reported) + got
      ensures asked == old(asked) + 1
      ensures buf[..] == Patched(old(buf[..]), offset, t.Memory())
    {
      readable, asked := (readable + 1) % TWO32, asked + 1;
      Fill(offset, t.Memory());
      got := 0;
      if t.Done? {
        read := (read + 1) % TWO32;
        got := DMA_TRANS_SIZE;
        completed, reported := completed + 1, reported + DMA_TRANS_SIZE;
      }
    }
  }
}
