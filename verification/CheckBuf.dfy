// check_buf (src/udmabuf.c:29-49): fill a buffer with a pattern in blocks of up to 256 bytes
// and read it back, nine times.
module CheckBuf {
  import opened Common

  // Memory in which some cells may be stuck at a value.
  class Memory {
    const cells: array<byte>
    const stuck: map<nat, byte>
    ghost var writes: seq<nat>    // the addresses written, in order

    constructor (size: nat, stuck: map<nat, byte>)
      ensures fresh(cells) && cells.Length == size && this.stuck == stuck && writes == []
    {
      cells := new byte[size](_ => 0);
      this.stuck := stuck;
      writes := [];
    }

    method Write(j: nat, v: byte)
      requires j < cells.Length
      modifies this`writes, cells
      ensures writes == old(writes) + [j]
      ensures cells[j] == v && forall k :: 0 <= k < cells.Length && k != j ==> cells[k] == old(cells[k])
    {
      cells[j] := v;
      writes := writes + [j];
    }

    function Read(j: nat): byte
      requires j < cells.Length
      reads cells
    {
      if j in stuck then stuck[j] else cells[j]
    }
  }

  function Pattern(j: nat): byte { (j % 256) as byte }

  predicate Faulty(stuck: map<nat, byte>, j: nat) {
    j in stuck && stuck[j] != Pattern(j)
  }

  // Faulty cells among the first n.
  function Faults(stuck: map<nat, byte>, n: nat): nat {
    if n == 0 then 0 else Faults(stuck, n - 1) + (if Faulty(stuck, n - 1) then 1 else 0)
  }

  lemma {:induction false} FaultsCount(stuck: map<nat, byte>, n: nat)
    ensures Faults(stuck, n) == |set j | 0 <= j < n && Faulty(stuck, j)|
  {
    var s := set j | 0 <= j < n && Faulty(stuck, j);
    if n > 0 {
      FaultsCount(stuck, n - 1);
      var t := set j | 0 <= j < n - 1 && Faulty(stuck, j);
      assert s == if Faulty(stuck, n - 1) then t + {n - 1} else t;
    } else {
      assert s == {};
    }
  }

  function Addresses(lo: nat, hi: nat): seq<nat>
    requires lo <= hi
  {
    seq(hi - lo, k => lo + k)
  }

  lemma AddressesSnoc(lo: nat, hi: nat)
    requires lo <= hi
    ensures Addresses(lo, hi + 1) == Addresses(lo, hi) + [hi]
  {
  }

  // One block: m bytes from i on, written and then read back.
  method Block(mem: Memory, i: nat, m: nat) returns (errors: nat)
    requires i % 256 == 0 && m <= 256 && i + m <= mem.cells.Length
    requires forall j :: 0 <= j < i ==> mem.cells[j] == Pattern(j)
    modifies mem`writes, mem.cells
    ensures forall j :: 0 <= j < i + m ==> mem.cells[j] == Pattern(j)
    ensures mem.writes == old(mem.writes) + Addresses(i, i + m)
    ensures errors == Faults(mem.stuck, i + m) - Faults(mem.stuck, i)
  {
    Fill(mem, i, m);
    errors := Verify(mem, i, m);
  }

  method Fill(mem: Memory, i: nat, m: nat)
    requires i % 256 == 0 && m <= 256 && i + m <= mem.cells.Length
    modifies mem`writes, mem.cells
    ensures forall j :: 0 <= j < i ==> mem.cells[j] == old(mem.cells[j])
    ensures forall j :: i <= j < i + m ==> mem.cells[j] == Pattern(j)
    ensures mem.writes == old(mem.writes) + Addresses(i, i + m)
  {
    assert Addresses(i, i) == [];
    hide Addresses;
    var k := 0;
    while k < m
      invariant k <= m
      invariant forall j :: 0 <= j < i ==> mem.cells[j] == old(mem.cells[j])
      invariant forall j :: i <= j < i + k ==> mem.cells[j] == Pattern(j)
      invariant mem.writes == old(mem.writes) + Addresses(i, i + k)
    {
      mem.Write(i + k, (k % 256) as byte);
      AddressesSnoc(i, i + k);
      k := k + 1;
    }
  }

  method Verify(mem: Memory, i: nat, m: nat) returns (errors: nat)
    requires i % 256 == 0 && m <= 256 && i + m <= mem.cells.Length
    requires forall j :: i <= j < i + m ==> mem.cells[j] == Pattern(j)
    ensures errors == Faults(mem.stuck, i + m) - Faults(mem.stuck, i)
  {
    errors := 0;
    var k := 0;
    while k < m
      invariant k <= m
      invariant errors == Faults(mem.stuck, i + k) - Faults(mem.stuck, i)
    {
      if mem.Read(i + k) != (k % 256) as byte {
        errors := errors + 1;
      }
      k := k + 1;
    }
  }

  // One pass of blocks over the whole buffer; the last block may be shorter.
  method Pass(mem: Memory) returns (errors: nat)
    modifies mem`writes, mem.cells
    ensures mem.writes == old(mem.writes) + Addresses(0, mem.cells.Length)
    ensures forall j :: 0 <= j < mem.cells.Length ==> mem.cells[j] == Pattern(j)
    ensures errors == Faults(mem.stuck, mem.cells.Length)
  {
    var size := mem.cells.Length;
    errors := 0;
    var i := 0;
    while i < size
      invariant i <= size && (i % 256 == 0 || i == size)
      invariant forall j :: 0 <= j < i ==> mem.cells[j] == Pattern(j)
      invariant mem.writes == old(mem.writes) + Addresses(0, i)
      invariant errors == Faults(mem.stuck, i)
    {
      var m := if i + 256 < size then 256 else size - i;
      var e := Block(mem, i, m);
      errors := errors + e;
      assert Addresses(0, i + m) == Addresses(0, i) + Addresses(i, i + m);
      i := i + m;
    }
  }

  // n copies of one pass over all addresses.
  function Passes(size: nat, n: nat): seq<nat> {
    if n == 0 then [] else Passes(size, n - 1) + Addresses(0, size)
  }

  // check_buf.
  method Check(mem: Memory) returns (errors: nat)
    modifies mem`writes, mem.cells
    // every address is written once in each pass, in order
    ensures mem.writes == old(mem.writes) + Passes(mem.cells.Length, 9)
    ensures forall j :: 0 <= j < mem.cells.Length ==> mem.cells[j] == Pattern(j)
    // each faulty cell is counted once in each pass, and nothing else is
    ensures errors == 9 * Faults(mem.stuck, mem.cells.Length)
    // so faithful memory shows none
    ensures mem.stuck == map[] ==> errors == 0
  {
    hide Faults, Addresses, Pattern;
    var n := 10;
    errors := 0;
    ghost var faults := Faults(mem.stuck, mem.cells.Length);
    n := n - 1;
    while n > 0
      invariant 0 <= n <= 9
      invariant mem.writes == old(mem.writes) + Passes(mem.cells.Length, 9 - n)
      invariant n < 9 ==> forall j :: 0 <= j < mem.cells.Length ==> mem.cells[j] == Pattern(j)
      invariant errors + n * faults == 9 * faults
    {
      var e := Pass(mem);
      errors := errors + e;
      n := n - 1;
    }
    FaithfulMemory(mem.cells.Length);
  }

  // Faithful memory has no faulty cells.
  lemma {:induction false} FaithfulMemory(n: nat)
    ensures Faults(map[], n) == 0
  {
    if n > 0 {
      FaithfulMemory(n - 1);
    }
  }
}
