// Constants, byte strings and concatenation shared by the whole model.
module Common {

  newtype byte = x: int | 0 <= x < 256

  type Bytes = seq<byte>

  datatype Option<+T> = None | Some(value: T)

  // src/store.c:28, 38, 39, 41, 57; src/ubram.h:17; src/udma.c:39; src/ummap.c:248
  const MAX_FILE_COUNT: nat := 1000000
  const IDX_WRITE_THRESHOLD: nat := 0x2000
  const DMA_TRANS_SIZE: nat := 0x8000
  const IFD_WRITE_MN: nat := 0x60000
  const CYC_MARK: nat := 128
  const BRAM_SIZE: nat := 0x2000
  const BUFFER_SIZE: nat := 0x200000
  const CHECKED_PAGES: nat := 96
  const TWO32: nat := 0x1_0000_0000
  const TWO64: nat := 0x1_0000_0000_0000_0000

  // What one successful DMA transfer puts into a staging buffer.
  type Chunk = c: Bytes | |c| == DMA_TRANS_SIZE witness seq(DMA_TRANS_SIZE, i => 0)

  // What the hardware publishes in the index BRAM.
  type Page = p: Bytes | |p| == BRAM_SIZE witness seq(BRAM_SIZE, i => 0)

  function Concat(parts: seq<Bytes>): Bytes {
    if parts == [] then [] else Concat(parts[..|parts| - 1]) + parts[|parts| - 1]
  }

  lemma ConcatSnoc(parts: seq<Bytes>, b: Bytes)
    ensures Concat(parts + [b]) == Concat(parts) + b
  {
    assert (parts + [b])[..|parts|] == parts;
  }

  // Appending to the last part appends to the concatenation.
  lemma ConcatGrowLast(parts: seq<Bytes>, b: Bytes)
    requires parts != []
    ensures Concat(parts[|parts| - 1 := parts[|parts| - 1] + b]) == Concat(parts) + b
  {
    var n := |parts| - 1;
    var grown := parts[n := parts[n] + b];
    assert grown[..n] == parts[..n];
    assert Concat(grown) == Concat(parts[..n]) + (parts[n] + b);
  }

  lemma {:induction false} ConcatOfPages(pages: seq<Page>)
    ensures |Concat(pages)| == BRAM_SIZE * |pages|
  {
    if pages != [] {
      ConcatOfPages(pages[..|pages| - 1]);
    }
  }
}
