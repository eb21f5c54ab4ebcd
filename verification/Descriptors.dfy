// Open files under descriptor numbers. The threads share one table of numbers, and nothing
// stops one thread from closing or writing a number that another one holds.
module Descriptors {
  import opened Common

  // Mn, Sy and Ls are the main, index and pulse receivers; Out is the rest of the process.
  datatype Who = Mn | Sy | Ls | Out

  // A system call with its arguments; OpenAt carries the result, -1 for a failure. PadAt is
  // lseek to the end, a write there and ftruncate back (src/store.c:561-563), SeekAt the
  // lseek of src/store.c:509, Remove the remove of file_name.
  datatype Call = OpenAt(n: int) | CloseAt(n: int) | PutAt(n: int, b: Bytes) | PadAt(n: int) | SeekAt(n: int) | Remove

  function Zeros(n: nat): Bytes { seq(n, i => 0) }

  // The file a thread opened last and has not closed itself. home is the number it is open
  // under, -1 if it is not open; gap is how far its offset lies behind its end. lost counts
  // the bytes its thread passed to writes that did not reach it, alien those that reached it
  // and were not its thread's to write, or were not new.
  datatype Track = Track(home: int, made: bool, bytes: Bytes, gap: nat, robbed: bool, lost: nat, alien: nat)
  {
    predicate Holds(n: int) { n >= 0 && home == n }

    function Grown(b: Bytes, stray: nat): Track {
      this.(bytes := bytes + Zeros(gap) + b, gap := 0, alien := alien + gap + stray)
    }

    // A call of the thread itself; the first past bytes it passes were passed before.
    function Own(c: Call, past: nat): Track {
      match c
      case OpenAt(n) => Track(if n >= 0 then n else -1, n >= 0, [], 0, false, 0, 0)
      case CloseAt(_) => CLOSED
      case PutAt(n, b) =>
        if Holds(n) then Grown(b, past) else this.(lost := lost + if past <= |b| then |b| - past else 0)
      case PadAt(n) => if Holds(n) then this.(gap := IFD_WRITE_MN) else this
      case SeekAt(n) => if Holds(n) then this.(gap := 0) else this
      case Remove => this
    }

    // A call of somebody else.
    function Foreign(c: Call): Track {
      match c
      case CloseAt(n) => if Holds(n) then this.(home := -1, robbed := true) else this
      case PutAt(n, b) => if Holds(n) then Grown(b, |b|) else this
      case PadAt(n) => if Holds(n) then this.(gap := IFD_WRITE_MN) else this
      case SeekAt(n) => if Holds(n) then this.(gap := 0) else this
      case _ => this
    }

    // The thread's own number is fd, and it is good unless the open failed or another
    // thread closed it.
    ghost predicate Kept(fd: int) {
      && (home >= 0 ==> home == fd)
      && (home >= 0 <==> made && !robbed)
    }
  }

  const CLOSED: Track := Track(-1, false, [], 0, false, 0, 0)

  // others are the numbers held by nothing that is tracked here.
  datatype Table = Table(mn: Track, sy: Track, ls: Track, others: set<int>)
  {
    predicate Free(n: int) {
      0 <= n < 0x8000_0000 && mn.home != n && sy.home != n && ls.home != n && n !in others
    }

    // What open returns when n is offered.
    function Result(n: int): int { if Free(n) then n else -1 }

    function Seen(t: Track, who: Who, actor: Who, c: Call, past: nat): Track {
      if who == actor then t.Own(c, past) else t.Foreign(c)
    }

    function OthersAfter(actor: Who, c: Call): set<int> {
      match c
      case CloseAt(n) => others - {n}
      case OpenAt(n) =>
        if actor.Out? then others + {n}
        else if actor.Ls? && ls.home >= 0 then others + {ls.home}    // START without a close
        else others
      case _ => others
    }

    function After(actor: Who, c: Call, past: nat): Table {
      Table(Seen(mn, Mn, actor, c, past), Seen(sy, Sy, actor, c, past), Seen(ls, Ls, actor, c, past),
            OthersAfter(actor, c))
    }

    // Whether lseek(n, 0, SEEK_END) returns 0; zero is what it returns on a number in others.
    function Empty(n: int, zero: bool): bool {
      if mn.Holds(n) then mn.bytes == []
      else if sy.Holds(n) then sy.bytes == []
      else if ls.Holds(n) then ls.bytes == []
      else n in others && zero
    }

    // No number has two holders.
    ghost predicate Distinct() {
      && (mn.home >= 0 ==> mn.home != sy.home && mn.home != ls.home && mn.home !in others)
      && (sy.home >= 0 ==> sy.home != ls.home && sy.home !in others)
      && (ls.home >= 0 ==> ls.home !in others)
    }
  }

  // The books of a stream: before and the file hold what was delivered, less what is still
  // staged and what was lost, plus what does not belong there. With nothing lost and nothing
  // alien this is equality, byte for byte.
  ghost predicate Balanced(before: Bytes, t: Track, staged: Bytes, got: Bytes, lost: nat, alien: nat) {
    && |before| + |t.bytes| + |staged| + lost + t.lost == |got| + alien + t.alien
    && (lost + t.lost + alien + t.alien == 0 ==> before + t.bytes + staged == got)
  }

  // Without alien bytes the files and the staged bytes are what was delivered exactly when
  // nothing was lost.
  lemma ExactlyWhenNothingLost(before: Bytes, t: Track, staged: Bytes, got: Bytes, lost: nat, alien: nat)
    requires Balanced(before, t, staged, got, lost, alien) && alien + t.alien == 0
    ensures before + t.bytes + staged == got <==> lost + t.lost == 0
  {
    if before + t.bytes + staged == got {
      assert |before + t.bytes + staged| == |before| + |t.bytes| + |staged|;
    }
  }

  lemma ForeignBalanced(before: Bytes, t: Track, staged: Bytes, got: Bytes, lost: nat, alien: nat, c: Call)
    requires Balanced(before, t, staged, got, lost, alien)
    ensures Balanced(before, t.Foreign(c), staged, got, lost, alien)
  {
    if c.PutAt? && t.Holds(c.n) && t.gap + |c.b| == 0 {
      assert t.bytes + Zeros(t.gap) + c.b == t.bytes;
    }
  }

  // The thread writes what it has staged; past of these bytes were written before.
  lemma PutBalanced(before: Bytes, t: Track, b: Bytes, past: nat, got: Bytes, lost: nat, alien: nat, n: int)
    requires past <= |b| && Balanced(before, t, b[past..], got, lost, alien)
    ensures Balanced(before, t.Own(PutAt(n, b), past), [], got, lost, alien)
  {
    if t.Holds(n) {
      if t.gap == 0 && past == 0 {
        assert t.bytes + Zeros(t.gap) + b == t.bytes + b && b[past..] == b;
        assert before + (t.bytes + b) + [] == before + t.bytes + b;
      }
    } else if past == |b| {
      assert b[past..] == [];
    }
  }

  // Staged bytes are thrown away without a write.
  lemma SkippedBalanced(before: Bytes, t: Track, staged: Bytes, got: Bytes, lost: nat, alien: nat)
    requires Balanced(before, t, staged, got, lost, alien)
    ensures Balanced(before, t, [], got, lost + |staged|, alien)
  {
    assert staged == [] ==> before + t.bytes + [] == before + t.bytes + staged;
  }

  lemma DeliveredBalanced(before: Bytes, t: Track, staged: Bytes, got: Bytes, lost: nat, alien: nat, c: Bytes)
    requires Balanced(before, t, staged, got, lost, alien)
    ensures Balanced(before, t, staged + c, got + c, lost, alien)
  {
    assert before + t.bytes + (staged + c) == before + t.bytes + staged + c;
  }

  // The books go on when the file is closed by its thread and counts as done.
  lemma ClosedBalanced(before: Bytes, t: Track, staged: Bytes, got: Bytes, lost: nat, alien: nat)
    requires Balanced(before, t, staged, got, lost, alien)
    ensures Balanced(before + t.bytes, CLOSED, staged, got, lost + t.lost, alien + t.alien)
  {
    assert before + t.bytes + [] == before + t.bytes;
  }
}
