// The recording pipeline of src/store.c as a small-step transition system: the main, pulse
// and index receivers, the control thread, the network clients and the hardware. Every
// access to a shared variable or register is one atomic step; memory is sequentially
// consistent. Fields after the "history" comments record the past and decide nothing.
module Protocol {
  import opened Common
  import opened Naming
  import opened Descriptors
  import opened Channels

  // One slot of file_name_all; Torn while sprintf is writing it.
  datatype Slot = Torn | Full(base: string)

  // The volatile flags of src/store.c:65-72; slice0 is chan_slice[0], sliceAlt0 is chan_slice_alt[0] and so on.
  datatype Flags = Flags(
    slice0: bool, slice1: bool, sliceAlt0: bool, sliceAlt1: bool, index0: bool, indexAlt0: bool,
    stored0: bool, stored1: bool, indexed0: bool)
  {
    function With(name: FlagName, b: bool): Flags {
      match name
      case Slice0 => this.(slice0 := b)
      case Slice1 => this.(slice1 := b)
      case SliceAlt0 => this.(sliceAlt0 := b)
      case SliceAlt1 => this.(sliceAlt1 := b)
      case Index0 => this.(index0 := b)
      case IndexAlt0 => this.(indexAlt0 := b)
      case Stored0 => this.(stored0 := b)
      case Stored1 => this.(stored1 := b)
      case Indexed0 => this.(indexed0 := b)
    }
  }

  datatype FlagName =
    Slice0 | Slice1 | SliceAlt0 | SliceAlt1 | Index0 | IndexAlt0 | Stored0 | Stored1 | Indexed0

  // The BRAM registers of src/store.c:48-55.
  datatype Registers = Registers(fileMark: bool, starStore: bool, lsStop: bool, mnStop: bool, syStop: bool)

  datatype RegisterName = FileMark | StarStore | LsStop | MnStop | SyStop

  // File numbering, src/store.c:94, 104, 122-124.
  datatype Names = Names(zeroMark: bool, lsNum: nat, mnNum: nat, syNum: nat, ring: seq<Slot>)

  datatype Line = Ack0 | Ack1 | Invalidate

  // The one shared location a step of a thread may write.
  datatype Write =
    | Nothing
    | SetFlag(f: FlagName, b: bool)
    | SetReg(r: RegisterName, b: bool)
    | SetZero(b: bool)
    | SetLs(n: nat)
    | SetMn(n: nat)
    | SetSy(n: nat)
    | SetSlot(k: nat, slot: Slot)
    | SetLine(line: Line, b: bool)
    | Sys(call: Call, past: nat)    // past bytes of a write were passed to a write before
  {
    // It may change a file or a number; a remove only takes a name away.
    predicate Touches() { Sys? && !call.Remove? }
  }

  // ---------- main receiver, src/store.c:354-445 and 605-616 ----------

  datatype MainPc =
    | MWait | MHead
    | MStopZero | MStopNum | MStopCompare | MStopSlice | MStopStored | MStopAck | MStopClose
    | MStored | MAlt | MMark
    | MNum | MSlot | MSlotEnd | MLoad | MStore | MOpen | MAltClear | MMarkSet
    | MFifo | MAltAgain | MDma | MFull | MCut | MDrain | MClose | MSliceClear | MStoredSet
  {
    // chan_stored[0] was read as 0 in this iteration
    predicate Active() {
      match this
      case MWait | MHead | MStopZero | MStopNum | MStopCompare | MStopSlice | MStopStored | MStopAck | MStopClose
         | MStored => false
      case _ => true
    }

    // the part of an active iteration that may open a file
    predicate Naming() {
      match this
      case MAlt | MMark | MNum | MSlot | MSlotEnd | MLoad | MStore | MOpen | MAltClear | MMarkSet => true
      case _ => false
    }

    // between the test of FILE_MARK and the write of 1 to it
    predicate Opening() {
      match this
      case MNum | MSlot | MSlotEnd | MLoad | MStore | MOpen | MAltClear | MMarkSet => true
      case _ => false
    }

    // ... and before mn_file_num is incremented
    predicate Numbering() {
      match this
      case MNum | MSlot | MSlotEnd | MLoad | MStore => true
      case _ => false
    }

    predicate Stopping() {
      match this
      case MStopStored | MStopAck | MStopClose => true
      case _ => false
    }

    predicate Unwinding() {
      match this
      case MStopAck | MStopClose => true
      case _ => false
    }

    // the register holds mn_file_num
    predicate HoldsNumber() {
      match this
      case MSlot | MSlotEnd | MStore | MStopCompare => true
      case _ => false
    }

    // file_name is new and mn_file_num is not incremented yet
    predicate Fetched() {
      match this
      case MSlotEnd | MLoad | MStore => true
      case _ => false
    }

    // a cut has closed the file and the thread has not said so yet
    predicate Shut() {
      match this
      case MSliceClear | MStoredSet => true
      case _ => false
    }

    // chan_slice_alt[0] was read as 1 and not cleared since
    predicate SawAlt() {
      match this
      case MMark | MNum | MSlot | MSlotEnd | MLoad | MStore | MOpen | MAltClear => true
      case _ => false
    }

    predicate Comparing() {
      match this
      case MStopNum | MStopCompare => true
      case _ => false
    }
  }

  // What there was to see when the main or the index receiver, at a STOP, looked for an empty
  // slice: zero_mark at its reading; its own file number at the reading of that; at the
  // comparison ls_file_num, whether its file was counted by a number read in this session
  // after which it began to compare, whether the session is clean and the name fetched in time,
  // and the name and number of the pulse file found empty.
  datatype Look = Look(zero: bool, own: nat, ls: nat, counted: bool, clean: bool, live: bool,
                       emptyBase: Slot, emptyNum: nat)
  {
    function At(number: nat): Look { this.(own := number) }
  }

  function FirstLook(zero: bool): Look { Look(zero, 0, 0, false, false, false, Torn, 0) }

  const NO_LOOK := FirstLook(false)

  // One armed period of the receiver, from its open to its close. num and base are the number
  // and name last put into file_name; got are the bytes the DMA delivered in this time and
  // left those a STOP discarded; track is what became of the file. gone says that the thread
  // removed the file by name, and look what it saw before; byCut tells a cut from a STOP.
  datatype MainFile = MainFile(num: nat, base: Slot, got: Bytes, left: Bytes, track: Track, gone: bool, look: Look,
                               byCut: bool)

  datatype MainThread = MainThread(
    pc: MainPc, reg: nat, base: Slot, data: MainData,
    // history; busy says that an open was made, or tried, and the file not closed since;
    // cleared is how many cuts were latched when the thread last cleared chan_slice[0]
    busy: bool, num: nat, live: bool, gone: bool, look: Look, got: Bytes, left: Bytes, all: Bytes, done: seq<MainFile>,
    opens: nat, gen: nat, cuts: nat, cleared: nat)
  {
    function Closed(t: Track, byCut: bool): MainThread {
      this.(busy := false, data := data.Closed(),
            done := if busy then done + [MainFile(num, base, got, left, t, gone, look, byCut)] else done)
    }
  }

  // ---------- index receiver, src/store.c:271-352 ----------

  datatype IndexPc =
    | IHead
    | IStopZero | IStopNum | IStopCompare | IStopIndex | IStopAlt | IStopIndexed | IStopAck | IStopClose
    | IIndexed | IValid | ICopy | IInvalid | ISpin | IRelease
    | IAlt | IMark | INum | ISlot | ISlotEnd | ILoad | IStore | IOpen | IAltClear
    | ISave | ICut | ICutClose | ICutIndex | ICutAlt | ICutIndexed
  {
    // chan0_indexed was read as 0 in this iteration
    predicate Active() {
      match this
      case IHead | IStopZero | IStopNum | IStopCompare | IStopIndex | IStopAlt | IStopIndexed | IStopAck | IStopClose
         | IIndexed => false
      case _ => true
    }

    predicate Taking() {
      match this
      case IValid | ICopy | IInvalid | ISpin | IRelease => true
      case _ => false
    }

    predicate Naming() {
      match this
      case IAlt | IMark | INum | ISlot | ISlotEnd | ILoad | IStore | IOpen | IAltClear => true
      case _ => false
    }

    // a page may be in hand on the way from the BRAM to the file
    predicate Holding() {
      match this
      case IInvalid | ISpin | IRelease | IAlt | IMark | INum | ISlot | ISlotEnd | ILoad
         | IStore | IOpen | IAltClear | ISave => true
      case _ => false
    }

    predicate Opening() {
      match this
      case INum | ISlot | ISlotEnd | ILoad | IStore | IOpen => true
      case _ => false
    }

    // chan0_index_alt was read as 1 and not cleared since
    predicate SawAlt() {
      match this
      case IMark | INum | ISlot | ISlotEnd | ILoad | IStore | IOpen | IAltClear => true
      case _ => false
    }

    // this thread set chan0_index_alt and is about to say that it is done
    predicate AltSet() {
      match this
      case IStopIndexed | IStopAck | IStopClose | ICutIndexed => true
      case _ => false
    }

    predicate Ended() {
      match this
      case IStopAlt | IStopIndexed | IStopAck | IStopClose | ICutIndex | ICutAlt | ICutIndexed => true
      case _ => false
    }

    // this step may take, save, open or close
    predicate Busy() {
      match this
      case IStopIndex | IStopClose | IValid | ICopy | IOpen | ISave | ICutClose => true
      case _ => false
    }

    predicate Cutting() {
      match this
      case ICutIndex | ICutAlt | ICutIndexed => true
      case _ => false
    }

    predicate AltOwned() {
      match this
      case IAltClear | IStopIndexed | ICutIndexed => true
      case _ => false
    }

    // before sy_file_num is incremented
    predicate Numbering() {
      match this
      case INum | ISlot | ISlotEnd | ILoad | IStore => true
      case _ => false
    }

    // the register holds sy_file_num
    predicate HoldsNumber() {
      match this
      case ISlot | ISlotEnd | IStore => true
      case _ => false
    }

    // file_name is new and sy_file_num is not incremented yet
    predicate Fetched() {
      match this
      case ISlotEnd | ILoad | IStore => true
      case _ => false
    }

    predicate Comparing() {
      match this
      case IStopNum | IStopCompare => true
      case _ => false
    }

    predicate Stopping() {
      match this
      case IStopAlt | IStopIndexed | IStopAck | IStopClose => true
      case _ => false
    }
  }

  // The pages due to this file are taken[start..start + |due|]; upTo is the number of pages
  // taken when it was closed, and track what became of it; base, gone and look as above.
  datatype IndexFile = IndexFile(start: nat, due: seq<Page>, upTo: nat, track: Track, base: Slot, gone: bool,
                                 look: Look)

  datatype IndexThread = IndexThread(
    pc: IndexPc, reg: nat, base: Slot, buf: Bytes, copied: nat, recv: nat, ret: nat, fd: int, calls: seq<Call>,
    // history; busy says that a file was opened and not closed since; cleared is how many
    // cuts were latched when the thread last cleared chan0_index
    busy: bool, num: nat, live: bool, gone: bool, look: Look, start: nat, due: seq<Page>, taken: seq<Page>,
    done: seq<IndexFile>, opens: nat, lastGen: nat, gen: nat, cuts: nat, cleared: nat)
  {
    function Closed(t: Track): IndexThread {
      this.(busy := false, calls := calls + [CloseAt(fd)],
            done := if busy then done + [IndexFile(start, due, |taken|, t, base, gone, look)] else done)
    }
  }

  // ---------- pulse receiver, src/store.c:446-603 ----------

  datatype PulsePc =
    | LHead
    | LReset | LNumReset | LFirstBegin | LFirstEnd | LFirstOpen | LSyReset | LMnReset | LFirstInc
    | LStarClear | LFirstMark
    | LStop | LStopSeek | LStopZero | LStopRemove | LStopAck | LStopClose
    | LStored | LFifo | LDma | LFull | LCut
    | LDrain | LPad | LClose | LSlotBegin | LSlotEnd | LInc | LOpen | LMark | LSliceClear | LStoredSet
  {
    // handling STAR_STORE
    predicate Commanded() {
      match this
      case LHead | LReset | LNumReset | LFirstBegin | LFirstEnd | LFirstOpen | LSyReset | LMnReset | LFirstInc
         | LStarClear | LFirstMark => true
      case _ => false
    }

    // handling LS_STOP_STORE, or receiving
    predicate Moving() {
      match this
      case LStop | LStopSeek | LStopZero | LStopRemove | LStopAck | LStopClose | LStored | LFifo | LDma | LFull
         | LCut => true
      case _ => false
    }

    // chan_stored[1] was read as 0 in this iteration
    predicate Receiving() {
      match this
      case LFifo | LDma | LFull | LCut | LDrain | LPad | LClose | LSlotBegin | LSlotEnd | LInc | LOpen | LMark
         | LSliceClear | LStoredSet => true
      case _ => false
    }

    // a START is under way and mn_file_num has not been reset yet
    predicate Starting() {
      match this
      case LNumReset | LFirstBegin | LFirstEnd | LFirstOpen | LSyReset | LMnReset => true
      case _ => false
    }

    // ls_file_num is 0 for the new session
    predicate Numbered() {
      match this
      case LFirstBegin | LFirstEnd | LFirstOpen | LSyReset | LMnReset | LFirstInc => true
      case _ => false
    }

    // between two of its writes to the names or to FILE_MARK
    predicate Plain() {
      match this
      case LStop | LStopSeek | LStopZero | LStopRemove | LStopAck | LStopClose | LStored | LFifo | LDma | LFull
         | LCut | LDrain | LPad | LClose | LSlotBegin | LSliceClear | LStoredSet | LHead => true
      case _ => false
    }

    // ... and slice 0 has its name
    predicate FirstNamed() {
      match this
      case LFirstOpen | LSyReset | LMnReset | LFirstInc => true
      case _ => false
    }

    // ... and its first file is not open yet
    predicate Unopened() {
      match this
      case LNumReset | LFirstBegin | LFirstEnd | LFirstOpen => true
      case _ => false
    }

    // the staged bytes are already in the closed file
    predicate Rotating() {
      match this
      case LPad | LClose | LSlotBegin | LSlotEnd | LInc | LOpen | LMark | LSliceClear => true
      case _ => false
    }

    // ... and the next file is not open yet
    predicate Between() {
      match this
      case LSlotBegin | LSlotEnd | LInc | LOpen => true
      case _ => false
    }

    // ls_file_num counts a slice whose FILE_MARK token has not been issued yet
    predicate Unissued() {
      match this
      case LStarClear | LFirstMark | LOpen | LMark => true
      case _ => false
    }
  }

  datatype PulseThread = PulseThread(
    pc: PulsePc, base: Slot, dir: string, data: PulseData,
    // history: the time in the name of every slice of the session; since the START whose open
    // succeeded, the bytes delivered, the files closed, the bytes lost and alien in them, and
    // whether one of them was closed by another thread; how many staged bytes were passed to a
    // write already; whether every open succeeded and no STOP was seen; whether every number
    // was positive; how many cuts were latched when it last cleared chan_slice[1]
    times: seq<Time>, began: bool, got: Bytes, done: seq<Bytes>, lost: nat, alien: nat, robbed: bool, saved: nat,
    intact: bool, positive: bool, emptyBase: Slot, emptyNum: nat, rotations: nat, cleared: nat)
  {
    // the file goes to the files done
    function Closed(t: Track): PulseThread {
      this.(data := data.Closed(), done := if t.made then done + [t.bytes] else done,
            lost := lost + t.lost, alien := alien + t.alien, robbed := robbed || t.robbed)
    }

    // staged bytes that were not passed to a write yet
    function Fresh(): nat { if saved <= |data.staged| then |data.staged| - saved else 0 }

    ghost function SliceName(k: nat): string
      requires k < |times|
    {
      BaseName(dir, times[k], k)
    }
  }

  // ---------- control, src/store.c:187-243 ----------

  datatype ControlPc =
    | CIndexed | CStored | CFlow | CAlt0 | CIndexAlt | CStored0 | CIndexed0
    | CStored1 | CAlt1 | CStoredClear1
    | CReq0 | CAck0 | CSpin0 | CRelease0 | CIndexSet | CSliceSet0
    | CReq1 | CAck1 | CSpin1 | CRelease1 | CSliceSet1
  {
    predicate Granting() {
      match this
      case CIndexed | CStored | CFlow | CAlt0 | CIndexAlt | CStored0 | CIndexed0
         | CStored1 | CAlt1 | CStoredClear1 => true
      case _ => false
    }

    // both receivers were seen waiting and the re-arm is not finished
    predicate SawIndexed() {
      match this
      case CStored | CFlow | CAlt0 | CIndexAlt | CStored0 | CIndexed0 => true
      case _ => false
    }

    // a cut of the channel was acknowledged and is not latched yet
    predicate Serving0() {
      match this
      case CRelease0 | CIndexSet | CSliceSet0 => true
      case _ => false
    }

    predicate Serving1() {
      match this
      case CRelease1 | CSliceSet1 => true
      case _ => false
    }

    predicate SawStored() {
      match this
      case CFlow | CAlt0 | CIndexAlt | CStored0 => true
      case _ => false
    }

    predicate Rearming() {
      match this
      case CAlt0 | CIndexAlt | CStored0 | CIndexed0 => true
      case _ => false
    }

    predicate AltGiven() {
      match this
      case CIndexAlt | CStored0 => true
      case _ => false
    }
  }

  datatype Control = Control(
    pc: ControlPc, count0: nat, count1: nat,
    // history
    altGrants: nat, rearms: nat, indexRearms: nat, latched0: nat, latchedIndex: nat, latched1: nat)

  // ---------- hardware ----------

  datatype Hardware = Hardware(
    req0: bool, ack0: bool, req1: bool, ack1: bool, valid: bool, invalidate: bool, page: Page,
    // history
    raised0: nat, raised1: nat, published: seq<Page>)

  // History of the current START: named says that it has reset mn_file_num; drift that the
  // main receiver is still at the file whose number it read before that, and counts it after;
  // clean that the receiver was not about to count one more file at the reset, and that
  // FILE_MARK was 1 or about to be, and that no client wrote 0 to it since while the receiver
  // had no issued slice left; stale that the receiver is still comparing numbers for the STOP
  // before; used are the numbers and names of the live main files opened since whose number
  // was read since.
  datatype Session = Session(named: bool, clean: bool, stale: bool, drift: bool, used: seq<(nat, Slot)>)
  {
    // The number compared and the file in hand are of this session.
    predicate Counts() { named && !stale && !drift }
  }

  // The same for the index receiver and sy_file_num.
  datatype IndexSession = IndexSession(named: bool, stale: bool, drift: bool, used: seq<(nat, Slot)>)
  {
    predicate Counts() { named && !stale && !drift }
  }

  function IssuedBy(n: Names, pc: PulsePc): int { n.lsNum - (if pc.Unissued() then 1 else 0) }

  datatype State = State(
    fl: Flags, rg: Registers, nm: Names, mn: MainThread, sy: IndexThread, ls: PulseThread, ct: Control,
    hw: Hardware, os: Table, se: Session, ix: IndexSession)
  {
    function Slot(k: nat): Slot { if k < |nm.ring| then nm.ring[k] else Torn }

    // Slices whose FILE_MARK token has been issued.
    function Issued(): int { IssuedBy(nm, ls.pc) }

    // A 0 written to FILE_MARK does no harm: the main receiver is opening a file, so that it
    // will take the 0 back, or has an issued slice left to use it on.
    predicate Spare() { mn.pc.Opening() || nm.mnNum < Issued() }
  }

  // Everything a thread may learn from its environment in one step: fd is the number offered
  // to an open (an open of a number in use fails), zero the length of an untracked file.
  datatype Env = Env(fifo: bool, flow: bool, dma: Option<Chunk>, fd: int, zero: bool, endSeen: bool,
                     dir: string, time: Time)
  {
    function Bytes(): Bytes { if dma.Some? then dma.value else [] }
  }

  // What malloc gives to the index receiver (src/store.c:279).
  type IndexBuffer = b: Bytes | |b| == 0x100000 witness seq(0x100000, i => 0)

  // What nobody initialises: the BRAM, the index buffer, fd of chan1_recv (src/store.c:453)
  // and the numbers that the process holds already.
  datatype Boot = Boot(page: Page, buf: IndexBuffer, fd: int, others: set<int>)

  // The state main() leaves before the threads run (src/zh3t_demo.c:50-65, src/store.c:65-124, 274).
  function Init(boot: Boot): State {
    State(
      Flags(false, false, true, true, false, true, false, false, false),
      Registers(true, false, false, false, false),
      Names(false, 0, 0, 0, seq(CYC_MARK + 1, i => Full(""))),
      MainThread(MWait, 0, Full(""), MainData([], 0, 0, 0, []),
                 false, 0, false, false, NO_LOOK, [], [], [], [], 0, 0, 0, 0),
      IndexThread(IHead, 0, Full(""), boot.buf, 0, 0, 0, 0, [],
                  false, 0, false, false, NO_LOOK, 0, [], [], [], 0, 0, 0, 0, 0),
      PulseThread(LHead, Full(""), "", PulseData([], boot.fd, []),
                  [], false, [], [], 0, 0, false, 0, false, false, Full(""), 0, 0, 0),
      Control(CIndexed, 1, 1, 0, 0, 0, 0, 0, 0),
      Hardware(false, false, false, false, false, false, boot.page, 0, 0, []),
      Table(CLOSED, CLOSED, CLOSED, boot.others),
      Session(false, false, false, false, []), IndexSession(false, false, false, []))
  }

  function FlagsAfter(h: Flags, w: Write): Flags {
    if w.SetFlag? then h.With(w.f, w.b) else h
  }

  function RegistersAfter(h: Registers, w: Write): Registers {
    match w
    case SetReg(FileMark, b) => h.(fileMark := b)
    case SetReg(StarStore, b) => h.(starStore := b)
    case SetReg(LsStop, b) => h.(lsStop := b)
    case SetReg(MnStop, b) => h.(mnStop := b)
    case SetReg(SyStop, b) => h.(syStop := b)
    case _ => h
  }

  function NamesAfter(h: Names, w: Write): Names {
    match w
    case SetZero(b) => h.(zeroMark := b)
    case SetLs(n) => h.(lsNum := n)
    case SetMn(n) => h.(mnNum := n)
    case SetSy(n) => h.(syNum := n)
    case SetSlot(k, slot) => if k < |h.ring| then h.(ring := h.ring[k := slot]) else h
    case _ => h
  }

  function LinesAfter(h: Hardware, w: Write): Hardware {
    match w
    case SetLine(Ack0, b) => h.(ack0 := b)
    case SetLine(Ack1, b) => h.(ack1 := b)
    case SetLine(Invalidate, b) => h.(invalidate := b)
    case _ => h
  }

  function TableAfter(os: Table, who: Who, w: Write): Table {
    match w
    case Sys(call, past) => os.After(who, call, past)
    case _ => os
  }

  function MainLook(s: State): Look {
    s.mn.look.(ls := s.nm.lsNum, counted := s.se.Counts(), clean := s.se.clean, live := s.mn.live,
               emptyBase := s.ls.emptyBase, emptyNum := s.ls.emptyNum)
  }

  function IndexLook(s: State): Look {
    s.sy.look.(ls := s.nm.lsNum, counted := s.ix.Counts(), clean := false, live := s.sy.live,
               emptyBase := s.ls.emptyBase, emptyNum := s.ls.emptyNum)
  }

  // src/store.c:366-384 and 608-613
  function MainIdle(s: State, e: Env): (MainThread, Write) {
    var m := s.mn;
    match m.pc
    case MWait => (if e.flow then m.(pc := MHead) else m, Nothing)
    case MHead => (m.(pc := if s.rg.mnStop then MStopZero else MStored), Nothing)
    case MStopZero =>
      (m.(pc := if s.nm.zeroMark then MStopNum else MStopSlice, look := FirstLook(s.nm.zeroMark)), Nothing)
    case MStopNum => (m.(pc := MStopCompare, reg := s.nm.mnNum, look := m.look.At(s.nm.mnNum)), Nothing)
    case MStopCompare =>
      if m.reg == s.nm.lsNum then
        (m.(pc := MStopSlice, data := m.data.Removed(), gone := true, look := MainLook(s)), Sys(Remove, 0))
      else (m.(pc := MStopSlice, look := MainLook(s)), Nothing)
    case MStopSlice =>
      (m.(pc := MStopStored, left := m.data.staged, data := m.data.Cleared(), cleared := s.ct.latched0),
       SetFlag(Slice0, false))
    case MStopStored => (m.(pc := MStopAck, gen := if s.fl.stored0 then m.gen else m.gen + 1), SetFlag(Stored0, true))
    case MStopAck => (m.(pc := MStopClose), SetReg(MnStop, false))
    case MStopClose => (m.Closed(s.os.mn, false).(pc := MStored), Sys(CloseAt(AsDescriptor(m.data.fd)), 0))
    case MStored => (m.(pc := if s.fl.stored0 then MHead else MAlt), Nothing)
    case _ => (m, Nothing)
  }

  // src/store.c:386-401. fd[0] is unsigned, so the test for a failed open never holds and a
  // failure goes on like a success.
  function MainName(s: State, e: Env): (MainThread, Write) {
    var m := s.mn;
    match m.pc
    case MAlt => (m.(pc := if s.fl.sliceAlt0 then MMark else MFifo), Nothing)
    case MMark => (m.(pc := if s.rg.fileMark then MFifo else MNum), Nothing)
    case MNum => (m.(pc := MSlot, reg := s.nm.mnNum), Nothing)
    case MSlot =>
      (m.(pc := MSlotEnd, base := s.Slot(m.reg % CYC_MARK), num := m.reg,
          live := m.reg < s.nm.lsNum < m.reg + CYC_MARK), Nothing)
    case MSlotEnd =>
      (m.(pc := MLoad, base := if s.Slot(m.reg % CYC_MARK) == m.base then m.base else Torn,
          live := m.live && s.nm.lsNum < m.reg + CYC_MARK), Nothing)
    case MLoad => (m.(pc := MStore, reg := s.nm.mnNum), Nothing)
    case MStore => (m.(pc := MOpen), SetMn(m.reg + 1))
    case MOpen =>
      var n := s.os.Result(e.fd);
      (m.(pc := MAltClear, busy := true, data := m.data.Opened(n), gone := false, look := NO_LOOK,
          got := [], left := [], opens := m.opens + 1), Sys(OpenAt(n), 0))
    case MAltClear => (m.(pc := MMarkSet), SetFlag(SliceAlt0, false))
    case MMarkSet => (m.(pc := MFifo), SetReg(FileMark, true))
    case _ => (m, Nothing)
  }

  // src/store.c:403-438
  function MainMove(s: State, e: Env): (MainThread, Write) {
    var m := s.mn;
    match m.pc
    case MFifo => (m.(pc := if e.fifo then MAltAgain else MFull), Nothing)
    case MAltAgain => (m.(pc := if s.fl.sliceAlt0 then MFull else MDma), Nothing)
    case MDma =>
      (m.(pc := MFull, data := m.data.Delivered(e.dma), got := m.got + e.Bytes(), all := m.all + e.Bytes()), Nothing)
    case MFull =>
      (m.(pc := MCut, data := m.data.Flushed(!s.fl.sliceAlt0)),
       if |m.data.staged| == IFD_WRITE_MN && !s.fl.sliceAlt0 then
         Sys(PutAt(AsDescriptor(m.data.fd), m.data.staged), 0)
       else Nothing)
    case MCut => (m.(pc := if s.fl.slice0 then MDrain else MHead), Nothing)
    case MDrain =>
      (m.(pc := MClose, data := m.data.Drained()),
       if m.data.staged != [] then Sys(PutAt(AsDescriptor(m.data.fd), m.data.staged), 0) else Nothing)
    case MClose =>
      (m.Closed(s.os.mn, true).(pc := MSliceClear, data := m.data.Closed().Cleared()),
       Sys(CloseAt(AsDescriptor(m.data.fd)), 0))
    case MSliceClear => (m.(pc := MStoredSet, cuts := m.cuts + 1, cleared := s.ct.latched0), SetFlag(Slice0, false))
    case MStoredSet => (m.(pc := MHead, gen := if s.fl.stored0 then m.gen else m.gen + 1), SetFlag(Stored0, true))
    case _ => (m, Nothing)
  }

  function MainStep(s: State, e: Env): (MainThread, Write) {
    if !s.mn.pc.Active() then MainIdle(s, e) else if s.mn.pc.Naming() then MainName(s, e) else MainMove(s, e)
  }

  // src/store.c:284-301
  function IndexIdle(s: State, e: Env): (IndexThread, Write) {
    var x := s.sy;
    match x.pc
    case IHead => (x.(pc := if s.rg.syStop then IStopZero else IIndexed), Nothing)
    case IStopZero =>
      (x.(pc := if s.nm.zeroMark then IStopNum else IStopIndex, look := FirstLook(s.nm.zeroMark)), Nothing)
    case IStopNum => (x.(pc := IStopCompare, reg := s.nm.syNum, look := x.look.At(s.nm.syNum)), Nothing)
    case IStopCompare =>
      if x.reg == s.nm.lsNum then
        (x.(pc := IStopIndex, calls := x.calls + [Remove], gone := true, look := IndexLook(s)), Sys(Remove, 0))
      else (x.(pc := IStopIndex, look := IndexLook(s)), Nothing)
    case IStopIndex =>
      (x.(pc := IStopAlt, recv := 0, ret := 0, cleared := s.ct.latchedIndex), SetFlag(Index0, false))
    case IStopAlt => (x.(pc := IStopIndexed), SetFlag(IndexAlt0, true))
    case IStopIndexed =>
      (x.(pc := IStopAck, gen := if s.fl.indexed0 then x.gen else x.gen + 1), SetFlag(Indexed0, true))
    case IStopAck => (x.(pc := IStopClose), SetReg(SyStop, false))
    case IStopClose => (x.Closed(s.os.sy).(pc := IIndexed), Sys(CloseAt(x.fd), 0))
    case IIndexed => (x.(pc := if s.fl.indexed0 then IHead else IValid), Nothing)
    case _ => (x, Nothing)
  }

  // src/store.c:302-308, src/ubram.c:66-76 and 131-136; the copy moves one byte a step
  function IndexTake(s: State, e: Env): (IndexThread, Write) {
    var x := s.sy;
    match x.pc
    case IValid => (x.(pc := if s.hw.valid then ICopy else IAlt, copied := 0), Nothing)
    case ICopy =>
      if |x.buf| < x.recv + BRAM_SIZE then (x, Nothing)
      else if x.copied < BRAM_SIZE then
        (x.(copied := x.copied + 1, buf := x.buf[x.recv + x.copied := s.hw.page[x.copied]]), Nothing)
      else
        var p: Page := x.buf[x.recv..x.recv + BRAM_SIZE];
        (x.(pc := IInvalid, ret := BRAM_SIZE, taken := x.taken + [p], due := if x.busy then x.due + [p] else x.due),
         Nothing)
    case IInvalid => (x.(pc := ISpin), SetLine(Invalidate, true))
    case ISpin => (if s.hw.valid then x else x.(pc := IRelease), Nothing)
    case IRelease => (x.(pc := IAlt), SetLine(Invalidate, false))
    case _ => (x, Nothing)
  }

  // src/store.c:310-321
  function IndexName(s: State, e: Env): (IndexThread, Write) {
    var x := s.sy;
    match x.pc
    case IAlt => (x.(pc := if s.fl.indexAlt0 then IMark else ISave), Nothing)
    case IMark => (x.(pc := if s.rg.fileMark then ISave else INum), Nothing)
    case INum => (x.(pc := ISlot, reg := s.nm.syNum), Nothing)
    case ISlot =>
      (x.(pc := ISlotEnd, base := s.Slot(x.reg % CYC_MARK), num := x.reg,
          live := x.reg < s.nm.lsNum < x.reg + CYC_MARK), Nothing)
    case ISlotEnd =>
      (x.(pc := ILoad, base := if s.Slot(x.reg % CYC_MARK) == x.base then x.base else Torn,
          live := x.live && s.nm.lsNum < x.reg + CYC_MARK), Nothing)
    case ILoad => (x.(pc := IStore, reg := s.nm.syNum), Nothing)
    case IStore => (x.(pc := IOpen), SetSy(x.reg + 1))
    case IOpen =>
      var n := s.os.Result(e.fd);
      var y := x.(fd := n, calls := x.calls + [OpenAt(n)]);
      if n < 0 then (y.(pc := IHead), Sys(OpenAt(n), 0)) else
      var first := if x.ret == BRAM_SIZE && x.taken != [] then |x.taken| - 1 else |x.taken|;
      (y.(pc := IAltClear, busy := true, opens := x.opens + 1, lastGen := s.ct.indexRearms + 1,
          gone := false, look := NO_LOOK, start := first, due := x.taken[first..]),
       Sys(OpenAt(n), 0))
    case IAltClear => (x.(pc := ISave, recv := 0), SetFlag(IndexAlt0, false))
    case _ => (x, Nothing)
  }

  // src/store.c:324-347
  function IndexSave(s: State, e: Env): (IndexThread, Write) {
    var x := s.sy;
    match x.pc
    case ISave =>
      if x.recv + x.ret != IDX_WRITE_THRESHOLD then (x.(pc := ICut, recv := x.recv + x.ret), Nothing)
      else if s.fl.indexAlt0 || |x.buf| < IDX_WRITE_THRESHOLD then (x.(pc := ICut, recv := 0, ret := 0), Nothing)
      else
        var put := PutAt(x.fd, x.buf[..IDX_WRITE_THRESHOLD]);
        (x.(pc := ICut, recv := 0, ret := 0, calls := x.calls + [put]), Sys(put, 0))
    case ICut => (x.(pc := if s.fl.index0 && (x.recv == 0 || e.endSeen) then ICutClose else IHead), Nothing)
    case ICutClose => (x.Closed(s.os.sy).(pc := ICutIndex, recv := 0, ret := 0), Sys(CloseAt(x.fd), 0))
    case ICutIndex =>
      (x.(pc := ICutAlt, cuts := x.cuts + 1, cleared := s.ct.latchedIndex), SetFlag(Index0, false))
    case ICutAlt => (x.(pc := ICutIndexed), SetFlag(IndexAlt0, true))
    case ICutIndexed =>
      (x.(pc := IHead, gen := if s.fl.indexed0 then x.gen else x.gen + 1), SetFlag(Indexed0, true))
    case _ => (x, Nothing)
  }

  function IndexStep(s: State, e: Env): (IndexThread, Write) {
    if !s.sy.pc.Active() then IndexIdle(s, e)
    else if s.sy.pc.Taking() then IndexTake(s, e)
    else if s.sy.pc.Naming() then IndexName(s, e)
    else IndexSave(s, e)
  }

  // src/store.c:460-503; only this thread writes ls_file_num, so its increment is one step
  function PulseStart(s: State, e: Env): (PulseThread, Write) {
    var p := s.ls;
    match p.pc
    case LHead => (p.(pc := if s.rg.starStore then LReset else LStop), Nothing)
    case LReset =>
      (p.(pc := LNumReset, data := p.data.Restarted(), dir := e.dir, saved := 0, began := false, intact := false),
       SetZero(false))
    case LNumReset => (p.(pc := LFirstBegin, times := []), SetLs(0))
    case LFirstBegin => (p.(pc := LFirstEnd), SetSlot(s.nm.lsNum, Torn))
    case LFirstEnd =>
      var base := Full(BaseName(p.dir, e.time, s.nm.lsNum));
      (p.(pc := LFirstOpen, times := [e.time], base := base), SetSlot(s.nm.lsNum, base))
    case LFirstOpen =>
      var n := s.os.Result(e.fd);
      (p.(pc := if n >= 0 then LSyReset else LHead, data := p.data.Opened(n), began := n >= 0, intact := n >= 0,
          positive := n > 0, got := [], done := [], lost := 0, alien := 0, robbed := false),
       Sys(OpenAt(n), 0))
    case LSyReset => (p.(pc := LMnReset), SetSy(s.nm.lsNum))
    case LMnReset => (p.(pc := LFirstInc), SetMn(s.nm.lsNum))
    case LFirstInc => (p.(pc := LStarClear), SetLs(s.nm.lsNum + 1))
    case LStarClear => (p.(pc := LFirstMark), SetReg(StarStore, false))
    case LFirstMark => (p.(pc := LStop), SetReg(FileMark, false))
    case _ => (p, Nothing)
  }

  // src/store.c:505-555
  function PulseMove(s: State, e: Env): (PulseThread, Write) {
    var p := s.ls;
    match p.pc
    case LStop => (p.(pc := if s.rg.lsStop then LStopSeek else LStored), Nothing)
    case LStopSeek =>
      (p.(pc := if s.os.Empty(p.data.fd, e.zero) then LStopZero else LStopAck, data := p.data.Sought()),
       Sys(SeekAt(p.data.fd), 0))
    case LStopZero => (p.(pc := LStopRemove, emptyBase := p.base, emptyNum := s.nm.lsNum), SetZero(true))
    case LStopRemove => (p.(pc := LStopAck, data := p.data.Removed()), Sys(Remove, 0))
    case LStopAck => (p.(pc := LStopClose), SetReg(LsStop, false))
    case LStopClose => (p.Closed(s.os.ls).(pc := LStored, intact := false), Sys(CloseAt(p.data.fd), 0))
    case LStored => (p.(pc := if s.fl.stored1 then LHead else LFifo), Nothing)
    case LFifo => (p.(pc := if e.fifo then LDma else LFull), Nothing)
    case LDma => (p.(pc := LFull, data := p.data.Delivered(e.dma), got := p.got + e.Bytes()), Nothing)
    case LFull =>
      if |p.data.staged| != IFD_WRITE_MN then (p.(pc := LCut), Nothing)
      else if p.data.fd > 0 then
        (p.(pc := LCut, data := p.data.Flushed(), saved := 0), Sys(PutAt(p.data.fd, p.data.staged), p.saved))
      else
        (p.(pc := LCut, data := p.data.Flushed(), saved := 0, lost := p.lost + p.Fresh()), Nothing)
    case LCut => (p.(pc := if s.fl.slice1 then LDrain else LHead), Nothing)
    case _ => (p, Nothing)
  }

  // src/store.c:557-596
  function PulseTurn(s: State, e: Env): (PulseThread, Write) {
    var p := s.ls;
    match p.pc
    case LDrain =>
      (p.(pc := LPad, data := p.data.Drained(), saved := |p.data.staged|),
       if p.data.staged != [] then Sys(PutAt(p.data.fd, p.data.staged), p.saved) else Nothing)
    case LPad => (p.(pc := LClose, data := p.data.Padded()), Sys(PadAt(p.data.fd), 0))
    case LClose => (p.Closed(s.os.ls).(pc := LSlotBegin), Sys(CloseAt(p.data.fd), 0))
    case LSlotBegin => (p.(pc := LSlotEnd), SetSlot(s.nm.lsNum % CYC_MARK, Torn))
    case LSlotEnd =>
      var base := Full(BaseName(p.dir, e.time, s.nm.lsNum));
      (p.(pc := LInc, times := p.times + [e.time], base := base), SetSlot(s.nm.lsNum % CYC_MARK, base))
    case LInc => (p.(pc := LOpen), SetLs(s.nm.lsNum + 1))
    case LOpen =>
      var n := s.os.Result(e.fd);
      (p.(pc := if n >= 0 then LMark else LHead, data := p.data.Opened(n), intact := p.intact && n >= 0,
          positive := p.positive && n > 0),
       Sys(OpenAt(n), 0))
    case LMark => (p.(pc := LSliceClear), SetReg(FileMark, false))
    case LSliceClear =>
      (p.(pc := LStoredSet, data := p.data.Restarted(), saved := 0, rotations := p.rotations + 1,
          cleared := s.ct.latched1),
       SetFlag(Slice1, false))
    case LStoredSet => (p.(pc := LHead), SetFlag(Stored1, true))
    case _ => (p, Nothing)
  }

  function PulseStep(s: State, e: Env): (PulseThread, Write) {
    if s.ls.pc.Commanded() then PulseStart(s, e) else if s.ls.pc.Moving() then PulseMove(s, e) else PulseTurn(s, e)
  }

  // src/store.c:216-237
  function ControlRearm(s: State, e: Env): (Control, Write) {
    var c := s.ct;
    match c.pc
    case CIndexed => (c.(pc := if s.fl.indexed0 then CStored else CStored1), Nothing)
    case CStored => (c.(pc := if s.fl.stored0 then CFlow else CStored1), Nothing)
    case CFlow => (c.(pc := if c.count0 < MAX_FILE_COUNT && e.flow then CAlt0 else CStored1), Nothing)
    case CAlt0 => (c.(pc := CIndexAlt, altGrants := c.altGrants + 1), SetFlag(SliceAlt0, true))
    case CIndexAlt => (c.(pc := CStored0), SetFlag(IndexAlt0, true))
    case CStored0 => (c.(pc := CIndexed0, rearms := c.rearms + 1), SetFlag(Stored0, false))
    case CIndexed0 =>
      (c.(pc := CStored1, indexRearms := c.indexRearms + 1, count0 := c.count0 + 1), SetFlag(Indexed0, false))
    case CStored1 => (c.(pc := if s.fl.stored1 && c.count1 < MAX_FILE_COUNT then CAlt1 else CReq0), Nothing)
    case CAlt1 => (c.(pc := CStoredClear1), SetFlag(SliceAlt1, true))
    case CStoredClear1 => (c.(pc := CReq0, count1 := c.count1 + 1), SetFlag(Stored1, false))
    case _ => (c, Nothing)
  }

  // src/store.c:190-206, src/ubram.c:123-129
  function ControlCut(s: State, e: Env): (Control, Write) {
    var c := s.ct;
    match c.pc
    case CReq0 => (c.(pc := if s.hw.req0 then CAck0 else CReq1), Nothing)
    case CAck0 => (c.(pc := CSpin0), SetLine(Ack0, true))
    case CSpin0 => (if s.hw.req0 then c else c.(pc := CRelease0), Nothing)
    case CRelease0 => (c.(pc := CIndexSet), SetLine(Ack0, false))
    case CIndexSet => (c.(pc := CSliceSet0, latchedIndex := c.latchedIndex + 1), SetFlag(Index0, true))
    case CSliceSet0 => (c.(pc := CReq1, latched0 := c.latched0 + 1), SetFlag(Slice0, true))
    case CReq1 => (c.(pc := if s.hw.req1 then CAck1 else CIndexed), Nothing)
    case CAck1 => (c.(pc := CSpin1), SetLine(Ack1, true))
    case CSpin1 => (if s.hw.req1 then c else c.(pc := CRelease1), Nothing)
    case CRelease1 => (c.(pc := CSliceSet1), SetLine(Ack1, false))
    case CSliceSet1 => (c.(pc := CIndexed, latched1 := c.latched1 + 1), SetFlag(Slice1, true))
    case _ => (c, Nothing)
  }

  function ControlStep(s: State, e: Env): (Control, Write) {
    if s.ct.pc.Granting() then ControlRearm(s, e) else ControlCut(s, e)
  }

  // Hardware raises a request only while the acknowledge is low and lowers it only while it
  // is high; a new page appears only while the last one is invalid and released.
  datatype Signal = Raise0 | Lower0 | Raise1 | Lower1 | Publish(p: Page) | Consume

  function HardwareStep(w: Hardware, signal: Signal): Hardware {
    match signal
    case Raise0 => if !w.req0 && !w.ack0 then w.(req0 := true, raised0 := w.raised0 + 1) else w
    case Lower0 => if w.req0 && w.ack0 then w.(req0 := false) else w
    case Raise1 => if !w.req1 && !w.ack1 then w.(req1 := true, raised1 := w.raised1 + 1) else w
    case Lower1 => if w.req1 && w.ack1 then w.(req1 := false) else w
    case Publish(p) =>
      if !w.valid && !w.invalidate then w.(valid := true, page := p, published := w.published + [p]) else w
    case Consume => if w.valid && w.invalidate then w.(valid := false) else w
  }

  // Who moves next. Network clients may write the command registers in any order at any time;
  // Out(n) is the rest of the process, which takes a free number or gives one back.
  datatype Step =
    | MnStep(e: Env) | SyStep(e: Env) | LsStep(e: Env) | CtStep(e: Env)
    | Net(reg: RegisterName, value: bool)
    | Hw(signal: Signal)
    | Other(n: int)

  function Store(s: State, who: Who, w: Write): State {
    s.(fl := FlagsAfter(s.fl, w), rg := RegistersAfter(s.rg, w), nm := NamesAfter(s.nm, w), hw := LinesAfter(s.hw, w),
       os := TableAfter(s.os, who, w))
  }

  function UsedAfter(s: State): Session {
    match s.mn.pc
    case MNum => s.se.(drift := false)
    case MOpen =>
      if s.mn.live && s.nm.mnNum > 0 && !s.se.drift then s.se.(used := s.se.used + [(s.mn.num, s.mn.base)]) else s.se
    case MStopCompare => s.se.(stale := false)
    case _ => s.se
  }

  function MainNext(s: State, e: Env): State {
    var r := MainStep(s, e);
    Store(s, Mn, r.1).(mn := r.0, se := UsedAfter(s))
  }

  function IndexUsedAfter(s: State): IndexSession {
    var x := s.sy;
    match x.pc
    case INum => s.ix.(drift := false)
    case IOpen => if x.live && s.nm.syNum > 0 && !s.ix.drift then s.ix.(used := s.ix.used + [(x.num, x.base)]) else s.ix
    case IStopCompare => s.ix.(stale := false)
    case _ => s.ix
  }

  function IndexNext(s: State, e: Env): State {
    var r := IndexStep(s, e);
    Store(s, Sy, r.1).(sy := r.0, ix := IndexUsedAfter(s))
  }

  function SessionAfter(s: State): Session {
    var m := s.mn.pc;
    match s.ls.pc
    case LReset => Session(false, false, false, false, [])
    case LMnReset =>
      Session(true, !m.Numbering() && (s.rg.fileMark || m.Opening()), m.Comparing(), m.Numbering() && !m.MNum?, [])
    case _ => s.se
  }

  function IndexSessionAfter(s: State): IndexSession {
    var x := s.sy.pc;
    match s.ls.pc
    case LReset => IndexSession(false, false, false, [])
    case LSyReset => IndexSession(true, x.Comparing(), x.Numbering() && !x.INum?, [])
    case _ => s.ix
  }

  function PulseNext(s: State, e: Env): State {
    var r := PulseStep(s, e);
    Store(s, Ls, r.1).(ls := r.0, se := SessionAfter(s), ix := IndexSessionAfter(s))
  }

  function ControlNext(s: State, e: Env): State {
    var r := ControlStep(s, e);
    Store(s, Out, r.1).(ct := r.0)
  }

  // A 0 written to FILE_MARK is one more token.
  function NetNext(s: State, reg: RegisterName, value: bool): State {
    Store(s, Out, SetReg(reg, value)).(
      se := s.se.(clean := s.se.clean && (reg == FileMark && !value ==> s.Spare())))
  }

  function OtherNext(s: State, n: int): State {
    if s.os.Free(n) then Store(s, Out, Sys(OpenAt(n), 0))
    else if n in s.os.others then Store(s, Out, Sys(CloseAt(n), 0))
    else s
  }

  function Next(s: State, st: Step): State {
    match st
    case MnStep(e) => MainNext(s, e)
    case SyStep(e) => IndexNext(s, e)
    case LsStep(e) => PulseNext(s, e)
    case CtStep(e) => ControlNext(s, e)
    case Net(reg, value) => NetNext(s, reg, value)
    case Hw(signal) => s.(hw := HardwareStep(s.hw, signal))
    case Other(n) => OtherNext(s, n)
  }

  // The state after any interleaving of steps.
  function Exec(s: State, steps: seq<Step>): State {
    if steps == [] then s else Next(Exec(s, steps[..|steps| - 1]), steps[|steps| - 1])
  }

  ghost predicate Reachable(boot: Boot, s: State) {
    exists steps :: Exec(Init(boot), steps) == s
  }

  // One more step of a concrete run.
  lemma Go(boot: Boot, s: State, st: Step) returns (t: State)
    requires s == Init(boot) || Reachable(boot, s)
    ensures t == Next(s, st) && Reachable(boot, t)
  {
    hide Next;
    t := Next(s, st);
    assert Exec(Init(boot), []) == Init(boot);
    var steps :| Exec(Init(boot), steps) == s;
    assert (steps + [st])[..|steps|] == steps;
    assert Exec(Init(boot), steps + [st]) == t;
  }
}
