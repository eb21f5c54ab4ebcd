# The recorder, in Dafny

A model of the recording software: three receiver threads write a main, a pulse and an index
stream to disk, a control thread re-arms them and passes on the cuts raised by the hardware,
and client processes start and stop it all through registers in shared BRAM. The threads have
no locks. They coordinate through single-byte flags, and everything they promise rests on the
order in which those flags are written.

The model has two layers.

- **The protocol** (`Protocol.dfy`) is a small-step transition system. Each thread has a program
  counter. Each access to a shared flag, register or name slot and each system call is one step;
  memory is sequentially consistent. DMA outcomes, FIFO levels, flow control, cut requests,
  published pages, the numbers that opens return and the clock come from an unconstrained
  environment. Network clients may write any command register at any moment, which covers every
  command in every order (and every initial register value). Open files are held under descriptor
  numbers in one table for all threads (`Descriptors.dfy`): an open takes a free number, a close
  frees a number whoever holds it, a write reaches whoever holds it. Fields marked "history"
  record the past and decide nothing. Every theorem about the protocol is for every finite
  sequence of steps of anybody (`Exec(Init(boot), steps)`).
- **The code as it runs** (`PulseReceiver.dfy`, `MainReceiver.dfy`, `IndexReceiver.dfy`, `Kernel.dfy`,
  `Dma.dfy`, `WorkState.dfy`, `CreateDir.dfy`, `FileCount.dfy`, `CheckBuf.dfy`) is imperative: classes
  with arrays and loops, each method proved against a specification function. `Channels.dfy` holds
  the data functions that the protocol and the classes share, and the three `*Refinement.dfy`
  modules prove that whatever a receiver thread of the protocol does, in any interleaving, is a
  run of the class that makes the same system calls in the same order.

The invariants are split by subject. `Barrier` is the re-arm barrier. `Ownership` says who holds
which descriptor number. `MainRecording`, `PulseRecording` and `IndexPages` keep the books of the
three streams: what was delivered, what is in the files, what is staged, what was lost and what
another thread wrote there. `Companions` is about numbers and names of main files, `IndexNames`
about those of index files, `MarkTokens` about the FILE_MARK token, `Removals` about the files
removed by name at a STOP, `Cuts` about the cut handshake, `WorkSteps` about clients that come in
between each other. `Frames` says what a step leaves alone. Three modules are about what the threads
and the hardware can do from any reachable state without another command: `Continuations` up to the
next main file, `Rotations` from a cut on channel 1 to the next slice and on to its main file, `Stops`
up to the end of a STOP. `Witnesses` holds the runs that show conditions to be needed, made of the
pieces in `Runs`; a command in them is the whole row of register writes of a client.

## What turned out to be false of the code

- *A transfer has a file to go to.* `fd[]` is unsigned (src/store.c:75), so the test for a failed
  open (src/store.c:391) never holds: the receiver goes on, and everything it takes in that period
  is written to the number -1 (`Witnesses.TransferWithoutFile`). `MainRecording.MainTransfersSafely`
  and `MainLosses` give the exact condition.
- *With opens succeeding, the files hold what was delivered.* A STOP closes numbers that the
  threads may not hold. After a STOP before the first START, START can be given the number 0,
  which the test `fd > 0` (src/store.c:545) refuses, and every flush is dropped
  (`Witnesses.ZeroLoses`). A number closed by one thread and given to the pulse file can be closed
  again by the first one (`Witnesses.RobbedLoses`), or written (`Witnesses.Trespass`).
  `PulseRecording.PulseConservation` says when nothing is lost, `PulseLosses` which writes lose.
- *At most one cut is on its way.* The acknowledge falls before `chan_slice` is written, so a
  second cut can be raised before the first is latched (`Cuts.TwoCutsOnTheWay`). Nothing is lost:
  the exact count is `Cuts.CutsExactlyOnce`.
- *`mn_file_num <= ls_file_num`.* FILE_MARK is the token for one more main file, and
  `enable_data_source(0)`, called by STOP and on a full disk, writes 0 to it (src/ugpio.c:206-219).
  This lets the receiver open a file beyond the issued slices if and only if it was not opening one,
  had no issued slice left, and is ready for its next file or can still be armed once more
  (`Continuations.ForgedToken`; runs `Witnesses.PhantomFile` and `Witnesses.DiskFullOpensPhantom`).
  A START breaks the law by its reset if and only if the receiver is about to count a file, or
  FILE_MARK is 0 with no open under way (`Continuations.ResetLaw`; runs
  `Witnesses.ResetWhileNumbering` and `Witnesses.ResetUnderForgedMark`). In all other sessions
  `Companions.TokenAccounting` holds.
- *A main file has the name of its pulse slice.* A reset that finds the receiver between its reading
  of the number and its store leaves it with the number or the name of the session before, for this
  one file (`Witnesses.OldName`). All later files are named as promised (`Companions.CompanionName`).
- *The source is enabled exactly in RECORD, whatever the clients.* The work state and the source
  are written by separate accesses, and clients are separate processes. It holds as long as no two
  of them act at the same time (`WorkSteps.NoOverlapIsSafe`); in general it holds exactly when the
  last closing write found what it needs (`WorkSteps.SafeExactlyWhenLastFits`). Four overlaps that
  break it are given, one for each closing write.
- *An unreadable subdirectory contributes 0xffff.* The failed `opendir` leaves `errno` set, and the
  caller exits when its loop ends, unless a later sibling that opens has cleared it
  (`FileCount.GetFileCount`, `FileCount.LoneBlockedExits`).

## Model

| member | source | states |
|---|---|---|
| `Barrier.ArmedStep` | src/store.c:216-227 | every step of every thread, of a client or of the hardware keeps: who may rely on which flag, how generations relate to re-arms, and which opens are still owed |
| `Barrier.ArmedRun` | src/store.c:211-243 | the same holds in every reachable state |
| `Barrier.BarrierHolds` | src/store.c:216-227 | counting 0-to-1 changes of chan_stored[0] and chan0_indexed, the two receivers are never more than one generation apart, and whoever works on generation n + 1 finds n finished by both, STOP branches included |
| `Barrier.OpensBounded` | src/store.c:213-227 | main opens tried, failed ones included, plus an unused chan_slice_alt[0] never exceed the re-arms granted plus one, index opens never exceed the re-arms plus one, and all stay within MAX_FILE_COUNT |
| `Barrier.IndexOpensOnce` | src/store.c:310-318 | a successful open of the index receiver is the first one of the generation it is armed for |
| `Barrier.NoMoreFiles` | src/store.c:218-228 | once slice_count[0] is at the limit and the last grant is used, no continuation of any kind opens another main file |
| `MainRecording.RecordingStep` | src/store.c:354-445 | every step of anybody keeps: an armed and started receiver is between an open and its close, staged bytes are a multiple of 0x8000 below the threshold, and the books of the period balance |
| `MainRecording.MainConservation` | src/store.c:384-438 | on every run, all bytes delivered on channel 0 are, in order, those of the finished periods and of the current one; when the open of a period succeeded, nobody else closed its number and nobody else wrote there, a cut leaves exactly its bytes in its file and a STOP all but fewer than 0x60000 at the end |
| `MainRecording.MainLosses` | src/store.c:390-424 | in a period that nobody else wrote into, bytes are missing from the file if and only if some write missed it; that takes a failed open or a close by another thread, and after a failed open no byte reaches any file |
| `MainRecording.MainLosesWhen` | src/store.c:409-422 | step by step: bytes of the current period are lost if and only if a flush or a last write passes staged bytes to a number the thread does not hold |
| `MainRecording.MainTransfersSafely` | src/store.c:403-407 | a transfer is only ever started between an open and its close, on a 0x8000 boundary, and ends inside the 96 pages checked at src/ummap.c:246-253 and inside the 0x200000 buffer; it has an open file if and only if the last open succeeded and no other thread closed its number |
| `Witnesses.TransferWithoutFile` | src/store.c:390-404 | a reachable state in which a transfer starts after a failed open, with no file |
| `MainRecording.MainAccounting` | src/store.c:404-422 | the equality test of the flush is never overshot; file_read_bytes equals write_disk_bytes plus read_bytes modulo 2^32; before a cut closes the file write_disk_bytes is the number of bytes delivered in the period, which is the length of the file plus what was lost less what was alien |
| `MainRefinement.ProtocolRunsArrayCode` | src/store.c:354-445 | at every loop head of every interleaving the locals and the system calls made, in order and with arguments, are those of some run of the array code, which took exactly the bytes delivered |
| `PulseRecording.RecordingStep` | src/store.c:446-603 | every step of anybody keeps the books of the session: files plus staged bytes plus lost ones are what was delivered plus what was alien, with one file for each name while nothing failed |
| `PulseRecording.PulseConservation` | src/store.c:446-603 | from a START on and until the next one, on every run: the books balance; as long as no other thread wrote into the files, they and the staged bytes are exactly the bytes delivered if and only if no write missed; none misses while opens succeed with positive numbers, no STOP is seen and nobody else closes a number; STOP finds fewer than 0x60000 bytes not yet written |
| `PulseRecording.PulseLosses` | src/store.c:543-560 | bytes are lost in a step if and only if it is a flush that finds the number not positive or no longer its own, or a last write that finds it no longer its own, with bytes not written before |
| `Witnesses.ZeroLoses` | src/store.c:543-550 | a reachable state in which 0x60000 bytes are lost because START was given the number 0, every open and transfer having succeeded |
| `Witnesses.RobbedLoses` | src/store.c:366-381 | a reachable state in which 0x60000 bytes are lost because the main receiver, at a second STOP, closed the number that START was given, while a write of the pulse receiver was under way; the run is START, STOP, START, STOP |
| `PulseRecording.PulseAlien` | src/store.c:411-420 | step by step: a step of the main receiver puts alien bytes into the current pulse file if and only if it writes staged bytes on the number that file is open under |
| `Witnesses.Trespass` | src/store.c:297-411 | a reachable state with 0x60000 alien bytes in a pulse file: the index receiver closed the number of the main file at a STOP, START was given it, and the main receiver then wrote |
| `PulseRecording.RemovesEmptyFile` | src/store.c:509-514 | the file that STOP removes is empty if it is still the thread's own and no other thread wrote into it |
| `Ownership.OneHolder` | src/store.c:297-582 | in every reachable state a number is held by one thread at most, by the thread that uses it, for all three receivers, and exactly as long as its open succeeded and nobody else closed it |
| `PulseRecording.PulseTransfersSafely` | src/store.c:534-550 | whether opens succeed or not, the flush test never misses and every transfer lies in the buffer and in the checked pages |
| `PulseRefinement.ProtocolRunsArrayCode` | src/store.c:446-603 | at every loop head of every interleaving the pulse data and the system calls made, in order and with arguments, are those of some run of the array code, which took since its last START exactly the bytes delivered |
| `Companions.NamedStep` | src/store.c:479-499 | every step keeps, in every session: the last 128 slice names are in the ring; file_name belongs to the number taken last, from the first reading of that number after the reset on; in a clean session FILE_MARK is 0 only if a slice is left to catch up with, and the name was fetched in time unless the slice is 128 or more back |
| `Companions.CompanionName` | src/store.c:388-389 | for every file whose number k was read after the reset by START, in every session: the name fetched for it, with slice k recorded and fewer than 128 slices back all the while, is the name of pulse slice k in the unbounded log, and so is the name of the file opened; in a clean session slice k is always recorded, so that fewer than 128 slices back now is enough |
| `Witnesses.OldName` | src/store.c:388-495 | a reachable open under the name that slice 0 had in the session before: STOP and START come between the reading of file_name_all and the increment of mn_file_num |
| `Companions.TokenAccounting` | src/store.c:386-398 | in a clean session mn_file_num <= ls_file_num in every reachable state, strictly when FILE_MARK is 0 and no open is under way, even when a new window opens between the test and the write of 1, after failed opens, and after a STOP or a full disk that found an issued slice left or an open under way |
| `MarkTokens.TokenStays` | src/store.c:493-591 | once the pulse receiver is past the write that ends the open of a slice, FILE_MARK stays 0, whatever anybody does, until the main receiver writes 1 after its open or a client writes 1 |
| `MarkTokens.TokenConservation` | src/store.c:386-591 | every token is accounted for, step by step: issued slices less main files counted less the token still to be used grow by one exactly when a token is issued on top of another one or during an open of the main receiver, or when the open of the slice failed; otherwise only a client's write changes this number, and in a clean session it is never negative |
| `Rotations.TurnOpensMain` | src/store.c:386-591 | from any reachable state with a slice being turned, the main receiver not opening but ready or able to be armed once more, and descriptors free: the threads and the hardware alone open the slice, issue its token and come to the next open of the main receiver |
| `Continuations.ForgedToken` | src/tcp_process.c:137-337 | from any reachable state of a clean session, whatever the threads are doing: after a write of 0 to FILE_MARK, as in STOP and on a full disk, the threads and the hardware alone come to open a file beyond the issued slices only if the main receiver was not opening one, had no issued slice left, and is ready for its next file or can be armed once more; and then they can, if it is ready or a descriptor is free; that is beyond all slices unless one is half issued |
| `Continuations.Rearms` | src/store.c:187-243 | from any reachable state with the main receiver not opening, room for a re-arming and a descriptor free, the hardware can cut channel 0, both receivers end their generation, unless the main one opens another file first, and control arms them again; a re-arming under way is finished |
| `Continuations.NeverOpens` | src/store.c:187-438 | when the main receiver is not opening a file, is not ready for its next one and slice_count[0] allows no further re-arming, the threads and the hardware alone never come to another open, whatever they do |
| `Continuations.ResetLaw` | src/store.c:493-495 | the reset of the numbers by START keeps the law right after it if and only if the main receiver is not between its test of FILE_MARK and its store of the number, and FILE_MARK is 1 or about to be written 1; then threads and hardware alone keep it too; otherwise they can break it when the receiver is in between, or is ready, or can be armed once more with a descriptor free, and never when it is none of the first two and cannot be armed |
| `Witnesses.PhantomFile` | src/tcp_process.c:326-337 | after a STOP before any START, with all its register writes, a reachable state in which the main receiver opens a file numbered beyond all slices |
| `Witnesses.DiskFullOpensPhantom` | src/tcp_process.c:137-146 | START, the first main file, a cut and a re-arming lead to a clean session with no issued slice left; a full disk then lets the main receiver open a file beyond all slices |
| `Witnesses.ResetWhileNumbering` | src/store.c:388-495 | a reachable reset that finds the main receiver about to count a file, and leads beyond all slices |
| `Witnesses.ResetUnderForgedMark` | src/store.c:386-495 | a reachable reset that finds FILE_MARK 0 with no open under way, and leads beyond all slices |
| `Removals.MainRemovals` | src/store.c:366-371 | on every run a main file was removed if and only if a STOP closed it and the receiver saw zero_mark 1 and read a number equal to ls_file_num; if that number was counted in the session and the name fetched in time, as always in a clean session less than 128 slices behind, the file is the companion of the pulse file found empty if and only if the number read is the count of slices then; so as long as no cut opened another slice the companion and nothing else is removed |
| `Removals.IndexRemovals` | src/store.c:288-289 | the same for index files whose name was fetched in time |
| `Stops.EmptyIsMarked` | src/store.c:509-514 | a STOP that finds the pulse file open and empty sets zero_mark, notes which slice it was and removes the file; one that finds bytes in it does none of this |
| `Stops.ZeroMarkStep` | src/store.c:463-512 | zero_mark is 1 from such a STOP until the next START and at no other time |
| `Stops.StopIsObeyed` | src/store.c:284-531 | from any reachable state with its stop register 1 each receiver comes by its own steps, and the index receiver with the hardware's, to have cleared the register and closed its file; the pulse receiver may need a descriptor for a START that is pending |
| `Companions.SliceNamesDistinct` | src/store.c:579-582 | all file names of a session differ by slice number and stream |
| `Companions.LiveOpensDistinct` | src/store.c:388-390 | in every session all live main files counted by a number read after the reset have different names, and an open of another one is not under any of them, so it truncates none; in a clean session every file opened fewer than 128 slices after its own counts |
| `IndexNames.NumberedStep` | src/store.c:310-313 | every step keeps, in every session: file_name of the index receiver belongs to the number it took last, from the first reading of sy_file_num after the reset on |
| `IndexNames.IndexCompanionName` | src/store.c:310-313 | START resets sy_file_num to 0 and each open counts it up by one; for every number k read since, the name fetched, with slice k recorded and fewer than 128 slices back all the while, is the name of pulse slice k, and so is the name of the file opened |
| `IndexNames.LiveIndexFilesDistinct` | src/store.c:311-313 | in every session the live index files have ascending numbers and different names, so no open of one truncates another |
| `Naming.DecimalReads` | src/store.c:481 | "%d" gives digits that evaluate to the number |
| `Naming.BaseNameReads` | src/store.c:466-482 | a base name reads back as its directory, "20", year, month, day, hour, minute and second in two hexadecimal digits each at their places, and the slice number |
| `Naming.BaseNameInjective` | src/store.c:481-482 | base names of one directory agree only for one time and one slice number |
| `Naming.FileNameInjective` | src/store.c:311 | files of different streams or slices never share a path |
| `Cuts.CutStep` | src/ubram.c:116-129 | every step keeps the handshake, the count of cuts acted on, the arming of the pulse stream and that no latched cut is forgotten |
| `Cuts.CutsExactlyOnce` | src/store.c:187-209 | on every run cuts raised = cuts latched + those in progress, at most two; outside the handshake the acknowledge is low and at most one is in progress; and chan_slice[0], chan0_index and chan_slice[1] are 1 exactly when more cuts were latched than when their receiver last cleared them |
| `Rotations.CutLeadsOn` | src/store.c:195-237 | from any reachable state, STOP and START pending included, with fewer than MAX_FILE_COUNT slices turned and a descriptor free: the hardware can cut channel 1, and the pulse receiver closes its slice, opens the next one as an empty file, issues the token and clears the cut; unless that was the last one, control then clears chan_stored[1] |
| `Cuts.NoSpuriousRotation` | src/store.c:555-596 | rotations done plus the pending flag never exceed the cuts raised, for the main, index and pulse streams, and the pulse stream rotates at most MAX_FILE_COUNT times |
| `Cuts.TwoCutsOnTheWay` | src/ubram.c:123-129 | a reachable state in which two cuts are raised and none is latched |
| `IndexPages.PagedStep` | src/store.c:301-347 | every step of anybody keeps: the valid/invalidate handshake, that the bytes copied so far are those of the published page, and the books of the current file |
| `IndexPages.PagesWhole` | src/store.c:301-347 | every published page is taken whole, once and in order; the pages due to a closed file are consecutive and end at the last page taken before the close, and runs of successive files do not overlap; if nobody else wrote there, the file holds exactly these pages if and only if no write missed it, as is the case when nobody else closed its number |
| `IndexPages.PageLostWhen` | src/store.c:325-332 | step by step: a page due to the current file is lost if and only if it is saved on a number the thread does not hold |
| `IndexPages.NothingPartial` | src/store.c:334-336 | recv_bytes is 0 at every cut check, so the memcmp arm is never needed |
| `IndexRefinement.ProtocolRunsArrayCode` | src/store.c:271-352 | at every loop head of every interleaving the page buffer, the pending count and the system calls made, in order and with arguments, are those of some run of the array code, which took exactly the pages the thread took |
| `Dma.DmaChannel.IoctlRead` | src/udma.c:445-479 | the result is 0x8000 for each successful transfer, the buffer changes at pos to what the transfers left and nowhere else, and the counters count every attempt and every success |
| `Dma.DmaChannel.CountersAgree` | src/udma.c:458-470 | bytes ever reported equal 0x8000 times the wrapping dma_rd_count, modulo 2^32 |
| `PulseReceiver.IterationConserves` | src/store.c:534-598 | one iteration with a positive number in use, whatever it reads, keeps all bytes of the session and adds the chunk it took |
| `PulseReceiver.RunConserves` | src/store.c:457-603 | any number of iterations between START and STOP, with opens returning positive numbers, lose, repeat and reorder nothing |
| `PulseReceiver.Receiver.NewName` | src/store.c:579-582 | the next file name is none of the session's names |
| `PulseReceiver.Receiver.Start` | src/store.c:460-503 | START empties the buffer and the session and begins with one empty file if the open succeeds; the slice number becomes 1 only then |
| `PulseReceiver.Receiver.Stop` | src/store.c:505-531 | if the file is still open under the number, it is removed from disk if and only if it is empty; every other file on disk stays as it was, and the number is closed |
| `Kernel.Files.PadAndTruncate` | src/store.c:561-563 | the pad written at the end and truncated away leaves the disk as it was |
| `PulseReceiver.Receiver.CloseSlice` | src/store.c:557-564 | the staged bytes go in full to the file open under the number, no other file changes, and the number is closed |
| `PulseReceiver.Receiver.OpenNext` | src/store.c:579-592 | a new empty file follows the others and the number is used up whether or not the open succeeds |
| `PulseReceiver.Receiver.Iterate` | src/store.c:457-601 | one turn of the loop over array, number and disk has the specified effect on the data, on file_name with the directory and the number in it and on the disk, and makes the specified system calls; the session's files on disk are those these calls leave |
| `PulseReceiver.Receiver.Run` | src/store.c:457-601 | so does any number of turns, and read_bytes stays below the threshold at every loop head |
| `MainReceiver.RunAccounts` | src/store.c:364-442 | for any readings of the flags, failed opens and transfers included, the counters agree at every loop head and staged bytes are a multiple of 0x8000 below the threshold |
| `MainReceiver.Receiver.Iterate` | src/store.c:364-442 | one turn of the loop over array, counters and the unsigned number has the specified effect on them, on file_name and on the disk, the removal at STOP included, and makes the specified system calls |
| `MainReceiver.Receiver.Run` | src/store.c:364-442 | so does any number of turns |
| `IndexReceiver.RunKeepsPages` | src/store.c:301-332 | while a file stays open every page offered is written to its number, whole, once and in order |
| `IndexReceiver.Receiver.UbramRead` | src/ubram.c:66-76 | size bytes of the BRAM arrive at the offset and nothing else changes; a request for too much copies nothing and returns 0 |
| `IndexReceiver.Receiver.Iterate` | src/store.c:282-349 | one turn of the loop over buffer, counts and number has the specified effect on them, on file_name and on the disk, the removal at STOP included, and makes the specified system calls, with the memcmp arm left undecided |
| `IndexReceiver.Receiver.Run` | src/store.c:282-349 | so does any number of turns |
| `WorkState.SourceFollowsWork` | src/tcp_process.c:137-152 | for any polls and commands of any number of clients that do not overlap, the data source is enabled exactly while register 25 is RECORD |
| `WorkState.StartNeedsSpace` | src/tcp_process.c:112-152 | for one client, a START after its poll enables the source if and only if the blocks in use in the poll's own snapshot times the block size stay below the capacity and the device was not recording; with no space the device ends in DISKFULL, the source off |
| `WorkSteps.SafeExactlyWhenLastFits` | src/tcp_process.c:137-337 | for any number of clients and any interleaving of their single accesses: whenever no client is between two writes that belong together, the source is enabled exactly in RECORD if and only if the last closing write found what it needs, a check by program counter (DISKFULL and READY: the source off; a START: the state RECORD; a STOP: another state) |
| `WorkSteps.NoOverlapIsSafe` | src/tcp_process.c:137-337 | if no two clients act at the same time, every closing write finds what it needs, and the source is enabled exactly in RECORD whenever nobody acts |
| `WorkSteps.SoloPoll` | src/tcp_process.c:137-152 | the single accesses of a poll that nobody interrupts add up to its specified effect |
| `WorkSteps.SoloCommand` | src/tcp_process.c:263-337 | so do those of a command |
| `WorkSteps.StopInsideStart` | src/tcp_process.c:263-311 | a STOP between the two writes of a START can leave the source enabled outside RECORD |
| `WorkSteps.StartInsideStop` | src/tcp_process.c:326-337 | a START between the two writes of a STOP can leave RECORD without the source |
| `WorkSteps.StartInsidePoll` | src/tcp_process.c:137-152 | a START between the reading and the write of a poll can leave the source enabled in READY or DISKFULL |
| `WorkSteps.SessionInsidePoll` | src/tcp_process.c:139-146 | so can a STOP, a poll and a START of another client after a poll on a full disk disabled the source |
| `WorkState.Statfs.Available` | src/tcp_process.c:112-122 | the reserve saturates: it is 0 exactly when the blocks in use times the block size reach the capacity, and otherwise reserve and bytes in use add up to it; beyond 64 bits the product wraps as in the source |
| `WorkState.CommandsAreNetSteps` | src/tcp_process.c:263-337 | the register writes of each command and poll, as network steps of the protocol, lead to the registers the command leaves and touch nothing else; STOP and a full disk spoil the token accounting exactly when the main receiver has no issued slice left |
| `WorkState.ServedIsAfter` | src/tcp_process.c:104-160 | what the server loop does for one client is a sequence of poll and command events, so the interleaving results apply to it |
| `WorkState.Station.Poll` | src/tcp_process.c:107-152 | the poll has the specified effect, and none at all on a foreign file system |
| `WorkState.Station.Dispatch` | src/tcp_process.c:162-337 | START, STOP and every other command have the specified effect on the registers and the source |
| `WorkState.Station.Serve` | src/tcp_process.c:104-160 | the loop for one client, until it hangs up, has the specified effect |
| `CreateDir.CreateDir` | src/store.c:624-647 | it succeeds if and only if every ancestor exists or can be made; then exactly the missing ancestors were made; mkdir is asked for missing directories only, each once and after its parent existed; existing directories stay |
| `CreateDir.Visit` | src/store.c:631-644 | at a slash the cut path is looked up and made if missing, and a completed visit leaves the path buffer as it was |
| `CreateDir.AncestorIsPrefix` | src/store.c:629-633 | every path that is cut out leads towards the whole path, repeated slashes included |
| `CreateDir.PrefixIsAncestor` | src/store.c:629-633 | no directory on the way is left out |
| `CreateDir.CStringIs` | src/store.c:633 | the C library reads a buffer cut at position n as its first n characters |
| `FileCount.GetFileCount` | src/tcp_process.c:605-646 | the recursion over shared errno returns the sum of the contributions, or exits exactly when some directory's last unreadable subdirectory has no later sibling that opens |
| `FileCount.CountIsPaths` | src/tcp_process.c:619-639 | the sum is the number of paths of regular files at any depth plus 0xffff for every directory that cannot be opened |
| `FileCount.LoneBlockedExits` | src/tcp_process.c:614-644 | an unreadable subdirectory alone makes the program exit rather than contribute 0xffff |
| `CheckBuf.Check` | src/udmabuf.c:29-49 | for every size, each of the nine passes writes every address once and in order, every cell ends as its address modulo 256, the result counts each faulty cell once for each pass, and it is 0 on faithful memory |
| `CheckBuf.Pass` | src/udmabuf.c:36-46 | the variable stride covers the buffer, the short last block included |
| `CheckBuf.FaultsCount` | src/udmabuf.c:41-45 | what is counted is the number of cells stuck at a wrong value |

## Left out

- Companions.TokenAccounting: holds for clean sessions (the reset by START found the main receiver not between its test of FILE_MARK and its store of the number, and FILE_MARK 1 or about to be written 1, and no client wrote 0 to FILE_MARK while there was no slice to spare), because the code breaks the law in the others; `ResetLaw` and `ForgedToken` say how.
- Continuations.ForgedToken: where a slice is counted and its token not issued yet (four program points of the pulse receiver), the continuation exceeds the issued slices, and equals all slices; exceeding those too would take another re-arming. In a process that has no descriptor free, with the receiver not ready, only the half that excludes is claimed, because the index receiver may need one to end its generation; the same holds for `ResetLaw`.
- Companions.CompanionName: leaves out the one file that the main receiver had in hand, between its reading of the number and its store, when START reset the numbers, because it then uses a number or a name of the session before (`Witnesses.OldName`).
- Removals.MainRemovals: says of no file that its comparison was under way when START reset the numbers, nor of the one of `Witnesses.OldName`, which name was removed.
- IndexNames.IndexCompanionName: leaves out the one file that the index receiver had in hand when START reset sy_file_num, for the reason given for main files.
- Companions.LiveOpensDistinct: is about live fetches; one that is not live may return the name of a slice 128 or more back, or of an earlier session, and the open then truncates that file. The protocol identifies files by the open that made them, so this is not followed further.
- Cuts that are raised between the reading and the clearing of `chan_slice` are merged by the source; one rotation for each cut is not claimed.
- `chan_slice_alt[1]` is 1 from the start, never cleared and never read; nothing is claimed about it.
- `sy_file_num` is modelled but nothing is claimed about how it relates to `mn_file_num`, since the index receiver may open twice, or not at all, in one FILE_MARK window.
- `mn_file_num++` and `sy_file_num++` are a load and a store; `ls_file_num++` is one step, since no other thread writes it. A name is copied out of the ring in two readings and is torn if they differ.
- lseek, pad and ftruncate at src/store.c:561-563 are one step of the protocol; on another thread's file they move its offset, and what that does to its next write is counted as alien.
- A removal by name is a call that leaves the contents of an open file alone, which are those of the file, linked or not; in the protocol a file is known by the open that made it.
- A failed transfer may leave anything in its part of the staging buffer (`Dma.Transfer`); short transfers count for nothing, as in the source.
- Files are byte sequences; O_DIRECT alignment, short writes, permissions and a disk that fills up in the middle of a write are not modelled.
- `chan_cut_req` (src/ubram.c:116-122) has no return statement for a register that is 0; the model reads it as 0.
- Fixed C buffer sizes (file_name, file_name_sys, the paths of get_file_count), and the overflow of int counters, including the stride arithmetic of check_buf near 2^32 and the 16-bit reply that carries a file count.
- In `CreateDir` the names "." and ".." and symbolic links are ordinary components, and a path that does not fit in 256 characters is outside the contract.
- In `FileCount` only opendir sets errno; a readdir that fails half way makes the source exit and is not modelled.
- `gMutexDma` (src/udma.c:459-471) is a test-then-set without exclusion; conservation is proved without it, each channel having its own buffer.
- Liveness: nothing says that a thread eventually moves, that hardware answers, or that a cut is eventually served.
- Timing, speed figures, `usleep`, SPEED registers and the log output.
- Serial port, heartbeat, sockets, mmap, pagemap, huge pages and device setup; what they hold are numbers that the rest of the process takes and gives back.
- Reply frames, set_datetime, the BCD time fields, the low-space warning and the self-tests, which would only add easy members.
