# MktDataAggregator core in Dafny

The core has three parts, which this project models:

- **Producer side.** Each market-data file is read line by line through a
  memory-mapped window (`MMF`). When the cursor reaches the end of the
  window, the window is moved forward.
- **Reader.** A `ChunkedFileReader` tags every record with the file's symbol
  and the record's hour, then pushes it onto a multi-producer single-consumer
  queue (`MPSCQueue`). When the hour changes, the producer reports the end of
  its batch before enqueuing.
- **Hour.** `GetHourFromTimestamp` reads the hour of a record with the rules
  of `std::stoul`.

Files:

- `wrappers.dfy`: `Option` and `Min`.
- `mmf_spec.dfy` (module `MmfSpec`): the fields of an `MMF` object as a value
  (`State`). Every operation is a function on that value: the remapping
  reader and writer of `Mmf.cpp`, and the fixed-window reader, cursor
  operations and getters of `Mmf.hpp`. Lemmas state what the operations
  promise. `Drain` and `Lines` describe reading a file to its end.
- `mmf.dfy` (module `Mmf`): class `MappedFile` holds the same fields, and its
  methods update them in place. Each method is proved to produce exactly the
  state and result of the matching `MmfSpec` function. The line scan is a
  loop, as in the source.
- `mpsc_queue.dfy` (module `MpscQueue`): class `Queue<T>` holds `queue_`,
  `cache_` and `done_file_count_`. The consumer's cache swap is modelled, and
  a proof shows the queue stays first-in first-out.
- `mkt_data.dfy` (module `MktData`): `std::stoul` on the two-character hour
  field, including leading white space, a sign, the wrap of a minus modulo
  2^64, and the exception when there is no digit.
- `chunked_file_reader.dfy` (module `ChunkedFileReader`): the symbol taken
  from the file name and the default chunk size. `Process` states what `Run`
  does to the file's lines. Class `Reader` runs the source's loop against
  `MappedFile` and `Queue`, and is proved to do what `Process` says.

Where the code and the written design disagree, the model follows the code:

- **A line that straddles two windows comes back as two records.** Reading
  resumes at the first unread byte after the remap. The design says the two
  halves are joined into one line.
- **A write that grows the file pads it with NUL bytes.** The file is
  doubled, not trimmed, so reading it back yields the written lines followed
  by NUL-filled records. The design says you get back exactly the lines
  written.
- **`Run` reads through the remapping `ReadLineView(true)` of `Mmf.cpp`.**
  `Mmf.hpp` declares a remap-free `ReadLineView()`, which is modelled too, as
  `ReadLineFixed`.
- **`WriteLine` and the whole-file constructor follow `Mmf.cpp`.** `Mmf.hpp`
  carries an older copy of both, at `Mmf.hpp:80-135` and `Mmf.hpp:212-287`,
  and the model does not follow it.
- **After a remap, `Reset` replays only the last window.** `Reset`
  (`Mmf.cpp:423-431`) sets the cursor to 0 of the current window and does
  not map the first window again. So the remapping reader repeats its lines
  after `Reset` only when its window reaches the end of the file. The design
  promises the replay for any number of cycles. That promise holds for the
  remap-free reader of `Mmf.hpp`, on every window.
- **`GetMappedOffset` is always 0 for a valid object.** `Mmf.hpp:446-448`
  says so, although the `Mmf.cpp` cursor keeps a non-zero `offset_` after a
  remap.

## Model

| member | source | states |
|---|---|---|
| MmfSpec.AlignedOffsetAndSize | Mmf.cpp:270-280 | the mapping starts at the page boundary at or below the offset, within one page of it, and is longer than the request by exactly the distance back to that boundary |
| MmfSpec.LineEnd | Mmf.cpp:331-337 | the scan stops at the first '\n' at or after the cursor, or at the end of the window when there is none |
| MmfSpec.Remap | Mmf.cpp:291-317 | a successful remap keeps the object valid and puts the cursor inside the new window, on the first byte after the old window |
| MmfSpec.RemapResumesAtFirstUnreadByte | Mmf.cpp:291-317 | the new window starts on a page boundary within one page before the first unread byte; the cursor is on that byte; the rest of the window is the next min(old window size, bytes left) bytes of the file |
| MmfSpec.NextLineBounds | Mmf.cpp:282-347 | when bounds are returned, the object is valid, the start is the cursor, which lies inside the window, and the end is the first '\n' after it or the end of the window |
| MmfSpec.BoundsAreTheLineAtTheCursor | Mmf.cpp:282-347 | the bounds enclose a '\n'-free run that ends at a '\n' or at the window's end; without a remap the object is left unchanged |
| MmfSpec.BoundsKeepCursor | Mmf.cpp:289-317 | finding the bounds, with or without a remap, keeps the absolute file position, the file and the mode, and leaves a live mapping |
| MmfSpec.ReadLine | Mmf.cpp:216-267 | invalid or unmapped: NotMapped; at the window's end with no remap due: EndOfFile; every failure leaves the cursor where it was; a returned line has no '\n' and clears the error |
| MmfSpec.ReadLineTakesScannedLine | Mmf.cpp:216-240 | the line returned is the window between the bounds, and the cursor moves past the '\n' if there is one |
| MmfSpec.ReadLineAdvances | Mmf.cpp:216-267 | a successful read strictly advances the absolute position, never past the end of the file, and keeps the file, size and mode |
| MmfSpec.ReadLineConsumes | Mmf.cpp:216-240 | the bytes the cursor passed over are the returned line, possibly followed by one '\n'; an empty line consumes exactly its '\n' |
| MmfSpec.ReadLineFixedIsReadLineWithoutRemap | Mmf.hpp:344-396 | the remap-free reader of Mmf.hpp behaves exactly like the Mmf.cpp reader with remapping switched off |
| MmfSpec.IsEOFExactlyWhenFixedReadFails | Mmf.hpp:437-439 | IsEOF holds exactly when the next remap-free read returns no line |
| MmfSpec.Reset | Mmf.cpp:423-431 | an invalid object returns and records NotMapped and keeps its cursor; a valid one goes back to position 0 and returns None; nothing else changes |
| MmfSpec.SetPosition | Mmf.cpp:433-445 | NotMapped when invalid; InvalidPosition exactly when the position is past the window; otherwise the cursor moves there with None; nothing else changes |
| MmfSpec.Resize | Mmf.cpp:396-401 | ftruncate gives a file of exactly the new length, which keeps the old bytes and fills the rest with NUL |
| MmfSpec.GrowSize | Mmf.cpp:381-386 | doubling the window until the write fits gives a size at least the need and the old size, of the form size·2^k, and less than twice the need unless no doubling happened |
| MmfSpec.WriteLine | Mmf.cpp:350-421 | NotMapped exactly when invalid or unmapped; WriteError exactly for a read-only object or an empty line; an error leaves the state unchanged; success leaves a shared writable mapping, of the whole file when it was whole before or when the write grew a window at offset 0, and keeps last_error_ |
| MmfSpec.WriteLineAppends | Mmf.cpp:365-421 | after a successful write, the file holds the line and '\n' at the cursor's old file offset, the bytes before it are untouched, and the cursor is just past the '\n'; from no mapping, the first mapping and the file are exactly the line's length plus one; a write that fits keeps the mapping, the window and the file length, and every byte after the '\n'; a write that does not fit leaves a writable mapping of the whole grown file from byte 0 |
| MmfSpec.GrowingWriteUnderWindowAtStart | Mmf.cpp:378-414 | a ReadWrite window over a ten-byte file at offset 0, with the cursor at its end, takes a one-byte line: the file grows to twenty bytes and holds the old bytes, the line and '\n' |
| MmfSpec.WriteLineGrowsByDoubling | Mmf.cpp:378-406 | a write that does not fit grows the file and the window together to the old size times a power of two (at least one doubling), which is twice the old size or less than twice the new cursor |
| MmfSpec.WriteThenReadRoundTrip | Mmf.cpp:350-421 | writing a line that has no '\n', then setting the cursor back to where the write began, reads the same line back and leaves the cursor where the write left it |
| MmfSpec.OpenFull | Mmf.cpp:47-96 | the constructor always yields an object that satisfies the invariant |
| MmfSpec.OpenFullOutcome | Mmf.cpp:47-96 | valid exactly when the file opens and the mode is not WriteOnly; a missing file is FileOpenFailed unless ReadWrite creates it; a valid object maps the whole file from byte 0, leaves an empty file unmapped, and is writable under ReadWrite |
| MmfSpec.OpenWindow | Mmf.cpp:98-165 | the window constructor always yields an object that satisfies the invariant |
| MmfSpec.OpenWindowCursor | Mmf.hpp:162-206 | an offset at or past the end is InvalidOffset; otherwise the window starts on the page at or below the offset, the cursor is on the byte at the offset, and min(size, bytes left) bytes follow it, read-only |
| MmfSpec.ReadLineStartsLines | Mmf.cpp:243-267 | a successful read takes the first of the lines left to read, and the rest are what the new state has left |
| MmfSpec.ReadLineEndsLines | Mmf.cpp:243-267 | once a read fails there are no lines left |
| MmfSpec.DrainSerializesToFileBytes | Mmf.cpp:216-347 | the records read to the end, each with its '\n' put back, are exactly the file's bytes from the cursor to where reading stopped |
| MmfSpec.ReadFailsOnlyAtFileEnd | Mmf.cpp:282-347 | a remapping read from a mapped object whose window lies inside the file fails only at the end of the file, with EndOfFile and nothing else changed |
| MmfSpec.DrainStopsAtFileEnd | Mmf.cpp:282-347 | reading a window-in-file object to its end stops with EndOfFile exactly at the end of the file |
| MmfSpec.DrainReadsToEndOfFile | Mmf.cpp:216-347 | reading to the end yields exactly the bytes from the cursor to the end of the file and stops with EndOfFile |
| MmfSpec.ReadingWholeFileReturnsIt | Mmf.cpp:47-96 | opening a non-empty file whole and reading it to the end gives back the whole file and ends with EndOfFile |
| MmfSpec.DrainKeepsWindowWithoutRemap | Mmf.cpp:289-291 | when no remap can happen, reading to the end changes only the cursor and the error |
| MmfSpec.ResetReplaysLines | Mmf.cpp:423-431 | when the window reaches the end of the file (no remap is possible), after reading to the end Reset gives the same lines again as a Reset before reading |
| MmfSpec.DrainFixed | Mmf.hpp:344-369 | reading with the remap-free ReadLine() until it fails changes only the cursor and last_error_ |
| MmfSpec.ResetReplaysFixedLines | Mmf.hpp:398-406 | with the remap-free reader, on any window, Reset after reading every line gives back exactly the state Reset gives before reading, so the same lines are read again |
| MmfSpec.EveryPassReplays | Mmf.hpp:398-406 | any number of passes of Reset then read-all with the remap-free reader each read the lines of the first pass |
| MmfSpec.ResetAfterRemapSkipsEarlierWindow | Mmf.cpp:282-314 | once a read with remap has moved a window of at least a page on, Reset lands strictly past where it landed before, so the earlier window is not replayed |
| MmfSpec.MovedFrom | Mmf.cpp:182-188 | the moved-from object is invalid and unmapped, with sizes, cursor and error cleared |
| MmfSpec.MoveHandsOverCursor | Mmf.cpp:171-214 | a move that also carries offset_ leaves the target reading the same window from the same byte, and leaves the source invalid |
| MmfSpec.MoveAssignAsWrittenDiffers | Mmf.cpp:191-214 | the move assignment as written agrees with a full move exactly when the two offsets are already equal; otherwise the target's absolute cursor is wrong |
| MmfSpec.MoveAssignAsWrittenLosesOffset | Mmf.cpp:191-214 | concrete input: a window at offset 4096 moved onto a whole-file object gives a target that breaks the invariant and claims byte 0 instead of 4096 |
| Mmf.MappedFile.OpenFull | Mmf.cpp:47-96 | the object's fields become OpenFull's state, and the invariant holds |
| Mmf.MappedFile.OpenWindow | Mmf.cpp:98-165 | the object's fields become OpenWindow's state, and the invariant holds |
| Mmf.MappedFile.MoveFrom | Mmf.cpp:171-189 | the new object takes the source's whole state, offset_ included; the source is left as MovedFrom |
| Mmf.MappedFile.MoveAssign | Mmf.cpp:191-214 | the pair of states becomes Move's, and self-assignment changes nothing |
| Mmf.MappedFile.NextLineBounds | Mmf.cpp:282-347 | the new state and the bounds are NextLineBounds of the old state |
| Mmf.MappedFile.Remap | Mmf.cpp:291-317 | the new state is Remap of the old |
| Mmf.MappedFile.ReadLine | Mmf.cpp:216-240 | the new state and the line are ReadLine of the old state |
| Mmf.MappedFile.ReadLineView | Mmf.cpp:243-267 | the same state and result as ReadLine |
| Mmf.MappedFile.ReadLineFixed | Mmf.hpp:344-369 | the new state and the line are ReadLineFixed of the old state |
| Mmf.MappedFile.ReadLineViewFixed | Mmf.hpp:371-396 | the same state and result as ReadLineFixed |
| Mmf.MappedFile.FindLineEnd | Mmf.cpp:331-337 | the scanning loop stops at LineEnd |
| Mmf.MappedFile.WriteLine | Mmf.cpp:350-421 | the new state and the error are WriteLine of the old state |
| Mmf.MappedFile.NewSize | Mmf.cpp:381-386 | the doubling loop computes GrownSize |
| Mmf.MappedFile.Reset | Mmf.cpp:423-431 | the new state and the error are Reset of the old state |
| Mmf.MappedFile.SetPosition | Mmf.cpp:433-445 | the new state and the error are SetPosition of the old state |
| Mmf.MappedFile.IsEOF | Mmf.hpp:437-439 | true exactly when the next remap-free read would return no line |
| Mmf.MappedFile.GetCurrentPosition | Mmf.hpp:408-411 | present exactly when valid, and then a cursor inside the window |
| Mmf.MappedFile.GetMappedSize | Mmf.hpp:427-429 | present exactly when valid; the cursor is within it, and a live window of that size lies inside the file |
| Mmf.MappedFile.GetFileSize | Mmf.hpp:431-433 | present exactly when valid, and never more than the file's length |
| Mmf.MappedFile.GetMappedOffset | Mmf.hpp:446-448 | present exactly when valid, and then always 0 |
| Mmf.MappedFile.GetData | Mmf.hpp:441-444 | present exactly when valid and mapped (not nullptr), and then the window's bytes of the file |
| MpscQueue.Pop | MPSCQueue.hpp:50-69 | the item taken and what is left, in cache and queue, are the old contents in order; the cache is emptied into the queue's remainder when it was empty |
| MpscQueue.PopAllIsFifo | MPSCQueue.hpp:50-90 | dequeuing until empty returns the items in the order they were enqueued, despite the cache swap |
| MpscQueue.Queue.constructor | MPSCQueue.hpp:120-128 | a new queue is empty, with no producer done |
| MpscQueue.Queue.Enqueue | MPSCQueue.hpp:13-27 | the value is appended to queue_, the contents gain it at the end, and nothing else changes |
| MpscQueue.Queue.BulkEnqueue | MPSCQueue.hpp:29-47 | the values are appended in order, and nothing else changes |
| MpscQueue.Queue.Dequeue | MPSCQueue.hpp:50-69 | on a non-empty queue, the item and the new cache and queue are Pop of the old |
| MpscQueue.Queue.TryDequeue | MPSCQueue.hpp:72-90 | no value exactly when the queue was empty, and then nothing changes; otherwise behaves as Dequeue |
| MpscQueue.Queue.Empty | MPSCQueue.hpp:93-98 | true exactly when there is nothing to dequeue |
| MpscQueue.Queue.ProducerDone | MPSCQueue.hpp:100-103 | the done count goes up by one, and the items are untouched |
| MpscQueue.Queue.IsDone | MPSCQueue.hpp:106-108 | true exactly when the done count has reached 10000 |
| MpscQueue.Queue.ResetDoneFileCount | MPSCQueue.hpp:110-113 | the count becomes 0, which is what WaitUntilDoneFileReset waits for; the items are untouched |
| MktData.HourFromTimestamp | MktData.hpp:9-12 | a line shorter than 19 characters has hour 0; any hour is below 2^64 |
| MktData.StoulOfTwoChars | MktData.hpp:11 | std::stoul of a two-character field is: two digits, one digit, a digit after space or '+', a digit after '-' wrapped modulo 2^64, or an exception |
| MktData.HourOfTimestamp | MktData.hpp:9-12 | the hour depends only on characters 11 and 12 and is their std::stoul value |
| MktData.HourOfTwoDigitField | MktData.hpp:9-12 | two digits in the hour field give their decimal value, at most 99 |
| MktData.HourOfDocumentedExample | MktData.hpp:14 | "2021-03-05 10:00:00.123" has hour 10 |
| MktData.HourReadsOnlyTheHourField | MktData.hpp:11 | two timestamps with the same hour characters have the same hour |
| MktData.HourFailsExactlyWithoutDigit | MktData.hpp:11 | std::stoul throws exactly when the field has no digit after an optional space or sign |
| MktData.NegativeHourWraps | MktData.hpp:11 | "-d" in the hour field gives 2^64 − d modulo 2^64 |
| ChunkedFileReader.FindFirstDot | ChunkedFileReader.hpp:33 | the index of the first '.' at or after the start, or npos exactly when there is none |
| ChunkedFileReader.SymbolFollowsFirstDot | ChunkedFileReader.hpp:33 | the symbol is the file name after its first '.', or the whole name when there is no '.' (npos + 1 wraps to 0) |
| ChunkedFileReader.DefaultChunkSize | ChunkedFileReader.hpp:88-91 | the limit less one mebibyte when it is larger, otherwise the limit itself |
| ChunkedFileReader.Keep | ChunkedFileReader.hpp:60-64 | every line kept is non-empty and no longer than the chunk size |
| ChunkedFileReader.MessagesOf | ChunkedFileReader.hpp:82 | one message per kept line: the symbol, the line, and its hour |
| ChunkedFileReader.RunEnqueuesKeptLinesInOrder | ChunkedFileReader.hpp:57-83 | when every kept line has a readable hour, the run enqueues exactly one message per kept line, in file order, and nothing throws |
| ChunkedFileReader.TraceEnqueuesMessages | ChunkedFileReader.hpp:82 | the trace of a run of messages enqueues exactly those messages, in order |
| ChunkedFileReader.TraceReportsChanges | ChunkedFileReader.hpp:66-72 | the trace of a run of messages reports once for each message whose predecessor's hour is non-zero and differs from its own |
| ChunkedFileReader.HandleIsTraceStep | ChunkedFileReader.hpp:65-82 | a readable record gives the report (when its hour changed) followed by its enqueue, which is the first step of the trace, and its hour becomes prev_hour_ |
| ChunkedFileReader.RunIsTrace | ChunkedFileReader.hpp:57-83 | when every kept line has a readable hour, the run is the trace of their messages: each line is enqueued in file order, and a batch report comes just before the enqueue of the line whose hour changed away from a non-zero hour, and nowhere else |
| ChunkedFileReader.RunReportsHourChanges | ChunkedFileReader.hpp:65-81 | the run reports once for each kept line whose predecessor's hour is non-zero and differs from its own |
| ChunkedFileReader.RunThrowsOnlyOnUnreadableHour | ChunkedFileReader.hpp:65 | the run throws exactly when some kept line has no readable hour; the exception is then the last event and happens once |
| ChunkedFileReader.RunStopsAtFirstUnreadableHour | ChunkedFileReader.hpp:57-83 | when kept line k is the first without a readable hour, the run is the trace of the lines before it followed by the exception, so exactly their messages were enqueued |
| ChunkedFileReader.Take | ChunkedFileReader.hpp:60-82 | a skipped line does nothing; a throw ends the step |
| ChunkedFileReader.ProcessFirst | ChunkedFileReader.hpp:57-83 | the run over the lines is the step on the first line followed by the run over the rest, unless the step threw |
| ChunkedFileReader.Reader.constructor | ChunkedFileReader.hpp:26-41 | the reader gets the symbol of its file name and a read-only window of chunk size at offset 0 |
| ChunkedFileReader.Reader.Dispatch | ChunkedFileReader.hpp:65-82 | the step is Handle's; the queue gains its messages and the done count its reports |
| ChunkedFileReader.Reader.TakeRecord | ChunkedFileReader.hpp:58-82 | reads the next line or finds there is none; on a line, does Take's step, and the lines still to read become the rest |
| ChunkedFileReader.Reader.Run | ChunkedFileReader.hpp:43-84 | the run does Process on the file's lines from hour 0; the queue gains exactly the messages and the count exactly the reports; an invalid object is left untouched; a finished run leaves the reader where reading to the end would |

## Left out

- Threads, the mutex and the condition variables are not modelled: every operation is one atomic step. `WaitUntilDoneFileReset` is the predicate `DoneFileReset` that the wait holds out for. In `Run`, the wait is the `HourChanged` event.
- ChunkedFileReader.Reader.Run: the consumer's reset of the done count during the wait is not modelled, so the count grows by the number of reports. The stop flag (`Stop`), `thread_count_`, `thread_id_`, the timespan argument and all logging are left out.
- The hour change is decided the way the code decides it: `prev_hour_ == 0` doubles as "no hour yet", so a change away from hour 0 is never reported (see `Changes`).
- `std::stoul` throwing is the `Threw` event, which ends the run. What catches it is not part of this model.
- ChunkedFileReader.Reader.constructor: `symbol_` is a `std::string_view` of a temporary substring. The model keeps the symbol's value and does not model the dangling view.
- MpscQueue.Queue.constructor: `done_file_count_` (MPSCQueue.hpp:125) has no initialiser. The model starts it at 0, which is what C++20 value-initialisation of `std::atomic` gives; before C++20 its value is indeterminate.
- MpscQueue.Queue.Dequeue: the blocking wait on an empty queue is not modelled. The method requires a non-empty queue.
- The `Enqueue` and `BulkEnqueue` overloads that take an rvalue are the same operation on values.
- The whole-file and window constructors take the file's contents (`disk`, `None` when it does not exist) instead of a path. Operating-system failures (`open`, `fstat`, `sysconf`, `mmap`, `ftruncate` failing for lack of resources) are not modelled. Only their deterministic consequences are:
  - `WriteOnly` opens the descriptor read-only, so truncating it or mapping it writable fails;
  - a mapping of length 0 is refused.
- The bytes are not persisted: the model does not write back to the disk or re-read it later.
- MmfSpec.OpenWindow: `Mmf.cpp` leaves `offset_` unset when the window is empty. The model sets it to the page-aligned offset.
- Mmf.MappedFile.WriteLine: requires `WriteAllowed`. That means one of three things: the whole file is writable; the line fits in a writable window; or the line does not fit, the object is ReadWrite, `offset_` is 0 and the grown size is at least `file_size_`. Four cases are excluded:
  - A store into a window mapped read-only (`PROT_READ`, as the window constructor maps) faults.
  - A line that does not fit into a window at a non-zero `offset_` remaps the file from byte 0 while `offset_` keeps the window's offset. The object's invariant then breaks.
  - A growth to less than `file_size_` cuts bytes that `file_size_` still counts.
  - A growth on a `WriteOnly` window makes `ftruncate` fail on the read-only descriptor, so WriteLine returns WriteError; the model's WriteError covers only a ReadOnly object and an empty line.
- MmfSpec.WriteLine: carries the same requirement, for the same reasons.
- MmfSpec.ResetReplaysLines: proved only when the window reaches the end of the file. After a remap, `Reset` rewinds to the start of the last window (see ResetAfterRemapSkipsEarlierWindow), so the remapping reader does not replay the earlier windows.
- The old `WriteLine` and whole-file constructor in `Mmf.hpp` (`Mmf.hpp:80-135`, `Mmf.hpp:212-287`) are not modelled. The `Mmf.cpp` versions replace them.
- `IsValid`, `GetLastError` and `GetFilename` return a field and are read directly from the fields. `Cleanup` and the destructor release operating-system resources and are modelled only as the cleared state of a moved-from object.
- `GetMaxMemoryPerThread` (utils.cpp) is not part of this model. `DefaultChunkSize` takes its result as a parameter.
- Integers are unbounded. `size_t` wrap-around matters in two places, and both are written out: `npos + 1` in the symbol, and a minus sign in `std::stoul`. Elsewhere, sizes stay far below 2^64.

## Findings

| source | as written | input that shows it | evidently intended | confidence | as-written member | corrected member |
|---|---|---|---|---|---|---|
| Mmf.cpp:171-214 | the move constructor and the move assignment copy every field except `offset_`, so the target keeps its own (or an unset) offset | move a window opened at offset 4096 of a 4100-byte file onto an object opened on the whole of a 3-byte file: the target breaks the invariant and its cursor claims byte 0 instead of byte 4096 | `offset_` moves with the mapping and is cleared in the source | not executed | MmfSpec.MoveAssignAsWrittenLosesOffset | MmfSpec.MoveHandsOverCursor |
