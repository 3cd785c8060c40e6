/**
  ChunkedFileReader of ChunkedFileReader.hpp: one producer, reading the
  records of one file through a mapped window and handing them to the
  shared queue, tagged with the file's symbol and the record's hour. When a
  record's hour differs from the previous one, the producer reports the end
  of its batch and waits until the consumer has collected every producer's
  report before going on.

  The pure part (the symbol taken from the file name, the default chunk
  size, and what Run does to a sequence of lines) is given as functions; the
  class runs the loop of the source against the MappedFile and Queue
  classes and is proved to do what the functions say.
*/
module ChunkedFileReader {
  import opened Wrappers
  import opened MmfSpec
  import Mmf
  import MpscQueue
  import MktData

  /** 2^64: size_t arithmetic wraps modulo this. */
  const U64: nat := 0x1_0000_0000_0000_0000

  /** std::string::npos. */
  const NPos: nat := U64 - 1

  /** The memory GetDefaultChunkSize keeps back, one mebibyte. */
  const Reserve: nat := 1024 * 1024

  // ---------------------------------------------------------------------------
  // The symbol and the chunk size
  // ---------------------------------------------------------------------------

  /** find_first_of('.'): the index of the first '.' at or after `from`, or npos. */
  function FindFirstDot(name: seq<char>, from: nat): (i: nat)
    requires from <= |name| < NPos
    ensures i == NPos || from <= i < |name|
    ensures i == NPos <==> '.' !in name[from..]
    ensures i != NPos ==> name[i] == '.' && '.' !in name[from..i]
    decreases |name| - from
  {
    if from == |name| then NPos
    else if name[from] == '.' then from
    else
      var i := FindFirstDot(name, from + 1);
      assert name[from..] == [name[from]] + name[from + 1..];
      if i != NPos then
        assert name[from..i] == [name[from]] + name[from + 1..i];
        i
      else
        i
  }

  /**
    The symbol of a file: filename_.substr(filename_.find_first_of(".") + 1).
    With no '.', npos + 1 wraps to 0 and the symbol is the whole name.
  */
  function Symbol(filename: seq<char>): (symbol: seq<char>)
    requires |filename| < NPos
  {
    var start := (FindFirstDot(filename, 0) + 1) % U64;
    filename[start..]
  }

  /**
    The symbol is what follows the first '.' of the file name, or the whole
    name when it has none: it is a suffix of the name, and what precedes it
    is empty, or ends with the name's only '.' before the symbol.
  */
  lemma SymbolFollowsFirstDot(filename: seq<char>)
    requires |filename| < NPos
    ensures var symbol := Symbol(filename);
      var head := filename[..|filename| - |symbol|];
      && |symbol| <= |filename|
      && filename == head + symbol
      && ('.' !in filename <==> head == [])
      && (head != [] ==> head[|head| - 1] == '.' && '.' !in head[..|head| - 1])
  {
    var i := FindFirstDot(filename, 0);
    assert filename[0..] == filename;
    if i != NPos {
      assert (i + 1) % U64 == i + 1;
      assert filename[..i + 1][..i] == filename[0..i];
    } else {
      assert (NPos + 1) % U64 == 0;
    }
  }

  /**
    GetDefaultChunkSize, for the memory `maxMem` one thread may use: a
    mebibyte is kept back when there is more than that, so the chunk is
    never larger than the memory.
  */
  function DefaultChunkSize(maxMem: nat): (chunkSize: nat)
    ensures chunkSize <= maxMem
    ensures maxMem > Reserve ==> chunkSize + Reserve == maxMem
    ensures maxMem <= Reserve ==> chunkSize == maxMem
  {
    if maxMem > Reserve then maxMem - Reserve else maxMem
  }

  // ---------------------------------------------------------------------------
  // What Run does to a sequence of lines
  // ---------------------------------------------------------------------------

  /** MktDataMessage: the symbol, the record and its hour (batch_id_). */
  datatype Message = Message(symbol: seq<char>, data: seq<char>, batchId: nat)

  /**
    What Run does, in order: enqueue a message; report the end of a batch
    (ProducerDone) and wait until the count is reset; or let the exception
    of an unreadable hour escape, which ends the run.
  */
  datatype Event = Enqueued(message: Message) | HourChanged(hour: nat) | Threw

  /** The records Run keeps: not empty, and no longer than the chunk size. */
  predicate Kept(line: seq<char>, chunkSize: nat) {
    0 < |line| <= chunkSize
  }

  /**
    What Run does with a kept record, given prev_hour_: read its hour
    (std::stoul may throw); adopt the hour while prev_hour_ is 0; report and
    wait when the hour differs from prev_hour_; enqueue. Returns what
    happened and the new prev_hour_.
  */
  function Handle(line: seq<char>, symbol: seq<char>, prevHour: nat): (r: (seq<Event>, nat))
  {
    match MktData.HourFromTimestamp(line)
    case None => ([Threw], prevHour)
    case Some(hour) =>
      var prev := if prevHour == 0 then hour else prevHour;
      var enqueued := Enqueued(Message(symbol, line, hour));
      (if hour != prev then [HourChanged(hour), enqueued] else [enqueued], hour)
  }

  /** Run's loop over `lines`, with prev_hour_ at `prevHour`. */
  function Process(lines: seq<seq<char>>, chunkSize: nat, symbol: seq<char>, prevHour: nat): seq<Event>
    decreases |lines|
  {
    if lines == [] then []
    else if !Kept(lines[0], chunkSize) then Process(lines[1..], chunkSize, symbol, prevHour)
    else
      var (events, hour) := Handle(lines[0], symbol, prevHour);
      if events == [Threw] then events else events + Process(lines[1..], chunkSize, symbol, hour)
  }

  /** The lines Run keeps, in order. */
  function Keep(lines: seq<seq<char>>, chunkSize: nat): (kept: seq<seq<char>>)
    ensures forall k :: 0 <= k < |kept| ==> Kept(kept[k], chunkSize)
  {
    if lines == [] then []
    else if Kept(lines[0], chunkSize) then [lines[0]] + Keep(lines[1..], chunkSize)
    else Keep(lines[1..], chunkSize)
  }

  /** Every kept line has a readable hour. */
  predicate AllHoursReadable(kept: seq<seq<char>>) {
    forall k :: 0 <= k < |kept| ==> MktData.HourFromTimestamp(kept[k]).Some?
  }

  /** The message of each kept line: the symbol, the line and its hour. */
  function MessagesOf(kept: seq<seq<char>>, symbol: seq<char>): (ms: seq<Message>)
    requires AllHoursReadable(kept)
    ensures |ms| == |kept|
    ensures forall k :: 0 <= k < |kept| ==>
      ms[k] == Message(symbol, kept[k], MktData.HourFromTimestamp(kept[k]).value)
  {
    if kept == [] then [] else [Message(symbol, kept[0], MktData.HourFromTimestamp(kept[0]).value)] + MessagesOf(kept[1..], symbol)
  }

  /** The messages enqueued, in order. */
  function Messages(events: seq<Event>): seq<Message> {
    if events == [] then []
    else (if events[0].Enqueued? then [events[0].message] else []) + Messages(events[1..])
  }

  /** The number of batch reports (ProducerDone calls). */
  function Reports(events: seq<Event>): nat {
    if events == [] then 0
    else (if events[0].HourChanged? then 1 else 0) + Reports(events[1..])
  }

  /**
    The hour changes a run reports, counted from the hours alone: a record
    whose predecessor (the starting hour for the first) is a non-zero hour
    other than its own. A change away from hour 0 is never reported, since 0
    is also the value that means "no hour yet".
  */
  function Changes(hours: seq<nat>, prevHour: nat): nat {
    if hours == [] then 0
    else (if prevHour != 0 && hours[0] != prevHour then 1 else 0) + Changes(hours[1..], hours[0])
  }

  function HoursOf(ms: seq<Message>): (hours: seq<nat>)
    ensures |hours| == |ms| && forall k :: 0 <= k < |ms| ==> hours[k] == ms[k].batchId
  {
    if ms == [] then [] else [ms[0].batchId] + HoursOf(ms[1..])
  }

  /**
    The events a run of readable records produces, stated from the messages
    alone: each message is enqueued in turn, and just before it, when the
    previous hour is a non-zero hour other than the message's, the batch
    report for the message's hour.
  */
  function Trace(ms: seq<Message>, prevHour: nat): seq<Event> {
    if ms == [] then []
    else
      var m := ms[0];
      (if prevHour != 0 && m.batchId != prevHour then [HourChanged(m.batchId)] else [])
        + [Enqueued(m)] + Trace(ms[1..], m.batchId)
  }

  /** A trace enqueues exactly its messages, in order. */
  lemma {:induction false} TraceEnqueuesMessages(ms: seq<Message>, prevHour: nat)
    ensures Messages(Trace(ms, prevHour)) == ms
    decreases |ms|
  {
    if ms != [] {
      var m := ms[0];
      var head := (if prevHour != 0 && m.batchId != prevHour then [HourChanged(m.batchId)] else []) + [Enqueued(m)];
      TraceEnqueuesMessages(ms[1..], m.batchId);
      assert Trace(ms, prevHour) == head + Trace(ms[1..], m.batchId);
      MessagesOfConcat(head, Trace(ms[1..], m.batchId));
      if prevHour != 0 && m.batchId != prevHour {
        assert head == [HourChanged(m.batchId), Enqueued(m)];
      }
      assert Messages(head) == [m];
      assert ms == [m] + ms[1..];
    }
  }

  /** A trace reports exactly the hour changes of its messages. */
  lemma {:induction false} TraceReportsChanges(ms: seq<Message>, prevHour: nat)
    ensures Reports(Trace(ms, prevHour)) == Changes(HoursOf(ms), prevHour)
    decreases |ms|
  {
    if ms != [] {
      var m := ms[0];
      var head := (if prevHour != 0 && m.batchId != prevHour then [HourChanged(m.batchId)] else []) + [Enqueued(m)];
      TraceReportsChanges(ms[1..], m.batchId);
      assert Trace(ms, prevHour) == head + Trace(ms[1..], m.batchId);
      MessagesOfConcat(head, Trace(ms[1..], m.batchId));
      if prevHour != 0 && m.batchId != prevHour {
        assert head == [HourChanged(m.batchId), Enqueued(m)];
      }
      assert HoursOf(ms)[0] == m.batchId && HoursOf(ms)[1..] == HoursOf(ms[1..]);
    }
  }

  /** What Handle does with a readable record is the trace of its message. */
  lemma HandleIsTraceStep(line: seq<char>, symbol: seq<char>, prevHour: nat, rest: seq<Message>)
    requires MktData.HourFromTimestamp(line).Some?
    ensures var hour := MktData.HourFromTimestamp(line).value;
      var (events, newPrev) := Handle(line, symbol, prevHour);
      && newPrev == hour && events != [Threw]
      && events + Trace(rest, hour) == Trace([Message(symbol, line, hour)] + rest, prevHour)
  {
    var hour := MktData.HourFromTimestamp(line).value;
    var ms := [Message(symbol, line, hour)] + rest;
    assert ms[0] == Message(symbol, line, hour) && ms[1..] == rest;
    var events := Handle(line, symbol, prevHour).0;
    var first := (if prevHour != 0 && hour != prevHour then [HourChanged(hour)] else []) + [Enqueued(ms[0])];
    assert events == first;
    AppendAssociates(first, [], Trace(rest, hour));
  }

  /**
    When every kept record has a readable hour, a run is the trace of the
    messages of the kept records: each record is enqueued in file order,
    and a batch report comes just before the enqueue of the record whose
    hour changed, and nowhere else.
  */
  lemma {:induction false} RunIsTrace(lines: seq<seq<char>>, chunkSize: nat, symbol: seq<char>, prevHour: nat)
    requires AllHoursReadable(Keep(lines, chunkSize))
    ensures Process(lines, chunkSize, symbol, prevHour) == Trace(MessagesOf(Keep(lines, chunkSize), symbol), prevHour)
    decreases |lines|
  {
    if lines != [] {
      var line := lines[0];
      if !Kept(line, chunkSize) {
        RunIsTrace(lines[1..], chunkSize, symbol, prevHour);
      } else {
        var kept := Keep(lines, chunkSize);
        assert kept == [line] + Keep(lines[1..], chunkSize);
        assert kept[1..] == Keep(lines[1..], chunkSize);
        assert MktData.HourFromTimestamp(kept[0]).Some?;
        var hour := MktData.HourFromTimestamp(line).value;
        RunIsTrace(lines[1..], chunkSize, symbol, hour);
        var ms := MessagesOf(kept, symbol);
        assert ms == [Message(symbol, line, hour)] + MessagesOf(kept[1..], symbol);
        HandleIsTraceStep(line, symbol, prevHour, MessagesOf(kept[1..], symbol));
      }
    }
  }

  lemma {:induction false} MessagesOfConcat(a: seq<Event>, b: seq<Event>)
    ensures Messages(a + b) == Messages(a) + Messages(b)
    ensures Reports(a + b) == Reports(a) + Reports(b)
    decreases |a|
  {
    if a == [] {
      assert a + b == b;
    } else {
      ConcatSplits(a, b);
      MessagesOfConcat(a[1..], b);
      var head := if a[0].Enqueued? then [a[0].message] else [];
      assert Messages(a + b) == head + Messages(a[1..] + b);
      assert Messages(a) == head + Messages(a[1..]);
      AppendAssociates(head, Messages(a[1..]), Messages(b));
    }
  }

  lemma AppendAssociates<T>(x: seq<T>, y: seq<T>, z: seq<T>)
    ensures x + (y + z) == (x + y) + z
  {
  }

  lemma ConcatSplits<T>(a: seq<T>, b: seq<T>)
    requires a != []
    ensures (a + b)[0] == a[0] && (a + b)[1..] == a[1..] + b
  {
  }

  /** What the queue gains from two stretches of a run is what it gains from both, in order. */
  lemma QueueGains(queued: seq<Message>, done: seq<Event>, events: seq<Event>)
    ensures queued + Messages(done + events) == (queued + Messages(done)) + Messages(events)
    ensures Reports(done + events) == Reports(done) + Reports(events)
  {
    MessagesOfConcat(done, events);
  }

  /**
    Every kept line, and no other, is enqueued exactly once, in file order,
    as (symbol, line, hour), when every kept line has a readable hour.
  */
  lemma {:induction false} RunEnqueuesKeptLinesInOrder(lines: seq<seq<char>>, chunkSize: nat, symbol: seq<char>, prevHour: nat)
    requires AllHoursReadable(Keep(lines, chunkSize))
    ensures Threw !in Process(lines, chunkSize, symbol, prevHour)
    ensures Messages(Process(lines, chunkSize, symbol, prevHour)) == MessagesOf(Keep(lines, chunkSize), symbol)
    decreases |lines|
  {
    if lines != [] {
      var line := lines[0];
      var kept := Keep(lines, chunkSize);
      if !Kept(line, chunkSize) {
        RunEnqueuesKeptLinesInOrder(lines[1..], chunkSize, symbol, prevHour);
      } else {
        assert kept == [line] + Keep(lines[1..], chunkSize);
        assert kept[1..] == Keep(lines[1..], chunkSize);
        assert MktData.HourFromTimestamp(kept[0]).Some?;
        var hour := MktData.HourFromTimestamp(line).value;
        var tail := Process(lines[1..], chunkSize, symbol, hour);
        RunEnqueuesKeptLinesInOrder(lines[1..], chunkSize, symbol, hour);
        var m := Message(symbol, line, hour);
        var prev := if prevHour == 0 then hour else prevHour;
        if hour != prev {
          MessagesOfConcat([HourChanged(hour), Enqueued(m)], tail);
          assert Messages([HourChanged(hour), Enqueued(m)]) == [m];
        } else {
          MessagesOfConcat([Enqueued(m)], tail);
        }
      }
    }
  }

  /**
    A run reports an hour change exactly where the hours of consecutive
    kept records differ, except after a record of hour 0 (and at the start
    when the starting hour is 0).
  */
  lemma RunReportsHourChanges(lines: seq<seq<char>>, chunkSize: nat, symbol: seq<char>, prevHour: nat)
    requires AllHoursReadable(Keep(lines, chunkSize))
    ensures Reports(Process(lines, chunkSize, symbol, prevHour))
         == Changes(HoursOf(MessagesOf(Keep(lines, chunkSize), symbol)), prevHour)
  {
    RunIsTrace(lines, chunkSize, symbol, prevHour);
    TraceReportsChanges(MessagesOf(Keep(lines, chunkSize), symbol), prevHour);
  }

  /**
    An unreadable hour ends the run: the exception is the last thing that
    happens, and it happens exactly when some kept line has no readable hour.
  */
  lemma {:induction false} RunThrowsOnlyOnUnreadableHour(lines: seq<seq<char>>, chunkSize: nat, symbol: seq<char>, prevHour: nat)
    ensures var events := Process(lines, chunkSize, symbol, prevHour);
      && (Threw in events <==> !AllHoursReadable(Keep(lines, chunkSize)))
      && (Threw in events ==> events[|events| - 1] == Threw && Threw !in events[..|events| - 1])
    decreases |lines|
  {
    if lines != [] {
      var line := lines[0];
      var kept := Keep(lines, chunkSize);
      if !Kept(line, chunkSize) {
        RunThrowsOnlyOnUnreadableHour(lines[1..], chunkSize, symbol, prevHour);
      } else {
        assert kept == [line] + Keep(lines[1..], chunkSize);
        assert kept[1..] == Keep(lines[1..], chunkSize);
        var rest := Keep(lines[1..], chunkSize);
        assert AllHoursReadable(kept) <==> MktData.HourFromTimestamp(line).Some? && AllHoursReadable(rest) by {
          if MktData.HourFromTimestamp(line).Some? && AllHoursReadable(rest) {
            forall k | 0 <= k < |kept|
              ensures MktData.HourFromTimestamp(kept[k]).Some?
            {
              if k > 0 {
                assert kept[k] == rest[k - 1];
              }
            }
          }
          if AllHoursReadable(kept) {
            assert kept[0] == line;
            forall k | 0 <= k < |rest|
              ensures MktData.HourFromTimestamp(rest[k]).Some?
            {
              assert rest[k] == kept[k + 1];
            }
          }
        }
        if MktData.HourFromTimestamp(line).Some? {
          var hour := MktData.HourFromTimestamp(line).value;
          RunThrowsOnlyOnUnreadableHour(lines[1..], chunkSize, symbol, hour);
          var tail := Process(lines[1..], chunkSize, symbol, hour);
          var events := Process(lines, chunkSize, symbol, prevHour);
          var head := events[..|events| - |tail|];
          assert events == head + tail;
          assert Threw !in head;
          if Threw in tail {
            assert events[..|events| - 1] == head + tail[..|tail| - 1];
          }
        }
      }
    }
  }

  /**
    A run stops at the FIRST kept record whose hour cannot be read: before
    it, the run is the trace of the records ahead of it, so exactly their
    messages were enqueued; then the exception, and nothing after.
  */
  lemma {:induction false} RunStopsAtFirstUnreadableHour(lines: seq<seq<char>>, chunkSize: nat, symbol: seq<char>,
                                                         prevHour: nat, k: nat)
    requires k < |Keep(lines, chunkSize)|
    requires MktData.HourFromTimestamp(Keep(lines, chunkSize)[k]).None?
    requires AllHoursReadable(Keep(lines, chunkSize)[..k])
    ensures Process(lines, chunkSize, symbol, prevHour)
         == Trace(MessagesOf(Keep(lines, chunkSize)[..k], symbol), prevHour) + [Threw]
    ensures Messages(Process(lines, chunkSize, symbol, prevHour)) == MessagesOf(Keep(lines, chunkSize)[..k], symbol)
    decreases |lines|
  {
    var line := lines[0];
    var kept := Keep(lines, chunkSize);
    var before := MessagesOf(kept[..k], symbol);
    if !Kept(line, chunkSize) {
      RunStopsAtFirstUnreadableHour(lines[1..], chunkSize, symbol, prevHour, k);
    } else {
      assert kept == [line] + Keep(lines[1..], chunkSize);
      var rest := Keep(lines[1..], chunkSize);
      if k == 0 {
        assert kept[..k] == [];
      } else {
        assert kept[..k][0] == line;
        var hour := MktData.HourFromTimestamp(line).value;
        assert rest[k - 1] == kept[k];
        assert rest[..k - 1] == kept[..k][1..];
        var ahead := rest[..k - 1];
        assert AllHoursReadable(ahead) by {
          forall i | 0 <= i < |ahead|
            ensures MktData.HourFromTimestamp(ahead[i]).Some?
          {
            assert ahead[i] == kept[..k][i + 1];
          }
        }
        RunStopsAtFirstUnreadableHour(lines[1..], chunkSize, symbol, hour, k - 1);
        var tail := MessagesOf(rest[..k - 1], symbol);
        assert before == [Message(symbol, line, hour)] + tail;
        HandleIsTraceStep(line, symbol, prevHour, tail);
        var events := Handle(line, symbol, prevHour).0;
        AppendAssociates(events, Trace(tail, hour), [Threw]);
      }
    }
    TraceEnqueuesMessages(before, prevHour);
    MessagesOfConcat(Trace(before, prevHour), [Threw]);
  }

  /** One record as Run takes it: skipped (nothing happens), or handled. */
  function Take(line: seq<char>, chunkSize: nat, symbol: seq<char>, prevHour: nat): (r: (seq<Event>, nat))
    ensures !Kept(line, chunkSize) ==> r == ([], prevHour)
    ensures Threw in r.0 ==> r.0 == [Threw]
  {
    if Kept(line, chunkSize) then Handle(line, symbol, prevHour) else ([], prevHour)
  }

  /** Process on a line followed by `rest`: take the line, then go on unless it threw. */
  lemma ProcessFirst(line: seq<char>, rest: seq<seq<char>>, chunkSize: nat, symbol: seq<char>, prevHour: nat)
    ensures var (events, hour) := Take(line, chunkSize, symbol, prevHour);
      Process([line] + rest, chunkSize, symbol, prevHour) ==
        if events == [Threw] then events else events + Process(rest, chunkSize, symbol, hour)
  {
    assert ([line] + rest)[0] == line && ([line] + rest)[1..] == rest;
  }

  /**
    Run's loop keeps "Process of all the lines is what has happened so far
    followed by Process of the lines left" across a record that did not throw.
  */
  lemma ProcessGoesOn(all: seq<seq<char>>, done: seq<Event>, donePrev: nat, line: seq<char>, rest: seq<seq<char>>,
                      chunkSize: nat, symbol: seq<char>)
    requires Process(all, chunkSize, symbol, 0) == done + Process([line] + rest, chunkSize, symbol, donePrev)
    ensures var (events, newPrev) := Take(line, chunkSize, symbol, donePrev);
      && (events == [Threw] ==> Process(all, chunkSize, symbol, 0) == done + events)
      && (events != [Threw] ==>
            Process(all, chunkSize, symbol, 0) == (done + events) + Process(rest, chunkSize, symbol, newPrev))
  {
    var (events, newPrev) := Take(line, chunkSize, symbol, donePrev);
    ProcessFirst(line, rest, chunkSize, symbol, donePrev);
    if events != [Threw] {
      assert done + (events + Process(rest, chunkSize, symbol, newPrev))
          == (done + events) + Process(rest, chunkSize, symbol, newPrev);
    }
  }

  // ---------------------------------------------------------------------------
  // The reader
  // ---------------------------------------------------------------------------

  class Reader {
    const symbol: seq<char>                      // symbol_
    const chunkSize: nat                         // chunk_size_
    const mmf: Mmf.MappedFile                    // mmf_
    const queue: MpscQueue.Queue<Message>        // queue_

    /**
      The constructor: the symbol from the file name, and a read-only window
      of chunk_size_ bytes from the start of the file.
    */
    constructor(filename: seq<char>, disk: Option<seq<char>>, queue: MpscQueue.Queue<Message>, chunkSize: nat)
      requires |filename| < NPos
      ensures this.symbol == Symbol(filename) && this.chunkSize == chunkSize && this.queue == queue
      ensures fresh(mmf) && mmf.Valid() && mmf.Model() == OpenWindow(disk, 0, chunkSize, ReadOnly)
    {
      symbol := Symbol(filename);
      this.queue := queue;
      this.chunkSize := chunkSize;
      mmf := new Mmf.MappedFile.OpenWindow(disk, 0, chunkSize, ReadOnly);
    }

    /** The part of Run's loop body that handles a kept record. */
    method Dispatch(line: seq<char>, prevHour: nat) returns (events: seq<Event>, newPrevHour: nat)
      modifies queue
      ensures (events, newPrevHour) == Handle(line, symbol, prevHour)
      ensures queue.Contents() == old(queue.Contents()) + Messages(events)
      ensures queue.doneFileCount == old(queue.doneFileCount) + Reports(events)
    {
      var hour := MktData.HourFromTimestamp(line);
      if hour.None? {
        events, newPrevHour := [Threw], prevHour;
        assert Messages(events) == [] && Reports(events) == 0 by {
          assert events[1..] == [];
        }
        return;
      }
      var prev := if prevHour == 0 then hour.value else prevHour;
      var message := Message(symbol, line, hour.value);
      if hour.value != prev {
        queue.ProducerDone();
        // WaitUntilDoneFileReset: the consumer collects every report and resets the count
        queue.Enqueue(message);
        events := [HourChanged(hour.value), Enqueued(message)];
        assert events[1..] == [Enqueued(message)] && events[1..][1..] == [];
        assert Messages(events[1..]) == [message] && Reports(events[1..]) == 0;
        assert Messages(events) == [message] && Reports(events) == 1;
      } else {
        queue.Enqueue(message);
        events := [Enqueued(message)];
        assert events[1..] == [];
        assert Messages(events) == [message] && Reports(events) == 0;
      }
      newPrevHour := hour.value;
    }

    /**
      One pass of Run's loop: read a record with remap; when there is one,
      skip it if it is empty or longer than chunk_size_, otherwise handle it.
      In terms of the lines the object yields: a failed read means none are
      left and the object is where Drain leaves it; a successful one takes
      the first line and leaves the object yielding the rest.
    */
    method TakeRecord(prevHour: nat) returns (line: Option<seq<char>>, events: seq<Event>, newPrevHour: nat)
      modifies mmf, queue
      requires mmf.Valid()
      ensures mmf.Valid() && mmf.file == old(mmf.file)
      ensures line.None? ==>
        && events == [] && newPrevHour == prevHour
        && Lines(old(mmf.Model())) == [] && mmf.Model() == Drain(old(mmf.Model())).1
      ensures line.Some? ==>
        && (events, newPrevHour) == Take(line.value, chunkSize, symbol, prevHour)
        && Lines(old(mmf.Model())) == [line.value] + Lines(mmf.Model())
        && Drain(mmf.Model()).1 == Drain(old(mmf.Model())).1
        && Abs(old(mmf.Model())) < Abs(mmf.Model()) <= |mmf.file|
      ensures queue.Contents() == old(queue.Contents()) + Messages(events)
      ensures queue.doneFileCount == old(queue.doneFileCount) + Reports(events)
    {
      ghost var before := mmf.Model();
      line := mmf.ReadLineView(true);
      if line.None? {
        ReadLineEndsLines(before);
        DrainStopsAtFailedRead(before);
        return line, [], prevHour;
      }
      ReadLineStartsLines(before);
      if |line.value| == 0 || |line.value| > chunkSize {
        return line, [], prevHour;
      }
      events, newPrevHour := Dispatch(line.value, prevHour);
    }

    /**
      Run: read every record with remap until a read fails, skip empty and
      oversized ones, report and wait at each hour change, and enqueue the
      rest. The trace is what Process says of the lines the object yields;
      the queue gains exactly the trace's messages and reports.
    */
    method Run() returns (trace: seq<Event>)
      modifies mmf, queue
      requires mmf.Valid()
      ensures trace == Process(Lines(old(mmf.Model())), chunkSize, symbol, 0)
      ensures queue.Contents() == old(queue.Contents()) + Messages(trace)
      ensures queue.doneFileCount == old(queue.doneFileCount) + Reports(trace)
      ensures !old(mmf.isValid) ==> mmf.Model() == old(mmf.Model())
      ensures old(mmf.isValid) && Threw !in trace ==> mmf.Model() == Drain(old(mmf.Model())).1
    {
      trace := [];
      if !mmf.isValid {
        ReadLineEndsLines(mmf.Model());
        return;
      }
      ghost var start, queued, reported := mmf.Model(), queue.Contents(), queue.doneFileCount;
      var prevHour := 0;
      while true
        invariant mmf.Valid() && mmf.file == start.file
        invariant Process(Lines(start), chunkSize, symbol, 0) == trace + Process(Lines(mmf.Model()), chunkSize, symbol, prevHour)
        invariant Drain(mmf.Model()).1 == Drain(start).1
        invariant Threw !in trace
        invariant queue.Contents() == queued + Messages(trace)
        invariant queue.doneFileCount == reported + Reports(trace)
        decreases |start.file| - Abs(mmf.Model())
      {
        ghost var done, donePrev := trace, prevHour;
        var line, events;
        line, events, prevHour := TakeRecord(prevHour);
        if line.None? {
          assert done + [] == done;
          break;
        }
        ProcessGoesOn(Lines(start), done, donePrev, line.value, Lines(mmf.Model()), chunkSize, symbol);
        QueueGains(queued, done, events);
        trace := trace + events;
        if events == [Threw] {
          // std::stoul threw, and the exception leaves Run
          return;
        }
      }
    }
  }
}
