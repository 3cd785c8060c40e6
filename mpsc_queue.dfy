/**
  The multi-producer single-consumer queue of MPSCQueue.hpp, as seen by one
  thread at a time. Producers append to `queue_`; the consumer pops from its
  private `cache_` and, when that is empty, takes the head of `queue_` and
  moves the rest into `cache_` by a swap. What the queue holds, in FIFO
  order, is `cache_ + queue_`. Beside the items it keeps the count of
  producers that reported the end of an hour's batch.
*/
module MpscQueue {
  import opened Wrappers

  /** total_files_: the number of producers whose report ends a batch. */
  const TotalFiles: nat := 10000

  /**
    One pop as the consumer does it: from `cache` if it holds anything,
    otherwise from `queue`, with the rest of `queue` swapped into the (empty)
    `cache`. Returns the item and the new cache and queue.
  */
  function Pop<T>(cache: seq<T>, queue: seq<T>): (r: (T, seq<T>, seq<T>))
    requires cache + queue != []
    ensures [r.0] + r.1 + r.2 == cache + queue
    ensures cache == [] ==> r.2 == []
    ensures cache != [] ==> r.2 == queue
  {
    if cache != [] then (cache[0], cache[1..], queue)
    else if |queue| > 1 then (queue[0], queue[1..], [])
    else (queue[0], [], [])
  }

  /** Every item, in the order that repeated pops hand them out. */
  function PopAll<T>(cache: seq<T>, queue: seq<T>): seq<T>
    decreases |cache| + |queue|
  {
    if cache + queue == [] then []
    else
      var (x, c, q) := Pop(cache, queue);
      assert |c| + |q| < |cache| + |queue| by {
        assert |[x] + c + q| == |cache + queue|;
      }
      [x] + PopAll(c, q)
  }

  /**
    FIFO: popping until the queue is empty hands out every item exactly
    once, in the order `cache_ + queue_` holds them, whatever swaps happen
    on the way.
  */
  lemma {:induction false} PopAllIsFifo<T>(cache: seq<T>, queue: seq<T>)
    ensures PopAll(cache, queue) == cache + queue
    decreases |cache| + |queue|
  {
    if cache + queue != [] {
      var (x, c, q) := Pop(cache, queue);
      assert |[x] + c + q| == |cache + queue|;
      PopAllIsFifo(c, q);
      assert PopAll(cache, queue) == [x] + (c + q);
    }
  }

  class Queue<T> {
    var queue: seq<T>          // queue_, where producers append
    var cache: seq<T>          // cache_, the consumer's private prefix
    var doneFileCount: nat     // done_file_count_

    /** The items in the order they will be dequeued. */
    function Contents(): seq<T>
      reads this
    {
      cache + queue
    }

    constructor()
      ensures Contents() == [] && doneFileCount == 0
    {
      queue := [];
      cache := [];
      doneFileCount := 0;
    }

    /** Enqueue: append one item behind everything already queued. */
    method Enqueue(value: T)
      modifies this
      ensures Contents() == old(Contents()) + [value]
      ensures cache == old(cache) && queue == old(queue) + [value]
      ensures doneFileCount == old(doneFileCount)
    {
      queue := queue + [value];
    }

    /** BulkEnqueue: append all of `values`, in order, under one lock. */
    method BulkEnqueue(values: seq<T>)
      modifies this
      ensures Contents() == old(Contents()) + values
      ensures cache == old(cache) && queue == old(queue) + values
      ensures doneFileCount == old(doneFileCount)
    {
      for i := 0 to |values|
        invariant queue == old(queue) + values[..i]
        invariant cache == old(cache) && doneFileCount == old(doneFileCount)
      {
        queue := queue + [values[i]];
      }
      assert values[..|values|] == values;
    }

    /**
      Dequeue, on a queue that holds something (the source blocks until a
      producer has enqueued): the first item, removed.
    */
    method Dequeue() returns (value: T)
      modifies this
      requires Contents() != []
      ensures (value, cache, queue) == Pop(old(cache), old(queue))
      ensures doneFileCount == old(doneFileCount)
    {
      if cache != [] {
        value := cache[0];
        cache := cache[1..];
        return;
      }
      value := queue[0];
      queue := queue[1..];
      if queue != [] {
        cache, queue := queue, cache;
      }
    }

    /** TryDequeue: the first item, removed, or nothing when the queue is empty. */
    method TryDequeue() returns (value: Option<T>)
      modifies this
      ensures value.None? <==> old(Contents()) == []
      ensures value.None? ==> cache == old(cache) && queue == old(queue)
      ensures value.Some? ==> (value.value, cache, queue) == Pop(old(cache), old(queue))
      ensures doneFileCount == old(doneFileCount)
    {
      if cache != [] {
        value := Some(cache[0]);
        cache := cache[1..];
        return;
      }
      if queue == [] {
        return Option.None;
      }
      value := Some(queue[0]);
      queue := queue[1..];
      if queue != [] {
        cache, queue := queue, cache;
      }
    }

    /** Empty: nothing is queued. */
    function Empty(): (b: bool)
      reads this
      ensures b <==> Contents() == []
    {
      if cache != [] then false else queue == []
    }

    /** ProducerDone: one more producer has finished its batch. */
    method ProducerDone()
      modifies this
      ensures doneFileCount == old(doneFileCount) + 1
      ensures cache == old(cache) && queue == old(queue)
    {
      doneFileCount := doneFileCount + 1;
    }

    /** IsDone: every producer has reported. */
    function IsDone(): (b: bool)
      reads this
      ensures b <==> doneFileCount >= TotalFiles
    {
      doneFileCount >= TotalFiles
    }

    /** ResetDoneFileCount: start counting the next batch. */
    method ResetDoneFileCount()
      modifies this
      ensures doneFileCount == 0 && DoneFileReset()
      ensures cache == old(cache) && queue == old(queue)
    {
      doneFileCount := 0;
    }

    /** The condition WaitUntilDoneFileReset waits for. */
    predicate DoneFileReset()
      reads this
    {
      doneFileCount == 0
    }
  }
}
