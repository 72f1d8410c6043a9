/** MemoryQueue (pkg/queue/memory_queue.go): a bounded channel of jobs and a
    closed flag.  Enqueue is two atomic regions, because it releases its lock
    between the closed check and the send. */
module Queues {
  import opened Models
  import opened Requests

  datatype Queue = Queue(ch: seq<Job>, closed: bool, capacity: nat)

  const DEFAULT_CAPACITY := 10000

  function NewQueue(capacity: int): Queue {
    Queue([], false, if capacity <= 0 then DEFAULT_CAPACITY else capacity)
  }

  /** How the select of Enqueue ends. */
  datatype Sent = InLine | Cancelled | Backpressure | SendPanic

  /** The select of Enqueue: a send on a closed channel is ready, and panics;
      otherwise a full channel takes the default branch unless the context is
      done.  When several cases are ready, `preferCancel` is the runtime's pick. */
  function TrySend(q: Queue, job: Job, cancelled: bool, preferCancel: bool): (Queue, Sent) {
    var ready := q.closed || |q.ch| < q.capacity;
    if cancelled && (preferCancel || !ready) then (q, Cancelled)
    else if q.closed then (q, SendPanic)
    else if ready then (q.(ch := q.ch + [NormalizedJob(job)]), InLine)
    else (q, Backpressure)
  }

  datatype Received = Got(job: Job) | Empty | Closed | Stopped

  class MemoryQueue {
    var ch: seq<Job>
    var closed: bool
    const capacity: nat

    ghost function Value(): Queue
      reads this
    {
      Queue(ch, closed, capacity)
    }

    constructor (capacity: int)
      ensures Value() == NewQueue(capacity)
    {
      ch, closed := [], false;
      this.capacity := if capacity <= 0 then DEFAULT_CAPACITY else capacity;
    }

    /** The locked check at the start of Enqueue. */
    method CheckOpen() returns (open: bool)
      ensures open <==> !Value().closed
    {
      open := !closed;
    }

    /** The rest of Enqueue; other calls may have run since CheckOpen. */
    method Send(job: Job, cancelled: bool, preferCancel: bool) returns (r: Sent)
      modifies this
      ensures (Value(), r) == TrySend(old(Value()), job, cancelled, preferCancel)
      ensures r.InLine? ==> ch == old(ch) + [NormalizedJob(job)] && |ch| <= capacity
      ensures !r.InLine? ==> Value() == old(Value())
    {
      if cancelled && (preferCancel || (!closed && |ch| >= capacity)) {
        return Cancelled;
      }
      if closed {
        return SendPanic;
      }
      if |ch| < capacity {
        ch := ch + [NormalizedJob(job)];
        return InLine;
      }
      return Backpressure;
    }

    /** Dequeue, given which ready case the select took: context, timer or channel. */
    method Dequeue(cancelled: bool, timedOut: bool) returns (r: Received)
      requires cancelled || timedOut || ch != [] || closed
      modifies this
      ensures match r
              case Got(job) => old(ch) == [job] + ch
              case Empty => timedOut && Value() == old(Value())
              case Closed => closed && ch == [] && Value() == old(Value())
              case Stopped => cancelled && Value() == old(Value())
      ensures closed == old(closed)
    {
      if cancelled {
        return Stopped;
      }
      if timedOut {
        return Empty;
      }
      if ch == [] {
        return Closed;
      }
      r := Got(ch[0]);
      ch := ch[1..];
    }

    method QueueDepth() returns (n: nat)
      ensures n == |Value().ch|
    {
      n := |ch|;
    }

    method CloseQueue()
      modifies this
      ensures Value() == old(Value()).(closed := true)
    {
      closed := true;
    }
  }
}
