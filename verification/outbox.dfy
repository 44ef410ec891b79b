/**
 Bounded first-in first-out queues with a closed flag: the buffered Go
 channels that carry messages to a connection's writer and actions to a
 game's controller. Only the channel's contents are modelled, not the
 goroutines that block on it.
 */
module Outbox {
  import opened Wrappers

  datatype Queue<T> = Queue(items: seq<T>, capacity: nat, closed: bool)

  /** The buffer never holds more than the capacity. */
  predicate Bounded<T>(q: Queue<T>) {
    |q.items| <= q.capacity
  }

  predicate HasRoom<T>(q: Queue<T>) {
    |q.items| < q.capacity
  }

  /** A fresh, open, empty queue. */
  function NewQueue<T>(capacity: nat): (q: Queue<T>)
    ensures q.items == [] && q.capacity == capacity && !q.closed && Bounded(q)
  {
    Queue([], capacity, false)
  }

  /** A send that never waits (Go's `select` with a `default` case): the
      message is appended when there is room and dropped otherwise, and the
      flag says which. Sending on a closed channel panics, so the queue must
      be open. */
  function Offer<T>(q: Queue<T>, m: T): (r: (Queue<T>, bool))
    requires !q.closed
    ensures r.1 <==> HasRoom(q)
    ensures r.1 ==> r.0.items == q.items + [m]
    ensures !r.1 ==> r.0 == q
    ensures r.0.capacity == q.capacity && !r.0.closed
    ensures Bounded(q) ==> Bounded(r.0)
  {
    if HasRoom(q) then (q.(items := q.items + [m]), true) else (q, false)
  }

  /** A send that waits for room: `None` stands for a sender that is still
      waiting because the buffer is full. */
  function Put<T>(q: Queue<T>, m: T): (r: Option<Queue<T>>)
    requires !q.closed
    ensures r.Some? <==> HasRoom(q)
    ensures r.Some? ==> r.value == Offer(q, m).0
  {
    if HasRoom(q) then Some(q.(items := q.items + [m])) else None
  }

  /** Closing twice panics, so the queue must be open; the buffered
      messages stay to be received. */
  function Close<T>(q: Queue<T>): (r: Queue<T>)
    requires !q.closed
    ensures r.closed && r.items == q.items && r.capacity == q.capacity
  {
    q.(closed := true)
  }

  /** A receive: the oldest message, or `None` on an empty queue (where a
      receiver waits, or learns that the channel is closed). */
  function Take<T>(q: Queue<T>): (r: Option<(T, Queue<T>)>)
    ensures r.Some? <==> |q.items| > 0
    ensures r.Some? ==> [r.value.0] + r.value.1.items == q.items
    ensures r.Some? ==> r.value.1.closed == q.closed && r.value.1.capacity == q.capacity
  {
    if |q.items| == 0 then None else Some((q.items[0], q.(items := q.items[1..])))
  }

  /** First in, first out: a message offered to an empty queue with room is
      the next one received, and offering to a non-empty queue does not
      change which message comes out next. */
  lemma OfferThenTake<T>(q: Queue<T>, m: T)
    requires !q.closed && HasRoom(q)
    ensures Take(Offer(q, m).0).Some?
    ensures Take(Offer(q, m).0).value.0 == if |q.items| == 0 then m else q.items[0]
  {
  }
}
