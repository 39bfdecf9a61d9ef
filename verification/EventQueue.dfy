/** The event queues: the bounded message queue the framework reads, and the
    queue of batches that did not fit and wait to be written. */
module EventQueues {
  import opened Handles
  import opened EventProcessing

  datatype Batch = Batch(events: seq<Event>, wakeCount: nat)

  datatype Queue = Queue(
    messages: seq<Event>,      // in the message queue, not yet read
    quantum: nat,              // capacity of the message queue
    pending: seq<Batch>,
    pendingSize: nat,
    mostPending: nat)

  function Min(a: nat, b: nat): nat {
    if a <= b then a else b
  }

  function Max(a: nat, b: nat): nat {
    if a >= b then a else b
  }

  /** The events of a list of batches, in order. */
  function Flatten(batches: seq<Batch>): seq<Event> {
    if batches == [] then [] else batches[0].events + Flatten(batches[1..])
  }

  lemma {:induction false} FlattenPush(batches: seq<Batch>, b: Batch)
    ensures Flatten(batches + [b]) == Flatten(batches) + b.events
  {
    if batches == [] {
      assert batches + [b] == [b];
      assert Flatten([b]) == b.events + Flatten([b][1..]);
    } else {
      FlattenPush(batches[1..], b);
      assert (batches + [b])[1..] == batches[1..] + [b];
    }
  }

  /** The room the message queue reports. */
  function AvailableToWrite(q: Queue): nat {
    if |q.messages| <= q.quantum then q.quantum - |q.messages| else 0
  }

  /** How many of the posted events go straight into the message queue. A write
      of what fits can still be refused; it then writes nothing. */
  function DirectlyWritten(q: Queue, events: seq<Event>, accepted: bool): (n: nat)
    ensures n <= |events|
  {
    if q.pending == [] && accepted then Min(|events|, AvailableToWrite(q)) else 0
  }

  /** Whether the events that were not written directly still fit the pending queue. */
  predicate Queued(q: Queue, maxPending: nat, events: seq<Event>, n: nat)
    requires n <= |events|
  {
    n < |events| && q.pendingSize + (|events| - n) <= maxPending
  }

  /** postEventsToMessageQueue, as far as the queues are concerned. */
  function Post(q: Queue, maxPending: nat, events: seq<Event>, wakeCount: nat, accepted: bool): Queue {
    var n := DirectlyWritten(q, events, accepted);
    var written := q.(messages := q.messages + events[..n]);
    if !Queued(q, maxPending, events, n) then written
    else
      var size := q.pendingSize + (|events| - n);
      written.(pending := q.pending + [Batch(events[n..], wakeCount)],
               pendingSize := size,
               mostPending := Max(q.mostPending, size))
  }

  /** The length of the chunk that the writer thread takes from the front batch. */
  function ChunkLength(q: Queue): (n: nat)
    requires q.pending != []
    ensures n <= |q.pending[0].events| && n <= q.quantum
    ensures n == |q.pending[0].events| || n == q.quantum
  {
    Min(|q.pending[0].events|, q.quantum)
  }

  /** How many references a failed write of the front chunk gives back. */
  function RetiredRefs(wake: set<Handle>, front: Batch, quantum: nat): nat {
    if front.wakeCount == 0 then 0
    else if |front.events| > quantum then CountWakeups(wake, front.events[..quantum])
    else front.wakeCount
  }

  /** Removes the front chunk once its write has returned. */
  function RemoveChunk(q: Queue, n: nat, quantum: nat): Queue
    requires q.pending != [] && n <= q.pendingSize
  {
    var front := q.pending[0];
    q.(pendingSize := q.pendingSize - n,
       pending := if |front.events| > quantum
                  then [front.(events := front.events[quantum..])] + q.pending[1..]
                  else q.pending[1..])
  }

  /** The accounting that holds whenever the queue mutex is free. */
  ghost predicate Accounted(q: Queue, maxPending: nat) {
    && q.pendingSize == |Flatten(q.pending)|
    && q.pendingSize <= maxPending
    && q.pendingSize <= q.mostPending
    && (forall b :: b in q.pending ==> b.events != [])
    && |q.messages| <= q.quantum
  }

  lemma PostAccounted(q: Queue, maxPending: nat, events: seq<Event>, wakeCount: nat, accepted: bool)
    requires Accounted(q, maxPending)
    ensures Accounted(Post(q, maxPending, events, wakeCount, accepted), maxPending)
  {
    var n := DirectlyWritten(q, events, accepted);
    FlattenPush(q.pending, Batch(events[n..], wakeCount));
  }

  /** A post goes behind everything pending, and only goes into the message
      queue when nothing is. */
  lemma PostGoesBehind(q: Queue, maxPending: nat, events: seq<Event>, wakeCount: nat, accepted: bool)
    ensures var n := DirectlyWritten(q, events, accepted);
            && Flatten(Post(q, maxPending, events, wakeCount, accepted).pending) ==
               Flatten(q.pending) + (if Queued(q, maxPending, events, n) then events[n..] else [])
            && (n > 0 ==> q.pending == [])
  {
    FlattenPush(q.pending, Batch(events[DirectlyWritten(q, events, accepted)..], wakeCount));
  }

  /** With nothing pending, an accepted post writes as much as the message queue
      has room for; if that is all of it, nothing is queued. */
  lemma PostFillsTheRoom(q: Queue, maxPending: nat, events: seq<Event>, wakeCount: nat)
    requires q.pending == [] && |q.messages| <= q.quantum
    ensures var after, room := Post(q, maxPending, events, wakeCount, true), q.quantum - |q.messages|;
            && after.messages == q.messages + (if |events| <= room then events else events[..room])
            && (|events| <= room ==> after == q.(messages := q.messages + events))
  {
    assert events[..|events|] == events;
  }

  /** Behind pending events, or when its write is refused, a post writes nothing. */
  lemma PostWaitsItsTurn(q: Queue, maxPending: nat, events: seq<Event>, wakeCount: nat, accepted: bool)
    requires q.pending != [] || !accepted
    ensures Post(q, maxPending, events, wakeCount, accepted).messages == q.messages
  {}

  /** What is not written becomes one batch behind the others, with the wake-up
      count of the whole post, if it fits the limit; if it does not, it is
      dropped. The counter and the high-water mark follow. */
  lemma PostQueuesTheRest(q: Queue, maxPending: nat, events: seq<Event>, wakeCount: nat, accepted: bool)
    ensures var after := Post(q, maxPending, events, wakeCount, accepted);
            && |q.messages| <= |after.messages| <= |q.messages| + |events|
            && after.quantum == q.quantum
            && var rest := events[|after.messages| - |q.messages|..];
               var size := q.pendingSize + |rest|;
            && (rest != [] && size <= maxPending ==>
                  && after.pending == q.pending + [Batch(rest, wakeCount)]
                  && after.pendingSize == size
                  && after.mostPending == if q.mostPending < size then size else q.mostPending)
            && (rest == [] || size > maxPending ==>
                  && after.pending == q.pending
                  && after.pendingSize == q.pendingSize && after.mostPending == q.mostPending)
  {}

  /** The front chunk is the front of the pending events. */
  lemma FrontChunk(q: Queue)
    requires q.pending != []
    ensures var n := ChunkLength(q);
            && n <= |Flatten(q.pending)|
            && Flatten(q.pending)[..n] == q.pending[0].events[..n]
  {}

  lemma RemoveChunkAccounted(q: Queue, maxPending: nat)
    requires Accounted(q, maxPending) && q.pending != []
    ensures var n := ChunkLength(q);
            && n <= q.pendingSize
            && var after := RemoveChunk(q, n, q.quantum);
            && Accounted(after, maxPending)
            && Flatten(after.pending) == Flatten(q.pending)[n..]
  {
    var n, front := ChunkLength(q), q.pending[0];
    var after := RemoveChunk(q, n, q.quantum);
    if |front.events| > q.quantum {
      assert after.pending[1..] == q.pending[1..];
      assert front.events == front.events[..n] + front.events[n..];
    }
  }

  /** Batches behind the front do not matter to the chunk the writer has taken. */
  lemma ChunkIgnoresPost(q: Queue, maxPending: nat, events: seq<Event>, wakeCount: nat, accepted: bool)
    requires q.pending != []
    ensures var after := Post(q, maxPending, events, wakeCount, accepted);
            && after.pending != [] && after.pending[0] == q.pending[0]
            && after.messages == q.messages && after.quantum == q.quantum
  {}

  // ---------------------------------------------------------- counting chunks

  /** a divided by q, rounded up. */
  function CeilDiv(a: nat, q: nat): nat
    requires q > 0
  {
    if a == 0 then 0 else 1 + CeilDiv(if a > q then a - q else 0, q)
  }

  lemma {:induction false} CeilDivRoundsUp(a: nat, q: nat)
    requires q > 0
    ensures a <= CeilDiv(a, q) * q < a + q
  {
    if a > 0 {
      var rest := if a > q then a - q else 0;
      CeilDivRoundsUp(rest, q);
      assert CeilDiv(a, q) * q == q + CeilDiv(rest, q) * q;
    }
  }

  /** The number of chunks in which the writer takes the pending batches. */
  function Chunks(batches: seq<Batch>, quantum: nat): nat
    requires quantum > 0
  {
    if batches == [] then 0 else CeilDiv(|batches[0].events|, quantum) + Chunks(batches[1..], quantum)
  }

  lemma RemovalTakesOneChunk(q: Queue, maxPending: nat)
    requires Accounted(q, maxPending) && q.pending != [] && q.quantum > 0
    ensures ChunkLength(q) <= q.pendingSize
    ensures Chunks(q.pending, q.quantum) == 1 + Chunks(RemoveChunk(q, ChunkLength(q), q.quantum).pending, q.quantum)
  {
    FrontChunk(q);
    var front, after := q.pending[0], RemoveChunk(q, ChunkLength(q), q.quantum);
    assert front in q.pending;
    if |front.events| > q.quantum {
      assert after.pending[0].events == front.events[q.quantum..] && after.pending[1..] == q.pending[1..];
    } else {
      assert CeilDiv(|front.events|, q.quantum) == 1 + CeilDiv(0, q.quantum);
    }
  }
}
