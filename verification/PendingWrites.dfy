/** What the pending-writes thread does in some iterations, nobody posting meanwhile. */
module PendingWrites {
  import opened EventProcessing
  import opened EventQueues
  import opened Handles
  import opened Wakelocks

  function Concat(chunks: seq<seq<Event>>): seq<Event> {
    if chunks == [] then [] else Concat(chunks[..|chunks| - 1]) + chunks[|chunks| - 1]
  }

  lemma ConcatPush(chunks: seq<seq<Event>>, chunk: seq<Event>)
    ensures Concat(chunks + [chunk]) == Concat(chunks) + chunk
    ensures Concat([chunk]) == chunk
  {
    assert (chunks + [chunk])[..|chunks|] == chunks;
    assert [chunk][..0] == [];
    assert Concat([chunk]) == Concat([]) + chunk;
  }

  /** The chunks that took the batches from before to after: as many as the
      number of chunks went down by, none larger than the message queue, and
      together the events that are gone from the front. */
  ghost predicate Took(before: seq<Batch>, chunks: seq<seq<Event>>, after: seq<Batch>, quantum: nat)
    requires quantum > 0
  {
    && |chunks| + Chunks(after, quantum) == Chunks(before, quantum)
    && Concat(chunks) + Flatten(after) == Flatten(before)
    && forall chunk :: chunk in chunks ==> 0 < |chunk| <= quantum
  }

  lemma TookChunk(before: seq<Batch>, chunk: seq<Event>, after: seq<Batch>, quantum: nat)
    requires quantum > 0 && 0 < |chunk| <= quantum
    requires Chunks(before, quantum) == 1 + Chunks(after, quantum)
    requires Flatten(before) == chunk + Flatten(after)
    ensures Took(before, [chunk], after, quantum)
  {
    hide Chunks;
    hide Flatten;
    hide Concat;
    ConcatPush([], chunk);
  }

  lemma ChunkIsNonEmpty(q: Queue, maxPending: nat)
    requires Accounted(q, maxPending) && q.pending != [] && q.quantum > 0
    ensures 0 < ChunkLength(q)
  {
    assert q.pending[0] in q.pending;
  }

  lemma TookFront(q: Queue, maxPending: nat)
    requires Accounted(q, maxPending) && q.pending != [] && q.quantum > 0
    ensures var n := ChunkLength(q);
            && n <= q.pendingSize
            && Took(q.pending, [q.pending[0].events[..n]], RemoveChunk(q, n, q.quantum).pending, q.quantum)
  {
    hide Accounted;
    hide Chunks;
    hide Flatten;
    hide RemoveChunk;
    hide Took;
    hide ChunkLength;
    var n := ChunkLength(q);
    var chunk, all := q.pending[0].events[..n], Flatten(q.pending);
    ChunkIsNonEmpty(q, maxPending);
    RemovalTakesOneChunk(q, maxPending);
    RemoveChunkAccounted(q, maxPending);
    FrontChunk(q);
    assert all == chunk + all[n..];
    TookChunk(q.pending, chunk, RemoveChunk(q, n, q.quantum).pending, q.quantum);
  }

  lemma TookNothing(batches: seq<Batch>, quantum: nat)
    requires quantum > 0
    ensures Took(batches, [], batches, quantum)
  {}

  lemma TookOneMore(before: seq<Batch>, chunks: seq<seq<Event>>, middle: seq<Batch>, chunk: seq<Event>,
                    after: seq<Batch>, quantum: nat)
    requires quantum > 0
    requires Took(before, chunks, middle, quantum) && Took(middle, [chunk], after, quantum)
    ensures Took(before, chunks + [chunk], after, quantum)
  {
    hide Concat;
    hide Chunks;
    hide Flatten;
    ConcatPush(chunks, chunk);
    assert (Concat(chunks) + chunk) + Flatten(after) == Concat(chunks) + (chunk + Flatten(after));
    assert chunk in [chunk];
  }

  lemma TookAll(before: seq<Batch>, chunks: seq<seq<Event>>, after: seq<Batch>, quantum: nat)
    requires quantum > 0 && Took(before, chunks, after, quantum)
    requires forall b :: b in after ==> b.events != []
    ensures |chunks| <= Chunks(before, quantum)
    ensures after == [] <==> |chunks| == Chunks(before, quantum)
  {
    if after != [] {
      assert after[0] in after;
    }
  }

  // -------------------------------------------------------- iteration by iteration

  /** One iteration: the batch at the front, the chunk of it that was tried,
      whether its write succeeded, and whether the threads ran afterwards. */
  datatype Attempt = Attempt(batch: Batch, chunk: seq<Event>, success: bool, running: bool)

  function ChunksOf(attempts: seq<Attempt>): (chunks: seq<seq<Event>>)
    ensures |chunks| == |attempts|
    ensures forall i :: 0 <= i < |attempts| ==> chunks[i] == attempts[i].chunk
  {
    seq(|attempts|, i requires 0 <= i < |attempts| => attempts[i].chunk)
  }

  lemma ChunksOneMore(attempts: seq<Attempt>, a: Attempt)
    ensures ChunksOf(attempts + [a]) == ChunksOf(attempts) + [a.chunk]
  {}

  /** The pending batches after n iterations. */
  function Leftover(batches: seq<Batch>, quantum: nat, n: nat): seq<Batch> {
    if n == 0 then batches
    else
      var rest := Leftover(batches, quantum, n - 1);
      if rest == [] then []
      else if |rest[0].events| > quantum
      then [Batch(rest[0].events[quantum..], rest[0].wakeCount)] + rest[1..]
      else rest[1..]
  }

  /** The wakelock after some iterations: only failed chunks of batches with
      wake-up events take references from it. */
  function LockAfter(w: Wakelock, wake: set<Handle>, quantum: nat, attempts: seq<Attempt>): Wakelock {
    if attempts == [] then w
    else
      var n := |attempts| - 1;
      var before, a := LockAfter(w, wake, quantum, attempts[..n]), attempts[n];
      if a.success || a.batch.wakeCount == 0 then before
      else Decrement(before, a.running, RetiredRefs(wake, a.batch, quantum), NO_TIMESTAMP)
  }

  /** The events that some iterations wrote. */
  function WrittenBy(attempts: seq<Attempt>): seq<Event> {
    if attempts == [] then []
    else
      var n := |attempts| - 1;
      WrittenBy(attempts[..n]) + (if attempts[n].success then attempts[n].chunk else [])
  }

  ghost predicate IsTail(a: seq<Event>, b: seq<Event>) {
    exists read :: 0 <= read <= |b| && a == b[read..]
  }

  /** Each iteration tried the chunk at the front of what the ones before it had left. */
  ghost predicate Tried(batches: seq<Batch>, quantum: nat, attempts: seq<Attempt>) {
    forall i :: 0 <= i < |attempts| ==> Tries(Leftover(batches, quantum, i), quantum, attempts[i])
  }

  /** The chunk is as much of the front batch as the message queue holds at most. */
  predicate Tries(batches: seq<Batch>, quantum: nat, a: Attempt) {
    && batches != [] && a.batch == batches[0]
    && a.chunk == a.batch.events[..Min(|a.batch.events|, quantum)]
  }

  /** What some iterations did to the queues and the wakelock: the chunks they
      tried are gone from the front and the rest is untouched; the message queue
      has what was written, but for what the framework has read meanwhile; and the
      wakelock is as LockAfter says. */
  ghost predicate Went(q: Queue, w: Wakelock, wake: set<Handle>, attempts: seq<Attempt>, q': Queue, w': Wakelock) {
    && Tried(q.pending, q.quantum, attempts)
    && q'.pending == Leftover(q.pending, q.quantum, |attempts|)
    && q'.quantum == q.quantum && q'.mostPending == q.mostPending
    && IsTail(q'.messages, q.messages + WrittenBy(attempts))
    && w' == LockAfter(w, wake, q.quantum, attempts)
  }

  lemma WentNowhere(q: Queue, w: Wakelock, wake: set<Handle>)
    ensures Went(q, w, wake, [], q, w)
  {
    assert q.messages == (q.messages + [])[0..];
  }

  lemma LeftoverOnce(batches: seq<Batch>, quantum: nat)
    requires batches != []
    ensures Leftover(batches, quantum, 0) == batches
    ensures Leftover(batches, quantum, 1) ==
            if |batches[0].events| > quantum
            then [Batch(batches[0].events[quantum..], batches[0].wakeCount)] + batches[1..]
            else batches[1..]
  {}

  lemma LockAfterOnce(w: Wakelock, wake: set<Handle>, quantum: nat, attempts: seq<Attempt>, a: Attempt)
    ensures LockAfter(w, wake, quantum, [a]) ==
            if a.success || a.batch.wakeCount == 0 then w
            else Decrement(w, a.running, RetiredRefs(wake, a.batch, quantum), NO_TIMESTAMP)
    ensures LockAfter(w, wake, quantum, attempts + [a]) ==
            LockAfter(LockAfter(w, wake, quantum, attempts), wake, quantum, [a])
  {
    assert [a][..0] == [] && LockAfter(w, wake, quantum, []) == w;
    assert (attempts + [a])[..|attempts|] == attempts;
    hide Decrement;
    hide RetiredRefs;
  }

  lemma WrittenOnce(attempts: seq<Attempt>, a: Attempt)
    ensures WrittenBy([a]) == if a.success then a.chunk else []
    ensures WrittenBy(attempts + [a]) == WrittenBy(attempts) + WrittenBy([a])
  {
    assert [a][..0] == [] && WrittenBy([]) == [];
    assert (attempts + [a])[..|attempts|] == attempts;
  }

  lemma TriedOnce(batches: seq<Batch>, quantum: nat, a: Attempt)
    ensures Tried(batches, quantum, [a]) <==> Tries(batches, quantum, a)
  {
    assert [a][0] == a && Leftover(batches, quantum, 0) == batches;
    hide Leftover;
    hide Tries;
  }

  lemma TriedOneMore(batches: seq<Batch>, quantum: nat, attempts: seq<Attempt>, a: Attempt)
    requires Tried(batches, quantum, attempts)
    requires Tried(Leftover(batches, quantum, |attempts|), quantum, [a])
    ensures Tried(batches, quantum, attempts + [a])
  {
    hide Leftover;
    hide Tries;
    TriedOnce(Leftover(batches, quantum, |attempts|), quantum, a);
    assert (attempts + [a])[|attempts|] == a;
    assert forall i :: 0 <= i < |attempts| ==> (attempts + [a])[i] == attempts[i];
  }

  lemma TailOnce(messages: seq<Event>, added: seq<Event>, after: seq<Event>)
    requires exists read :: 0 <= read <= |messages| && after == messages[read..] + added
    ensures IsTail(after, messages + added)
  {
    var read :| 0 <= read <= |messages| && after == messages[read..] + added;
    assert after == (messages + added)[read..];
  }

  lemma WentOnce(q: Queue, w: Wakelock, wake: set<Handle>, a: Attempt, q': Queue, w': Wakelock)
    requires Tries(q.pending, q.quantum, a) && |a.chunk| <= q.pendingSize
    requires exists read :: 0 <= read <= |q.messages| &&
               q'.messages == q.messages[read..] + (if a.success then a.chunk else [])
    requires q' == RemoveChunk(q, |a.chunk|, q.quantum).(messages := q'.messages)
    requires w' == if a.success || a.batch.wakeCount == 0 then w
                   else Decrement(w, a.running, RetiredRefs(wake, a.batch, q.quantum), NO_TIMESTAMP)
    ensures Went(q, w, wake, [a], q', w')
  {
    hide Leftover;
    hide LockAfter;
    hide WrittenBy;
    hide Decrement;
    hide RetiredRefs;
    hide IsTail;
    hide Tried;
    LeftoverOnce(q.pending, q.quantum);
    LockAfterOnce(w, wake, q.quantum, [], a);
    WrittenOnce([], a);
    TriedOnce(q.pending, q.quantum, a);
    TailOnce(q.messages, WrittenBy([a]), q'.messages);
  }

  lemma SuffixGrows<T>(b: seq<T>, x: seq<T>, r: nat)
    requires r <= |b|
    ensures b[r..] + x == (b + x)[r..]
  {
  }

  lemma SuffixOfSuffix<T>(b: seq<T>, r: nat, s: nat)
    requires r + s <= |b|
    ensures b[r..][s..] == b[r + s..]
  {
  }

  lemma TailGrows(a: seq<Event>, b: seq<Event>, x: seq<Event>, c: seq<Event>)
    requires IsTail(a, b) && IsTail(c, a + x)
    ensures IsTail(c, b + x)
  {
    var r :| 0 <= r <= |b| && a == b[r..];
    var s :| 0 <= s <= |a + x| && c == (a + x)[s..];
    SuffixGrows(b, x, r);
    SuffixOfSuffix(b + x, r, s);
    assert c == (b + x)[r + s..];
  }

  lemma LeftoverOneMore(batches: seq<Batch>, quantum: nat, n: nat)
    ensures Leftover(Leftover(batches, quantum, n), quantum, 1) == Leftover(batches, quantum, n + 1)
  {
    assert Leftover(Leftover(batches, quantum, n), quantum, 0) == Leftover(batches, quantum, n);
  }

  lemma WentOneMore(q: Queue, w: Wakelock, wake: set<Handle>, attempts: seq<Attempt>, q1: Queue, w1: Wakelock,
                    a: Attempt, q2: Queue, w2: Wakelock)
    requires Went(q, w, wake, attempts, q1, w1) && Went(q1, w1, wake, [a], q2, w2)
    ensures Went(q, w, wake, attempts + [a], q2, w2)
  {
    hide Tried;
    hide Leftover;
    hide LockAfter;
    hide WrittenBy;
    hide IsTail;
    TriedOneMore(q.pending, q.quantum, attempts, a);
    LeftoverOneMore(q.pending, q.quantum, |attempts|);
    LockAfterOnce(w, wake, q.quantum, attempts, a);
    WrittenOnce(attempts, a);
    TailGrows(q1.messages, q.messages + WrittenBy(attempts), WrittenBy([a]), q2.messages);
    assert q.messages + WrittenBy(attempts) + WrittenBy([a]) == q.messages + WrittenBy(attempts + [a]);
  }

  /** The wakelock can only have lost references, and if the kernel's lock agreed
      with the count before, it still does. */
  lemma {:induction false} WritesOnlyLoosen(w: Wakelock, wake: set<Handle>, quantum: nat, attempts: seq<Attempt>)
    ensures var after := LockAfter(w, wake, quantum, attempts);
            && after.refCount <= w.refCount
            && ((w.kernelHeld <==> w.refCount > 0) ==> (after.kernelHeld <==> after.refCount > 0))
  {
    if attempts != [] {
      WritesOnlyLoosen(w, wake, quantum, attempts[..|attempts| - 1]);
    }
  }
}
