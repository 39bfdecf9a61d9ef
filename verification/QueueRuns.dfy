/** What every run of the proxy keeps about the events in its queues. */
module QueueRuns {
  import opened EventProcessing
  import opened EventQueues
  import opened ProxyMachine
  import opened Subsequence
  import opened Wrappers

  // ---------------------------------------------------------------- accounting

  /** The queue counters are right, and a chunk the writer has taken is the
      front chunk still, both while the mutex is free and while it is held. */
  ghost predicate QueueSound(c: Config, s: State) {
    && Accounted(s.queue, c.maxPending)
    && |s.history.origins| == |s.queue.pending|
    && (s.writer.HoldsChunk() ==>
          && s.queue.pending != []
          && s.writer.numToWrite == ChunkLength(s.queue)
          && s.writer.eventQueueSize == s.queue.quantum)
    && (s.writer.Writing? || s.writer.WriteFailed? ==> s.writer.numWakeupEvents == s.queue.pending[0].wakeCount)
  }

  lemma QueueSoundPost(c: Config, s: State, events: seq<Event>, accepted: bool)
    requires QueueSound(c, s)
    ensures QueueSound(c, ApplyFinishPost(c, s, events, accepted))
  {
    var wakeCount := CountWakeups(c.wake, events);
    PostAccounted(s.queue, c.maxPending, events, wakeCount, accepted);
    if s.queue.pending != [] {
      ChunkIgnoresPost(s.queue, c.maxPending, events, wakeCount, accepted);
    }
  }

  lemma QueueSoundFinish(c: Config, s: State)
    requires QueueSound(c, s) && s.writer.WriteDone? && ChunkAtFront(s)
    ensures QueueSound(c, ApplyFinish(s))
  {
    RemoveChunkAccounted(s.queue, c.maxPending);
  }

  lemma QueueSoundOtherwise(c: Config, s: State, step: Step)
    requires QueueSound(c, s) && Enabled(c, s, step) && !step.FinishPost? && !step.FinishChunk?
    ensures QueueSound(c, Apply(c, s, step))
  {
    hide CountWakeups;
    hide RetiredRefs;
    hide Flatten;
    if step.Initialize? {
      EmptyIsAccounted(c, s, step);
    }
  }

  lemma EmptyIsAccounted(c: Config, s: State, step: Step)
    requires step.Initialize? && Accounted(s.queue, c.maxPending)
    ensures Accounted(Queue([], step.quantum, [], 0, s.queue.mostPending), c.maxPending)
  {}

  lemma QueueSoundStep(c: Config, s: State, step: Step)
    requires QueueSound(c, s) && Enabled(c, s, step)
    ensures QueueSound(c, Apply(c, s, step))
  {
    hide QueueSound;
    match step {
      case FinishPost(accepted) => QueueSoundPost(c, s, s.poster.events, accepted);
      case FinishChunk => QueueSoundFinish(c, s);
      case _ => QueueSoundOtherwise(c, s, step);
    }
  }

  lemma ChunkIsAtFront(c: Config, s: State)
    requires QueueSound(c, s) && s.writer.HoldsChunk()
    ensures ChunkAtFront(s)
  {
    FrontChunk(s.queue);
  }

  /** In every reachable state of every interleaving: the size counter is the
      number of pending events, no pending batch is empty, the size is within
      its limit, and the chunk the writer relies on while it does not hold the
      mutex is in place (so no step of the writer reads past a queue, or counts
      below zero). */
  lemma {:induction false} QueueSoundAlways(c: Config, states: seq<State>, steps: seq<Step>, k: nat)
    requires Run(c, states, steps) && k < |states|
    ensures QueueSound(c, states[k])
    ensures states[k].writer.HoldsChunk() ==> ChunkAtFront(states[k])
  {
    if k > 0 {
      QueueSoundAlways(c, states, steps, k - 1);
      QueueSoundStep(c, states[k - 1], steps[k - 1]);
    }
    if states[k].writer.HoldsChunk() {
      ChunkIsAtFront(c, states[k]);
    }
  }

  lemma MarkMovesToSize(c: Config, s: State, step: Step)
    requires Enabled(c, s, step)
    ensures var before, after := s.queue, Apply(c, s, step).queue;
            && before.mostPending <= after.mostPending
            && (after.mostPending == before.mostPending || after.mostPending == after.pendingSize)
  {}

  lemma {:induction false} MarkWasReached(c: Config, states: seq<State>, steps: seq<Step>, k: nat) returns (j: nat)
    requires Run(c, states, steps) && k < |states|
    ensures j <= k && states[j].queue.pendingSize == states[k].queue.mostPending
  {
    hide Apply;
    hide Enabled;
    if k == 0 {
      j := 0;
    } else {
      MarkMovesToSize(c, states[k - 1], steps[k - 1]);
      if states[k].queue.mostPending == states[k - 1].queue.mostPending {
        j := MarkWasReached(c, states, steps, k - 1);
      } else {
        j := k;
      }
    }
  }

  lemma {:induction false} MarkNeverFalls(c: Config, states: seq<State>, steps: seq<Step>, j: nat, k: nat)
    requires Run(c, states, steps) && j <= k < |states|
    ensures states[j].queue.mostPending <= states[k].queue.mostPending
    decreases k
  {
    hide Apply;
    hide Enabled;
    if j < k {
      MarkNeverFalls(c, states, steps, j, k - 1);
      MarkMovesToSize(c, states[k - 1], steps[k - 1]);
    }
  }

  ghost predicate PostersGoOn(c: Config, s: State, now: int) {
    && (s.poster.Posting? ==> forall accepted :: Enabled(c, s, FinishPost(accepted)))
    && (s.poster.NobodyPosts? ==>
          && (forall events :: Enabled(c, s, BeginPost(events, None, now)))
          && (forall events, t :: t in s.history.tokens ==> Enabled(c, s, BeginPost(events, Some(t), now)))
          && (forall t :: t in s.history.tokens ==> Enabled(c, s, ReleaseToken(t))))
    && Enabled(c, s, CreateToken(now))
  }

  ghost predicate WriterGoesOn(c: Config, s: State) {
    match s.writer
    case WriterStopped => true
    case WriterWaiting =>
      && (s.running && s.poster.NobodyPosts? && s.queue.pending != [] ==> Enabled(c, s, TakeChunk))
      && (!s.running ==> Enabled(c, s, WriterExits))
    case Writing(n, _, _) =>
      && Enabled(c, s, BlockingWrite(false))
      && (Enabled(c, s, BlockingWrite(true)) <==> n <= AvailableToWrite(s.queue))
    case WriteFailed(_, _, _) => Enabled(c, s, RetireChunk)
    case WriteDone(_, _) => s.poster.NobodyPosts? ==> Enabled(c, s, FinishChunk)
  }

  ghost predicate KeeperGoesOn(c: Config, s: State, now: int) {
    match s.keeper
    case KeeperStopped => true
    case KeeperWaiting =>
      && (s.running && s.lock.refCount > 0 ==> Enabled(c, s, KeeperWakes(now, now + 1)))
      && (!s.running ==> Enabled(c, s, KeeperExits(now)))
    case Reading(_) => forall ack :: Enabled(c, s, KeeperReads(ack))
  }

  ghost predicate OthersGoOn(c: Config, s: State, now: int) {
    && Enabled(c, s, StopThreads)
    && (forall n: nat :: n <= |s.queue.messages| ==> Enabled(c, s, Consume(n)))
    && (!s.running ==> forall n: nat :: n <= |s.queue.messages| ==> Enabled(c, s, Drain(n)))
    && (!s.running && s.poster.NobodyPosts? && s.writer.WriterStopped? && s.keeper.KeeperStopped? ==>
          forall quantum :: Enabled(c, s, Initialize(now, quantum)))
  }

  lemma PostersCan(c: Config, s: State, now: int)
    requires s.history.clock < now
    ensures PostersGoOn(c, s, now)
  {}

  lemma WriterCan(c: Config, s: State)
    requires s.writer.HoldsChunk() ==> ChunkAtFront(s)
    ensures WriterGoesOn(c, s)
  {
    hide ChunkAtFront;
    hide AvailableToWrite;
  }

  lemma KeeperCan(c: Config, s: State, now: int)
    requires s.history.clock < now
    ensures KeeperGoesOn(c, s, now)
  {}

  lemma OthersCan(c: Config, s: State, now: int)
    requires s.history.clock < now
    ensures OthersGoOn(c, s, now)
  {}

  /** Nobody is stuck for a reason that is not the source's: in every reachable
      state a poster that holds the mutex can go on whatever its write returns, and
      anybody can begin to post if nobody does; the writer's next step is possible,
      at most waiting for the mutex, for something to write, or for room if its
      write is to succeed; the keeper's is, unless there is nothing to keep; and a
      stopped proxy whose threads have exited can be initialised. */
  lemma NobodyIsStuck(c: Config, states: seq<State>, steps: seq<Step>, k: nat, now: int)
    requires Run(c, states, steps) && k < |states| && states[k].history.clock < now
    ensures PostersGoOn(c, states[k], now) && WriterGoesOn(c, states[k])
    ensures KeeperGoesOn(c, states[k], now) && OthersGoOn(c, states[k], now)
  {
    QueueSoundAlways(c, states, steps, k);
    hide *;
    PostersCan(c, states[k], now);
    WriterCan(c, states[k]);
    KeeperCan(c, states[k], now);
    OthersCan(c, states[k], now);
  }

  /** The high-water mark is the largest pending size of the run so far. */
  lemma HighWaterMark(c: Config, states: seq<State>, steps: seq<Step>, k: nat)
    requires Run(c, states, steps) && k < |states|
    ensures forall j :: 0 <= j <= k ==> states[j].queue.pendingSize <= states[k].queue.mostPending
    ensures exists j :: 0 <= j <= k && states[j].queue.pendingSize == states[k].queue.mostPending
  {
    hide Run;
    forall j | 0 <= j <= k
      ensures states[j].queue.pendingSize <= states[k].queue.mostPending
    {
      QueueSoundAlways(c, states, steps, j);
      MarkNeverFalls(c, states, steps, j, k);
    }
    var j := MarkWasReached(c, states, steps, k);
  }

  // --------------------------------------------------------------------- order

  ghost predicate IsSuffix<T>(a: seq<T>, b: seq<T>) {
    |a| <= |b| && b[|b| - |a|..] == a
  }

  /** Everything written, followed by everything still to be written, is what
      was posted with the lost events left out; the message queue holds the end
      of what was written. */
  ghost predicate InOrder(s: State) {
    Ordered(s.history.posted, s.history.written, Unwritten(s), s.history.lost, s.queue.messages)
  }

  ghost predicate Ordered(posted: seq<Event>, written: seq<Event>, unwritten: seq<Event>, lost: nat,
                          messages: seq<Event>)
  {
    && IsSubseq(written + unwritten, posted)
    && |written| + |unwritten| + lost == |posted|
    && IsSuffix(messages, written)
  }

  lemma SuffixExtends<T>(a: seq<T>, b: seq<T>, x: seq<T>)
    requires IsSuffix(a, b)
    ensures IsSuffix(a + x, b + x)
  {
    assert (b + x)[|b| - |a|..] == b[|b| - |a|..] + x;
  }

  lemma InOrderPost(c: Config, s: State, events: seq<Event>, accepted: bool)
    requires QueueSound(c, s) && InOrder(s)
    ensures InOrder(ApplyFinishPost(c, s, events, accepted))
  {
    var n := DirectlyWritten(s.queue, events, accepted);
    var after := ApplyFinishPost(c, s, events, accepted);
    PostGoesBehind(s.queue, c.maxPending, events, CountWakeups(c.wake, events), accepted);
    FrontChunkUntouched(c, s, events, accepted);
    PostKeepsOrder(s.history, Unwritten(s), s.queue.messages, events, n, Queued(s.queue, c.maxPending, events, n));
    if n == 0 {
      assert events[..0] == [];
    }
  }

  lemma FrontChunkUntouched(c: Config, s: State, events: seq<Event>, accepted: bool)
    requires QueueSound(c, s)
    ensures var n := DirectlyWritten(s.queue, events, accepted);
            && Unwritten(ApplyFinishPost(c, s, events, accepted)) ==
               Unwritten(s) + (if Queued(s.queue, c.maxPending, events, n) then events[n..] else [])
            && (n > 0 ==> Unwritten(s) == [])
  {
    var n := DirectlyWritten(s.queue, events, accepted);
    var added := if Queued(s.queue, c.maxPending, events, n) then events[n..] else [];
    var before := Flatten(s.queue.pending);
    PostGoesBehind(s.queue, c.maxPending, events, CountWakeups(c.wake, events), accepted);
    assert Flatten(ApplyFinishPost(c, s, events, accepted).queue.pending) == before + added;
    if s.writer.WriteFailed? || s.writer.WriteDone? {
      FrontChunk(s.queue);
      DropThenAppend(before, added, s.writer.numToWrite);
    }
  }

  lemma DropThenAppend<T>(a: seq<T>, b: seq<T>, n: nat)
    requires n <= |a|
    ensures (a + b)[n..] == a[n..] + b
  {}

  lemma PostKeepsOrder(h: History, unwritten: seq<Event>, messages: seq<Event>, events: seq<Event>, n: nat,
                       queued: bool)
    requires Ordered(h.posted, h.written, unwritten, h.lost, messages)
    requires n <= |events| && (n > 0 ==> unwritten == [])
    ensures Ordered(h.posted + events, h.written + events[..n],
                    unwritten + (if queued then events[n..] else []),
                    if queued then h.lost else h.lost + (|events| - n),
                    messages + events[..n])
  {
    SuffixExtends(messages, h.written, events[..n]);
    PostFollows(h.written, unwritten, events, n, queued, h.posted);
  }

  lemma Reassociate(written: seq<Event>, unwritten: seq<Event>, events: seq<Event>, n: nat)
    requires n <= |events| && (n > 0 ==> unwritten == [])
    ensures written + unwritten + events == written + events[..n] + unwritten + events[n..] + []
    ensures written + unwritten + events == written + events[..n] + (unwritten + events[n..])
    ensures written + events[..n] + unwritten + [] == written + events[..n] + (unwritten + [])
  {
    assert events == events[..n] + events[n..];
  }

  lemma InOrderWrite(c: Config, s: State, succeeds: bool)
    requires QueueSound(c, s) && InOrder(s) && Enabled(c, s, BlockingWrite(succeeds))
    ensures InOrder(ApplyBlockingWrite(s, succeeds))
  {
    FrontChunk(s.queue);
    ChunkMoves(s.history.written, Flatten(s.queue.pending), s.writer.numToWrite, s.history.posted);
    SuffixExtends(s.queue.messages, s.history.written, Flatten(s.queue.pending)[..s.writer.numToWrite]);
  }

  /** The first n pending events may move behind what came before, or be left out. */
  lemma ChunkMoves(before: seq<Event>, pending: seq<Event>, n: nat, posted: seq<Event>)
    requires n <= |pending| && IsSubseq(before + pending, posted)
    ensures IsSubseq(before + pending[..n] + pending[n..], posted)
    ensures IsSubseq(before + pending[n..], posted)
  {
    assert pending == pending[..n] + pending[n..];
    assert before + pending == before + pending[..n] + pending[n..];
    LeaveOut(before, pending[..n], pending[n..], posted);
  }

  /** The steps that neither add, move nor drop an event. */
  predicate LeavesEvents(step: Step) {
    match step
    case FinishPost(_) => false
    case BlockingWrite(_) => false
    case FinishChunk => false
    case Consume(_) => false
    case Drain(_) => false
    case Initialize(_, _) => false
    case _ => true
  }

  lemma EventsUntouched(c: Config, s: State, step: Step)
    requires QueueSound(c, s) && Enabled(c, s, step) && LeavesEvents(step)
    ensures var after := Apply(c, s, step);
            && after.queue == s.queue && Unwritten(after) == Unwritten(s)
            && after.history.posted == s.history.posted && after.history.written == s.history.written
            && after.history.received == s.history.received && after.history.lost == s.history.lost
  {}

  lemma InOrderFinish(c: Config, s: State)
    requires QueueSound(c, s) && InOrder(s) && s.writer.WriteDone? && ChunkAtFront(s)
    ensures InOrder(ApplyFinish(s))
  {
    UnwrittenAfterFinish(c, s);
  }

  lemma UnwrittenAfterFinish(c: Config, s: State)
    requires QueueSound(c, s) && s.writer.WriteDone? && ChunkAtFront(s)
    ensures Unwritten(ApplyFinish(s)) == Unwritten(s)
  {
    RemoveChunkAccounted(s.queue, c.maxPending);
  }

  lemma InOrderInitialize(s: State, now: int, quantum: nat)
    requires InOrder(s)
    ensures InOrder(ApplyInitialize(s, now, quantum))
  {
    var h := s.history;
    assert h.written + Unwritten(s) == h.written + Unwritten(s) + [];
    LeaveOut(h.written, Unwritten(s), [], h.posted);
  }

  lemma InOrderStep(c: Config, s: State, step: Step)
    requires QueueSound(c, s) && InOrder(s) && Enabled(c, s, step)
    ensures InOrder(Apply(c, s, step))
  {
    hide QueueSound;
    hide Unwritten;
    hide IsSubseq;
    if LeavesEvents(step) {
      EventsUntouched(c, s, step);
    } else {
      hide Ordered;
      match step {
        case FinishPost(accepted) => InOrderPost(c, s, s.poster.events, accepted);
        case BlockingWrite(succeeds) => InOrderWrite(c, s, succeeds);
        case FinishChunk => InOrderFinish(c, s);
        case Consume(n) => InOrderRead(c, s, step, n);
        case Drain(n) => InOrderRead(c, s, step, n);
        case Initialize(now, quantum) => InOrderInitialize(s, now, quantum);
      }
    }
  }

  lemma InOrderRead(c: Config, s: State, step: Step, n: nat)
    requires InOrder(s) && Enabled(c, s, step) && (step == Consume(n) || step == Drain(n))
    ensures InOrder(Apply(c, s, step))
  {
    hide IsSubseq;
    UnwrittenUnread(c, s, step);
  }

  lemma UnwrittenUnread(c: Config, s: State, step: Step)
    requires Enabled(c, s, step) && (step.Consume? || step.Drain?)
    ensures Unwritten(Apply(c, s, step)) == Unwritten(s)
  {}

  /** In every interleaving of posters, writer and framework, events reach the
      message queue in the order in which they were posted, nothing is
      duplicated, and every posted event is written, pending or lost. When
      nothing was lost, what was written and what is pending are together
      exactly what was posted. */
  lemma {:induction false} EventsStayInOrder(c: Config, states: seq<State>, steps: seq<Step>, k: nat)
    requires Run(c, states, steps) && k < |states|
    ensures InOrder(states[k])
    ensures states[k].history.lost == 0 ==>
              states[k].history.written + Unwritten(states[k]) == states[k].history.posted
  {
    if k == 0 {
      NothingPostedYet(states[0]);
    } else {
      EventsStayInOrder(c, states, steps, k - 1);
      QueueSoundAlways(c, states, steps, k - 1);
      InOrderStep(c, states[k - 1], steps[k - 1]);
    }
    NoLonger(states[k].history.written + Unwritten(states[k]), states[k].history.posted);
  }

  lemma NothingPostedYet(s: State)
    requires Initial(s)
    ensures InOrder(s)
  {
    Empty<Event>();
    assert s.history.written + Unwritten(s) == [];
  }

  /** What the framework has read, then what it can read, then what is still to
      be written: the whole way of the events, in the order of their posts. */
  ghost predicate ReceivedInOrder(s: State) {
    IsSubseq(s.history.received + s.queue.messages + Unwritten(s), s.history.posted)
  }

  lemma ReceivedPost(c: Config, s: State, events: seq<Event>, accepted: bool)
    requires QueueSound(c, s) && ReceivedInOrder(s)
    ensures ReceivedInOrder(ApplyFinishPost(c, s, events, accepted))
  {
    var n := DirectlyWritten(s.queue, events, accepted);
    var queued := Queued(s.queue, c.maxPending, events, n);
    FrontChunkUntouched(c, s, events, accepted);
    PostFollows(s.history.received + s.queue.messages, Unwritten(s), events, n, queued, s.history.posted);
    Regroup(s.history.received, s.queue.messages, events[..n], Unwritten(s) + (if queued then events[n..] else []));
  }

  /** A post goes behind everything, with or without the part that does not fit. */
  lemma PostFollows(before: seq<Event>, unwritten: seq<Event>, events: seq<Event>, n: nat, queued: bool,
                    posted: seq<Event>)
    requires n <= |events| && (n > 0 ==> unwritten == []) && IsSubseq(before + unwritten, posted)
    ensures IsSubseq(before + events[..n] + (unwritten + (if queued then events[n..] else [])), posted + events)
  {
    ExtendBoth(before + unwritten, posted, events);
    Reassociate(before, unwritten, events, n);
    if !queued {
      LeaveOut(before + events[..n] + unwritten, events[n..], [], posted + events);
    }
  }

  lemma ReceivedWrite(c: Config, s: State, succeeds: bool)
    requires QueueSound(c, s) && ReceivedInOrder(s) && Enabled(c, s, BlockingWrite(succeeds))
    ensures ReceivedInOrder(ApplyBlockingWrite(s, succeeds))
  {
    var n, pending := s.writer.numToWrite, Flatten(s.queue.pending);
    FrontChunk(s.queue);
    ChunkMoves(s.history.received + s.queue.messages, pending, n, s.history.posted);
    Regroup(s.history.received, s.queue.messages, pending[..n], pending[n..]);
  }

  lemma Regroup(a: seq<Event>, b: seq<Event>, x: seq<Event>, y: seq<Event>)
    ensures a + b + x + y == a + (b + x) + y
  {}

  lemma ReceivedDiscard(s: State)
    requires ReceivedInOrder(s)
    ensures IsSubseq(s.history.received + Unwritten(s), s.history.posted)
    ensures IsSubseq(s.history.received, s.history.posted)
  {
    var h, unwritten := s.history, Unwritten(s);
    LeaveOut(h.received, s.queue.messages, unwritten, h.posted);
    assert h.received + unwritten == h.received + unwritten + [];
    LeaveOut(h.received, unwritten, [], h.posted);
    assert h.received + [] == h.received;
  }

  lemma ReceivedDrain(s: State, n: nat)
    requires ReceivedInOrder(s) && n <= |s.queue.messages|
    ensures IsSubseq(s.history.received + s.queue.messages[n..] + Unwritten(s), s.history.posted)
  {
    var received, messages, unwritten := s.history.received, s.queue.messages, Unwritten(s);
    assert received + messages + unwritten == received + messages[..n] + (messages[n..] + unwritten);
    LeaveOut(received, messages[..n], messages[n..] + unwritten, s.history.posted);
    assert received + (messages[n..] + unwritten) == received + messages[n..] + unwritten;
  }

  lemma ReceivedRead(c: Config, s: State, n: nat)
    requires ReceivedInOrder(s) && n <= |s.queue.messages|
    ensures ReceivedInOrder(Apply(c, s, Consume(n)))
  {
    UnwrittenUnread(c, s, Consume(n));
    var received, messages := s.history.received, s.queue.messages;
    assert received + messages[..n] + messages[n..] == received + messages;
  }

  lemma ReceivedInitialize(s: State, now: int, quantum: nat)
    requires ReceivedInOrder(s)
    ensures ReceivedInOrder(ApplyInitialize(s, now, quantum))
  {
    ReceivedDiscard(s);
    assert s.history.received + [] + [] == s.history.received;
  }

  lemma ReceivedStep(c: Config, s: State, step: Step)
    requires QueueSound(c, s) && ReceivedInOrder(s) && Enabled(c, s, step)
    ensures ReceivedInOrder(Apply(c, s, step))
  {
    hide QueueSound;
    hide Unwritten;
    hide IsSubseq;
    if LeavesEvents(step) {
      EventsUntouched(c, s, step);
    } else {
      match step {
        case FinishPost(accepted) => ReceivedPost(c, s, s.poster.events, accepted);
        case BlockingWrite(succeeds) => ReceivedWrite(c, s, succeeds);
        case FinishChunk => UnwrittenAfterFinish(c, s);
        case Consume(n) => ReceivedRead(c, s, n);
        case Drain(n) =>
          ReceivedDrain(s, n);
          UnwrittenUnread(c, s, step);
        case Initialize(now, quantum) => ReceivedInitialize(s, now, quantum);
      }
    }
  }

  /** From end to end: what the framework has read, followed by what waits in
      the message queue and what is still to be written, is an order-preserving
      subsequence of what was posted, across any number of stops, drained
      queues and re-initialisations. */
  lemma {:induction false} EventsAreReceivedInOrder(c: Config, states: seq<State>, steps: seq<Step>, k: nat)
    requires Run(c, states, steps) && k < |states|
    ensures ReceivedInOrder(states[k])
    ensures IsSubseq(states[k].history.received, states[k].history.posted)
  {
    if k == 0 {
      NothingReceivedYet(states[0]);
    } else {
      EventsAreReceivedInOrder(c, states, steps, k - 1);
      QueueSoundAlways(c, states, steps, k - 1);
      ReceivedStep(c, states[k - 1], steps[k - 1]);
    }
    ReceivedDiscard(states[k]);
  }

  lemma NothingReceivedYet(s: State)
    requires Initial(s)
    ensures ReceivedInOrder(s)
  {
    Empty<Event>();
    assert s.history.received + s.queue.messages + Unwritten(s) == [];
  }

  /** A step that takes nothing out of the message queue but by reading it. */
  predicate KeepsMessages(s: State, step: Step) {
    match step
    case Drain(n) => n == 0
    case Initialize(_, _) => s.queue.messages == []
    case _ => true
  }

  /** How many written events neither have been read nor can be. */
  function Missing(s: State): int {
    |s.history.written| - |s.history.received| - |s.queue.messages|
  }

  ghost predicate AllArrived(s: State) {
    s.history.received + s.queue.messages == s.history.written
  }

  lemma ArrivedStep(c: Config, s: State, step: Step)
    requires Enabled(c, s, step) && AllArrived(s) && KeepsMessages(s, step)
    ensures AllArrived(Apply(c, s, step))
  {
    var received, messages := s.history.received, s.queue.messages;
    match step {
      case FinishPost(accepted) =>
        var events := s.poster.events;
        var direct := events[..DirectlyWritten(s.queue, events, accepted)];
        assert received + (messages + direct) == (received + messages) + direct;
      case BlockingWrite(succeeds) =>
        if succeeds {
          var chunk := s.queue.pending[0].events[..s.writer.numToWrite];
          assert received + (messages + chunk) == (received + messages) + chunk;
        }
      case Consume(n) => assert received + messages[..n] + messages[n..] == received + messages;
      case Drain(n) => assert messages[0..] == messages;
      case _ =>
    }
  }

  lemma MissingStep(c: Config, s: State, step: Step)
    requires Enabled(c, s, step) && Missing(s) >= 0
    ensures Missing(Apply(c, s, step)) >= Missing(s)
    ensures !KeepsMessages(s, step) ==> Missing(Apply(c, s, step)) > Missing(s)
  {}

  /** What is written to a message queue arrives, and nothing else does: up to any
      point of any run, what the framework has read followed by what it can read
      is exactly what was written, in order, if and only if no stop has drained
      anything and no initialisation has replaced a message queue with unread
      events. */
  lemma {:induction false} WrittenArrivesExactly(c: Config, states: seq<State>, steps: seq<Step>, k: nat)
    requires Run(c, states, steps) && k < |states|
    ensures AllArrived(states[k]) <==> forall j :: 0 <= j < k ==> KeepsMessages(states[j], steps[j])
    ensures Missing(states[k]) >= 0 && (Missing(states[k]) == 0 <==> AllArrived(states[k]))
  {
    hide Apply;
    hide Enabled;
    hide KeepsMessages;
    if k == 0 {
      assert states[0].history.received + states[0].queue.messages == [];
    } else {
      var s, step := states[k - 1], steps[k - 1];
      WrittenArrivesExactly(c, states, steps, k - 1);
      assert states[k] == Apply(c, s, step);
      MissingStep(c, s, step);
      if AllArrived(s) && KeepsMessages(s, step) {
        ArrivedStep(c, s, step);
      }
    }
  }

  /** A step that loses no event: a post whose events fit what the message
      queue takes and the pending queue has left, a blocking write that does not
      fail with anything to write, a re-initialisation with nothing unwritten. */
  predicate Lossless(c: Config, s: State, step: Step) {
    match step
    case FinishPost(accepted) =>
      s.poster.Posting? ==>
        var n := DirectlyWritten(s.queue, s.poster.events, accepted);
        n == |s.poster.events| || s.queue.pendingSize + |s.poster.events| - n <= c.maxPending
    case BlockingWrite(succeeds) => succeeds || (s.writer.Writing? && s.writer.numToWrite == 0)
    case Initialize(_, _) => Unwritten(s) == []
    case _ => true
  }

  /** Events are lost in no other way: up to any point of any run, everything
      posted has been written or is still pending, in order, exactly when every
      step so far was lossless. */
  lemma NothingLostExactly(c: Config, states: seq<State>, steps: seq<Step>, k: nat)
    requires Run(c, states, steps) && k < |states|
    ensures states[k].history.written + Unwritten(states[k]) == states[k].history.posted <==>
            forall j :: 0 <= j < k ==> Lossless(c, states[j], steps[j])
  {
    EventsStayInOrder(c, states, steps, k);
    LostExactly(c, states, steps, k);
  }

  lemma {:induction false} LostExactly(c: Config, states: seq<State>, steps: seq<Step>, k: nat)
    requires Run(c, states, steps) && k < |states|
    ensures states[k].history.lost == 0 <==> forall j :: 0 <= j < k ==> Lossless(c, states[j], steps[j])
  {
    hide Apply;
    hide Enabled;
    hide Lossless;
    if k > 0 {
      LostExactly(c, states, steps, k - 1);
      LossIsCounted(c, states[k - 1], steps[k - 1]);
      assert states[k] == Apply(c, states[k - 1], steps[k - 1]);
    }
  }

  lemma LossIsCounted(c: Config, s: State, step: Step)
    requires Enabled(c, s, step)
    ensures var lost := Apply(c, s, step).history.lost;
            lost >= s.history.lost && (lost == s.history.lost <==> Lossless(c, s, step))
  {}

  // ------------------------------------------------------------ wake-up counts

  /** Every pending batch is the end of one post, and carries the number of
      wake-up events of the whole post. */
  ghost predicate BatchOf(c: Config, b: Batch, origin: seq<Event>) {
    IsSuffix(b.events, origin) && b.wakeCount == CountWakeups(c.wake, origin)
  }

  ghost predicate BatchesTraced(c: Config, s: State) {
    && |s.history.origins| == |s.queue.pending|
    && forall k :: 0 <= k < |s.queue.pending| ==> BatchOf(c, s.queue.pending[k], s.history.origins[k])
  }

  lemma BatchesTracedPost(c: Config, s: State, events: seq<Event>, accepted: bool)
    requires BatchesTraced(c, s)
    ensures BatchesTraced(c, ApplyFinishPost(c, s, events, accepted))
  {
    var n := DirectlyWritten(s.queue, events, accepted);
    assert BatchOf(c, Batch(events[n..], CountWakeups(c.wake, events)), events);
  }

  lemma BatchesTracedFinish(c: Config, s: State)
    requires QueueSound(c, s) && BatchesTraced(c, s) && s.writer.WriteDone? && ChunkAtFront(s)
    ensures BatchesTraced(c, ApplyFinish(s))
  {
    var front, origin, quantum := s.queue.pending[0], s.history.origins[0], s.queue.quantum;
    var after := ApplyFinish(s);
    assert BatchOf(c, front, origin);
    if |front.events| > quantum {
      SuffixShrinks(front.events, origin, quantum);
      forall k | 0 <= k < |after.queue.pending|
        ensures BatchOf(c, after.queue.pending[k], after.history.origins[k])
      {
        assert k > 0 ==> BatchOf(c, s.queue.pending[k], s.history.origins[k]);
      }
    } else {
      forall k | 0 <= k < |after.queue.pending|
        ensures BatchOf(c, after.queue.pending[k], after.history.origins[k])
      {
        assert BatchOf(c, s.queue.pending[k + 1], s.history.origins[k + 1]);
      }
    }
  }

  lemma SuffixShrinks<T>(a: seq<T>, b: seq<T>, n: nat)
    requires IsSuffix(a, b) && n <= |a|
    ensures IsSuffix(a[n..], b)
  {
    assert b[|b| - |a| + n..] == a[n..];
  }

  lemma BatchesTracedStep(c: Config, s: State, step: Step)
    requires QueueSound(c, s) && BatchesTraced(c, s) && Enabled(c, s, step)
    ensures BatchesTraced(c, Apply(c, s, step))
  {
    match step {
      case FinishPost(accepted) => BatchesTracedPost(c, s, s.poster.events, accepted);
      case FinishChunk => BatchesTracedFinish(c, s);
      case _ =>
    }
  }

  lemma {:induction false} BatchesTracedAlways(c: Config, states: seq<State>, steps: seq<Step>, k: nat)
    requires Run(c, states, steps) && k < |states|
    ensures BatchesTraced(c, states[k])
  {
    if k > 0 {
      BatchesTracedAlways(c, states, steps, k - 1);
      QueueSoundAlways(c, states, steps, k - 1);
      BatchesTracedStep(c, states[k - 1], steps[k - 1]);
    }
  }

  /** In every reachable state, the wake-up events still in a pending batch are
      at most its recorded wake-up count, and equal to it in a batch that is a
      whole post. */
  lemma WakeCountCoversBatch(c: Config, states: seq<State>, steps: seq<Step>, k: nat, b: nat)
    requires Run(c, states, steps) && k < |states| && b < |states[k].queue.pending|
    ensures b < |states[k].history.origins|
    ensures var batch := states[k].queue.pending[b];
            && CountWakeups(c.wake, batch.events) <= batch.wakeCount
            && (batch.events == states[k].history.origins[b] ==> CountWakeups(c.wake, batch.events) == batch.wakeCount)
  {
    BatchesTracedAlways(c, states, steps, k);
    var batch, origin := states[k].queue.pending[b], states[k].history.origins[b];
    assert BatchOf(c, batch, origin);
    CountWakeupsSplit(c.wake, origin, |origin| - |batch.events|);
  }

  /** In every reachable state whose writer has just failed: what it is about to
      retire covers the wake-up events it drops. It is exactly their number for
      a chunk off the front of an over-long batch; for the last chunk of a batch
      it exceeds it by the wake-up events of the same post that left earlier,
      which is nothing if the batch was never split. */
  lemma RetirementCoversDropped(c: Config, states: seq<State>, steps: seq<Step>, k: nat)
    requires Run(c, states, steps) && k < |states| && states[k].writer.WriteFailed?
    ensures var s := states[k];
            && s.queue.pending != [] && s.history.origins != [] && ChunkAtFront(s)
            && var front, origin := s.queue.pending[0], s.history.origins[0];
            && s.writer.numToWrite <= |front.events| <= |origin|
            && var dropped := CountWakeups(c.wake, front.events[..s.writer.numToWrite]);
               var gone := CountWakeups(c.wake, origin[..|origin| - |front.events|]);
            && RetirementOf(c, s) == dropped + (if |front.events| > s.queue.quantum then 0 else gone)
            && (front.events == origin ==> RetirementOf(c, s) == dropped)
  {
    QueueSoundAlways(c, states, steps, k);
    BatchesTracedAlways(c, states, steps, k);
    var s := states[k];
    var front, origin := s.queue.pending[0], s.history.origins[0];
    assert BatchOf(c, front, origin);
    var cut := |origin| - |front.events|;
    CountWakeupsSplit(c.wake, origin, cut);
    CountWakeupsSplit(c.wake, front.events, s.writer.numToWrite);
    if |front.events| <= s.queue.quantum {
      assert front.events[..s.writer.numToWrite] == front.events;
    }
    if front.events == origin {
      assert origin[..cut] == [];
    }
  }

  // ------------------------------------------------------------------ draining

  /** How many iterations the writer completes in the first k steps. */
  function Iterations(steps: seq<Step>, k: nat): nat
    requires k <= |steps|
  {
    if k == 0 then 0 else Iterations(steps, k - 1) + (if steps[k - 1].FinishChunk? then 1 else 0)
  }

  predicate Quiet(step: Step) {
    !step.FinishPost? && !step.Initialize?
  }

  lemma QuietStepDrains(c: Config, s: State, step: Step)
    requires QueueSound(c, s) && s.queue.quantum > 0 && Enabled(c, s, step) && Quiet(step)
    ensures var after := Apply(c, s, step).queue;
            && after.quantum == s.queue.quantum
            && Chunks(s.queue.pending, s.queue.quantum) ==
               (if step.FinishChunk? then 1 else 0) + Chunks(after.pending, s.queue.quantum)
  {
    if step.FinishChunk? {
      RemovalTakesOneChunk(s.queue, c.maxPending);
    } else {
      assert Apply(c, s, step).queue.pending == s.queue.pending;
    }
  }

  /** However the writer is interleaved with everybody else, and whether its
      writes succeed or fail: as long as nothing new is posted, every completed
      iteration takes one chunk off what is left, so draining the queue takes
      exactly as many iterations as there were chunks. */
  lemma {:induction false} DrainingConserves(c: Config, states: seq<State>, steps: seq<Step>, k: nat)
    requires Path(c, states, steps) && k < |states|
    requires QueueSound(c, states[0]) && states[0].queue.quantum > 0
    requires forall j :: 0 <= j < k ==> Quiet(steps[j])
    ensures var first, now := states[0].queue, states[k].queue;
            && QueueSound(c, states[k])
            && now.quantum == first.quantum
            && Iterations(steps, k) + Chunks(now.pending, first.quantum) == Chunks(first.pending, first.quantum)
            && (now.pending == [] ==> Iterations(steps, k) == Chunks(first.pending, first.quantum))
  {
    if k > 0 {
      DrainingConserves(c, states, steps, k - 1);
      QueueSoundStep(c, states[k - 1], steps[k - 1]);
      QuietStepDrains(c, states[k - 1], steps[k - 1]);
    }
  }
}
