/** The proxy as a machine of three kinds of threads: any number of posters,
    one thread that writes pending events, one that watches the wakelock. A step
    is what one thread does between taking a mutex and giving it back, or, where
    it takes the wakelock's mutex inside the queue's, up to giving back the inner
    one. */
module ProxyMachine {
  import opened EventProcessing
  import opened EventQueues
  import opened Handles
  import opened Wakelocks
  import opened Wrappers

  datatype Config = Config(
    maxPending: nat,           // kMaxSizePendingWriteEventsQueue
    timeout: nat,              // kWakelockTimeoutNs
    wake: set<Handle>)         // the handles of wake-up sensors

  /** The poster that holds the queue mutex, if there is one: its references are
      counted, and its events are not queued yet. */
  datatype Poster = NobodyPosts | Posting(events: seq<Event>, wakelock: Option<int>)

  /** The thread of handlePendingWrites, and the locals it keeps while the
      mutex is free. */
  datatype Writer =
    | WriterStopped
    | WriterWaiting
    | Writing(numToWrite: nat, eventQueueSize: nat, numWakeupEvents: nat)
    | WriteFailed(numToWrite: nat, eventQueueSize: nat, numWakeupEvents: nat)
    | WriteDone(numToWrite: nat, eventQueueSize: nat)
  {
    predicate HoldsChunk() {
      Writing? || WriteFailed? || WriteDone?
    }
  }

  /** The thread of handleWakelocks. */
  datatype Keeper = KeeperStopped | KeeperWaiting | Reading(timeLeft: int)

  /** What happened so far; the proxy itself does not keep any of it. */
  datatype History = History(
    posted: seq<Event>,        // every event ever posted
    written: seq<Event>,       // every event ever written to a message queue
    received: seq<Event>,      // every event ever read by the framework
    lost: nat,                 // events dropped by an overflow, a failed write or a re-initialisation
    origins: seq<seq<Event>>,  // for each pending batch, the post it comes from
    tokens: set<int>,          // time stamps of the scoped wakelocks that are alive
    eventRefs: nat,            // references owed to events since the last reset
    clock: int)                // the latest time anybody has read

  datatype State = State(
    running: bool,
    queue: Queue,
    lock: Wakelock,
    poster: Poster,
    writer: Writer,
    keeper: Keeper,
    history: History)

  datatype Step =
    | CreateToken(now: int)
    | BeginPost(events: seq<Event>, wakelock: Option<int>, now: int)
    | FinishPost(accepted: bool)
    | ReleaseToken(token: int)
    | TakeChunk
    | BlockingWrite(succeeds: bool)
    | RetireChunk
    | FinishChunk
    | KeeperWakes(now: int, later: int)
    | KeeperReads(ack: Option<nat>)
    | Consume(n: nat)
    | StopThreads
    | Drain(n: nat)
    | WriterExits
    | KeeperExits(now: int)
    | Initialize(now: int, quantum: nat)

  /** Subtraction that stops at zero. */
  function Monus(a: nat, b: nat): nat {
    if b < a then a - b else 0
  }

  predicate Initial(s: State) {
    && s.queue == Queue([], s.queue.quantum, [], 0, 0)
    && s.lock == Wakelock(0, s.lock.timeoutStart, s.lock.timeoutReset, false)
    && s.lock.timeoutStart <= s.history.clock && s.lock.timeoutReset <= s.history.clock
    && s.poster == NobodyPosts && s.writer == WriterStopped && s.keeper == KeeperStopped
    && s.history == History([], [], [], 0, [], {}, 0, s.history.clock) && s.history.clock >= 0
  }

  /** What the writer relies on while it holds a chunk but not the mutex: the
      chunk is still at the front, and counted. */
  predicate ChunkAtFront(s: State)
    requires s.writer.HoldsChunk()
  {
    && s.queue.pending != []
    && s.writer.numToWrite <= |s.queue.pending[0].events|
    && s.writer.numToWrite <= s.queue.pendingSize
    && s.history.origins != []
  }

  predicate Enabled(c: Config, s: State, step: Step) {
    match step
    case CreateToken(now) => s.history.clock < now
    case BeginPost(_, token, now) =>
      s.poster.NobodyPosts? && s.history.clock < now && (token.Some? ==> token.value in s.history.tokens)
    case FinishPost(_) => s.poster.Posting?
    case ReleaseToken(t) => t in s.history.tokens && !(s.poster.Posting? && s.poster.wakelock == Some(t))
    case TakeChunk => s.running && s.writer.WriterWaiting? && s.poster.NobodyPosts? && s.queue.pending != []
    case BlockingWrite(succeeds) =>
      s.writer.Writing? && ChunkAtFront(s) && (succeeds ==> s.writer.numToWrite <= AvailableToWrite(s.queue))
    case RetireChunk => s.writer.WriteFailed? && ChunkAtFront(s)
    case FinishChunk => s.writer.WriteDone? && s.poster.NobodyPosts? && ChunkAtFront(s)
    case KeeperWakes(now, later) =>
      s.running && s.keeper.KeeperWaiting? && s.lock.refCount > 0 && s.history.clock < now < later
    case KeeperReads(_) => s.keeper.Reading?
    case Consume(n) => n <= |s.queue.messages|
    case StopThreads => true
    case Drain(n) => !s.running && n <= |s.queue.messages|
    case WriterExits => !s.running && s.writer.WriterWaiting?
    case KeeperExits(now) => !s.running && s.keeper.KeeperWaiting? && s.history.clock < now
    case Initialize(now, _) =>
      !s.running && s.poster.NobodyPosts? && s.writer.WriterStopped? && s.keeper.KeeperStopped? &&
      s.history.clock < now
  }

  /** The pending events that no write has been tried for. */
  function Unwritten(s: State): seq<Event> {
    var pending := Flatten(s.queue.pending);
    if (s.writer.WriteFailed? || s.writer.WriteDone?) && s.writer.numToWrite <= |pending|
    then pending[s.writer.numToWrite..]
    else pending
  }

  // The steps that do more than move one thread.

  function ApplyCreateToken(s: State, now: int): State {
    if !s.running then s.(history := s.history.(clock := now))
    else s.(lock := Increment(s.lock, true, 1, now),
            history := s.history.(tokens := s.history.tokens + {now}, clock := now))
  }

  /** A poster takes the queue mutex, and the references of its wake-up events. */
  function ApplyBeginPost(c: Config, s: State, events: seq<Event>, wakelock: Option<int>, now: int): State {
    var wakeCount := CountWakeups(c.wake, events);
    var h := s.history;
    s.(lock := if wakelock.Some? then Increment(s.lock, s.running, wakeCount, now) else s.lock,
       poster := Posting(events, wakelock),
       history := h.(eventRefs := if wakelock.Some? && s.running then h.eventRefs + wakeCount else h.eventRefs,
                     clock := now))
  }

  /** It writes or queues its events, and gives the queue mutex back. */
  function ApplyFinishPost(c: Config, s: State, events: seq<Event>, accepted: bool): State {
    var n := DirectlyWritten(s.queue, events, accepted);
    var queued := Queued(s.queue, c.maxPending, events, n);
    var h := s.history;
    s.(queue := Post(s.queue, c.maxPending, events, CountWakeups(c.wake, events), accepted),
       poster := NobodyPosts,
       history := h.(posted := h.posted + events,
                     written := h.written + events[..n],
                     lost := if queued then h.lost else h.lost + (|events| - n),
                     origins := if queued then h.origins + [events] else h.origins))
  }

  function ApplyReleaseToken(s: State, token: int): State {
    s.(lock := Decrement(s.lock, s.running, 1, token),
       history := s.history.(tokens := s.history.tokens - {token}))
  }

  /** An acknowledgement or a retirement of n event references. */
  function GiveBack(s: State, n: nat): State {
    s.(lock := Decrement(s.lock, s.running, n, NO_TIMESTAMP),
       history := s.history.(eventRefs := if s.running then Monus(s.history.eventRefs, n) else s.history.eventRefs))
  }

  function ApplyReset(s: State, now: int): State {
    s.(lock := Reset(s.lock, s.running, now), history := s.history.(eventRefs := 0, clock := now))
  }

  function ApplyBlockingWrite(s: State, succeeds: bool): State
    requires s.writer.Writing? && ChunkAtFront(s)
  {
    var w, h := s.writer, s.history;
    if !succeeds then s.(writer := WriteFailed(w.numToWrite, w.eventQueueSize, w.numWakeupEvents),
            history := h.(lost := h.lost + w.numToWrite))
    else
      var chunk := s.queue.pending[0].events[..w.numToWrite];
      s.(queue := s.queue.(messages := s.queue.messages + chunk),
         writer := WriteDone(w.numToWrite, w.eventQueueSize),
         history := h.(written := h.written + chunk))
  }

  function RetirementOf(c: Config, s: State): nat
    requires s.writer.WriteFailed? && ChunkAtFront(s)
  {
    RetiredRefs(c.wake, Batch(s.queue.pending[0].events, s.writer.numWakeupEvents), s.writer.eventQueueSize)
  }

  function ApplyFinish(s: State): State
    requires s.writer.WriteDone? && ChunkAtFront(s)
  {
    var w, h := s.writer, s.history;
    s.(queue := RemoveChunk(s.queue, w.numToWrite, w.eventQueueSize),
       writer := WriterWaiting,
       history := if |s.queue.pending[0].events| > w.eventQueueSize then h else h.(origins := h.origins[1..]))
  }

  function ApplyInitialize(s: State, now: int, quantum: nat): State {
    var reset := ApplyReset(s, now);
    State(true, Queue([], quantum, [], 0, s.queue.mostPending), reset.lock, s.poster, WriterWaiting, KeeperWaiting,
          reset.history.(lost := s.history.lost + |Unwritten(s)|, origins := []))
  }

  function Apply(c: Config, s: State, step: Step): State
    requires Enabled(c, s, step)
  {
    match step
    case CreateToken(now) => ApplyCreateToken(s, now)
    case BeginPost(events, token, now) => ApplyBeginPost(c, s, events, token, now)
    case FinishPost(accepted) => ApplyFinishPost(c, s, s.poster.events, accepted)
    case ReleaseToken(t) => ApplyReleaseToken(s, t)
    case TakeChunk =>
      s.(writer := Writing(ChunkLength(s.queue), s.queue.quantum, s.queue.pending[0].wakeCount))
    case BlockingWrite(succeeds) => ApplyBlockingWrite(s, succeeds)
    case RetireChunk =>
      GiveBack(s, RetirementOf(c, s)).(writer := WriteDone(s.writer.numToWrite, s.writer.eventQueueSize))
    case FinishChunk => ApplyFinish(s)
    case KeeperWakes(now, later) =>
      (match TimeLeft(s.lock, c.timeout, now)
       case None => ApplyReset(s, later)
       case Some(t) => s.(keeper := Reading(t), history := s.history.(clock := now)))
    case KeeperReads(ack) =>
      (if ack.Some? then GiveBack(s, ack.value) else s).(keeper := KeeperWaiting)
    case Consume(n) =>
      s.(queue := s.queue.(messages := s.queue.messages[n..]),
         history := s.history.(received := s.history.received + s.queue.messages[..n]))
    case StopThreads => s.(running := false)
    case Drain(n) => s.(queue := s.queue.(messages := s.queue.messages[n..]))
    case WriterExits => s.(writer := WriterStopped)
    case KeeperExits(now) => ApplyReset(s, now).(keeper := KeeperStopped)
    case Initialize(now, quantum) => ApplyInitialize(s, now, quantum)
  }

  // ---------------------------------------------------------------------- runs

  ghost predicate Path(c: Config, states: seq<State>, steps: seq<Step>) {
    && |states| == |steps| + 1
    && forall k :: 0 <= k < |steps| ==>
         Enabled(c, states[k], steps[k]) && states[k + 1] == Apply(c, states[k], steps[k])
  }

  ghost predicate Run(c: Config, states: seq<State>, steps: seq<Step>) {
    Path(c, states, steps) && Initial(states[0])
  }
}
