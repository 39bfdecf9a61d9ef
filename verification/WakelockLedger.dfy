/** Where the references of the shared wakelock are: an account of every
    reference taken for an event, from its post to its acknowledgement. */
module WakelockLedger {
  import opened EventProcessing
  import opened EventQueues
  import opened Handles
  import opened ProxyMachine
  import opened QueueRuns
  import opened WakelockRuns
  import opened Wakelocks

  /** The account since the last reset. */
  datatype Ledger = Ledger(
    due: nat,               // wake-up events written under a reference and not acknowledged yet
    stranded: nat,          // references of events that were dropped without giving them back
    counted: seq<bool>,     // for each pending batch, whether its wake-up events hold references
    carried: bool)          // whether those of the post that is being made do

  function Forgotten(n: nat): seq<bool> {
    seq(n, _ => false)
  }

  /** References held by the wake-up events of the counted batches. */
  function Held(wake: set<Handle>, batches: seq<Batch>, counted: seq<bool>): nat
    requires |batches| == |counted|
  {
    if batches == [] then 0
    else (if counted[0] then CountWakeups(wake, batches[0].events) else 0) + Held(wake, batches[1..], counted[1..])
  }

  /** The writer has tried to write its chunk and has not removed it yet. */
  predicate Tried(s: State) {
    s.writer.WriteFailed? || s.writer.WriteDone?
  }

  /** The batches without the first n events of the front one. */
  function Cut(batches: seq<Batch>, n: nat): (cut: seq<Batch>)
    requires batches != [] && n <= |batches[0].events|
    ensures |cut| == |batches|
  {
    [batches[0].(events := batches[0].events[n..])] + batches[1..]
  }

  /** The pending batches without a chunk whose write has been tried. */
  function Remaining(s: State): seq<Batch> {
    if Tried(s) && ChunkAtFront(s) then Cut(s.queue.pending, s.writer.numToWrite) else s.queue.pending
  }

  /** The references held by the wake-up events of the chunk at the front. */
  function ChunkRefs(c: Config, s: State, l: Ledger): nat
    requires s.writer.HoldsChunk() && ChunkAtFront(s) && l.counted != []
  {
    if l.counted[0] then CountWakeups(c.wake, s.queue.pending[0].events[..s.writer.numToWrite]) else 0
  }

  /** References of a chunk that failed and has not been retired yet. */
  function Failing(c: Config, s: State, l: Ledger): nat
    requires l.counted != [] || s.queue.pending == []
  {
    if s.writer.WriteFailed? && ChunkAtFront(s) then ChunkRefs(c, s, l) else 0
  }

  /** References of the events that a poster has not queued yet. */
  function Carried(c: Config, s: State, l: Ledger): nat {
    if s.poster.Posting? && l.carried then CountWakeups(c.wake, s.poster.events) else 0
  }

  function Total(c: Config, s: State, l: Ledger): nat
    requires |l.counted| == |s.queue.pending|
  {
    l.due + l.stranded + Held(c.wake, Remaining(s), l.counted) + Failing(c, s, l) + Carried(c, s, l)
  }

  function BookPost(c: Config, s: State, events: seq<Event>, accepted: bool, l: Ledger): Ledger {
    var n := DirectlyWritten(s.queue, events, accepted);
    var queued := Queued(s.queue, c.maxPending, events, n);
    Ledger(if l.carried then l.due + CountWakeups(c.wake, events[..n]) else l.due,
           if l.carried && !queued then l.stranded + CountWakeups(c.wake, events[n..]) else l.stranded,
           if queued then l.counted + [l.carried] else l.counted,
           false)
  }

  function BookReset(l: Ledger): Ledger {
    Ledger(0, 0, Forgotten(|l.counted|), false)
  }

  function Book(c: Config, s: State, step: Step, l: Ledger): (l': Ledger)
    requires Enabled(c, s, step) && |l.counted| == |s.queue.pending|
    ensures |l'.counted| == |Apply(c, s, step).queue.pending|
  {
    match step
    case BeginPost(_, token, _) => l.(carried := token.Some? && s.running)
    case FinishPost(accepted) => BookPost(c, s, s.poster.events, accepted, l)
    case BlockingWrite(succeeds) => if succeeds then l.(due := l.due + ChunkRefs(c, s, l)) else l
    case RetireChunk => if s.running then l else l.(stranded := l.stranded + ChunkRefs(c, s, l))
    case FinishChunk =>
      if |s.queue.pending[0].events| > s.writer.eventQueueSize then l else l.(counted := l.counted[1..])
    case KeeperWakes(now, _) => if TimeLeft(s.lock, c.timeout, now).None? then BookReset(l) else l
    case KeeperReads(ack) => if ack.Some? && s.running then l.(due := Monus(l.due, ack.value)) else l
    case KeeperExits(_) => BookReset(l)
    case Initialize(_, _) => Ledger(0, 0, [], false)
    case _ => l
  }

  /** The framework acknowledges no more wake-up events than it was given, and a
      failed write retires what its chunk holds. */
  predicate Careful(c: Config, s: State, step: Step, l: Ledger)
    requires Enabled(c, s, step) && |l.counted| == |s.queue.pending|
  {
    match step
    case KeeperReads(ack) => s.running && ack.Some? ==> ack.value <= l.due
    case RetireChunk => s.running ==> RetirementOf(c, s) == ChunkRefs(c, s, l)
    case _ => true
  }

  /** Every reference owed to an event is accounted for. */
  ghost predicate Balanced(c: Config, s: State, l: Ledger) {
    && |l.counted| == |s.queue.pending|
    && s.history.eventRefs == Total(c, s, l)
  }

  // ------------------------------------------------------------ the sums

  lemma {:induction false} HeldPush(wake: set<Handle>, batches: seq<Batch>, counted: seq<bool>, b: Batch, refs: bool)
    requires |batches| == |counted|
    ensures Held(wake, batches + [b], counted + [refs]) ==
            Held(wake, batches, counted) + (if refs then CountWakeups(wake, b.events) else 0)
  {
    if batches == [] {
      assert (batches + [b])[1..] == [] && (counted + [refs])[1..] == [];
    } else {
      HeldPush(wake, batches[1..], counted[1..], b, refs);
      assert (batches + [b])[1..] == batches[1..] + [b];
      assert (counted + [refs])[1..] == counted[1..] + [refs];
    }
  }

  lemma {:induction false} HeldForgotten(wake: set<Handle>, batches: seq<Batch>)
    ensures Held(wake, batches, Forgotten(|batches|)) == 0
  {
    if batches != [] {
      HeldForgotten(wake, batches[1..]);
      assert Forgotten(|batches|)[1..] == Forgotten(|batches[1..]|);
    }
  }

  /** Taking a chunk off the front batch takes its references off the sum. */
  lemma HeldSplits(wake: set<Handle>, batches: seq<Batch>, counted: seq<bool>, n: nat)
    requires |batches| == |counted| && batches != [] && n <= |batches[0].events|
    ensures Held(wake, batches, counted) ==
            Held(wake, Cut(batches, n), counted) +
            (if counted[0] then CountWakeups(wake, batches[0].events[..n]) else 0)
  {
    assert Cut(batches, n)[1..] == batches[1..];
    CountWakeupsSplit(wake, batches[0].events, n);
  }

  // ------------------------------------------------------------ the steps

  lemma FailingDuringPost(c: Config, s: State, accepted: bool, l: Ledger)
    requires QueueSound(c, s) && |l.counted| == |s.queue.pending| && s.poster.Posting?
    ensures var events := s.poster.events;
            var after, book := ApplyFinishPost(c, s, events, accepted), BookPost(c, s, events, accepted, l);
            && |book.counted| == |after.queue.pending|
            && Failing(c, after, book) == Failing(c, s, l)
  {
    if s.writer.WriteFailed? {
      ChunkIsAtFront(c, s);
    }
    hide CountWakeups;
    hide Accounted;
    hide Flatten;
    var events := s.poster.events;
    var after, book := ApplyFinishPost(c, s, events, accepted), BookPost(c, s, events, accepted, l);
    if s.writer.WriteFailed? {
      assert book.counted[0] == l.counted[0] && after.queue.pending[0] == s.queue.pending[0];
    }
  }

  lemma HeldAfterPost(c: Config, s: State, accepted: bool, l: Ledger)
    requires QueueSound(c, s) && |l.counted| == |s.queue.pending| && s.poster.Posting?
    ensures var events := s.poster.events;
            var n := DirectlyWritten(s.queue, events, accepted);
            var after, book := ApplyFinishPost(c, s, events, accepted), BookPost(c, s, events, accepted, l);
            && |book.counted| == |Remaining(after)|
            && Held(c.wake, Remaining(after), book.counted) ==
               Held(c.wake, Remaining(s), l.counted) +
               (if Queued(s.queue, c.maxPending, events, n) && l.carried then CountWakeups(c.wake, events[n..]) else 0)
  {
    var events := s.poster.events;
    var n := DirectlyWritten(s.queue, events, accepted);
    PostBehindRemaining(c, s, events, accepted);
    HeldPush(c.wake, Remaining(s), l.counted, Batch(events[n..], CountWakeups(c.wake, events)), l.carried);
    hide CountWakeups;
    hide Held;
    hide Remaining;
  }

  lemma BalancedPost(c: Config, s: State, accepted: bool, l: Ledger)
    requires QueueSound(c, s) && Balanced(c, s, l) && s.poster.Posting?
    ensures Balanced(c, ApplyFinishPost(c, s, s.poster.events, accepted), BookPost(c, s, s.poster.events, accepted, l))
  {
    CountWakeupsSplit(c.wake, s.poster.events, DirectlyWritten(s.queue, s.poster.events, accepted));
    FailingDuringPost(c, s, accepted, l);
    HeldAfterPost(c, s, accepted, l);
    hide QueueSound;
    hide CountWakeups;
    hide Held;
    hide Remaining;
    hide Failing;
    hide Post;
  }

  lemma BalancedBegin(c: Config, s: State, step: Step, l: Ledger)
    requires Balanced(c, s, l) && Enabled(c, s, step) && step.BeginPost?
    ensures Balanced(c, Apply(c, s, step), Book(c, s, step, l))
  {
    hide CountWakeups;
    hide Held;
    hide Cut;
    assert Remaining(Apply(c, s, step)) == Remaining(s);
  }

  lemma PostBehindRemaining(c: Config, s: State, events: seq<Event>, accepted: bool)
    requires QueueSound(c, s)
    ensures var n := DirectlyWritten(s.queue, events, accepted);
            var b := Batch(events[n..], CountWakeups(c.wake, events));
            Remaining(ApplyFinishPost(c, s, events, accepted)) ==
            if Queued(s.queue, c.maxPending, events, n) then Remaining(s) + [b] else Remaining(s)
  {
    if Tried(s) {
      ChunkIsAtFront(c, s);
    }
    hide CountWakeups;
    hide Accounted;
    hide Flatten;
    var after := ApplyFinishPost(c, s, events, accepted);
    if Tried(s) {
      PendingBehind(s.queue.pending, after.queue.pending, s.writer.numToWrite);
      assert ChunkAtFront(after);
    }
  }

  /** What is pushed behind a front batch is behind it still when a chunk is cut off. */
  lemma PendingBehind(before: seq<Batch>, after: seq<Batch>, n: nat)
    requires before != [] && before <= after && n <= |before[0].events|
    ensures Cut(after, n) == Cut(before, n) + after[|before|..]
  {}

  lemma BalancedWrite(c: Config, s: State, succeeds: bool, l: Ledger)
    requires QueueSound(c, s) && Balanced(c, s, l) && Enabled(c, s, BlockingWrite(succeeds))
    ensures Balanced(c, ApplyBlockingWrite(s, succeeds), Book(c, s, BlockingWrite(succeeds), l))
  {
    HeldSplits(c.wake, s.queue.pending, l.counted, s.writer.numToWrite);
  }

  lemma BalancedFinish(c: Config, s: State, l: Ledger)
    requires QueueSound(c, s) && Balanced(c, s, l) && Enabled(c, s, FinishChunk)
    ensures Balanced(c, ApplyFinish(s), Book(c, s, FinishChunk, l))
  {
    var front, after := s.queue.pending[0], ApplyFinish(s);
    if |front.events| > s.writer.eventQueueSize {
      assert Remaining(after) == Remaining(s);
    } else {
      assert front.events[s.writer.numToWrite..] == [];
      assert Remaining(s)[1..] == s.queue.pending[1..];
    }
  }

  lemma BalancedReset(c: Config, s: State, now: int, l: Ledger)
    requires Balanced(c, s, l)
    ensures Balanced(c, ApplyReset(s, now), BookReset(l))
  {
    HeldForgotten(c.wake, Remaining(s));
    hide CountWakeups;
    hide Held;
    hide Cut;
    assert Remaining(ApplyReset(s, now)) == Remaining(s);
  }

  lemma BalancedGiveBack(c: Config, s: State, step: Step, l: Ledger)
    requires Balanced(c, s, l) && Enabled(c, s, step) && Careful(c, s, step, l)
    requires step.KeeperReads? || step.RetireChunk?
    ensures Balanced(c, Apply(c, s, step), Book(c, s, step, l))
  {
    hide CountWakeups;
    hide Held;
    hide Cut;
    assert Remaining(Apply(c, s, step)) == Remaining(s);
  }

  lemma BalancedKeeper(c: Config, s: State, step: Step, l: Ledger)
    requires Balanced(c, s, l) && Enabled(c, s, step) && (step.KeeperWakes? || step.KeeperExits?)
    ensures Balanced(c, Apply(c, s, step), Book(c, s, step, l))
  {
    BalancedReset(c, s, if step.KeeperWakes? then step.later else step.now, l);
    hide CountWakeups;
    hide Held;
    hide Cut;
    assert Remaining(Apply(c, s, step)) == Remaining(s);
  }

  lemma BalancedInitialize(c: Config, s: State, step: Step, l: Ledger)
    requires Balanced(c, s, l) && Enabled(c, s, step) && step.Initialize?
    ensures Balanced(c, Apply(c, s, step), Book(c, s, step, l))
  {}

  /** The steps that move no reference of an event. */
  predicate LeavesBooks(step: Step) {
    || step.CreateToken? || step.ReleaseToken? || step.TakeChunk? || step.Consume? || step.StopThreads?
    || step.Drain? || step.WriterExits?
  }

  /** The books depend on nothing else. */
  lemma SameBooks(c: Config, s: State, s': State, l: Ledger)
    requires Balanced(c, s, l)
    requires s'.queue == s.queue.(messages := s'.queue.messages) && s'.history.origins == s.history.origins
    requires s'.poster == s.poster && s'.history.eventRefs == s.history.eventRefs
    requires s'.writer == s.writer || (!Tried(s) && !Tried(s'))
    ensures Balanced(c, s', l)
  {
    hide CountWakeups;
    hide Held;
    hide Cut;
    assert Tried(s) ==> ChunkAtFront(s') == ChunkAtFront(s);
    assert Remaining(s') == Remaining(s) && Failing(c, s', l) == Failing(c, s, l);
  }

  lemma BalancedOtherwise(c: Config, s: State, step: Step, l: Ledger)
    requires Balanced(c, s, l) && Enabled(c, s, step) && LeavesBooks(step)
    ensures Balanced(c, Apply(c, s, step), Book(c, s, step, l))
  {
    SameBooks(c, s, Apply(c, s, step), l);
    hide Balanced;
  }

  lemma BalancedStep(c: Config, s: State, step: Step, l: Ledger)
    requires QueueSound(c, s) && Balanced(c, s, l) && Enabled(c, s, step) && Careful(c, s, step, l)
    ensures Balanced(c, Apply(c, s, step), Book(c, s, step, l))
  {
    hide QueueSound;
    hide Balanced;
    if LeavesBooks(step) {
      BalancedOtherwise(c, s, step, l);
    } else {
      match step {
        case BeginPost(_, _, _) => BalancedBegin(c, s, step, l);
        case FinishPost(accepted) => BalancedPost(c, s, accepted, l);
        case BlockingWrite(succeeds) => BalancedWrite(c, s, succeeds, l);
        case RetireChunk => BalancedGiveBack(c, s, step, l);
        case KeeperReads(_) => BalancedGiveBack(c, s, step, l);
        case FinishChunk => BalancedFinish(c, s, l);
        case KeeperWakes(_, _) => BalancedKeeper(c, s, step, l);
        case KeeperExits(_) => BalancedKeeper(c, s, step, l);
        case Initialize(_, _) => BalancedInitialize(c, s, step, l);
      }
    }
  }

  /** What a careful step gives back is owed. */
  lemma CarefulIsHonest(c: Config, s: State, step: Step, l: Ledger)
    requires Balanced(c, s, l) && Enabled(c, s, step) && Careful(c, s, step, l)
    ensures Honest(c, s, step)
  {}

  // ------------------------------------------------------------------ whole runs

  /** The account after the first k steps. */
  function Books(c: Config, states: seq<State>, steps: seq<Step>, k: nat): (l: Ledger)
    requires Run(c, states, steps) && k < |states|
    ensures |l.counted| == |states[k].queue.pending|
  {
    if k == 0 then Ledger(0, 0, [], false) else Book(c, states[k - 1], steps[k - 1], Books(c, states, steps, k - 1))
  }

  ghost predicate CarefulRun(c: Config, states: seq<State>, steps: seq<Step>, k: nat)
    requires Run(c, states, steps) && k < |states|
  {
    forall j :: 0 <= j < k ==> Lawful(c, steps[j]) && Careful(c, states[j], steps[j], Books(c, states, steps, j))
  }

  lemma {:induction false} BooksBalance(c: Config, states: seq<State>, steps: seq<Step>, k: nat)
    requires Run(c, states, steps) && k < |states| && CarefulRun(c, states, steps, k)
    ensures Balanced(c, states[k], Books(c, states, steps, k))
    ensures forall j :: 0 <= j < k ==> Honest(c, states[j], steps[j])
  {
    if k > 0 {
      BooksBalance(c, states, steps, k - 1);
      QueueSoundAlways(c, states, steps, k - 1);
      var s, step, books := states[k - 1], steps[k - 1], Books(c, states, steps, k - 1);
      hide QueueSound;
      hide Balanced;
      BalancedStep(c, s, step, books);
      CarefulIsHonest(c, s, step, books);
    }
  }

  /** Conservation of references: in every run whose acknowledgements are
      covered by deliveries and whose failed writes retire what they drop, every
      reference owed to an event is with an event that is delivered and not
      acknowledged, pending, failing or dropped. The shared count covers them
      and the live tokens, so as long as one wake-up event posted under a
      wakelock since the last reset is undelivered or unacknowledged, the
      kernel's wakelock is held. */
  lemma WakeupEventsKeepTheWakelock(c: Config, states: seq<State>, steps: seq<Step>, k: nat)
    requires Run(c, states, steps) && k < |states| && CarefulRun(c, states, steps, k)
    ensures var s, l := states[k], Books(c, states, steps, k);
            && s.history.eventRefs == Total(c, s, l)
            && s.lock.refCount >= |Live(s)| + Total(c, s, l)
            && (Live(s) != {} || l.due > 0 || Held(c.wake, Remaining(s), l.counted) > 0 ==>
                  s.lock.refCount > 0 && s.lock.kernelHeld)
  {
    BooksBalance(c, states, steps, k);
    LiveTokensAreSafe(c, states, steps, k);
    KernelAgreesAlways(c, states, steps, k);
  }

  /** And only as long: in such a run, until somebody stops the threads, the
      kernel's wakelock is held exactly while there is a live token or a wake-up
      event that holds a reference and is being posted, pending, failing,
      delivered and unacknowledged, or dropped by a post. */
  lemma WakelockHeldForReason(c: Config, states: seq<State>, steps: seq<Step>, k: nat)
    requires Run(c, states, steps) && k < |states| && CarefulRun(c, states, steps, k)
    requires forall j :: 0 <= j < k ==> !steps[j].StopThreads?
    ensures var s, l := states[k], Books(c, states, steps, k);
            && s.lock.refCount == |Live(s)| + Total(c, s, l)
            && (s.lock.kernelHeld <==> Live(s) != {} || Total(c, s, l) > 0)
  {
    BooksBalance(c, states, steps, k);
    InitialIsExact(states[0]);
    hide Apply;
    hide Enabled;
    hide Honest;
    hide Total;
    WakelockHeldExactly(c, states, steps, k);
  }

  /** For every failed write of every run, whether its retirement is exact, that
      is, gives back what the failed chunk holds. If the chunk's batch still
      holds references: exactly when the chunk is cut off an over-long batch, or
      no wake-up event of its post has left before it. If it holds none, because
      it was posted without counting or a reset has overtaken it: exactly when
      nothing is given back, that is, when the chunk cut off an over-long batch,
      or else its whole post, has no wake-up events. */
  lemma RetirementIsExact(c: Config, states: seq<State>, steps: seq<Step>, k: nat)
    requires Run(c, states, steps) && k < |states| && states[k].writer.WriteFailed?
    ensures var s, l := states[k], Books(c, states, steps, k);
            && s.queue.pending != [] && s.history.origins != [] && l.counted != [] && ChunkAtFront(s)
            && var front, origin := s.queue.pending[0], s.history.origins[0];
            && s.writer.numToWrite <= |front.events| <= |origin|
            && var overLong := |front.events| > s.queue.quantum;
               var chunk := front.events[..s.writer.numToWrite];
               var gone := origin[..|origin| - |front.events|];
            && (RetirementOf(c, s) == ChunkRefs(c, s, l) <==>
                  if l.counted[0] then overLong || CountWakeups(c.wake, gone) == 0
                  else if overLong then CountWakeups(c.wake, chunk) == 0
                  else CountWakeups(c.wake, origin) == 0)
  {
    QueueSoundAlways(c, states, steps, k);
    BatchesTracedAlways(c, states, steps, k);
    RetirementCoversDropped(c, states, steps, k);
    var s := states[k];
    var front, origin := s.queue.pending[0], s.history.origins[0];
    CountWakeupsSplit(c.wake, origin, |origin| - |front.events|);
    assert BatchOf(c, front, origin);
    if |front.events| <= s.queue.quantum {
      assert front.events[..s.writer.numToWrite] == front.events;
    }
  }
}
