/** Runs of the proxy, each from its start, in which the shared wakelock goes
    wrong: one way for every condition that the general results have to make. */
module WakelockWitnesses {
  import opened EventProcessing
  import opened EventQueues
  import opened ProxyMachine
  import opened WakelockRuns
  import opened Wakelocks
  import opened Wrappers

  const WAKE := Event(0, 0, 0, 0)
  const PLAIN := Event(1, 0, 0, 0)
  const SMALL := Config(2, 100, {0})

  /** An acknowledgement does not exceed the wake-up events the framework has ever read. */
  predicate AcknowledgesRead(c: Config, s: State, step: Step) {
    step.KeeperReads? && step.ack.Some? ==> step.ack.value <= CountWakeups(c.wake, s.history.received)
  }

  /** A write fails only if what it writes does not fit; so no direct write
      does, which writes as much as fits. */
  predicate FailsForLackOfRoom(s: State, step: Step) {
    match step
    case BlockingWrite(succeeds) =>
      succeeds || (s.writer.Writing? && s.writer.numToWrite > AvailableToWrite(s.queue))
    case FinishPost(accepted) => accepted
    case _ => true
  }

  /** Nobody breaks a contract, and no queue fails without a reason. */
  predicate Ordinary(c: Config, s: State, step: Step) {
    Lawful(c, step) && AcknowledgesRead(c, s, step) && FailsForLackOfRoom(s, step)
  }

  /** A run of ordinary steps, of which those before the last one give back no
      more than is owed; and yet it ends with a live token, a count of zero and
      the kernel's wakelock released. */
  ghost predicate BetraysLiveToken(c: Config, states: seq<State>, steps: seq<Step>) {
    && Run(c, states, steps) && steps != []
    && (forall j :: 0 <= j < |steps| ==> Ordinary(c, states[j], steps[j]))
    && (forall j :: 0 <= j < |steps| - 1 ==> Honest(c, states[j], steps[j]))
    && Betrayed(states[|steps|])
  }

  ghost predicate Betrayed(s: State) {
    s.running && Live(s) != {} && s.lock.refCount == 0 && !s.lock.kernelHeld
  }

  /** The front batch is a whole post. */
  ghost predicate Unsplit(s: State) {
    s.queue.pending != [] && s.history.origins != [] && s.queue.pending[0].events == s.history.origins[0]
  }

  // ------------------------------------------------------- building runs step by step

  ghost predicate Goes(s: State, step: Step, next: State) {
    Enabled(SMALL, s, step) && Apply(SMALL, s, step) == next && Ordinary(SMALL, s, step)
  }

  ghost predicate GoesHonestly(s: State, step: Step, next: State) {
    Goes(s, step, next) && Honest(SMALL, s, step)
  }

  predicate NoAcknowledgement(steps: seq<Step>) {
    forall j :: 0 <= j < |steps| ==> !steps[j].KeeperReads?
  }

  predicate NoBlockingWrite(steps: seq<Step>) {
    forall j :: 0 <= j < |steps| ==> !steps[j].BlockingWrite?
  }

  ghost predicate Harmless(states: seq<State>, steps: seq<Step>) {
    && Run(SMALL, states, steps)
    && forall j :: 0 <= j < |steps| ==> Ordinary(SMALL, states[j], steps[j]) && Honest(SMALL, states[j], steps[j])
  }

  lemma RunGrows(states: seq<State>, steps: seq<Step>, step: Step, next: State)
    requires Run(SMALL, states, steps)
    requires Enabled(SMALL, states[|steps|], step) && Apply(SMALL, states[|steps|], step) == next
    ensures Run(SMALL, states + [next], steps + [step]) && |states| == |steps| + 1
  {
    hide Enabled;
    hide Apply;
    hide Initial;
  }

  lemma Grow(states: seq<State>, steps: seq<Step>, step: Step, next: State)
    returns (states': seq<State>, steps': seq<Step>)
    requires Harmless(states, steps)
    requires GoesHonestly(states[|steps|], step, next)
    ensures states' == states + [next] && steps' == steps + [step]
    ensures Harmless(states', steps') && states'[|steps'|] == next
    ensures NoAcknowledgement(steps) && !step.KeeperReads? ==> NoAcknowledgement(steps')
    ensures NoBlockingWrite(steps) && !step.BlockingWrite? ==> NoBlockingWrite(steps')
  {
    hide Enabled;
    hide Apply;
    hide Ordinary;
    hide Honest;
    states', steps' := states + [next], steps + [step];
    RunGrows(states, steps, step, next);
  }

  lemma Betray(states: seq<State>, steps: seq<Step>, step: Step, next: State)
    returns (states': seq<State>, steps': seq<Step>)
    requires Harmless(states, steps) && Goes(states[|steps|], step, next) && Betrayed(next)
    ensures states' == states + [next] && steps' == steps + [step]
    ensures BetraysLiveToken(SMALL, states', steps')
    ensures states'[|steps'| - 1] == states[|steps|] && states'[|steps'|] == next
    ensures NoAcknowledgement(steps) && !step.KeeperReads? ==> NoAcknowledgement(steps')
    ensures NoBlockingWrite(steps) && !step.BlockingWrite? ==> NoBlockingWrite(steps')
  {
    hide Enabled;
    hide Apply;
    hide Ordinary;
    hide Honest;
    hide Betrayed;
    states', steps' := states + [next], steps + [step];
    RunGrows(states, steps, step, next);
  }

  lemma TokenGoes(s: State, now: int, tokens: set<int>, count: nat)
    requires s.running && s.history.clock < now
    requires tokens == s.history.tokens + {now} && count == s.lock.refCount + 1
    requires s.lock.kernelHeld || s.lock.refCount == 0
    ensures GoesHonestly(s, CreateToken(now), s.(lock := Wakelock(count, now, s.lock.timeoutReset, true),
                                                 history := s.history.(tokens := tokens, clock := now)))
  {}

  lemma ReleaseGoes(s: State, token: int, tokens: set<int>, count: nat)
    requires s.running && s.poster == NobodyPosts
    requires token in s.history.tokens && tokens == s.history.tokens - {token}
    requires token >= s.lock.timeoutReset && token >= 0 && s.lock.refCount == count + 1 && count > 0
    ensures GoesHonestly(s, ReleaseToken(token), s.(lock := s.lock.(refCount := count),
                                                    history := s.history.(tokens := tokens)))
  {}

  lemma BeginGoes(s: State, events: seq<Event>, token: int, now: int)
    requires s.poster == NobodyPosts && s.history.clock < now && token in s.history.tokens
    requires CountWakeups(SMALL.wake, events) > 0
    ensures GoesHonestly(s, BeginPost(events, Some(token), now), ApplyBeginPost(SMALL, s, events, Some(token), now))
  {}

  lemma FinishGoes(s: State, events: seq<Event>, wakelock: Option<int>)
    requires s.poster == Posting(events, wakelock)
    ensures GoesHonestly(s, FinishPost(true), ApplyFinishPost(SMALL, s, events, true))
  {}

  /** A post that fills the message queue and queues the rest. */
  lemma FinishSplits(s: State, direct: seq<Event>, rest: seq<Event>, wakelock: Option<int>)
    requires s.poster == Posting(direct + rest, wakelock) && rest != []
    requires s.queue.pending == [] && s.queue.pendingSize + |rest| <= 2
    requires |s.queue.messages| + |direct| == s.queue.quantum
    ensures var q, h, size, events := s.queue, s.history, s.queue.pendingSize + |rest|, direct + rest;
            var batch := Batch(rest, CountWakeups(SMALL.wake, events));
            GoesHonestly(s, FinishPost(true),
                         s.(queue := Queue(q.messages + direct, q.quantum, [batch], size, Max(q.mostPending, size)),
                            poster := NobodyPosts,
                            history := h.(posted := h.posted + events, written := h.written + direct,
                                          origins := h.origins + [events])))
  {
    FinishGoes(s, direct + rest, wakelock);
    assert (direct + rest)[..|direct|] == direct && (direct + rest)[|direct|..] == rest;
    var batch := Batch(rest, CountWakeups(SMALL.wake, direct + rest));
    assert s.queue.pending + [batch] == [batch];
    hide CountWakeups;
    hide GoesHonestly;
  }

  lemma TakeGoes(s: State, n: nat)
    requires s.running && s.writer == WriterWaiting && s.poster == NobodyPosts
    requires s.queue.pending != [] && n == ChunkLength(s.queue)
    ensures GoesHonestly(s, TakeChunk, s.(writer := Writing(n, s.queue.quantum, s.queue.pending[0].wakeCount)))
  {}

  lemma WriteGoes(s: State, succeeds: bool)
    requires s.writer.Writing? && ChunkAtFront(s)
    requires succeeds <==> s.writer.numToWrite <= AvailableToWrite(s.queue)
    ensures GoesHonestly(s, BlockingWrite(succeeds), ApplyBlockingWrite(s, succeeds))
  {}

  lemma RetireGoes(s: State, n: nat)
    requires s.writer.WriteFailed? && ChunkAtFront(s) && RetirementOf(SMALL, s) == n
    ensures Goes(s, RetireChunk, GiveBack(s, n).(writer := WriteDone(s.writer.numToWrite, s.writer.eventQueueSize)))
  {}

  lemma FinishChunkGoes(s: State)
    requires s.writer.WriteDone? && s.poster == NobodyPosts && ChunkAtFront(s)
    ensures GoesHonestly(s, FinishChunk, ApplyFinish(s))
  {}

  lemma WakeGoes(s: State, now: int, later: int, left: int)
    requires s.running && s.keeper == KeeperWaiting && s.lock.refCount > 0 && s.history.clock < now < later
    requires left == 100 - (now - s.lock.timeoutStart) && left >= 0
    ensures GoesHonestly(s, KeeperWakes(now, later),
                         s.(keeper := Reading(left), history := s.history.(clock := now)))
  {}

  lemma WakeTimesOut(s: State, now: int, later: int)
    requires s.running && s.keeper == KeeperWaiting && s.lock.refCount > 0 && s.history.clock < now < later
    requires now - s.lock.timeoutStart > 100
    ensures GoesHonestly(s, KeeperWakes(now, later),
                         s.(lock := Wakelock(0, s.lock.timeoutStart, later, false),
                            history := s.history.(eventRefs := 0, clock := later)))
  {}

  lemma ReadGoes(s: State, n: nat)
    requires s.keeper.Reading? && n <= CountWakeups(SMALL.wake, s.history.received)
    ensures Goes(s, KeeperReads(Some(n)), GiveBack(s, n).(keeper := KeeperWaiting))
    ensures n <= s.history.eventRefs ==> Honest(SMALL, s, KeeperReads(Some(n)))
  {}

  lemma ConsumeGoes(s: State, n: nat)
    requires n <= |s.queue.messages|
    ensures GoesHonestly(s, Consume(n), s.(queue := s.queue.(messages := s.queue.messages[n..]),
                                           history := s.history.(received :=
                                                                   s.history.received + s.queue.messages[..n])))
  {}

  lemma CountsOfWake()
    ensures CountWakeups(SMALL.wake, [WAKE]) == 1 && CountWakeups(SMALL.wake, [WAKE, WAKE]) == 2
    ensures CountWakeups(SMALL.wake, [WAKE, WAKE, WAKE]) == 3 && CountWakeups(SMALL.wake, [PLAIN]) == 0
  {
    assert [WAKE, WAKE, WAKE][..2] == [WAKE, WAKE];
    assert [WAKE, WAKE][..1] == [WAKE] && [WAKE][..0] == [] && [PLAIN][..0] == [];
  }

  // ------------------------------------------------------------------ the beginning

  const START := State(false, Queue([], 0, [], 0, 0), Wakelock(0, 0, 0, false), NobodyPosts, WriterStopped,
                       KeeperStopped, History([], [], [], 0, [], {}, 0, 0))
  const READY := State(true, Queue([], 1, [], 0, 0), Wakelock(0, 0, 1, false), NobodyPosts, WriterWaiting,
                       KeeperWaiting, History([], [], [], 0, [], {}, 0, 1))
  const TOKEN := State(true, Queue([], 1, [], 0, 0), Wakelock(1, 2, 1, true),
                       NobodyPosts, WriterWaiting, KeeperWaiting, History([], [], [], 0, [], {2}, 0, 2))

  lemma NothingYet()
    ensures Harmless([START], []) && NoAcknowledgement([]) && NoBlockingWrite([])
  {}

  lemma Initializes()
    ensures GoesHonestly(START, Initialize(1, 1), READY)
  {
    assert ApplyInitialize(START, 1, 1) == READY;
  }

  lemma TakesToken()
    ensures GoesHonestly(READY, CreateToken(2), TOKEN)
  {
    hide GoesHonestly;
    assert {} + {2} == {2};
    TokenGoes(READY, 2, {2}, 1);
  }

  /** The proxy is initialised, and a sub-HAL takes a scoped wakelock. */
  lemma Beginning() returns (states: seq<State>, steps: seq<Step>)
    ensures Harmless(states, steps) && states[|steps|] == TOKEN
    ensures NoAcknowledgement(steps) && NoBlockingWrite(steps)
  {
    hide *;
    NothingYet();
    Initializes();
    TakesToken();
    states, steps := [START], [];
    states, steps := Grow(states, steps, Initialize(1, 1), READY);
    states, steps := Grow(states, steps, CreateToken(2), TOKEN);
  }

  // -------------------------------------------------------------- the split post

  const THREE := [WAKE, WAKE, WAKE]
  const SPLIT1 := State(true, Queue([], 1, [], 0, 0), Wakelock(2, 3, 1, true),
                        NobodyPosts, WriterWaiting, KeeperWaiting, History([], [], [], 0, [], {2, 3}, 0, 3))
  const SPLIT2 := State(true, Queue([], 1, [], 0, 0), Wakelock(5, 4, 1, true),
                        Posting(THREE, Some(3)), WriterWaiting, KeeperWaiting,
                        History([], [], [], 0, [], {2, 3}, 3, 4))
  const SPLIT3 := State(true, Queue([WAKE], 1, [Batch([WAKE, WAKE], 3)], 2, 2), Wakelock(5, 4, 1, true),
                        NobodyPosts, WriterWaiting, KeeperWaiting,
                        History(THREE, [WAKE], [], 0, [THREE], {2, 3}, 3, 4))
  const SPLIT4 := State(true, Queue([WAKE], 1, [Batch([WAKE, WAKE], 3)], 2, 2), Wakelock(4, 4, 1, true),
                        NobodyPosts, WriterWaiting, KeeperWaiting,
                        History(THREE, [WAKE], [], 0, [THREE], {2}, 3, 4))
  const SPLIT5 := State(true, Queue([WAKE], 1, [Batch([WAKE, WAKE], 3)], 2, 2), Wakelock(4, 4, 1, true),
                        NobodyPosts, Writing(1, 1, 3), KeeperWaiting,
                        History(THREE, [WAKE], [], 0, [THREE], {2}, 3, 4))
  const SPLIT6 := State(true, Queue([], 1, [Batch([WAKE, WAKE], 3)], 2, 2), Wakelock(4, 4, 1, true),
                        NobodyPosts, Writing(1, 1, 3), KeeperWaiting,
                        History(THREE, [WAKE], [WAKE], 0, [THREE], {2}, 3, 4))
  const SPLIT7 := State(true, Queue([WAKE], 1, [Batch([WAKE, WAKE], 3)], 2, 2), Wakelock(4, 4, 1, true),
                        NobodyPosts, WriteDone(1, 1), KeeperWaiting,
                        History(THREE, [WAKE, WAKE], [WAKE], 0, [THREE], {2}, 3, 4))
  const SPLIT8 := State(true, Queue([WAKE], 1, [Batch([WAKE], 3)], 1, 2), Wakelock(4, 4, 1, true),
                        NobodyPosts, WriterWaiting, KeeperWaiting,
                        History(THREE, [WAKE, WAKE], [WAKE], 0, [THREE], {2}, 3, 4))
  const SPLIT9 := State(true, Queue([WAKE], 1, [Batch([WAKE], 3)], 1, 2), Wakelock(4, 4, 1, true),
                        NobodyPosts, WriterWaiting, Reading(99),
                        History(THREE, [WAKE, WAKE], [WAKE], 0, [THREE], {2}, 3, 5))
  const SPLIT10 := State(true, Queue([WAKE], 1, [Batch([WAKE], 3)], 1, 2), Wakelock(3, 4, 1, true),
                         NobodyPosts, WriterWaiting, KeeperWaiting,
                         History(THREE, [WAKE, WAKE], [WAKE], 0, [THREE], {2}, 2, 5))
  const SPLIT11 := State(true, Queue([WAKE], 1, [Batch([WAKE], 3)], 1, 2), Wakelock(3, 4, 1, true),
                         NobodyPosts, Writing(1, 1, 3), KeeperWaiting,
                         History(THREE, [WAKE, WAKE], [WAKE], 0, [THREE], {2}, 2, 5))
  const SPLIT12 := State(true, Queue([WAKE], 1, [Batch([WAKE], 3)], 1, 2), Wakelock(3, 4, 1, true),
                         NobodyPosts, WriteFailed(1, 1, 3), KeeperWaiting,
                         History(THREE, [WAKE, WAKE], [WAKE], 1, [THREE], {2}, 2, 5))
  const SPLIT13 := State(true, Queue([WAKE], 1, [Batch([WAKE], 3)], 1, 2), Wakelock(0, 4, 1, false),
                         NobodyPosts, WriteDone(1, 1), KeeperWaiting,
                         History(THREE, [WAKE, WAKE], [WAKE], 1, [THREE], {2}, 0, 5))

  lemma SplitBegins()
    ensures GoesHonestly(TOKEN, CreateToken(3), SPLIT1)
    ensures GoesHonestly(SPLIT1, BeginPost(THREE, Some(3), 4), SPLIT2)
  {
    hide GoesHonestly;
    CountsOfWake();
    hide CountWakeups;
    assert {2} + {3} == {2, 3};
    TokenGoes(TOKEN, 3, {2, 3}, 2);
    BeginGoes(SPLIT1, THREE, 3, 4);
  }

  lemma SplitQueues()
    ensures GoesHonestly(SPLIT2, FinishPost(true), SPLIT3) && GoesHonestly(SPLIT3, ReleaseToken(3), SPLIT4)
  {
    hide GoesHonestly;
    CountsOfWake();
    hide CountWakeups;
    assert [WAKE] + [WAKE, WAKE] == THREE && [] + THREE == THREE && [] + [WAKE] == [WAKE];
    FinishSplits(SPLIT2, [WAKE], [WAKE, WAKE], Some(3));
    assert [] + [THREE] == [THREE];
    assert {2, 3} - {3} == {2};
    ReleaseGoes(SPLIT3, 3, {2}, 4);
  }

  lemma SplitWrites()
    ensures GoesHonestly(SPLIT4, TakeChunk, SPLIT5) && GoesHonestly(SPLIT5, Consume(1), SPLIT6)
    ensures GoesHonestly(SPLIT6, BlockingWrite(true), SPLIT7) && GoesHonestly(SPLIT7, FinishChunk, SPLIT8)
  {
    hide GoesHonestly;
    TakeGoes(SPLIT4, 1);
    ConsumeGoes(SPLIT5, 1);
    WriteGoes(SPLIT6, true);
    FinishChunkGoes(SPLIT7);
    assert [WAKE, WAKE][..1] == [WAKE] == [WAKE, WAKE][1..] && [WAKE][1..] == [];
    assert [WAKE][..1] == [WAKE] && [] + [WAKE] == [WAKE] && [WAKE] + [WAKE] == [WAKE, WAKE];
    assert ApplyFinish(SPLIT7) == SPLIT8;
  }

  lemma SplitAcknowledges()
    ensures GoesHonestly(SPLIT8, KeeperWakes(5, 6), SPLIT9) && GoesHonestly(SPLIT9, KeeperReads(Some(1)), SPLIT10)
  {
    hide Goes;
    CountsOfWake();
    hide CountWakeups;
    WakeGoes(SPLIT8, 5, 6, 99);
    ReadGoes(SPLIT9, 1);
  }

  lemma SplitFails()
    ensures GoesHonestly(SPLIT10, TakeChunk, SPLIT11) && GoesHonestly(SPLIT11, BlockingWrite(false), SPLIT12)
    ensures Goes(SPLIT12, RetireChunk, SPLIT13) && Betrayed(SPLIT13)
    ensures SPLIT13.lock.timeoutReset == READY.lock.timeoutReset
  {
    hide Goes;
    hide GoesHonestly;
    TakeGoes(SPLIT10, 1);
    WriteGoes(SPLIT11, false);
    RetireGoes(SPLIT12, 3);
    assert 2 in Live(SPLIT13);
  }

  lemma SplitDelivers() returns (states: seq<State>, steps: seq<Step>)
    ensures Harmless(states, steps) && states[|steps|] == SPLIT8
  {
    hide *;
    SplitBegins();
    SplitQueues();
    SplitWrites();
    states, steps := Beginning();
    states, steps := Grow(states, steps, CreateToken(3), SPLIT1);
    states, steps := Grow(states, steps, BeginPost(THREE, Some(3), 4), SPLIT2);
    states, steps := Grow(states, steps, FinishPost(true), SPLIT3);
    states, steps := Grow(states, steps, ReleaseToken(3), SPLIT4);
    states, steps := Grow(states, steps, TakeChunk, SPLIT5);
    states, steps := Grow(states, steps, Consume(1), SPLIT6);
    states, steps := Grow(states, steps, BlockingWrite(true), SPLIT7);
    states, steps := Grow(states, steps, FinishChunk, SPLIT8);
  }

  /** A sub-HAL holds a scoped wakelock. Another one posts three wake-up events:
      the first goes straight to the framework, which reads and acknowledges it,
      the second is written behind it, and the third finds the message queue
      full. Its failed write retires all three, and takes the reference of the
      first sub-HAL's token. Nothing was reset since the initialisation. */
  lemma SplitBatchReleasesLiveToken() returns (states: seq<State>, steps: seq<Step>)
    ensures BetraysLiveToken(SMALL, states, steps)
    ensures steps[|steps| - 1] == RetireChunk && states[|steps|].lock.timeoutReset == READY.lock.timeoutReset
  {
    hide *;
    SplitAcknowledges();
    SplitFails();
    states, steps := SplitDelivers();
    states, steps := Grow(states, steps, KeeperWakes(5, 6), SPLIT9);
    states, steps := Grow(states, steps, KeeperReads(Some(1)), SPLIT10);
    states, steps := Grow(states, steps, TakeChunk, SPLIT11);
    states, steps := Grow(states, steps, BlockingWrite(false), SPLIT12);
    states, steps := Betray(states, steps, RetireChunk, SPLIT13);
  }

  // ------------------------------------------------------------- one delivered post

  const POST1 := State(true, Queue([], 1, [], 0, 0), Wakelock(2, 3, 1, true),
                       Posting([WAKE], Some(2)), WriterWaiting, KeeperWaiting,
                       History([], [], [], 0, [], {2}, 1, 3))
  const POST2 := State(true, Queue([WAKE], 1, [], 0, 0), Wakelock(2, 3, 1, true),
                       NobodyPosts, WriterWaiting, KeeperWaiting, History([WAKE], [WAKE], [], 0, [], {2}, 1, 3))
  const POST3 := State(true, Queue([WAKE], 1, [], 0, 0), Wakelock(1, 3, 1, true),
                       NobodyPosts, WriterWaiting, KeeperWaiting, History([WAKE], [WAKE], [], 0, [], {}, 1, 3))

  lemma FirstPost()
    ensures GoesHonestly(TOKEN, BeginPost([WAKE], Some(2), 3), POST1)
    ensures GoesHonestly(POST1, FinishPost(true), POST2) && GoesHonestly(POST2, ReleaseToken(2), POST3)
  {
    hide GoesHonestly;
    CountsOfWake();
    hide CountWakeups;
    BeginGoes(TOKEN, [WAKE], 2, 3);
    FinishGoes(POST1, [WAKE], Some(2));
    assert [WAKE][..1] == [WAKE] && [] + [WAKE] == [WAKE];
    assert ApplyFinishPost(SMALL, POST1, [WAKE], true) == POST2;
    assert {2} - {2} == {};
    ReleaseGoes(POST2, 2, {}, 1);
  }

  lemma Posted() returns (states: seq<State>, steps: seq<Step>)
    ensures Harmless(states, steps) && states[|steps|] == POST3
    ensures NoAcknowledgement(steps) && NoBlockingWrite(steps)
  {
    hide *;
    FirstPost();
    states, steps := Beginning();
    states, steps := Grow(states, steps, BeginPost([WAKE], Some(2), 3), POST1);
    states, steps := Grow(states, steps, FinishPost(true), POST2);
    states, steps := Grow(states, steps, ReleaseToken(2), POST3);
  }

  // ---------------------------------------------------------- the overtaken batch

  const LATE1 := State(true, Queue([WAKE], 1, [], 0, 0), Wakelock(2, 4, 1, true),
                       NobodyPosts, WriterWaiting, KeeperWaiting, History([WAKE], [WAKE], [], 0, [], {4}, 1, 4))
  const LATE2 := State(true, Queue([WAKE], 1, [], 0, 0), Wakelock(3, 5, 1, true),
                       Posting([WAKE], Some(4)), WriterWaiting, KeeperWaiting,
                       History([WAKE], [WAKE], [], 0, [], {4}, 2, 5))
  const LATE3 := State(true, Queue([WAKE], 1, [Batch([WAKE], 1)], 1, 1), Wakelock(3, 5, 1, true),
                       NobodyPosts, WriterWaiting, KeeperWaiting,
                       History([WAKE, WAKE], [WAKE], [], 0, [[WAKE]], {4}, 2, 5))
  const LATE4 := State(true, Queue([WAKE], 1, [Batch([WAKE], 1)], 1, 1), Wakelock(2, 5, 1, true),
                       NobodyPosts, WriterWaiting, KeeperWaiting,
                       History([WAKE, WAKE], [WAKE], [], 0, [[WAKE]], {}, 2, 5))
  const LATE5 := State(true, Queue([WAKE], 1, [Batch([WAKE], 1)], 1, 1), Wakelock(2, 5, 1, true),
                       NobodyPosts, Writing(1, 1, 1), KeeperWaiting,
                       History([WAKE, WAKE], [WAKE], [], 0, [[WAKE]], {}, 2, 5))
  const LATE6 := State(true, Queue([WAKE], 1, [Batch([WAKE], 1)], 1, 1), Wakelock(0, 5, 107, false),
                       NobodyPosts, Writing(1, 1, 1), KeeperWaiting,
                       History([WAKE, WAKE], [WAKE], [], 0, [[WAKE]], {}, 0, 107))
  const LATE7 := State(true, Queue([WAKE], 1, [Batch([WAKE], 1)], 1, 1), Wakelock(1, 108, 107, true),
                       NobodyPosts, Writing(1, 1, 1), KeeperWaiting,
                       History([WAKE, WAKE], [WAKE], [], 0, [[WAKE]], {108}, 0, 108))
  const LATE8 := State(true, Queue([WAKE], 1, [Batch([WAKE], 1)], 1, 1), Wakelock(1, 108, 107, true),
                       NobodyPosts, WriteFailed(1, 1, 1), KeeperWaiting,
                       History([WAKE, WAKE], [WAKE], [], 1, [[WAKE]], {108}, 0, 108))
  const LATE9 := State(true, Queue([WAKE], 1, [Batch([WAKE], 1)], 1, 1), Wakelock(0, 108, 107, false),
                       NobodyPosts, WriteDone(1, 1), KeeperWaiting,
                       History([WAKE, WAKE], [WAKE], [], 1, [[WAKE]], {108}, 0, 108))

  lemma LateBegins()
    ensures GoesHonestly(POST3, CreateToken(4), LATE1)
    ensures GoesHonestly(LATE1, BeginPost([WAKE], Some(4), 5), LATE2)
  {
    hide GoesHonestly;
    CountsOfWake();
    hide CountWakeups;
    assert {} + {4} == {4};
    TokenGoes(POST3, 4, {4}, 2);
    BeginGoes(LATE1, [WAKE], 4, 5);
  }

  lemma LateQueues()
    ensures GoesHonestly(LATE2, FinishPost(true), LATE3)
  {
    hide GoesHonestly;
    CountsOfWake();
    hide CountWakeups;
    FinishGoes(LATE2, [WAKE], Some(4));
    assert [WAKE][..0] == [] && [WAKE][0..] == [WAKE] && [WAKE] + [] == [WAKE];
    assert ApplyFinishPost(SMALL, LATE2, [WAKE], true) == LATE3;
  }

  lemma LateTakes()
    ensures GoesHonestly(LATE3, ReleaseToken(4), LATE4) && GoesHonestly(LATE4, TakeChunk, LATE5)
  {
    hide GoesHonestly;
    assert {4} - {4} == {};
    ReleaseGoes(LATE3, 4, {}, 2);
    TakeGoes(LATE4, 1);
  }

  lemma LateResets()
    ensures GoesHonestly(LATE5, KeeperWakes(106, 107), LATE6) && GoesHonestly(LATE6, CreateToken(108), LATE7)
  {
    hide GoesHonestly;
    WakeTimesOut(LATE5, 106, 107);
    assert {} + {108} == {108};
    TokenGoes(LATE6, 108, {108}, 1);
  }

  lemma LateFails()
    ensures GoesHonestly(LATE7, BlockingWrite(false), LATE8)
    ensures Goes(LATE8, RetireChunk, LATE9) && Betrayed(LATE9) && Unsplit(LATE8)
  {
    hide Goes;
    hide GoesHonestly;
    WriteGoes(LATE7, false);
    RetireGoes(LATE8, 1);
    assert 108 in Live(LATE9);
  }

  lemma OvertakenRun() returns (states: seq<State>, steps: seq<Step>)
    ensures Harmless(states, steps) && states[|steps|] == LATE6 && NoAcknowledgement(steps)
  {
    hide *;
    LateBegins();
    LateQueues();
    LateTakes();
    LateResets();
    states, steps := Posted();
    states, steps := Grow(states, steps, CreateToken(4), LATE1);
    states, steps := Grow(states, steps, BeginPost([WAKE], Some(4), 5), LATE2);
    states, steps := Grow(states, steps, FinishPost(true), LATE3);
    states, steps := Grow(states, steps, ReleaseToken(4), LATE4);
    states, steps := Grow(states, steps, TakeChunk, LATE5);
    states, steps := Grow(states, steps, KeeperWakes(106, 107), LATE6);
  }

  /** The framework reads nothing. A first post fills the message queue, and a
      second one, never split, waits in a blocking write while the wakelock
      times out. A scoped wakelock taken after that is released from under its
      holder when the write fails and the post's reference, already given up by
      the reset, is retired. Nothing is ever acknowledged. */
  lemma OvertakenBatchReleasesLiveToken() returns (states: seq<State>, steps: seq<Step>)
    ensures BetraysLiveToken(SMALL, states, steps)
    ensures NoAcknowledgement(steps) && steps[|steps| - 1] == RetireChunk
    ensures Unsplit(states[|steps| - 1])
  {
    hide *;
    LateResets();
    LateFails();
    states, steps := OvertakenRun();
    states, steps := Grow(states, steps, CreateToken(108), LATE7);
    states, steps := Grow(states, steps, BlockingWrite(false), LATE8);
    states, steps := Betray(states, steps, RetireChunk, LATE9);
  }

  // ---------------------------------------------------- the late acknowledgement

  const ACK1 := State(true, Queue([], 1, [], 0, 0), Wakelock(1, 3, 1, true),
                      NobodyPosts, WriterWaiting, KeeperWaiting,
                      History([WAKE], [WAKE], [WAKE], 0, [], {}, 1, 3))
  const ACK2 := State(true, Queue([], 1, [], 0, 0), Wakelock(0, 3, 105, false),
                      NobodyPosts, WriterWaiting, KeeperWaiting,
                      History([WAKE], [WAKE], [WAKE], 0, [], {}, 0, 105))
  const ACK3 := State(true, Queue([], 1, [], 0, 0), Wakelock(1, 106, 105, true),
                      NobodyPosts, WriterWaiting, KeeperWaiting,
                      History([WAKE], [WAKE], [WAKE], 0, [], {106}, 0, 106))
  const ACK4 := State(true, Queue([], 1, [], 0, 0), Wakelock(1, 106, 105, true),
                      NobodyPosts, WriterWaiting, Reading(99),
                      History([WAKE], [WAKE], [WAKE], 0, [], {106}, 0, 107))
  const ACK5 := State(true, Queue([], 1, [], 0, 0), Wakelock(0, 106, 105, false),
                      NobodyPosts, WriterWaiting, KeeperWaiting,
                      History([WAKE], [WAKE], [WAKE], 0, [], {106}, 0, 107))

  lemma AckIsOvertaken()
    ensures GoesHonestly(POST3, Consume(1), ACK1) && GoesHonestly(ACK1, KeeperWakes(104, 105), ACK2)
    ensures GoesHonestly(ACK2, CreateToken(106), ACK3)
  {
    hide GoesHonestly;
    assert [WAKE][..1] == [WAKE] && [WAKE][1..] == [] && [] + [WAKE] == [WAKE];
    ConsumeGoes(POST3, 1);
    WakeTimesOut(ACK1, 104, 105);
    assert {} + {106} == {106};
    TokenGoes(ACK2, 106, {106}, 1);
  }

  lemma AckComesLate()
    ensures GoesHonestly(ACK3, KeeperWakes(107, 108), ACK4)
    ensures Goes(ACK4, KeeperReads(Some(1)), ACK5) && Betrayed(ACK5)
  {
    hide Goes;
    hide GoesHonestly;
    CountsOfWake();
    hide CountWakeups;
    WakeGoes(ACK3, 107, 108, 99);
    ReadGoes(ACK4, 1);
    assert 106 in Live(ACK5);
  }

  /** A wake-up event is delivered, and the wakelock times out before it is
      acknowledged. Its one acknowledgement then takes the reference of a scoped
      wakelock taken after the time-out. No write ever fails. */
  lemma LateAcknowledgementReleasesLiveToken() returns (states: seq<State>, steps: seq<Step>)
    ensures BetraysLiveToken(SMALL, states, steps)
    ensures NoBlockingWrite(steps) && NoAcknowledgement(steps[..|steps| - 1])
    ensures steps[|steps| - 1] == KeeperReads(Some(1))
  {
    hide *;
    AckIsOvertaken();
    AckComesLate();
    states, steps := Posted();
    states, steps := Grow(states, steps, Consume(1), ACK1);
    states, steps := Grow(states, steps, KeeperWakes(104, 105), ACK2);
    states, steps := Grow(states, steps, CreateToken(106), ACK3);
    states, steps := Grow(states, steps, KeeperWakes(107, 108), ACK4);
    ghost var before := steps;
    states, steps := Betray(states, steps, KeeperReads(Some(1)), ACK5);
    assert steps[..|steps| - 1] == before;
  }

  // -------------------------------------------------------- the post without wake-ups

  const LEAK1 := State(true, Queue([], 1, [], 0, 0), Wakelock(0, 2, 104, false),
                       NobodyPosts, WriterWaiting, KeeperWaiting, History([], [], [], 0, [], {2}, 0, 104))
  const LEAK2 := State(true, Queue([], 1, [], 0, 0), Wakelock(0, 105, 104, true),
                       Posting([PLAIN], Some(2)), WriterWaiting, KeeperWaiting,
                       History([], [], [], 0, [], {2}, 0, 105))
  const LEAK3 := State(true, Queue([PLAIN], 1, [], 0, 0), Wakelock(0, 105, 104, true),
                       NobodyPosts, WriterWaiting, KeeperWaiting,
                       History([PLAIN], [PLAIN], [], 0, [], {2}, 0, 105))

  lemma LeakResets()
    ensures GoesHonestly(TOKEN, KeeperWakes(103, 104), LEAK1)
  {
    hide GoesHonestly;
    WakeTimesOut(TOKEN, 103, 104);
  }

  lemma LeakPosts()
    ensures var begin := BeginPost([PLAIN], Some(2), 105);
            && Enabled(SMALL, LEAK1, begin) && Apply(SMALL, LEAK1, begin) == LEAK2
            && Enabled(SMALL, LEAK2, FinishPost(true)) && Apply(SMALL, LEAK2, FinishPost(true)) == LEAK3
  {
    CountsOfWake();
    hide CountWakeups;
    assert [PLAIN][..1] == [PLAIN];
    assert ApplyBeginPost(SMALL, LEAK1, [PLAIN], Some(2), 105) == LEAK2;
    assert ApplyFinishPost(SMALL, LEAK2, [PLAIN], true) == LEAK3;
  }

  lemma HarmlessIsLawful(states: seq<State>, steps: seq<Step>)
    requires Harmless(states, steps)
    ensures Run(SMALL, states, steps) && |states| == |steps| + 1
    ensures forall j :: 0 <= j < |steps| ==> Lawful(SMALL, steps[j])
  {}

  /** A scoped wakelock outlives a time-out and is then passed to a post without
      wake-up events: the kernel's wakelock is acquired although the count stays
      zero. All steps but that post are lawful. */
  lemma UnlawfulPostLeaksKernelWakelock() returns (states: seq<State>, steps: seq<Step>)
    ensures Run(SMALL, states, steps) && |steps| > 1
    ensures forall j :: 0 <= j < |steps| && j != |steps| - 2 ==> Lawful(SMALL, steps[j])
    ensures states[|steps|].running && states[|steps|].lock.refCount == 0 && states[|steps|].lock.kernelHeld
  {
    hide *;
    LeakResets();
    LeakPosts();
    states, steps := Beginning();
    states, steps := Grow(states, steps, KeeperWakes(103, 104), LEAK1);
    HarmlessIsLawful(states, steps);
    RunGrows(states, steps, BeginPost([PLAIN], Some(2), 105), LEAK2);
    states, steps := states + [LEAK2], steps + [BeginPost([PLAIN], Some(2), 105)];
    RunGrows(states, steps, FinishPost(true), LEAK3);
    states, steps := states + [LEAK3], steps + [FinishPost(true)];
    LeakEnds();
    FinishIsLawful();
  }

  lemma LeakEnds()
    ensures LEAK3.running && LEAK3.lock.refCount == 0 && LEAK3.lock.kernelHeld
  {}

  lemma FinishIsLawful()
    ensures Lawful(SMALL, FinishPost(true))
  {}

  // ------------------------------------------------------------ the stop in between

  const STOP1 := State(false, Queue([], 1, [], 0, 0), Wakelock(1, 2, 1, true),
                       NobodyPosts, WriterWaiting, KeeperWaiting, History([], [], [], 0, [], {2}, 0, 2))
  const STOP2 := State(false, Queue([], 1, [], 0, 0), Wakelock(1, 2, 1, true),
                       NobodyPosts, WriterWaiting, KeeperWaiting, History([], [], [], 0, [], {}, 0, 2))
  const STOP3 := State(false, Queue([], 1, [], 0, 0), Wakelock(1, 2, 1, true),
                       NobodyPosts, WriterStopped, KeeperWaiting, History([], [], [], 0, [], {}, 0, 2))
  const STOP4 := State(false, Queue([], 1, [], 0, 0), Wakelock(1, 2, 3, true),
                       NobodyPosts, WriterStopped, KeeperStopped, History([], [], [], 0, [], {}, 0, 3))
  const STOP5 := State(true, Queue([], 1, [], 0, 0), Wakelock(1, 2, 4, true),
                       NobodyPosts, WriterWaiting, KeeperWaiting, History([], [], [], 0, [], {}, 0, 4))

  lemma StopGoes(s: State)
    ensures GoesHonestly(s, StopThreads, s.(running := false))
  {}

  lemma StoppedReleaseGoes(s: State, token: int, tokens: set<int>)
    requires !s.running && s.poster == NobodyPosts
    requires token in s.history.tokens && tokens == s.history.tokens - {token}
    ensures GoesHonestly(s, ReleaseToken(token), s.(history := s.history.(tokens := tokens)))
  {}

  lemma WriterExitGoes(s: State)
    requires !s.running && s.writer == WriterWaiting
    ensures GoesHonestly(s, WriterExits, s.(writer := WriterStopped))
  {}

  lemma KeeperExitGoes(s: State, now: int)
    requires !s.running && s.keeper == KeeperWaiting && s.history.clock < now
    ensures GoesHonestly(s, KeeperExits(now),
                         s.(lock := s.lock.(timeoutReset := now), keeper := KeeperStopped,
                            history := s.history.(eventRefs := 0, clock := now)))
  {}

  lemma StopKeepsCount()
    ensures GoesHonestly(TOKEN, StopThreads, STOP1) && GoesHonestly(STOP1, ReleaseToken(2), STOP2)
    ensures GoesHonestly(STOP2, WriterExits, STOP3) && GoesHonestly(STOP3, KeeperExits(3), STOP4)
  {
    hide GoesHonestly;
    StopGoes(TOKEN);
    assert {2} - {2} == {};
    StoppedReleaseGoes(STOP1, 2, {});
    WriterExitGoes(STOP2);
    KeeperExitGoes(STOP3, 3);
  }

  lemma InitializeKeepsCount()
    ensures GoesHonestly(STOP4, Initialize(4, 1), STOP5) && Live(STOP5) == {} && Excess(STOP5) == 1
  {
    assert ApplyInitialize(STOP4, 4, 1) == STOP5;
    assert Live(STOP5) == {};
  }

  /** A scoped wakelock is released between a stop and the next initialisation,
      when decrements are ignored. The reset of the initialisation ignores the
      count as well: the proxy runs again with no token and no event, and the
      kernel's wakelock is held. Every step is lawful. */
  lemma StopLeaksKernelWakelock() returns (states: seq<State>, steps: seq<Step>)
    ensures Harmless(states, steps) && NoAcknowledgement(steps) && NoBlockingWrite(steps)
    ensures var s := states[|steps|];
            && s.running && Live(s) == {} && s.history.eventRefs == 0 && s.history.posted == []
            && s.lock.refCount == 1 && s.lock.kernelHeld
  {
    hide *;
    StopKeepsCount();
    InitializeKeepsCount();
    states, steps := Beginning();
    states, steps := Grow(states, steps, StopThreads, STOP1);
    states, steps := Grow(states, steps, ReleaseToken(2), STOP2);
    states, steps := Grow(states, steps, WriterExits, STOP3);
    states, steps := Grow(states, steps, KeeperExits(3), STOP4);
    states, steps := Grow(states, steps, Initialize(4, 1), STOP5);
    StopEnds();
  }

  lemma StopEnds()
    ensures STOP5.running && STOP5.history.eventRefs == 0 && STOP5.history.posted == []
    ensures STOP5.lock.refCount == 1 && STOP5.lock.kernelHeld
  {}
}
