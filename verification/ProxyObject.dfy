/** The proxy object seen from the machine: which of its changes are steps. */
module ProxyObject {
  import opened EventProcessing
  import opened EventQueues
  import opened ProxyMachine
  import opened Wakelocks
  import opened Wrappers

  /** What the object holds of a state of the machine; the rest of the state is
      in its threads. */
  datatype Fields = Fields(running: bool, queue: Queue, lock: Wakelock)

  function FieldsOf(s: State): Fields {
    Fields(s.running, s.queue, s.lock)
  }

  /** A change of the object is this step of the machine, in whatever state its
      threads are that can make it. */
  ghost predicate Made(c: Config, before: Fields, step: Step, after: Fields) {
    forall s :: FieldsOf(s) == before && Enabled(c, s, step) ==> FieldsOf(Apply(c, s, step)) == after
  }

  /** The same for a step of the writer when it has these locals. */
  ghost predicate MadeByWriter(c: Config, writer: Writer, before: Fields, step: Step, after: Fields) {
    forall s :: FieldsOf(s) == before && s.writer == writer && Enabled(c, s, step) ==>
                  FieldsOf(Apply(c, s, step)) == after
  }

  /** A change is one whole post: its two steps, one after the other. */
  ghost predicate MadePost(c: Config, before: Fields, events: seq<Event>, locked: bool, accepted: bool, now: int,
                           after: Fields)
  {
    forall s, wakelock: Option<int> ::
      FieldsOf(s) == before && wakelock.Some? == locked && Enabled(c, s, BeginPost(events, wakelock, now)) ==>
        var counted := Apply(c, s, BeginPost(events, wakelock, now));
        Enabled(c, counted, FinishPost(accepted)) && FieldsOf(Apply(c, counted, FinishPost(accepted))) == after
  }

  lemma PostIsMade(c: Config, before: Fields, events: seq<Event>, locked: bool, accepted: bool, now: int,
                   after: Fields)
    requires after.running == before.running
    requires var wakeups := CountWakeups(c.wake, events);
             && after.queue == Post(before.queue, c.maxPending, events, wakeups, accepted)
             && after.lock == if locked then Increment(before.lock, before.running, wakeups, now) else before.lock
    ensures MadePost(c, before, events, locked, accepted, now, after)
  {
    hide Post;
    hide CountWakeups;
    hide Increment;
  }

  lemma RetirementIsMade(c: Config, before: Fields, size: nat, wakeups: nat, after: Fields)
    requires before.queue.pending != [] && after.running == before.running && after.queue == before.queue
    requires var retired := RetiredRefs(c.wake, Batch(before.queue.pending[0].events, wakeups), size);
             after.lock == Decrement(before.lock, before.running, retired, NO_TIMESTAMP)
    ensures forall n :: MadeByWriter(c, WriteFailed(n, size, wakeups), before, RetireChunk, after)
  {
    hide RetiredRefs;
    hide Decrement;
  }

  /** A change is the stop and the drain of the message queue. */
  ghost predicate MadeStop(c: Config, before: Fields, after: Fields) {
    var stopped := before.(running := false);
    Made(c, before, StopThreads, stopped) && Made(c, stopped, Drain(|before.queue.messages|), after)
  }

  lemma StopIsMade(c: Config, before: Fields)
    ensures MadeStop(c, before, before.(running := false, queue := before.queue.(messages := [])))
  {}

  lemma InitializationIsMade(c: Config, before: Fields, quantum: nat, now: int, after: Fields)
    requires after.running && after.queue == Queue([], quantum, [], 0, before.queue.mostPending)
    requires after.lock == before.lock.(timeoutReset := now)
    ensures Made(c, before, Initialize(now, quantum), after)
  {}

  // --------------------------------------------------- the rounds of the wakelock thread

  /** What one round of the wakelock thread meets: the clock when it looks at
      the time-out and when it resets, and what the blocking read returns. */
  datatype Round = Round(now: int, later: int, ack: Option<nat>)

  /** The wakelock after some rounds without any other thread. */
  function KeepRounds(w: Wakelock, timeout: nat, rounds: seq<Round>): Wakelock {
    if rounds == [] then w
    else
      var n := |rounds| - 1;
      var before, r := KeepRounds(w, timeout, rounds[..n]), rounds[n];
      if before.refCount == 0 then before
      else if TimeLeft(before, timeout, r.now).None? then Reset(before, true, r.later)
      else if r.ack.Some? then Decrement(before, true, r.ack.value, NO_TIMESTAMP)
      else before
  }

  /** Without new increments the wakelock is given up by the first round that
      starts more than the timeout after the last one, whatever is acknowledged
      before or after. */
  lemma {:induction false} TimedOutRoundReleases(w: Wakelock, timeout: nat, rounds: seq<Round>)
    requires w.kernelHeld <==> w.refCount > 0
    ensures var after := KeepRounds(w, timeout, rounds);
            && (after.kernelHeld <==> after.refCount > 0)
            && after.refCount <= w.refCount
            && after.timeoutStart == w.timeoutStart
            && ((exists r :: r in rounds && r.now - w.timeoutStart > timeout) ==>
                  after.refCount == 0 && !after.kernelHeld)
  {
    if rounds != [] {
      TimedOutRoundReleases(w, timeout, rounds[..|rounds| - 1]);
      assert rounds == rounds[..|rounds| - 1] + [rounds[|rounds| - 1]];
    }
  }

  /** A step of the machine, if it is enabled. */
  function Try(c: Config, s: State, step: Step): State {
    if Enabled(c, s, step) then Apply(c, s, step) else s
  }

  /** The same rounds as steps of the machine. */
  function KeeperSteps(c: Config, s: State, rounds: seq<Round>): State {
    if rounds == [] then s
    else
      var n := |rounds| - 1;
      var before, r := KeeperSteps(c, s, rounds[..n]), rounds[n];
      Try(c, Try(c, before, KeeperWakes(r.now, r.later)), KeeperReads(r.ack))
  }

  function EndOf(clock: int, rounds: seq<Round>): int {
    if rounds == [] then clock else rounds[|rounds| - 1].later
  }

  /** The clock advances through the rounds. */
  predicate Advances(clock: int, rounds: seq<Round>) {
    rounds != [] ==>
      var n := |rounds| - 1;
      Advances(clock, rounds[..n]) && EndOf(clock, rounds[..n]) < rounds[n].now < rounds[n].later
  }

  lemma KeeperRoundIsSteps(c: Config, s: State, r: Round)
    requires s.running && s.keeper.KeeperWaiting? && s.history.clock < r.now < r.later
    ensures var after := Try(c, Try(c, s, KeeperWakes(r.now, r.later)), KeeperReads(r.ack));
            && after.running && after.keeper.KeeperWaiting? && after.history.clock <= r.later
            && after.lock == KeepRounds(s.lock, c.timeout, [r])
  {
    assert KeepRounds(s.lock, c.timeout, [r][..0]) == s.lock;
  }

  lemma KeepOneMore(w: Wakelock, timeout: nat, rounds: seq<Round>, r: Round)
    ensures KeepRounds(w, timeout, rounds + [r]) == KeepRounds(KeepRounds(w, timeout, rounds), timeout, [r])
  {
    assert (rounds + [r])[..|rounds|] == rounds;
    assert [r][..0] == [];
  }

  /** Undisturbed rounds of the wakelock thread are steps of the machine's
      keeper, with the same effect on the wakelock. */
  lemma {:induction false} KeepRoundsAreSteps(c: Config, s: State, rounds: seq<Round>)
    requires s.running && s.keeper.KeeperWaiting? && Advances(s.history.clock, rounds)
    ensures var after := KeeperSteps(c, s, rounds);
            && after.running && after.keeper.KeeperWaiting?
            && after.history.clock <= EndOf(s.history.clock, rounds)
            && after.lock == KeepRounds(s.lock, c.timeout, rounds)
  {
    hide Try;
    if rounds == [] {
      assert KeepRounds(s.lock, c.timeout, []) == s.lock;
    } else {
      hide KeepRounds;
      var n := |rounds| - 1;
      KeepRoundsAreSteps(c, s, rounds[..n]);
      KeeperRoundIsSteps(c, KeeperSteps(c, s, rounds[..n]), rounds[n]);
      KeepOneMore(s.lock, c.timeout, rounds[..n], rounds[n]);
      assert rounds == rounds[..n] + [rounds[n]];
    }
  }
}
