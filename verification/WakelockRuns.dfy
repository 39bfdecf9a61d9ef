/** What every run of the proxy keeps about the shared wakelock. */
module WakelockRuns {
  import opened EventProcessing
  import opened ProxyMachine
  import opened Wakelocks
  import opened Wrappers

  // ------------------------------------------------------- the kernel's wakelock

  ghost predicate KernelAgrees(s: State) {
    s.lock.kernelHeld <==> s.lock.refCount > 0
  }

  /** The contract that postEvents asserts: a locked wakelock comes with at
      least one wake-up event. */
  predicate Lawful(c: Config, step: Step) {
    step.BeginPost? && step.wakelock.Some? ==> CountWakeups(c.wake, step.events) > 0
  }

  /** A step keeps the kernel's wakelock in step with the count unless it is a
      post without wake-up events, under a locked wakelock, to a running proxy
      whose count is zero: that one acquires what nobody will release. */
  lemma KernelAgreesExactly(c: Config, s: State, step: Step)
    requires KernelAgrees(s) && Enabled(c, s, step)
    ensures KernelAgrees(Apply(c, s, step)) <==>
            !(step.BeginPost? && step.wakelock.Some? && s.running && s.lock.refCount == 0 &&
              CountWakeups(c.wake, step.events) == 0)
  {}

  /** In every run whose posts respect their contract, whatever the
      interleaving, and across time-outs, stops and re-initialisations, the
      kernel's wakelock is held exactly while the count is positive. */
  lemma {:induction false} KernelAgreesAlways(c: Config, states: seq<State>, steps: seq<Step>, k: nat)
    requires Run(c, states, steps) && k < |states|
    requires forall j :: 0 <= j < k ==> Lawful(c, steps[j])
    ensures KernelAgrees(states[k])
  {
    if k > 0 {
      KernelAgreesAlways(c, states, steps, k - 1);
      KernelAgreesExactly(c, states[k - 1], steps[k - 1]);
    }
  }

  // -------------------------------------------------------------- live tokens

  /** Scoped wakelocks taken since the last reset and not yet released. */
  function Live(s: State): set<int> {
    set t | t in s.history.tokens && t >= s.lock.timeoutReset
  }

  ghost predicate TimesSound(s: State) {
    && s.history.clock >= 0
    && s.lock.timeoutStart <= s.history.clock && s.lock.timeoutReset <= s.history.clock
    && forall t :: t in s.history.tokens ==> 0 <= t <= s.history.clock
  }

  lemma TimesSoundStep(c: Config, s: State, step: Step)
    requires TimesSound(s) && Enabled(c, s, step)
    ensures TimesSound(Apply(c, s, step))
  {}

  lemma {:induction false} TimesSoundAlways(c: Config, states: seq<State>, steps: seq<Step>, k: nat)
    requires Run(c, states, steps) && k < |states|
    ensures TimesSound(states[k])
  {
    if k > 0 {
      TimesSoundAlways(c, states, steps, k - 1);
      TimesSoundStep(c, states[k - 1], steps[k - 1]);
    }
  }

  /** The count covers every live token and every reference owed to an event. */
  ghost predicate Covered(s: State) {
    s.lock.refCount >= |Live(s)| + s.history.eventRefs
  }

  /** How many event references a step gives back, if it is an acknowledgement
      or the retirement of a failed write. */
  function GivenBack(c: Config, s: State, step: Step): nat
    requires Enabled(c, s, step)
  {
    match step
    case KeeperReads(ack) => if ack.Some? then ack.value else 0
    case RetireChunk => RetirementOf(c, s)
    case _ => 0
  }

  /** While the threads run, a step gives back no more event references than are owed. */
  predicate Honest(c: Config, s: State, step: Step)
    requires Enabled(c, s, step)
  {
    s.running ==> GivenBack(c, s, step) <= s.history.eventRefs
  }

  lemma LiveGrows(s: State, now: int)
    requires TimesSound(s) && s.history.clock < now && s.running
    ensures Live(ApplyCreateToken(s, now)) == Live(s) + {now} && now !in Live(s)
  {}

  lemma LiveShrinks(s: State, token: int)
    requires token in s.history.tokens
    ensures Live(ApplyReleaseToken(s, token)) == Live(s) - {token}
  {}

  /** A reset leaves no token alive exactly when all of them are strictly older
      than it. A token with the same time stamp would count as newer, and its
      release would take a reference that is not its own: this is why the clock
      has to advance between a token and a reset. */
  lemma ResetIsClean(s: State, now: int)
    ensures Live(ApplyReset(s, now)) == {} <==> forall t :: t in s.history.tokens ==> t < now
  {
    assert forall t :: t in Live(ApplyReset(s, now)) <==> t in s.history.tokens && t >= now;
  }

  lemma NothingLiveAfterReset(s: State, now: int)
    requires TimesSound(s) && s.history.clock < now
    ensures Live(ApplyReset(s, now)) == {}
  {
    ResetIsClean(s, now);
  }

  lemma LiveDependsOnTimes(s: State, s': State)
    requires s.history.tokens == s'.history.tokens && s.lock.timeoutReset == s'.lock.timeoutReset
    ensures Live(s) == Live(s')
  {}

  /** Giving back n event references keeps the live tokens covered exactly when
      no more than the owed ones are given back, or the surplus is not taken
      from a live token, or the threads are stopped. */
  lemma GiveBackExactly(s: State, n: nat)
    requires TimesSound(s) && Covered(s)
    ensures Covered(GiveBack(s, n)) <==>
            n <= s.history.eventRefs || !s.running || Live(s) == {} || n <= s.lock.refCount - |Live(s)|
  {
    LiveDependsOnTimes(s, GiveBack(s, n));
  }

  lemma CoveredStep(c: Config, s: State, step: Step)
    requires TimesSound(s) && Covered(s) && Enabled(c, s, step) && Honest(c, s, step)
    ensures Covered(Apply(c, s, step))
  {
    var after := Apply(c, s, step);
    match step {
      case CreateToken(now) =>
        if s.running {
          LiveGrows(s, now);
        } else {
          LiveDependsOnTimes(s, after);
        }
      case ReleaseToken(t) => LiveShrinks(s, t);
      case RetireChunk =>
        GiveBackExactly(s, RetirementOf(c, s));
        LiveDependsOnTimes(GiveBack(s, RetirementOf(c, s)), after);
      case KeeperReads(ack) =>
        if ack.Some? {
          GiveBackExactly(s, ack.value);
          LiveDependsOnTimes(GiveBack(s, ack.value), after);
        } else {
          LiveDependsOnTimes(s, after);
        }
      case KeeperWakes(now, later) =>
        if TimeLeft(s.lock, c.timeout, now).None? {
          NothingLiveAfterReset(s, later);
        } else {
          LiveDependsOnTimes(s, after);
        }
      case KeeperExits(now) =>
        NothingLiveAfterReset(s, now);
        LiveDependsOnTimes(ApplyReset(s, now), after);
      case Initialize(now, _) =>
        NothingLiveAfterReset(s, now);
        LiveDependsOnTimes(ApplyReset(s, now), after);
      case _ => LiveDependsOnTimes(s, after);
    }
  }

  /** As long as no step gives back more event references than are owed, the
      count covers all live tokens and owed references in every reachable
      state; so while a token from after the last reset is alive, the count is
      positive and the kernel's wakelock is held. */
  lemma {:induction false} LiveTokensAreSafe(c: Config, states: seq<State>, steps: seq<Step>, k: nat)
    requires Run(c, states, steps) && k < |states|
    requires forall j :: 0 <= j < k ==> Lawful(c, steps[j]) && Honest(c, states[j], steps[j])
    ensures Covered(states[k])
    ensures Live(states[k]) != {} ==> states[k].lock.refCount > 0 && states[k].lock.kernelHeld
  {
    if k == 0 {
      assert Live(states[0]) == {};
    } else {
      LiveTokensAreSafe(c, states, steps, k - 1);
      TimesSoundAlways(c, states, steps, k - 1);
      CoveredStep(c, states[k - 1], steps[k - 1]);
    }
    KernelAgreesAlways(c, states, steps, k);
  }

  // ------------------------------------------------- no reference without a holder

  /** References that belong to no live token and no event. */
  function Excess(s: State): int {
    s.lock.refCount - |Live(s)| - s.history.eventRefs
  }

  /** Where they come from and where they go: a live token that is released while
      the threads are stopped leaves its reference behind; what is left when the
      keeper exits or the proxy is initialised belongs to nobody any more; a
      time-out gives everything up. */
  function ExcessAfter(c: Config, s: State, step: Step): int {
    match step
    case ReleaseToken(t) => if !s.running && t in Live(s) then Excess(s) + 1 else Excess(s)
    case KeeperWakes(now, _) => if now - s.lock.timeoutStart > c.timeout then 0 else Excess(s)
    case KeeperExits(_) => s.lock.refCount
    case Initialize(_, _) => s.lock.refCount
    case _ => Excess(s)
  }

  lemma ExcessOfReset(s: State, now: int)
    requires TimesSound(s) && s.history.clock < now
    ensures Excess(ApplyReset(s, now)) == if s.running then 0 else s.lock.refCount
  {
    NothingLiveAfterReset(s, now);
  }

  lemma ExcessOfGiveBack(s: State, n: nat)
    requires TimesSound(s) && Covered(s) && (s.running ==> n <= s.history.eventRefs)
    ensures Excess(GiveBack(s, n)) == Excess(s)
  {
    LiveDependsOnTimes(s, GiveBack(s, n));
    hide Live;
  }

  lemma ExcessOfRelease(s: State, t: int)
    requires TimesSound(s) && Covered(s) && t in s.history.tokens
    ensures Excess(ApplyReleaseToken(s, t)) == Excess(s) + if !s.running && t in Live(s) then 1 else 0
  {
    LiveShrinks(s, t);
    var live := Live(s);
    if t in live {
      assert |live - {t}| == |live| - 1;
    } else {
      assert t < s.lock.timeoutReset;
      assert live - {t} == live;
    }
    hide Live;
  }

  lemma ExcessOfToken(s: State, now: int)
    requires TimesSound(s) && s.history.clock < now
    ensures Excess(ApplyCreateToken(s, now)) == Excess(s)
  {
    if s.running {
      LiveGrows(s, now);
    } else {
      LiveDependsOnTimes(s, ApplyCreateToken(s, now));
    }
    hide Live;
  }

  lemma SameExcess(s: State, s': State)
    requires s'.lock.refCount - s'.history.eventRefs == s.lock.refCount - s.history.eventRefs
    requires s'.history.tokens == s.history.tokens && s'.lock.timeoutReset == s.lock.timeoutReset
    ensures Excess(s') == Excess(s)
  {
    LiveDependsOnTimes(s, s');
    hide Live;
  }

  /** The count is exact: step by step, the references beyond those of live tokens
      and events are the ones that ExcessAfter says, and no others. */
  lemma ExcessExactly(c: Config, s: State, step: Step)
    requires TimesSound(s) && Covered(s) && Enabled(c, s, step) && Honest(c, s, step)
    ensures Excess(Apply(c, s, step)) == ExcessAfter(c, s, step)
  {
    var after := Apply(c, s, step);
    hide Live;
    match step {
      case CreateToken(now) => ExcessOfToken(s, now);
      case ReleaseToken(t) => ExcessOfRelease(s, t);
      case RetireChunk =>
        ExcessOfGiveBack(s, RetirementOf(c, s));
        SameExcess(GiveBack(s, RetirementOf(c, s)), after);
      case KeeperReads(ack) =>
        if ack.Some? {
          ExcessOfGiveBack(s, ack.value);
          SameExcess(GiveBack(s, ack.value), after);
        } else {
          SameExcess(s, after);
        }
      case KeeperWakes(now, later) =>
        if TimeLeft(s.lock, c.timeout, now).None? {
          ExcessOfReset(s, later);
        } else {
          SameExcess(s, after);
        }
      case KeeperExits(now) =>
        ExcessOfReset(s, now);
        SameExcess(ApplyReset(s, now), after);
      case Initialize(now, _) =>
        ExcessOfReset(s, now);
        SameExcess(ApplyReset(s, now), after);
      case _ => SameExcess(s, after);
    }
  }

  /** Nothing has ever been counted. */
  predicate Fresh(s: State) {
    s.history.tokens == {} && s.lock.refCount == 0 && s.history.eventRefs == 0
  }

  /** The count is right, and will stay so as long as nobody stops the threads. */
  ghost predicate Exact(s: State) {
    TimesSound(s) && KernelAgrees(s) && Excess(s) == 0 && (s.running || Fresh(s))
  }

  lemma FreshStep(c: Config, s: State, step: Step)
    requires Enabled(c, s, step) && !step.StopThreads?
    requires s.running || Fresh(s)
    ensures var after := Apply(c, s, step); after.running || Fresh(after)
  {}

  lemma ExactStep(c: Config, s: State, step: Step)
    requires Exact(s) && Enabled(c, s, step) && !step.StopThreads?
    requires Lawful(c, step) && Honest(c, s, step)
    ensures Exact(Apply(c, s, step))
  {
    TimesSoundStep(c, s, step);
    KernelAgreesExactly(c, s, step);
    FreshStep(c, s, step);
    ExcessExactly(c, s, step);
    hide Apply;
    hide Enabled;
  }

  lemma InitialIsExact(s: State)
    requires Initial(s)
    ensures Exact(s)
  {
    assert Live(s) == {};
  }

  /** A time-out makes the count right whatever it was, and an initialisation
      exactly when the count it finds is zero. */
  lemma ExactAgain(c: Config, s: State, step: Step)
    requires TimesSound(s) && KernelAgrees(s) && Enabled(c, s, step)
    ensures step.KeeperWakes? && step.now - s.lock.timeoutStart > c.timeout ==> Exact(Apply(c, s, step))
    ensures step.Initialize? ==> (Exact(Apply(c, s, step)) <==> s.lock.refCount == 0)
  {
    TimesSoundStep(c, s, step);
    KernelAgreesExactly(c, s, step);
    if step.KeeperWakes? && step.now - s.lock.timeoutStart > c.timeout {
      ExcessOfReset(s, step.later);
    } else if step.Initialize? {
      ExcessOfReset(s, step.now);
      SameExcess(ApplyReset(s, step.now), Apply(c, s, step));
    }
    hide Excess;
  }

  /** The other half of safety. From a state in which the count is right, until
      somebody stops the threads, while posts keep their contract and no step
      gives back more than is owed: the count is exactly that of the live tokens
      and the references owed to events; so the kernel's wakelock is held exactly
      while there is a live token or an event reference, and released by the step
      that ends the last of them. */
  lemma {:induction false} WakelockHeldExactly(c: Config, states: seq<State>, steps: seq<Step>, k: nat)
    requires Path(c, states, steps) && k < |states| && Exact(states[0])
    requires forall j :: 0 <= j < k ==>
               Lawful(c, steps[j]) && Honest(c, states[j], steps[j]) && !steps[j].StopThreads?
    ensures Exact(states[k])
    ensures states[k].lock.refCount == |Live(states[k])| + states[k].history.eventRefs
    ensures states[k].lock.kernelHeld <==> Live(states[k]) != {} || states[k].history.eventRefs > 0
  {
    hide Apply;
    hide Enabled;
    hide Live;
    hide Honest;
    if k > 0 {
      WakelockHeldExactly(c, states, steps, k - 1);
      ExactStep(c, states[k - 1], steps[k - 1]);
      assert states[k] == Apply(c, states[k - 1], steps[k - 1]);
    }
    assert |Live(states[k])| == 0 <==> Live(states[k]) == {};
  }

  /** Releasing a token from before the last reset changes nothing but that the
      token is gone: it cannot take a newer token's or event's reference. */
  lemma StaleReleaseIsHarmless(s: State, token: int)
    requires TimesSound(s) && token in s.history.tokens && token !in Live(s)
    ensures ApplyReleaseToken(s, token).lock == s.lock
    ensures Live(ApplyReleaseToken(s, token)) == Live(s)
  {
    LiveShrinks(s, token);
  }

  // ------------------------------------------------------------------ time-out

  /** The time of the increment that a step makes, if it makes one. */
  function IncrementTime(s: State, step: Step): Option<int> {
    if !s.running then None
    else
      match step
      case CreateToken(now) => Some(now)
      case BeginPost(_, wakelock, now) => if wakelock.Some? then Some(now) else None
      case _ => None
  }

  /** The time of the last successful increment among the first k steps. */
  function LastIncrement(states: seq<State>, steps: seq<Step>, k: nat): int
    requires k <= |steps| && |states| == |steps| + 1
  {
    if k == 0 then states[0].lock.timeoutStart
    else
      var time := IncrementTime(states[k - 1], steps[k - 1]);
      if time.Some? then time.value else LastIncrement(states, steps, k - 1)
  }

  lemma StartFollowsIncrements(c: Config, s: State, step: Step)
    requires Enabled(c, s, step)
    ensures var time := IncrementTime(s, step);
            Apply(c, s, step).lock.timeoutStart == if time.Some? then time.value else s.lock.timeoutStart
  {}

  lemma {:induction false} StartIsLastIncrement(c: Config, states: seq<State>, steps: seq<Step>, k: nat)
    requires Path(c, states, steps) && k <= |steps|
    ensures states[k].lock.timeoutStart == LastIncrement(states, steps, k)
  {
    if k > 0 {
      StartIsLastIncrement(c, states, steps, k - 1);
      StartFollowsIncrements(c, states[k - 1], steps[k - 1]);
    }
  }

  /** When the keeper wakes more than the timeout after the last increment,
      every reference is given up and the kernel's wakelock released. Otherwise
      it waits for an acknowledgement, for what is left of the timeout and never
      longer than all of it. */
  lemma KeeperTimesOut(c: Config, states: seq<State>, steps: seq<Step>, k: nat)
    requires Run(c, states, steps) && k < |steps| && steps[k].KeeperWakes?
    ensures var after, idle := states[k + 1], steps[k].now - LastIncrement(states, steps, k);
            && idle > 0
            && (idle > c.timeout ==>
                  && after.lock.refCount == 0 && !after.lock.kernelHeld
                  && after.keeper == KeeperWaiting && Live(after) == {})
            && (idle <= c.timeout ==>
                  && after.lock == states[k].lock
                  && after.keeper == Reading(c.timeout - idle) && 0 <= c.timeout - idle < c.timeout)
  {
    StartIsLastIncrement(c, states, steps, k);
    TimesSoundAlways(c, states, steps, k);
    if steps[k].now - LastIncrement(states, steps, k) > c.timeout {
      NothingLiveAfterReset(states[k], steps[k].later);
    }
  }
}
