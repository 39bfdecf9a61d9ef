/** The proxy object: its fields, and the methods that change them while a mutex is held. */
module HalProxy {
  import opened EventProcessing
  import opened EventQueues
  import opened Handles
  import opened PendingWrites
  import M = ProxyMachine
  import opened ProxyObject
  import opened SensorRegistry
  import opened Wakelocks
  import opened Wrappers

  /** What mSensors[...] inserts for a handle it does not know. */
  const NO_SENSOR := SensorInfo(0, "", 0, "", {})

  /** Looking up sensors that do not exist inserts them, without flags. */
  ghost predicate OnlyLookedUp(before: map<Handle, SensorInfo>, after: map<Handle, SensorInfo>) {
    && (forall g :: g in before ==> g in after && after[g] == before[g])
    && (forall g :: g in after && g !in before ==> after[g] == NO_SENSOR)
  }

  /** The result after asking everybody: the last failure, if there is one. */
  function LastFailure(results: seq<Result>, otherwise: Result): (result: Result)
    ensures result == OK <==> otherwise == OK && forall i :: 0 <= i < |results| ==> results[i] == OK
  {
    if results == [] then otherwise
    else if results[|results| - 1] != OK then results[|results| - 1]
    else LastFailure(results[..|results| - 1], otherwise)
  }

  /** It is that of the last one that failed, or the one from before if nobody did. */
  lemma {:induction false} LastFailureExactly(results: seq<Result>, otherwise: Result, k: nat)
    ensures (forall i :: 0 <= i < |results| ==> results[i] == OK) ==> LastFailure(results, otherwise) == otherwise
    ensures k < |results| && results[k] != OK && (forall i :: k < i < |results| ==> results[i] == OK) ==>
              LastFailure(results, otherwise) == results[k]
  {
    if results != [] {
      LastFailureExactly(results[..|results| - 1], otherwise, k);
    }
  }

  class HalProxy {
    const kMaxSizePendingWriteEventsQueue: nat
    const kWakelockTimeoutNs: nat

    var mThreadsRun: bool
    var mSensors: map<Handle, SensorInfo>

    var mEventQueue: seq<Event>
    var mQuantumCount: nat
    var mPendingWriteEventsQueue: seq<Batch>
    var mSizePendingWriteEventsQueue: nat
    var mMostEventsObservedPendingWriteEventsQueue: nat

    var mWakelockRefCount: nat
    var mWakelockTimeoutStartTime: int
    var mWakelockTimeoutResetTime: int
    var kernelWakelockHeld: bool

    ghost function Queues(): Queue
      reads this
    {
      Queue(mEventQueue, mQuantumCount, mPendingWriteEventsQueue, mSizePendingWriteEventsQueue,
            mMostEventsObservedPendingWriteEventsQueue)
    }

    ghost function Lock(): Wakelock
      reads this
    {
      Wakelock(mWakelockRefCount, mWakelockTimeoutStartTime, mWakelockTimeoutResetTime, kernelWakelockHeld)
    }

    ghost predicate Valid()
      reads this
    {
      Accounted(Queues(), kMaxSizePendingWriteEventsQueue)
    }

    // -------------------------------------------------- the object and the machine

    ghost function Parameters(): M.Config
      reads this
    {
      M.Config(kMaxSizePendingWriteEventsQueue, kWakelockTimeoutNs, WakeUpHandles(mSensors))
    }

    ghost function View(): Fields
      reads this
    {
      Fields(mThreadsRun, Queues(), Lock())
    }

    constructor (sensors: map<Handle, SensorInfo>, maxPending: nat, timeout: nat, now: int, run: bool)
      ensures Valid() && mThreadsRun == run && mSensors == sensors
      ensures kMaxSizePendingWriteEventsQueue == maxPending && kWakelockTimeoutNs == timeout
      ensures Queues() == Queue([], 0, [], 0, 0) && Lock() == Wakelock(0, now, now, false)
    {
      kMaxSizePendingWriteEventsQueue, kWakelockTimeoutNs := maxPending, timeout;
      mThreadsRun, mSensors := run, sensors;
      mEventQueue, mQuantumCount, mPendingWriteEventsQueue := [], 0, [];
      mSizePendingWriteEventsQueue, mMostEventsObservedPendingWriteEventsQueue := 0, 0;
      mWakelockRefCount, mWakelockTimeoutStartTime, mWakelockTimeoutResetTime := 0, now, now;
      kernelWakelockHeld := false;
    }

    // ------------------------------------------------------------ the wakelock

    method IncrementRefCountAndMaybeAcquireWakelock(delta: nat, now: int)
      returns (counted: bool, timeoutStart: int)
      modifies `mWakelockRefCount, `mWakelockTimeoutStartTime, `kernelWakelockHeld
      ensures Lock() == Increment(old(Lock()), mThreadsRun, delta, now)
      ensures counted == mThreadsRun && (counted ==> timeoutStart == now)
      ensures delta == 1 ==> Made(Parameters(), old(View()), M.CreateToken(now), View())
    {
      timeoutStart := NO_TIMESTAMP;
      if !mThreadsRun {
        return false, timeoutStart;
      }
      if mWakelockRefCount == 0 {
        kernelWakelockHeld := true;
      }
      mWakelockTimeoutStartTime := now;
      mWakelockRefCount := mWakelockRefCount + delta;
      timeoutStart := mWakelockTimeoutStartTime;
      counted := true;
    }

    method DecrementRefCountAndMaybeReleaseWakelock(delta: nat, timestamp: int)
      modifies `mWakelockRefCount, `kernelWakelockHeld
      ensures Lock() == Decrement(old(Lock()), mThreadsRun, delta, timestamp)
      ensures delta == 1 ==> Made(Parameters(), old(View()), M.ReleaseToken(timestamp), View())
      ensures timestamp == NO_TIMESTAMP ==> Made(Parameters(), old(View()), M.KeeperReads(Some(delta)), View())
    {
      if !mThreadsRun {
        return;
      }
      var timeoutStart := timestamp;
      if timeoutStart == NO_TIMESTAMP {
        timeoutStart := mWakelockTimeoutResetTime;
      }
      if mWakelockRefCount == 0 || timeoutStart < mWakelockTimeoutResetTime {
        return;
      }
      mWakelockRefCount := mWakelockRefCount - Min(mWakelockRefCount, delta);
      if mWakelockRefCount == 0 {
        kernelWakelockHeld := false;
      }
    }

    method ResetSharedWakelock(now: int)
      modifies `mWakelockRefCount, `kernelWakelockHeld, `mWakelockTimeoutResetTime
      ensures Lock() == Reset(old(Lock()), mThreadsRun, now)
      ensures Made(Parameters(), old(View()), M.KeeperExits(now), View())
    {
      DecrementRefCountAndMaybeReleaseWakelock(mWakelockRefCount, NO_TIMESTAMP);
      mWakelockTimeoutResetTime := now;
    }

    method SharedWakelockDidTimeout(now: int) returns (didTimeout: bool, timeLeft: int)
      ensures didTimeout <==> now - mWakelockTimeoutStartTime > kWakelockTimeoutNs
      ensures TimeLeft(Lock(), kWakelockTimeoutNs, now) == if didTimeout then None else Some(timeLeft)
    {
      var duration := now - mWakelockTimeoutStartTime;
      didTimeout, timeLeft := duration > kWakelockTimeoutNs, 0;
      if !didTimeout {
        timeLeft := kWakelockTimeoutNs - duration;
      }
    }

    /** The wakelock thread when no other thread touches the wakelock: it goes
        through the given rounds, waiting while the count is zero, until somebody
        stops the threads, and then resets. By then the threads are stopped, so
        that reset gives nothing up. */
    method HandleWakelocks(rounds: seq<Round>, end: int)
      modifies `mThreadsRun, `mWakelockRefCount, `kernelWakelockHeld, `mWakelockTimeoutResetTime
      ensures !mThreadsRun
      ensures Lock() == (if old(mThreadsRun) then KeepRounds(old(Lock()), kWakelockTimeoutNs, rounds)
                         else old(Lock())).(timeoutReset := end)
    {
      var i := 0;
      while mThreadsRun
        invariant 0 <= i <= |rounds| && (old(mThreadsRun) ==> i == |rounds| || mThreadsRun)
        invariant Lock() == KeepRounds(old(Lock()), kWakelockTimeoutNs, rounds[..i])
        invariant !old(mThreadsRun) ==> i == 0
        decreases |rounds| - i, mThreadsRun
      {
        if i == |rounds| {
          mThreadsRun := false;
        } else {
          assert rounds[..i + 1][..i] == rounds[..i];
          if mWakelockRefCount > 0 {
            var didTimeout, timeLeft := SharedWakelockDidTimeout(rounds[i].now);
            if didTimeout {
              ResetSharedWakelock(rounds[i].later);
            } else if rounds[i].ack.Some? {
              DecrementRefCountAndMaybeReleaseWakelock(rounds[i].ack.value, NO_TIMESTAMP);
            }
          }
          i := i + 1;
        }
      }
      assert rounds[..|rounds|] == rounds;
      ResetSharedWakelock(end);
    }

    // ----------------------------------------------------------------- posting

    method WriteDirectly(events: seq<Event>, accepted: bool) returns (numToWrite: nat)
      requires |mEventQueue| <= mQuantumCount
      modifies `mEventQueue
      ensures numToWrite == if accepted then Min(|events|, mQuantumCount - |old(mEventQueue)|) else 0
      ensures mEventQueue == old(mEventQueue) + events[..numToWrite]
    {
      numToWrite := Min(|events|, mQuantumCount - |mEventQueue|);
      if numToWrite > 0 {
        if accepted {
          mEventQueue := mEventQueue + events[..numToWrite];
        } else {
          numToWrite := 0;
        }
      }
    }

    /** What postEventsToMessageQueue does to the queues. */
    method WriteOrQueue(events: seq<Event>, numWakeupEvents: nat, accepted: bool)
      requires Valid()
      modifies `mEventQueue, `mPendingWriteEventsQueue, `mSizePendingWriteEventsQueue,
               `mMostEventsObservedPendingWriteEventsQueue
      ensures Valid()
      ensures Queues() == Post(old(Queues()), kMaxSizePendingWriteEventsQueue, events, numWakeupEvents, accepted)
    {
      hide Flatten;
      ghost var before := Queues();
      var numToWrite := 0;
      if mPendingWriteEventsQueue == [] {
        numToWrite := WriteDirectly(events, accepted);
      }
      assert mEventQueue == before.messages + events[..numToWrite];
      assert numToWrite == DirectlyWritten(before, events, accepted);
      var numLeft := |events| - numToWrite;
      if numToWrite < |events| && mSizePendingWriteEventsQueue + numLeft <= kMaxSizePendingWriteEventsQueue {
        var eventsLeft := events[numToWrite..];
        mPendingWriteEventsQueue := mPendingWriteEventsQueue + [Batch(eventsLeft, numWakeupEvents)];
        mSizePendingWriteEventsQueue := mSizePendingWriteEventsQueue + numLeft;
        mMostEventsObservedPendingWriteEventsQueue :=
          Max(mMostEventsObservedPendingWriteEventsQueue, mSizePendingWriteEventsQueue);
      }
      assert Queues() == Post(before, kMaxSizePendingWriteEventsQueue, events, numWakeupEvents, accepted);
      PostAccounted(before, kMaxSizePendingWriteEventsQueue, events, numWakeupEvents, accepted);
    }

    method PostEventsToMessageQueue(events: seq<Event>, numWakeupEvents: nat, locked: bool, accepted: bool, now: int)
      requires Valid()
      modifies `mEventQueue, `mPendingWriteEventsQueue, `mSizePendingWriteEventsQueue,
               `mMostEventsObservedPendingWriteEventsQueue,
               `mWakelockRefCount, `mWakelockTimeoutStartTime, `kernelWakelockHeld
      ensures Valid()
      ensures Queues() == Post(old(Queues()), kMaxSizePendingWriteEventsQueue, events, numWakeupEvents, accepted)
      ensures Lock() == if locked then Increment(old(Lock()), mThreadsRun, numWakeupEvents, now) else old(Lock())
      ensures numWakeupEvents == CountWakeups(WakeUpHandles(mSensors), events) ==>
                MadePost(Parameters(), old(View()), events, locked, accepted, now, View())
    {
      hide Accounted;
      hide Post;
      hide Made;
      hide MadePost;
      if locked {
        var _, _ := IncrementRefCountAndMaybeAcquireWakelock(numWakeupEvents, now);
      }
      WriteOrQueue(events, numWakeupEvents, accepted);
      if numWakeupEvents == CountWakeups(WakeUpHandles(mSensors), events) {
        PostIsMade(Parameters(), old(View()), events, locked, accepted, now, View());
      }
    }

    /** HalProxyCallbackBase::postEvents on behalf of one sub-HAL. */
    method PostEvents(events: seq<Event>, subHal: nat, locked: bool, accepted: bool, now: int)
      requires Valid()
      modifies this
      ensures Valid() && mThreadsRun == old(mThreadsRun) && mSensors == old(mSensors)
      ensures events == [] || !mThreadsRun ==> Queues() == old(Queues()) && Lock() == old(Lock())
      ensures events != [] && mThreadsRun ==>
                var tagged := TaggedAll(events, subHal);
                var wakeups := CountWakeups(WakeUpHandles(mSensors), tagged);
                && Queues() == Post(old(Queues()), kMaxSizePendingWriteEventsQueue, tagged, wakeups, accepted)
                && Lock() == (if locked then Increment(old(Lock()), true, wakeups, now) else old(Lock()))
                && MadePost(Parameters(), old(View()), tagged, locked, accepted, now, View())
    {
      if events == [] || !mThreadsRun {
        return;
      }
      var processedEvents, numWakeupEvents := ProcessEvents(mSensors, events, subHal);
      PostEventsToMessageQueue(processedEvents, numWakeupEvents, locked, accepted, now);
    }

    // ----------------------------------------------------------- pending writes

    /** Looking up a sensor that does not exist inserts one without flags, which
        changes nothing that is counted. */
    method CountNumWakeupEvents(events: seq<Event>, n: nat) returns (numWakeupEvents: nat)
      requires n <= |events|
      modifies `mSensors
      ensures numWakeupEvents == CountWakeups(WakeUpHandles(old(mSensors)), events[..n])
      ensures WakeUpHandles(mSensors) == WakeUpHandles(old(mSensors))
      ensures OnlyLookedUp(old(mSensors), mSensors)
      ensures forall g :: g in mSensors <==> g in old(mSensors) || exists i :: 0 <= i < n && events[i].sensorHandle == g
    {
      numWakeupEvents := 0;
      for i := 0 to n
        invariant numWakeupEvents == CountWakeups(WakeUpHandles(old(mSensors)), events[..i])
        invariant WakeUpHandles(mSensors) == WakeUpHandles(old(mSensors))
        invariant OnlyLookedUp(old(mSensors), mSensors)
        invariant forall g ::
                    g in mSensors <==> g in old(mSensors) || exists j :: 0 <= j < i && events[j].sensorHandle == g
      {
        var sensorHandle := events[i].sensorHandle;
        if sensorHandle !in mSensors {
          mSensors := mSensors[sensorHandle := NO_SENSOR];
        }
        if IsWakeUp(mSensors[sensorHandle].flags) {
          numWakeupEvents := numWakeupEvents + 1;
        }
        assert events[..i + 1][..i] == events[..i];
        assert IsWakeUp(mSensors[sensorHandle].flags) <==> sensorHandle in WakeUpHandles(mSensors);
      }
    }

    /** The blocking write of a chunk: while it waits the framework may read
        anything and somebody may stop the threads, and it writes either the
        whole chunk or nothing. */
    method WriteBlocking(chunk: seq<Event>, stopping: bool) returns (success: bool)
      requires |mEventQueue| <= mQuantumCount
      modifies `mThreadsRun, `mEventQueue
      ensures mThreadsRun == (old(mThreadsRun) && !stopping)
      ensures |mEventQueue| <= mQuantumCount
      ensures exists read :: 0 <= read <= |old(mEventQueue)| &&
                             mEventQueue == old(mEventQueue)[read..] + (if success then chunk else [])
    {
      var read :| 0 <= read <= |mEventQueue|;
      ghost var before := mEventQueue;
      mEventQueue := mEventQueue[read..];
      assert mEventQueue == before[read..] + [];
      mThreadsRun := mThreadsRun && !stopping;
      success := *;
      if |mEventQueue| + |chunk| > mQuantumCount {
        success := false;
      }
      if success {
        mEventQueue := mEventQueue + chunk;
      }
    }

    method RetireChunk(eventQueueSize: nat, numWakeupEvents: nat)
      requires mPendingWriteEventsQueue != []
      modifies `mSensors, `mWakelockRefCount, `kernelWakelockHeld
      ensures WakeUpHandles(mSensors) == WakeUpHandles(old(mSensors)) && OnlyLookedUp(old(mSensors), mSensors)
      ensures forall n ::
                var writer := M.WriteFailed(n, eventQueueSize, numWakeupEvents);
                MadeByWriter(Parameters(), writer, old(View()), M.RetireChunk, View())
      ensures var front := Batch(mPendingWriteEventsQueue[0].events, numWakeupEvents);
              var retired := RetiredRefs(WakeUpHandles(old(mSensors)), front, eventQueueSize);
              Lock() == if numWakeupEvents > 0 then Decrement(old(Lock()), mThreadsRun, retired, NO_TIMESTAMP)
                        else old(Lock())
    {
      if numWakeupEvents > 0 {
        var pendingWriteEvents := mPendingWriteEventsQueue[0].events;
        if |pendingWriteEvents| > eventQueueSize {
          var n := CountNumWakeupEvents(pendingWriteEvents, eventQueueSize);
          DecrementRefCountAndMaybeReleaseWakelock(n, NO_TIMESTAMP);
        } else {
          DecrementRefCountAndMaybeReleaseWakelock(numWakeupEvents, NO_TIMESTAMP);
        }
      }
      RetirementIsMade(Parameters(), old(View()), eventQueueSize, numWakeupEvents, View());
    }

    method FinishChunk(numToWrite: nat, eventQueueSize: nat)
      requires Valid() && mPendingWriteEventsQueue != []
      requires numToWrite == ChunkLength(Queues()) && eventQueueSize == mQuantumCount
      modifies `mPendingWriteEventsQueue, `mSizePendingWriteEventsQueue
      ensures numToWrite <= old(mSizePendingWriteEventsQueue)
      ensures Queues() == RemoveChunk(old(Queues()), numToWrite, eventQueueSize)
      ensures MadeByWriter(Parameters(), M.WriteDone(numToWrite, eventQueueSize), old(View()), M.FinishChunk,
                           View())
      ensures Valid() && Flatten(mPendingWriteEventsQueue) == Flatten(old(mPendingWriteEventsQueue))[numToWrite..]
    {
      RemoveChunkAccounted(Queues(), kMaxSizePendingWriteEventsQueue);
      mSizePendingWriteEventsQueue := mSizePendingWriteEventsQueue - numToWrite;
      var front := mPendingWriteEventsQueue[0];
      if |front.events| > eventQueueSize {
        mPendingWriteEventsQueue := [front.(events := front.events[eventQueueSize..])] + mPendingWriteEventsQueue[1..];
      } else {
        mPendingWriteEventsQueue := mPendingWriteEventsQueue[1..];
      }
    }

    /** One iteration of the pending-writes thread, when nobody posts meanwhile.
        If the threads are stopped during the write, a failure retires nothing. */
    method WritePendingChunk(stopping: bool) returns (attempt: Attempt)
      requires Valid() && mPendingWriteEventsQueue != [] && mQuantumCount > 0
      modifies `mThreadsRun, `mSensors, `mEventQueue, `mPendingWriteEventsQueue, `mSizePendingWriteEventsQueue,
               `mWakelockRefCount, `kernelWakelockHeld
      ensures mThreadsRun == attempt.running == (old(mThreadsRun) && !stopping)
      ensures Valid() && Took(old(mPendingWriteEventsQueue), [attempt.chunk], mPendingWriteEventsQueue, mQuantumCount)
      ensures Went(old(Queues()), old(Lock()), WakeUpHandles(old(mSensors)), [attempt], Queues(), Lock())
      ensures WakeUpHandles(mSensors) == WakeUpHandles(old(mSensors)) && OnlyLookedUp(old(mSensors), mSensors)
    {
      hide Took;
      hide Flatten;
      var pendingWriteEvents := mPendingWriteEventsQueue[0].events;
      var numWakeupEvents := mPendingWriteEventsQueue[0].wakeCount;
      var eventQueueSize := mQuantumCount;
      var numToWrite := Min(|pendingWriteEvents|, eventQueueSize);
      var chunk := pendingWriteEvents[..numToWrite];
      TookFront(Queues(), kMaxSizePendingWriteEventsQueue);
      var success := WriteBlocking(chunk, stopping);
      attempt := Attempt(mPendingWriteEventsQueue[0], chunk, success, mThreadsRun);
      if !success {
        RetireChunk(eventQueueSize, numWakeupEvents);
      }
      FinishChunk(numToWrite, eventQueueSize);
      WentOnce(old(Queues()), old(Lock()), WakeUpHandles(old(mSensors)), attempt, Queues(), Lock());
    }

    /** The pending-writes thread when nobody posts meanwhile and the threads are
        stopped in or after iteration number limit, or while it waits for more:
        one iteration for every chunk until then, no chunk larger than the message
        queue; the chunks are the front of the pending events, in order, what is
        left is left as it was, and the wakelock has lost what the failed chunks
        retire. */
    method HandlePendingWrites(limit: nat) returns (attempts: seq<Attempt>)
      requires Valid() && mThreadsRun && mQuantumCount > 0
      modifies `mThreadsRun, `mSensors, `mEventQueue, `mPendingWriteEventsQueue, `mSizePendingWriteEventsQueue,
               `mWakelockRefCount, `kernelWakelockHeld
      ensures Valid() && !mThreadsRun
      ensures |attempts| == Min(limit, Chunks(old(mPendingWriteEventsQueue), mQuantumCount))
      ensures Took(old(mPendingWriteEventsQueue), ChunksOf(attempts), mPendingWriteEventsQueue, mQuantumCount)
      ensures |attempts| < limit ==> mPendingWriteEventsQueue == []
      ensures Went(old(Queues()), old(Lock()), WakeUpHandles(old(mSensors)), attempts, Queues(), Lock())
      ensures forall i :: 0 <= i < |attempts| - 1 ==> attempts[i].running
      ensures WakeUpHandles(mSensors) == WakeUpHandles(old(mSensors)) && OnlyLookedUp(old(mSensors), mSensors)
    {
      hide Took;
      hide Went;
      hide Flatten;
      hide Chunks;
      attempts := [];
      TookNothing(mPendingWriteEventsQueue, mQuantumCount);
      WentNowhere(Queues(), Lock(), WakeUpHandles(mSensors));
      while mThreadsRun
        invariant Valid() && |attempts| <= limit
        invariant !mThreadsRun ==> |attempts| == limit || mPendingWriteEventsQueue == []
        invariant Took(old(mPendingWriteEventsQueue), ChunksOf(attempts), mPendingWriteEventsQueue, mQuantumCount)
        invariant Went(old(Queues()), old(Lock()), WakeUpHandles(old(mSensors)), attempts, Queues(), Lock())
        invariant forall i :: 0 <= i < |attempts| && (mThreadsRun || i < |attempts| - 1) ==> attempts[i].running
        invariant WakeUpHandles(mSensors) == WakeUpHandles(old(mSensors)) && OnlyLookedUp(old(mSensors), mSensors)
        decreases limit - |attempts|, mThreadsRun
      {
        if |attempts| == limit || mPendingWriteEventsQueue == [] {
          mThreadsRun := false;
        } else {
          var stopping := *;
          ghost var queues, lock := Queues(), Lock();
          var attempt := WritePendingChunk(stopping && |attempts| + 1 == limit);
          TookOneMore(old(mPendingWriteEventsQueue), ChunksOf(attempts), queues.pending, attempt.chunk,
                      mPendingWriteEventsQueue, mQuantumCount);
          ChunksOneMore(attempts, attempt);
          WentOneMore(old(Queues()), old(Lock()), WakeUpHandles(old(mSensors)), attempts, queues, lock, attempt,
                      Queues(), Lock());
          attempts := attempts + [attempt];
        }
      }
      TookAll(old(mPendingWriteEventsQueue), ChunksOf(attempts), mPendingWriteEventsQueue, mQuantumCount);
    }

    // ------------------------------------------------------- stopping, starting

    method StopThreads()
      modifies `mThreadsRun, `mEventQueue
      ensures !mThreadsRun && mEventQueue == []
      ensures MadeStop(Parameters(), old(View()), View())
    {
      mThreadsRun := false;
      mEventQueue := [];
      StopIsMade(Parameters(), old(View()));
    }

    /** Initialises the sub-HALs in turn, all of them even if some fail. */
    method InitializeSubHals(results: seq<Result>, before: Result) returns (result: Result)
      ensures result == LastFailure(results, before)
    {
      result := before;
      for i := 0 to |results|
        invariant result == LastFailure(results[..i], before)
      {
        assert results[..i + 1][..i] == results[..i];
        if results[i] != OK {
          result := results[i];
        }
      }
      assert results[..|results|] == results;
    }

    /** initializeCommon, once the two threads have been joined. The count
        survives it: only the reset time moves. What it returns is the last
        failure: of creating what it needs, or of a sub-HAL. */
    method InitializeCommon(quantum: nat, now: int, usable: bool, results: seq<Result>) returns (result: Result)
      modifies `mThreadsRun, `mEventQueue, `mQuantumCount, `mPendingWriteEventsQueue,
               `mSizePendingWriteEventsQueue, `mWakelockRefCount, `kernelWakelockHeld, `mWakelockTimeoutResetTime
      ensures mThreadsRun && Valid()
      ensures Queues() == Queue([], quantum, [], 0, old(mMostEventsObservedPendingWriteEventsQueue))
      ensures Lock() == old(Lock()).(timeoutReset := now)
      ensures Made(Parameters(), old(View()), M.Initialize(now, quantum), View())
      ensures result == LastFailure(results, if usable then OK else BAD_VALUE)
    {
      hide Made;
      hide MadeStop;
      StopThreads();
      ResetSharedWakelock(now);
      mPendingWriteEventsQueue, mSizePendingWriteEventsQueue := [], 0;
      mEventQueue, mQuantumCount := [], quantum;
      mThreadsRun := true;
      result := InitializeSubHals(results, if usable then OK else BAD_VALUE);
      InitializationIsMade(Parameters(), old(View()), quantum, now, View());
    }
  }
}
