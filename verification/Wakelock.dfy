/** The shared wakelock: a reference count that decides when the kernel's
    wakelock is held, and the two time stamps that let it time out. */
module Wakelocks {
  import opened Wrappers

  /** A time stamp that stands for `no time stamp` in a decrement. */
  const NO_TIMESTAMP := -1

  datatype Wakelock = Wakelock(
    refCount: nat,
    timeoutStart: int,
    timeoutReset: int,
    kernelHeld: bool)

  function Increment(w: Wakelock, running: bool, delta: nat, now: int): Wakelock {
    if !running then w
    else Wakelock(w.refCount + delta, now, w.timeoutReset, w.kernelHeld || w.refCount == 0)
  }

  /** A decrement that carries the time stamp of a token from before the last
      reset is stale, and ignored. */
  function Decrement(w: Wakelock, running: bool, delta: nat, timestamp: int): Wakelock {
    var t := if timestamp == NO_TIMESTAMP then w.timeoutReset else timestamp;
    if !running || w.refCount == 0 || t < w.timeoutReset then w
    else if delta < w.refCount then w.(refCount := w.refCount - delta)
    else w.(refCount := 0, kernelHeld := false)
  }

  /** Gives up every reference. While the threads are stopped only the reset
      time moves. */
  function Reset(w: Wakelock, running: bool, now: int): Wakelock {
    Decrement(w, running, w.refCount, NO_TIMESTAMP).(timeoutReset := now)
  }

  /** How long the wakelock may still be held, unless it has timed out. */
  function TimeLeft(w: Wakelock, timeout: nat, now: int): Option<int> {
    if now - w.timeoutStart > timeout then None else Some(timeout - (now - w.timeoutStart))
  }

  /** The kernel is asked to take its wakelock only when the count leaves zero, and
      to give it up only when the count reaches zero. */
  lemma KernelMovesAtZero(w: Wakelock, running: bool, delta: nat, now: int, timestamp: int)
    ensures var up := Increment(w, running, delta, now);
            up.kernelHeld != w.kernelHeld <==> running && w.refCount == 0 && !w.kernelHeld
    ensures var down := Decrement(w, running, delta, timestamp);
            down.kernelHeld != w.kernelHeld <==>
              && running && w.kernelHeld && w.refCount > 0 && down.refCount == 0
              && (timestamp == NO_TIMESTAMP || timestamp >= w.timeoutReset)
  {}
}
