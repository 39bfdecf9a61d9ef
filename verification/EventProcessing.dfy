/** What the proxy does to the events a sub-HAL posts before queueing them. */
module EventProcessing {
  import opened Handles
  import opened SensorRegistry
  import opened Wrappers

  const DYNAMIC_SENSOR_META := 32

  datatype Event = Event(sensorHandle: Handle, sensorType: int, dynamicHandle: Handle, payload: int)

  // ---------------------------------------------------------- wake-up counting

  /** The handles whose sensors carry the wake-up flag. A handle without a
      sensor has no flags. */
  function WakeUpHandles(sensors: map<Handle, SensorInfo>): set<Handle> {
    set g | g in sensors && IsWakeUp(sensors[g].flags)
  }

  function CountWakeups(wake: set<Handle>, events: seq<Event>): nat {
    if events == [] then 0
    else CountWakeups(wake, events[..|events| - 1]) + (if events[|events| - 1].sensorHandle in wake then 1 else 0)
  }

  lemma {:induction false} CountWakeupsConcat(wake: set<Handle>, a: seq<Event>, b: seq<Event>)
    ensures CountWakeups(wake, a + b) == CountWakeups(wake, a) + CountWakeups(wake, b)
  {
    if b == [] {
      assert a + b == a;
    } else {
      var n := |b| - 1;
      CountWakeupsConcat(wake, a, b[..n]);
      assert (a + b)[..|a + b| - 1] == a + b[..n];
    }
  }

  lemma CountWakeupsSplit(wake: set<Handle>, events: seq<Event>, n: nat)
    requires n <= |events|
    ensures CountWakeups(wake, events) == CountWakeups(wake, events[..n]) + CountWakeups(wake, events[n..])
  {
    CountWakeupsConcat(wake, events[..n], events[n..]);
    assert events[..n] + events[n..] == events;
  }

  /** The positions of the wake-up events. */
  function WakeupPositions(wake: set<Handle>, events: seq<Event>): set<nat> {
    set k: nat | k < |events| && events[k].sensorHandle in wake
  }

  /** The count is the number of positions whose handle is that of a wake-up sensor. */
  lemma {:induction false} CountIsNumber(wake: set<Handle>, events: seq<Event>)
    ensures CountWakeups(wake, events) == |WakeupPositions(wake, events)|
  {
    if events != [] {
      var n := |events| - 1;
      var before := WakeupPositions(wake, events[..n]);
      CountIsNumber(wake, events[..n]);
      assert WakeupPositions(wake, events) == if events[n].sensorHandle in wake then before + {n} else before;
    }
  }

  /** A wake-up sensor is a stored one with flag bit 0. */
  lemma WakeUpHandlesExactly(sensors: map<Handle, SensorInfo>, g: Handle)
    ensures g in WakeUpHandles(sensors) <==> g in sensors && 0 in sensors[g].flags
  {
    if g in sensors {
      FlagBits(sensors[g].flags, 0);
    }
  }

  // ------------------------------------------------------------------- tagging

  function Tagged(e: Event, subHal: nat): Event {
    var tagged := e.(sensorHandle := SetSubHalIndex(e.sensorHandle, subHal));
    if e.sensorType == DYNAMIC_SENSOR_META
    then tagged.(dynamicHandle := SetSubHalIndex(e.dynamicHandle, subHal))
    else tagged
  }

  function TaggedAll(events: seq<Event>, subHal: nat): seq<Event> {
    seq(|events|, k requires 0 <= k < |events| => Tagged(events[k], subHal))
  }

  method ProcessEvents(sensors: map<Handle, SensorInfo>, events: seq<Event>, subHal: nat)
    returns (eventsOut: seq<Event>, numWakeupEvents: nat)
    ensures eventsOut == TaggedAll(events, subHal)
    ensures numWakeupEvents == CountWakeups(WakeUpHandles(sensors), eventsOut)
  {
    numWakeupEvents, eventsOut := 0, [];
    for k := 0 to |events|
      invariant eventsOut == TaggedAll(events[..k], subHal)
      invariant numWakeupEvents == CountWakeups(WakeUpHandles(sensors), eventsOut)
    {
      var event := events[k];
      event := event.(sensorHandle := SetSubHalIndex(event.sensorHandle, subHal));
      if event.sensorType == DYNAMIC_SENSOR_META {
        event := event.(dynamicHandle := SetSubHalIndex(event.dynamicHandle, subHal));
      }
      ghost var before := eventsOut;
      eventsOut := eventsOut + [event];
      assert eventsOut[..|eventsOut| - 1] == before;
      if event.sensorHandle in sensors && IsWakeUp(sensors[event.sensorHandle].flags) {
        numWakeupEvents := numWakeupEvents + 1;
      }
    }
    assert events[..|events|] == events;
  }

  /** Event by event: the sensor's handle gets the index, so does the handle in a
      dynamic-sensor event and in no other, and nothing else changes. For
      well-formed handles the tag is a sum. */
  lemma TaggedFields(events: seq<Event>, subHal: nat, k: nat)
    requires k < |events|
    ensures |TaggedAll(events, subHal)| == |events|
    ensures var e, tagged := events[k], TaggedAll(events, subHal)[k];
            && tagged.sensorType == e.sensorType && tagged.payload == e.payload
            && tagged.sensorHandle == SetSubHalIndex(e.sensorHandle, subHal)
            && tagged.dynamicHandle ==
               (if e.sensorType == 32 then SetSubHalIndex(e.dynamicHandle, subHal) else e.dynamicHandle)
            && (0 <= e.sensorHandle < 0x100_0000 && subHal < 128 ==>
                  tagged.sensorHandle == subHal * 0x100_0000 + e.sensorHandle)
            && (0 <= e.dynamicHandle < 0x100_0000 && subHal < 128 && e.sensorType == 32 ==>
                  tagged.dynamicHandle == subHal * 0x100_0000 + e.dynamicHandle)
  {
    var e := events[k];
    if 0 <= e.sensorHandle < 0x100_0000 {
      TagIsNumber(e.sensorHandle, subHal);
    }
    if 0 <= e.dynamicHandle < 0x100_0000 {
      TagIsNumber(e.dynamicHandle, subHal);
    }
  }

  /** An event that sub-HAL i posts for its own local handle h is counted as a
      wake-up event exactly when the sensor that i itself last reported under h
      is a wake-up sensor, whatever the other sub-HALs reported and whether or
      not i owns the direct channel; and a request made with the handle in the
      event goes back to i and h. */
  lemma EventCountsAsItsReporterSaid(lists: seq<seq<SensorInfo>>, r: Report, e: Event)
    requires |lists| <= 128 && r in AllReports(lists) && r.Accepted()
    requires e.sensorHandle == r.sensor.sensorHandle
    ensures var g := Tagged(e, r.subHal).sensorHandle;
            && Dispatch(g, |lists|) == Some((r.subHal, e.sensorHandle))
            && var last := LastReport(AllReports(lists), g);
            && last.Some?
            && last.value.subHal == r.subHal && last.value.sensor.sensorHandle == e.sensorHandle
            && (g in WakeUpHandles(Load(AllReports(lists)).sensors) <==> IsWakeUp(last.value.sensor.flags))
  {
    ReportIsRouted(lists, r);
    var last := LastReport(AllReports(lists), r.Key()).value;
    WithoutDirectChannelClears(last.sensor.flags);
  }
}
