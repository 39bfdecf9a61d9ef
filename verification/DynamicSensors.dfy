/** Sensors that come and go while the proxy runs. */
module DynamicSensors {
  import opened Handles
  import opened SensorRegistry

  type SensorMap = map<Handle, SensorInfo>

  /** What the framework is told. */
  datatype Callback = Connected(sensors: seq<SensorInfo>) | Disconnected(handles: seq<Handle>)

  // ------------------------------------------------------- specification functions

  /** The sensors of one sub-HAL's announcement that the proxy accepts, tagged. */
  function Announced(added: seq<SensorInfo>, subHal: nat): seq<SensorInfo> {
    if added == [] then []
    else
      var n := |added| - 1;
      var rest, s := Announced(added[..n], subHal), added[n];
      if !SubHalIndexIsClear(s.sensorHandle) then rest
      else rest + [s.(sensorHandle := SetSubHalIndex(s.sensorHandle, subHal))]
  }

  function Insert(m: SensorMap, sensors: seq<SensorInfo>): SensorMap {
    if sensors == [] then m
    else
      var n := |sensors| - 1;
      Insert(m, sensors[..n])[sensors[n].sensorHandle := sensors[n]]
  }

  /** The handles that one sub-HAL's withdrawal really removes from m, tagged. */
  function Withdrawn(m: SensorMap, removed: seq<Handle>, subHal: nat): seq<Handle> {
    if removed == [] then []
    else
      var n := |removed| - 1;
      var rest, h := Withdrawn(m, removed[..n], subHal), removed[n];
      if !SubHalIndexIsClear(h) then rest
      else
        var g := SetSubHalIndex(h, subHal);
        if g in Delete(m, rest) then rest + [g] else rest
  }

  function Delete(m: SensorMap, handles: seq<Handle>): SensorMap {
    m - set g | g in handles
  }

  function Deliver(m: SensorMap, c: Callback): SensorMap {
    match c
    case Connected(sensors) => Insert(m, sensors)
    case Disconnected(handles) => Delete(m, handles)
  }

  /** The sensors a framework knows about that has seen the given callbacks. */
  function Replay(callbacks: seq<Callback>): SensorMap {
    if callbacks == [] then map[]
    else Deliver(Replay(callbacks[..|callbacks| - 1]), callbacks[|callbacks| - 1])
  }

  datatype Op =
    | Connect(added: seq<SensorInfo>, subHal: nat)
    | Disconnect(removed: seq<Handle>, subHal: nat)
    | Initialize

  datatype Table = Table(sensors: SensorMap, callbacks: seq<Callback>)

  function Perform(t: Table, op: Op): Table {
    match op
    case Connect(added, i) =>
      Table(Insert(t.sensors, Announced(added, i)), t.callbacks + [Connected(Announced(added, i))])
    case Disconnect(removed, i) =>
      var gone := Withdrawn(t.sensors, removed, i);
      Table(Delete(t.sensors, gone), t.callbacks + [Disconnected(gone)])
    case Initialize => Table(map[], [])
  }

  // -------------------------------------------------------------- the proxy's part

  class DynamicSensorTable {
    var mDynamicSensors: SensorMap
    /** Every callback made to the framework since it was registered. */
    var callbacks: seq<Callback>

    ghost function View(): Table
      reads this
    {
      Table(mDynamicSensors, callbacks)
    }

    /** The framework's picture is the proxy's, and every sensor knows its own key. */
    ghost predicate Valid()
      reads this
    {
      && mDynamicSensors == Replay(callbacks)
      && forall g :: g in mDynamicSensors ==> mDynamicSensors[g].sensorHandle == g
    }

    constructor ()
      ensures Valid() && View() == Table(map[], [])
    {
      mDynamicSensors, callbacks := map[], [];
    }

    /** The part of initializeCommon that installs a new framework callback. */
    method Reset()
      modifies this
      ensures Valid() && View() == Perform(old(View()), Initialize) == Table(map[], [])
    {
      mDynamicSensors, callbacks := map[], [];
    }

    method OnDynamicSensorsConnected(added: seq<SensorInfo>, subHal: nat)
      requires Valid()
      modifies this
      ensures Valid()
      ensures View() == Perform(old(View()), Connect(added, subHal))
    {
      var sensors: seq<SensorInfo> := [];
      for k := 0 to |added|
        invariant sensors == Announced(added[..k], subHal)
        invariant mDynamicSensors == Insert(old(mDynamicSensors), sensors)
        invariant forall g :: g in mDynamicSensors ==> mDynamicSensors[g].sensorHandle == g
        invariant callbacks == old(callbacks)
      {
        assert added[..k + 1][..k] == added[..k];
        var sensor := added[k];
        if SubHalIndexIsClear(sensor.sensorHandle) {
          sensor := sensor.(sensorHandle := SetSubHalIndex(sensor.sensorHandle, subHal));
          mDynamicSensors := mDynamicSensors[sensor.sensorHandle := sensor];
          assert (sensors + [sensor])[..|sensors|] == sensors;
          sensors := sensors + [sensor];
        }
      }
      assert added[..|added|] == added;
      callbacks := callbacks + [Connected(sensors)];
    }

    method OnDynamicSensorsDisconnected(removed: seq<Handle>, subHal: nat)
      requires Valid()
      modifies this
      ensures Valid()
      ensures View() == Perform(old(View()), Disconnect(removed, subHal))
    {
      var sensorHandles: seq<Handle> := [];
      for k := 0 to |removed|
        invariant sensorHandles == Withdrawn(old(mDynamicSensors), removed[..k], subHal)
        invariant mDynamicSensors == Delete(old(mDynamicSensors), sensorHandles)
        invariant callbacks == old(callbacks)
      {
        assert removed[..k + 1][..k] == removed[..k];
        var sensorHandle := removed[k];
        if SubHalIndexIsClear(sensorHandle) {
          sensorHandle := SetSubHalIndex(sensorHandle, subHal);
          if sensorHandle in mDynamicSensors {
            mDynamicSensors := mDynamicSensors - {sensorHandle};
            sensorHandles := sensorHandles + [sensorHandle];
          }
        }
      }
      assert removed[..|removed|] == removed;
      callbacks := callbacks + [Disconnected(sensorHandles)];
    }
  }

  // ------------------------------------------------------------------ whole runs

  function PerformAll(ops: seq<Op>): Table {
    if ops == [] then Table(map[], [])
    else Perform(PerformAll(ops[..|ops| - 1]), ops[|ops| - 1])
  }

  lemma {:induction false} InsertKeepsKeys(m: SensorMap, sensors: seq<SensorInfo>)
    ensures forall g :: g in m ==> g in Insert(m, sensors)
    ensures forall g :: g in Insert(m, sensors) ==>
              g in m || exists k :: 0 <= k < |sensors| && sensors[k].sensorHandle == g
    ensures (forall g :: g in m ==> m[g].sensorHandle == g) ==>
              forall g :: g in Insert(m, sensors) ==> Insert(m, sensors)[g].sensorHandle == g
  {
    if sensors != [] {
      InsertKeepsKeys(m, sensors[..|sensors| - 1]);
    }
  }

  /** After any sequence of announcements, withdrawals and re-initialisations,
      however many duplicate or malformed handles they carry, replaying what the
      framework was told since the last initialisation gives exactly the proxy's
      own table, and every entry's handle is its key. */
  lemma {:induction false} FrameworkAgrees(ops: seq<Op>)
    ensures var t := PerformAll(ops);
            && Replay(t.callbacks) == t.sensors
            && forall g :: g in t.sensors ==> t.sensors[g].sensorHandle == g
  {
    if ops != [] {
      var before, t := PerformAll(ops[..|ops| - 1]), PerformAll(ops);
      FrameworkAgrees(ops[..|ops| - 1]);
      match ops[|ops| - 1] {
        case Connect(added, i) =>
          InsertKeepsKeys(before.sensors, Announced(added, i));
          assert t.callbacks[..|t.callbacks| - 1] == before.callbacks;
        case Disconnect(removed, i) =>
          assert t.callbacks[..|t.callbacks| - 1] == before.callbacks;
        case Initialize =>
      }
    }
  }

  /** A withdrawal names to the framework exactly the sensors that were in the
      table, belong to the withdrawing sub-HAL and were asked for; each once. */
  lemma {:induction false} WithdrawalIsExact(m: SensorMap, removed: seq<Handle>, i: nat)
    ensures var gone := Withdrawn(m, removed, i);
            && (forall g :: g in gone <==>
                  g in m && exists h :: h in removed && SubHalIndexIsClear(h) && SetSubHalIndex(h, i) == g)
            && (forall j, k :: 0 <= j < k < |gone| ==> gone[j] != gone[k])
  {
    if removed != [] {
      var n := |removed| - 1;
      WithdrawalIsExact(m, removed[..n], i);
      assert removed == removed[..n] + [removed[n]];
    }
  }

  /** A sub-HAL's withdrawal leaves every sensor whose top byte is not its own. */
  lemma WithdrawalSparesOthers(m: SensorMap, removed: seq<Handle>, i: nat, g: Handle)
    requires g in m && TopByte(g) != i % 256
    ensures var after := Delete(m, Withdrawn(m, removed, i)); g in after && after[g] == m[g]
  {
    WithdrawalIsExact(m, removed, i);
    forall h | h in removed && SubHalIndexIsClear(h)
      ensures SetSubHalIndex(h, i) != g
    {
      TaggedParts(h, i);
    }
  }

  /** The same for announcements: they neither remove nor overwrite another
      sub-HAL's sensor. */
  lemma {:induction false} AnnouncementSparesOthers(m: SensorMap, added: seq<SensorInfo>, i: nat, g: Handle)
    requires TopByte(g) != i % 256
    ensures var after := Insert(m, Announced(added, i));
            (g in after <==> g in m) && (g in m ==> after[g] == m[g])
  {
    if added != [] {
      var n := |added| - 1;
      AnnouncementSparesOthers(m, added[..n], i, g);
      if SubHalIndexIsClear(added[n].sensorHandle) {
        TaggedParts(added[n].sensorHandle, i);
        var sensors := Announced(added, i);
        assert sensors[..|sensors| - 1] == Announced(added[..n], i);
      }
    }
  }

  // ---------------------------------------------------------- one call, exactly

  predicate WellFormed(s: SensorInfo) {
    0 <= s.sensorHandle < 0x100_0000
  }

  /** What an announced sensor is stored and reported as. */
  function Stored(s: SensorInfo, i: nat): SensorInfo {
    s.(sensorHandle := SetSubHalIndex(s.sensorHandle, i))
  }

  /** The sensors of a callback are the well-formed ones of an announcement: from
      tells for each of them which one it is, in increasing order, and at where
      in the callback each well-formed one went. */
  ghost predicate AreReported(added: seq<SensorInfo>, i: nat, sensors: seq<SensorInfo>, from: seq<nat>, at: seq<nat>) {
    && |from| == |sensors| && |at| == |added|
    && (forall j :: 0 <= j < |from| ==>
          from[j] < |added| && WellFormed(added[from[j]]) && sensors[j] == Stored(added[from[j]], i))
    && (forall j, k :: 0 <= j < k < |from| ==> from[j] < from[k])
    && (forall p :: 0 <= p < |added| && WellFormed(added[p]) ==> at[p] < |from| && from[at[p]] == p)
  }

  lemma ReportsOneMore(added: seq<SensorInfo>, i: nat, s: SensorInfo, sensors: seq<SensorInfo>, from: seq<nat>,
                       at: seq<nat>)
    requires AreReported(added, i, sensors, from, at)
    ensures WellFormed(s) ==>
              AreReported(added + [s], i, sensors + [Stored(s, i)], from + [|added|], at + [|from|])
    ensures !WellFormed(s) ==> AreReported(added + [s], i, sensors, from, at + [0])
  {
    hide WellFormed;
    hide Stored;
  }

  /** The callback carries exactly the well-formed sensors of an announcement,
      tagged, in their order and with their repetitions. */
  lemma {:induction false} AnnouncementIsReported(t: Table, added: seq<SensorInfo>, i: nat)
    returns (sensors: seq<SensorInfo>, from: seq<nat>, at: seq<nat>)
    ensures Perform(t, Connect(added, i)).callbacks == t.callbacks + [Connected(sensors)]
    ensures AreReported(added, i, sensors, from, at)
  {
    if added == [] {
      sensors, from, at := [], [], [];
    } else {
      var n := |added| - 1;
      var s := added[n];
      sensors, from, at := AnnouncementIsReported(t, added[..n], i);
      assert (t.callbacks + [Connected(sensors)])[|t.callbacks|] == Connected(sensors);
      assert sensors == Announced(added[..n], i);
      ReportsOneMore(added[..n], i, s, sensors, from, at);
      PartsAreNumbers(s.sensorHandle);
      assert added == added[..n] + [s];
      hide AreReported;
      if WellFormed(s) {
        sensors, from, at := sensors + [Stored(s, i)], from + [n], at + [|from|];
      } else {
        at := at + [0];
      }
    }
  }

  /** What the last sensor of an announcement adds to the table. */
  lemma AnnouncesOneMore(t: Table, added: seq<SensorInfo>, i: nat)
    requires added != []
    ensures var n := |added| - 1;
            var before, s := Perform(t, Connect(added[..n], i)).sensors, added[n];
            Perform(t, Connect(added, i)).sensors ==
            if WellFormed(s) then before[Stored(s, i).sensorHandle := Stored(s, i)] else before
  {
    var n, sensors := |added| - 1, Announced(added, i);
    PartsAreNumbers(added[n].sensorHandle);
    if WellFormed(added[n]) {
      assert sensors[..|sensors| - 1] == Announced(added[..n], i);
    }
  }

  /** Announcement number k is the last well-formed one under the handle g. */
  ghost predicate IsLastFor(added: seq<SensorInfo>, i: nat, g: Handle, k: nat) {
    && k < |added| && WellFormed(added[k]) && Stored(added[k], i).sensorHandle == g
    && forall j :: k < j < |added| && WellFormed(added[j]) ==> Stored(added[j], i).sensorHandle != g
  }

  /** No well-formed sensor is announced under the handle g. */
  ghost predicate IsNotFor(added: seq<SensorInfo>, i: nat, g: Handle) {
    forall j :: 0 <= j < |added| && WellFormed(added[j]) ==> Stored(added[j], i).sensorHandle != g
  }

  /** The last well-formed sensor announced under g is stored there; if there is
      none, g has what it had. */
  ghost predicate IsStored(before: SensorMap, added: seq<SensorInfo>, i: nat, g: Handle, after: SensorMap) {
    && (forall k: nat :: IsLastFor(added, i, g, k) ==> g in after && after[g] == Stored(added[k], i))
    && (IsNotFor(added, i, g) ==> (g in after <==> g in before) && (g in before ==> after[g] == before[g]))
  }

  lemma LastForOneMore(added: seq<SensorInfo>, s: SensorInfo, i: nat, g: Handle)
    ensures forall k: nat :: IsLastFor(added + [s], i, g, k) ==>
              if WellFormed(s) && Stored(s, i).sensorHandle == g then k == |added|
              else k < |added| && IsLastFor(added, i, g, k)
    ensures IsNotFor(added + [s], i, g) ==> IsNotFor(added, i, g) && !(WellFormed(s) && Stored(s, i).sensorHandle == g)
  {
    hide WellFormed;
    hide Stored;
    var all := added + [s];
    assert all[|added|] == s && forall j :: 0 <= j < |added| ==> all[j] == added[j];
  }

  /** What the table has for g after one more sensor, if it is for g and if not. */
  lemma StoredLast(before: SensorMap, added: seq<SensorInfo>, s: SensorInfo, i: nat, g: Handle, after: SensorMap)
    requires WellFormed(s) && Stored(s, i).sensorHandle == g && g in after && after[g] == Stored(s, i)
    ensures IsStored(before, added + [s], i, g, after)
  {
    hide WellFormed;
    hide Stored;
    hide IsLastFor;
    hide IsNotFor;
    LastForOneMore(added, s, i, g);
    assert (added + [s])[|added|] == s;
  }

  lemma StoredEarlier(before: SensorMap, added: seq<SensorInfo>, s: SensorInfo, i: nat, g: Handle, after: SensorMap,
                      last: SensorMap)
    requires IsStored(before, added, i, g, after) && !(WellFormed(s) && Stored(s, i).sensorHandle == g)
    requires (g in last <==> g in after) && (g in after ==> last[g] == after[g])
    ensures IsStored(before, added + [s], i, g, last)
  {
    hide WellFormed;
    hide Stored;
    hide IsLastFor;
    hide IsNotFor;
    LastForOneMore(added, s, i, g);
    assert forall k :: 0 <= k < |added| ==> (added + [s])[k] == added[k];
  }

  lemma StoresOneMore(before: SensorMap, added: seq<SensorInfo>, s: SensorInfo, i: nat, g: Handle, after: SensorMap)
    requires IsStored(before, added, i, g, after)
    ensures IsStored(before, added + [s], i, g,
                     if WellFormed(s) then after[Stored(s, i).sensorHandle := Stored(s, i)] else after)
  {
    hide IsStored;
    hide WellFormed;
    hide Stored;
    var last := if WellFormed(s) then after[Stored(s, i).sensorHandle := Stored(s, i)] else after;
    if WellFormed(s) && Stored(s, i).sensorHandle == g {
      StoredLast(before, added, s, i, g, last);
    } else {
      StoredEarlier(before, added, s, i, g, after, last);
    }
  }

  lemma StoresNothing(t: Table, i: nat, g: Handle)
    ensures IsStored(t.sensors, [], i, g, Perform(t, Connect([], i)).sensors)
  {
    assert Perform(t, Connect([], i)).sensors == t.sensors;
    hide Perform;
  }

  /** After an announcement, the last well-formed sensor announced under a tagged
      handle is stored there, and every handle that no well-formed sensor was
      announced for has what it had. */
  lemma {:induction false} AnnouncementIsStored(t: Table, added: seq<SensorInfo>, i: nat, g: Handle)
    ensures IsStored(t.sensors, added, i, g, Perform(t, Connect(added, i)).sensors)
  {
    hide *;
    if added == [] {
      StoresNothing(t, i, g);
    } else {
      var n := |added| - 1;
      AnnouncementIsStored(t, added[..n], i, g);
      AnnouncesOneMore(t, added, i);
      StoresOneMore(t.sensors, added[..n], added[n], i, g, Perform(t, Connect(added[..n], i)).sensors);
      assert added == added[..n] + [added[n]];
    }
  }

  /** After a withdrawal exactly the reported handles are missing, and they are
      reported in the order in which they were first asked for. */
  lemma WithdrawalIsPerformed(t: Table, removed: seq<Handle>, i: nat, g: Handle)
    ensures var after, gone := Perform(t, Disconnect(removed, i)), Withdrawn(t.sensors, removed, i);
            && after.callbacks == t.callbacks + [Disconnected(gone)]
            && (g in after.sensors <==>
                  g in t.sensors && !exists h :: h in removed && 0 <= h < 0x100_0000 && SetSubHalIndex(h, i) == g)
            && (g in after.sensors ==> after.sensors[g] == t.sensors[g])
  {
    WithdrawalIsExact(t.sensors, removed, i);
    forall h | h in removed
      ensures SubHalIndexIsClear(h) <==> 0 <= h < 0x100_0000
    {
      PartsAreNumbers(h);
    }
  }

  /** from tells for each handle of a callback which request it answers, in increasing order. */
  ghost predicate AreAnswered(removed: seq<Handle>, i: nat, gone: seq<Handle>, from: seq<nat>) {
    && |from| == |gone|
    && (forall j :: 0 <= j < |from| ==> from[j] < |removed| && SetSubHalIndex(removed[from[j]], i) == gone[j])
    && (forall j, k :: 0 <= j < k < |from| ==> from[j] < from[k])
  }

  lemma AnswersOneMore(removed: seq<Handle>, i: nat, h: Handle, gone: seq<Handle>, from: seq<nat>)
    requires AreAnswered(removed, i, gone, from)
    ensures AreAnswered(removed + [h], i, gone, from)
    ensures AreAnswered(removed + [h], i, gone + [SetSubHalIndex(h, i)], from + [|removed|])
  {
    hide SetSubHalIndex;
  }

  lemma {:induction false} WithdrawalKeepsOrder(m: SensorMap, removed: seq<Handle>, i: nat) returns (from: seq<nat>)
    ensures AreAnswered(removed, i, Withdrawn(m, removed, i), from)
  {
    from := [];
    if removed != [] {
      var n := |removed| - 1;
      var before, h := Withdrawn(m, removed[..n], i), removed[n];
      from := WithdrawalKeepsOrder(m, removed[..n], i);
      AnswersOneMore(removed[..n], i, h, before, from);
      assert removed == removed[..n] + [h];
      hide AreAnswered;
      if Withdrawn(m, removed, i) != before {
        from := from + [n];
      }
    }
  }
}
