/** The static sensor list: what the proxy stores when it loads its sub-HALs,
    and where a stored sensor is dispatched afterwards. */
module SensorRegistry {
  import opened Handles
  import opened Wrappers

  datatype SensorInfo = SensorInfo(
    sensorHandle: Handle,
    name: string,
    sensorType: int,
    typeAsString: string,
    flags: set<nat>)

  // Bit positions in SensorInfo::flags and a SensorType, as the sensors@1.0
  // interface numbers them. A flags word is the set of its one bits.
  const WAKE_UP: set<nat> := {0}
  const MASK_DIRECT_REPORT: set<nat> := {7, 8, 9}
  const MASK_DIRECT_CHANNEL: set<nat> := {10, 11}
  const TYPE_LIGHT := 5

  const VENDOR_LIGHT_TYPE := "android.sensor.wise_light"

  predicate SupportsDirectChannel(flags: set<nat>) {
    flags * (MASK_DIRECT_REPORT + MASK_DIRECT_CHANNEL) != {}
  }

  function WithoutDirectChannel(flags: set<nat>): set<nat> {
    flags - (MASK_DIRECT_REPORT + MASK_DIRECT_CHANNEL)
  }

  predicate IsWakeUp(flags: set<nat>) {
    flags * WAKE_UP != {}
  }

  lemma WithoutDirectChannelClears(flags: set<nat>)
    ensures !SupportsDirectChannel(WithoutDirectChannel(flags))
    ensures IsWakeUp(WithoutDirectChannel(flags)) <==> IsWakeUp(flags)
    ensures !SupportsDirectChannel(flags) ==> WithoutDirectChannel(flags) == flags
  {
    var direct := MASK_DIRECT_REPORT + MASK_DIRECT_CHANNEL;
    assert (flags - direct) * direct == {};
    assert (flags - direct) * WAKE_UP == flags * WAKE_UP;
    if flags * direct == {} {
      assert forall b :: b in flags ==> b !in flags * direct ==> b !in direct;
      assert flags - direct == flags;
    }
  }

  /** The flag bits by number: 7 to 11 are the direct ones, 0 is wake-up. */
  lemma FlagBits(flags: set<nat>, b: nat)
    ensures b in WithoutDirectChannel(flags) <==> b in flags && !(7 <= b <= 11)
    ensures SupportsDirectChannel(flags) <==> exists d :: d in flags && 7 <= d <= 11
    ensures IsWakeUp(flags) <==> 0 in flags
  {
    var direct := MASK_DIRECT_REPORT + MASK_DIRECT_CHANNEL;
    assert forall d: nat :: d in direct <==> 7 <= d <= 11;
    if SupportsDirectChannel(flags) {
      var d :| d in flags * direct;
      assert d in flags && 7 <= d <= 11;
    } else {
      assert forall d :: d in flags && 7 <= d <= 11 ==> d in flags * direct;
    }
    if IsWakeUp(flags) {
      var w :| w in flags * WAKE_UP;
    } else {
      assert 0 in flags ==> 0 in flags * WAKE_UP;
    }
  }

  // ---------------------------------------------------------------- scan order

  /** One sensor as one sub-HAL reports it. */
  datatype Report = Report(subHal: nat, sensor: SensorInfo) {
    predicate Accepted() {
      SubHalIndexIsClear(sensor.sensorHandle)
    }

    predicate DirectCapable() {
      Accepted() && SupportsDirectChannel(sensor.flags)
    }

    /** The key under which the proxy stores the sensor. */
    function Key(): Handle {
      SetSubHalIndex(sensor.sensorHandle, subHal)
    }
  }

  function ReportsOf(subHal: nat, list: seq<SensorInfo>): seq<Report> {
    seq(|list|, k requires 0 <= k < |list| => Report(subHal, list[k]))
  }

  /** Everything the sub-HALs report, in the order in which the proxy scans it. */
  function AllReports(lists: seq<seq<SensorInfo>>): seq<Report> {
    if lists == [] then []
    else AllReports(lists[..|lists| - 1]) + ReportsOf(|lists| - 1, lists[|lists| - 1])
  }

  lemma {:induction false} ReportedSensors(lists: seq<seq<SensorInfo>>, r: Report)
    ensures r in AllReports(lists) <==> r.subHal < |lists| && r.sensor in lists[r.subHal]
  {
    if lists != [] {
      var n := |lists| - 1;
      ReportedSensors(lists[..n], r);
      var own := ReportsOf(n, lists[n]);
      if r.subHal == n && r.sensor in lists[n] {
        var k :| 0 <= k < |lists[n]| && lists[n][k] == r.sensor;
        assert own[k] == r;
      }
    }
  }

  /** How many reports come before the first one of sub-HAL i. */
  function Offset(lists: seq<seq<SensorInfo>>, i: nat): nat
    requires i <= |lists|
  {
    if i == 0 then 0 else Offset(lists, i - 1) + |lists[i - 1]|
  }

  lemma {:induction false} OffsetOfPrefix(lists: seq<seq<SensorInfo>>, n: nat, i: nat)
    requires i <= n <= |lists|
    ensures Offset(lists[..n], i) == Offset(lists, i)
  {
    if i > 0 {
      OffsetOfPrefix(lists, n, i - 1);
    }
  }

  /** The scan is sub-HAL by sub-HAL, and for each of them in the order of its list. */
  lemma {:induction false} ScanOrder(lists: seq<seq<SensorInfo>>, i: nat, k: nat)
    requires i < |lists| && k < |lists[i]|
    ensures |AllReports(lists)| == Offset(lists, |lists|)
    ensures Offset(lists, i) + k < |AllReports(lists)|
    ensures AllReports(lists)[Offset(lists, i) + k] == Report(i, lists[i][k])
  {
    var n := |lists| - 1;
    ScanLength(lists);
    ScanLength(lists[..n]);
    OffsetOfPrefix(lists, n, n);
    OffsetOfPrefix(lists, n, i);
    if i < n {
      ScanOrder(lists[..n], i, k);
    }
  }

  lemma {:induction false} ScanLength(lists: seq<seq<SensorInfo>>)
    ensures |AllReports(lists)| == Offset(lists, |lists|)
  {
    if lists != [] {
      var n := |lists| - 1;
      ScanLength(lists[..n]);
      OffsetOfPrefix(lists, n, n);
    }
  }

  // ------------------------------------------------------------- loading steps

  datatype Registry = Registry(sensors: map<Handle, SensorInfo>, directChannelSubHal: Option<nat>)

  /** What setDirectChannelFlags does to the owner of the direct channel. */
  function ClaimOwner(owner: Option<nat>, r: Report): Option<nat> {
    if owner.None? && SupportsDirectChannel(r.sensor.flags) then Some(r.subHal) else owner
  }

  /** What setDirectChannelFlags does to the flags of a reported sensor. */
  function ClaimFlags(owner: Option<nat>, r: Report): set<nat> {
    if owner.Some? && owner.value != r.subHal then WithoutDirectChannel(r.sensor.flags) else r.sensor.flags
  }

  function RenameVendorLight(s: SensorInfo): SensorInfo {
    if s.typeAsString == VENDOR_LIGHT_TYPE then s.(sensorType := TYPE_LIGHT, typeAsString := "") else s
  }

  function Accept(reg: Registry, r: Report): Registry {
    if !r.Accepted() then reg
    else
      var stored := r.sensor.(sensorHandle := r.Key(), flags := ClaimFlags(reg.directChannelSubHal, r));
      Registry(reg.sensors[r.Key() := RenameVendorLight(stored)], ClaimOwner(reg.directChannelSubHal, r))
  }

  function Load(reports: seq<Report>): Registry {
    if reports == [] then Registry(map[], None)
    else Accept(Load(reports[..|reports| - 1]), reports[|reports| - 1])
  }

  // ------------------------------------------------------ what loading achieves

  /** The sensor as it is finally stored, given the final owner of the direct channel. */
  function Published(r: Report, owner: Option<nat>): SensorInfo {
    var flags := if owner == Some(r.subHal) then r.sensor.flags else WithoutDirectChannel(r.sensor.flags);
    RenameVendorLight(r.sensor.(sensorHandle := r.Key(), flags := flags))
  }

  ghost predicate IsFirstDirect(reports: seq<Report>, k: int) {
    && 0 <= k < |reports|
    && reports[k].DirectCapable()
    && forall j :: 0 <= j < k ==> !reports[j].DirectCapable()
  }

  /** The last accepted report whose key is g. */
  function LastReport(reports: seq<Report>, g: Handle): Option<Report> {
    if reports == [] then None
    else
      var n := |reports| - 1;
      if reports[n].Accepted() && reports[n].Key() == g then Some(reports[n]) else LastReport(reports[..n], g)
  }

  lemma {:induction false} LastReportExists(reports: seq<Report>, g: Handle)
    ensures var last := LastReport(reports, g);
            && (last.Some? ==> last.value in reports && last.value.Accepted() && last.value.Key() == g)
            && (last.None? ==> forall r :: r in reports && r.Accepted() ==> r.Key() != g)
  {
    if reports != [] {
      LastReportExists(reports[..|reports| - 1], g);
    }
  }

  /** It is the last: no later report of the scan has that key. */
  lemma {:induction false} LastReportIsLast(reports: seq<Report>, g: Handle) returns (k: nat)
    requires LastReport(reports, g).Some?
    ensures k < |reports| && LastReport(reports, g) == Some(reports[k])
    ensures forall j :: k < j < |reports| && reports[j].Accepted() ==> reports[j].Key() != g
  {
    var n := |reports| - 1;
    k := n;
    if !(reports[n].Accepted() && reports[n].Key() == g) {
      k := LastReportIsLast(reports[..n], g);
      assert forall j :: 0 <= j < n ==> reports[..n][j] == reports[j];
    }
  }

  /** The direct channel goes to the sub-HAL with the first accepted
      direct-capable sensor in scan order, and to nobody when there is none. */
  lemma {:induction false} OwnerIsFirstDirect(reports: seq<Report>)
    ensures var owner := Load(reports).directChannelSubHal;
            && (owner.None? <==> forall j :: 0 <= j < |reports| ==> !reports[j].DirectCapable())
            && (owner.Some? ==> exists k :: IsFirstDirect(reports, k) && reports[k].subHal == owner.value)
  {
    if reports != [] {
      var n := |reports| - 1;
      OwnerIsFirstDirect(reports[..n]);
      var before := Load(reports[..n]).directChannelSubHal;
      if before.Some? {
        var k :| IsFirstDirect(reports[..n], k) && reports[..n][k].subHal == before.value;
        assert forall j :: 0 <= j < k ==> reports[..n][j] == reports[j];
        assert IsFirstDirect(reports, k);
      } else {
        assert forall j :: 0 <= j < n ==> reports[..n][j] == reports[j];
        if reports[n].DirectCapable() {
          assert IsFirstDirect(reports, n);
        }
      }
    }
  }

  /** A report that arrives while nobody owns the direct channel keeps its
      flags; clearing them later on would have changed nothing. */
  lemma PublishedBeforeOwner(r: Report, owner: Option<nat>)
    requires !SupportsDirectChannel(r.sensor.flags)
    ensures Published(r, owner) == Published(r, None)
  {
    WithoutDirectChannelClears(r.sensor.flags);
  }

  lemma AcceptPublishes(reg: Registry, r: Report)
    requires r.Accepted()
    ensures Accept(reg, r).sensors ==
            reg.sensors[r.Key() := Published(r, Accept(reg, r).directChannelSubHal)]
  {
    WithoutDirectChannelClears(r.sensor.flags);
  }

  /** A handle is stored exactly when some accepted report has it as its key,
      and what is stored is the last such report under the final owner. */
  lemma {:induction false} LoadedSensor(reports: seq<Report>, g: Handle)
    ensures var reg, last := Load(reports), LastReport(reports, g);
            && (g in reg.sensors <==> last.Some?)
            && (last.Some? ==> reg.sensors[g] == Published(last.value, reg.directChannelSubHal))
  {
    if reports != [] {
      var n := |reports| - 1;
      var before, r := Load(reports[..n]), reports[n];
      LoadedSensor(reports[..n], g);
      if r.Accepted() && r.Key() == g {
        AcceptPublishes(before, r);
      } else if g in before.sensors && before.directChannelSubHal.None? {
        var last := LastReport(reports[..n], g).value;
        LastReportExists(reports[..n], g);
        OwnerIsFirstDirect(reports[..n]);
        assert !last.DirectCapable();
        PublishedBeforeOwner(last, Load(reports).directChannelSubHal);
      }
    }
  }

  /** Field by field, what is stored under a handle: the last report with that
      key, under that handle, as a standard light sensor if the vendor's type
      string says so, and without the direct bits unless its sub-HAL owns the
      direct channel. No other flag is ever lost or gained. */
  lemma StoredFields(reports: seq<Report>, g: Handle, k: nat, b: nat)
    requires k < |reports| && reports[k].Accepted() && reports[k].Key() == g
    requires forall j :: k < j < |reports| && reports[j].Accepted() ==> reports[j].Key() != g
    ensures g in Load(reports).sensors
    ensures var stored, r, owner := Load(reports).sensors[g], reports[k], Load(reports).directChannelSubHal;
            && stored.sensorHandle == g
            && stored.name == r.sensor.name
            && (r.sensor.typeAsString == "android.sensor.wise_light" ==>
                  stored.sensorType == 5 && stored.typeAsString == "")
            && (r.sensor.typeAsString != "android.sensor.wise_light" ==>
                  stored.sensorType == r.sensor.sensorType && stored.typeAsString == r.sensor.typeAsString)
            && (b in stored.flags <==> b in r.sensor.flags && (owner == Some(r.subHal) || !(7 <= b <= 11)))
  {
    LoadedSensor(reports, g);
    LastReportExists(reports, g);
    var j := LastReportIsLast(reports, g);
    assert j == k;
    FlagBits(reports[k].sensor.flags, b);
  }

  // ------------------------------------------------------------------ dispatch

  /** Where activate, batch and flush send a request: a sub-HAL and the handle
      it knows the sensor by, or nowhere when they answer BAD_VALUE. */
  function Dispatch(g: Handle, subHalCount: nat): Option<(nat, Handle)> {
    if !IsSubHalIndexValid(g, subHalCount) then None
    else Some((ExtractSubHalIndex(g), ClearSubHalIndex(g)))
  }

  datatype DirectReport = InvalidOperation | BadValue | Forwarded(subHal: nat, sensorHandle: Handle)

  function ConfigDirectReport(owner: Option<nat>, g: Handle, stop: bool): DirectReport {
    if owner.None? then InvalidOperation
    else if g == ALL_SENSORS && !stop then BadValue
    else Forwarded(owner.value, if g == ALL_SENSORS then g else ClearSubHalIndex(g))
  }

  /** A reported sensor is dispatched back to its reporter, under the handle
      the reporter gave it, exactly when the reporter's index is below 128. */
  lemma DispatchIsExact(r: Report, subHalCount: nat)
    requires r.Accepted() && r.subHal < subHalCount <= MAX_VECTOR_LENGTH
    ensures Dispatch(r.Key(), subHalCount) == Some((r.subHal, r.sensor.sensorHandle)) <==> r.subHal < 128
  {
    TagRoundTrip(r.sensor.sensorHandle, r.subHal);
  }

  /** A request is dispatched exactly when its handle is not negative and its
      index is that of a sub-HAL, to that sub-HAL and the 24 low bits; anything
      else is refused. */
  lemma DispatchesExactly(g: Handle, subHalCount: nat)
    requires subHalCount <= MAX_VECTOR_LENGTH
    ensures Dispatch(g, subHalCount).Some? <==> 0 <= g < subHalCount * 0x100_0000
    ensures Dispatch(g, subHalCount).Some? ==> Dispatch(g, subHalCount).value == (g / 0x100_0000, g % 0x100_0000)
  {
    PartsAreNumbers(g);
    NegativeIsInvalid(g, subHalCount);
  }

  /** configDirectReport case by case: nobody to ask; `all sensors` only with a
      stop, and then passed on as it is; otherwise the owner is asked for the
      24 low bits, whatever index the handle carries. */
  lemma ConfiguresExactly(owner: Option<nat>, g: Handle, stop: bool)
    ensures ConfigDirectReport(owner, g, stop) == InvalidOperation <==> owner == None
    ensures ConfigDirectReport(owner, g, stop) == BadValue <==> owner.Some? && g == -1 && !stop
    ensures owner.Some? && g == -1 && stop ==> ConfigDirectReport(owner, g, stop) == Forwarded(owner.value, -1)
    ensures owner.Some? && g != -1 ==>
              ConfigDirectReport(owner, g, stop) == Forwarded(owner.value, g % 0x100_0000)
  {
    PartsAreNumbers(g);
  }

  /** With at most 128 sub-HALs every accepted report ends up in the list, a
      request for it reaches its reporter, and what is stored under its key is
      that reporter's own last report of the same handle. */
  lemma ReportIsRouted(lists: seq<seq<SensorInfo>>, r: Report)
    requires |lists| <= 128
    requires r in AllReports(lists) && r.Accepted()
    ensures var reg, g := Load(AllReports(lists)), r.Key();
            && Dispatch(g, |lists|) == Some((r.subHal, r.sensor.sensorHandle))
            && g in reg.sensors && reg.sensors[g].sensorHandle == g
            && var last := LastReport(AllReports(lists), g);
            && last.Some?
            && last.value.subHal == r.subHal
            && last.value.sensor.sensorHandle == r.sensor.sensorHandle
            && reg.sensors[g] == Published(last.value, reg.directChannelSubHal)
  {
    var reports := AllReports(lists);
    LastReportExists(reports, r.Key());
    LoadedSensor(reports, r.Key());
    var last := LastReport(reports, r.Key()).value;
    ReportedSensors(lists, r);
    ReportedSensors(lists, last);
    DispatchIsExact(r, |lists|);
    SameKeySameReporter(r, last);
  }

  lemma SameKeySameReporter(r: Report, r': Report)
    requires r.Accepted() && r'.Accepted() && r.Key() == r'.Key()
    requires r.subHal < 128 && r'.subHal < 128
    ensures r.subHal == r'.subHal && r.sensor.sensorHandle == r'.sensor.sensorHandle
  {
    TagIsInjective(r.sensor.sensorHandle, r.subHal, r'.sensor.sensorHandle, r'.subHal);
  }

  /** The other direction: whatever is stored came from an accepted report of
      the sub-HAL it is dispatched to. */
  lemma StoredSensorIsRouted(lists: seq<seq<SensorInfo>>, g: Handle)
    requires |lists| <= 128
    requires g in Load(AllReports(lists)).sensors
    ensures var reg, i, h := Load(AllReports(lists)), ExtractSubHalIndex(g), ClearSubHalIndex(g);
            && Dispatch(g, |lists|) == Some((i, h))
            && var last := LastReport(AllReports(lists), g);
            && last.Some?
            && last.value.subHal == i < |lists|
            && last.value.sensor in lists[i] && last.value.sensor.sensorHandle == h
            && reg.sensors[g] == Published(last.value, reg.directChannelSubHal)
  {
    var reports := AllReports(lists);
    LoadedSensor(reports, g);
    LastReportExists(reports, g);
    var r := LastReport(reports, g).value;
    ReportedSensors(lists, r);
    DispatchIsExact(r, |lists|);
  }

  /** Only sensors of the one sub-HAL that owns the direct channel still
      advertise it, so configuring direct reports for such a sensor reaches the
      sub-HAL and the handle that every other request for it reaches. */
  lemma DirectReportsReachTheirSensor(lists: seq<seq<SensorInfo>>, g: Handle, stop: bool)
    requires |lists| <= 128
    requires var reg := Load(AllReports(lists));
             g in reg.sensors && SupportsDirectChannel(reg.sensors[g].flags)
    ensures var owner, i, h := Load(AllReports(lists)).directChannelSubHal, ExtractSubHalIndex(g), ClearSubHalIndex(g);
            && owner == Some(i)
            && Dispatch(g, |lists|) == Some((i, h))
            && ConfigDirectReport(owner, g, stop) == Forwarded(i, h)
  {
    var owner := Load(AllReports(lists)).directChannelSubHal;
    StoredSensorIsRouted(lists, g);
    PublishedDirectIsOwned(LastReport(AllReports(lists), g).value, owner);
    ConfigFollowsDispatch(g, |lists|, stop);
  }

  lemma ConfigFollowsDispatch(g: Handle, subHalCount: nat, stop: bool)
    requires subHalCount <= MAX_VECTOR_LENGTH && Dispatch(g, subHalCount).Some?
    ensures var (i, h) := Dispatch(g, subHalCount).value; ConfigDirectReport(Some(i), g, stop) == Forwarded(i, h)
  {
    NegativeIsInvalid(g, subHalCount);
  }

  lemma PublishedDirectIsOwned(r: Report, owner: Option<nat>)
    ensures SupportsDirectChannel(Published(r, owner).flags) ==> owner == Some(r.subHal)
  {
    WithoutDirectChannelClears(r.sensor.flags);
  }

  // ------------------------------------------------------------ the source's loop

  class SensorTable {
    var mSensors: map<Handle, SensorInfo>
    var mDirectChannelSubHal: Option<nat>

    ghost function View(): Registry
      reads this
    {
      Registry(mSensors, mDirectChannelSubHal)
    }

    constructor ()
      ensures View() == Registry(map[], None)
    {
      mSensors, mDirectChannelSubHal := map[], None;
    }

    method SetDirectChannelFlags(sensor: SensorInfo, subHal: nat) returns (updated: SensorInfo)
      modifies this`mDirectChannelSubHal
      ensures updated == sensor.(flags := ClaimFlags(old(mDirectChannelSubHal), Report(subHal, sensor)))
      ensures mDirectChannelSubHal == ClaimOwner(old(mDirectChannelSubHal), Report(subHal, sensor))
    {
      updated := sensor;
      if mDirectChannelSubHal == None && SupportsDirectChannel(sensor.flags) {
        mDirectChannelSubHal := Some(subHal);
      } else if mDirectChannelSubHal != None && mDirectChannelSubHal != Some(subHal) {
        updated := updated.(flags := WithoutDirectChannel(updated.flags));
      }
    }

    method AddSensor(reported: SensorInfo, subHal: nat)
      modifies this
      ensures View() == Accept(old(View()), Report(subHal, reported))
    {
      if SubHalIndexIsClear(reported.sensorHandle) {
        var sensor := reported.(sensorHandle := SetSubHalIndex(reported.sensorHandle, subHal));
        sensor := SetDirectChannelFlags(sensor, subHal);
        if sensor.typeAsString == VENDOR_LIGHT_TYPE {
          sensor := sensor.(sensorType := TYPE_LIGHT, typeAsString := "");
        }
        mSensors := mSensors[sensor.sensorHandle := sensor];
      }
    }

    method InitializeSensorList(lists: seq<seq<SensorInfo>>)
      requires View() == Registry(map[], None)
      modifies this
      ensures View() == Load(AllReports(lists))
    {
      for i := 0 to |lists|
        invariant View() == Load(AllReports(lists[..i]))
      {
        ghost var earlier := AllReports(lists[..i]);
        assert earlier + ReportsOf(i, lists[i][..0]) == earlier;
        for k := 0 to |lists[i]|
          invariant View() == Load(earlier + ReportsOf(i, lists[i][..k]))
        {
          AddSensor(lists[i][k], i);
          LoadOneMore(earlier, i, lists[i], k);
        }
        assert lists[i][..|lists[i]|] == lists[i];
        assert lists[..i + 1][..i] == lists[..i];
      }
      assert lists[..|lists|] == lists;
    }
  }

  lemma LoadOneMore(earlier: seq<Report>, i: nat, list: seq<SensorInfo>, k: nat)
    requires k < |list|
    ensures Load(earlier + ReportsOf(i, list[..k + 1])) ==
            Accept(Load(earlier + ReportsOf(i, list[..k])), Report(i, list[k]))
  {
    var next := earlier + ReportsOf(i, list[..k + 1]);
    assert next[|next| - 1] == Report(i, list[k]);
    assert next[..|next| - 1] == earlier + ReportsOf(i, list[..k]);
  }
}
