# Sensors multi-HAL proxy, blob-list order and backlight arithmetic

A Dafny model of the parts of this device tree that compute something:

* **the sensors multi-HAL proxy** (`sensors/HalProxy.cpp`, `sensors/HalProxyCallback.cpp`), which
  presents several sub-HALs as one, queues their events for the framework and keeps the device awake
  while wake-up events are on their way;
* **the script that orders the blob lists** (`reorder-blobs.py`): a hand-written path comparison
  given to a sort, and the text operations around it;
* **the backlight arithmetic** (`lights/Light.cpp`), unsigned 32-bit divisions and shifts.

`dafny verify dfyconfig.toml` checks everything.

## How the proxy is modelled

`HalProxy.dfy` has the object with its fields; each method is a region that the source runs under a
mutex, or one of its loops, and its contract gives the whole new state through a specification
function of `Wakelock.dfy`, `EventQueue.dfy`, `EventProcessing.dfy` or `PendingWrites.dfy`.
`ProxyMachine.dfy` puts the same functions into a machine of concurrent threads: posters that post
events and create and release scoped wakelocks, the pending-writes thread with the locals it keeps
while the queue mutex is free, the wakelock thread around its blocking read, the framework, and
whoever stops and re-initialises the proxy. A step is what one thread does between taking a mutex
and giving it back; a post, which takes the wakelock's mutex inside the queue's, is two, and a stop
sets the flag in one step and drains the message queue in another. So, up to the limits listed under
"Left out", every interleaving is a run of the machine, and the theorems about runs hold for runs of
any length. `ProxyObject.dfy` says what it means that a change of the object is a step of the
machine, and the contracts of the object's methods say which step they are. `QueueRuns.dfy` is about
the events, `WakelockRuns.dfy` about the reference count, `WakelockLedger.dfy` about where each
reference is; `WakelockWitnesses.dfy` has concrete runs in which the wakelock goes wrong.

The machine also keeps a history that the proxy does not have: everything posted and written, how
many events were lost, the post each pending batch comes from, the time stamps of the scoped
wakelocks alive, and the references owed to events since the last reset.

What comes from outside is a parameter or a free choice: clock readings (strictly increasing;
`ResetIsClean` says exactly what that is needed for), whether a write to the message queue is
accepted, whether a blocking write succeeds, acknowledgements, and when a thread wakes. The message
queue obeys its contract: it has a capacity, a write fits or changes nothing, and a blocking write
writes everything or nothing. `kMaxSizePendingWriteEventsQueue` and `kWakelockTimeoutNs` are
parameters, since the header that defines them is not in this repository; neither is that of
`ScopedWakelock`, which is taken to increment the count by one when it is created locked, to
remember the time stamp, and to decrement by one with that time stamp when it is destroyed. The
handle mask is the top byte. Flag bits and sensor types are those of the `sensors@1.0` interface. A
flags word is the set of its one bits, and a handle is an `int` of 32 bits with its two's complement
pattern.

## How the script is modelled

`BlobOrder.dfy` has the comparator and the exact condition under which it is an order,
`BlobSort.dfy` what a stable sort by it does to a section, `BlobText.dfy` the string operations
(`split`, `splitlines`, `strip`, `join`), and `BlobFile.dfy` the script from the text it reads to
the text it writes. The sort is a relation that holds of any permutation, and of stable sorts only
where the comparator is an order, which is what the library promises. `BlobEntries.dfy` is about
what the file lists.

## Findings

* Three kinds of runs, all within the contract that `postEvents` asserts, acknowledging only events
  that were read, and failing writes only for lack of room, release the kernel's wakelock under a
  scoped wakelock that is alive. A post that was split between the message queue and the pending
  queue is queued with the wake-up count of the whole post (`sensors/HalProxy.cpp:684-685`), so a
  failed write of the rest retires too much: `SplitBatchReleasesLiveToken`. A failed write carries
  no time stamp (`sensors/HalProxy.cpp:590-597`, 715-717), so one of a batch that a time-out reset
  has overtaken retires references the reset has already given up, even if the batch was never
  split: `OvertakenBatchReleasesLiveToken`. An acknowledgement carries none either
  (`sensors/HalProxy.cpp:634-637`), so one that comes after a reset for an event delivered before it
  takes a reference that belongs to something else: `LateAcknowledgementReleasesLiveToken`. Each is
  a run of the machine. `RetirementIsExact` says, for every failed write of every run, exactly when
  it retires the right number, and `GiveBackExactly` exactly when a decrement does no harm.
* `postEvents` only asserts that a locked wakelock comes with wake-up events
  (`sensors/HalProxyCallback.cpp:46-56`). A post that breaks this leaves the kernel's wakelock held
  with a count of zero exactly in the case that `KernelAgreesExactly` names;
  `UnlawfulPostLeaksKernelWakelock` is a run that gets there.
* Decrements are ignored while the threads are stopped, the reset of an initialisation included
  (`sensors/HalProxy.cpp:711`, 216-217). A scoped wakelock released in between leaves its reference
  behind, and the kernel's wakelock is held for nobody until the time-out:
  `StopLeaksKernelWakelock`. `ExcessExactly` says where such references come from, and
  `WakelockHeldExactly` that there are no others.
* From index 128 on, sub-HALs cannot be reached: `DispatchIsExact`, `TagRoundTrip`.
* An operation-mode change that is refused ends in agreement only if the rollback calls are
  accepted: `SwitchIsAllOrNothing`.
* The blob comparison is not transitive in general. `TransitiveExactly` gives the exact condition on
  a section, which sections of paths and paths under a slashless `# heading` meet; `SmallestCycle`
  is a section of three lines that does not.
* A maximum brightness of 0 (an unreadable sysfs file) scales to values outside the range, and one
  above 16909321 makes full brightness wrap: `ScalingStaysInRange`, `FullBrightnessExactly`.

## Model

| member | source | states |
|---|---|---|
| `Handles.TagRoundTrip` | sensors/HalProxy.cpp:57-70 | A local handle tagged with an index yields that index again exactly when the index is below 128, always yields the handle again, and is negative exactly when the low index byte is 128 or more |
| `Handles.TagIsOnto` | sensors/HalProxy.cpp:57-70 | Every non-negative handle is the tag of its own local part with its own index, which is below 128: with the round trip, a bijection |
| `Handles.TagIsInjective` | sensors/HalProxy.cpp:57-59 | Two tagged handles are equal exactly when the local handles and the low bytes of the indices are |
| `Handles.TaggedParts` | sensors/HalProxyCallback.cpp:37-39 | Tagging leaves the local part of any handle alone, malformed or not |
| `Handles.NegativeIsInvalid` | sensors/HalProxy.cpp:744-746 | A negative handle, -1 included, is invalid for every possible number of sub-HALs |
| `Handles.TagIsNumber` | sensors/HalProxy.cpp:57-59 | The tag of a well-formed handle is the handle plus the low index byte times 2^24, in two's complement |
| `Handles.TaggedBits` | sensors/HalProxy.cpp:57-59 | Bit by bit, the tag of any handle, well-formed or not, is the `or` of the handle and the index shifted left by 24 |
| `Handles.PartsAreNumbers` | sensors/HalProxy.cpp:68-70 | The extracted index and local handle as quotient and remainder by 2^24, and which handles have a clear index |
| `SensorRegistry.OwnerIsFirstDirect` | sensors/HalProxy.cpp:725-738 | The direct channel belongs to the sub-HAL with the first accepted direct-capable sensor in scan order, and to nobody exactly when there is none |
| `SensorRegistry.LoadedSensor` | sensors/HalProxy.cpp:486-509 | A handle is stored exactly when an accepted report has it as key; stored is the last such report, with its direct bits kept exactly if its sub-HAL is the final owner, although flags are decided during the scan |
| `SensorRegistry.StoredFields` | sensors/HalProxy.cpp:486-502 | Field by field what is stored under a handle: the last accepted report with that key; vendor light type renamed; flag bits 7 to 11 kept exactly if its sub-HAL owns the direct channel, all other bits always |
| `SensorRegistry.ScanOrder` | sensors/HalProxy.cpp:486-489 | The scan goes sub-HAL by sub-HAL, each in the order of its list, and has nothing else |
| `SensorRegistry.FlagBits` | sensors/HalProxy.cpp:725-738 | Which flag bits are the direct ones and which is wake-up, and that clearing the direct ones touches no other |
| `SensorRegistry.ReportIsRouted` | sensors/HalProxy.cpp:486-509 | With up to 128 sub-HALs every accepted report is stored, requests for it reach its reporter under the original handle, and no other sub-HAL's sensor replaces it |
| `SensorRegistry.StoredSensorIsRouted` | sensors/HalProxy.cpp:740-746 | Conversely, whatever is stored came from the sub-HAL and local handle that requests for it are sent to |
| `SensorRegistry.DispatchIsExact` | sensors/HalProxy.cpp:158-164 | A reported sensor is dispatched to its reporter exactly when the reporter's index is below 128 |
| `SensorRegistry.DispatchesExactly` | sensors/HalProxy.cpp:740-746 | A request is dispatched exactly when its handle is non-negative and below the number of sub-HALs times 2^24, to the quotient under the remainder; otherwise it is refused |
| `SensorRegistry.ConfiguresExactly` | sensors/HalProxy.cpp:334-349 | configDirectReport case by case: no owner, `all sensors` without and with a stop, and the owner under the 24 low bits of any other handle |
| `SensorRegistry.DirectReportsReachTheirSensor` | sensors/HalProxy.cpp:334-349 | A stored sensor that still advertises direct reports belongs to the one owner of the direct channel, and configDirectReport sends it to the same sub-HAL and handle as every other request |
| `SensorRegistry.SensorTable.SetDirectChannelFlags` | sensors/HalProxy.cpp:725-738 | Owner and flags after the call, by the specification that LoadedSensor and OwnerIsFirstDirect are about |
| `SensorRegistry.SensorTable.AddSensor` | sensors/HalProxy.cpp:490-502 | One reported sensor: rejected, or tagged, its flags decided, the vendor's light type renamed, and stored |
| `SensorRegistry.SensorTable.InitializeSensorList` | sensors/HalProxy.cpp:486-509 | The nested loop over sub-HALs and sensors ends in the registry that the lemmas above are about |
| `DynamicSensors.DynamicSensorTable.OnDynamicSensorsConnected` | sensors/HalProxy.cpp:393-411 | New table and callback, and that the framework's replayed picture is still the table |
| `DynamicSensors.DynamicSensorTable.OnDynamicSensorsDisconnected` | sensors/HalProxy.cpp:413-433 | The same for a withdrawal |
| `DynamicSensors.DynamicSensorTable.Reset` | sensors/HalProxy.cpp:227-230 | A new callback starts from an empty table |
| `DynamicSensors.FrameworkAgrees` | sensors/HalProxy.cpp:393-433 | After any sequence of calls, replaying the callbacks since the last initialisation gives exactly the table, and each entry's handle is its key |
| `DynamicSensors.AnnouncementIsReported` | sensors/HalProxy.cpp:395-409 | The callback of an announcement carries exactly its well-formed sensors, tagged, in order, with repetitions |
| `DynamicSensors.AnnouncementIsStored` | sensors/HalProxy.cpp:398-406 | Under each handle the last well-formed sensor announced for it is stored, and a handle that none was announced for keeps what it had |
| `DynamicSensors.WithdrawalIsExact` | sensors/HalProxy.cpp:419-430 | A withdrawal reports exactly the handles that were present, well-formed and asked for, each once |
| `DynamicSensors.WithdrawalIsPerformed` | sensors/HalProxy.cpp:413-433 | After a withdrawal exactly the handles that were asked for are missing from the table, and the callback is the one the other rows are about |
| `DynamicSensors.WithdrawalKeepsOrder` | sensors/HalProxy.cpp:419-430 | The reported handles are in the order of the requests they answer |
| `DynamicSensors.WithdrawalSparesOthers` | sensors/HalProxy.cpp:413-433 | It never removes a sensor with another top byte |
| `DynamicSensors.AnnouncementSparesOthers` | sensors/HalProxy.cpp:393-411 | An announcement never removes or overwrites a sensor with another top byte |
| `OperationModes.SwitchIsAllOrNothing` | sensors/HalProxy.cpp:135-156 | From agreement: all sub-HALs in the new mode on OK; otherwise the old mode stays in force, and they agree on it exactly when the rollbacks before the refusal are accepted |
| `OperationModes.SwitchesExactly` | sensors/HalProxy.cpp:135-156 | From any modes, sub-HAL by sub-HAL: rolled back, stuck in the new mode, or not touched; and the result is the first refusal's |
| `OperationModes.AgreementIsKept` | sensors/HalProxy.cpp:135-156 | Over any sequence of mode requests and re-initialisations (line 269), when rollbacks are accepted and sub-HALs initialise into normal mode, the sub-HALs always agree, on the last mode that all accepted |
| `OperationModes.ModeSwitch.Initialize` | sensors/HalProxy.cpp:260-269 | The proxy takes normal mode for granted; the sub-HALs are in the modes they initialised to |
| `OperationModes.ModeSwitch.SetOperationMode` | sensors/HalProxy.cpp:135-156 | The two loops compute the specified switch and result, for any position of the refusal |
| `EventProcessing.ProcessEvents` | sensors/HalProxyCallback.cpp:65-82 | Every event is tagged, the payload of dynamic-sensor events too, and the wake-up events are counted by their tagged handles |
| `EventProcessing.TaggedFields` | sensors/HalProxyCallback.cpp:69-75 | Each field of each processed event: the handles tagged (the dynamic one only in dynamic-sensor events), the rest as it was |
| `EventProcessing.CountIsNumber` | sensors/HalProxy.cpp:748-757 | The wake-up count is the number of positions whose handle is in the set |
| `EventProcessing.WakeUpHandlesExactly` | sensors/HalProxyCallback.cpp:76-79 | That set is the stored sensors with flag bit 0 |
| `EventProcessing.EventCountsAsItsReporterSaid` | sensors/HalProxyCallback.cpp:69-79 | An event counts as a wake-up event exactly when its own sub-HAL's last report of that sensor says so, and its tagged handle is dispatched back to that sub-HAL |
| `EventQueues.PostAccounted` | sensors/HalProxy.cpp:662-691 | A post keeps the size counter, the limit, the high-water bound and non-empty batches |
| `EventQueues.PostGoesBehind` | sensors/HalProxy.cpp:669-690 | A post goes behind everything pending, and into the message queue only when nothing is |
| `EventQueues.PostFillsTheRoom` | sensors/HalProxy.cpp:669-681 | With nothing pending an accepted post writes as much as the message queue has room for, and if that is all of it, does nothing else |
| `EventQueues.PostWaitsItsTurn` | sensors/HalProxy.cpp:669-680 | Behind pending events, or when its write is refused, a post writes nothing |
| `EventQueues.PostQueuesTheRest` | sensors/HalProxy.cpp:681-690 | What is not written becomes one batch with the post's wake-up count if it fits the limit, and is dropped if not; counter and mark follow |
| `EventQueues.RemoveChunkAccounted` | sensors/HalProxy.cpp:601-610 | Removing a chunk keeps the accounting and takes exactly the front of the pending events |
| `HalProxy.HalProxy.IncrementRefCountAndMaybeAcquireWakelock` | sensors/HalProxy.cpp:693-707 | Count, start time and kernel lock afterwards; nothing when the threads are stopped; by one, it is the machine's creation of a token |
| `HalProxy.HalProxy.DecrementRefCountAndMaybeReleaseWakelock` | sensors/HalProxy.cpp:709-723 | Count and kernel lock afterwards; nothing when stopped, empty or stale; never below zero; with a token's time stamp it is the machine's release, without one its acknowledgement |
| `Wakelocks.KernelMovesAtZero` | sensors/HalProxy.cpp:693-723 | The kernel's wakelock changes hands exactly when a running count leaves or reaches zero, and not by a stale decrement |
| `HalProxy.HalProxy.ResetSharedWakelock` | sensors/HalProxy.cpp:656-660 | Everything is given up if the threads run; the reset time moves in any case |
| `HalProxy.HalProxy.SharedWakelockDidTimeout` | sensors/HalProxy.cpp:644-654 | Timed out exactly when the last increment is longer ago than the timeout; otherwise what is left |
| `HalProxy.HalProxy.HandleWakelocks` | sensors/HalProxy.cpp:619-642 | Undisturbed for any rounds and then stopped, the thread leaves the specified wakelock, and its last reset moves the reset time only, since the threads are stopped by then |
| `ProxyObject.TimedOutRoundReleases` | sensors/HalProxy.cpp:619-654 | Once one of these rounds is later than the timeout after the last increment, the count is zero and the kernel lock released, whatever is acknowledged |
| `HalProxy.HalProxy.PostEventsToMessageQueue` | sensors/HalProxy.cpp:662-691 | Queues and wakelock after a post; keeps the accounting; and the change is that of the machine's two posting steps |
| `HalProxy.HalProxy.PostEvents` | sensors/HalProxyCallback.cpp:41-58 | Nothing for an empty post or stopped threads; otherwise the tagged events are posted with the number of their wake-up events, which is the machine's post of the tagged events |
| `HalProxy.HalProxy.CountNumWakeupEvents` | sensors/HalProxy.cpp:748-757 | Counts the wake-up events of a prefix; the sensors it inserts by looking them up are exactly the unknown ones, without flags |
| `HalProxy.HalProxy.RetireChunk` | sensors/HalProxy.cpp:590-599 | What a failed write gives back, and that nothing is when the batch has no wake-up events: the machine's step for a writer with these locals |
| `HalProxy.HalProxy.FinishChunk` | sensors/HalProxy.cpp:601-610 | The queues after an iteration; the counter does not underflow; the machine's step for a writer with these locals |
| `HalProxy.HalProxy.WritePendingChunk` | sensors/HalProxy.cpp:580-611 | One iteration tries a non-empty chunk, as much of the front batch as the message queue holds at most, takes it off the front and leaves the rest as it was; a success adds it to the message queue, a failure retires the specified references, and none if the threads are stopped during the write |
| `HalProxy.HalProxy.HandlePendingWrites` | sensors/HalProxy.cpp:573-613 | Without other posts and until it is stopped, in or after any iteration, the thread makes exactly that many iterations, or as many as there are chunks (the sum of the rounded-up quotients), each on what the one before left; what is pending, written and retired afterwards is determined by which writes succeeded |
| `PendingWrites.WritesOnlyLoosen` | sensors/HalProxy.cpp:590-599 | Such iterations never raise the count and keep the kernel's wakelock in step with it |
| `HalProxy.HalProxy.InitializeCommon` | sensors/HalProxy.cpp:210-272 | The machine's re-initialisation: empty queues, running threads, the high-water mark kept, the reference count left as it was, and OK exactly when everything needed is there and all sub-HALs initialised, otherwise the last failure |
| `HalProxy.HalProxy.InitializeSubHals` | sensors/HalProxy.cpp:260-267 | Asks all sub-HALs even after a failure, and returns the last failure |
| `HalProxy.LastFailureExactly` | sensors/HalProxy.cpp:260-267 | Which result that is: the last sub-HAL's that failed, or the earlier one if none did |
| `HalProxy.HalProxy.StopThreads` | sensors/HalProxy.cpp:534-541 | Stopped threads and an empty message queue: the machine's stop followed by a drain of everything |
| `ProxyObject.KeepRoundsAreSteps` | sensors/HalProxy.cpp:619-642 | For advancing clocks, the rounds of the wakelock thread have the effect of the machine's keeper steps on the wakelock |
| `QueueRuns.QueueSoundAlways` | sensors/HalProxy.cpp:580-610 | In every reachable state, the writer's unlocked window included: size counter, limit, non-empty batches, and the writer's chunk in place |
| `QueueRuns.HighWaterMark` | sensors/HalProxy.cpp:687-688 | The mark is the largest pending size of the whole run so far |
| `QueueRuns.EventsStayInOrder` | sensors/HalProxy.cpp:573-613 | In every interleaving, written followed by unwritten events are an order-preserving subsequence of the posted ones, every posted event is written, pending or lost, and the message queue is the end of what was written |
| `QueueRuns.EventsAreReceivedInOrder` | sensors/HalProxy.cpp:534-540 | From end to end: what the framework has read, then the message queue, then the unwritten events are an order-preserving subsequence of the posted ones, across stops, drained queues and re-initialisations |
| `QueueRuns.WrittenArrivesExactly` | sensors/HalProxy.cpp:534-540 | What was read followed by what can be read is exactly what was written, if and only if no stop drained anything and no re-initialisation replaced a queue with unread events |
| `QueueRuns.NobodyIsStuck` | sensors/HalProxy.cpp:573-642 | In every reachable state each thread's next step is possible, at most waiting for the mutex, for work, or for room |
| `QueueRuns.NothingLostExactly` | sensors/HalProxy.cpp:662-691 | Written followed by unwritten is all that was posted exactly when no post overflowed, no write of something failed and no re-initialisation dropped anything |
| `QueueRuns.WakeCountCoversBatch` | sensors/HalProxy.cpp:684-685 | In every reachable state the wake-up events left in a pending batch are at most its recorded count, and equal to it in a batch that is a whole post |
| `QueueRuns.RetirementCoversDropped` | sensors/HalProxy.cpp:590-599 | A failed write retires at least the wake-up events it drops: exactly those for a prefix of an over-long batch, and otherwise those plus the ones of the same post that left earlier |
| `QueueRuns.DrainingConserves` | sensors/HalProxy.cpp:581-611 | Without new posts, finished iterations plus remaining chunks are constant in every interleaving, so draining takes exactly the number of chunks |
| `EventQueues.CeilDivRoundsUp` | sensors/HalProxy.cpp:583-584 | The number of chunks of a batch is its length over the capacity, rounded up |
| `WakelockRuns.KernelAgreesExactly` | sensors/HalProxy.cpp:693-723 | Any step keeps the kernel's wakelock held exactly while the count is positive, except a post without wake-up events under a locked wakelock to a running proxy with count zero |
| `WakelockRuns.KernelAgreesAlways` | sensors/HalProxyCallback.cpp:46-57 | So in all runs that respect the contract postEvents asserts, held if and only if positive, in every state |
| `WakelockRuns.GiveBackExactly` | sensors/HalProxy.cpp:709-723 | Giving back n references keeps the count above live tokens plus owed references exactly when n is owed, the threads are stopped, no token is alive, or the surplus still leaves a reference for every live token |
| `WakelockRuns.ResetIsClean` | sensors/HalProxy.cpp:656-660 | A reset leaves no token alive exactly when all time stamps are strictly older |
| `WakelockRuns.StaleReleaseIsHarmless` | sensors/HalProxy.cpp:716-718 | Releasing a token from before the last reset leaves the wakelock as it is |
| `WakelockRuns.LiveTokensAreSafe` | sensors/HalProxy.cpp:693-723 | While no step gives back more than is owed, the count covers live tokens and event references in every reachable state, across time-outs, stops and re-initialisations; so a live token implies the kernel's wakelock |
| `WakelockRuns.ExcessExactly` | sensors/HalProxy.cpp:693-723 | Step by step, how many references belong to no live token and no event: they arise from releases while the threads are stopped, and from stops that find references, and end with a time-out |
| `WakelockRuns.WakelockHeldExactly` | sensors/HalProxy.cpp:693-723 | From a state with an exact count and until a stop, the count is the live tokens plus the owed event references, and the kernel's wakelock is held exactly while there is one |
| `WakelockRuns.ExactAgain` | sensors/HalProxy.cpp:656-660 | A time-out makes the count exact; an initialisation does exactly when it finds a count of zero |
| `WakelockRuns.StartIsLastIncrement` | sensors/HalProxy.cpp:701 | The timeout starts at the last successful increment of the run |
| `WakelockRuns.KeeperTimesOut` | sensors/HalProxy.cpp:619-654 | A round more than the timeout after the last increment releases everything; an earlier one waits for the rest of the timeout, never a negative time |
| `WakelockLedger.BooksBalance` | sensors/HalProxy.cpp:590-599 | In every run with covered acknowledgements and exact retirements, the references owed to events are those delivered and unacknowledged, pending, failing or dropped |
| `WakelockLedger.WakeupEventsKeepTheWakelock` | sensors/HalProxy.cpp:619-723 | In such runs a wake-up event that is pending or delivered but unacknowledged keeps the kernel's wakelock held until a reset |
| `WakelockLedger.WakelockHeldForReason` | sensors/HalProxy.cpp:619-723 | In such runs and until a stop, the kernel's wakelock is held exactly while there is a live token or a reference accounted to an event |
| `WakelockLedger.RetirementIsExact` | sensors/HalProxy.cpp:590-599 | Every failed write of every run: for a batch that holds references it retires what the chunk holds exactly when it cuts an over-long batch or nothing of its post that counts has left before; for one that was never counted, or that a reset has overtaken, exactly when the chunk of an over-long batch, or else the whole post, has no wake-up events |
| `WakelockWitnesses.SplitBatchReleasesLiveToken` | sensors/HalProxy.cpp:684-685 | A run without a reset, with honest acknowledgements and writes that fail only when there is no room, in which the retirement of a split post releases the kernel's wakelock under another sub-HAL's live token |
| `WakelockWitnesses.OvertakenBatchReleasesLiveToken` | sensors/HalProxy.cpp:590-597 | A run without acknowledgements, whose one failed write finds no room, in which the retirement of an unsplit post after a time-out does the same |
| `WakelockWitnesses.LateAcknowledgementReleasesLiveToken` | sensors/HalProxy.cpp:629-637 | A run without failed writes in which an acknowledgement after a time-out, of an event delivered before it, does the same |
| `WakelockWitnesses.UnlawfulPostLeaksKernelWakelock` | sensors/HalProxyCallback.cpp:46-57 | A run, lawful but for its last post, that ends with a count of zero and the kernel's wakelock held |
| `WakelockWitnesses.StopLeaksKernelWakelock` | sensors/HalProxy.cpp:216-217 | A lawful run in which a scoped wakelock is released during a stop, and the re-initialised proxy holds the kernel's wakelock for nobody |
| `BlobOrder.CompareIsAntisymmetric` | reorder-blobs.py:18-49 | Swapping the arguments negates the answer, for any two lines |
| `BlobOrder.ComparesExactly` | reorder-blobs.py:18-49 | For any two lines the comparator is the lexicographic order of two keys, where a slashless line goes by the directory it names exactly if the other line is strictly below it |
| `BlobOrder.StripExactly` | reorder-blobs.py:23-26 | One leading dash is removed, no second one, and nothing from a line without |
| `BlobOrder.DashIsIgnored` | reorder-blobs.py:23-26 | Lines compare as they do without their leading dash; a second dash counts |
| `BlobOrder.DeeperBeforeDirect` | reorder-blobs.py:38-49 | Under any directory what is deeper comes before the files directly in it, and those compare by name |
| `BlobOrder.TiesExactly` | reorder-blobs.py:20-30 | Two lines tie exactly when they are equal up to a leading dash, empty lines apart |
| `BlobOrder.PathsGoByKey` | reorder-blobs.py:32-49 | Paths compare by directory, with a deeper directory before its ancestors, then by the whole string |
| `BlobOrder.ComparesKeys` | reorder-blobs.py:18-49 | In a section without crossings all lines, paths or not, compare by one lexicographic key |
| `BlobOrder.CrossingIsCycle` | reorder-blobs.py:28-49 | A crossing makes three lines that each come before the next |
| `BlobOrder.TransitiveExactly` | reorder-blobs.py:62 | The comparator is transitive on a section exactly when the section has no crossing |
| `BlobOrder.PathsAreOrderly` | reorder-blobs.py:28-30 | Sections of paths only, or of slashless lines only, have none |
| `BlobOrder.HeadedSectionsAreOrderly` | reorder-blobs.py:60-63 | Nor have sections of paths under slashless headings that start with # |
| `BlobOrder.SmallestCycle` | reorder-blobs.py:18-49 | A concrete section of three lines on which it is not transitive |
| `BlobSort.SortsStably` | reorder-blobs.py:60-63 | Sorting such a section gives a sorted permutation that keeps the order of ties |
| `BlobSort.SortableExactly` | reorder-blobs.py:62 | A section has a sorted arrangement at all exactly when it has no crossing |
| `BlobSort.StableSortIsUnique` | reorder-blobs.py:62 | Every stable sort of it gives the same result |
| `BlobSort.SortingAgainChangesNothing` | reorder-blobs.py:60-63 | A second stable sort, of whatever algorithm, changes nothing |
| `BlobSort.DirectoriesAreBlocks` | reorder-blobs.py:38-46 | In any sorted section everything under a directory is one block, in which only the directory's own name can stand |
| `BlobSort.DirectFilesComeLast` | reorder-blobs.py:38-46 | In that block files directly in the directory come after everything deeper |
| `BlobFile.ReorderSections` | reorder-blobs.py:56-66 | The text written for a text read: sections kept in their order, each a permutation of its stripped lines and a stable sort of them if it is orderly |
| `BlobFile.WrittenSectionsAreSorted` | reorder-blobs.py:59-66 | Every section of the written file, as the script would read it again, is sorted, although blank lines among the entries shift where sections begin |
| `BlobFile.WrittenTextIsTidy` | reorder-blobs.py:66 | The written text ends in exactly one line break, with no other white space at either end |
| `BlobFile.RunningAgainChangesNothing` | reorder-blobs.py:51-66 | On its own output the script changes no character, for any text with orderly sections, whatever stable sort the library has |
| `BlobEntries.NothingIsLost` | reorder-blobs.py:51-66 | For every text, orderly or not, every entry (stripped line that is not blank) is written as often as it was read |
| `BlobText.SplitJoinsBack` | reorder-blobs.py:57-66 | Joining the sections that split finds gives the text back |
| `BlobText.SplitsExactly` | reorder-blobs.py:57 | The sections are the only list that joins to the text, has no blank line in a section and no line break at the end of one but the last |
| `BlobText.SectionsAreCut` | reorder-blobs.py:57 | They are such a list |
| `BlobText.LinesOfBreakAfter` | reorder-blobs.py:61 | A line ends at the first of splitlines' break characters, which is dropped |
| `BlobText.TrimsExactly` | reorder-blobs.py:61 | strip cuts white space off both ends, all of it, and nothing else |
| `Brightness.BrightnessBetweenChannels` | lights/Light.cpp:61-80 | Brightness lies between the smallest and the largest alpha-scaled channel, and is at most alpha |
| `Brightness.BrightnessMonotone` | lights/Light.cpp:61-80 | It never falls when alpha, red, green or blue rises |
| `Brightness.OpaqueGrey` | lights/Light.cpp:61-80 | An opaque grey x has brightness x |
| `Brightness.BrightnessError` | lights/Light.cpp:75-79 | It is at most the exact weighted value, and less than 2 below it |
| `Brightness.ScalingDoesNotWrap` | lights/Light.cpp:82-88 | For ranges up to 16909321 the wrapping arithmetic is the exact quotient |
| `Brightness.FullBrightnessExactly` | lights/Light.cpp:87 | 255 maps to the maximum exactly for ranges from 1 to 16909321 |
| `Brightness.ScalingStaysInRange` | lights/Light.cpp:82-88 | Lit values stay in 1..max exactly when the maximum is not 0; 0 maps to 0 and 1 to 1 |
| `Brightness.ScalingMonotone` | lights/Light.cpp:82-88 | Scaling is monotone in brightness and in the maximum |
| `Brightness.ScalingStrictExactly` | lights/Light.cpp:82-88 | It is strictly increasing in brightness exactly when the maximum is at least 255 |
| `Brightness.PanelBrightness` | lights/Light.cpp:90-92 | The composition is monotone, in range, dark exactly for dark colours, and full for opaque white |
| `Brightness.BrightnessExactly` | lights/Light.cpp:61-80 | The brightness of any colour as one formula, without wrapping |
| `Brightness.ScalesExactly` | lights/Light.cpp:82-88 | The scaled value for every brightness and every 32-bit maximum, with the wrapping product |
| `Brightness.PanelExactly` | lights/Light.cpp:90-92 | The value for the panel for any colour and range as one formula |
| `Brightness.ChannelsExactly` | lights/Light.cpp:64-70 | The four channels are the colour's bytes and make it up |

## Left out

- The check of `mThreadsRun` and the locked region that it guards are one step; the source reads the flag just before it takes the mutex.
- `initializeCommon` clears the queues without the queue mutex; here it is one step, taken after both threads have been joined and while no post is half done.
- The two calls on the message queue in a direct write are one step; what is read or drained between them is taken to be so after them.
- Whether the threads ever notice a stop: the flag and the notifications are set without the mutexes, so their exit is not claimed.
- `EventsAreReceivedInOrder`: says in which order events are received, not that the framework ever reads them.
- `HandlePendingWrites`: the loop is proved when nobody posts meanwhile; other threads are the subject of the machine.
- `HandleWakelocks`: the loop is proved when nobody else changes the count; other threads are the subject of the machine.
- `InitializeCommon`: the callback and the flags are one result; the dynamic sensors and the mode are reset in `DynamicSensorTable.Reset` and `ModeSwitch.Initialize`.
- Widths of `size_t` counters and of times: the reference count, queue sizes and clock readings are unbounded.
- `getSensorsList`, `injectSensorData`, `registerDirectChannel`, `unregisterDirectChannel`: forwarding with the checks that are modelled for other calls, and, for injection, a look at the current mode.
- `disableAllSensors`, `debug`, and what sub-HALs do with a call: not part of the state that is modelled.
- Loading sub-HALs from the configuration file and shared objects: the model starts from the list of sub-HALs.
- `ReorderSections`: opening and decoding the file are not modelled: text is what `read` returned, in which text mode has already turned carriage returns into line feeds. A section with a crossing is only promised to be permuted, as the library promises no more for a comparator that is no order.
- Locale: `strcoll` is the comparison of code points that it is in the C locale the script sets.
- Reading and writing sysfs files and the list of lights: input and output.
- `update-sha1sums.py`, `libinit`, `releasetools`, the health service, the Java receiver, scripts, makefiles and configuration files: glue or data.
