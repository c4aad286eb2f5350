# Verified model of the TinyENV nRF sensor firmware

The firmware runs one controller, `AppTask`, on a Matter-over-Thread temperature, humidity and battery sensor. Two
periodic timers drive it: a one-second commissioning and Thread policy tick, and a sixty-second sampling timer. In
diagnostic mode it also keeps persistent counters in flash, arms a watchdog, takes health snapshots and reboots a
commissioned node that stays detached from its Thread network. This project models that controller, its battery
arithmetic and its runtime identity, and proves what holds over whole boots and over any number of boots.

## Layout

| file | contents |
|---|---|
| `Base.dfy` | 32-bit words, C rounding on exact reals, lists of times |
| `Settings.dfy` | the nine diagnostic keys, the flash store, the load callback |
| `Effects.dfy` | the trace: saves, radio writes, kicks, attributes, snapshots, feeds, reboots |
| `ThreadLink.dfy` | the Thread role and parent tracker, and its history definition |
| `Awake.dfy` | commissioning hold, cached radio power and ICD kicks, and their history definitions |
| `Sampling.dfy` | the sampling gate, its history definition, and what feeds the watchdog |
| `BatteryCurve.dfy`, `BatterySense.dfy` | interpolation through any table; the switched divider and its four samples |
| `Identity.dfy` | seed, rotating id, serial number |
| `Diagnostics.dfy` | RAM counters against flash, and what a trace says about both |
| `Machine.dfy` | the whole controller as a state machine: callbacks, start-up, boots, lives |
| `AppTask.dfy` | the controller as a class with the header's fields, each method proved against the machine |
| `Projection.dfy` | each part follows its own inputs, whatever is interleaved |
| `PolicyTheorems.dfy` | hold, radio, kicks and detached reboot over a boot |
| `HealthTheorems.dfy` | published readings and health snapshots over a boot |
| `WatchdogTheorems.dfy` | feeding the watchdog over a boot |
| `FlashTheorems.dfy` | flash as the replay of the trace's saves, and the persisted uptime |
| `Persistence.dfy`, `LifeTheorems.dfy` | flash against RAM, conservation, watchdog counts and reboot rate over lives |
| `DiagnosticTheorems.dfy` | failures counted, role, uptime and reset reason kept, arming, order of effects |
| `Simulation.dfy` | the device with diagnostics against the one without |

The state machine is the specification, the class is the program. Every method of the class equates its new state and
the effects it appends to the trace with a function of the machine (`AppTask.UpdateCommissioningAwakePolicy` with
`Machine.Policy`, `AppTask.UpdateTemperatureTimeout` with `Machine.Sample`, `AppTask.Boot` with `Machine.Boot`). The
theorems then speak of the machine and compare it with definitions that do not mention it: what the window history
says about the hold, what a writer without a cache does to the radio, how many boots ended detached.

## Modelling assumptions

- Each callback body, and start-up up to the main loop, is one atomic step. Callbacks come in any order and number; those
  listed after a reboot are not executed (`Projection.Ran`, and `Projection.Live` for a boot).
- `AppTask.Platform` stands for the hardware: its methods are stubs of the foreign calls, with the effect each is known
  to have and a ghost log.
- Every foreign answer is an input of the step that asks for it: clock, Thread role and parent, commissioning window,
  fabric count, sensor, ADC, GPIO, radio, watchdog driver, and which flash saves succeed (`saves`). A policy tick has
  three clock reads: its own (`ms`), the handler's (`thread.ms`) and the snapshot's (`healthMs`).
- The tick reads the Thread role twice under the Thread stack lock; both reads give the same role.
- Times are unbounded integers of milliseconds. Where a result needs the clock to be non-negative or never to go back,
  it says so (`Ordered`, `Timely`, `TimelyBoot`). The code treats uptime zero as "never" for the commissioning time,
  the detachment time and the latest snapshot, and the statements keep that case.
- Counters are `uint32_t` and wrap; the statements are modulo 2^32 unless they ask that nothing wraps.
- Diagnostic mode and the Kconfig values are fields of `Config`; theorems use at most their ranges (`Config.Valid`).
- Reset reasons accumulate in a sticky register until the boot code clears them or power is lost. A boot may come with
  an erased store (`wiped`), and may end before it reaches `DiagOnBoot` (`start` is `None`).
- Theorems that cross boots trust the settings backend to list what was saved (`Settings.Agrees`): entries for other
  names, duplicates, wrong lengths and short reads may appear anywhere. `Settings.LoadTakesLast` does not trust it.
- Voltages, temperatures and percentages are exact reals; `lround` rounds halves away from zero.

## What the proofs brought to light

- On the sampling timer alone a healthy node keeps its watchdog iff the timeout is longer than 60 s, but the
  configuration allows 30 s and more (`WatchdogTheorems.TimerAloneNeedsLongTimeout`). In the boot of
  `WatchdogTheorems.ShortTimeoutExpires` sensor, ADC and flash never fail, the main loop turns once, and any permitted
  timeout up to 60 s expires. What hides this is the main loop, which feeds the watchdog whenever it dispatches a task.
  Every longer timeout is safe from the first published round on (`WatchdogTheorems.WatchdogNeverStarves`): the sampling
  gate costs a node that stays commissioned no round after that.
- The persisted watchdog count can exceed the persisted boot count. From an empty store each equals the number of boots
  that logged it, so the order holds iff at least as many boots saved their boot count as read and saved a watchdog reset
  (`LifeTheorems.WatchdogCountAgainstBootCount`); after the life of `LifeTheorems.WatchdogCountPassesBootCount` flash
  shows two watchdog resets and no boot. It never shows more of them than boots that happened
  (`LifeTheorems.WatchdogBelowBoots`).
- The reset register is cleared before the watchdog count is saved, so a failed save loses that reset for good, as do
  a power loss and a second watchdog reset before the first is read. `LifeTheorems.ResetsAreLoggedOrLost` accounts for
  every reset, and flash shows them all iff none was lost and none is still unread (`LifeTheorems.PersistedWatchdogCount`).
- The persisted uptime does go back across a reset: flash shows the previous boot's value until this boot saves its first
  snapshot (`FlashTheorems.UptimeFallsAfterReset`). What a boot itself saves only rises, so within a boot the value never
  falls iff the one found at reset is at most the second of the first due snapshot whose save succeeds
  (`FlashTheorems.PersistedUptimeNeverFalls`).
- A failed save loses its event only if no later save of the same key succeeds in the same boot: the next boot restarts
  from what flash holds. `Persistence.Recorded` counts exactly the events that survive, and `Persistence.LifeBooks`
  shows flash is always its start plus these.

## Model

| member | source | states |
|---|---|---|
| `AppTask.AppTask.constructor` | src/app_task.h:64-90 | A new object is RAM at its initial values over whatever flash, reset reasons and radio power it finds |
| `AppTask.Platform.Reset` | src/main.cpp:20-41 | Flash survives a reset unless the settings partition was erased; reset reasons accumulate unless power was lost |
| `AppTask.Platform.SaveDiagValue` | src/app_task.cpp:120-123 | A save either stores the word under its key or leaves flash alone, and is logged with its outcome |
| `AppTask.Platform.SetTransmitPower` | src/app_task.cpp:567-569 | The radio takes the new power iff it accepts the call, which needs the Thread stack lock |
| `AppTask.Platform.SysReboot` | src/app_task.cpp:551 | A reboot is logged and marks the device as stopped |
| `AppTask.AppTask.DiagOnBoot` | src/app_task.cpp:581-613 | Loads the counters, reads and clears the reset register, counts the boot, notes the reason, counts a watchdog reset; nothing at all without diagnostics |
| `AppTask.AppTask.LoadCounters` | src/app_task.cpp:587-596 | After the load each RAM counter is what the fold over the listed entries gives |
| `AppTask.AppTask.CountBoot` | src/app_task.cpp:601-609 | RAM, flash and trace after the boot has been counted, whichever of the saves fail |
| `AppTask.AppTask.DiagOnThreadDetached` | src/app_task.cpp:653-661 | Counts and tries to save one detachment, in diagnostic mode only |
| `AppTask.AppTask.DiagOnThreadReattached` | src/app_task.cpp:663-671 | Counts and tries to save one reattachment, in diagnostic mode only |
| `AppTask.AppTask.DiagOnSensorReadFailure` | src/app_task.cpp:673-681 | Counts and tries to save one sensor failure, in diagnostic mode only |
| `AppTask.AppTask.DiagOnAdcReadFailure` | src/app_task.cpp:683-691 | Counts and tries to save one ADC failure, in diagnostic mode only |
| `AppTask.AppTask.MaybeLogAndPersistHealthSnapshot` | src/app_task.cpp:693-712 | Takes a snapshot iff it is the first or an interval has passed; stores uptime seconds and role, each only if its save succeeds |
| `AppTask.AppTask.DiagInitWatchdog` | src/app_task.cpp:615-642 | The channel is valid iff the device is ready, installs and sets up; otherwise it is -1 |
| `AppTask.AppTask.DiagFeedWatchdog` | src/app_task.cpp:644-651 | Feeds iff diagnostics are on and the watchdog is armed |
| `AppTask.AppTask.HandleThreadStateChange` | src/app_task.cpp:931-980 | Tracks role and parent and counts a detach or reattach edge; releases the Thread stack lock on every path |
| `AppTask.AppTask.OnRole` | src/app_task.cpp:941-957 | Role, detached flag and detach time move together, and an edge is counted exactly when the flag flips |
| `AppTask.AppTask.OnParent` | src/app_task.cpp:959-977 | The parent's address is remembered for a child and cleared for any other role |
| `AppTask.AppTask.ApplyThreadTxPower` | src/app_task.cpp:557-579 | Writes only when the cache differs; the cache moves only if the radio accepts; the lock is released |
| `AppTask.AppTask.TrackWindow` | src/app_task.cpp:522-536 | A window edge sets the deadline to grace after a closing and to zero on an opening |
| `AppTask.AppTask.KeepAwake` | src/app_task.cpp:522-545 | Hold, radio power and kick of one tick, from window, deadline and cache |
| `AppTask.AppTask.UpdateCommissioningAwakePolicy` | src/app_task.cpp:515-555 | One policy tick, in order: link, window, radio, kick, then reboot or snapshot |
| `AppTask.AppTask.UpdateSensorReadings` | src/app_task.cpp:839-889 | Returns true iff the gate passes and the sensor delivers; otherwise both readings stay, and a failure is counted iff the sensor was asked |
| `AppTask.AppTask.UpdateMatterAttributes` | src/app_task.cpp:891-929 | Publishes the stored climate, then the battery reading, with any ADC failure counted in between |
| `AppTask.AppTask.TakeSample` | src/app_task.cpp:361-367 | A reading and, iff it succeeds, its publication and perhaps a snapshot |
| `AppTask.AppTask.UpdateTemperatureTimeout` | src/app_task.cpp:350-374 | One sampling round; the watchdog is fed only if the round published |
| `AppTask.AppTask.Init` | src/app_task.cpp:387-463 | A Matter stack that fails to prepare leaves everything untouched; then diagnostics before sensor before watchdog, and giving up leaves the later parts untouched |
| `AppTask.AppTask.StartApp` | src/app_task.cpp:465-500 | Start-up as a step of the machine, with one forced sample; a start that fails anywhere stops the device |
| `AppTask.AppTask.Dispatch` | src/app_task.cpp:350-385 | One callback or loop turn is the machine's step; on a stopped device nothing happens |
| `AppTask.AppTask.MainLoop` | src/app_task.cpp:502-505 | Any sequence of callbacks and loop turns takes the object where the machine's run goes, with the same trace |
| `AppTask.Boot` | src/app_task.cpp:465-508 | A whole boot of the object, from reset on and however start-up ends, is the machine's boot: state and trace |
| `Settings.DiagLoadContext.DiagLoadCb` | src/app_task.cpp:135-159 | One entry changes at most the counter it names, and only if its length and read are right |
| `Settings.DiagLoadContext.LoadSubtree` | src/app_task.cpp:587-588 | Running the callback over all entries computes the fold |
| `Settings.KeyNamedIsInverse` | src/app_task.cpp:110-118 | The names under which values are saved and the names the loader knows agree, key by key, and no two keys collide |
| `Settings.LoadTakesLast` | src/app_task.cpp:125-159 | Whatever entries come in whatever order, each counter is the last well-formed value of its key, or zero |
| `Settings.LoadRestores` | src/app_task.cpp:587-596 | If the backend lists the store, loading gives back exactly what was saved |
| `Settings.ListingAgrees` | src/app_task.cpp:587-588 | Any listing with every stored key, right values and no stray well-formed entry is such a listing |
| `ThreadLink.TrackerMatchesHistory` | src/app_task.cpp:941-956 | Detached flag iff the last role is DETACHED iff the history has an unbroken run of DETACHED observations; its date is that of the first of them |
| `ThreadLink.TrackerHasLatestRole` | src/app_task.cpp:941-956 | The tracked role is the one last observed, DISABLED before any |
| `ThreadLink.EdgeIsStart` | src/app_task.cpp:945-948 | A detachment is reported exactly at the observation where such a run begins |
| `ThreadLink.EdgesBalance` | src/app_task.cpp:945-953 | Reported detachments minus reattachments is one while detached and zero otherwise |
| `ThreadLink.ParentOnlyAsChild` | src/app_task.cpp:959-977 | A parent is remembered only while the node is a child, and its address only with it |
| `ThreadLink.ParentMatchesHistory` | src/app_task.cpp:959-977 | The remembered parent is the latest one reported since the node last became a child; none is remembered iff there is no such report |
| `Awake.StoredDeadline` | src/app_task.cpp:522-536 | The one stored deadline is always that of the latest observed closing, or zero while the window is open |
| `Awake.HoldMatchesHistory` | src/app_task.cpp:520-538 | Hold iff the window is open or some observed closing is less than 180 s old, for any sequence of reopenings |
| `Awake.CacheRefinesNaive` | src/app_task.cpp:538-579 | With the same radio answers, the cached writer leaves the same power after every tick as one that asks every tick for 8 dBm while the window history says hold and for the configured power otherwise; the cache is the sentinel or the true power |
| `Awake.WritesCountChanges` | src/app_task.cpp:538-579 | With no refusals there is one write for the first tick and one per change of the desired level |
| `Awake.KicksAreRateLimited` | src/app_task.cpp:542-545 | Kicks are at least a period apart and from boot; the stored kick time is the latest |
| `Awake.KickMatchesHistory` | src/app_task.cpp:542-545 | A tick kicks iff hold is active and neither boot nor any kick lies within the last period |
| `Awake.KicksKeepComing` | src/app_task.cpp:542-545 | If the last tick before a kick finds hold active and is at most d earlier, the kick is less than 1000 + d ms after the one before |
| `Awake.ConsecutiveKicksAreClose` | src/app_task.cpp:542-545 | While hold lasts and ticks are at most d apart, any two consecutive kicks are less than 1000 + d ms apart |
| `Awake.HoldKeepsAwake` | src/app_task.cpp:538-545 | At every tick with hold active, a kick lies less than one period back, unless the node has been up for less |
| `Sampling.GateIsLatestJoin` | src/app_task.cpp:844-847 | The stored commissioning time is that of the latest observed commissioning, zero when uncommissioned |
| `Sampling.GateMatchesHistory` | src/app_task.cpp:839-855 | A call passes iff forced, or commissioned with no commissioning observed in the last 30 s |
| `Sampling.EachJoinCostsOneSample` | src/app_task.cpp:839-855 | With calls at least 30 s apart, the periodic samples lost to the gate are exactly the commissionings periodic calls observe |
| `Sampling.GateMissesOnce` | src/app_task.cpp:844-855 | A commissioned node with a working sensor and spaced rounds never misses two rounds in a row |
| `Sampling.MissesTolerated` | src/app_task.cpp:361-368 | While at most k rounds in a row publish nothing, feeds are at most k + 1 round gaps and one latency apart |
| `Sampling.SettledNodeSurvives` | src/app_task.cpp:839-855 | From a gate whose grace period is over, a working node loses no round, and any timeout above round gap plus latency survives |
| `Sampling.SpacedNodeSurvives` | src/app_task.cpp:350-374 | The same when only the rounds themselves lie a grace period past the commissioning |
| `Sampling.PeriodicSurvivesIff` | src/app_task.h:44 | Exact 60 s rounds keep a watchdog alive iff its timeout exceeds 60 s |
| `BatteryCurve.AnySegment` | src/app_task.cpp:730-738 | Whichever segment that covers a voltage is used, the value is the same |
| `BatteryCurve.ExactAtKnots` | src/app_task.cpp:725-738 | The interpolant meets every knot of any well-formed table |
| `BatteryCurve.InterpolateMonotone` | src/app_task.cpp:730-738 | It never falls as the voltage rises, and stays within the table's percentages |
| `BatteryCurve.PercentIsSound` | src/app_task.cpp:714-740 | For every voltage the percentage is in range, non-decreasing, and within one half of the line |
| `BatteryCurve.Scan` | src/app_task.cpp:730-739 | The scan finds the interpolant for any table, and its final fallback cannot be reached |
| `BatteryCurve.VoltsToPercent` | src/app_task.cpp:714-740 | The firmware's function is the table's percentage on all reals, in 0..100 |
| `BatteryCurve.KnownCharges` | src/app_task.cpp:725-728 | The percentage at each of the twelve voltages of the discharge table |
| `BatterySense.BatteryMonitor.InitBatterySense` | src/app_task.cpp:749-791 | The first set-up decides for good; it leaves the divider disconnected |
| `BatterySense.BatteryMonitor.ReadBatteryVolts` | src/app_task.cpp:793-837 | Voltage from the positive samples, or the placeholder; an ADC failure is reported iff a sample failed; the divider is connected at every ADC read and off on every way out; reads stop at the first failure |
| `BatterySense.MeasuredInvertsTheAdc` | src/app_task.cpp:831-834 | Sampled by an ideal 12-bit ADC behind the 1M/510k divider, the mean of four battery voltages comes back at most one step too low and never too high |
| `BatterySense.NegativeIsZero` | src/app_task.cpp:820-823 | A sample below zero counts as zero |
| `BatterySense.FailureShowsPlaceholder` | src/app_task.cpp:742-747 | A failed read, or a divider not set up on the first attempt, shows 3690 mV |
| `BatterySense.AttributesAreNearest` | src/app_task.cpp:906-909 | Millivolts are the nearest; half percents are twice the percentage, 200 from 4.14 V, 0 up to 3.00 V, within one of the line between |
| `BatterySense.SumFits` | src/app_task.cpp:799-824 | Four int16 samples cannot overflow the 32-bit sum |
| `BatterySense.PipelineMonotone` | src/app_task.cpp:793-909 | Millivolts and half percents are non-decreasing in every sample |
| `BatterySense.ReadingsFit` | src/app_task.cpp:906-909 | Every reading fits its attribute: millivolts in 32 bits, half percents even and in 0..200, as section 11.7 of the Matter Core Specification asks |
| `BatterySense.SetUpIsFinal` | src/app_task.cpp:751-757 | After a failed first set-up every reading of the boot is the placeholder |
| `Identity.GetHardwareIdentitySeed` | src/tinyenv_device_identity.cpp:29-35 | Fills the first 16 bytes with the four factory words, little-endian, and nothing else |
| `Identity.SeedRoundTrip` | src/tinyenv_device_identity.cpp:29-35 | The seed decodes back to its four words |
| `Identity.GetRuntimeRotatingIdUniqueId` | src/tinyenv_device_identity.cpp:37-50 | Succeeds iff 16 bytes fit and hashing works; writes the first half of the digest and shrinks the span, else changes nothing |
| `Identity.HexRoundTrip` | src/tinyenv_device_identity.cpp:80-82 | Fixed-width upper-case hexadecimal reads back to the number |
| `Identity.SerialRoundTrip` | src/tinyenv_device_identity.cpp:78-88 | The serial is 28 characters, starts with TINYENV-NRF- and gives back both device id words |
| `Identity.SerialInjective` | src/tinyenv_device_identity.cpp:78-88 | Two chips share a serial iff they share the device id |
| `Identity.TinyEnvGetRuntimeSerialNumber` | src/tinyenv_device_identity.cpp:78-88 | Succeeds exactly when the buffer holds 29 characters, and never writes past the given size |
| `Diagnostics.CountedExplained` | src/app_task.cpp:601-609 | The boot's own saves account for its RAM counters and flash |
| `Diagnostics.CodeTells` | src/app_task.cpp:598-604 | The register's word has exactly the bits of its reasons set: 0x2 for the watchdog, 0x4 for a software reset, and so on |
| `Projection.LinkAndGateFollow` | src/app_task.cpp:350-385 | In any interleaving, link tracker and sampling gate are what their own inputs make of them |
| `Projection.PolicyFollows` | src/app_task.cpp:515-555 | In any interleaving, hold, radio power, radio writes and kicks are those of the policy's own ticks |
| `Projection.StartStarts` | src/app_task.cpp:465-500 | A boot that starts leaves link and policy untouched and the gate with one forced call |
| `Projection.BootPolicy` | src/app_task.cpp:515-555 | However a boot starts and ends, its hold, radio power, radio writes and kicks are those of the policy ticks it executed |
| `Projection.BootLinkAndGate` | src/app_task.cpp:350-385 | Once a boot has come up, link tracker and sampling gate are those of the observations and calls it executed |
| `PolicyTheorems.HoldAndKickMatchHistory` | src/app_task.cpp:520-545 | Hold and kick of a next tick after any boot so far are what its window history and its trace of kicks say |
| `PolicyTheorems.RadioRefinesNaive` | src/app_task.cpp:538-579 | After any boot, one that reboots itself included, the radio is where a writer without a cache would have put it, and the cached value is the sentinel or the true power |
| `PolicyTheorems.RadioFollowsWindow` | src/app_task.cpp:538-540 | If the radio accepts in its last tick, a boot leaves it at 8 dBm if the window is open or was seen to close less than 180 s ago, and at the configured power otherwise |
| `PolicyTheorems.RadioWritesCounted` | src/app_task.cpp:538-579 | If the radio accepts every write, the trace of any boot holds one write for its first tick plus one per level change |
| `PolicyTheorems.KicksRateLimited` | src/app_task.cpp:542-545 | In any boot, kicks times 1000 is at most the latest kick time, which is at most that of its last tick |
| `PolicyTheorems.KicksKeepComing` | src/app_task.cpp:538-545 | In the trace of any boot, consecutive kicks are less than 1000 + d ms apart if from one to the other hold is active and ticks are at most d apart |
| `PolicyTheorems.HoldKeepsAwake` | src/app_task.cpp:538-545 | In any boot, after a tick with hold active the trace has a kick less than one period back, unless uptime is shorter |
| `PolicyTheorems.RebootMatchesHistory` | src/app_task.cpp:547-552 | A tick reboots iff in diagnostic mode, commissioned, and every role seen since an observation strictly older than the threshold was DETACHED |
| `PolicyTheorems.DetachedNodeReboots` | src/app_task.cpp:547-552 | With ticks at most d apart, a commissioned node that stays detached runs up to the threshold, then reboots once, no later than threshold + d after detection |
| `Persistence.RunExplained` | src/app_task.cpp:653-712 | Over any callbacks RAM has counted every attempted save, and flash is RAM's value at the last successful one |
| `Persistence.BootBooks` | src/app_task.cpp:581-613 | RAM at any time of a boot is what flash held plus this boot's events; flash the same up to the last successful save |
| `Persistence.FlashNeverAhead` | src/app_task.cpp:120-123 | Before wrap, flash holds a value RAM once had, and trails RAM by exactly the saves failed since the last success |
| `Persistence.LifeBooks` | src/app_task.cpp:581-691 | Over any boots, whatever saves fail, flash is its start plus the events recorded; all of them if all saves succeed |
| `LifeTheorems.RunBalance` | src/app_task.cpp:941-956 | Whatever callbacks run, detachments minus reattachments counted is the change of the detached flag |
| `LifeTheorems.DetachConservation` | src/app_task.cpp:581-671 | With saves succeeding and no wipe, persisted detachments minus reattachments grow by the boots that ended detached, the present one included |
| `LifeTheorems.WatchdogCountedOnce` | src/app_task.cpp:598-609 | Each watchdog reset is counted at most once, in a boot that is counted too; none is missed if every boot reaches DiagOnBoot |
| `LifeTheorems.ResetsAreLoggedOrLost` | src/app_task.cpp:598-609 | Conservation over any boots: each watchdog reset is logged by one boot, lost by a power loss, a second strike or a failed save, or still in the register |
| `LifeTheorems.RecordedIsLogged` | src/app_task.cpp:598-609 | Register and persisted counts of boots and watchdog resets follow from the boots alone |
| `LifeTheorems.PersistedWatchdogCount` | src/app_task.cpp:598-609 | From an empty store flash never shows more watchdog resets than happened, and shows all iff none was lost and none is unread; so if every boot starts and saves |
| `LifeTheorems.WatchdogBelowBoots` | src/app_task.cpp:601-609 | Whatever saves fail, flash never shows more watchdog resets than boots that reached DiagOnBoot; if every boot count is saved it shows these exactly |
| `LifeTheorems.WatchdogCountAgainstBootCount` | src/app_task.cpp:601-609 | Over any boots from an empty store, both persisted counts are the boots that logged them, so the watchdog count stays at most the boot count iff at least as many boots logged themselves |
| `LifeTheorems.WatchdogCountPassesBootCount` | src/app_task.cpp:601-609 | A life of two watchdog resets after which flash shows two of them and no boot |
| `LifeTheorems.RebootsAreRateLimited` | src/app_task.cpp:547-552 | N self-inflicted reboots, over any boots, need more than N thresholds of total uptime |
| `HealthTheorems.ShowsOwnReading` | src/app_task.cpp:877-919 | A sample shows the world its own climate and battery reading in this order, or nothing |
| `HealthTheorems.ClimateIsNearest` | src/app_task.cpp:877-880 | Within the sensor's range both values are the nearest hundredth, not truncated |
| `Sampling.CastsKeepLowBits` | src/app_task.cpp:879-880 | Outside that range the casts keep the low 16 bits, for the temperature as a signed number |
| `HealthTheorems.PublishMatchesHistory` | src/app_task.cpp:839-889 | A periodic sample of a boot publishes iff the sensor works and no commissioning was observed in the last 30 s |
| `HealthTheorems.EachJoinCostsOneSample` | src/app_task.cpp:839-855 | In a boot whose gate calls are at least 30 s apart, the rounds the gate turns away on a commissioned node are exactly the commissionings observed by periodic rounds |
| `HealthTheorems.RunKeepsPace` | src/app_task.cpp:693-701 | Whatever callers interleave, snapshots are at least an interval apart |
| `HealthTheorems.SnapshotsAreRateLimited` | src/app_task.cpp:693-712 | n snapshots of one boot, start-up included, take more than n - 1 intervals of uptime |
| `HealthTheorems.SnapshotsKeepComing` | src/app_task.cpp:554 | Once begun, with policy ticks at most d apart, snapshots are less than an interval plus d apart, up to a reboot if there is one |
| `FlashTheorems.FlashIsWhatWasSaved` | src/app_task.cpp:120-123 | At any moment of a boot flash is what the reset left with the successful saves played over it, and an uptime is saved exactly with each snapshot |
| `FlashTheorems.BootFirst` | src/app_task.cpp:693-707 | The first uptime a boot saves is the second of its first due snapshot whose save succeeds, start-up's own if that one counts |
| `FlashTheorems.PersistedUptimeNeverFalls` | src/app_task.cpp:698-706 | Before seconds wrap, the uptimes a boot saves rise whatever saves fail; flash shows the value found at reset until the first of them, then the latest; so it never falls iff the value found is at most the second of the first due snapshot whose save succeeds |
| `FlashTheorems.UptimeFallsAfterReset` | src/app_task.cpp:698-706 | A boot that finds 5000 seconds in flash and saves its first snapshot after one second: the stored value falls |
| `WatchdogTheorems.FeedsFollow` | src/app_task.cpp:502-505 | An armed device feeds its watchdog by exactly the publishing rounds and the main-loop turns it executes |
| `WatchdogTheorems.WatchdogToleratesMisses` | src/app_task.cpp:361-368 | If at most k rounds in a row publish nothing, any timeout above k + 1 round gaps and one latency never expires |
| `WatchdogTheorems.CommissionedNodeFeeds` | src/app_task.cpp:839-855 | The gate gives k = 1 for a commissioned node with a working sensor and spaced rounds |
| `WatchdogTheorems.HealthyDeviceSurvives` | src/app_task.cpp:361-368 | From any feed on, be it a loop turn just after a commissioning, a commissioned device with a working sensor survives any timeout of at least grace plus gap plus latency |
| `WatchdogTheorems.SettledDeviceSurvives` | src/app_task.cpp:839-855 | Once its grace period is over, such a device survives any timeout above gap plus latency |
| `WatchdogTheorems.WatchdogNeverStarves` | src/app_task.cpp:361-368 | A boot in which some round publishes, and which then stays commissioned with a working sensor and regular rounds for as long as it lasts, never lets a timeout above gap plus latency expire after it |
| `WatchdogTheorems.TimerAloneNeedsLongTimeout` | Kconfig:75-79 | Fed by exact 60 s rounds alone, the watchdog survives iff its timeout exceeds 60 s |
| `WatchdogTheorems.ShortTimeoutExpires` | Kconfig:75-79 | A boot in which every save and every sensor and ADC read succeeds and every sample publishes, and in which every permitted timeout up to 60 s expires |
| `DiagnosticTheorems.FailuresAreCounted` | src/app_task.cpp:839-889 | A boot tries to save one sensor failure for every executed gate call that history lets through to a ready sensor that does not deliver, and one ADC failure for every published sample with a failed read on a divider the first publication set up |
| `DiagnosticTheorems.SnapshotIsPersisted` | src/app_task.cpp:704-707 | After a step that takes a snapshot, flash holds OpenThread's number of the role last observed, that step included, and the second of its clock; each only if its save succeeds |
| `DiagnosticTheorems.FirstSnapshotIsDisabled` | src/app_task.cpp:704-707 | Start-up's snapshot persists role number 0 |
| `DiagnosticTheorems.TickHasSnapshot` | src/app_task.cpp:693-701 | After every policy tick that does not reboot, the first included, the latest snapshot is less than an interval old |
| `DiagnosticTheorems.ResetReasonIsKept` | src/app_task.cpp:598-604 | Throughout a boot that reaches DiagOnBoot RAM tells, bit by bit, the reasons in the register; flash holds the same word iff its save succeeded, else what it held |
| `DiagnosticTheorems.ResetReasonOfLife` | src/app_task.cpp:598-604 | Over any boots, these are the reasons of every reset since the register was last read or power lost |
| `DiagnosticTheorems.BootFeeds` | src/app_task.cpp:615-651 | A boot feeds its watchdog, at every executed turn that may, iff diagnostics are on and the watchdog was ready, installed and set up; otherwise never |
| `DiagnosticTheorems.CallbacksAreInOrder` | src/app_task.cpp:515-555 | Within a callback each effect happens at most once and in the order of the program: link counter, radio, kick, then reboot or snapshot; or sensor failure, or climate, ADC failure, battery, snapshot, feed |
| `DiagnosticTheorems.StartIsInOrder` | src/app_task.cpp:581-613 | Start-up saves boot count, reset reason and watchdog count, in this order, before its sample |
| `Simulation.SampledMatches` | src/app_task.cpp:361-367 | A sample publishes the same values, or nothing, with and without diagnostics |
| `Simulation.PolicyMatches` | src/app_task.cpp:515-555 | A tick that does not reboot does the same with and without diagnostics |
| `Simulation.DiagnosticsOnlyWatch` | src/app_task.cpp:350-979 | Over any boots with the same inputs, up to the first diagnostic reboot, the two builds agree on all state but diagnostics and show the world the same radio writes, kicks and readings in the same order |

## Left out

- LED thread, green pulse, logging, role names, wake button and board UI: no guarantee to prove beyond their own code.
- Shell commands and the settings-wipe start of `src/main.cpp`: only their effect on the store, as the flag `wiped`.
- `src/default_zap`: generated tables and switch dispatch.
- Drivers and stacks below the application (settings, GPIO, ADC, I2C, radio, watchdog, OpenThread, Matter server): oracles.
- SHA-256: a parameter of the rotating id, of which only the 32-byte length is assumed.
- Single-precision arithmetic: the battery code works in `float`; the model uses exact reals with the same rounding rule, so a result within rounding error of a half could differ by one.
- Preemption inside a callback, and a reset or power loss in the middle of one: each callback is atomic.
- The error code of a failed start-up: `earlyOk` and `lateOk` stand for the points before and after the sensor and watchdog where `Init` or `StartApp` may give up.
- Attributes with constant values (power source status, battery present, replaceability, charge level, temperature limits) and the user-active-mode hint.
- Status codes of attribute writes, which the program only logs.
- Null checks of the timer callbacks and of the watchdog device, and the clearing of exactly the bits that were read: the register is read and cleared in one step.
- The provider classes around the identity functions: they only forward. `written > 0` in the serial number always holds.
- Subtree prefix of the keys: `Settings.Name` is the part below `tinyenv/diag`, which is what the callback receives.
- Time of a watchdog expiry: the theorems say when it cannot or must happen; a watchdog reset is an input of the next boot.
