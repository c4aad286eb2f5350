/** What the diagnostics of a boot mean: failures counted, the role and uptime persisted, the reset reason kept. */
module DiagnosticTheorems {
  import opened Base
  import opened Settings
  import opened Effects
  import opened ThreadLink
  import S = Sampling
  import opened BatterySense
  import opened Diagnostics
  import opened Machine
  import opened Projection
  import opened Persistence
  import opened LifeTheorems
  import opened HealthTheorems
  import opened WatchdogTheorems

  predicate Started(b: BootRun) {
    b.start.Some? && b.start.value.earlyOk && b.start.value.lateOk
  }

  // ----- Sensor and ADC failures -----

  /** A ready sensor that does not deliver: the fetch fails, or a channel is missing. */
  predicate ReadFails(s: SampleInput) {
    !s.fetchOk || s.channels.None?
  }

  /** The rounds among executed steps that the history of gate calls lets through to the sensor. */
  function Admitted(first: S.Call, steps: seq<Step>): seq<SampleInput> {
    if steps == [] then []
    else
      var front, st := steps[..|steps| - 1], steps[|steps| - 1];
      if st.SampleStep? && S.PassesByHistory(Calls(first, front) + [CallOf(st.s, false)])
      then Admitted(first, front) + [st.s] else Admitted(first, front)
  }

  /** How many reads failed, and which samples were published, if the sensor is ready. */
  function FailedReads(admitted: seq<SampleInput>): nat {
    if admitted == [] then 0
    else FailedReads(admitted[..|admitted| - 1]) + One(ReadFails(admitted[|admitted| - 1]))
  }

  function Delivered(admitted: seq<SampleInput>): seq<SampleInput> {
    if admitted == [] then []
    else
      var before, s := Delivered(admitted[..|admitted| - 1]), admitted[|admitted| - 1];
      if ReadFails(s) then before else before + [s]
  }

  /** Failed measurements: a sample was missing, and the first published sample had set the divider up. */
  function FailedMeasurements(published: seq<SampleInput>): nat {
    if published == [] then 0
    else
      var n := |published| - 1;
      var first := published[0].battery;
      FailedMeasurements(published[..n])
      + One(first.adcReady && first.gpioReady && first.pinOk && first.channelOk && None in published[n].battery.samples)
  }

  /** The battery code after these publications. */
  function SenseAfter(published: seq<SampleInput>): Sense {
    if published == [] then COLD
    else
      var first := published[0].battery;
      Sense(true, first.adcReady && first.gpioReady && first.pinOk && first.channelOk, false)
  }

  /** The samples a boot admits, start-up's forced one first, and what comes of them. */
  function BootAdmitted(cfg: Config, d: Device, b: BootRun): seq<SampleInput>
    requires b.start.Some?
  {
    [b.start.value.sample] + Admitted(CallOf(b.start.value.sample, true), Live(cfg, d, b))
  }

  /** What the account says of a boot so far: failures counted and battery state, for a sensor that is ready or not. */
  predicate Accounts(sense: Sense, fx: Trace, ready: bool, admitted: seq<SampleInput>) {
    && Attempts(fx, SensorFailureCount) == (if ready then FailedReads(admitted) else 0)
    && Attempts(fx, AdcFailureCount) == (if ready then FailedMeasurements(Delivered(admitted)) else 0)
    && sense == if ready then SenseAfter(Delivered(admitted)) else COLD
  }

  /** One more executed sample, or something that saves neither counter. */
  lemma AccountsThen(sense: Sense, a: Trace, ready: bool, admitted: seq<SampleInput>, s: SampleInput, after: Sense, b: Trace)
    requires Accounts(sense, a, ready, admitted)
    requires Attempts(b, SensorFailureCount) == One(ready && ReadFails(s))
    requires Attempts(b, AdcFailureCount) == One(ready && !ReadFails(s) && AdcFails(sense, s.battery))
    requires after == if ready && !ReadFails(s) then Prepared(sense, s.battery) else sense
    ensures Accounts(after, a + b, ready, admitted + [s])
  {
    TallyConcat(a, b, SensorFailureCount);
    TallyConcat(a, b, AdcFailureCount);
    assert (admitted + [s])[..|admitted|] == admitted;
    var before := Delivered(admitted);
    if ready && !ReadFails(s) {
      assert (before + [s])[..|before|] == before;
      assert (before + [s])[0] == if before == [] then s else before[0];
    }
  }

  lemma AccountsStay(sense: Sense, a: Trace, ready: bool, admitted: seq<SampleInput>, b: Trace)
    requires Accounts(sense, a, ready, admitted)
    requires Attempts(b, SensorFailureCount) == 0 && Attempts(b, AdcFailureCount) == 0
    ensures Accounts(sense, a + b, ready, admitted)
  {
    TallyConcat(a, b, SensorFailureCount);
    TallyConcat(a, b, AdcFailureCount);
  }

  lemma BumpTally(cfg: Config, m: Mem, j: Option<Key>, saves: set<Key>, k: Key)
    requires cfg.diag
    ensures Attempts(BumpMemFx(cfg, m, j, saves), k) == One(j == Some(k))
  {
    if j.Some? {
      TallySingle(BumpFx(m, j.value, saves)[0], k);
    }
  }

  lemma ShownTally(cfg: Config, d: Device, s: SampleInput)
    requires cfg.diag
    ensures Attempts(Shown(cfg, d, s).fx, SensorFailureCount) == 0
    ensures Attempts(Shown(cfg, d, s).fx, AdcFailureCount) == One(AdcFails(d.sense, s.battery))
    ensures Shown(cfg, d, s).d.sense == Prepared(d.sense, s.battery)
  {
    hide Measured, Millivolts, HalfPercent;
    var v, key := Measured(d.sense, s.battery), AdcKey(d.sense, s.battery);
    var bump := BumpMemFx(cfg, d.mem, key, s.saves);
    BumpTally(cfg, d.mem, key, s.saves, SensorFailureCount);
    BumpTally(cfg, d.mem, key, s.saves, AdcFailureCount);
    MiddleTally(Climate(d.temperature, d.humidity), bump, Battery(Millivolts(v), HalfPercent(v)), SensorFailureCount);
    MiddleTally(Climate(d.temperature, d.humidity), bump, Battery(Millivolts(v), HalfPercent(v)), AdcFailureCount);
  }

  lemma MiddleTally(climate: Effect, fx: Trace, battery: Effect, k: Key)
    requires climate.Climate? && battery.Battery?
    ensures Attempts([climate] + fx + [battery], k) == Attempts(fx, k)
  {
    TallyConcat([climate], fx, k);
    TallyConcat([climate] + fx, [battery], k);
    TallySingle(climate, k);
    TallySingle(battery, k);
  }

  lemma ThreeTally(a: Trace, b: Trace, c: Trace, keys: set<Key>, k: Key)
    requires SavesOnly(c, keys) && k !in keys
    ensures Attempts(a + (b + c), k) == Attempts(a, k) + Attempts(b, k)
  {
    TallyConcat(b, c, k);
    TallyConcat(a, b + c, k);
    NotSaved(c, keys, k);
  }

  lemma SensedTally(cfg: Config, d: Device, s: SampleInput, force: bool)
    requires cfg.diag
    ensures var a := Sensed(cfg, d, s, force);
            && Attempts(a.fx, SensorFailureCount) == One(S.Passes(d.gate, CallOf(s, force)) && d.shtReady && ReadFails(s))
            && Attempts(a.fx, AdcFailureCount) == 0 && a.d.sense == d.sense
  {
    BumpTally(cfg, d.mem, ReadKey(d.gate, d.shtReady, s, force), s.saves, SensorFailureCount);
    BumpTally(cfg, d.mem, ReadKey(d.gate, d.shtReady, s, force), s.saves, AdcFailureCount);
  }

  lemma SnappedTally(cfg: Config, d: Device, ms: int, saves: set<Key>)
    ensures SavesOnly(Snapped(cfg, d, ms, saves).fx, {LastUptimeSec, LastThreadRole})
    ensures Snapped(cfg, d, ms, saves).d.sense == d.sense
  {
  }

  /** What a sample counts, and what it leaves of the battery state. */
  lemma SampledFailures(cfg: Config, d: Device, s: SampleInput, force: bool)
    requires cfg.diag
    ensures var o, on := Sampled(cfg, d, s, force), S.Passes(d.gate, CallOf(s, force)) && d.shtReady;
            && Attempts(o.fx, SensorFailureCount) == One(on && ReadFails(s))
            && Attempts(o.fx, AdcFailureCount) == One(on && !ReadFails(s) && AdcFails(d.sense, s.battery))
            && o.d.sense == if on && !ReadFails(s) then Prepared(d.sense, s.battery) else d.sense
  {
    hide Sensed, Shown, Snapped, S.Passes;
    var a := Sensed(cfg, d, s, force);
    SensedTally(cfg, d, s, force);
    if Publishes(d.gate, d.shtReady, s, force) {
      var b := Shown(cfg, a.d, s);
      var c := Snapped(cfg, b.d, s.healthMs, s.saves);
      ShownTally(cfg, a.d, s);
      SnappedTally(cfg, b.d, s.healthMs, s.saves);
      ThreeTally(a.fx, b.fx, c.fx, {LastUptimeSec, LastThreadRole}, SensorFailureCount);
      ThreeTally(a.fx, b.fx, c.fx, {LastUptimeSec, LastThreadRole}, AdcFailureCount);
    }
  }

  lemma SampleFailures(cfg: Config, d: Device, s: SampleInput)
    requires cfg.diag && !d.halted
    ensures var o, on := Next(cfg, d, SampleStep(s)), S.Passes(d.gate, CallOf(s, false)) && d.shtReady;
            && Attempts(o.fx, SensorFailureCount) == One(on && ReadFails(s))
            && Attempts(o.fx, AdcFailureCount) == One(on && !ReadFails(s) && AdcFails(d.sense, s.battery))
            && o.d.sense == if on && !ReadFails(s) then Prepared(d.sense, s.battery) else d.sense
  {
    hide Sampled;
    SampledFailures(cfg, d, s, false);
    OtherKeys(Sampled(cfg, d, s, false).fx, RoundFeed(cfg, d, s), {}, SensorFailureCount);
    OtherKeys(Sampled(cfg, d, s, false).fx, RoundFeed(cfg, d, s), {}, AdcFailureCount);
  }

  lemma OtherFailures(cfg: Config, d: Device, st: Step)
    requires cfg.diag && !d.halted && !st.SampleStep?
    ensures var o := Next(cfg, d, st);
            && Attempts(o.fx, SensorFailureCount) == 0 && Attempts(o.fx, AdcFailureCount) == 0 && o.d.sense == d.sense
  {
    match st
    case PolicyStep(p) =>
      PolicyAttempts(cfg, d, p, SensorFailureCount);
      PolicyAttempts(cfg, d, p, AdcFailureCount);
    case LoopStep(ms) =>
      NotSaved(FeedFx(cfg, d.wdtChannel, ms), {}, SensorFailureCount);
      NotSaved(FeedFx(cfg, d.wdtChannel, ms), {}, AdcFailureCount);
  }

  lemma {:induction false} RunAccounts(cfg: Config, l: Outcome, first: S.Call, steps: seq<Step>, admitted: seq<SampleInput>)
    requires cfg.diag && JustStarted(l.d, first) && Accounts(l.d.sense, l.fx, l.d.shtReady, admitted)
    requires S.Ordered(Calls(first, Ran(cfg, l.d, steps)))
    ensures var r := Run(cfg, l.d, steps);
            Accounts(r.d.sense, l.fx + r.fx, l.d.shtReady, admitted + Admitted(first, Ran(cfg, l.d, steps)))
  {
    if steps == [] {
      assert l.fx + [] == l.fx && admitted + [] == admitted;
    } else {
      var n := |steps| - 1;
      var o, ran := Run(cfg, l.d, steps[..n]), Ran(cfg, l.d, steps[..n]);
      if o.d.halted {
        RunAccounts(cfg, l, first, steps[..n], admitted);
        assert o.fx + [] == o.fx;
      } else {
        InputsSnoc(ran, steps[n], first);
        OrderedFront(Calls(first, ran), Calls(first, ran + [steps[n]]));
        RunAccounts(cfg, l, first, steps[..n], admitted);
        LinkAndGateFollow(cfg, l.d, first, steps[..n]);
        RunSensor(cfg, l.d, steps[..n]);
        ThenAccounts(cfg, l, first, o, ran, steps[n], admitted);
      }
    }
  }

  lemma OrderedFront(a: seq<S.Call>, b: seq<S.Call>)
    requires S.Ordered(b) && a <= b
    ensures S.Ordered(a)
  {
    assert forall i | 0 <= i < |a| :: a[i] == b[i];
  }

  lemma AdmittedSnoc(first: S.Call, ran: seq<Step>, st: Step)
    ensures Admitted(first, ran + [st])
            == if st.SampleStep? && S.PassesByHistory(Calls(first, ran) + [CallOf(st.s, false)])
               then Admitted(first, ran) + [st.s] else Admitted(first, ran)
  {
    assert (ran + [st])[..|ran|] == ran;
  }

  /** The gate lets a round through iff the history does. */
  lemma GateAdmits(g: S.Gate, calls: seq<S.Call>, c: S.Call)
    requires g == S.Run(calls) && S.Ordered(calls + [c])
    ensures S.Passes(g, c) <==> S.PassesByHistory(calls + [c])
  {
    assert (calls + [c])[..|calls|] == calls;
    S.GateMatchesHistory(calls + [c]);
  }

  lemma StepAccounts(cfg: Config, d: Device, a: Trace, st: Step, on: bool, now: seq<SampleInput>)
    requires cfg.diag && !d.halted && Accounts(d.sense, a, d.shtReady, now)
    requires st.SampleStep? ==> (S.Passes(d.gate, CallOf(st.s, false)) <==> on)
    ensures var n := Next(cfg, d, st);
            Accounts(n.d.sense, a + n.fx, d.shtReady, if st.SampleStep? && on then now + [st.s] else now)
  {
    hide Next, S.Passes, Accounts;
    var n := Next(cfg, d, st);
    if st.SampleStep? {
      SampleFailures(cfg, d, st.s);
      if on {
        AccountsThen(d.sense, a, d.shtReady, now, st.s, n.d.sense, n.fx);
      } else {
        AccountsStay(d.sense, a, d.shtReady, now, n.fx);
      }
    } else {
      OtherFailures(cfg, d, st);
      AccountsStay(d.sense, a, d.shtReady, now, n.fx);
    }
  }

  lemma ThenAccounts(cfg: Config, l: Outcome, first: S.Call, o: Outcome, ran: seq<Step>, st: Step, admitted: seq<SampleInput>)
    requires cfg.diag && !o.d.halted && o.d.shtReady == l.d.shtReady && o.d.gate == S.Run(Calls(first, ran))
    requires Accounts(o.d.sense, l.fx + o.fx, l.d.shtReady, admitted + Admitted(first, ran))
    requires S.Ordered(Calls(first, ran + [st]))
    ensures var n := Next(cfg, o.d, st);
            Accounts(n.d.sense, l.fx + (o.fx + n.fx), l.d.shtReady, admitted + Admitted(first, ran + [st]))
  {
    hide Next, S.Passes, S.PassesByHistory, Accounts, Admitted;
    var on := st.SampleStep? && S.PassesByHistory(Calls(first, ran) + [CallOf(st.s, false)]);
    Assoc(l.fx, o.fx, Next(cfg, o.d, st).fx);
    InputsSnoc(ran, st, first);
    AdmittedSnoc(first, ran, st);
    if st.SampleStep? {
      GateAdmits(o.d.gate, Calls(first, ran), CallOf(st.s, false));
      Assoc(admitted, Admitted(first, ran), [st.s]);
    }
    StepAccounts(cfg, o.d, l.fx + o.fx, st, on, admitted + Admitted(first, ran));
  }

  lemma StartAccounts(cfg: Config, d: Device, s: StartInput)
    requires cfg.diag && s.earlyOk && s.lateOk && d.sense == COLD
    ensures var o := Start(cfg, d, s);
            Accounts(o.d.sense, o.fx, s.shtReady, [s.sample])
  {
    hide Measured, Millivolts, HalfPercent;
    var e, fx := Initialised(cfg, d, s), BootFx(cfg, d.mem, d.resetReas, s);
    var o := Sampled(cfg, e, s.sample, true);
    var keys := {BootCount, LastResetReas, WdtResetCount};
    assert SavesOnly(fx, keys);
    NotSaved(fx, keys, SensorFailureCount);
    NotSaved(fx, keys, AdcFailureCount);
    SampledFailures(cfg, e, s.sample, true);
    AccountsThen(COLD, fx, s.shtReady, [], s.sample, o.d.sense, o.fx);
    assert [] + [s.sample] == [s.sample];
  }

  /**
   * A boot in diagnostic mode counts one sensor failure for every gate call it executes that the history lets through
   * to a ready sensor that does not deliver, and one ADC failure for every published sample with a read that fails,
   * provided the first publication could set the divider up. Start-up's forced call is the first of them.
   */
  lemma FailuresAreCounted(cfg: Config, d: Device, b: BootRun)
    requires cfg.diag && Started(b) && S.Ordered(LiveCalls(cfg, d, b))
    ensures var fx, ready, admitted := Boot(cfg, d, b).fx, b.start.value.shtReady, BootAdmitted(cfg, d, b);
            && Attempts(fx, SensorFailureCount) == (if ready then FailedReads(admitted) else 0)
            && Attempts(fx, AdcFailureCount) == (if ready then FailedMeasurements(Delivered(admitted)) else 0)
  {
    var first := CallOf(b.start.value.sample, true);
    StartStarts(cfg, d, b);
    BootSensor(cfg, d, b);
    StartAccounts(cfg, PowerUp(d, b), b.start.value);
    RunAccounts(cfg, Launch(cfg, d, b), first, b.steps, [b.start.value.sample]);
  }

  // ----- The persisted role and uptime -----

  function SavesOf(st: Step): set<Key> {
    match st
    case PolicyStep(p) => p.saves
    case SampleStep(s) => s.saves
    case LoopStep(_) => {}
  }

  /** A boot extended by one step. */
  function Extended(b: BootRun, st: Step): BootRun {
    b.(steps := b.steps + [st])
  }

  lemma BootSnoc(cfg: Config, d: Device, b: BootRun, st: Step)
    ensures var o, n := Boot(cfg, d, b), Next(cfg, Boot(cfg, d, b).d, st);
            Boot(cfg, d, Extended(b, st)) == Outcome(n.d, o.fx + n.fx)
  {
    var l := Launch(cfg, d, b);
    var r := Run(cfg, l.d, b.steps);
    assert (b.steps + [st])[..|b.steps|] == b.steps;
    Assoc(l.fx, r.fx, Next(cfg, r.d, st).fx);
  }

  /** Flash after a snapshot at `ms` with the node in a role: both values, each only if its save succeeds. */
  predicate Shot(before: Store, after: Store, role: Role, ms: int, saves: set<Key>) {
    && Stored(after, LastUptimeSec) == (if LastUptimeSec in saves then UptimeSec(ms) else Stored(before, LastUptimeSec))
    && Stored(after, LastThreadRole) == if LastThreadRole in saves then RoleCode(role) else Stored(before, LastThreadRole)
  }

  lemma NextShot(cfg: Config, d: Device, st: Step)
    requires !d.halted && Times(Next(cfg, d, st).fx, Healths) != []
    ensures HealthRead(st).Some?
    ensures var e := Next(cfg, d, st).d;
            Shot(d.mem.flash, e.mem.flash, e.thread.lastRole, HealthRead(st).value, SavesOf(st))
  {
    NextTimes(cfg, d, st);
    match st
    case PolicyStep(p) => PolicyTimes(cfg, d, p);
    case SampleStep(s) =>
      RoundTimes(cfg, d, s);
      SampledTimes(cfg, d, s, false);
      SampledShot(cfg, d, s, false);
  }

  lemma SampledShot(cfg: Config, d: Device, s: SampleInput, force: bool)
    requires Publishes(d.gate, d.shtReady, s, force) && HealthDue(cfg, d.lastHealthMs, s.healthMs)
    ensures Shot(d.mem.flash, Sampled(cfg, d, s, force).d.mem.flash, d.thread.lastRole, s.healthMs, s.saves)
  {
    hide Measured, Millivolts, HalfPercent;
  }

  /** The number is OpenThread's for the role, and the second is that of the clock, as long as seconds do not wrap. */
  lemma ShotMeans(role: Role, ms: int)
    ensures Numbers(RoleCode(role), role)
    ensures 0 <= ms < 0x1_0000_0000 * 1000 ==> UptimeSec(ms) * 1000 <= ms < UptimeSec(ms) * 1000 + 1000
  {
    assert 0 <= ms < 0x1_0000_0000 * 1000 ==> 0 <= ms / 1000 < 0x1_0000_0000;
  }

  /**
   * When a step of a boot takes a snapshot, flash afterwards holds OpenThread's number for the role last observed in
   * the boot, that step's own observation included, and the second of the snapshot; each only if its save succeeds.
   */
  lemma SnapshotIsPersisted(cfg: Config, d: Device, b: BootRun, st: Step)
    requires !Boot(cfg, d, b).d.halted
    requires Times(Boot(cfg, d, Extended(b, st)).fx, Healths) != Times(Boot(cfg, d, b).fx, Healths)
    ensures HealthRead(st).Some?
    ensures var before, after := Boot(cfg, d, b).d.mem.flash, Boot(cfg, d, Extended(b, st)).d.mem.flash;
            var ms, role := HealthRead(st).value, LatestRole(Observations(b.steps + [st]));
            && (if LastThreadRole in SavesOf(st) then Numbers(Stored(after, LastThreadRole), role)
                else Stored(after, LastThreadRole) == Stored(before, LastThreadRole))
            && (if LastUptimeSec in SavesOf(st)
                then 0 <= ms < 0x1_0000_0000 * 1000 ==>
                       Stored(after, LastUptimeSec) * 1000 <= ms < Stored(after, LastUptimeSec) * 1000 + 1000
                else Stored(after, LastUptimeSec) == Stored(before, LastUptimeSec))
  {
    var o := Boot(cfg, d, b);
    var n := Next(cfg, o.d, st);
    BootSnoc(cfg, d, b, st);
    TimesConcat(o.fx, n.fx, Healths);
    assert Times(o.fx, Healths) + [] == Times(o.fx, Healths);
    NextShot(cfg, o.d, st);
    RoleAfter(cfg, d, b, st);
    ShotMeans(n.d.thread.lastRole, HealthRead(st).value);
  }

  lemma RoleAfter(cfg: Config, d: Device, b: BootRun, st: Step)
    requires !Boot(cfg, d, b).d.halted
    ensures Next(cfg, Boot(cfg, d, b).d, st).d.thread.lastRole == LatestRole(Observations(b.steps + [st]))
  {
    RunningBoot(cfg, d, b);
    BootLinkAndGate(cfg, d, b);
    NextParts(cfg, Boot(cfg, d, b).d, st);
    InputsSnoc(b.steps, st, S.Call(true, false, 0));
    TrackerHasLatestRole(Observations(b.steps + [st]));
    if st.PolicyStep? {
      TrackSnoc(Observations(b.steps), st.p.thread);
    }
  }

  /** Start-up's own snapshot, before any observation, persists the number of DISABLED. */
  lemma FirstSnapshotIsDisabled(cfg: Config, d: Device, b: BootRun)
    requires b.start.Some? && b.steps == [] && Times(Boot(cfg, d, b).fx, Healths) != []
    ensures LastThreadRole in b.start.value.sample.saves ==> Stored(Boot(cfg, d, b).d.mem.flash, LastThreadRole) == 0
  {
    var s := b.start.value;
    var up := PowerUp(d, b);
    var e, fx := Initialised(cfg, up, s), BootFx(cfg, up.mem, up.resetReas, s);
    BootKinds(cfg, up.mem, up.resetReas, s);
    assert Boot(cfg, d, b).fx == Start(cfg, up, s).fx + [] == Start(cfg, up, s).fx;
    if !(s.earlyOk && s.lateOk) {
      TimesNone(fx, {Saves}, Healths);
    }
    TimesSkip(fx, Sampled(cfg, e, s.sample, true).fx, {Saves}, Healths);
    SampledTimes(cfg, e, s.sample, true);
    SampledShot(cfg, e, s.sample, true);
  }

  /** After every policy tick that does not reboot, the boot's latest snapshot is less than an interval old. */
  lemma TickHasSnapshot(cfg: Config, d: Device, b: BootRun, p: PolicyInput)
    requires cfg.diag && cfg.snapshotMs > 0 && TimelyBoot(b) && p.healthMs > 0
    requires !Boot(cfg, d, Extended(b, PolicyStep(p))).d.halted
    ensures exists ms :: ms in Times(Boot(cfg, d, Extended(b, PolicyStep(p))).fx, Healths) && p.healthMs - ms < cfg.snapshotMs
  {
    var o := Boot(cfg, d, b);
    BootSnoc(cfg, d, b, PolicyStep(p));
    BootIsPaced(cfg, d, b);
    if o.d.halted {
      assert false;
    }
    PolicyTimes(cfg, o.d, p);
    TimesConcat(o.fx, Policy(cfg, o.d, p).fx, Healths);
    var times := Times(o.fx, Healths);
    if HealthDue(cfg, o.d.lastHealthMs, p.healthMs) {
      assert p.healthMs in times + [p.healthMs];
    } else {
      assert Latest(0, times) in times;
      assert times + [] == times;
    }
  }

  // ----- The reset reason -----

  /** No step touches the reset reason, in RAM or flash. */
  lemma NextKeepsReason(cfg: Config, d: Device, st: Step)
    ensures var e := Next(cfg, d, st).d;
            && e.mem.ram.lastReset == d.mem.ram.lastReset
            && Stored(e.mem.flash, LastResetReas) == Stored(d.mem.flash, LastResetReas)
  {
    hide Measured, Millivolts, HalfPercent;
    if !d.halted {
      match st
      case PolicyStep(p) =>
      case SampleStep(s) => SampledKeepsReason(cfg, d, s, false);
      case LoopStep(_) =>
    }
  }

  lemma SampledKeepsReason(cfg: Config, d: Device, s: SampleInput, force: bool)
    ensures var e := Sampled(cfg, d, s, force).d;
            && e.mem.ram.lastReset == d.mem.ram.lastReset
            && Stored(e.mem.flash, LastResetReas) == Stored(d.mem.flash, LastResetReas)
  {
    hide Measured, Millivolts, HalfPercent, BumpMem;
    var a := Sensed(cfg, d, s, force);
    BumpKeepsReason(cfg, d.mem, ReadKey(d.gate, d.shtReady, s, force), s.saves);
    if Publishes(d.gate, d.shtReady, s, force) {
      var b := Shown(cfg, a.d, s);
      BumpKeepsReason(cfg, a.d.mem, AdcKey(a.d.sense, s.battery), s.saves);
      assert b.d.mem == BumpMem(cfg, a.d.mem, AdcKey(a.d.sense, s.battery), s.saves);
    }
  }

  lemma BumpKeepsReason(cfg: Config, m: Mem, k: Option<Key>, saves: set<Key>)
    requires k.Some? ==> Counter(k.value)
    ensures var n := BumpMem(cfg, m, k, saves);
            n.ram.lastReset == m.ram.lastReset && Stored(n.flash, LastResetReas) == Stored(m.flash, LastResetReas)
  {
  }

  lemma {:induction false} RunKeepsReason(cfg: Config, d: Device, steps: seq<Step>)
    ensures var e := Run(cfg, d, steps).d;
            && e.mem.ram.lastReset == d.mem.ram.lastReset
            && Stored(e.mem.flash, LastResetReas) == Stored(d.mem.flash, LastResetReas)
  {
    if steps != [] {
      RunKeepsReason(cfg, d, steps[..|steps| - 1]);
      NextKeepsReason(cfg, Run(cfg, d, steps[..|steps| - 1]).d, steps[|steps| - 1]);
    }
  }

  /**
   * Throughout a boot that reaches DiagOnBoot, RAM tells, bit by bit, the reasons the register had accumulated; flash
   * holds the same word if its save succeeded, and otherwise what it held before.
   */
  lemma ResetReasonIsKept(cfg: Config, d: Device, b: BootRun)
    requires cfg.diag && b.start.Some?
    ensures var e, before := Boot(cfg, d, b).d, PowerUp(d, b).mem.flash;
            && Tells(e.mem.ram.lastReset, Register(d.resetReas, b.reset))
            && Stored(e.mem.flash, LastResetReas)
               == if LastResetReas in b.start.value.saves then e.mem.ram.lastReset else Stored(before, LastResetReas)
  {
    var s, up := b.start.value, PowerUp(d, b);
    CodeTells(up.resetReas);
    if s.earlyOk && s.lateOk {
      SampledKeepsReason(cfg, Initialised(cfg, up, s), s.sample, true);
    }
    CountedReason(LoadedMem(up, s), up.resetReas, s.saves);
    RunKeepsReason(cfg, Launch(cfg, d, b).d, b.steps);
  }

  lemma CountedReason(m: Mem, reas: Reasons, saves: set<Key>)
    ensures var c := Counted(m, reas, saves);
            && c.ram.lastReset == Code(reas)
            && Stored(c.flash, LastResetReas) == if LastResetReas in saves then Code(reas) else Stored(m.flash, LastResetReas)
  {
  }

  /** So over any boots, after one that reaches DiagOnBoot RAM tells the reasons of every reset since the last that did. */
  lemma ResetReasonOfLife(cfg: Config, d: Device, boots: seq<BootRun>)
    requires cfg.diag && boots != [] && boots[|boots| - 1].start.Some?
    ensures var n := |boots| - 1;
            var e, reas := Life(cfg, d, boots).d, Register(Pending(d.resetReas, boots[..n]), boots[n].reset);
            && Tells(e.mem.ram.lastReset, reas)
            && (LastResetReas in boots[n].start.value.saves ==> Stored(e.mem.flash, LastResetReas) == e.mem.ram.lastReset)
  {
    var n := |boots| - 1;
    RecordedIsLogged(cfg, d, boots[..n], BootCount);
    ResetReasonIsKept(cfg, Life(cfg, d, boots[..n]).d, boots[n]);
  }

  // ----- Arming the watchdog -----

  /** A boot feeds its watchdog only if start-up could install it and set it up, and then at every executed turn that may. */
  lemma BootFeeds(cfg: Config, d: Device, b: BootRun)
    requires Started(b)
    ensures var w := b.start.value.wdt;
            Times(Boot(cfg, d, b).fx, Feeds)
            == if cfg.diag && w.ready && w.channel >= 0 && w.setupOk
               then S.FeedTimes(S.Run([CallOf(b.start.value.sample, true)]), Turns(b.start.value.shtReady, Live(cfg, d, b)))
               else []
  {
    var l := Launch(cfg, d, b);
    StartStarts(cfg, d, b);
    Armed(cfg, PowerUp(d, b), b.start.value);
    TimesConcat(l.fx, Run(cfg, l.d, b.steps).fx, Feeds);
    if cfg.diag && l.d.wdtChannel >= 0 {
      FeedsFollow(cfg, l.d, b.steps);
    } else {
      UnarmedFeedsNothing(cfg, l.d, b.steps);
    }
  }

  lemma {:induction false} UnarmedFeedsNothing(cfg: Config, d: Device, steps: seq<Step>)
    requires !cfg.diag || d.wdtChannel < 0
    ensures Times(Run(cfg, d, steps).fx, Feeds) == []
  {
    if steps != [] {
      var n := |steps| - 1;
      var o := Run(cfg, d, steps[..n]);
      UnarmedFeedsNothing(cfg, d, steps[..n]);
      RunSensor(cfg, d, steps[..n]);
      TimesConcat(o.fx, Next(cfg, o.d, steps[n]).fx, Feeds);
      if !o.d.halted {
        UnarmedStep(cfg, o.d, steps[n]);
      }
    }
  }

  lemma UnarmedStep(cfg: Config, d: Device, st: Step)
    requires !d.halted && (!cfg.diag || d.wdtChannel < 0)
    ensures Times(Next(cfg, d, st).fx, Feeds) == []
  {
    hide Sampled, Policy;
    match st
    case PolicyStep(p) => PolicyFeedsNothing(cfg, d, p);
    case SampleStep(s) =>
      SampledKinds(cfg, d, s, false);
      TimesNone(Sampled(cfg, d, s, false).fx, {Saves, Climates, Batteries, Healths}, Feeds);
      assert Sampled(cfg, d, s, false).fx + [] == Sampled(cfg, d, s, false).fx;
    case LoopStep(_) =>
  }

  // ----- The order of a callback's effects -----

  /** Place of an effect within its callback. */
  function Rank(e: Effect): int {
    match e
    case Save(k, _, _) =>
      (match k
       case BootCount => 0
       case LastResetReas => 1
       case WdtResetCount => 2
       case ThreadDetachCount => 3
       case ThreadReattachCount => 3
       case SensorFailureCount => 3
       case AdcFailureCount => 5
       case LastUptimeSec => 7
       case LastThreadRole => 8)
    case RadioWrite(_, _) => 4
    case Kick(_) => 5
    case Climate(_, _) => 4
    case Battery(_, _) => 6
    case Reboot(_) => 7
    case Health(_) => 9
    case Feed(_) => 10
  }

  /** The effects come in this order, none twice, all with places in [lo, hi). */
  predicate InOrder(fx: Trace, lo: int, hi: int) {
    && (forall i | 0 <= i < |fx| :: lo <= Rank(fx[i]) < hi)
    && forall i, j | 0 <= i < j < |fx| :: Rank(fx[i]) < Rank(fx[j])
  }

  lemma Joined(a: Trace, b: Trace, lo: int, mid: int, hi: int)
    requires lo <= mid <= hi && InOrder(a, lo, mid) && InOrder(b, mid, hi)
    ensures InOrder(a + b, lo, hi)
  {
  }

  lemma PolicyInOrder(cfg: Config, d: Device, p: PolicyInput)
    ensures InOrder(Policy(cfg, d, p).fx, 3, 10)
  {
    var a := Linked(cfg, d, ALL, p.thread, p.saves);
    var b := Held(cfg, a.d, TickOf(p));
    var c := RebootOrSnap(cfg, b.d, p);
    assert InOrder(a.fx, 3, 4);
    assert InOrder(b.fx, 4, 6);
    Joined(a.fx, b.fx, 3, 4, 6);
    TailInOrder(cfg, b.d, p);
    Joined(a.fx + b.fx, c.fx, 3, 6, 10);
  }

  lemma TailInOrder(cfg: Config, d: Device, p: PolicyInput)
    ensures InOrder(RebootOrSnap(cfg, d, p).fx, 6, 10)
  {
  }

  lemma SampledInOrder(cfg: Config, d: Device, s: SampleInput, force: bool)
    ensures InOrder(Sampled(cfg, d, s, force).fx, 3, 10)
  {
    hide Measured, Millivolts, HalfPercent;
    var a := Sensed(cfg, d, s, force);
    assert InOrder(a.fx, 3, 4);
    if Publishes(d.gate, d.shtReady, s, force) {
      var b := Shown(cfg, a.d, s);
      var c := Snapped(cfg, b.d, s.healthMs, s.saves);
      assert InOrder(b.fx, 4, 7);
      assert InOrder(c.fx, 7, 10);
      Joined(b.fx, c.fx, 4, 7, 10);
      Joined(a.fx, b.fx + c.fx, 3, 4, 10);
    }
  }

  /**
   * Within a callback everything happens once and in this order: the link or sensor counter, then radio, kick and
   * reboot or snapshot; or climate, ADC failure, battery, snapshot and feed. A snapshot saves uptime, then role, then logs.
   */
  lemma CallbacksAreInOrder(cfg: Config, d: Device, st: Step)
    ensures InOrder(Next(cfg, d, st).fx, 3, 11)
  {
    hide Sampled, Policy;
    if !d.halted {
      match st
      case PolicyStep(p) => PolicyInOrder(cfg, d, p);
      case SampleStep(s) =>
        SampledInOrder(cfg, d, s, false);
        assert InOrder(RoundFeed(cfg, d, s), 10, 11);
        Joined(Sampled(cfg, d, s, false).fx, RoundFeed(cfg, d, s), 3, 10, 11);
      case LoopStep(_) =>
    }
  }

  /** Start-up counts the boot, notes the reset reason, counts a watchdog reset, and only then samples. */
  lemma StartIsInOrder(cfg: Config, d: Device, s: StartInput)
    ensures InOrder(Start(cfg, d, s).fx, 0, 10)
  {
    hide Sampled;
    var e, fx := Initialised(cfg, d, s), BootFx(cfg, d.mem, d.resetReas, s);
    assert InOrder(fx, 0, 3);
    if s.earlyOk && s.lateOk {
      SampledInOrder(cfg, e, s.sample, true);
      Joined(fx, Sampled(cfg, e, s.sample, true).fx, 0, 3, 10);
    }
  }
}
