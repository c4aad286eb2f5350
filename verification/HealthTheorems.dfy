/** Published readings and health snapshots over a whole boot, with all callers interleaved. */
module HealthTheorems {
  import opened Base
  import opened Settings
  import opened Effects
  import S = Sampling
  import opened BatterySense
  import opened Machine
  import opened Projection
  import opened PolicyTheorems
  import opened Persistence
  import opened LifeTheorems
  import opened Diagnostics

  // ----- Publication -----

  /** A sample shows the world its own climate and battery reading, in this order, or nothing at all. */
  lemma ShowsOwnReading(cfg: Config, d: Device, s: SampleInput, force: bool)
    ensures var v := Measured(d.sense, s.battery);
            Only(Sampled(cfg, d, s, force).fx, {Climates, Batteries})
            == if Publishes(d.gate, d.shtReady, s, force)
               then [Climate(Temperature(s), Humidity(s)), Battery(Millivolts(v), HalfPercent(v))] else []
  {
    var a := Sensed(cfg, d, s, force);
    SensedKinds(cfg, d, s, force);
    if Publishes(d.gate, d.shtReady, s, force) {
      var b := Shown(cfg, a.d, s);
      var c := Snapped(cfg, b.d, s.healthMs, s.saves);
      SnappedKinds(cfg, b.d, s.healthMs, s.saves);
      OnlyMiddle(a.fx, b.fx, c.fx, {Saves, Healths}, {Climates, Batteries});
      ShownReading(cfg, a.d, s);
    } else {
      OnlyNone(a.fx, {Saves}, {Climates, Batteries});
    }
  }

  lemma SensedKinds(cfg: Config, d: Device, s: SampleInput, force: bool)
    ensures Within(Sensed(cfg, d, s, force).fx, {Saves})
  {
  }

  lemma SnappedKinds(cfg: Config, d: Device, ms: int, saves: set<Key>)
    ensures Within(Snapped(cfg, d, ms, saves).fx, {Saves, Healths})
  {
  }

  lemma ShownReading(cfg: Config, d: Device, s: SampleInput)
    ensures var v := Measured(d.sense, s.battery);
            Only(Shown(cfg, d, s).fx, {Climates, Batteries})
            == [Climate(d.temperature, d.humidity), Battery(Millivolts(v), HalfPercent(v))]
  {
    var v := Measured(d.sense, s.battery);
    ReadingAmongSaves(Climate(d.temperature, d.humidity), BumpMemFx(cfg, d.mem, AdcKey(d.sense, s.battery), s.saves),
                      Battery(Millivolts(v), HalfPercent(v)));
  }

  lemma ReadingAmongSaves(climate: Effect, saves: Trace, battery: Effect)
    requires climate.Climate? && battery.Battery? && Within(saves, {Saves})
    ensures Only([climate] + saves + [battery], {Climates, Batteries}) == [climate, battery]
  {
    OnlyConcat([climate], saves, {Climates, Batteries});
    OnlyConcat([climate] + saves, [battery], {Climates, Batteries});
    OnlyNone(saves, {Saves}, {Climates, Batteries});
    OnlySingle(climate, {Climates, Batteries});
    OnlySingle(battery, {Climates, Batteries});
  }

  /** Within the sensor's range nothing is truncated: both values are the nearest hundredth. */
  lemma ClimateIsNearest(s: SampleInput)
    requires s.channels.Some?
    requires -45.0 <= s.channels.value.celsius <= 130.0 && 0.0 <= s.channels.value.percent <= 100.0
    ensures -0.5 <= Temperature(s) as real - s.channels.value.celsius * 100.0 <= 0.5
    ensures -0.5 <= Humidity(s) as real - s.channels.value.percent * 100.0 <= 0.5
  {
    var t, h := s.channels.value.celsius * 100.0, s.channels.value.percent * 100.0;
    RoundNearest(t);
    RoundNearest(h);
    assert -4501 <= Round(t) <= 13001 && -1 < Round(h) <= 10001;
  }

  /**
   * Over the calls of a boot, start-up's forced one first: a periodic sample publishes iff the sensor works, the
   * node is commissioned and no commissioning was observed less than the grace period ago.
   */
  lemma PublishMatchesHistory(cfg: Config, d: Device, b: BootRun, s: SampleInput)
    requires b.start.Some? && b.start.value.earlyOk && b.start.value.lateOk
    requires S.Ordered(LiveCalls(cfg, d, b) + [CallOf(s, false)])
    ensures var e, calls := Boot(cfg, d, b).d, LiveCalls(cfg, d, b) + [CallOf(s, false)];
            Publishes(e.gate, e.shtReady, s, false) <==>
              && b.start.value.shtReady && s.fetchOk && s.channels.Some? && s.commissioned
              && forall j | S.Joins(calls, j) && calls[j].ms > 0 :: s.ms - calls[j].ms >= 30_000
  {
    var calls := LiveCalls(cfg, d, b) + [CallOf(s, false)];
    assert calls[..|calls| - 1] == LiveCalls(cfg, d, b);
    BootLinkAndGate(cfg, d, b);
    BootSensor(cfg, d, b);
    S.GateMatchesHistory(calls);
  }

  /** The sampling rounds a running device executes on a commissioned node and its gate turns away. */
  function TurnedAway(cfg: Config, d: Device, steps: seq<Step>): nat {
    if steps == [] then 0
    else
      var front, st := steps[..|steps| - 1], steps[|steps| - 1];
      var e := Run(cfg, d, front).d;
      TurnedAway(cfg, d, front)
      + if !e.halted && st.SampleStep? && st.s.commissioned && !S.Passes(e.gate, CallOf(st.s, false)) then 1 else 0
  }

  lemma {:induction false} TurnedAwayIsLost(cfg: Config, d: Device, first: S.Call, steps: seq<Step>)
    requires JustStarted(d, first) && first.force
    ensures TurnedAway(cfg, d, steps) == S.Lost(Calls(first, Ran(cfg, d, steps)))
  {
    if steps == [] {
      assert [first][..0] == [];
    } else {
      var front, st := steps[..|steps| - 1], steps[|steps| - 1];
      var calls := Calls(first, Ran(cfg, d, front));
      TurnedAwayIsLost(cfg, d, first, front);
      LinkAndGateFollow(cfg, d, first, front);
      InputsSnoc(Ran(cfg, d, front), st, first);
      if st.SampleStep? {
        assert (calls + [CallOf(st.s, false)])[..|calls|] == calls;
      }
    }
  }

  /** With calls at least a grace period apart, a boot loses one sample per commissioning its periodic calls observe. */
  lemma EachJoinCostsOneSample(cfg: Config, d: Device, b: BootRun)
    requires b.start.Some? && b.start.value.earlyOk && b.start.value.lateOk
    requires var calls := LiveCalls(cfg, d, b);
             && S.Ordered(calls)
             && (forall i | 0 <= i < |calls| :: calls[i].ms > 0)
             && forall i | 0 < i < |calls| :: calls[i].ms - calls[i - 1].ms >= 30_000
    ensures TurnedAway(cfg, Launch(cfg, d, b).d, b.steps) == S.PeriodicJoins(LiveCalls(cfg, d, b))
  {
    var calls := LiveCalls(cfg, d, b);
    StartStarts(cfg, d, b);
    TurnedAwayIsLost(cfg, Launch(cfg, d, b).d, CallOf(b.start.value.sample, true), b.steps);
    S.EachJoinCostsOneSample(calls);
  }

  // ----- Health snapshots -----

  /** Snapshot times of one boot: the first after uptime zero, the others at least `gap` after the one before. */
  predicate Paced(times: seq<int>, gap: int) {
    times == []
    || (var n := |times| - 1;
        && Paced(times[..n], gap)
        && if n == 0 then times[0] > 0 else times[n] - times[n - 1] >= gap)
  }

  lemma {:induction false} PacedBound(times: seq<int>, gap: int)
    requires Paced(times, gap) && times != [] && gap >= 0
    ensures 0 < times[0] && (|times| - 1) * gap <= times[|times| - 1] - times[0]
    ensures 0 < times[|times| - 1]
  {
    var n := |times| - 1;
    if n > 0 {
      PacedBound(times[..n], gap);
      assert n * gap == (n - 1) * gap + gap;
    }
  }

  lemma PacedAppend(times: seq<int>, t: int, gap: int)
    requires Paced(times, gap)
    requires if times == [] then t > 0 else t - Latest(0, times) >= gap
    ensures Paced(times + [t], gap) && Latest(0, times + [t]) == t
  {
    assert (times + [t])[..|times|] == times;
  }

  /** The clock read a step would use for a snapshot, if it comes that far. */
  function HealthRead(st: Step): Option<int> {
    match st
    case PolicyStep(p) => Some(p.healthMs)
    case SampleStep(s) => Some(s.healthMs)
    case LoopStep(_) => None
  }

  lemma SnappedTimes(cfg: Config, d: Device, ms: int, saves: set<Key>)
    ensures var o := Snapped(cfg, d, ms, saves);
            Times(o.fx, Healths) == (if HealthDue(cfg, d.lastHealthMs, ms) then [ms] else [])
            && o.d.lastHealthMs == HealthMs(cfg, d.lastHealthMs, ms)
  {
    if HealthDue(cfg, d.lastHealthMs, ms) {
      var fx := SnapshotFx(d.thread.lastRole, ms, saves);
      assert fx == fx[..2] + [Health(ms)];
      TimesConcat(fx[..2], [Health(ms)], Healths);
      TimesNone(fx[..2], {Saves}, Healths);
      TimesSingle(Health(ms), Healths);
    }
  }

  /** A sample takes a snapshot iff it publishes and one is due. */
  lemma SampledTimes(cfg: Config, d: Device, s: SampleInput, force: bool)
    ensures var o := Sampled(cfg, d, s, force);
            var due := Publishes(d.gate, d.shtReady, s, force) && HealthDue(cfg, d.lastHealthMs, s.healthMs);
            Times(o.fx, Healths) == (if due then [s.healthMs] else [])
            && o.d.lastHealthMs == if due then s.healthMs else d.lastHealthMs
  {
    hide Measured, Millivolts, HalfPercent;
    var a := Sensed(cfg, d, s, force);
    SensedKinds(cfg, d, s, force);
    if Publishes(d.gate, d.shtReady, s, force) {
      var b := Shown(cfg, a.d, s);
      var c := Snapped(cfg, b.d, s.healthMs, s.saves);
      ShownKinds(cfg, a.d, s);
      SnappedTimes(cfg, b.d, s.healthMs, s.saves);
      TimesSkip(b.fx, c.fx, {Saves, Climates, Batteries}, Healths);
      TimesSkip(a.fx, b.fx + c.fx, {Saves}, Healths);
    } else {
      TimesNone(a.fx, {Saves}, Healths);
    }
  }

  lemma ShownKinds(cfg: Config, d: Device, s: SampleInput)
    ensures Within(Shown(cfg, d, s).fx, {Saves, Climates, Batteries})
  {
  }

  /** A policy tick takes a snapshot iff it does not reboot and one is due. */
  lemma PolicyTimes(cfg: Config, d: Device, p: PolicyInput)
    requires !d.halted
    ensures var o := Policy(cfg, d, p);
            var due := !o.d.halted && HealthDue(cfg, d.lastHealthMs, p.healthMs);
            Times(o.fx, Healths) == (if due then [p.healthMs] else [])
            && o.d.lastHealthMs == if due then p.healthMs else d.lastHealthMs
  {
    var a := Ticked(cfg, d, p);
    TickedWithin(cfg, d, p);
    TailTimes(cfg, a.d, p);
    TimesSkip(a.fx, RebootOrSnap(cfg, a.d, p).fx, {Saves, RadioWrites, Kicks}, Healths);
  }

  lemma TickedWithin(cfg: Config, d: Device, p: PolicyInput)
    ensures Within(Ticked(cfg, d, p).fx, {Saves, RadioWrites, Kicks})
    ensures Ticked(cfg, d, p).d.lastHealthMs == d.lastHealthMs && Ticked(cfg, d, p).d.halted == d.halted
  {
  }

  lemma TailTimes(cfg: Config, d: Device, p: PolicyInput)
    requires !d.halted
    ensures var o := RebootOrSnap(cfg, d, p);
            var due := !o.d.halted && HealthDue(cfg, d.lastHealthMs, p.healthMs);
            Times(o.fx, Healths) == (if due then [p.healthMs] else [])
            && o.d.lastHealthMs == if due then p.healthMs else d.lastHealthMs
  {
    if RebootDue(cfg, d.thread, p) {
      TimesSingle(Reboot(p.ms), Healths);
    } else {
      SnappedTimes(cfg, d, p.healthMs, p.saves);
    }
  }

  lemma RoundTimes(cfg: Config, d: Device, s: SampleInput)
    ensures Times(Sample(cfg, d, s).fx, Healths) == Times(Sampled(cfg, d, s, false).fx, Healths)
  {
    hide Sampled;
    var a := Sampled(cfg, d, s, false);
    var feed := RoundFeed(cfg, d, s);
    TimesSkip(a.fx, feed, {Feeds}, Healths);
  }

  /** What a step may do to the snapshots: nothing, or take one at its own clock read when one is due. */
  predicate MayShoot(cfg: Config, d: Device, n: Outcome, read: Option<int>) {
    || (Times(n.fx, Healths) == [] && n.d.lastHealthMs == d.lastHealthMs)
    || (read.Some? && HealthDue(cfg, d.lastHealthMs, read.value)
        && Times(n.fx, Healths) == [read.value] && n.d.lastHealthMs == read.value)
  }

  lemma NextTimes(cfg: Config, d: Device, st: Step)
    ensures MayShoot(cfg, d, Next(cfg, d, st), HealthRead(st))
  {
    if !d.halted {
      match st
      case PolicyStep(p) => PolicyTimes(cfg, d, p);
      case SampleStep(s) =>
        RoundTimes(cfg, d, s);
        SampledTimes(cfg, d, s, false);
      case LoopStep(ms) => TimesNone(FeedFx(cfg, d.wdtChannel, ms), {Feeds}, Healths);
    }
  }

  /** The snapshots so far, and when the latest was. */
  predicate Pace(d: Device, times: seq<int>, gap: int, now: int) {
    Paced(times, gap) && d.lastHealthMs == Latest(0, times) <= now
  }

  /** Whatever callers interleave, the snapshots of a run continue the pace of those before it. */
  lemma {:induction false} RunKeepsPace(cfg: Config, d: Device, before: seq<int>, lo: int, steps: seq<Step>)
    requires Pace(d, before, cfg.snapshotMs, lo) && cfg.snapshotMs >= 0
    requires 0 < lo && Timely(lo, steps)
    ensures Pace(Run(cfg, d, steps).d, before + Times(Run(cfg, d, steps).fx, Healths), cfg.snapshotMs, LastRead(lo, steps))
  {
    if steps == [] {
      assert before + [] == before;
    } else {
      var n := |steps| - 1;
      var o := Run(cfg, d, steps[..n]);
      RunKeepsPace(cfg, d, before, lo, steps[..n]);
      TimelyGrows(lo, steps[..n]);
      NextTimes(cfg, o.d, steps[n]);
      StepKeepsPace(cfg, before, o, Next(cfg, o.d, steps[n]), steps[n], LastRead(lo, steps[..n]));
    }
  }

  lemma StepKeepsPace(cfg: Config, before: seq<int>, o: Outcome, n: Outcome, st: Step, now: int)
    requires Pace(o.d, before + Times(o.fx, Healths), cfg.snapshotMs, now) && cfg.snapshotMs >= 0
    requires MayShoot(cfg, o.d, n, HealthRead(st))
    requires 0 < now <= FirstRead(st) && TimelyStep(st)
    ensures Pace(n.d, before + Times(o.fx + n.fx, Healths), cfg.snapshotMs, EndRead(st))
  {
    var times := before + Times(o.fx, Healths);
    TimesConcat(o.fx, n.fx, Healths);
    Assoc(before, Times(o.fx, Healths), Times(n.fx, Healths));
    if Times(n.fx, Healths) == [] {
      assert times + [] == times;
    } else {
      AllPositive(times, cfg.snapshotMs);
      PacedAppend(times, HealthRead(st).value, cfg.snapshotMs);
    }
  }

  /** So once a snapshot has been taken, its time is not mistaken for "none yet". */
  lemma {:induction false} AllPositive(times: seq<int>, gap: int)
    requires Paced(times, gap)
    ensures times != [] && gap >= 0 ==> Latest(0, times) > 0
  {
    if times != [] && gap >= 0 {
      PacedBound(times, gap);
    }
  }

  /** The snapshot start-up takes, if any. */
  lemma StartKeepsPace(cfg: Config, d: Device, s: StartInput)
    requires d.lastHealthMs == 0 && 0 < s.sample.healthMs
    ensures var o := Start(cfg, d, s);
            && Paced(Times(o.fx, Healths), cfg.snapshotMs)
            && o.d.lastHealthMs == Latest(0, Times(o.fx, Healths)) <= s.sample.healthMs
  {
    var e := Initialised(cfg, d, s);
    var fx := BootFx(cfg, d.mem, d.resetReas, s);
    BootKinds(cfg, d.mem, d.resetReas, s);
    if s.earlyOk && s.lateOk {
      var o := Sampled(cfg, e, s.sample, true);
      SampledTimes(cfg, e, s.sample, true);
      TimesSkip(fx, o.fx, {Saves}, Healths);
      FirstSnapshot(cfg, Times(o.fx, Healths), o.d.lastHealthMs, s.sample.healthMs);
    } else {
      TimesNone(fx, {Saves}, Healths);
    }
  }

  lemma FirstSnapshot(cfg: Config, times: seq<int>, last: int, ms: int)
    requires 0 < ms && ((times == [] && last == 0) || (times == [ms] && last == ms))
    ensures Paced(times, cfg.snapshotMs) && last == Latest(0, times) <= ms
  {
  }

  lemma BootKinds(cfg: Config, m: Mem, reas: Reasons, s: StartInput)
    ensures Within(BootFx(cfg, m, reas, s), {Saves})
  {
  }

  /** The snapshots of a boot are paced, and none is later than its uptime. */
  lemma BootIsPaced(cfg: Config, d: Device, b: BootRun)
    requires cfg.snapshotMs >= 0 && TimelyBoot(b)
    ensures Paced(Times(Boot(cfg, d, b).fx, Healths), cfg.snapshotMs)
    ensures Boot(cfg, d, b).d.lastHealthMs == Latest(0, Times(Boot(cfg, d, b).fx, Healths)) <= Uptime(b)
  {
    if b.start.None? {
      DeadBoot(cfg, d, b);
    } else {
      StartKeepsPace(cfg, PowerUp(d, b), b.start.value);
      PaceThrough(cfg, Start(cfg, PowerUp(d, b), b.start.value), b.start.value.sample.healthMs, b.steps);
    }
  }

  /** Flash wear is bounded: the n snapshots of one boot, start-up included, take more than n - 1 intervals of uptime. */
  lemma SnapshotsAreRateLimited(cfg: Config, d: Device, b: BootRun)
    requires cfg.snapshotMs >= 0 && TimelyBoot(b)
    ensures var times := Times(Boot(cfg, d, b).fx, Healths);
            && Paced(times, cfg.snapshotMs)
            && (times != [] ==> (|times| - 1) * cfg.snapshotMs < Uptime(b))
  {
    BootIsPaced(cfg, d, b);
    WearBound(Times(Boot(cfg, d, b).fx, Healths), cfg.snapshotMs, Uptime(b));
  }

  /** Start-up and callbacks together keep the pace. */
  lemma PaceThrough(cfg: Config, l: Outcome, lo: int, steps: seq<Step>)
    requires Pace(l.d, Times(l.fx, Healths), cfg.snapshotMs, lo) && cfg.snapshotMs >= 0
    requires 0 < lo && Timely(lo, steps)
    ensures var r := Run(cfg, l.d, steps);
            Pace(r.d, Times(l.fx + r.fx, Healths), cfg.snapshotMs, LastRead(lo, steps))
  {
    RunKeepsPace(cfg, l.d, Times(l.fx, Healths), lo, steps);
    TimesConcat(l.fx, Run(cfg, l.d, steps).fx, Healths);
  }

  lemma WearBound(times: seq<int>, gap: int, uptime: int)
    requires Paced(times, gap) && gap >= 0 && Latest(0, times) <= uptime
    ensures times != [] ==> (|times| - 1) * gap < uptime
  {
    if times != [] {
      PacedBound(times, gap);
    }
  }

  /** Health clock read of the latest policy tick, `prev` before any. */
  function LastPolicyRead(prev: int, steps: seq<Step>): int {
    if steps == [] then prev
    else if steps[|steps| - 1].PolicyStep? then steps[|steps| - 1].p.healthMs
    else LastPolicyRead(prev, steps[..|steps| - 1])
  }

  /** Every step's health read falls within `gap` after the latest policy tick. */
  predicate Frequent(prev: int, steps: seq<Step>, gap: int) {
    steps == []
    || (var n := |steps| - 1;
        var last, read := LastPolicyRead(prev, steps[..n]), HealthRead(steps[n]);
        Frequent(prev, steps[..n], gap) && (read.Some? ==> last <= read.value <= last + gap))
  }

  /** Snapshots have come within `limit` of each other, and the latest is less than an interval older than `last`. */
  predicate Current(cfg: Config, firstMs: int, o: Outcome, last: int, limit: int) {
    && NeverLate(firstMs, Times(o.fx, Healths), limit)
    && o.d.lastHealthMs == Latest(firstMs, Times(o.fx, Healths)) > 0
    && last - o.d.lastHealthMs < cfg.snapshotMs && 0 < last
  }

  /** Once snapshots have begun, policy ticks at most `gap` apart keep them less than an interval plus `gap` apart. */
  lemma {:induction false} SnapshotsKeepComing(cfg: Config, d: Device, prev: int, steps: seq<Step>, gap: int, limit: int)
    requires cfg.diag && cfg.snapshotMs > 0
    requires 0 < prev && 0 < d.lastHealthMs && prev - d.lastHealthMs < cfg.snapshotMs
    requires Frequent(prev, steps, gap) && limit == cfg.snapshotMs + gap
    ensures NeverLate(d.lastHealthMs, Times(Run(cfg, d, steps).fx, Healths), limit)
    ensures !Run(cfg, d, steps).d.halted ==>
              Current(cfg, d.lastHealthMs, Run(cfg, d, steps), LastPolicyRead(prev, steps), limit)
  {
    if steps != [] {
      var n := |steps| - 1;
      var o := Run(cfg, d, steps[..n]);
      SnapshotsKeepComing(cfg, d, prev, steps[..n], gap, limit);
      if !Next(cfg, o.d, steps[n]).d.halted {
        NextTimes(cfg, o.d, steps[n]);
        TickIsFresh(cfg, o.d, steps[n]);
        StepStaysCurrent(cfg, d.lastHealthMs, o, Next(cfg, o.d, steps[n]), steps[n], LastPolicyRead(prev, steps[..n]), gap, limit);
      } else {
        NoLastShot(cfg, o, steps[n]);
      }
    }
  }

  /** A reboot takes no snapshot, and nothing follows it. */
  lemma NoLastShot(cfg: Config, o: Outcome, st: Step)
    requires Next(cfg, o.d, st).d.halted
    ensures Times(o.fx + Next(cfg, o.d, st).fx, Healths) == Times(o.fx, Healths)
  {
    var n := Next(cfg, o.d, st);
    if !o.d.halted {
      NextReboots(cfg, o.d, st);
      PolicyTimes(cfg, o.d, st.p);
    }
    TimesConcat(o.fx, n.fx, Healths);
    assert Times(o.fx, Healths) + [] == Times(o.fx, Healths);
  }

  lemma StepStaysCurrent(cfg: Config, firstMs: int, o: Outcome, n: Outcome, st: Step, last: int, gap: int, limit: int)
    requires Current(cfg, firstMs, o, last, limit) && cfg.snapshotMs > 0 && limit == cfg.snapshotMs + gap
    requires MayShoot(cfg, o.d, n, HealthRead(st))
    requires HealthRead(st).Some? ==> last <= HealthRead(st).value <= last + gap
    requires st.PolicyStep? ==> st.p.healthMs - n.d.lastHealthMs < cfg.snapshotMs
    ensures Current(cfg, firstMs, Outcome(n.d, o.fx + n.fx), if st.PolicyStep? then st.p.healthMs else last, limit)
  {
    var times := Times(o.fx, Healths);
    TimesConcat(o.fx, n.fx, Healths);
    if Times(n.fx, Healths) == [] {
      assert times + [] == times;
    } else {
      NeverLateAppend(firstMs, times, HealthRead(st).value, limit);
    }
  }

  /** After a policy tick that does not reboot, the latest snapshot is less than an interval old. */
  lemma TickIsFresh(cfg: Config, d: Device, st: Step)
    requires cfg.diag && cfg.snapshotMs > 0 && d.lastHealthMs != 0
    ensures st.PolicyStep? && !Next(cfg, d, st).d.halted ==>
              st.p.healthMs - Next(cfg, d, st).d.lastHealthMs < cfg.snapshotMs
  {
    if st.PolicyStep? && !d.halted {
      PolicyTimes(cfg, d, st.p);
    }
  }
}
