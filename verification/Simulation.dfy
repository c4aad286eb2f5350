/** Diagnostic mode only watches: with and without it, the device does the same things. */
module Simulation {
  import opened Settings
  import opened Effects
  import opened ThreadLink
  import A = Awake
  import opened BatterySense
  import opened Machine
  import opened PolicyTheorems

  /** The build without diagnostics that is otherwise the same. */
  function Plain(cfg: Config): Config {
    cfg.(diag := false)
  }

  /** What the outside world can see: radio, kicks and attributes. */
  const VISIBLE: set<Kind> := {RadioWrites, Kicks, Climates, Batteries}

  function Seen(fx: Trace): Trace {
    Only(fx, VISIBLE)
  }

  /** The two devices agree on everything but their diagnostics. */
  predicate Alike(d: Device, e: Device) {
    && d.thread == e.thread && d.awake == e.awake && d.gate == e.gate
    && d.temperature == e.temperature && d.humidity == e.humidity
    && d.shtReady == e.shtReady && d.sense == e.sense
    && d.radioDbm == e.radioDbm && d.halted == e.halted
  }

  /** One piece of the program, run with diagnostics as o and without as q. */
  predicate Matches(o: Outcome, q: Outcome) {
    Alike(o.d, q.d) && Seen(o.fx) == q.fx
  }

  lemma Then(a: Outcome, p: Outcome, b: Outcome, q: Outcome)
    requires Matches(a, p) && Matches(b, q)
    ensures Matches(Outcome(b.d, a.fx + b.fx), Outcome(q.d, p.fx + q.fx))
  {
    OnlyConcat(a.fx, b.fx, VISIBLE);
  }

  lemma Hidden(fx: Trace)
    requires Within(fx, {Saves, Healths, Feeds})
    ensures Seen(fx) == []
  {
    OnlyNone(fx, {Saves, Healths, Feeds}, VISIBLE);
  }

  lemma SnapMatches(cfg: Config, d: Device, e: Device, ms: int, saves: set<Key>)
    requires Alike(d, e)
    ensures Matches(Snapped(cfg, d, ms, saves), Snapped(Plain(cfg), e, ms, saves))
  {
    Hidden(Snapped(cfg, d, ms, saves).fx);
  }

  lemma LinkMatches(cfg: Config, d: Device, e: Device, o: Observation, saves: set<Key>)
    requires Alike(d, e)
    ensures Matches(Linked(cfg, d, ALL, o, saves), Linked(Plain(cfg), e, ALL, o, saves))
  {
    Hidden(Linked(cfg, d, ALL, o, saves).fx);
  }

  lemma VisibleHold(fx: Trace)
    requires Within(fx, {RadioWrites, Kicks})
    ensures Seen(fx) == fx
  {
    OnlyAll(fx, VISIBLE);
  }

  lemma HoldMatches(cfg: Config, d: Device, e: Device, t: A.Tick)
    requires Alike(d, e)
    ensures Matches(Held(cfg, d, t), Held(Plain(cfg), e, t))
  {
    VisibleHold(A.Fx(cfg.postDbm, d.awake, t));
  }

  /** A tick that does not reboot does the same in both modes. */
  lemma PolicyMatches(cfg: Config, d: Device, e: Device, p: PolicyInput)
    requires Alike(d, e) && !Policy(cfg, d, p).d.halted
    ensures Matches(Policy(cfg, d, p), Policy(Plain(cfg), e, p))
  {
    var a, q := Linked(cfg, d, ALL, p.thread, p.saves), Linked(Plain(cfg), e, ALL, p.thread, p.saves);
    var b, r := Held(cfg, a.d, TickOf(p)), Held(Plain(cfg), q.d, TickOf(p));
    LinkMatches(cfg, d, e, p.thread, p.saves);
    HoldMatches(cfg, a.d, q.d, TickOf(p));
    Then(a, q, b, r);
    SnapMatches(cfg, b.d, r.d, p.healthMs, p.saves);
    Then(Ticked(cfg, d, p), Ticked(Plain(cfg), e, p), RebootOrSnap(cfg, b.d, p), RebootOrSnap(Plain(cfg), r.d, p));
  }

  lemma SenseMatches(cfg: Config, d: Device, e: Device, s: SampleInput, force: bool)
    requires Alike(d, e)
    ensures Matches(Sensed(cfg, d, s, force), Sensed(Plain(cfg), e, s, force))
  {
    Hidden(Sensed(cfg, d, s, force).fx);
  }

  lemma ShowMatches(cfg: Config, d: Device, e: Device, s: SampleInput)
    requires Alike(d, e)
    ensures Matches(Shown(cfg, d, s), Shown(Plain(cfg), e, s))
  {
    var v, key := Measured(d.sense, s.battery), AdcKey(d.sense, s.battery);
    SeenAmongSaves(Climate(d.temperature, d.humidity), BumpMemFx(cfg, d.mem, key, s.saves),
                   Battery(Millivolts(v), HalfPercent(v)));
  }

  lemma SeenAmongSaves(climate: Effect, saves: Trace, battery: Effect)
    requires climate.Climate? && battery.Battery? && Within(saves, {Saves})
    ensures Seen([climate] + saves + [battery]) == [climate] + [] + [battery]
  {
    OnlyConcat([climate], saves, VISIBLE);
    OnlyConcat([climate] + saves, [battery], VISIBLE);
    Hidden(saves);
    OnlySingle(climate, VISIBLE);
    OnlySingle(battery, VISIBLE);
  }

  /** A sample publishes the same values, or nothing, in both modes. */
  lemma SampledMatches(cfg: Config, d: Device, e: Device, s: SampleInput, force: bool)
    requires Alike(d, e)
    ensures Matches(Sampled(cfg, d, s, force), Sampled(Plain(cfg), e, s, force))
  {
    hide Measured, Millivolts, HalfPercent;
    var a, p := Sensed(cfg, d, s, force), Sensed(Plain(cfg), e, s, force);
    SenseMatches(cfg, d, e, s, force);
    if Publishes(d.gate, d.shtReady, s, force) {
      var b, q := Shown(cfg, a.d, s), Shown(Plain(cfg), p.d, s);
      var c, r := Snapped(cfg, b.d, s.healthMs, s.saves), Snapped(Plain(cfg), q.d, s.healthMs, s.saves);
      ShowMatches(cfg, a.d, p.d, s);
      SnapMatches(cfg, b.d, q.d, s.healthMs, s.saves);
      Then(b, q, c, r);
      Then(a, p, Reported(cfg, a.d, s), Reported(Plain(cfg), p.d, s));
    }
  }

  lemma FeedMatches(cfg: Config, a: Outcome, p: Outcome, fx: Trace)
    requires Matches(a, p) && Within(fx, {Feeds})
    ensures Matches(Outcome(a.d, a.fx + fx), p)
  {
    Hidden(fx);
    OnlyConcat(a.fx, fx, VISIBLE);
    assert p.fx + [] == p.fx;
  }

  /** A sampling round, too; it feeds no watchdog without diagnostics. */
  lemma SampleMatches(cfg: Config, d: Device, e: Device, s: SampleInput)
    requires Alike(d, e)
    ensures Matches(Sample(cfg, d, s), Sample(Plain(cfg), e, s))
  {
    hide Sampled;
    var a, q := Sampled(cfg, d, s, false), Sampled(Plain(cfg), e, s, false);
    var feed := RoundFeed(cfg, d, s);
    SampledMatches(cfg, d, e, s, false);
    FeedMatches(cfg, a, q, feed);
    assert q.fx + [] == q.fx;
  }

  lemma NextMatches(cfg: Config, d: Device, e: Device, st: Step)
    requires Alike(d, e) && (!d.halted ==> !Next(cfg, d, st).d.halted)
    ensures Matches(Next(cfg, d, st), Next(Plain(cfg), e, st))
  {
    if !d.halted {
      match st
      case PolicyStep(p) => PolicyMatches(cfg, d, e, p);
      case SampleStep(s) => SampleMatches(cfg, d, e, s);
      case LoopStep(ms) => Hidden(FeedFx(cfg, d.wdtChannel, ms));
    }
  }

  lemma {:induction false} RunMatches(cfg: Config, d: Device, e: Device, steps: seq<Step>)
    requires Alike(d, e) && Times(Run(cfg, d, steps).fx, Reboots) == []
    ensures Matches(Run(cfg, d, steps), Run(Plain(cfg), e, steps))
  {
    if steps != [] {
      var n := |steps| - 1;
      var o, q := Run(cfg, d, steps[..n]), Run(Plain(cfg), e, steps[..n]);
      TimesConcat(o.fx, Next(cfg, o.d, steps[n]).fx, Reboots);
      RunMatches(cfg, d, e, steps[..n]);
      NextReboots(cfg, o.d, steps[n]);
      NextMatches(cfg, o.d, q.d, steps[n]);
      Then(o, q, Next(cfg, o.d, steps[n]), Next(Plain(cfg), q.d, steps[n]));
    }
  }

  lemma StartMatches(cfg: Config, d: Device, e: Device, s: StartInput)
    requires Alike(d, e)
    ensures Matches(Start(cfg, d, s), Start(Plain(cfg), e, s))
  {
    var i, j := Initialised(cfg, d, s), Initialised(Plain(cfg), e, s);
    var fx := BootFx(cfg, d.mem, d.resetReas, s);
    Hidden(fx);
    if s.earlyOk && s.lateOk {
      SampledMatches(cfg, i, j, s.sample, true);
      Then(Outcome(i, fx), Outcome(j, []), Sampled(cfg, i, s.sample, true), Sampled(Plain(cfg), j, s.sample, true));
    }
  }

  lemma BootMatches(cfg: Config, d: Device, e: Device, b: BootRun)
    requires Times(Boot(cfg, d, b).fx, Reboots) == []
    ensures Matches(Boot(cfg, d, b), Boot(Plain(cfg), e, b))
  {
    var l, k := Launch(cfg, d, b), Launch(Plain(cfg), e, b);
    TimesConcat(l.fx, Run(cfg, l.d, b.steps).fx, Reboots);
    if b.start.Some? {
      StartMatches(cfg, PowerUp(d, b), PowerUp(e, b), b.start.value);
    }
    RunMatches(cfg, l.d, k.d, b.steps);
    Then(l, k, Run(cfg, l.d, b.steps), Run(Plain(cfg), k.d, b.steps));
  }

  /**
   * Over any number of boots with the same inputs, up to the first reboot that diagnostics themselves cause: the
   * device with diagnostics and the one without are alike, and what the world sees of the first is everything
   * the second does, in the same order.
   */
  lemma {:induction false} DiagnosticsOnlyWatch(cfg: Config, d: Device, e: Device, boots: seq<BootRun>)
    requires Alike(d, e) && Times(Life(cfg, d, boots).fx, Reboots) == []
    ensures Matches(Life(cfg, d, boots), Life(Plain(cfg), e, boots))
  {
    if boots != [] {
      var n := |boots| - 1;
      var o, q := Life(cfg, d, boots[..n]), Life(Plain(cfg), e, boots[..n]);
      TimesConcat(o.fx, Boot(cfg, o.d, boots[n]).fx, Reboots);
      DiagnosticsOnlyWatch(cfg, d, e, boots[..n]);
      BootMatches(cfg, o.d, q.d, boots[n]);
      Then(o, q, Boot(cfg, o.d, boots[n]), Boot(Plain(cfg), q.d, boots[n]));
    }
  }
}
