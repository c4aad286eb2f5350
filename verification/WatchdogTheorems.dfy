/** Feeding the watchdog over a whole boot, from the sampling timer and the main loop. */
module WatchdogTheorems {
  import opened Base
  import opened Settings
  import opened Effects
  import opened ThreadLink
  import S = Sampling
  import opened BatterySense
  import opened Machine
  import opened Projection
  import opened LifeTheorems

  /** What may feed the watchdog in a run, oldest first. */
  function Turns(shtReady: bool, steps: seq<Step>): seq<S.Turn> {
    if steps == [] then []
    else
      var before := Turns(shtReady, steps[..|steps| - 1]);
      match steps[|steps| - 1]
      case PolicyStep(_) => before
      case SampleStep(s) => before + [RoundOf(shtReady, s)]
      case LoopStep(ms) => before + [S.Loop(ms)]
  }

  function RoundOf(shtReady: bool, s: SampleInput): S.Turn {
    S.Round(CallOf(s, false), Works(shtReady, s), s.endMs)
  }

  lemma PolicyFeedsNothing(cfg: Config, d: Device, p: PolicyInput)
    ensures Times(Policy(cfg, d, p).fx, Feeds) == []
  {
    var a := Linked(cfg, d, ALL, p.thread, p.saves);
    var b := Held(cfg, a.d, TickOf(p));
    TickedKinds(cfg, d, p);
    TickedKinds(cfg, a.d, p);
    RebootOrSnapKinds(cfg, b.d, p);
    PolicyParts(cfg, d, p, {}, Feeds);
    TimesNone(a.fx, {Saves}, Feeds);
    TimesNone(b.fx, {RadioWrites, Kicks}, Feeds);
    TimesNone(RebootOrSnap(cfg, b.d, p).fx, {Saves, Healths, Reboots}, Feeds);
  }

  /** A sampling round feeds the watchdog iff it publishes. */
  lemma RoundFeeds(cfg: Config, d: Device, s: SampleInput)
    requires cfg.diag && d.wdtChannel >= 0
    ensures Times(Sample(cfg, d, s).fx, Feeds) == if Publishes(d.gate, d.shtReady, s, false) then [s.endMs] else []
  {
    hide Sampled;
    var a := Sampled(cfg, d, s, false);
    SampledKinds(cfg, d, s, false);
    LastFeed(a.fx, {Saves, Climates, Batteries, Healths}, s.endMs, Publishes(d.gate, d.shtReady, s, false));
  }

  lemma LastFeed(fx: Trace, present: set<Kind>, ms: int, feeds: bool)
    requires Within(fx, present) && Feeds !in present
    ensures Times(fx + if feeds then [Feed(ms)] else [], Feeds) == if feeds then [ms] else []
  {
    TimesSkip(fx, if feeds then [Feed(ms)] else [], present, Feeds);
    TimesSingle(Feed(ms), Feeds);
  }

  lemma NextFeeds(cfg: Config, d: Device, st: Step)
    requires cfg.diag && d.wdtChannel >= 0 && !d.halted
    ensures Times(Next(cfg, d, st).fx, Feeds) ==
              match st
              case PolicyStep(_) => []
              case SampleStep(s) => if Publishes(d.gate, d.shtReady, s, false) then [s.endMs] else []
              case LoopStep(ms) => [ms]
  {
    match st
    case PolicyStep(p) => PolicyFeedsNothing(cfg, d, p);
    case SampleStep(s) => RoundFeeds(cfg, d, s);
    case LoopStep(ms) => TimesSingle(Feed(ms), Feeds);
  }

  /** With its watchdog armed, a device feeds it by exactly the publishing rounds and the loop turns it executes. */
  lemma {:induction false} FeedsFollow(cfg: Config, d: Device, steps: seq<Step>)
    requires cfg.diag && d.wdtChannel >= 0
    ensures var o, turns := Run(cfg, d, steps), Turns(d.shtReady, Ran(cfg, d, steps));
            && Times(o.fx, Feeds) == S.FeedTimes(d.gate, turns)
            && o.d.gate == S.GateAfter(d.gate, turns)
            && o.d.shtReady == d.shtReady && o.d.wdtChannel == d.wdtChannel
  {
    hide Next;
    if steps != [] {
      var n := |steps| - 1;
      var o, ran := Run(cfg, d, steps[..n]), Ran(cfg, d, steps[..n]);
      FeedsFollow(cfg, d, steps[..n]);
      if o.d.halted {
        HaltedStep(cfg, o, steps[n]);
      } else {
        StepFeeds(cfg, o, d.gate, ran, steps[n]);
      }
    }
  }

  lemma HaltedStep(cfg: Config, o: Outcome, st: Step)
    requires o.d.halted
    ensures Outcome(Next(cfg, o.d, st).d, o.fx + Next(cfg, o.d, st).fx) == o
  {
  }

  lemma StepFeeds(cfg: Config, o: Outcome, g: S.Gate, ran: seq<Step>, st: Step)
    requires cfg.diag && o.d.wdtChannel >= 0 && !o.d.halted
    requires Times(o.fx, Feeds) == S.FeedTimes(g, Turns(o.d.shtReady, ran))
    requires o.d.gate == S.GateAfter(g, Turns(o.d.shtReady, ran))
    ensures var n, turns := Next(cfg, o.d, st), Turns(o.d.shtReady, ran + [st]);
            && Times(o.fx + n.fx, Feeds) == S.FeedTimes(g, turns) && n.d.gate == S.GateAfter(g, turns)
            && n.d.shtReady == o.d.shtReady && n.d.wdtChannel == o.d.wdtChannel
  {
    hide Next, S.FeedTimes, S.GateAfter, Turns;
    NextFeeds(cfg, o.d, st);
    NextParts(cfg, o.d, st);
    TimesConcat(o.fx, Next(cfg, o.d, st).fx, Feeds);
    assert (ran + [st])[..|ran|] == ran;
    TurnSnoc(g, o.d.shtReady, ran + [st]);
  }

  /** The last step, as gate and watchdog see it. */
  lemma TurnSnoc(g: S.Gate, shtReady: bool, steps: seq<Step>)
    requires steps != []
    ensures var front, st := Turns(shtReady, steps[..|steps| - 1]), steps[|steps| - 1];
            var now := Turns(shtReady, steps);
            match st
            case PolicyStep(_) => now == front
            case SampleStep(s) =>
              && S.GateAfter(g, now) == S.Observe(S.GateAfter(g, front), CallOf(s, false))
              && S.FeedTimes(g, now) ==
                 S.FeedTimes(g, front) + if S.Succeeds(S.GateAfter(g, front), RoundOf(shtReady, s)) then [s.endMs] else []
            case LoopStep(ms) =>
              S.GateAfter(g, now) == S.GateAfter(g, front) && S.FeedTimes(g, now) == S.FeedTimes(g, front) + [ms]
  {
    var front, now := Turns(shtReady, steps[..|steps| - 1]), Turns(shtReady, steps);
    if now != front {
      assert now[..|now| - 1] == front;
    }
  }

  /** The feeding turns a device executes. */
  function LiveTurns(cfg: Config, d: Device, steps: seq<Step>): seq<S.Turn> {
    Turns(d.shtReady, Ran(cfg, d, steps))
  }

  // ----- No starvation -----

  /** While at most k rounds in a row publish nothing, any timeout above k + 1 round gaps and one latency holds. */
  lemma WatchdogToleratesMisses(cfg: Config, d: Device, sinceMs: int, fedMs: int, steps: seq<Step>,
                                p: int, l: int, k: nat, until: int)
    requires cfg.diag && d.wdtChannel >= 0
    requires sinceMs <= fedMs && 0 <= p && 0 <= l && cfg.watchdogMs > (k + 1) * p + l
    requires var turns := LiveTurns(cfg, d, steps);
             && S.Regular(sinceMs, turns, p, l) && S.MissesAtMost(d.gate, turns, k)
             && until <= S.LastRound(sinceMs, turns) + p + l
    ensures S.Survives(fedMs, Times(Run(cfg, d, steps).fx, Feeds), until, cfg.watchdogMs)
  {
    FeedsFollow(cfg, d, steps);
    S.MissesTolerated(d.gate, sinceMs, fedMs, LiveTurns(cfg, d, steps), p, l, k, until, cfg.watchdogMs);
  }

  /** The gate allows k == 1: a working sensor and rounds at least a grace period apart need no more than two gaps. */
  lemma CommissionedNodeFeeds(cfg: Config, d: Device, sinceMs: int, fedMs: int, steps: seq<Step>, p: int, l: int, until: int)
    requires cfg.diag && d.wdtChannel >= 0
    requires d.gate.commissionedAtMs <= sinceMs <= fedMs && 0 <= p && 0 <= l && cfg.watchdogMs > 2 * p + l
    requires var turns := LiveTurns(cfg, d, steps);
             && S.Regular(sinceMs, turns, p, l) && S.Working(turns) && S.Apart(turns)
             && until <= S.LastRound(sinceMs, turns) + p + l
    ensures S.Survives(fedMs, Times(Run(cfg, d, steps).fx, Feeds), until, cfg.watchdogMs)
  {
    SpacedMissesOnce(d.gate, sinceMs, LiveTurns(cfg, d, steps), p, l);
    WatchdogToleratesMisses(cfg, d, sinceMs, fedMs, steps, p, l, 1, until);
  }

  lemma SpacedMissesOnce(g: S.Gate, sinceMs: int, turns: seq<S.Turn>, p: int, l: int)
    requires g.commissionedAtMs <= sinceMs && S.Regular(sinceMs, turns, p, l) && S.Working(turns) && S.Apart(turns)
    ensures S.MissesAtMost(g, turns, 1)
  {
    S.RegularStart(sinceMs, turns, p, l);
    S.GateMissesOnce(g, turns);
  }

  /** Fed once, by whatever turn, commissioned and with a working sensor: any timeout of at least grace + p + l holds. */
  lemma HealthyDeviceSurvives(cfg: Config, d: Device, sinceMs: int, fedMs: int, steps: seq<Step>, p: int, l: int, until: int)
    requires cfg.diag && d.wdtChannel >= 0
    requires d.gate.wasCommissioned && d.gate.commissionedAtMs <= sinceMs <= fedMs && 0 <= p && 0 <= l
    requires cfg.watchdogMs >= S.COMMISSION_GRACE_MS + p + l
    requires var turns := LiveTurns(cfg, d, steps);
             S.Regular(sinceMs, turns, p, l) && S.Working(turns) && until <= S.LastRound(sinceMs, turns) + p + l
    ensures S.Survives(fedMs, Times(Run(cfg, d, steps).fx, Feeds), until, cfg.watchdogMs)
  {
    FeedsFollow(cfg, d, steps);
    S.HealthyNodeFeeds(d.gate, sinceMs, fedMs, LiveTurns(cfg, d, steps), p, l, cfg.watchdogMs);
  }

  /** A publishing round feeds the watchdog, and leaves a commissioned node whose grace period is over. */
  lemma PublishingRound(cfg: Config, d: Device, s: SampleInput)
    requires cfg.diag && d.wdtChannel >= 0 && !d.halted && Publishes(d.gate, d.shtReady, s, false)
    ensures var n := Next(cfg, d, SampleStep(s));
            && Times(n.fx, Feeds) == [s.endMs] && S.Settled(n.d.gate, s.ms)
            && n.d.shtReady == d.shtReady && n.d.wdtChannel == d.wdtChannel
  {
    NextFeeds(cfg, d, SampleStep(s));
    NextParts(cfg, d, SampleStep(s));
  }

  /** From a settled gate on, gap and latency are enough. */
  lemma SettledDeviceSurvives(cfg: Config, d: Device, sinceMs: int, fedMs: int, steps: seq<Step>, p: int, l: int, until: int)
    requires cfg.diag && d.wdtChannel >= 0 && cfg.watchdogMs > p + l
    requires S.Settled(d.gate, sinceMs) && sinceMs <= fedMs && 0 <= p && 0 <= l
    requires var turns := LiveTurns(cfg, d, steps);
             S.Regular(sinceMs, turns, p, l) && S.Working(turns) && until <= S.LastRound(sinceMs, turns) + p + l
    ensures S.Survives(fedMs, Times(Run(cfg, d, steps).fx, Feeds), until, cfg.watchdogMs)
  {
    FeedsFollow(cfg, d, steps);
    S.SettledNodeSurvives(d.gate, sinceMs, fedMs, LiveTurns(cfg, d, steps), p, l, until, cfg.watchdogMs);
  }

  /** Cut a run after a round that publishes: the feeds after it keep any timeout above p + l. */
  lemma RunNeverStarves(cfg: Config, d: Device, before: seq<Step>, s: SampleInput, after: seq<Step>,
                        p: int, l: int, until: int)
    requires cfg.diag && d.wdtChannel >= 0 && cfg.watchdogMs > p + l
    requires !Run(cfg, d, before).d.halted && Publishes(Run(cfg, d, before).d.gate, d.shtReady, s, false)
    requires 0 <= p && s.ms <= s.endMs <= s.ms + l
    requires var turns := LiveTurns(cfg, Run(cfg, d, before + [SampleStep(s)]).d, after);
             S.Regular(s.ms, turns, p, l) && S.Working(turns) && until <= S.LastRound(s.ms, turns) + p + l
    ensures var o := Run(cfg, d, before + [SampleStep(s)]);
            var later := Times(Run(cfg, o.d, after).fx, Feeds);
            && Times(o.fx, Feeds) == Times(Run(cfg, d, before).fx, Feeds) + [s.endMs]
            && Times(Run(cfg, d, before + [SampleStep(s)] + after).fx, Feeds) == Times(o.fx, Feeds) + later
            && S.Survives(s.endMs, later, until, cfg.watchdogMs)
  {
    var upTo := before + [SampleStep(s)];
    var e, o := Run(cfg, d, before), Run(cfg, d, upTo);
    assert upTo[..|before|] == before && upTo[|before|] == SampleStep(s);
    RunConcat(cfg, d, upTo, after);
    FeedsFollow(cfg, d, before);
    PublishingRound(cfg, e.d, s);
    TimesConcat(e.fx, Next(cfg, e.d, SampleStep(s)).fx, Feeds);
    TimesConcat(o.fx, Run(cfg, o.d, after).fx, Feeds);
    SettledDeviceSurvives(cfg, o.d, s.ms, s.endMs, after, p, l, until);
  }

  /**
   * The watchdog never expires on a device that has published once, stays commissioned and keeps a working sensor. Cut
   * a boot after any round that publishes: if from there on rounds come at most p apart and take at most l, as long as
   * the boot lasts, any timeout above p + l holds. The gate costs such a device no further round.
   */
  lemma WatchdogNeverStarves(cfg: Config, d: Device, b: BootRun, before: seq<Step>, s: SampleInput, after: seq<Step>,
                             p: int, l: int, until: int)
    requires cfg.diag && cfg.watchdogMs > p + l
    requires b.start.Some? && b.start.value.earlyOk && WdtChannel(cfg, b.start.value.wdt) >= 0
    requires b.steps == before + [SampleStep(s)] + after && !Run(cfg, Launch(cfg, d, b).d, before).d.halted
    requires Publishes(Run(cfg, Launch(cfg, d, b).d, before).d.gate, b.start.value.shtReady, s, false)
    requires 0 <= p && s.ms <= s.endMs <= s.ms + l
    requires var turns := LiveTurns(cfg, Run(cfg, Launch(cfg, d, b).d, before + [SampleStep(s)]).d, after);
             S.Regular(s.ms, turns, p, l) && S.Working(turns) && until <= S.LastRound(s.ms, turns) + p + l
    ensures var earlier := Times(Run(cfg, Launch(cfg, d, b).d, before).fx, Feeds) + [s.endMs];
            var feeds := Times(Boot(cfg, d, b).fx, Feeds);
            earlier <= feeds && S.Survives(s.endMs, feeds[|earlier|..], until, cfg.watchdogMs)
  {
    var k := Launch(cfg, d, b);
    HaltedStays(cfg, k.d, before);
    Armed(cfg, PowerUp(d, b), b.start.value);
    RunNeverStarves(cfg, k.d, before, s, after, p, l, until);
    var o := Run(cfg, k.d, before + [SampleStep(s)]);
    CutFeeds(k.fx, Run(cfg, k.d, b.steps).fx, Times(o.fx, Feeds), Times(Run(cfg, o.d, after).fx, Feeds));
  }

  lemma CutFeeds(a: Trace, b: Trace, earlier: seq<int>, later: seq<int>)
    requires Times(a, Feeds) == [] && Times(b, Feeds) == earlier + later
    ensures earlier <= Times(a + b, Feeds) && Times(a + b, Feeds)[|earlier|..] == later
  {
    TimesConcat(a, b, Feeds);
    assert [] + (earlier + later) == earlier + later;
  }

  /** A start that comes through has the watchdog it set up and has fed nothing. */
  lemma Armed(cfg: Config, d: Device, s: StartInput)
    requires s.earlyOk
    ensures var o := Start(cfg, d, s);
            && (!o.d.halted ==> o.d.shtReady == s.shtReady && o.d.wdtChannel == WdtChannel(cfg, s.wdt))
            && Times(o.fx, Feeds) == []
  {
    StartKinds(cfg, d, s);
    TimesNone(Start(cfg, d, s).fx, {Saves, Climates, Batteries, Healths}, Feeds);
  }

  lemma {:induction false} RunConcat(cfg: Config, d: Device, a: seq<Step>, b: seq<Step>)
    ensures var o := Run(cfg, d, a);
            Run(cfg, d, a + b) == Outcome(Run(cfg, o.d, b).d, o.fx + Run(cfg, o.d, b).fx)
  {
    var o := Run(cfg, d, a);
    if b == [] {
      assert a + b == a && o.fx + [] == o.fx;
    } else {
      var n := |b| - 1;
      var q := Run(cfg, o.d, b[..n]);
      assert (a + b)[..|a + b| - 1] == a + b[..n];
      assert (a + b)[|a + b| - 1] == b[n];
      RunConcat(cfg, d, a, b[..n]);
      Assoc(o.fx, q.fx, Next(cfg, q.d, b[n]).fx);
    }
  }

  // ----- The sampling timer alone -----

  /**
   * When nothing but exact 60 s rounds feeds it, the watchdog of a healthy node holds iff its timeout is longer than
   * 60 s: of the configurable timeouts, 30 s to 3600 s, the shortest ones reset a healthy node.
   */
  lemma TimerAloneNeedsLongTimeout(cfg: Config, d: Device, sinceMs: int, steps: seq<Step>)
    requires cfg.diag && d.wdtChannel >= 0
    requires d.gate.wasCommissioned && d.gate.commissionedAtMs <= sinceMs
    requires S.Periodic(sinceMs, LiveTurns(cfg, d, steps)) && LiveTurns(cfg, d, steps) != []
    ensures S.Survives(sinceMs, Times(Run(cfg, d, steps).fx, Feeds),
                       S.LastRound(sinceMs, LiveTurns(cfg, d, steps)), cfg.watchdogMs)
            <==> cfg.watchdogMs > 60_000
  {
    FeedsFollow(cfg, d, steps);
    S.PeriodicSurvivesIff(d.gate, sinceMs, LiveTurns(cfg, d, steps), cfg.watchdogMs);
  }

  lemma RunPair(cfg: Config, d: Device, a: Step, b: Step)
    ensures var m := Next(cfg, d, a);
            Run(cfg, d, [a, b]) == Outcome(Next(cfg, m.d, b).d, m.fx + Next(cfg, m.d, b).fx)
  {
    var m := Next(cfg, d, a);
    assert [a, b][..1] == [a] && [a][..0] == [];
    assert Run(cfg, d, [a]) == Outcome(m.d, [] + m.fx);
    assert [] + m.fx == m.fx;
  }

  /** A loop turn and a publishing round feed once each. */
  lemma TwoFeeds(cfg: Config, d: Device, ms: int, s: SampleInput)
    requires cfg.diag && d.wdtChannel >= 0 && !d.halted && Publishes(d.gate, d.shtReady, s, false)
    ensures Times(Run(cfg, d, [LoopStep(ms), SampleStep(s)]).fx, Feeds) == [ms, s.endMs]
  {
    hide Sampled, Policy;
    RunPair(cfg, d, LoopStep(ms), SampleStep(s));
    NextFeeds(cfg, d, LoopStep(ms));
    NextFeeds(cfg, d, SampleStep(s));
    TimesConcat(Next(cfg, d, LoopStep(ms)).fx, Next(cfg, d, SampleStep(s)).fx, Feeds);
  }

  const ALL_KEYS: set<Key> := {BootCount, WdtResetCount, ThreadDetachCount, ThreadReattachCount, SensorFailureCount,
                              AdcFailureCount, LastResetReas, LastUptimeSec, LastThreadRole}

  /** A sampling round without fault at the given time, on a commissioned node. */
  function GoodSample(ms: int): SampleInput {
    SampleInput(true, ms, true, Some(Reading(20.0, 50.0)),
                BatteryInput(true, true, true, true, [Some(1400), Some(1400), Some(1400), Some(1400)]), ms, ms, ALL_KEYS)
  }

  /** A start without fault that takes its first sample at the given time. */
  function GoodStart(ms: int): StartInput {
    StartInput([], ALL_KEYS, true, true, WdtInput(true, 0, true), true, GoodSample(ms))
  }

  /** A boot that samples at once, enters its main loop and fires the sampling timer after exactly 60 s. */
  function GoodMinute(): BootRun {
    BootRun(PowerOn, false, 0, Some(GoodStart(1)), [LoopStep(1), SampleStep(GoodSample(60001))])
  }

  /** Every save succeeds, and none of them counts a failure of sensor or ADC. */
  predicate Faultless(fx: Trace) {
    forall i | 0 <= i < |fx| && fx[i].Save? :: fx[i].ok && fx[i].key != SensorFailureCount && fx[i].key != AdcFailureCount
  }

  lemma GoodSampleIsFaultless(cfg: Config, d: Device, ms: int, force: bool)
    requires d.shtReady
    ensures Faultless(Sampled(cfg, d, GoodSample(ms), force).fx)
  {
    var s := GoodSample(ms);
    var a := Sensed(cfg, d, s, force);
    assert a.fx == [];
    assert None !in s.battery.samples;
    if Publishes(d.gate, d.shtReady, s, force) {
      var b := Shown(cfg, a.d, s);
      assert Faultless(b.fx);
      assert Faultless(Snapped(cfg, b.d, s.healthMs, s.saves).fx);
    }
  }

  lemma GoodStartRuns(cfg: Config, d: Device)
    requires cfg.diag && d.gate == S.UNSEEN && !d.halted
    ensures var o := Start(cfg, d, GoodStart(1));
            && Publishes(d.gate, true, GoodSample(1), true)
            && o.d.gate == S.Gate(true, 1) && o.d.shtReady && o.d.wdtChannel == 0 && !o.d.halted
            && Times(o.fx, Feeds) == []
  {
    Armed(cfg, d, GoodStart(1));
  }

  lemma GoodStartIsFaultless(cfg: Config, d: Device)
    ensures Faultless(Start(cfg, d, GoodStart(1)).fx)
  {
    var e := Initialised(cfg, d, GoodStart(1));
    assert Faultless(BootFx(cfg, d.mem, d.resetReas, GoodStart(1)));
    GoodSampleIsFaultless(cfg, e, 1, true);
  }

  lemma GoodStepsAreFaultless(cfg: Config, d: Device)
    requires d.shtReady
    ensures Faultless(Run(cfg, d, GoodMinute().steps).fx)
  {
    hide Sampled;
    var m := Next(cfg, d, LoopStep(1));
    RunPair(cfg, d, LoopStep(1), SampleStep(GoodSample(60001)));
    assert Faultless(m.fx);
    GoodSampleIsFaultless(cfg, m.d, 60001, false);
    assert Faultless(Next(cfg, m.d, SampleStep(GoodSample(60001))).fx);
  }

  /** Such a run: all works and publishes, the main loop feeds, yet any permitted timeout up to 60 s expires. */
  lemma ShortTimeoutExpires(cfg: Config, d: Device)
    requires cfg.diag && cfg.Valid() && cfg.watchdogMs <= 60_000
    ensures TimelyBoot(GoodMinute()) && Faultless(Boot(cfg, d, GoodMinute()).fx)
    ensures forall ms, t: Sense :: !AdcFails(t, GoodSample(ms).battery)
    ensures Publishes(S.UNSEEN, true, GoodSample(1), true)
    ensures Publishes(Launch(cfg, d, GoodMinute()).d.gate, true, GoodSample(60001), false)
    ensures Times(Boot(cfg, d, GoodMinute()).fx, Feeds) == [1, 60001]
    ensures !S.Survives(1, [60001], 60001, cfg.watchdogMs)
  {
    hide Sampled;
    var b := GoodMinute();
    var l := Launch(cfg, d, b);
    GoodStartRuns(cfg, PowerUp(d, b));
    GoodStartIsFaultless(cfg, PowerUp(d, b));
    GoodStepsAreFaultless(cfg, l.d);
    TwoFeeds(cfg, l.d, 1, GoodSample(60001));
    TimesConcat(l.fx, Run(cfg, l.d, b.steps).fx, Feeds);
    TimelyPair(1, LoopStep(1), SampleStep(GoodSample(60001)));
    assert [60001][..0] == [];
  }
}
