/** How the parts evolve inside the whole machine: each follows its own inputs, whatever else is interleaved. */
module Projection {
  import opened Effects
  import opened ThreadLink
  import A = Awake
  import S = Sampling
  import opened BatterySense
  import opened Machine

  // ----- What each part of a step can do -----

  lemma TickedKinds(cfg: Config, d: Device, p: PolicyInput)
    ensures Within(Linked(cfg, d, ALL, p.thread, p.saves).fx, {Saves})
    ensures Within(Held(cfg, d, TickOf(p)).fx, {RadioWrites, Kicks})
  {
  }

  lemma RebootOrSnapKinds(cfg: Config, d: Device, p: PolicyInput)
    ensures Within(RebootOrSnap(cfg, d, p).fx, {Saves, Healths, Reboots})
  {
  }

  lemma SampledKinds(cfg: Config, d: Device, s: SampleInput, force: bool)
    ensures Within(Sampled(cfg, d, s, force).fx, {Saves, Climates, Batteries, Healths})
  {
    hide Measured, Millivolts, HalfPercent;
    var a := Sensed(cfg, d, s, force);
    assert Within(a.fx, {Saves});
    if Publishes(d.gate, d.shtReady, s, force) {
      var b := Shown(cfg, a.d, s);
      assert Within(b.fx, {Saves, Climates, Batteries});
      assert Within(Snapped(cfg, b.d, s.healthMs, s.saves).fx, {Saves, Healths});
    }
  }

  lemma SampleKinds(cfg: Config, d: Device, s: SampleInput)
    ensures Within(Sample(cfg, d, s).fx, {Saves, Climates, Batteries, Healths, Feeds})
  {
    SampledKinds(cfg, d, s, false);
  }

  lemma StartKinds(cfg: Config, d: Device, s: StartInput)
    ensures Within(Start(cfg, d, s).fx, {Saves, Climates, Batteries, Healths})
  {
    SampledKinds(cfg, Initialised(cfg, d, s), s.sample, true);
  }

  /** The folds of a policy tick are those of its three parts. */
  lemma PolicyParts(cfg: Config, d: Device, p: PolicyInput, kinds: set<Kind>, kind: Kind)
    ensures var a := Linked(cfg, d, ALL, p.thread, p.saves);
            var b := Held(cfg, a.d, TickOf(p));
            var c := RebootOrSnap(cfg, b.d, p);
            && Only(Policy(cfg, d, p).fx, kinds) == Only(a.fx, kinds) + Only(b.fx, kinds) + Only(c.fx, kinds)
            && Times(Policy(cfg, d, p).fx, kind) == Times(a.fx, kind) + Times(b.fx, kind) + Times(c.fx, kind)
  {
    var a := Linked(cfg, d, ALL, p.thread, p.saves);
    var b := Held(cfg, a.d, TickOf(p));
    var c := RebootOrSnap(cfg, b.d, p);
    OnlyConcat(a.fx, b.fx, kinds);
    OnlyConcat(a.fx + b.fx, c.fx, kinds);
    TimesConcat(a.fx, b.fx, kind);
    TimesConcat(a.fx + b.fx, c.fx, kind);
  }

  lemma PolicyRadioAndKicks(cfg: Config, d: Device, p: PolicyInput)
    ensures var fx, held := Policy(cfg, d, p).fx, A.Fx(cfg.postDbm, d.awake, TickOf(p));
            Only(fx, {RadioWrites}) == Only(held, {RadioWrites}) && Times(fx, Kicks) == Times(held, Kicks)
  {
    var a := Linked(cfg, d, ALL, p.thread, p.saves);
    var c := RebootOrSnap(cfg, Held(cfg, a.d, TickOf(p)).d, p);
    TickedKinds(cfg, d, p);
    RebootOrSnapKinds(cfg, Held(cfg, a.d, TickOf(p)).d, p);
    PolicyParts(cfg, d, p, {RadioWrites}, Kicks);
    OnlyNone(a.fx, {Saves}, {RadioWrites});
    TimesNone(a.fx, {Saves}, Kicks);
    OnlyNone(c.fx, {Saves, Healths, Reboots}, {RadioWrites});
    TimesNone(c.fx, {Saves, Healths, Reboots}, Kicks);
  }

  /** Radio writes and kicks of a step are those of its policy tick. */
  lemma NextRadioAndKicks(cfg: Config, d: Device, st: Step)
    requires !d.halted
    ensures var fx := Next(cfg, d, st).fx;
            && Only(fx, {RadioWrites}) == (if st.PolicyStep? then Only(A.Fx(cfg.postDbm, d.awake, TickOf(st.p)), {RadioWrites}) else [])
            && Times(fx, Kicks) == if st.PolicyStep? then Times(A.Fx(cfg.postDbm, d.awake, TickOf(st.p)), Kicks) else []
  {
    match st
    case PolicyStep(p) => PolicyRadioAndKicks(cfg, d, p);
    case SampleStep(s) =>
      SampleKinds(cfg, d, s);
      OnlyNone(Sample(cfg, d, s).fx, {Saves, Climates, Batteries, Healths, Feeds}, {RadioWrites});
      TimesNone(Sample(cfg, d, s).fx, {Saves, Climates, Batteries, Healths, Feeds}, Kicks);
    case LoopStep(ms) =>
      OnlyNone(FeedFx(cfg, d.wdtChannel, ms), {Feeds}, {RadioWrites});
      TimesNone(FeedFx(cfg, d.wdtChannel, ms), {Feeds}, Kicks);
  }

  // ----- The inputs of each part -----

  /** What the policy ticks of a boot read of window, clock and radio. */
  function Ticks(steps: seq<Step>): seq<A.Tick> {
    if steps == [] then []
    else
      var before, st := Ticks(steps[..|steps| - 1]), steps[|steps| - 1];
      if st.PolicyStep? then before + [TickOf(st.p)] else before
  }

  /** What they observe of the Thread stack. */
  function Observations(steps: seq<Step>): seq<Observation> {
    if steps == [] then []
    else
      var before, st := Observations(steps[..|steps| - 1]), steps[|steps| - 1];
      if st.PolicyStep? then before + [st.p.thread] else before
  }

  /** The gate calls of a boot, the forced one of start-up included. */
  function Calls(first: S.Call, steps: seq<Step>): seq<S.Call> {
    if steps == [] then [first]
    else
      var before, st := Calls(first, steps[..|steps| - 1]), steps[|steps| - 1];
      if st.SampleStep? then before + [CallOf(st.s, false)] else before
  }

  /** The steps of a run that a device still executes: none after the one that reboots it. */
  function Ran(cfg: Config, d: Device, steps: seq<Step>): seq<Step> {
    if steps == [] then []
    else
      var front := steps[..|steps| - 1];
      if Run(cfg, d, front).d.halted then Ran(cfg, d, front) else Ran(cfg, d, front) + [steps[|steps| - 1]]
  }

  /** A device that never stopped has executed all of them. */
  lemma {:induction false} RunningRanAll(cfg: Config, d: Device, steps: seq<Step>)
    requires !Run(cfg, d, steps).d.halted
    ensures Ran(cfg, d, steps) == steps
  {
    if steps != [] {
      RunningRanAll(cfg, d, steps[..|steps| - 1]);
    }
  }

  /** The inputs of one more executed step. */
  lemma InputsSnoc(steps: seq<Step>, st: Step, first: S.Call)
    ensures Ticks(steps + [st]) == if st.PolicyStep? then Ticks(steps) + [TickOf(st.p)] else Ticks(steps)
    ensures Observations(steps + [st]) == if st.PolicyStep? then Observations(steps) + [st.p.thread] else Observations(steps)
    ensures Calls(first, steps + [st]) == if st.SampleStep? then Calls(first, steps) + [CallOf(st.s, false)] else Calls(first, steps)
  {
    assert (steps + [st])[..|steps|] == steps;
  }

  lemma TrackSnoc(obs: seq<Observation>, o: Observation)
    ensures Track(obs + [o]) == Handle(Track(obs), ALL, o)
  {
    assert (obs + [o])[..|obs|] == obs;
  }

  lemma AwakeSnoc(postDbm: int, ticks: seq<A.Tick>, t: A.Tick)
    ensures A.Run(postDbm, ticks + [t]) == A.Next(postDbm, A.Run(postDbm, ticks), t)
    ensures A.RunFx(postDbm, ticks + [t]) == A.RunFx(postDbm, ticks) + A.Fx(postDbm, A.Run(postDbm, ticks), t)
  {
    assert (ticks + [t])[..|ticks|] == ticks;
  }

  lemma GateSnoc(calls: seq<S.Call>, c: S.Call)
    ensures S.Run(calls + [c]) == S.Observe(S.Run(calls), c)
  {
    assert (calls + [c])[..|calls|] == calls;
  }

  /** A device as start-up leaves it, before any callback: link and policy untouched, the gate has seen one call. */
  ghost predicate JustStarted(d: Device, first: S.Call) {
    d.thread == UNLINKED && d.awake == A.RESTED && d.gate == S.Run([first])
  }

  lemma StartStarts(cfg: Config, d: Device, b: BootRun)
    requires b.start.Some? && b.start.value.earlyOk && b.start.value.lateOk
    ensures JustStarted(Launch(cfg, d, b).d, CallOf(b.start.value.sample, true)) && !Launch(cfg, d, b).d.halted
    ensures Launch(cfg, d, b).d.radioDbm == b.radioDbm
  {
    var c := CallOf(b.start.value.sample, true);
    assert [c][..0] == [];
  }

  /** How one step moves each part. */
  lemma NextParts(cfg: Config, d: Device, st: Step)
    requires !d.halted
    ensures var e := Next(cfg, d, st).d;
            && e.thread == (if st.PolicyStep? then Handle(d.thread, ALL, st.p.thread) else d.thread)
            && e.awake == (if st.PolicyStep? then A.Next(cfg.postDbm, d.awake, TickOf(st.p)) else d.awake)
            && e.radioDbm == (if st.PolicyStep? then A.Radiated(cfg.postDbm, d.radioDbm, d.awake, TickOf(st.p)) else d.radioDbm)
            && e.gate == (if st.SampleStep? then S.Observe(d.gate, CallOf(st.s, false)) else d.gate)
            && e.shtReady == d.shtReady && e.wdtChannel == d.wdtChannel && e.resetReas == d.resetReas
  {
  }

  /** Thread tracker and sampling gate are exactly what their own inputs make of them. */
  lemma {:induction false} LinkAndGateFollow(cfg: Config, d: Device, first: S.Call, steps: seq<Step>)
    requires JustStarted(d, first)
    ensures Run(cfg, d, steps).d.thread == Track(Observations(Ran(cfg, d, steps)))
    ensures Run(cfg, d, steps).d.gate == S.Run(Calls(first, Ran(cfg, d, steps)))
  {
    if steps != [] {
      var n := |steps| - 1;
      var front, st := steps[..n], steps[n];
      var ran := Ran(cfg, d, front);
      LinkAndGateFollow(cfg, d, first, front);
      if !Run(cfg, d, front).d.halted {
        NextParts(cfg, Run(cfg, d, front).d, st);
        InputsSnoc(ran, st, first);
        match st
        case PolicyStep(p) => TrackSnoc(Observations(ran), p.thread);
        case SampleStep(s) => GateSnoc(Calls(first, ran), CallOf(s, false));
        case LoopStep(_) =>
      }
    }
  }

  /** The awake policy in a state a, its radio at dbm, has had these effects on the outside. */
  predicate Shows(o: Outcome, a: A.AwakeState, dbm: int, fx: Trace) {
    && o.d.awake == a && o.d.radioDbm == Power(dbm, fx)
    && Only(o.fx, {RadioWrites}) == Only(fx, {RadioWrites})
    && Times(o.fx, Kicks) == Times(fx, Kicks)
  }

  /** The awake policy, too; and the radio's writes, kicks and power in the whole trace are the policy's own. */
  lemma {:induction false} PolicyFollows(cfg: Config, d: Device, steps: seq<Step>)
    requires d.awake == A.RESTED
    ensures var ticks := Ticks(Ran(cfg, d, steps));
            Shows(Run(cfg, d, steps), A.Run(cfg.postDbm, ticks), d.radioDbm, A.RunFx(cfg.postDbm, ticks))
  {
    if steps != [] {
      var n := |steps| - 1;
      var o := Run(cfg, d, steps[..n]);
      PolicyFollows(cfg, d, steps[..n]);
      if o.d.halted {
        assert o.fx + [] == o.fx;
      } else {
        InputsSnoc(Ran(cfg, d, steps[..n]), steps[n], S.Call(true, false, 0));
        PolicyStepFollows(cfg, d.radioDbm, o, steps[n], Ticks(Ran(cfg, d, steps[..n])));
      }
    }
  }

  lemma PolicyStepFollows(cfg: Config, dbm: int, o: Outcome, st: Step, ticks: seq<A.Tick>)
    requires !o.d.halted && Shows(o, A.Run(cfg.postDbm, ticks), dbm, A.RunFx(cfg.postDbm, ticks))
    ensures var n := Next(cfg, o.d, st);
            var now := if st.PolicyStep? then ticks + [TickOf(st.p)] else ticks;
            Shows(Outcome(n.d, o.fx + n.fx), A.Run(cfg.postDbm, now), dbm, A.RunFx(cfg.postDbm, now))
  {
    NextParts(cfg, o.d, st);
    NextRadioAndKicks(cfg, o.d, st);
    OnlyConcat(o.fx, Next(cfg, o.d, st).fx, {RadioWrites});
    TimesConcat(o.fx, Next(cfg, o.d, st).fx, Kicks);
    if st.PolicyStep? {
      PolicySnoc(cfg.postDbm, dbm, ticks, TickOf(st.p));
    }
  }

  lemma PolicySnoc(postDbm: int, dbm: int, ticks: seq<A.Tick>, t: A.Tick)
    ensures var a, fx := A.Run(postDbm, ticks), A.RunFx(postDbm, ticks);
            var after := A.RunFx(postDbm, ticks + [t]);
            && A.Run(postDbm, ticks + [t]) == A.Next(postDbm, a, t)
            && Power(dbm, after) == A.Radiated(postDbm, Power(dbm, fx), a, t)
            && Only(after, {RadioWrites}) == Only(fx, {RadioWrites}) + Only(A.Fx(postDbm, a, t), {RadioWrites})
            && Times(after, Kicks) == Times(fx, Kicks) + Times(A.Fx(postDbm, a, t), Kicks)
  {
    var a, fx := A.Run(postDbm, ticks), A.RunFx(postDbm, ticks);
    AwakeSnoc(postDbm, ticks, t);
    PowerConcat(dbm, fx, A.Fx(postDbm, a, t));
    A.FxPower(Power(dbm, fx), postDbm, a, t);
    OnlyConcat(fx, A.Fx(postDbm, a, t), {RadioWrites});
    TimesConcat(fx, A.Fx(postDbm, a, t), Kicks);
  }

  // ----- Whole boots -----

  /** The callbacks a boot executes, and among them its policy ticks and its gate calls. */
  function Live(cfg: Config, d: Device, b: BootRun): seq<Step> {
    Ran(cfg, Launch(cfg, d, b).d, b.steps)
  }

  function LiveTicks(cfg: Config, d: Device, b: BootRun): seq<A.Tick> {
    Ticks(Live(cfg, d, b))
  }

  function LiveCalls(cfg: Config, d: Device, b: BootRun): seq<S.Call>
    requires b.start.Some?
  {
    Calls(CallOf(b.start.value.sample, true), Live(cfg, d, b))
  }

  lemma LaunchLeavesPolicy(cfg: Config, d: Device, b: BootRun)
    ensures var l := Launch(cfg, d, b);
            && l.d.awake == A.RESTED && l.d.radioDbm == b.radioDbm
            && Only(l.fx, {RadioWrites}) == [] && Times(l.fx, Kicks) == []
  {
    if b.start.Some? {
      var present := {Saves, Climates, Batteries, Healths};
      StartKinds(cfg, PowerUp(d, b), b.start.value);
      OnlyNone(Launch(cfg, d, b).fx, present, {RadioWrites});
      TimesNone(Launch(cfg, d, b).fx, present, Kicks);
    }
  }

  /** However a boot starts and ends, what it does to radio and ICD manager is the policy over its ticks. */
  lemma BootPolicy(cfg: Config, d: Device, b: BootRun)
    ensures var ticks := LiveTicks(cfg, d, b);
            Shows(Boot(cfg, d, b), A.Run(cfg.postDbm, ticks), b.radioDbm, A.RunFx(cfg.postDbm, ticks))
  {
    var l := Launch(cfg, d, b);
    var r := Run(cfg, l.d, b.steps);
    LaunchLeavesPolicy(cfg, d, b);
    PolicyFollows(cfg, l.d, b.steps);
    OnlyConcat(l.fx, r.fx, {RadioWrites});
    TimesConcat(l.fx, r.fx, Kicks);
    assert [] + Only(r.fx, {RadioWrites}) == Only(r.fx, {RadioWrites});
    assert [] + Times(r.fx, Kicks) == Times(r.fx, Kicks);
  }

  /** And once it has come up, its tracker and gate are those of its observations and calls. */
  lemma BootLinkAndGate(cfg: Config, d: Device, b: BootRun)
    requires b.start.Some? && b.start.value.earlyOk && b.start.value.lateOk
    ensures Boot(cfg, d, b).d.thread == Track(Observations(Live(cfg, d, b)))
    ensures Boot(cfg, d, b).d.gate == S.Run(LiveCalls(cfg, d, b))
  {
    StartStarts(cfg, d, b);
    LinkAndGateFollow(cfg, Launch(cfg, d, b).d, CallOf(b.start.value.sample, true), b.steps);
  }

  /** The sensor is ready in a boot iff it was found ready at its start. */
  lemma BootSensor(cfg: Config, d: Device, b: BootRun)
    requires b.start.Some? && b.start.value.earlyOk && b.start.value.lateOk
    ensures Boot(cfg, d, b).d.shtReady == Launch(cfg, d, b).d.shtReady == b.start.value.shtReady
  {
    RunSensor(cfg, Launch(cfg, d, b).d, b.steps);
  }

  lemma {:induction false} RunSensor(cfg: Config, d: Device, steps: seq<Step>)
    ensures Run(cfg, d, steps).d.shtReady == d.shtReady && Run(cfg, d, steps).d.wdtChannel == d.wdtChannel
  {
    if steps != [] {
      var o := Run(cfg, d, steps[..|steps| - 1]);
      RunSensor(cfg, d, steps[..|steps| - 1]);
      if !o.d.halted {
        NextParts(cfg, o.d, steps[|steps| - 1]);
      }
    }
  }

  /** A boot that is still running came up and has executed every step. */
  lemma RunningBoot(cfg: Config, d: Device, b: BootRun)
    requires !Boot(cfg, d, b).d.halted
    ensures b.start.Some? && b.start.value.earlyOk && b.start.value.lateOk
    ensures Live(cfg, d, b) == b.steps
  {
    var l := Launch(cfg, d, b);
    RunningRanAll(cfg, l.d, b.steps);
    HaltedStays(cfg, l.d, b.steps);
  }

  lemma {:induction false} HaltedStays(cfg: Config, d: Device, steps: seq<Step>)
    ensures d.halted ==> Run(cfg, d, steps).d.halted
  {
    if steps != [] {
      HaltedStays(cfg, d, steps[..|steps| - 1]);
    }
  }
}
