/** Flash over a boot: it is exactly what the trace wrote, and the uptime in it moves only with snapshots. */
module FlashTheorems {
  import opened Base
  import opened Settings
  import opened Effects
  import opened ThreadLink
  import A = Awake
  import opened BatterySense
  import opened Diagnostics
  import opened Machine
  import opened Projection
  import opened Persistence
  import opened LifeTheorems
  import opened HealthTheorems

  // ----- Every piece of the program writes what its trace says -----

  /** The seconds of a list of clock reads. */
  function Seconds(times: seq<int>): seq<int> {
    if times == [] then [] else Seconds(times[..|times| - 1]) + [UptimeSec(times[|times| - 1])]
  }

  lemma {:induction false} SecondsConcat(a: seq<int>, b: seq<int>)
    ensures Seconds(a + b) == Seconds(a) + Seconds(b)
  {
    if b == [] {
      assert a + b == a;
    } else {
      assert (a + b)[..|a + b| - 1] == a + b[..|b| - 1];
      SecondsConcat(a, b[..|b| - 1]);
    }
  }

  /** The trace takes store s to t, and tries to save an uptime with every snapshot, its own second, and at no other time. */
  predicate Records(s: Store, t: Store, fx: Trace) {
    t == Replay(s, fx) && Tried(fx, LastUptimeSec) == Seconds(Times(fx, Healths))
  }

  lemma RecordsThen(s: Store, t: Store, u: Store, a: Trace, b: Trace)
    requires Records(s, t, a) && Records(t, u, b)
    ensures Records(s, u, a + b)
  {
    ReplayConcat(s, a, b);
    TriedConcat(a, b, LastUptimeSec);
    TimesConcat(a, b, Healths);
    SecondsConcat(Times(a, Healths), Times(b, Healths));
  }

  lemma {:induction false} QuietRecords(s: Store, fx: Trace, kinds: set<Kind>)
    requires Within(fx, kinds) && Saves !in kinds && Healths !in kinds
    ensures Records(s, s, fx)
  {
    TimesNone(fx, kinds, Healths);
    if fx != [] {
      QuietRecords(s, fx[..|fx| - 1], kinds);
      TimesNone(fx[..|fx| - 1], kinds, Healths);
    }
  }

  lemma SaveRecords(s: Store, k: Key, v: Word, saves: set<Key>)
    requires k != LastUptimeSec
    ensures Records(s, SaveTo(s, k, v, saves), [Save(k, v, k in saves)])
  {
    assert [Save(k, v, k in saves)][..0] == [];
  }

  lemma BumpRecords(cfg: Config, m: Mem, k: Option<Key>, saves: set<Key>)
    requires k != Some(LastUptimeSec)
    ensures Records(m.flash, BumpMem(cfg, m, k, saves).flash, BumpMemFx(cfg, m, k, saves))
  {
    if cfg.diag && k.Some? {
      SaveRecords(m.flash, k.value, Plus(m.ram.Get(k.value), 1), saves);
    }
  }

  lemma SnapshotRecords(m: Mem, role: Role, ms: int, saves: set<Key>)
    ensures Records(m.flash, SnapshotTo(m, role, ms, saves).flash, SnapshotFx(role, ms, saves))
  {
    var uptime := Save(LastUptimeSec, UptimeSec(ms), LastUptimeSec in saves);
    var last := Save(LastThreadRole, RoleCode(role), LastThreadRole in saves);
    assert SnapshotFx(role, ms, saves) == [uptime] + [last] + [Health(ms)];
    ThreeEffects(m.flash, uptime, last, Health(ms));
  }

  lemma ThreeEffects(s: Store, uptime: Effect, last: Effect, health: Effect)
    requires uptime.Save? && uptime.key == LastUptimeSec && last.Save? && last.key != LastUptimeSec
    requires health.Health? && uptime.value == UptimeSec(health.ms)
    ensures var t := SaveTo(s, uptime.key, uptime.value, if uptime.ok then {uptime.key} else {});
            var u := SaveTo(t, last.key, last.value, if last.ok then {last.key} else {});
            Records(s, u, [uptime] + [last] + [health])
  {
    ReplayConcat(s, [uptime], [last]);
    ReplayConcat(s, [uptime] + [last], [health]);
    TriedConcat([uptime], [last], LastUptimeSec);
    TriedConcat([uptime] + [last], [health], LastUptimeSec);
    TimesConcat([uptime], [last], Healths);
    TimesConcat([uptime] + [last], [health], Healths);
    OneEffect(s, uptime);
    OneEffect(Replay(s, [uptime]), last);
    OneEffect(Replay(s, [uptime] + [last]), health);
    assert [health.ms][..0] == [];
  }

  lemma OneEffect(s: Store, e: Effect)
    ensures Replay(s, [e]) == if e.Save? && e.ok then s[e.key := e.value] else s
    ensures Tried([e], LastUptimeSec) == if e.Save? && e.key == LastUptimeSec then [e.value] else []
    ensures Times([e], Healths) == if e.Health? then [e.ms] else []
  {
    assert [e][..0] == [];
    TimesSingle(e, Healths);
  }

  lemma SnappedRecords(cfg: Config, d: Device, ms: int, saves: set<Key>)
    ensures Records(d.mem.flash, Snapped(cfg, d, ms, saves).d.mem.flash, Snapped(cfg, d, ms, saves).fx)
  {
    if HealthDue(cfg, d.lastHealthMs, ms) {
      SnapshotRecords(d.mem, d.thread.lastRole, ms, saves);
    }
  }

  lemma PolicyRecords(cfg: Config, d: Device, p: PolicyInput)
    ensures Records(d.mem.flash, Policy(cfg, d, p).d.mem.flash, Policy(cfg, d, p).fx)
  {
    var a := Linked(cfg, d, ALL, p.thread, p.saves);
    var b := Held(cfg, a.d, TickOf(p));
    var c := RebootOrSnap(cfg, b.d, p);
    BumpRecords(cfg, d.mem, EdgeKey(EdgeOf(d.thread, ALL, p.thread)), p.saves);
    TickedKinds(cfg, a.d, p);
    QuietRecords(a.d.mem.flash, b.fx, {RadioWrites, Kicks});
    RecordsThen(d.mem.flash, a.d.mem.flash, b.d.mem.flash, a.fx, b.fx);
    if RebootDue(cfg, b.d.thread, p) {
      QuietRecords(b.d.mem.flash, c.fx, {Reboots});
    } else {
      SnappedRecords(cfg, b.d, p.healthMs, p.saves);
    }
    RecordsThen(d.mem.flash, b.d.mem.flash, c.d.mem.flash, a.fx + b.fx, c.fx);
  }

  lemma AmongRecords(s: Store, t: Store, climate: Effect, fx: Trace, battery: Effect)
    requires climate.Climate? && battery.Battery? && Records(s, t, fx)
    ensures Records(s, t, [climate] + fx + [battery])
  {
    QuietRecords(s, [climate], {Climates});
    RecordsThen(s, s, t, [climate], fx);
    QuietRecords(t, [battery], {Batteries});
    RecordsThen(s, t, t, [climate] + fx, [battery]);
  }

  lemma ShownRecords(cfg: Config, d: Device, s: SampleInput)
    ensures Records(d.mem.flash, Shown(cfg, d, s).d.mem.flash, Shown(cfg, d, s).fx)
  {
    hide Measured, Millivolts, HalfPercent;
    var v, key := Measured(d.sense, s.battery), AdcKey(d.sense, s.battery);
    BumpRecords(cfg, d.mem, key, s.saves);
    AmongRecords(d.mem.flash, BumpMem(cfg, d.mem, key, s.saves).flash, Climate(d.temperature, d.humidity),
                 BumpMemFx(cfg, d.mem, key, s.saves), Battery(Millivolts(v), HalfPercent(v)));
  }

  lemma SampledRecords(cfg: Config, d: Device, s: SampleInput, force: bool)
    ensures Records(d.mem.flash, Sampled(cfg, d, s, force).d.mem.flash, Sampled(cfg, d, s, force).fx)
  {
    hide Measured, Millivolts, HalfPercent;
    var a := Sensed(cfg, d, s, force);
    BumpRecords(cfg, d.mem, ReadKey(d.gate, d.shtReady, s, force), s.saves);
    if Publishes(d.gate, d.shtReady, s, force) {
      var b := Shown(cfg, a.d, s);
      var c := Snapped(cfg, b.d, s.healthMs, s.saves);
      ShownRecords(cfg, a.d, s);
      SnappedRecords(cfg, b.d, s.healthMs, s.saves);
      RecordsThen(a.d.mem.flash, b.d.mem.flash, c.d.mem.flash, b.fx, c.fx);
      RecordsThen(d.mem.flash, a.d.mem.flash, c.d.mem.flash, a.fx, b.fx + c.fx);
    }
  }

  lemma NextRecords(cfg: Config, d: Device, st: Step)
    ensures Records(d.mem.flash, Next(cfg, d, st).d.mem.flash, Next(cfg, d, st).fx)
  {
    hide Sampled, Policy;
    if !d.halted {
      match st
      case PolicyStep(p) => PolicyRecords(cfg, d, p);
      case SampleStep(s) =>
        var a := Sampled(cfg, d, s, false);
        SampledRecords(cfg, d, s, false);
        QuietRecords(a.d.mem.flash, RoundFeed(cfg, d, s), {Feeds});
        RecordsThen(d.mem.flash, a.d.mem.flash, a.d.mem.flash, a.fx, RoundFeed(cfg, d, s));
      case LoopStep(ms) => QuietRecords(d.mem.flash, FeedFx(cfg, d.wdtChannel, ms), {Feeds});
    }
  }

  lemma {:induction false} RunRecords(cfg: Config, d: Device, steps: seq<Step>)
    ensures Records(d.mem.flash, Run(cfg, d, steps).d.mem.flash, Run(cfg, d, steps).fx)
  {
    if steps != [] {
      var n := |steps| - 1;
      var o := Run(cfg, d, steps[..n]);
      RunRecords(cfg, d, steps[..n]);
      NextRecords(cfg, o.d, steps[n]);
      RecordsThen(d.mem.flash, o.d.mem.flash, Next(cfg, o.d, steps[n]).d.mem.flash, o.fx, Next(cfg, o.d, steps[n]).fx);
    }
  }

  lemma CountedRecords(m: Mem, reas: Reasons, saves: set<Key>)
    ensures Records(m.flash, Counted(m, reas, saves).flash, CountedFx(m, reas, saves))
  {
    var counted := Bump(m, BootCount, saves);
    var noted := NoteReset(counted, reas, saves);
    SaveRecords(m.flash, BootCount, Plus(m.ram.boot, 1), saves);
    SaveRecords(counted.flash, LastResetReas, Code(reas), saves);
    RecordsThen(m.flash, counted.flash, noted.flash, BumpFx(m, BootCount, saves), NoteResetFx(reas, saves));
    if Dog in reas {
      SaveRecords(noted.flash, WdtResetCount, Plus(noted.ram.wdt, 1), saves);
      RecordsThen(m.flash, noted.flash, Bump(noted, WdtResetCount, saves).flash,
                  BumpFx(m, BootCount, saves) + NoteResetFx(reas, saves), BumpFx(noted, WdtResetCount, saves));
    } else {
      var fx := BumpFx(m, BootCount, saves) + NoteResetFx(reas, saves);
      assert fx + [] == fx;
    }
  }

  lemma BeginRecords(cfg: Config, d: Device, start: Option<StartInput>)
    ensures Records(d.mem.flash, Begin(cfg, d, start).d.mem.flash, Begin(cfg, d, start).fx)
  {
    if start.Some? {
      var s := start.value;
      var e, fx := Initialised(cfg, d, s), BootFx(cfg, d.mem, d.resetReas, s);
      if cfg.diag {
        CountedRecords(LoadedMem(d, s), d.resetReas, s.saves);
      }
      assert Records(d.mem.flash, e.mem.flash, fx);
      if s.earlyOk && s.lateOk {
        var o := Sampled(cfg, e, s.sample, true);
        SampledRecords(cfg, e, s.sample, true);
        RecordsThen(d.mem.flash, e.mem.flash, o.d.mem.flash, fx, o.fx);
      }
    }
  }

  /**
   * At any moment of a boot flash is what the reset left of it, with the successful saves so far played over it; so
   * every key holds the last value saved in this boot, or what it held before.
   */
  lemma FlashIsWhatWasSaved(cfg: Config, d: Device, b: BootRun, k: Key)
    ensures var o, before := Boot(cfg, d, b), PowerUp(d, b).mem.flash;
            && Records(before, o.d.mem.flash, o.fx)
            && Stored(o.d.mem.flash, k) == Latest(Stored(before, k), Written(o.fx, k))
  {
    var l := Launch(cfg, d, b);
    var r := Run(cfg, l.d, b.steps);
    BeginRecords(cfg, PowerUp(d, b), b.start);
    RunRecords(cfg, l.d, b.steps);
    RecordsThen(PowerUp(d, b).mem.flash, l.d.mem.flash, r.d.mem.flash, l.fx, r.fx);
    ReplayTakesLast(PowerUp(d, b).mem.flash, l.fx + r.fx, k);
  }

  // ----- The persisted uptime -----

  /** Playing the trace over the store, the value of k never falls from one effect to the next. */
  predicate NeverFalls(s: Store, fx: Trace, k: Key) {
    fx == []
    || (var front := fx[..|fx| - 1];
        NeverFalls(s, front, k) && Stored(Replay(s, front), k) <= Stored(Replay(s, fx), k))
  }

  lemma {:induction false} FallsAsWritten(s: Store, fx: Trace, k: Key)
    ensures NeverFalls(s, fx, k) <==> SpacedBy(Stored(s, k), Written(fx, k), 0)
  {
    if fx != [] {
      var front := fx[..|fx| - 1];
      FallsAsWritten(s, front, k);
      ReplayTakesLast(s, front, k);
      ReplayTakesLast(s, fx, k);
      if Written(fx, k) != Written(front, k) {
        assert Written(fx, k)[..|Written(fx, k)| - 1] == Written(front, k);
      }
    }
  }

  lemma RisingAppend(values: seq<int>, v: int)
    requires Rising(values) && (values != [] ==> Latest(0, values) <= v)
    ensures Rising(values + [v])
  {
    assert (values + [v])[..|values|] == values;
  }

  lemma RisingFront(values: seq<int>, v: int)
    requires Rising(values + [v])
    ensures Rising(values) && (values != [] ==> Latest(0, values) <= v)
  {
    assert (values + [v])[..|values|] == values;
  }

  /** What was written is behind what was tried. */
  predicate Behind(written: seq<int>, tried: seq<int>) {
    Rising(written) && (written != [] ==> tried != [] && Latest(0, written) <= Latest(0, tried))
  }

  lemma StaysBehind(written: seq<int>, tried: seq<int>, v: int)
    requires Rising(tried + [v]) && Behind(written, tried)
    ensures Behind(written, tried + [v]) && Behind(written + [v], tried + [v])
  {
    RisingFront(tried, v);
    RisingAppend(written, v);
  }

  /** What is written is part of what is tried, so it rises with it. */
  lemma {:induction false} WrittenRises(fx: Trace, k: Key)
    requires Rising(Tried(fx, k))
    ensures Behind(Written(fx, k), Tried(fx, k))
  {
    if fx != [] {
      var front, e := fx[..|fx| - 1], fx[|fx| - 1];
      var tried, written := Tried(front, k), Written(front, k);
      if e.Save? && e.key == k {
        RisingFront(tried, e.value);
        WrittenRises(front, k);
        StaysBehind(written, tried, e.value);
      } else {
        WrittenRises(front, k);
      }
    }
  }

  /** Seconds that do not wrap keep the order of the clock. */
  lemma SecondsOrder(a: int, b: int)
    requires 0 <= a <= b < 0x1_0000_0000 * 1000
    ensures UptimeSec(a) <= UptimeSec(b)
  {
    assert 0 <= a / 1000 <= b / 1000 < 0x1_0000_0000;
  }

  /** The seconds of paced snapshots rise, as long as they do not wrap. */
  lemma {:induction false} SecondsRise(times: seq<int>, gap: int, last: int)
    requires Paced(times, gap) && gap >= 0 && Latest(0, times) <= last < 0x1_0000_0000 * 1000
    ensures Rising(Seconds(times)) && |Seconds(times)| == |times|
    ensures times != [] ==> Latest(0, Seconds(times)) == UptimeSec(Latest(0, times))
  {
    if times != [] {
      var n := |times| - 1;
      AllPositive(times, gap);
      AllPositive(times[..n], gap);
      SecondsRise(times[..n], gap, last);
      if n > 0 {
        SecondsOrder(Latest(0, times[..n]), times[n]);
      }
      RisingAppend(Seconds(times[..n]), UptimeSec(times[n]));
    }
  }

  // ----- The first uptime a boot saves -----

  lemma {:induction false} WrittenConcat(a: Trace, b: Trace, k: Key)
    ensures Written(a + b, k) == Written(a, k) + Written(b, k)
  {
    if b == [] {
      assert a + b == a;
    } else {
      var n := |b| - 1;
      assert (a + b)[..|a + b| - 1] == a + b[..n];
      assert (a + b)[|a + b| - 1] == b[n];
      WrittenConcat(a, b[..n], k);
    }
  }

  lemma {:induction false} NotWritten(fx: Trace, keys: set<Key>, k: Key)
    requires SavesOnly(fx, keys) && k !in keys
    ensures Written(fx, k) == []
  {
    if fx != [] {
      NotWritten(fx[..|fx| - 1], keys, k);
    }
  }

  function ListOf(v: Option<int>): seq<int> {
    if v.Some? then [v.value] else []
  }

  /** The uptime a snapshot at `ms` saves, if it is due and its save succeeds. */
  function SavedUptime(cfg: Config, lastMs: int, ms: int, saves: set<Key>): Option<int> {
    if HealthDue(cfg, lastMs, ms) && LastUptimeSec in saves then Some(UptimeSec(ms)) else None
  }

  /** The uptime a step saves: a tick that does not reboot and a round that publishes may. */
  function Shot(cfg: Config, d: Device, st: Step): Option<int> {
    match st
    case PolicyStep(p) =>
      if RebootDue(cfg, Handle(d.thread, ALL, p.thread), p) then None
      else SavedUptime(cfg, d.lastHealthMs, p.healthMs, p.saves)
    case SampleStep(s) =>
      if Publishes(d.gate, d.shtReady, s, false) then SavedUptime(cfg, d.lastHealthMs, s.healthMs, s.saves) else None
    case LoopStep(_) => None
  }

  /** The first uptime the steps of a run save. */
  function FirstShot(cfg: Config, d: Device, steps: seq<Step>): Option<int> {
    if steps == [] then None
    else
      var front := steps[..|steps| - 1];
      if FirstShot(cfg, d, front).Some? then FirstShot(cfg, d, front)
      else if Run(cfg, d, front).d.halted then None
      else Shot(cfg, Run(cfg, d, front).d, steps[|steps| - 1])
  }

  /** Start-up's own, if it comes through and publishes. */
  function StartShot(cfg: Config, s: StartInput): Option<int> {
    if s.earlyOk && s.lateOk && Works(s.shtReady, s.sample) then SavedUptime(cfg, 0, s.sample.healthMs, s.sample.saves)
    else None
  }

  /** The first uptime a boot saves: start-up's, otherwise that of its first step that saves one. */
  function BootShot(cfg: Config, d: Device, b: BootRun): Option<int> {
    if b.start.Some? && StartShot(cfg, b.start.value).Some? then StartShot(cfg, b.start.value)
    else FirstShot(cfg, Launch(cfg, d, b).d, b.steps)
  }

  lemma SnappedWritten(cfg: Config, d: Device, ms: int, saves: set<Key>)
    ensures Written(Snapped(cfg, d, ms, saves).fx, LastUptimeSec) == ListOf(SavedUptime(cfg, d.lastHealthMs, ms, saves))
  {
    if HealthDue(cfg, d.lastHealthMs, ms) {
      var uptime := Save(LastUptimeSec, UptimeSec(ms), LastUptimeSec in saves);
      var rest := [Save(LastThreadRole, RoleCode(d.thread.lastRole), LastThreadRole in saves), Health(ms)];
      assert SnapshotFx(d.thread.lastRole, ms, saves) == [uptime] + rest;
      UptimeFirst(uptime, rest);
    }
  }

  lemma UptimeFirst(uptime: Effect, rest: Trace)
    requires uptime.Save? && uptime.key == LastUptimeSec && SavesOnly(rest, {LastThreadRole})
    ensures Written([uptime] + rest, LastUptimeSec) == if uptime.ok then [uptime.value] else []
  {
    WrittenConcat([uptime], rest, LastUptimeSec);
    NotWritten(rest, {LastThreadRole}, LastUptimeSec);
    assert [uptime][..0] == [];
  }

  lemma SampledWritten(cfg: Config, d: Device, s: SampleInput, force: bool)
    ensures Written(Sampled(cfg, d, s, force).fx, LastUptimeSec)
            == if Publishes(d.gate, d.shtReady, s, force) then ListOf(SavedUptime(cfg, d.lastHealthMs, s.healthMs, s.saves)) else []
  {
    var keys := {SensorFailureCount, AdcFailureCount};
    var a := Sensed(cfg, d, s, force);
    assert SavesOnly(a.fx, keys);
    NotWritten(a.fx, keys, LastUptimeSec);
    if Publishes(d.gate, d.shtReady, s, force) {
      var b := Shown(cfg, a.d, s);
      var c := Snapped(cfg, b.d, s.healthMs, s.saves);
      ShownKeys(cfg, a.d, s);
      NotWritten(b.fx, keys, LastUptimeSec);
      SnappedWritten(cfg, b.d, s.healthMs, s.saves);
      LastPart(a.fx, b.fx, c.fx, LastUptimeSec);
    }
  }

  lemma LastPart(a: Trace, b: Trace, c: Trace, k: Key)
    requires Written(a, k) == [] && Written(b, k) == []
    ensures Written(a + (b + c), k) == Written(c, k)
  {
    WrittenConcat(b, c, k);
    WrittenConcat(a, b + c, k);
  }

  lemma ShownKeys(cfg: Config, d: Device, s: SampleInput)
    ensures SavesOnly(Shown(cfg, d, s).fx, {SensorFailureCount, AdcFailureCount})
  {
  }

  lemma PolicyWritten(cfg: Config, d: Device, p: PolicyInput)
    requires !d.halted
    ensures Written(Policy(cfg, d, p).fx, LastUptimeSec) == ListOf(Shot(cfg, d, PolicyStep(p)))
  {
    var a := Ticked(cfg, d, p);
    var c := RebootOrSnap(cfg, a.d, p);
    TickedKeys(cfg, d, p);
    NotWritten(a.fx, {ThreadDetachCount, ThreadReattachCount}, LastUptimeSec);
    WrittenConcat(a.fx, c.fx, LastUptimeSec);
    if RebootDue(cfg, a.d.thread, p) {
      NotWritten(c.fx, {}, LastUptimeSec);
    } else {
      SnappedWritten(cfg, a.d, p.healthMs, p.saves);
    }
  }

  lemma TickedKeys(cfg: Config, d: Device, p: PolicyInput)
    ensures SavesOnly(Ticked(cfg, d, p).fx, {ThreadDetachCount, ThreadReattachCount})
    ensures Ticked(cfg, d, p).d.lastHealthMs == d.lastHealthMs
    ensures Ticked(cfg, d, p).d.thread == Handle(d.thread, ALL, p.thread)
  {
  }

  lemma NextWritten(cfg: Config, d: Device, st: Step)
    requires !d.halted
    ensures Written(Next(cfg, d, st).fx, LastUptimeSec) == ListOf(Shot(cfg, d, st))
  {
    hide Sampled, Policy;
    match st
    case PolicyStep(p) => PolicyWritten(cfg, d, p);
    case SampleStep(s) =>
      var feed := RoundFeed(cfg, d, s);
      SampledWritten(cfg, d, s, false);
      WrittenConcat(Sampled(cfg, d, s, false).fx, feed, LastUptimeSec);
      NotWritten(feed, {}, LastUptimeSec);
    case LoopStep(ms) => NotWritten(FeedFx(cfg, d.wdtChannel, ms), {}, LastUptimeSec);
  }

  /** What is written starts with v, if there is any. */
  predicate StartsWith(written: seq<int>, v: Option<int>) {
    if v.None? then written == [] else written != [] && written[0] == v.value
  }

  lemma {:induction false} RunFirst(cfg: Config, d: Device, steps: seq<Step>)
    ensures StartsWith(Written(Run(cfg, d, steps).fx, LastUptimeSec), FirstShot(cfg, d, steps))
  {
    if steps != [] {
      var n := |steps| - 1;
      var o := Run(cfg, d, steps[..n]);
      RunFirst(cfg, d, steps[..n]);
      WrittenConcat(o.fx, Next(cfg, o.d, steps[n]).fx, LastUptimeSec);
      if !o.d.halted {
        NextWritten(cfg, o.d, steps[n]);
      }
    }
  }

  lemma StartWritten(cfg: Config, d: Device, s: StartInput)
    requires d.lastHealthMs == 0
    ensures Written(Start(cfg, d, s).fx, LastUptimeSec) == ListOf(StartShot(cfg, s))
  {
    var e, fx := Initialised(cfg, d, s), BootFx(cfg, d.mem, d.resetReas, s);
    assert SavesOnly(fx, {BootCount, LastResetReas, WdtResetCount});
    NotWritten(fx, {BootCount, LastResetReas, WdtResetCount}, LastUptimeSec);
    if s.earlyOk && s.lateOk {
      SampledWritten(cfg, e, s.sample, true);
      WrittenConcat(fx, Sampled(cfg, e, s.sample, true).fx, LastUptimeSec);
    }
  }

  lemma BootFirst(cfg: Config, d: Device, b: BootRun)
    ensures StartsWith(Written(Boot(cfg, d, b).fx, LastUptimeSec), BootShot(cfg, d, b))
  {
    var l := Launch(cfg, d, b);
    if b.start.Some? {
      StartWritten(cfg, PowerUp(d, b), b.start.value);
    }
    RunFirst(cfg, l.d, b.steps);
    WrittenConcat(l.fx, Run(cfg, l.d, b.steps).fx, LastUptimeSec);
  }

  /**
   * The uptimes a boot saves rise, whichever saves fail and whatever flash held before: flash shows the value found at
   * reset until the first of them, then the latest. So the persisted uptime never falls in the boot iff the value
   * found at reset is at most the second of the first due snapshot whose save succeeds.
   */
  lemma PersistedUptimeNeverFalls(cfg: Config, d: Device, b: BootRun)
    requires cfg.snapshotMs >= 0 && TimelyBoot(b) && Uptime(b) < 0x1_0000_0000 * 1000
    ensures var o := Boot(cfg, d, b);
            var flash, saved := PowerUp(d, b).mem.flash, Written(o.fx, LastUptimeSec);
            && Rising(saved)
            && Stored(o.d.mem.flash, LastUptimeSec) == Latest(Stored(flash, LastUptimeSec), saved)
            && StartsWith(saved, BootShot(cfg, d, b))
            && (NeverFalls(flash, o.fx, LastUptimeSec)
                <==> BootShot(cfg, d, b).None? || Stored(flash, LastUptimeSec) <= BootShot(cfg, d, b).value)
  {
    var o := Boot(cfg, d, b);
    FallsAsWritten(PowerUp(d, b).mem.flash, o.fx, LastUptimeSec);
    FlashIsWhatWasSaved(cfg, d, b, LastUptimeSec);
    BootIsPaced(cfg, d, b);
    BootFirst(cfg, d, b);
    SecondsRise(Times(o.fx, Healths), cfg.snapshotMs, Uptime(b));
    WrittenRises(o.fx, LastUptimeSec);
    RisingFrom(Stored(PowerUp(d, b).mem.flash, LastUptimeSec), Written(o.fx, LastUptimeSec));
  }

  /** A first policy tick one second after a reset, with nothing to report, that saves its snapshot. */
  const FIRST_TICK := PolicyInput(
    1000, Observation(false, Disabled, 1000, None), false, A.NoInstance, false, 1000, {LastUptimeSec, LastThreadRole})

  /** It does fall across a reset: 5000 seconds in flash, one second after the next boot's first snapshot. */
  lemma UptimeFallsAfterReset(cfg: Config, d: Device)
    requires cfg.diag && d.mem.flash == map[LastUptimeSec := 5000]
    ensures var b := BareBoot(Caused({Sreq}), [Record("last_uptime_sec", 4, 4, 5000)], {}, [PolicyStep(FIRST_TICK)]);
            && Faithful(d, b) && TimelyBoot(b) && !Boot(cfg, d, b).d.halted
            && Stored(d.mem.flash, LastUptimeSec) == 5000 && Stored(Boot(cfg, d, b).d.mem.flash, LastUptimeSec) == 1
  {
    var r := Record("last_uptime_sec", 4, 4, 5000);
    var b := BareBoot(Caused({Sreq}), [r], {}, [PolicyStep(FIRST_TICK)]);
    SingleListing(r, LastUptimeSec);
    BareStart(cfg, PowerUp(d, b), b.start.value);
    TimelyOne(1, PolicyStep(FIRST_TICK));
    RunOne(cfg, Launch(cfg, d, b).d, PolicyStep(FIRST_TICK));
    SnapAtFirstTick(cfg, Launch(cfg, d, b).d);
  }

  lemma RunOne(cfg: Config, d: Device, st: Step)
    ensures Run(cfg, d, [st]) == Next(cfg, d, st)
  {
    assert [st][..0] == [];
    assert [] + Next(cfg, d, st).fx == Next(cfg, d, st).fx;
  }

  lemma SnapAtFirstTick(cfg: Config, d: Device)
    requires cfg.diag && !d.halted && d.thread == UNLINKED && d.lastHealthMs == 0
    ensures !Policy(cfg, d, FIRST_TICK).d.halted
    ensures Stored(Policy(cfg, d, FIRST_TICK).d.mem.flash, LastUptimeSec) == 1
  {
  }
}
