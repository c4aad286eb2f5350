/** The persistent counters over whole lives of the device: conservation, loss and the watchdog count. */
module Persistence {
  import opened Base
  import opened Settings
  import opened Effects
  import opened ThreadLink
  import opened BatterySense
  import opened Diagnostics
  import opened Machine
  import opened Projection

  // ----- Every piece of the program accounts for its saves -----

  lemma BumpMemExplained(cfg: Config, m: Mem, j: Option<Key>, saves: set<Key>, k: Key)
    requires Counter(k) && (j.Some? ==> Counter(j.value))
    ensures Explains(m, BumpMem(cfg, m, j, saves), BumpMemFx(cfg, m, j, saves), k)
  {
    if cfg.diag && j.Some? {
      BumpExplained(m, j.value, saves, k);
    } else {
      ExplainsNothing(m, m, [], k);
    }
  }

  lemma SnappedExplained(cfg: Config, d: Device, ms: int, saves: set<Key>, k: Key)
    requires Counter(k)
    ensures Explains(d.mem, Snapped(cfg, d, ms, saves).d.mem, Snapped(cfg, d, ms, saves).fx, k)
  {
    if HealthDue(cfg, d.lastHealthMs, ms) {
      var role := d.thread.lastRole;
      var uptime := Save(LastUptimeSec, UptimeSec(ms), LastUptimeSec in saves);
      var last := Save(LastThreadRole, RoleCode(role), LastThreadRole in saves);
      TallySingle(uptime, k);
      TallySingle(last, k);
      TallySingle(Health(ms), k);
      TallyConcat([uptime], [last], k);
      TallyConcat([uptime] + [last], [Health(ms)], k);
      assert SnapshotFx(role, ms, saves) == [uptime] + [last] + [Health(ms)];
    }
    ExplainsNothing(d.mem, Snapped(cfg, d, ms, saves).d.mem, Snapped(cfg, d, ms, saves).fx, k);
  }

  /** A piece without saves leaves RAM counters and flash alone. */
  lemma QuietExplained(m: Mem, fx: Trace, kinds: set<Kind>, k: Key)
    requires Counter(k) && Within(fx, kinds) && Saves !in kinds
    ensures Explains(m, m, fx, k)
  {
    TallyNone(fx, kinds, k);
    ExplainsNothing(m, m, fx, k);
  }

  lemma PolicyExplained(cfg: Config, d: Device, p: PolicyInput, k: Key)
    requires Counter(k)
    ensures Explains(d.mem, Policy(cfg, d, p).d.mem, Policy(cfg, d, p).fx, k)
  {
    var a := Linked(cfg, d, ALL, p.thread, p.saves);
    var b := Held(cfg, a.d, TickOf(p));
    var c := RebootOrSnap(cfg, b.d, p);
    BumpMemExplained(cfg, d.mem, EdgeKey(EdgeOf(d.thread, ALL, p.thread)), p.saves, k);
    TickedKinds(cfg, a.d, p);
    QuietExplained(a.d.mem, b.fx, {RadioWrites, Kicks}, k);
    ExplainsThen(d.mem, a.d.mem, b.d.mem, a.fx, b.fx, k);
    if RebootDue(cfg, b.d.thread, p) {
      QuietExplained(b.d.mem, c.fx, {Reboots}, k);
    } else {
      SnappedExplained(cfg, b.d, p.healthMs, p.saves, k);
    }
    ExplainsThen(d.mem, b.d.mem, c.d.mem, a.fx + b.fx, c.fx, k);
  }

  lemma ShownExplained(cfg: Config, d: Device, s: SampleInput, k: Key)
    requires Counter(k)
    ensures Explains(d.mem, Shown(cfg, d, s).d.mem, Shown(cfg, d, s).fx, k)
  {
    hide Measured, Millivolts, HalfPercent;
    var v, key := Measured(d.sense, s.battery), AdcKey(d.sense, s.battery);
    var climate, bump := [Climate(d.temperature, d.humidity)], BumpMemFx(cfg, d.mem, key, s.saves);
    var after := BumpMem(cfg, d.mem, key, s.saves);
    QuietExplained(d.mem, climate, {Climates}, k);
    BumpMemExplained(cfg, d.mem, key, s.saves, k);
    ExplainsThen(d.mem, d.mem, after, climate, bump, k);
    QuietExplained(after, [Battery(Millivolts(v), HalfPercent(v))], {Batteries}, k);
    ExplainsThen(d.mem, after, after, climate + bump, [Battery(Millivolts(v), HalfPercent(v))], k);
  }

  lemma SampledExplained(cfg: Config, d: Device, s: SampleInput, force: bool, k: Key)
    requires Counter(k)
    ensures Explains(d.mem, Sampled(cfg, d, s, force).d.mem, Sampled(cfg, d, s, force).fx, k)
  {
    hide Measured, Millivolts, HalfPercent;
    var a := Sensed(cfg, d, s, force);
    BumpMemExplained(cfg, d.mem, ReadKey(d.gate, d.shtReady, s, force), s.saves, k);
    if Publishes(d.gate, d.shtReady, s, force) {
      var b := Shown(cfg, a.d, s);
      var c := Snapped(cfg, b.d, s.healthMs, s.saves);
      ShownExplained(cfg, a.d, s, k);
      SnappedExplained(cfg, b.d, s.healthMs, s.saves, k);
      ExplainsThen(a.d.mem, b.d.mem, c.d.mem, b.fx, c.fx, k);
      ExplainsThen(d.mem, a.d.mem, c.d.mem, a.fx, b.fx + c.fx, k);
    }
  }

  lemma NextExplained(cfg: Config, d: Device, st: Step, k: Key)
    requires Counter(k)
    ensures Explains(d.mem, Next(cfg, d, st).d.mem, Next(cfg, d, st).fx, k)
  {
    hide Sampled, Policy;
    if d.halted {
      ExplainsNothing(d.mem, d.mem, [], k);
    } else {
      match st
      case PolicyStep(p) => PolicyExplained(cfg, d, p, k);
      case SampleStep(s) =>
        var a := Sampled(cfg, d, s, false);
        var feed := RoundFeed(cfg, d, s);
        SampledExplained(cfg, d, s, false, k);
        QuietExplained(a.d.mem, feed, {Feeds}, k);
        ExplainsThen(d.mem, a.d.mem, a.d.mem, a.fx, feed, k);
      case LoopStep(ms) => QuietExplained(d.mem, FeedFx(cfg, d.wdtChannel, ms), {Feeds}, k);
    }
  }

  /** Over any callbacks: RAM counted every attempt, flash holds the value of the last attempt that succeeded. */
  lemma {:induction false} RunExplained(cfg: Config, d: Device, steps: seq<Step>, k: Key)
    requires Counter(k)
    ensures Explains(d.mem, Run(cfg, d, steps).d.mem, Run(cfg, d, steps).fx, k)
  {
    if steps == [] {
      ExplainsNothing(d.mem, d.mem, [], k);
    } else {
      var n := |steps| - 1;
      var o := Run(cfg, d, steps[..n]);
      RunExplained(cfg, d, steps[..n], k);
      NextExplained(cfg, o.d, steps[n], k);
      ExplainsThen(d.mem, o.d.mem, Next(cfg, o.d, steps[n]).d.mem, o.fx, Next(cfg, o.d, steps[n]).fx, k);
    }
  }

  // ----- One boot -----

  /** RAM right after DiagOnBoot has loaded it, before it counts anything. */
  function LoadedMem(d: Device, s: StartInput): Mem {
    Mem(Load(s.records), d.mem.flash)
  }

  lemma StartExplained(cfg: Config, d: Device, s: StartInput, k: Key)
    requires cfg.diag && Counter(k)
    ensures Explains(LoadedMem(d, s), Start(cfg, d, s).d.mem, Start(cfg, d, s).fx, k)
  {
    var e := Initialised(cfg, d, s);
    CountedExplained(LoadedMem(d, s), d.resetReas, s.saves, k);
    if s.earlyOk && s.lateOk {
      SampledExplained(cfg, e, s.sample, true, k);
      ExplainsThen(LoadedMem(d, s), e.mem, Sampled(cfg, e, s.sample, true).d.mem,
                   BootFx(cfg, d.mem, d.resetReas, s), Sampled(cfg, e, s.sample, true).fx, k);
    }
  }

  /** A boot on a trustworthy store: not wiped, and if it gets to load, the backend reports what flash holds. */
  ghost predicate Faithful(d: Device, b: BootRun) {
    !b.wiped && (b.start.Some? ==> Agrees(b.start.value.records, d.mem.flash))
  }

  lemma BootExplained(cfg: Config, d: Device, b: BootRun, k: Key)
    requires cfg.diag && Counter(k) && b.start.Some?
    ensures Explains(LoadedMem(PowerUp(d, b), b.start.value), Boot(cfg, d, b).d.mem, Boot(cfg, d, b).fx, k)
  {
    var up, s := PowerUp(d, b), b.start.value;
    var l := Start(cfg, up, s);
    var r := Run(cfg, l.d, b.steps);
    StartExplained(cfg, up, s, k);
    RunExplained(cfg, l.d, b.steps, k);
    ExplainsThen(LoadedMem(up, s), l.d.mem, r.d.mem, l.fx, r.fx, k);
  }

  /**
   * The books of one boot. RAM: what flash held, plus every event of this boot. Flash: the same, up to the
   * last event whose save succeeded. All modulo 2^32.
   */
  lemma BootBooks(cfg: Config, d: Device, b: BootRun, k: Key)
    requires cfg.diag && Counter(k) && Faithful(d, b) && b.start.Some?
    ensures var o := Boot(cfg, d, b);
            && o.d.mem.ram.Get(k) == Plus(Stored(d.mem.flash, k), Attempts(o.fx, k))
            && Stored(o.d.mem.flash, k) == Plus(Stored(d.mem.flash, k), Kept(o.fx, k))
  {
    LoadRestores(b.start.value.records, d.mem.flash, k);
    BootExplained(cfg, d, b, k);
    PlusNothing(Stored(d.mem.flash, k));
  }

  /** A boot that never reaches DiagOnBoot does nothing and saves nothing. */
  lemma DeadBoot(cfg: Config, d: Device, b: BootRun)
    requires b.start.None?
    ensures Boot(cfg, d, b) == Outcome(PowerUp(d, b).(halted := true), [])
  {
    HaltedRunsNothing(cfg, PowerUp(d, b).(halted := true), b.steps);
  }

  lemma {:induction false} HaltedRunsNothing(cfg: Config, d: Device, steps: seq<Step>)
    requires d.halted
    ensures Run(cfg, d, steps) == Outcome(d, [])
  {
    if steps != [] {
      HaltedRunsNothing(cfg, d, steps[..|steps| - 1]);
    }
  }

  /** The flash side of the books, for boots that never reach DiagOnBoot as well. */
  lemma BootFlash(cfg: Config, d: Device, b: BootRun, k: Key)
    requires cfg.diag && Counter(k) && Faithful(d, b)
    ensures var o := Boot(cfg, d, b);
            Stored(o.d.mem.flash, k) == Plus(Stored(d.mem.flash, k), Kept(o.fx, k))
  {
    if b.start.Some? {
      BootBooks(cfg, d, b, k);
    } else {
      DeadBoot(cfg, d, b);
      PlusNothing(Stored(d.mem.flash, k));
    }
  }

  /**
   * While nothing wraps, flash never runs ahead of RAM: it holds a value RAM had at some point of this boot,
   * and trails RAM by exactly the saves that have failed since the last success.
   */
  lemma FlashNeverAhead(cfg: Config, d: Device, b: BootRun, k: Key)
    requires cfg.diag && Counter(k) && Faithful(d, b) && b.start.Some?
    requires Stored(d.mem.flash, k) + Attempts(Boot(cfg, d, b).fx, k) < 0x1_0000_0000
    ensures var o, base := Boot(cfg, d, b), Stored(d.mem.flash, k);
            && base <= Stored(o.d.mem.flash, k) <= o.d.mem.ram.Get(k)
            && o.d.mem.ram.Get(k) - Stored(o.d.mem.flash, k) == Lag(o.fx, k)
            && exists i :: 0 <= i <= |o.fx| && Stored(o.d.mem.flash, k) == base + Attempts(o.fx[..i], k)
  {
    BootBooks(cfg, d, b, k);
    Unwrapped(Stored(d.mem.flash, k), Boot(cfg, d, b), k);
  }

  lemma Unwrapped(base: Word, o: Outcome, k: Key)
    requires base + Attempts(o.fx, k) < 0x1_0000_0000
    requires o.d.mem.ram.Get(k) == Plus(base, Attempts(o.fx, k))
    requires Stored(o.d.mem.flash, k) == Plus(base, Kept(o.fx, k))
    ensures base <= Stored(o.d.mem.flash, k) <= o.d.mem.ram.Get(k)
    ensures o.d.mem.ram.Get(k) - Stored(o.d.mem.flash, k) == Lag(o.fx, k)
    ensures exists i :: 0 <= i <= |o.fx| && Stored(o.d.mem.flash, k) == base + Attempts(o.fx[..i], k)
  {
    KeptIsReached(o.fx, k);
    PlusSmall(base, Attempts(o.fx, k));
    PlusSmall(base, Kept(o.fx, k));
  }

  lemma KeptIsReached(fx: Trace, k: Key)
    ensures Kept(fx, k) <= Attempts(fx, k)
    ensures exists i :: 0 <= i <= |fx| && Kept(fx, k) == Attempts(fx[..i], k)
  {
    TallyConcat([], fx, k);
    var i := AttemptsReach(fx, k, Kept(fx, k));
  }

  /** Attempts grow one by one, so every smaller count occurs at some point of the trace. */
  lemma {:induction false} AttemptsReach(fx: Trace, k: Key, n: nat) returns (i: nat)
    requires n <= Attempts(fx, k)
    ensures i <= |fx| && Attempts(fx[..i], k) == n
  {
    if n == Attempts(fx, k) {
      i := |fx|;
      assert fx[..i] == fx;
    } else {
      i := AttemptsReach(fx[..|fx| - 1], k, n);
      assert fx[..|fx| - 1][..i] == fx[..i];
    }
  }

  // ----- Many boots -----

  /** Every boot of a life is faithful to the flash it finds. */
  ghost predicate FaithfulLife(cfg: Config, d: Device, boots: seq<BootRun>) {
    boots == []
    || (var n := |boots| - 1;
        FaithfulLife(cfg, d, boots[..n]) && Faithful(Life(cfg, d, boots[..n]).d, boots[n]))
  }

  /** Events that reached flash: in each boot, all up to the last whose save succeeded. */
  function Recorded(cfg: Config, d: Device, boots: seq<BootRun>, k: Key): nat {
    if boots == [] then 0
    else
      var n := |boots| - 1;
      Recorded(cfg, d, boots[..n], k) + Kept(Boot(cfg, Life(cfg, d, boots[..n]).d, boots[n]).fx, k)
  }

  /** Conservation over any number of boots, whatever saves fail: flash is its start plus the events recorded. */
  lemma {:induction false} LifeBooks(cfg: Config, d: Device, boots: seq<BootRun>, k: Key)
    requires cfg.diag && Counter(k) && FaithfulLife(cfg, d, boots)
    ensures Stored(Life(cfg, d, boots).d.mem.flash, k) == Plus(Stored(d.mem.flash, k), Recorded(cfg, d, boots, k))
    ensures Recorded(cfg, d, boots, k) <= Attempts(Life(cfg, d, boots).fx, k)
    ensures AllSaved(Life(cfg, d, boots).fx, k) ==> Recorded(cfg, d, boots, k) == Attempts(Life(cfg, d, boots).fx, k)
  {
    if boots == [] {
      PlusNothing(Stored(d.mem.flash, k));
    } else {
      var n := |boots| - 1;
      var o := Life(cfg, d, boots[..n]);
      var b := Boot(cfg, o.d, boots[n]);
      LifeBooks(cfg, d, boots[..n], k);
      BootFlash(cfg, o.d, boots[n], k);
      AddTrace(o.fx, b.fx, k);
      PlusPlus(Stored(d.mem.flash, k), Recorded(cfg, d, boots[..n], k), Kept(b.fx, k), Recorded(cfg, d, boots, k));
    }
  }

  lemma AddTrace(a: Trace, b: Trace, k: Key)
    ensures Attempts(a + b, k) == Attempts(a, k) + Attempts(b, k)
    ensures Kept(b, k) <= Attempts(b, k)
    ensures AllSaved(a + b, k) ==> AllSaved(a, k) && AllSaved(b, k) && Kept(b, k) == Attempts(b, k)
  {
    TallyConcat(a, b, k);
    if AllSaved(a + b, k) {
      assert forall e | e in b :: e in a + b;
      SavedHasNoLag(b, k);
    }
  }
}
