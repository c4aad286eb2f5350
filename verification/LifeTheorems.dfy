/** Whole lives of the device: what the persistent counters mean, and how often it reboots itself. */
module LifeTheorems {
  import opened Base
  import opened Settings
  import opened Effects
  import opened ThreadLink
  import opened BatterySense
  import opened Diagnostics
  import opened Machine
  import opened Projection
  import opened PolicyTheorems
  import opened Persistence

  // ----- Which keys each piece saves -----

  /** The trace saves no other keys. */
  predicate SavesOnly(fx: Trace, keys: set<Key>) {
    forall i | 0 <= i < |fx| && fx[i].Save? :: fx[i].key in keys
  }

  lemma {:induction false} NotSaved(fx: Trace, keys: set<Key>, k: Key)
    requires SavesOnly(fx, keys) && k !in keys
    ensures Attempts(fx, k) == 0
  {
    if fx != [] {
      NotSaved(fx[..|fx| - 1], keys, k);
    }
  }

  lemma PolicyKeys(cfg: Config, d: Device, p: PolicyInput)
    ensures SavesOnly(Held(cfg, d, TickOf(p)).fx, {})
    ensures SavesOnly(RebootOrSnap(cfg, d, p).fx, {LastUptimeSec, LastThreadRole})
  {
  }

  lemma SampledKeys(cfg: Config, d: Device, s: SampleInput, force: bool)
    ensures SavesOnly(Sampled(cfg, d, s, force).fx, {SensorFailureCount, AdcFailureCount, LastUptimeSec, LastThreadRole})
  {
    hide Measured, Millivolts, HalfPercent;
    var keys := {SensorFailureCount, AdcFailureCount, LastUptimeSec, LastThreadRole};
    var a := Sensed(cfg, d, s, force);
    assert SavesOnly(a.fx, keys);
    if Publishes(d.gate, d.shtReady, s, force) {
      var b := Shown(cfg, a.d, s);
      assert SavesOnly(b.fx, keys);
      assert SavesOnly(Snapped(cfg, b.d, s.healthMs, s.saves).fx, keys);
    }
  }

  // ----- Detachments -----

  /** In diagnostic mode a tick tries to save a detachment, or a reattachment, exactly when its handler sees one. */
  lemma PolicyEdges(cfg: Config, d: Device, p: PolicyInput)
    requires cfg.diag
    ensures var e, fx := EdgeOf(d.thread, ALL, p.thread), Policy(cfg, d, p).fx;
            && Attempts(fx, ThreadDetachCount) == One(e == WentDetached)
            && Attempts(fx, ThreadReattachCount) == One(e == Reattached)
            && Attempts(fx, BootCount) == 0 && Attempts(fx, WdtResetCount) == 0
  {
    PolicyAttempts(cfg, d, p, ThreadDetachCount);
    PolicyAttempts(cfg, d, p, ThreadReattachCount);
    PolicyAttempts(cfg, d, p, BootCount);
    PolicyAttempts(cfg, d, p, WdtResetCount);
  }

  lemma PolicyAttempts(cfg: Config, d: Device, p: PolicyInput, k: Key)
    requires cfg.diag && Counter(k)
    ensures Attempts(Policy(cfg, d, p).fx, k) == One(EdgeKey(EdgeOf(d.thread, ALL, p.thread)) == Some(k))
  {
    var a := Linked(cfg, d, ALL, p.thread, p.saves);
    var b := Held(cfg, a.d, TickOf(p));
    var c := RebootOrSnap(cfg, b.d, p);
    TallyConcat(a.fx, b.fx, k);
    TallyConcat(a.fx + b.fx, c.fx, k);
    PolicyKeys(cfg, a.d, p);
    PolicyKeys(cfg, b.d, p);
    NotSaved(b.fx, {}, k);
    NotSaved(c.fx, {LastUptimeSec, LastThreadRole}, k);
    LinkedAttempts(cfg, d, p, k);
  }

  lemma LinkedAttempts(cfg: Config, d: Device, p: PolicyInput, k: Key)
    requires cfg.diag
    ensures Attempts(Linked(cfg, d, ALL, p.thread, p.saves).fx, k) == One(EdgeKey(EdgeOf(d.thread, ALL, p.thread)) == Some(k))
  {
    var key := EdgeKey(EdgeOf(d.thread, ALL, p.thread));
    if key.Some? {
      TallySingle(BumpFx(d.mem, key.value, p.saves)[0], k);
    }
  }

  /** Outside its policy ticks a running device saves no link, boot or watchdog counter. */
  lemma OtherAttempts(cfg: Config, d: Device, st: Step, k: Key)
    requires !st.PolicyStep? || d.halted
    requires k in {ThreadDetachCount, ThreadReattachCount, BootCount, WdtResetCount}
    ensures Attempts(Next(cfg, d, st).fx, k) == 0
  {
    if !d.halted {
      match st
      case SampleStep(s) =>
        var o := Sampled(cfg, d, s, false);
        var keys := {SensorFailureCount, AdcFailureCount, LastUptimeSec, LastThreadRole};
        SampledKeys(cfg, d, s, false);
        assert SavesOnly(Sample(cfg, d, s).fx, keys);
        NotSaved(Sample(cfg, d, s).fx, keys, k);
      case LoopStep(ms) => NotSaved(FeedFx(cfg, d.wdtChannel, ms), {}, k);
    }
  }

  /** Detachments minus reattachments counted equals the change of the detached flag, whatever callbacks run. */
  lemma {:induction false} RunBalance(cfg: Config, d: Device, steps: seq<Step>)
    requires cfg.diag
    ensures var o := Run(cfg, d, steps);
            && Attempts(o.fx, ThreadDetachCount) + One(d.thread.detached)
               == Attempts(o.fx, ThreadReattachCount) + One(o.d.thread.detached)
            && Attempts(o.fx, BootCount) == 0 && Attempts(o.fx, WdtResetCount) == 0
            && o.d.resetReas == d.resetReas
  {
    if steps != [] {
      var n := |steps| - 1;
      var o := Run(cfg, d, steps[..n]);
      RunBalance(cfg, d, steps[..n]);
      NextBalance(cfg, o.d, steps[n]);
      var fx := Next(cfg, o.d, steps[n]).fx;
      TallyConcat(o.fx, fx, ThreadDetachCount);
      TallyConcat(o.fx, fx, ThreadReattachCount);
      TallyConcat(o.fx, fx, BootCount);
      TallyConcat(o.fx, fx, WdtResetCount);
    }
  }

  lemma EdgeFlips(t: ThreadState, o: Observation)
    ensures var e := EdgeOf(t, ALL, o);
            One(e == WentDetached) + One(t.detached) == One(e == Reattached) + One(Handle(t, ALL, o).detached)
  {
  }

  lemma NextBalance(cfg: Config, d: Device, st: Step)
    requires cfg.diag
    ensures var n := Next(cfg, d, st);
            && Attempts(n.fx, ThreadDetachCount) + One(d.thread.detached)
               == Attempts(n.fx, ThreadReattachCount) + One(n.d.thread.detached)
            && Attempts(n.fx, BootCount) == 0 && Attempts(n.fx, WdtResetCount) == 0
            && n.d.resetReas == d.resetReas
  {
    if !d.halted {
      NextParts(cfg, d, st);
    }
    if st.PolicyStep? && !d.halted {
      PolicyEdges(cfg, d, st.p);
      EdgeFlips(d.thread, st.p.thread);
    } else {
      OtherAttempts(cfg, d, st, ThreadDetachCount);
      OtherAttempts(cfg, d, st, ThreadReattachCount);
      OtherAttempts(cfg, d, st, BootCount);
      OtherAttempts(cfg, d, st, WdtResetCount);
    }
  }

  /** Start-up counts one boot, and a watchdog reset iff the register says so; it touches no link counter. */
  lemma StartAttempts(cfg: Config, d: Device, s: StartInput)
    requires cfg.diag
    ensures var o := Start(cfg, d, s);
            && Attempts(o.fx, BootCount) == 1
            && Attempts(o.fx, WdtResetCount) == One(Dog in d.resetReas)
            && Attempts(o.fx, ThreadDetachCount) == 0 && Attempts(o.fx, ThreadReattachCount) == 0
            && o.d.resetReas == {} && o.d.thread == d.thread
  {
    StartTally(cfg, d, s, BootCount);
    StartTally(cfg, d, s, WdtResetCount);
    StartTally(cfg, d, s, ThreadDetachCount);
    StartTally(cfg, d, s, ThreadReattachCount);
  }

  lemma StartTally(cfg: Config, d: Device, s: StartInput, k: Key)
    requires cfg.diag && k in {ThreadDetachCount, ThreadReattachCount, BootCount, WdtResetCount}
    ensures Attempts(Start(cfg, d, s).fx, k) == One(k == BootCount) + One(k == WdtResetCount && Dog in d.resetReas)
    ensures Kept(Start(cfg, d, s).fx, k) == One(k in s.saves) * Attempts(Start(cfg, d, s).fx, k)
  {
    var keys := {SensorFailureCount, AdcFailureCount, LastUptimeSec, LastThreadRole};
    CountedTally(LoadedMem(d, s), d.resetReas, s.saves, k);
    if s.earlyOk && s.lateOk {
      var e := Initialised(cfg, d, s);
      SampledKeys(cfg, e, s.sample, true);
      OtherKeys(BootFx(cfg, d.mem, d.resetReas, s), Sampled(cfg, e, s.sample, true).fx, keys, k);
    }
  }

  /** What follows without saving k does not matter to k. */
  lemma OtherKeys(a: Trace, b: Trace, keys: set<Key>, k: Key)
    requires SavesOnly(b, keys) && k !in keys
    ensures Attempts(a + b, k) == Attempts(a, k) && Kept(a + b, k) == Kept(a, k)
  {
    TallyConcat(a, b, k);
    NotSaved(b, keys, k);
  }

  lemma CountedTally(m: Mem, reas: Reasons, saves: set<Key>, k: Key)
    requires Counter(k)
    ensures Attempts(CountedFx(m, reas, saves), k) == One(k == BootCount) + One(k == WdtResetCount && Dog in reas)
    ensures Kept(CountedFx(m, reas, saves), k) == One(k in saves) * Attempts(CountedFx(m, reas, saves), k)
  {
    var noted := NoteReset(Bump(m, BootCount, saves), reas, saves);
    var a, b := BumpFx(m, BootCount, saves), NoteResetFx(reas, saves);
    var c := if Dog in reas then BumpFx(noted, WdtResetCount, saves) else [];
    TallyConcat(a, b, k);
    TallyConcat(a + b, c, k);
    TallySingle(a[0], k);
    TallySingle(b[0], k);
    if Dog in reas {
      TallySingle(c[0], k);
    }
  }

  /** One boot: the counters' attempts, the register and the link at its end. */
  lemma BootAttempts(cfg: Config, d: Device, b: BootRun)
    requires cfg.diag
    ensures var o := Boot(cfg, d, b);
            && Attempts(o.fx, BootCount) == One(b.start.Some?)
            && Attempts(o.fx, WdtResetCount) == One(b.start.Some? && Dog in PowerUp(d, b).resetReas)
            && Attempts(o.fx, ThreadDetachCount) == Attempts(o.fx, ThreadReattachCount) + One(o.d.thread.detached)
            && o.d.resetReas == if b.start.Some? then {} else PowerUp(d, b).resetReas
  {
    if b.start.None? {
      DeadBoot(cfg, d, b);
    } else {
      var l := Start(cfg, PowerUp(d, b), b.start.value);
      var r := Run(cfg, l.d, b.steps);
      StartAttempts(cfg, PowerUp(d, b), b.start.value);
      RunBalance(cfg, l.d, b.steps);
      TallyConcat(l.fx, r.fx, BootCount);
      TallyConcat(l.fx, r.fx, WdtResetCount);
      TallyConcat(l.fx, r.fx, ThreadDetachCount);
      TallyConcat(l.fx, r.fx, ThreadReattachCount);
    }
  }

  /** How many of the boots ended while the node was detached; the last one stands for the present. */
  function EndedDetached(cfg: Config, d: Device, boots: seq<BootRun>): nat {
    if boots == [] then 0
    else
      var n := |boots| - 1;
      EndedDetached(cfg, d, boots[..n]) + One(Boot(cfg, Life(cfg, d, boots[..n]).d, boots[n]).d.thread.detached)
  }

  lemma {:induction false} LifeDetachments(cfg: Config, d: Device, boots: seq<BootRun>)
    requires cfg.diag
    ensures Attempts(Life(cfg, d, boots).fx, ThreadDetachCount)
            == Attempts(Life(cfg, d, boots).fx, ThreadReattachCount) + EndedDetached(cfg, d, boots)
  {
    if boots != [] {
      var n := |boots| - 1;
      var o := Life(cfg, d, boots[..n]);
      var b := Boot(cfg, o.d, boots[n]);
      LifeDetachments(cfg, d, boots[..n]);
      BootAttempts(cfg, o.d, boots[n]);
      TallyConcat(o.fx, b.fx, ThreadDetachCount);
      TallyConcat(o.fx, b.fx, ThreadReattachCount);
    }
  }

  /**
   * Conservation across any number of boots: with every save of the two counters succeeding and no wipe, persisted
   * detachments minus reattachments grow by exactly the boots that ended detached, the present one included.
   */
  lemma DetachConservation(cfg: Config, d: Device, boots: seq<BootRun>)
    requires cfg.diag && FaithfulLife(cfg, d, boots)
    requires AllSaved(Life(cfg, d, boots).fx, ThreadDetachCount) && AllSaved(Life(cfg, d, boots).fx, ThreadReattachCount)
    ensures var before, after := d.mem.flash, Life(cfg, d, boots).d.mem.flash;
            Minus(Stored(after, ThreadDetachCount), Stored(after, ThreadReattachCount))
            == Plus(Minus(Stored(before, ThreadDetachCount), Stored(before, ThreadReattachCount)), EndedDetached(cfg, d, boots))
  {
    LifeBooks(cfg, d, boots, ThreadDetachCount);
    LifeBooks(cfg, d, boots, ThreadReattachCount);
    LifeDetachments(cfg, d, boots);
    var o := Life(cfg, d, boots);
    MinusGrows(Stored(d.mem.flash, ThreadDetachCount), Stored(d.mem.flash, ThreadReattachCount),
               Stored(o.d.mem.flash, ThreadDetachCount), Stored(o.d.mem.flash, ThreadReattachCount),
               Recorded(cfg, d, boots, ThreadDetachCount), Recorded(cfg, d, boots, ThreadReattachCount),
               EndedDetached(cfg, d, boots));
  }

  // ----- Watchdog resets -----

  /** The resets the watchdog really caused. */
  function WatchdogResets(boots: seq<BootRun>): nat {
    if boots == [] then 0
    else
      var b := boots[|boots| - 1];
      WatchdogResets(boots[..|boots| - 1]) + One(b.reset.Caused? && Dog in b.reset.bits)
  }

  /** The boots that reached DiagOnBoot. */
  function Starts(boots: seq<BootRun>): nat {
    if boots == [] then 0 else Starts(boots[..|boots| - 1]) + One(boots[|boots| - 1].start.Some?)
  }

  /**
   * Each watchdog reset is counted at most once, and only in a boot that is counted too. None is missed when every
   * boot reaches DiagOnBoot.
   */
  lemma {:induction false} WatchdogCountedOnce(cfg: Config, d: Device, boots: seq<BootRun>)
    requires cfg.diag
    ensures var o := Life(cfg, d, boots);
            && Attempts(o.fx, WdtResetCount) + One(Dog in o.d.resetReas) <= One(Dog in d.resetReas) + WatchdogResets(boots)
            && Attempts(o.fx, WdtResetCount) <= Attempts(o.fx, BootCount) == Starts(boots)
            && (Starts(boots) == |boots| && Dog !in d.resetReas ==>
                  Attempts(o.fx, WdtResetCount) == WatchdogResets(boots) && Dog !in o.d.resetReas)
            && Starts(boots) <= |boots|
  {
    if boots != [] {
      var n := |boots| - 1;
      var o := Life(cfg, d, boots[..n]);
      var b := Boot(cfg, o.d, boots[n]);
      WatchdogCountedOnce(cfg, d, boots[..n]);
      BootAttempts(cfg, o.d, boots[n]);
      TallyConcat(o.fx, b.fx, WdtResetCount);
      TallyConcat(o.fx, b.fx, BootCount);
    }
  }

  /** From an empty store and short of wrapping, flash holds exactly the events recorded. */
  lemma EmptyBooks(cfg: Config, d: Device, boots: seq<BootRun>, k: Key, limit: Word)
    requires cfg.diag && Counter(k) && FaithfulLife(cfg, d, boots) && d.mem.flash == map[]
    requires Attempts(Life(cfg, d, boots).fx, k) <= limit
    ensures Stored(Life(cfg, d, boots).d.mem.flash, k) == Recorded(cfg, d, boots, k) <= limit
    ensures AllSaved(Life(cfg, d, boots).fx, k) ==> Recorded(cfg, d, boots, k) == Attempts(Life(cfg, d, boots).fx, k)
  {
    LifeBooks(cfg, d, boots, k);
    PlusSmall(0, Recorded(cfg, d, boots, k));
  }

  // ----- Which counts reach flash -----

  /** The reset reasons waiting to be read after these boots. */
  function Pending(reas: Reasons, boots: seq<BootRun>): Reasons {
    if boots == [] then reas
    else
      var b := boots[|boots| - 1];
      if b.start.Some? then {} else Register(Pending(reas, boots[..|boots| - 1]), b.reset)
  }

  /** A boot that finds reas in the register saves its new count of boots, or of watchdog resets. */
  predicate Logs(reas: Reasons, b: BootRun, k: Key) {
    b.start.Some? && k in b.start.value.saves && (k == WdtResetCount ==> Dog in Register(reas, b.reset))
  }

  /** How many boots do. */
  function Logged(reas: Reasons, boots: seq<BootRun>, k: Key): nat {
    if boots == [] then 0
    else
      var n := |boots| - 1;
      Logged(reas, boots[..n], k) + One(Logs(Pending(reas, boots[..n]), boots[n], k))
  }

  /**
   * A boot loses a watchdog reset nobody had read when power is lost or the watchdog strikes again, and one it reads
   * itself when its save fails.
   */
  function Loses(reas: Reasons, b: BootRun): nat {
    One(Dog in reas && (b.reset.PowerOn? || Dog in b.reset.bits))
    + One(b.start.Some? && Dog in Register(reas, b.reset) && WdtResetCount !in b.start.value.saves)
  }

  function Lost(reas: Reasons, boots: seq<BootRun>): nat {
    if boots == [] then 0
    else Lost(reas, boots[..|boots| - 1]) + Loses(Pending(reas, boots[..|boots| - 1]), boots[|boots| - 1])
  }

  /** Conservation of watchdog resets: each is logged, lost, or still waiting in the register. */
  lemma {:induction false} ResetsAreLoggedOrLost(reas: Reasons, boots: seq<BootRun>)
    ensures One(Dog in reas) + WatchdogResets(boots)
            == Logged(reas, boots, WdtResetCount) + Lost(reas, boots) + One(Dog in Pending(reas, boots))
  {
    if boots != [] {
      ResetsAreLoggedOrLost(reas, boots[..|boots| - 1]);
    }
  }

  lemma BootKept(cfg: Config, d: Device, b: BootRun, k: Key)
    requires cfg.diag && k in {BootCount, WdtResetCount}
    ensures Kept(Boot(cfg, d, b).fx, k) == One(Logs(d.resetReas, b, k))
  {
    if b.start.None? {
      DeadBoot(cfg, d, b);
    } else {
      var up := PowerUp(d, b);
      var l := Start(cfg, up, b.start.value);
      StartTally(cfg, up, b.start.value, k);
      RunBalance(cfg, l.d, b.steps);
      TallyConcat(l.fx, Run(cfg, l.d, b.steps).fx, k);
    }
  }

  /** The register and the counts in flash follow the boots alone, whatever else the device does. */
  lemma {:induction false} RecordedIsLogged(cfg: Config, d: Device, boots: seq<BootRun>, k: Key)
    requires cfg.diag && k in {BootCount, WdtResetCount}
    ensures Life(cfg, d, boots).d.resetReas == Pending(d.resetReas, boots)
    ensures Recorded(cfg, d, boots, k) == Logged(d.resetReas, boots, k)
  {
    if boots != [] {
      var n := |boots| - 1;
      var o := Life(cfg, d, boots[..n]);
      RecordedIsLogged(cfg, d, boots[..n], k);
      BootAttempts(cfg, o.d, boots[n]);
      BootKept(cfg, o.d, boots[n], k);
    }
  }

  /** From an empty store, flash shows exactly the counts logged. */
  lemma CountsAreLogged(cfg: Config, d: Device, boots: seq<BootRun>, k: Key)
    requires cfg.diag && FaithfulLife(cfg, d, boots) && d.mem.flash == map[]
    requires k in {BootCount, WdtResetCount} && Starts(boots) < 0x1_0000_0000
    ensures Stored(Life(cfg, d, boots).d.mem.flash, k) == Logged(d.resetReas, boots, k)
  {
    WatchdogCountedOnce(cfg, d, boots);
    EmptyBooks(cfg, d, boots, k, Starts(boots));
    RecordedIsLogged(cfg, d, boots, k);
  }

  /**
   * So flash never shows more watchdog resets than happened, and shows all of them iff none was lost and none still
   * waits; in particular if every boot starts and saves.
   */
  lemma PersistedWatchdogCount(cfg: Config, d: Device, boots: seq<BootRun>)
    requires cfg.diag && FaithfulLife(cfg, d, boots) && d.mem.flash == map[] && Dog !in d.resetReas
    requires WatchdogResets(boots) < 0x1_0000_0000
    ensures var shown := Stored(Life(cfg, d, boots).d.mem.flash, WdtResetCount);
            && shown <= WatchdogResets(boots)
            && (shown == WatchdogResets(boots) <==> Lost(d.resetReas, boots) == 0 && Dog !in Pending(d.resetReas, boots))
            && (Starts(boots) == |boots| && AllSaved(Life(cfg, d, boots).fx, WdtResetCount) ==> shown == WatchdogResets(boots))
  {
    WatchdogCountedOnce(cfg, d, boots);
    EmptyBooks(cfg, d, boots, WdtResetCount, WatchdogResets(boots));
    RecordedIsLogged(cfg, d, boots, WdtResetCount);
    ResetsAreLoggedOrLost(d.resetReas, boots);
  }

  /** Nor does flash ever show more watchdog resets than boots that happened, whatever saves fail. */
  lemma WatchdogBelowBoots(cfg: Config, d: Device, boots: seq<BootRun>)
    requires cfg.diag && FaithfulLife(cfg, d, boots) && d.mem.flash == map[] && Starts(boots) < 0x1_0000_0000
    ensures Stored(Life(cfg, d, boots).d.mem.flash, WdtResetCount) <= Starts(boots)
    ensures AllSaved(Life(cfg, d, boots).fx, BootCount) ==>
              Stored(Life(cfg, d, boots).d.mem.flash, BootCount) == Starts(boots)
  {
    WatchdogCountedOnce(cfg, d, boots);
    EmptyBooks(cfg, d, boots, WdtResetCount, Starts(boots));
    EmptyBooks(cfg, d, boots, BootCount, Starts(boots));
  }

  /** It may show more of them than boots it shows: exactly when more boots logged a watchdog reset than themselves. */
  lemma WatchdogCountAgainstBootCount(cfg: Config, d: Device, boots: seq<BootRun>)
    requires cfg.diag && FaithfulLife(cfg, d, boots) && d.mem.flash == map[] && Starts(boots) < 0x1_0000_0000
    ensures var flash := Life(cfg, d, boots).d.mem.flash;
            && Stored(flash, BootCount) == Logged(d.resetReas, boots, BootCount)
            && Stored(flash, WdtResetCount) == Logged(d.resetReas, boots, WdtResetCount)
            && (Stored(flash, WdtResetCount) <= Stored(flash, BootCount)
                <==> Logged(d.resetReas, boots, WdtResetCount) <= Logged(d.resetReas, boots, BootCount))
  {
    CountsAreLogged(cfg, d, boots, BootCount);
    CountsAreLogged(cfg, d, boots, WdtResetCount);
  }

  /** A first sample that finds no sensor. */
  const BLIND := SampleInput(false, 1, false, None, BatteryInput(false, false, false, false, [None, None, None, None]), 1, 1, {})

  /** A boot that starts without sensor or watchdog. */
  function BareBoot(reset: Reset, records: seq<Record>, saves: set<Key>, steps: seq<Step>): BootRun {
    BootRun(reset, false, 0, Some(StartInput(records, saves, true, false, WdtInput(false, 0, false), true, BLIND)), steps)
  }

  lemma BareStart(cfg: Config, d: Device, s: StartInput)
    requires cfg.diag && s.earlyOk && s.lateOk && !s.shtReady
    ensures var o := Start(cfg, d, s);
            && o.d.mem == Counted(LoadedMem(d, s), d.resetReas, s.saves)
            && o.d.thread == d.thread && o.d.lastHealthMs == d.lastHealthMs && o.d.halted == d.halted
  {
  }

  const DOG_ENTRY := Record("wdt_reset_count", 4, 4, 1)

  /** Two watchdog resets after which only the watchdog count can be saved. */
  function TwoStrikes(): seq<BootRun> {
    [BareBoot(Caused({Dog}), [], {WdtResetCount}, []), BareBoot(Caused({Dog}), [DOG_ENTRY], {WdtResetCount}, [])]
  }

  /** Then flash shows two watchdog resets and no boot. */
  lemma WatchdogCountPassesBootCount(cfg: Config, d: Device)
    requires cfg.diag && d.mem.flash == map[]
    ensures FaithfulLife(cfg, d, TwoStrikes())
    ensures var flash := Life(cfg, d, TwoStrikes()).d.mem.flash;
            Stored(flash, WdtResetCount) == 2 && Stored(flash, BootCount) == 0
  {
    var one, both := TwoStrikes()[..1], TwoStrikes();
    assert both[..1] == one && one == [both[0]] && one[..0] == [];
    var first := Boot(cfg, d, both[0]).d;
    BareStart(cfg, PowerUp(d, both[0]), both[0].start.value);
    assert first.mem.flash == map[WdtResetCount := 1];
    assert Life(cfg, d, []).d == d && Life(cfg, d, one).d == first;
    assert FaithfulLife(cfg, d, one) by {
      ListingAgrees([], d.mem.flash);
    }
    SingleListing(DOG_ENTRY, WdtResetCount);
    assert Starts(both) <= 2 by {
      assert Starts(one) <= 1;
    }
    WatchdogCountAgainstBootCount(cfg, d, both);
    assert Pending(d.resetReas, one) == {};
    assert Logged(d.resetReas, one, WdtResetCount) == 1 && Logged(d.resetReas, one, BootCount) == 0;
  }

  // ----- Reboots -----

  /** First and last clock read of a step. */
  function FirstRead(st: Step): int {
    match st
    case PolicyStep(p) => p.ms
    case SampleStep(s) => s.ms
    case LoopStep(ms) => ms
  }

  function EndRead(st: Step): int {
    match st
    case PolicyStep(p) => p.healthMs
    case SampleStep(s) => s.endMs
    case LoopStep(ms) => ms
  }

  /** Within a step, uptime does not go back. */
  predicate TimelyStep(st: Step) {
    match st
    case PolicyStep(p) => p.ms <= p.thread.ms <= p.healthMs
    case SampleStep(s) => s.ms <= s.healthMs <= s.endMs
    case LoopStep(ms) => true
  }

  /** The latest clock read, `lo` before any. */
  function LastRead(lo: int, steps: seq<Step>): int {
    if steps == [] then lo else EndRead(steps[|steps| - 1])
  }

  /** Uptime never goes back, within a step or from one to the next. */
  predicate Timely(lo: int, steps: seq<Step>) {
    steps == []
    || (var n := |steps| - 1;
        Timely(lo, steps[..n]) && LastRead(lo, steps[..n]) <= FirstRead(steps[n]) && TimelyStep(steps[n]))
  }

  lemma TimelyOne(lo: int, st: Step)
    requires lo <= FirstRead(st) && TimelyStep(st)
    ensures Timely(lo, [st]) && LastRead(lo, [st]) == EndRead(st)
  {
    var none: seq<Step> := [];
    assert Timely(lo, none) && LastRead(lo, none) == lo;
    assert [st][..0] == none;
  }

  lemma TimelyPair(lo: int, a: Step, b: Step)
    requires lo <= FirstRead(a) && TimelyStep(a) && EndRead(a) <= FirstRead(b) && TimelyStep(b)
    ensures Timely(lo, [a, b])
  {
    TimelyOne(lo, a);
    assert [a, b][..1] == [a];
  }

  lemma {:induction false} TimelyGrows(lo: int, steps: seq<Step>)
    requires Timely(lo, steps)
    ensures lo <= LastRead(lo, steps)
  {
    if steps != [] {
      TimelyGrows(lo, steps[..|steps| - 1]);
    }
  }

  /** Nothing, or one time in the range (lo, hi]. */
  predicate AtMostOne(times: seq<int>, lo: int, hi: int) {
    times == [] || (|times| == 1 && lo < times[0] <= hi)
  }

  /** A boot reboots itself at most once, strictly later than the threshold, and within its uptime. */
  lemma {:induction false} RunReboots(cfg: Config, d: Device, lo: int, steps: seq<Step>)
    requires Timely(lo, steps)
    ensures AtMostOne(Times(Run(cfg, d, steps).fx, Reboots), cfg.rebootMs, LastRead(lo, steps))
    ensures !Run(cfg, d, steps).d.halted ==> Times(Run(cfg, d, steps).fx, Reboots) == []
  {
    if steps != [] {
      var n := |steps| - 1;
      RunReboots(cfg, d, lo, steps[..n]);
      AddStep(cfg, Run(cfg, d, steps[..n]), steps[n], LastRead(lo, steps[..n]));
    }
  }

  lemma AddStep(cfg: Config, o: Outcome, st: Step, last: int)
    requires last <= FirstRead(st) && TimelyStep(st)
    requires AtMostOne(Times(o.fx, Reboots), cfg.rebootMs, last)
    requires !o.d.halted ==> Times(o.fx, Reboots) == []
    ensures var n := Next(cfg, o.d, st);
            && AtMostOne(Times(o.fx + n.fx, Reboots), cfg.rebootMs, EndRead(st))
            && (!n.d.halted ==> Times(o.fx + n.fx, Reboots) == [])
  {
    NextReboots(cfg, o.d, st);
    TimesConcat(o.fx, Next(cfg, o.d, st).fx, Reboots);
    assert Times(o.fx, Reboots) + [] == Times(o.fx, Reboots);
  }

  /** Clock reads of one boot; the first sample's come first. */
  predicate TimelyBoot(b: BootRun) {
    b.start.Some? ==>
      var s := b.start.value.sample;
      0 < s.ms <= s.healthMs && Timely(s.healthMs, b.steps)
  }

  /** The latest uptime a boot reads. */
  function Uptime(b: BootRun): int {
    if b.start.None? then 0 else LastRead(b.start.value.sample.healthMs, b.steps)
  }

  function TotalUptime(boots: seq<BootRun>): int {
    if boots == [] then 0 else TotalUptime(boots[..|boots| - 1]) + Uptime(boots[|boots| - 1])
  }

  lemma BootReboots(cfg: Config, d: Device, b: BootRun)
    requires TimelyBoot(b) && cfg.rebootMs >= 0
    ensures AtMostOne(Times(Boot(cfg, d, b).fx, Reboots), cfg.rebootMs, Uptime(b)) && 0 <= Uptime(b)
  {
    if b.start.None? {
      DeadBoot(cfg, d, b);
    } else {
      var lo := b.start.value.sample.healthMs;
      var l := Start(cfg, PowerUp(d, b), b.start.value);
      StartKinds(cfg, PowerUp(d, b), b.start.value);
      TimesNone(l.fx, {Saves, Climates, Batteries, Healths}, Reboots);
      RunReboots(cfg, l.d, lo, b.steps);
      TimelyGrows(lo, b.steps);
      TimesConcat(l.fx, Run(cfg, l.d, b.steps).fx, Reboots);
    }
  }

  lemma {:induction false} LifeReboots(cfg: Config, d: Device, boots: seq<BootRun>, c: int)
    requires c == cfg.rebootMs + 1 && cfg.rebootMs >= 0
    requires forall i | 0 <= i < |boots| :: TimelyBoot(boots[i])
    ensures Portions(|Times(Life(cfg, d, boots).fx, Reboots)|, c) <= TotalUptime(boots)
  {
    if boots != [] {
      var n := |boots| - 1;
      var o := Life(cfg, d, boots[..n]);
      var b := Boot(cfg, o.d, boots[n]);
      LifeReboots(cfg, d, boots[..n], c);
      BootReboots(cfg, o.d, boots[n]);
      AddReboots(o.fx, b.fx, cfg.rebootMs, c, TotalUptime(boots[..n]), Uptime(boots[n]));
    }
  }

  lemma AddReboots(a: Trace, b: Trace, threshold: int, c: int, x: int, y: int)
    requires c == threshold + 1 && Portions(|Times(a, Reboots)|, c) <= x
    requires AtMostOne(Times(b, Reboots), threshold, y) && 0 <= y
    ensures Portions(|Times(a + b, Reboots)|, c) <= x + y
  {
    TimesConcat(a, b, Reboots);
  }

  /** Self-inflicted reboots are rate-limited across boots: N of them take more than N thresholds of uptime. */
  lemma RebootsAreRateLimited(cfg: Config, d: Device, boots: seq<BootRun>)
    requires cfg.rebootMs >= 0 && forall i | 0 <= i < |boots| :: TimelyBoot(boots[i])
    ensures |Times(Life(cfg, d, boots).fx, Reboots)| * (cfg.rebootMs + 1) <= TotalUptime(boots)
  {
    LifeReboots(cfg, d, boots, cfg.rebootMs + 1);
    PortionsAreProduct(|Times(Life(cfg, d, boots).fx, Reboots)|, cfg.rebootMs + 1);
  }
}
