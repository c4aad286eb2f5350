/** The controller itself: the fields and methods of AppTask, each proved against the state machine's functions. */
module AppTask {
  import opened Base
  import opened Settings
  import opened Effects
  import opened ThreadLink
  import A = Awake
  import S = Sampling
  import opened BatterySense
  import D = Diagnostics
  import M = Machine

  /** Everything outside the application's RAM that it acts on, with a ghost log of those acts. */
  class Platform {
    var flash: Store
    var resetReas: D.Reasons
    var radioDbm: int
    var threadLocked: bool
    var halted: bool
    ghost var trace: Trace

    constructor (flash: Store, resetReas: D.Reasons, radioDbm: int)
      ensures this.flash == flash && this.resetReas == resetReas && this.radioDbm == radioDbm
      ensures !threadLocked && !halted && trace == []
    {
      this.flash, this.resetReas, this.radioDbm := flash, resetReas, radioDbm;
      threadLocked, halted, trace := false, false, [];
    }

    /** What a reset leaves of the hardware state. */
    method Reset(b: M.BootRun)
      modifies this`flash, this`resetReas, this`radioDbm, this`threadLocked, this`halted
      ensures flash == if b.wiped then map[] else old(flash)
      ensures resetReas == if b.reset.PowerOn? then {} else old(resetReas) + b.reset.bits
      ensures radioDbm == b.radioDbm && !threadLocked && !halted
    {
      if b.wiped {
        flash := map[];
      }
      resetReas := if b.reset.PowerOn? then {} else resetReas + b.reset.bits;
      radioDbm, threadLocked, halted := b.radioDbm, false, false;
    }

    method SaveDiagValue(k: Key, v: Word, saves: set<Key>)
      modifies this`flash, this`trace
      ensures flash == D.SaveTo(old(flash), k, v, saves)
      ensures trace == old(trace) + [Save(k, v, k in saves)]
    {
      if k in saves {
        flash := flash[k := v];
      }
      trace := trace + [Save(k, v, k in saves)];
    }

    /** `otPlatRadioSetTransmitPower`, under the Thread stack lock. */
    method SetTransmitPower(dbm: int, accepts: bool)
      requires threadLocked
      modifies this`radioDbm, this`trace
      ensures radioDbm == if accepts then dbm else old(radioDbm)
      ensures trace == old(trace) + [RadioWrite(dbm, accepts)]
    {
      if accepts {
        radioDbm := dbm;
      }
      trace := trace + [RadioWrite(dbm, accepts)];
    }

    method LockThreadStack()
      requires !threadLocked
      modifies this`threadLocked
      ensures threadLocked
    {
      threadLocked := true;
    }

    method UnlockThreadStack()
      requires threadLocked
      modifies this`threadLocked
      ensures !threadLocked
    {
      threadLocked := false;
    }

    method SysReboot(ms: int)
      modifies this`halted, this`trace
      ensures halted && trace == old(trace) + [Reboot(ms)]
    {
      halted := true;
      trace := trace + [Reboot(ms)];
    }
  }

  class AppTask {
    const cfg: M.Config
    const platform: Platform
    const monitor: BatteryMonitor

    var shtReady: bool
    var commissionedAtMs: int
    var wasCommissioned: bool
    var commissioningWindowOpen: bool
    var stayAwakeUntilMs: int
    var lastAwakeKickMs: int
    var appliedThreadTxPowerDbm: int
    var currentTemperature: int
    var currentHumidity: int
    var lastThreadRole: Role
    var lastParentRloc16: int
    var hasLastParent: bool
    var threadDetached: bool
    var threadDetachedSinceMs: int
    var lastHealthSnapshotMs: int
    var wdtChannel: int
    var diagBootCount: Word
    var diagWdtResetCount: Word
    var diagThreadDetachCount: Word
    var diagThreadReattachCount: Word
    var diagSensorFailureCount: Word
    var diagAdcFailureCount: Word
    var diagLastResetReas: Word

    ghost function Link(): ThreadState
      reads this
    {
      ThreadState(lastThreadRole, threadDetached, threadDetachedSinceMs, hasLastParent, lastParentRloc16)
    }

    ghost function Hold(): A.AwakeState
      reads this
    {
      A.AwakeState(commissioningWindowOpen, stayAwakeUntilMs, lastAwakeKickMs, appliedThreadTxPowerDbm)
    }

    ghost function Window(): S.Gate
      reads this
    {
      S.Gate(wasCommissioned, commissionedAtMs)
    }

    ghost function Ram(): Counters
      reads this
    {
      Counters(diagBootCount, diagWdtResetCount, diagThreadDetachCount, diagThreadReattachCount,
               diagSensorFailureCount, diagAdcFailureCount, diagLastResetReas)
    }

    ghost function Mem(): D.Mem
      reads this, platform
    {
      D.Mem(Ram(), platform.flash)
    }

    /** The object as a state of the machine. */
    ghost function Image(): M.Device
      reads this, platform, monitor
    {
      M.Device(Link(), Hold(), Window(), currentTemperature, currentHumidity,
               shtReady, lastHealthSnapshotMs, wdtChannel, monitor.State(),
               Mem(), platform.resetReas, platform.radioDbm, platform.halted)
    }

    /** Between callbacks the Thread stack is unlocked, the battery divider disconnected and the device running. */
    ghost predicate Idle()
      reads this, platform, monitor
    {
      !platform.threadLocked && !monitor.pinConnects && !platform.halted
    }

    /** The field initialisers of the header. */
    constructor (cfg: M.Config, platform: Platform)
      requires !platform.threadLocked && !platform.halted
      ensures this.cfg == cfg && this.platform == platform && fresh(monitor)
      ensures Idle() && wdtChannel == -1 && !shtReady
      ensures Image() == M.Fresh(platform.flash, platform.resetReas, platform.radioDbm)
    {
      this.cfg, this.platform := cfg, platform;
      monitor := new BatteryMonitor();
      shtReady, commissionedAtMs, wasCommissioned := false, 0, false;
      commissioningWindowOpen, stayAwakeUntilMs, lastAwakeKickMs := false, 0, 0;
      appliedThreadTxPowerDbm := -128;
      currentTemperature, currentHumidity := 0, 0;
      lastThreadRole, lastParentRloc16, hasLastParent := Disabled, 0, false;
      threadDetached, threadDetachedSinceMs := false, 0;
      lastHealthSnapshotMs, wdtChannel := 0, -1;
      diagBootCount, diagWdtResetCount, diagThreadDetachCount, diagThreadReattachCount := 0, 0, 0, 0;
      diagSensorFailureCount, diagAdcFailureCount, diagLastResetReas := 0, 0, 0;
    }

    // ----- Persistent counters -----

    method DiagOnBoot(s: M.StartInput)
      modifies this`diagBootCount, this`diagWdtResetCount, this`diagThreadDetachCount, this`diagThreadReattachCount
      modifies this`diagSensorFailureCount, this`diagAdcFailureCount, this`diagLastResetReas
      modifies platform`flash, platform`resetReas, platform`trace
      ensures Mem() == M.BootMem(cfg, old(Mem()), old(platform.resetReas), s)
      ensures platform.resetReas == if cfg.diag then {} else old(platform.resetReas)
      ensures platform.trace == old(platform.trace) + M.BootFx(cfg, old(Mem()), old(platform.resetReas), s)
    {
      if !cfg.diag {
        return;
      }
      LoadCounters(s.records);
      var reas := platform.resetReas;
      platform.resetReas := platform.resetReas - reas;
      CountBoot(reas, s.saves);
    }

    method LoadCounters(records: seq<Record>)
      modifies this`diagBootCount, this`diagWdtResetCount, this`diagThreadDetachCount, this`diagThreadReattachCount
      modifies this`diagSensorFailureCount, this`diagAdcFailureCount, this`diagLastResetReas
      ensures Ram() == Load(records)
    {
      var loaded := new DiagLoadContext();
      loaded.LoadSubtree(records);
      diagBootCount := loaded.bootCount;
      diagWdtResetCount := loaded.wdtResetCount;
      diagThreadDetachCount := loaded.threadDetachCount;
      diagThreadReattachCount := loaded.threadReattachCount;
      diagSensorFailureCount := loaded.sensorFailureCount;
      diagAdcFailureCount := loaded.adcFailureCount;
      diagLastResetReas := loaded.lastResetReas;
    }

    method CountBoot(reas: D.Reasons, saves: set<Key>)
      modifies this`diagBootCount, this`diagWdtResetCount, this`diagLastResetReas, platform`flash, platform`trace
      ensures Mem() == D.Counted(old(Mem()), reas, saves)
      ensures platform.trace == old(platform.trace) + D.CountedFx(old(Mem()), reas, saves)
    {
      diagBootCount := Plus(diagBootCount, 1);
      platform.SaveDiagValue(BootCount, diagBootCount, saves);
      assert Mem() == D.Bump(old(Mem()), BootCount, saves);
      platform.SaveDiagValue(LastResetReas, D.Code(reas), saves);
      diagLastResetReas := D.Code(reas);
      if D.Dog in reas {
        diagWdtResetCount := Plus(diagWdtResetCount, 1);
        platform.SaveDiagValue(WdtResetCount, diagWdtResetCount, saves);
      }
    }

    method DiagOnThreadDetached(saves: set<Key>)
      modifies this`diagThreadDetachCount, platform`flash, platform`trace
      ensures Mem() == M.BumpMem(cfg, old(Mem()), Some(ThreadDetachCount), saves)
      ensures platform.trace == old(platform.trace) + M.BumpMemFx(cfg, old(Mem()), Some(ThreadDetachCount), saves)
    {
      if !cfg.diag {
        return;
      }
      diagThreadDetachCount := Plus(diagThreadDetachCount, 1);
      platform.SaveDiagValue(ThreadDetachCount, diagThreadDetachCount, saves);
    }

    method DiagOnThreadReattached(saves: set<Key>)
      modifies this`diagThreadReattachCount, platform`flash, platform`trace
      ensures Mem() == M.BumpMem(cfg, old(Mem()), Some(ThreadReattachCount), saves)
      ensures platform.trace == old(platform.trace) + M.BumpMemFx(cfg, old(Mem()), Some(ThreadReattachCount), saves)
    {
      if !cfg.diag {
        return;
      }
      diagThreadReattachCount := Plus(diagThreadReattachCount, 1);
      platform.SaveDiagValue(ThreadReattachCount, diagThreadReattachCount, saves);
    }

    method DiagOnSensorReadFailure(saves: set<Key>)
      modifies this`diagSensorFailureCount, platform`flash, platform`trace
      ensures Mem() == M.BumpMem(cfg, old(Mem()), Some(SensorFailureCount), saves)
      ensures platform.trace == old(platform.trace) + M.BumpMemFx(cfg, old(Mem()), Some(SensorFailureCount), saves)
    {
      if !cfg.diag {
        return;
      }
      diagSensorFailureCount := Plus(diagSensorFailureCount, 1);
      platform.SaveDiagValue(SensorFailureCount, diagSensorFailureCount, saves);
    }

    method DiagOnAdcReadFailure(saves: set<Key>)
      modifies this`diagAdcFailureCount, platform`flash, platform`trace
      ensures Mem() == M.BumpMem(cfg, old(Mem()), Some(AdcFailureCount), saves)
      ensures platform.trace == old(platform.trace) + M.BumpMemFx(cfg, old(Mem()), Some(AdcFailureCount), saves)
    {
      if !cfg.diag {
        return;
      }
      diagAdcFailureCount := Plus(diagAdcFailureCount, 1);
      platform.SaveDiagValue(AdcFailureCount, diagAdcFailureCount, saves);
    }

    method MaybeLogAndPersistHealthSnapshot(ms: int, saves: set<Key>)
      modifies this`lastHealthSnapshotMs, platform`flash, platform`trace
      ensures lastHealthSnapshotMs == M.HealthMs(cfg, old(lastHealthSnapshotMs), ms)
      ensures Mem() == M.HealthMem(cfg, old(Mem()), old(lastHealthSnapshotMs), lastThreadRole, ms, saves)
      ensures platform.trace == old(platform.trace) + M.HealthFx(cfg, old(lastHealthSnapshotMs), lastThreadRole, ms, saves)
    {
      if !cfg.diag {
        return;
      }
      if lastHealthSnapshotMs != 0 && ms - lastHealthSnapshotMs < cfg.snapshotMs {
        return;
      }
      lastHealthSnapshotMs := ms;
      var uptimeSec := M.UptimeSec(ms);
      platform.SaveDiagValue(LastUptimeSec, uptimeSec, saves);
      platform.SaveDiagValue(LastThreadRole, RoleCode(lastThreadRole), saves);
      platform.trace := platform.trace + [Health(ms)];
    }

    // ----- Watchdog -----

    method DiagInitWatchdog(w: M.WdtInput)
      requires wdtChannel == -1
      modifies this`wdtChannel
      ensures wdtChannel == M.WdtChannel(cfg, w)
    {
      if !cfg.diag || !w.ready {
        return;
      }
      wdtChannel := w.channel;
      if wdtChannel < 0 {
        wdtChannel := -1;
        return;
      }
      if !w.setupOk {
        wdtChannel := -1;
      }
    }

    method DiagFeedWatchdog(ms: int)
      modifies platform`trace
      ensures platform.trace == old(platform.trace) + M.FeedFx(cfg, wdtChannel, ms)
    {
      if !cfg.diag || wdtChannel < 0 {
        return;
      }
      platform.trace := platform.trace + [Feed(ms)];
    }

    // ----- The policy tick -----

    method HandleThreadStateChange(flags: Flags, o: Observation, saves: set<Key>)
      requires Idle()
      modifies this`lastThreadRole, this`threadDetached, this`threadDetachedSinceMs, this`hasLastParent, this`lastParentRloc16
      modifies this`diagThreadDetachCount, this`diagThreadReattachCount
      modifies platform`threadLocked, platform`flash, platform`trace
      ensures Idle()
      ensures var out := M.Linked(cfg, old(Image()), flags, o, saves);
              Image() == out.d && platform.trace == old(platform.trace) + out.fx
    {
      platform.LockThreadStack();
      if !o.instance {
        platform.UnlockThreadStack();
        return;
      }
      ghost var d := Image();
      TrackLink(flags, o, saves);
      platform.UnlockThreadStack();
      assert Hold() == d.awake && Window() == d.gate && monitor.State() == d.sense;
    }

    /** The handler's work under the Thread stack lock: role first, then parent. */
    method TrackLink(flags: Flags, o: Observation, saves: set<Key>)
      requires platform.threadLocked && o.instance
      modifies this`lastThreadRole, this`threadDetached, this`threadDetachedSinceMs, this`hasLastParent, this`lastParentRloc16
      modifies this`diagThreadDetachCount, this`diagThreadReattachCount, platform`flash, platform`trace
      ensures Link() == Handle(old(Link()), flags, o)
      ensures var key := M.EdgeKey(EdgeOf(old(Link()), flags, o));
              && Mem() == M.BumpMem(cfg, old(Mem()), key, saves)
              && platform.trace == old(platform.trace) + M.BumpMemFx(cfg, old(Mem()), key, saves)
    {
      OnRole(flags, o, saves);
      OnParent(flags, o);
    }

    /** The role part of the handler, under the Thread stack lock. */
    method OnRole(flags: Flags, o: Observation, saves: set<Key>)
      requires platform.threadLocked && o.instance
      modifies this`lastThreadRole, this`threadDetached, this`threadDetachedSinceMs
      modifies this`diagThreadDetachCount, this`diagThreadReattachCount, platform`flash, platform`trace
      ensures Link() == TrackRole(old(Link()), flags, o)
      ensures var key := M.EdgeKey(EdgeOf(old(Link()), flags, o));
              && Mem() == M.BumpMem(cfg, old(Mem()), key, saves)
              && platform.trace == old(platform.trace) + M.BumpMemFx(cfg, old(Mem()), key, saves)
    {
      if !flags.role {
        return;
      }
      var role := o.role;
      if role != lastThreadRole {
        if role == Detached && !threadDetached {
          threadDetached := true;
          threadDetachedSinceMs := o.ms;
          DiagOnThreadDetached(saves);
        } else if role != Detached && threadDetached {
          threadDetached := false;
          threadDetachedSinceMs := 0;
          DiagOnThreadReattached(saves);
        }
        lastThreadRole := role;
      }
    }

    /** The parent part of the handler, under the Thread stack lock. */
    method OnParent(flags: Flags, o: Observation)
      requires platform.threadLocked && o.instance
      modifies this`hasLastParent, this`lastParentRloc16
      ensures Link() == TrackParent(old(Link()), flags, o)
    {
      if !flags.role && !flags.rlocAdded && !flags.rlocRemoved && !flags.partition {
        return;
      }
      var role := o.role;
      if role == Child {
        if o.parent.Some? {
          if !hasLastParent || lastParentRloc16 != o.parent.value {
            lastParentRloc16 := o.parent.value;
            hasLastParent := true;
          }
        }
      } else if hasLastParent {
        hasLastParent := false;
        lastParentRloc16 := 0;
      }
    }

    method ApplyThreadTxPower(dbm: int, radio: A.Radio)
      requires Idle()
      modifies this`appliedThreadTxPowerDbm, platform`threadLocked, platform`radioDbm, platform`trace
      ensures !platform.threadLocked
      ensures Hold() == A.ApplyTx(old(Hold()), dbm, radio)
      ensures platform.radioDbm == if old(appliedThreadTxPowerDbm) != dbm && radio == A.Accepted then dbm
                                   else old(platform.radioDbm)
      ensures platform.trace == old(platform.trace) + A.TxFx(old(Hold()), dbm, radio)
    {
      if appliedThreadTxPowerDbm == dbm {
        return;
      }
      platform.LockThreadStack();
      var ok := false;
      if radio != A.NoInstance {
        platform.SetTransmitPower(dbm, radio == A.Accepted);
        ok := radio == A.Accepted;
      }
      platform.UnlockThreadStack();
      if ok {
        appliedThreadTxPowerDbm := dbm;
      }
    }

    method UpdateCommissioningAwakePolicy(p: M.PolicyInput)
      requires Idle()
      modifies this, platform
      ensures !platform.threadLocked && !monitor.pinConnects
      ensures var o := M.Policy(cfg, old(Image()), p);
              Image() == o.d && platform.trace == old(platform.trace) + o.fx
    {
      ghost var a := M.Ticked(cfg, Image(), p);
      TrackAndHold(p);
      Assoc(old(platform.trace), a.fx, M.RebootOrSnap(cfg, a.d, p).fx);
      if cfg.diag && p.commissioned && threadDetached && threadDetachedSinceMs > 0
         && p.ms - threadDetachedSinceMs > cfg.rebootMs {
        platform.SysReboot(p.ms);
        return;
      }
      Snapshot(p.healthMs, p.saves);
    }

    /** The tick up to its reboot check. */
    method TrackAndHold(p: M.PolicyInput)
      requires Idle()
      modifies this, platform
      ensures Idle()
      ensures var o := M.Ticked(cfg, old(Image()), p);
              Image() == o.d && platform.trace == old(platform.trace) + o.fx
    {
      ghost var a := M.Linked(cfg, Image(), ALL, p.thread, p.saves);
      HandleThreadStateChange(ALL, p.thread, p.saves);
      Assoc(old(platform.trace), a.fx, M.Held(cfg, a.d, M.TickOf(p)).fx);
      HoldAwake(M.TickOf(p));
    }

    /** Window edges and the grace deadline. */
    method TrackWindow(t: A.Tick)
      modifies this`commissioningWindowOpen, this`stayAwakeUntilMs
      ensures Hold() == A.TrackWindow(old(Hold()), t)
    {
      if t.windowOpen != commissioningWindowOpen {
        commissioningWindowOpen := t.windowOpen;
        if t.windowOpen {
          stayAwakeUntilMs := 0;
        } else {
          stayAwakeUntilMs := t.ms + A.POST_CLOSE_GRACE_MS;
        }
      }
    }

    /** The middle of the tick as a step of the machine. */
    method HoldAwake(t: A.Tick)
      requires Idle()
      modifies this`commissioningWindowOpen, this`stayAwakeUntilMs, this`lastAwakeKickMs
      modifies this`appliedThreadTxPowerDbm, platform`threadLocked, platform`radioDbm, platform`trace
      ensures Idle()
      ensures var o := M.Held(cfg, old(Image()), t);
              Image() == o.d && platform.trace == old(platform.trace) + o.fx
    {
      ghost var d := Image();
      KeepAwake(t);
      assert Link() == d.thread && Window() == d.gate && Mem() == d.mem && monitor.State() == d.sense;
    }

    /** The middle of the tick: window edge, radio power, kick. */
    method KeepAwake(t: A.Tick)
      requires Idle()
      modifies this`commissioningWindowOpen, this`stayAwakeUntilMs, this`lastAwakeKickMs
      modifies this`appliedThreadTxPowerDbm, platform`threadLocked, platform`radioDbm, platform`trace
      ensures Idle()
      ensures Hold() == A.Next(cfg.postDbm, old(Hold()), t)
      ensures platform.radioDbm == A.Radiated(cfg.postDbm, old(platform.radioDbm), old(Hold()), t)
      ensures platform.trace == old(platform.trace) + A.Fx(cfg.postDbm, old(Hold()), t)
    {
      TrackWindow(t);
      var holdActive := t.windowOpen || stayAwakeUntilMs > t.ms;
      ApplyThreadTxPower(if holdActive then A.COMMISSIONING_DBM else cfg.postDbm, t.radio);
      if holdActive && t.ms - lastAwakeKickMs >= A.KICK_PERIOD_MS {
        platform.trace := platform.trace + [Kick(t.ms)];
        lastAwakeKickMs := t.ms;
      }
    }

    // ----- Sampling -----

    method UpdateSensorReadings(s: M.SampleInput, force: bool) returns (updated: bool)
      modifies this`wasCommissioned, this`commissionedAtMs, this`currentTemperature, this`currentHumidity
      modifies this`diagSensorFailureCount, platform`flash, platform`trace
      ensures Window() == S.Observe(old(Window()), M.CallOf(s, force))
      ensures updated == M.Publishes(old(Window()), shtReady, s, force)
      ensures updated ==> currentTemperature == M.Temperature(s) && currentHumidity == M.Humidity(s)
      ensures !updated ==> currentTemperature == old(currentTemperature) && currentHumidity == old(currentHumidity)
      ensures var key := M.ReadKey(old(Window()), shtReady, s, force);
              && Mem() == M.BumpMem(cfg, old(Mem()), key, s.saves)
              && platform.trace == old(platform.trace) + M.BumpMemFx(cfg, old(Mem()), key, s.saves)
    {
      if s.commissioned != wasCommissioned {
        wasCommissioned := s.commissioned;
        commissionedAtMs := if s.commissioned then s.ms else 0;
      }
      if !force && !s.commissioned {
        return false;
      }
      if !force && commissionedAtMs > 0 && s.ms - commissionedAtMs < S.COMMISSION_GRACE_MS {
        return false;
      }
      if !shtReady {
        return false;
      }
      if !s.fetchOk {
        DiagOnSensorReadFailure(s.saves);
        return false;
      }
      if s.channels.None? {
        DiagOnSensorReadFailure(s.saves);
        return false;
      }
      currentTemperature := S.ToInt16(Round(s.channels.value.celsius * 100.0));
      currentHumidity := S.ToUint16(Round(s.channels.value.percent * 100.0));
      return true;
    }

    method UpdateMatterAttributes(s: M.SampleInput)
      requires Idle()
      modifies this`diagAdcFailureCount, platform`flash, platform`trace, monitor
      ensures !monitor.pinConnects && monitor.State() == Prepared(old(monitor.State()), s.battery)
      ensures Mem() == M.BumpMem(cfg, old(Mem()), M.AdcKey(old(monitor.State()), s.battery), s.saves)
      ensures platform.trace == old(platform.trace) + M.Shown(cfg, old(Image()), s).fx
    {
      hide Measured, AdcFails, BatteryCurve.PercentOf;
      platform.trace := platform.trace + [Climate(currentTemperature, currentHumidity)];
      var vbat, adcFailed := monitor.ReadBatteryVolts(s.battery);
      if adcFailed {
        DiagOnAdcReadFailure(s.saves);
      }
      var mv := Round(vbat * 1000.0);
      var pct := BatteryCurve.VoltsToPercent(vbat);
      var halfPct := if pct >= 100 then 200 else pct * 2;
      platform.trace := platform.trace + [Battery(mv, halfPct)];
    }

    /** Publication of a reading: attributes, then perhaps a health snapshot. */
    method Report(s: M.SampleInput)
      requires Idle()
      modifies this, platform, monitor
      ensures Idle()
      ensures var o := M.Reported(cfg, old(Image()), s);
              Image() == o.d && platform.trace == old(platform.trace) + o.fx
    {
      ghost var a := M.Shown(cfg, Image(), s);
      UpdateMatterAttributes(s);
      assert Image() == a.d;
      Assoc(old(platform.trace), a.fx, M.Snapped(cfg, a.d, s.healthMs, s.saves).fx);
      Snapshot(s.healthMs, s.saves);
    }

    /** A health snapshot as a step of the machine. */
    method Snapshot(ms: int, saves: set<Key>)
      modifies this`lastHealthSnapshotMs, platform`flash, platform`trace
      ensures var o := M.Snapped(cfg, old(Image()), ms, saves);
              Image() == o.d && platform.trace == old(platform.trace) + o.fx
    {
      ghost var d := Image();
      MaybeLogAndPersistHealthSnapshot(ms, saves);
      assert Link() == d.thread && Hold() == d.awake && Window() == d.gate && monitor.State() == d.sense;
    }

    /** A reading and, when it succeeds, its report: the part StartApp and the timer share. */
    method TakeSample(s: M.SampleInput, force: bool) returns (updated: bool)
      requires Idle()
      modifies this, platform, monitor
      ensures Idle()
      ensures updated == M.Publishes(old(Window()), old(shtReady), s, force)
      ensures var o := M.Sampled(cfg, old(Image()), s, force);
              Image() == o.d && platform.trace == old(platform.trace) + o.fx
    {
      hide M.Reported;
      ghost var a := M.Sensed(cfg, Image(), s, force);
      updated := UpdateSensorReadings(s, force);
      assert Image() == a.d;
      if updated {
        Assoc(old(platform.trace), a.fx, M.Reported(cfg, a.d, s).fx);
        Report(s);
      }
    }

    /** The work item of the sampling timer. */
    method UpdateTemperatureTimeout(s: M.SampleInput)
      requires Idle()
      modifies this, platform, monitor
      ensures Idle()
      ensures var o := M.Sample(cfg, old(Image()), s);
              Image() == o.d && platform.trace == old(platform.trace) + o.fx
    {
      ghost var o := M.Sampled(cfg, Image(), s, false);
      var updated := TakeSample(s, false);
      if !updated {
        return;
      }
      Assoc(old(platform.trace), o.fx, M.FeedFx(cfg, o.d.wdtChannel, s.endMs));
      DiagFeedWatchdog(s.endMs);
    }

    // ----- Start-up and main loop -----

    /** Init on a prepared Matter stack: diagnostics, sensor and watchdog; false when it gives up on the way. */
    method InitPrepared(s: M.StartInput) returns (ready: bool)
      requires wdtChannel == -1 && !shtReady
      modifies this`diagBootCount, this`diagWdtResetCount, this`diagThreadDetachCount, this`diagThreadReattachCount
      modifies this`diagSensorFailureCount, this`diagAdcFailureCount, this`diagLastResetReas
      modifies this`shtReady, this`wdtChannel, platform`flash, platform`resetReas, platform`trace
      ensures ready == (s.earlyOk && s.lateOk)
      ensures shtReady == (s.earlyOk && s.shtReady)
      ensures wdtChannel == if s.earlyOk then M.WdtChannel(cfg, s.wdt) else -1
      ensures Mem() == M.BootMem(cfg, old(Mem()), old(platform.resetReas), s)
      ensures platform.resetReas == if cfg.diag then {} else old(platform.resetReas)
      ensures platform.trace == old(platform.trace) + M.BootFx(cfg, old(Mem()), old(platform.resetReas), s)
    {
      DiagOnBoot(s);
      if !s.earlyOk {
        return false;
      }
      shtReady := s.shtReady;
      DiagInitWatchdog(s.wdt);
      return s.lateOk;
    }

    /** The same as a step of the machine. */
    method Initialise(s: M.StartInput) returns (ready: bool)
      requires Idle() && wdtChannel == -1 && !shtReady
      modifies this, platform
      ensures Idle() && ready == (s.earlyOk && s.lateOk)
      ensures Image() == M.Initialised(cfg, old(Image()), s)
      ensures platform.trace == old(platform.trace) + M.BootFx(cfg, old(Mem()), old(platform.resetReas), s)
    {
      hide Load, D.Counted, D.CountedFx;
      ghost var e := M.Initialised(cfg, Image(), s);
      ready := InitPrepared(s);
      assert Image() == e;
    }

    /** Init: nothing happens when the Matter stack cannot be prepared. */
    method Init(start: Option<M.StartInput>) returns (ready: bool)
      requires Idle() && wdtChannel == -1 && !shtReady
      modifies this, platform
      ensures Idle() && ready == (start.Some? && start.value.earlyOk && start.value.lateOk)
      ensures var o := M.Inited(cfg, old(Image()), start);
              Image() == o.d && platform.trace == old(platform.trace) + o.fx
    {
      if start.None? {
        return false;
      }
      ready := Initialise(start.value);
    }

    /** Init and StartApp up to the main loop; false when start-up gives up. */
    method StartApp(start: Option<M.StartInput>) returns (running: bool)
      requires Idle() && wdtChannel == -1 && !shtReady
      modifies this, platform, monitor
      ensures !platform.threadLocked && !monitor.pinConnects
      ensures running == (start.Some? && start.value.earlyOk && start.value.lateOk)
      ensures var o := M.Begin(cfg, old(Image()), start);
              Image() == o.d && platform.trace == old(platform.trace) + o.fx
    {
      ghost var i := M.Inited(cfg, Image(), start);
      running := Init(start);
      if !running {
        platform.halted := true;
        return;
      }
      Assoc(old(platform.trace), i.fx, M.Sampled(cfg, i.d, start.value.sample, true).fx);
      var updated := TakeSample(start.value.sample, true);
    }

    /** Runs the callbacks of one boot in any order; a device that has rebooted runs no more of them. */
    method MainLoop(steps: seq<M.Step>)
      requires !platform.threadLocked && !monitor.pinConnects
      modifies this, platform, monitor
      ensures !platform.threadLocked && !monitor.pinConnects
      ensures var o := M.Run(cfg, old(Image()), steps);
              Image() == o.d && platform.trace == old(platform.trace) + o.fx
    {
      var i := 0;
      while i < |steps|
        invariant 0 <= i <= |steps|
        invariant !platform.threadLocked && !monitor.pinConnects
        invariant var o := M.Run(cfg, old(Image()), steps[..i]);
                  Image() == o.d && platform.trace == old(platform.trace) + o.fx
      {
        ghost var o := M.Run(cfg, old(Image()), steps[..i]);
        assert steps[..i + 1][..i] == steps[..i];
        Assoc(old(platform.trace), o.fx, M.Next(cfg, o.d, steps[i]).fx);
        Dispatch(steps[i]);
        i := i + 1;
      }
      assert steps[..|steps|] == steps;
    }

    /** One callback, or one turn of the main loop. */
    method Dispatch(st: M.Step)
      requires !platform.threadLocked && !monitor.pinConnects
      modifies this, platform, monitor
      ensures !platform.threadLocked && !monitor.pinConnects
      ensures var o := M.Next(cfg, old(Image()), st);
              Image() == o.d && platform.trace == old(platform.trace) + o.fx
    {
      if platform.halted {
        return;
      }
      match st
      case PolicyStep(p) => UpdateCommissioningAwakePolicy(p);
      case SampleStep(s) => UpdateTemperatureTimeout(s);
      case LoopStep(ms) => DiagFeedWatchdog(ms);
    }
  }

  /** One boot of the device, from reset to its last callback. */
  method Boot(cfg: M.Config, platform: Platform, ghost d: M.Device, b: M.BootRun) returns (app: AppTask)
    requires platform.flash == d.mem.flash && platform.resetReas == d.resetReas
    modifies platform
    ensures fresh(app) && app.platform == platform
    ensures var o := M.Boot(cfg, d, b);
            app.Image() == o.d && platform.trace == old(platform.trace) + o.fx
  {
    platform.Reset(b);
    app := new AppTask(cfg, platform);
    ghost var l := M.Launch(cfg, d, b);
    var running := app.StartApp(b.start);
    Assoc(old(platform.trace), l.fx, M.Run(cfg, l.d, b.steps).fx);
    app.MainLoop(b.steps);
  }
}
