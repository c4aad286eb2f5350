/** The whole controller as a state machine: one boot after another, each a start-up and a sequence of callbacks. */
module Machine {
  import opened Base
  import opened Settings
  import opened Effects
  import opened ThreadLink
  import A = Awake
  import S = Sampling
  import opened BatterySense
  import opened Diagnostics

  /** Build-time configuration, times in milliseconds. */
  datatype Config = Config(diag: bool, postDbm: int, snapshotMs: int, rebootMs: int, watchdogMs: int)
  {
    /** The Kconfig ranges. */
    predicate Valid() {
      && -20 <= postDbm <= 20
      && 60_000 <= snapshotMs <= 3_600_000
      && 60_000 <= rebootMs <= 3_600_000
      && 30_000 <= watchdogMs <= 3_600_000
    }
  }

  /** RAM of the application task, and below it what lives outside RAM. */
  datatype Device = Device(
    thread: ThreadState, awake: A.AwakeState, gate: S.Gate, temperature: int, humidity: int,
    shtReady: bool, lastHealthMs: int, wdtChannel: int, sense: Sense,
    mem: Mem, resetReas: Reasons, radioDbm: int, halted: bool)

  /** State after a piece of the program, and what it did on the way. */
  datatype Outcome = Outcome(d: Device, fx: Trace)

  // ----- What the environment answers -----

  /** One policy tick: two clock reads around the handler's own, Thread, window, radio, fabrics and flash. */
  datatype PolicyInput = PolicyInput(
    ms: int, thread: Observation, windowOpen: bool, radio: A.Radio, commissioned: bool,
    healthMs: int, saves: set<Key>)

  /** Sensor channels in degrees Celsius and percent. */
  datatype Reading = Reading(celsius: real, percent: real)

  /** One pass of the sampling work. */
  datatype SampleInput = SampleInput(
    commissioned: bool, ms: int, fetchOk: bool, channels: Option<Reading>, battery: BatteryInput,
    healthMs: int, endMs: int, saves: set<Key>)

  datatype WdtInput = WdtInput(ready: bool, channel: int, setupOk: bool)

  /** Start-up: the settings backend, two points where it may give up, sensor, watchdog and the first sample. */
  datatype StartInput = StartInput(
    records: seq<Record>, saves: set<Key>, earlyOk: bool, shtReady: bool, wdt: WdtInput, lateOk: bool,
    sample: SampleInput)

  // ----- Pieces of a callback -----

  /** In diagnostic mode, count an event of k, if there is one. */
  function BumpMem(cfg: Config, m: Mem, k: Option<Key>, saves: set<Key>): Mem {
    if cfg.diag && k.Some? then Bump(m, k.value, saves) else m
  }

  function BumpMemFx(cfg: Config, m: Mem, k: Option<Key>, saves: set<Key>): Trace {
    if cfg.diag && k.Some? then BumpFx(m, k.value, saves) else []
  }

  /** MaybeLogAndPersistHealthSnapshot: whether it is due, the new snapshot time, flash and effects. */
  predicate HealthDue(cfg: Config, lastMs: int, ms: int) {
    cfg.diag && !(lastMs != 0 && ms - lastMs < cfg.snapshotMs)
  }

  function HealthMs(cfg: Config, lastMs: int, ms: int): int {
    if HealthDue(cfg, lastMs, ms) then ms else lastMs
  }

  function UptimeSec(ms: int): Word {
    Wrap(ms / 1000)
  }

  function SnapshotTo(m: Mem, role: Role, ms: int, saves: set<Key>): Mem {
    m.(flash := SaveTo(SaveTo(m.flash, LastUptimeSec, UptimeSec(ms), saves), LastThreadRole, RoleCode(role), saves))
  }

  function SnapshotFx(role: Role, ms: int, saves: set<Key>): Trace {
    [Save(LastUptimeSec, UptimeSec(ms), LastUptimeSec in saves),
     Save(LastThreadRole, RoleCode(role), LastThreadRole in saves),
     Health(ms)]
  }

  function HealthMem(cfg: Config, m: Mem, lastMs: int, role: Role, ms: int, saves: set<Key>): Mem {
    if HealthDue(cfg, lastMs, ms) then SnapshotTo(m, role, ms, saves) else m
  }

  function HealthFx(cfg: Config, lastMs: int, role: Role, ms: int, saves: set<Key>): Trace {
    if HealthDue(cfg, lastMs, ms) then SnapshotFx(role, ms, saves) else []
  }

  function FeedFx(cfg: Config, wdtChannel: int, ms: int): Trace {
    if cfg.diag && wdtChannel >= 0 then [Feed(ms)] else []
  }

  // ----- The policy tick -----

  /** The counter an edge counts. */
  function EdgeKey(e: Edge): Option<Key> {
    match e
    case WentDetached => Some(ThreadDetachCount)
    case Reattached => Some(ThreadReattachCount)
    case Steady => None
  }

  function TickOf(p: PolicyInput): A.Tick {
    A.Tick(p.ms, p.windowOpen, p.radio)
  }

  /** The detached-too-long check, on the link state the handler has just left. */
  predicate RebootDue(cfg: Config, t: ThreadState, p: PolicyInput) {
    cfg.diag && p.commissioned && t.detached && t.sinceMs > 0 && p.ms - t.sinceMs > cfg.rebootMs
  }

  /** HandleThreadStateChange. */
  function Linked(cfg: Config, d: Device, flags: Flags, o: Observation, saves: set<Key>): Outcome {
    var key := EdgeKey(EdgeOf(d.thread, flags, o));
    Outcome(d.(thread := Handle(d.thread, flags, o), mem := BumpMem(cfg, d.mem, key, saves)),
            BumpMemFx(cfg, d.mem, key, saves))
  }

  /** Awake hold, radio power and kick. */
  function Held(cfg: Config, d: Device, t: A.Tick): Outcome {
    Outcome(d.(awake := A.Next(cfg.postDbm, d.awake, t),
               radioDbm := A.Radiated(cfg.postDbm, d.radioDbm, d.awake, t)),
            A.Fx(cfg.postDbm, d.awake, t))
  }

  /** The tick up to its reboot check. */
  function Ticked(cfg: Config, d: Device, p: PolicyInput): Outcome {
    var a := Linked(cfg, d, ALL, p.thread, p.saves);
    var b := Held(cfg, a.d, TickOf(p));
    Outcome(b.d, a.fx + b.fx)
  }

  /** A health snapshot, if one is due. */
  function Snapped(cfg: Config, d: Device, ms: int, saves: set<Key>): Outcome {
    Outcome(d.(mem := HealthMem(cfg, d.mem, d.lastHealthMs, d.thread.lastRole, ms, saves),
               lastHealthMs := HealthMs(cfg, d.lastHealthMs, ms)),
            HealthFx(cfg, d.lastHealthMs, d.thread.lastRole, ms, saves))
  }

  /** The last part: reboot when detached for too long, otherwise perhaps a health snapshot. */
  function RebootOrSnap(cfg: Config, d: Device, p: PolicyInput): Outcome {
    if RebootDue(cfg, d.thread, p) then Outcome(d.(halted := true), [Reboot(p.ms)])
    else Snapped(cfg, d, p.healthMs, p.saves)
  }

  /** UpdateCommissioningAwakePolicy. */
  function Policy(cfg: Config, d: Device, p: PolicyInput): Outcome {
    var a := Ticked(cfg, d, p);
    var b := RebootOrSnap(cfg, a.d, p);
    Outcome(b.d, a.fx + b.fx)
  }

  // ----- The sampling work -----

  function CallOf(s: SampleInput, force: bool): S.Call {
    S.Call(force, s.commissioned, s.ms)
  }

  /** Whether the sensor delivers new values. */
  predicate Works(shtReady: bool, s: SampleInput) {
    shtReady && s.fetchOk && s.channels.Some?
  }

  predicate Publishes(g: S.Gate, shtReady: bool, s: SampleInput, force: bool) {
    S.Passes(g, CallOf(s, force)) && Works(shtReady, s)
  }

  /** The counter a reading attempt counts. */
  function ReadKey(g: S.Gate, shtReady: bool, s: SampleInput, force: bool): Option<Key> {
    if S.Passes(g, CallOf(s, force)) && shtReady && !Works(shtReady, s) then Some(SensorFailureCount) else None
  }

  function AdcKey(sense: Sense, b: BatteryInput): Option<Key> {
    if AdcFails(sense, b) then Some(AdcFailureCount) else None
  }

  function Temperature(s: SampleInput): int
    requires s.channels.Some?
  {
    S.ToInt16(Round(s.channels.value.celsius * 100.0))
  }

  function Humidity(s: SampleInput): int
    requires s.channels.Some?
  {
    S.ToUint16(Round(s.channels.value.percent * 100.0))
  }

  /** UpdateSensorReadings. */
  function Sensed(cfg: Config, d: Device, s: SampleInput, force: bool): Outcome {
    var key := ReadKey(d.gate, d.shtReady, s, force);
    var e := d.(gate := S.Observe(d.gate, CallOf(s, force)), mem := BumpMem(cfg, d.mem, key, s.saves));
    Outcome(if Publishes(d.gate, d.shtReady, s, force) then e.(temperature := Temperature(s), humidity := Humidity(s))
            else e,
            BumpMemFx(cfg, d.mem, key, s.saves))
  }

  /** UpdateMatterAttributes. */
  function Shown(cfg: Config, d: Device, s: SampleInput): Outcome {
    var v, key := Measured(d.sense, s.battery), AdcKey(d.sense, s.battery);
    Outcome(d.(sense := Prepared(d.sense, s.battery), mem := BumpMem(cfg, d.mem, key, s.saves)),
            [Climate(d.temperature, d.humidity)] + BumpMemFx(cfg, d.mem, key, s.saves)
            + [Battery(Millivolts(v), HalfPercent(v))])
  }

  /** Attributes and perhaps a health snapshot. */
  function Reported(cfg: Config, d: Device, s: SampleInput): Outcome {
    var a := Shown(cfg, d, s);
    var b := Snapped(cfg, a.d, s.healthMs, s.saves);
    Outcome(b.d, a.fx + b.fx)
  }

  /** A reading and, when it succeeds, its report: the part StartApp and the timer share. */
  function Sampled(cfg: Config, d: Device, s: SampleInput, force: bool): Outcome {
    var a := Sensed(cfg, d, s, force);
    if !Publishes(d.gate, d.shtReady, s, force) then a
    else
      var b := Reported(cfg, a.d, s);
      Outcome(b.d, a.fx + b.fx)
  }

  /** Only a round that publishes feeds the watchdog. */
  function RoundFeed(cfg: Config, d: Device, s: SampleInput): Trace {
    if Publishes(d.gate, d.shtReady, s, false) then FeedFx(cfg, d.wdtChannel, s.endMs) else []
  }

  /** The sampling timer's work. */
  function Sample(cfg: Config, d: Device, s: SampleInput): Outcome {
    var o := Sampled(cfg, d, s, false);
    Outcome(o.d, o.fx + RoundFeed(cfg, d, s))
  }

  // ----- Start-up -----

  function WdtChannel(cfg: Config, w: WdtInput): int {
    if !cfg.diag || !w.ready || w.channel < 0 || !w.setupOk then -1 else w.channel
  }

  /** DiagOnBoot, which also clears the reset reasons it has read. */
  function BootMem(cfg: Config, m: Mem, reas: Reasons, s: StartInput): Mem {
    if cfg.diag then Counted(Mem(Load(s.records), m.flash), reas, s.saves) else m
  }

  function BootFx(cfg: Config, m: Mem, reas: Reasons, s: StartInput): Trace {
    if cfg.diag then CountedFx(Mem(Load(s.records), m.flash), reas, s.saves) else []
  }

  /** Init up to and including the watchdog. */
  function Initialised(cfg: Config, d: Device, s: StartInput): Device {
    d.(mem := BootMem(cfg, d.mem, d.resetReas, s),
       resetReas := if cfg.diag then {} else d.resetReas,
       shtReady := s.earlyOk && s.shtReady,
       wdtChannel := if s.earlyOk then WdtChannel(cfg, s.wdt) else d.wdtChannel)
  }

  /** StartApp up to its main loop. A start that gives up leaves a device on which no callback ever runs. */
  function Start(cfg: Config, d: Device, s: StartInput): Outcome {
    var e := Initialised(cfg, d, s);
    var fx := BootFx(cfg, d.mem, d.resetReas, s);
    if !(s.earlyOk && s.lateOk) then Outcome(e.(halted := true), fx)
    else
      var o := Sampled(cfg, e, s.sample, true);
      Outcome(o.d, fx + o.fx)
  }

  /** Init, whose Matter stack may already fail to prepare: then it returns before DiagOnBoot. */
  function Inited(cfg: Config, d: Device, start: Option<StartInput>): Outcome {
    if start.None? then Outcome(d, [])
    else Outcome(Initialised(cfg, d, start.value), BootFx(cfg, d.mem, d.resetReas, start.value))
  }

  /** StartApp, whose Matter stack may already fail to prepare: then it returns before DiagOnBoot. */
  function Begin(cfg: Config, d: Device, start: Option<StartInput>): Outcome {
    if start.None? then Outcome(d.(halted := true), []) else Start(cfg, d, start.value)
  }

  // ----- Runs -----

  /** A callback on the Matter thread, or one turn of the main loop (which feeds the watchdog). */
  datatype Step = PolicyStep(p: PolicyInput) | SampleStep(s: SampleInput) | LoopStep(ms: int)

  function Next(cfg: Config, d: Device, st: Step): Outcome {
    if d.halted then Outcome(d, [])
    else
      match st
      case PolicyStep(p) => Policy(cfg, d, p)
      case SampleStep(s) => Sample(cfg, d, s)
      case LoopStep(ms) => Outcome(d, FeedFx(cfg, d.wdtChannel, ms))
  }

  function Run(cfg: Config, d: Device, steps: seq<Step>): Outcome {
    if steps == [] then Outcome(d, [])
    else
      var o := Run(cfg, d, steps[..|steps| - 1]);
      var n := Next(cfg, o.d, steps[|steps| - 1]);
      Outcome(n.d, o.fx + n.fx)
  }

  /** How the device came to boot: power was applied, or it was reset for the given reasons. */
  datatype Reset = PowerOn | Caused(bits: Reasons)

  /**
   * One boot. `wiped`: the settings partition was erased beforehand. `radioDbm`: the radio's power after reset.
   * `start` is None when the device resets or gives up before DiagOnBoot.
   */
  datatype BootRun = BootRun(reset: Reset, wiped: bool, radioDbm: int, start: Option<StartInput>, steps: seq<Step>)

  /** RAM at its initial values. */
  function Fresh(flash: Store, resetReas: Reasons, radioDbm: int): Device {
    Device(UNLINKED, A.RESTED, S.UNSEEN, 0, 0, false, 0, -1, COLD, Mem(ZERO, flash), resetReas, radioDbm, false)
  }

  /** The sticky register after a reset: reasons accumulate until they are cleared or power is lost. */
  function Register(reas: Reasons, reset: Reset): Reasons {
    if reset.PowerOn? then {} else reas + reset.bits
  }

  /** Reset: RAM is lost; flash stays unless wiped. */
  function PowerUp(d: Device, b: BootRun): Device {
    Fresh(if b.wiped then map[] else d.mem.flash,
          Register(d.resetReas, b.reset),
          b.radioDbm)
  }

  function Launch(cfg: Config, d: Device, b: BootRun): Outcome {
    Begin(cfg, PowerUp(d, b), b.start)
  }

  function Boot(cfg: Config, d: Device, b: BootRun): Outcome {
    var l := Launch(cfg, d, b);
    var r := Run(cfg, l.d, b.steps);
    Outcome(r.d, l.fx + r.fx)
  }

  /** The device after any number of boots. */
  function Life(cfg: Config, d: Device, boots: seq<BootRun>): Outcome {
    if boots == [] then Outcome(d, [])
    else
      var o := Life(cfg, d, boots[..|boots| - 1]);
      var b := Boot(cfg, o.d, boots[|boots| - 1]);
      Outcome(b.d, o.fx + b.fx)
  }
}
