/** What the commissioning and Thread policy guarantees over a whole boot of the whole machine. */
module PolicyTheorems {
  import opened Base
  import opened Effects
  import opened ThreadLink
  import A = Awake
  import opened Machine
  import opened Projection

  /** What a boot does to radio and ICD manager, as the policy's own lists of writes and kicks. */
  lemma BootRadioAndKicks(cfg: Config, d: Device, b: BootRun)
    ensures var o, ticks := Boot(cfg, d, b), LiveTicks(cfg, d, b);
            && o.d.awake == A.Run(cfg.postDbm, ticks)
            && Only(o.fx, {RadioWrites}) == A.WritesOf(cfg.postDbm, ticks)
            && Times(o.fx, Kicks) == A.KickTimes(cfg.postDbm, ticks)
  {
    BootPolicy(cfg, d, b);
    A.TraceSplits(cfg.postDbm, LiveTicks(cfg, d, b));
  }

  /**
   * The hold of any tick, and its kick, are what the window history says: hold while the window is open or was
   * seen to close less than the grace period ago; a kick when hold meets a whole period without one.
   */
  lemma HoldAndKickMatchHistory(cfg: Config, d: Device, b: BootRun, t: A.Tick)
    requires A.Ordered(LiveTicks(cfg, d, b) + [t])
    ensures var o, ticks := Boot(cfg, d, b), LiveTicks(cfg, d, b) + [t];
            && (A.Holds(o.d.awake, t) <==> A.HoldNow(ticks))
            && (A.KickDue(o.d.awake, t) <==>
                  && A.HoldNow(ticks) && t.ms >= 1000
                  && forall ms | ms in Times(o.fx, Kicks) :: t.ms - ms >= 1000)
  {
    var ticks := LiveTicks(cfg, d, b) + [t];
    assert ticks[..|ticks| - 1] == LiveTicks(cfg, d, b);
    BootRadioAndKicks(cfg, d, b);
    A.HoldMatchesHistory(cfg.postDbm, ticks);
    A.KickMatchesHistory(cfg.postDbm, ticks);
  }

  /** A boot leaves its radio where a writer without a cache would have put it, and its cache never lies. */
  lemma RadioRefinesNaive(cfg: Config, d: Device, b: BootRun)
    requires cfg.Valid() && A.Ordered(LiveTicks(cfg, d, b))
    ensures Boot(cfg, d, b).d.radioDbm == A.NaivePower(cfg.postDbm, b.radioDbm, LiveTicks(cfg, d, b))
    ensures Boot(cfg, d, b).d.awake.appliedDbm in {A.UNSET_DBM, Boot(cfg, d, b).d.radioDbm}
  {
    BootPolicy(cfg, d, b);
    A.CacheRefinesNaive(cfg.postDbm, b.radioDbm, LiveTicks(cfg, d, b));
  }

  /**
   * If its last tick's radio accepts, a boot leaves it at 8 dBm if the window is open or was seen to close less than
   * three minutes ago, and at the configured power otherwise.
   */
  lemma RadioFollowsWindow(cfg: Config, d: Device, b: BootRun)
    requires cfg.Valid() && A.Ordered(LiveTicks(cfg, d, b)) && LiveTicks(cfg, d, b) != []
    requires var ticks := LiveTicks(cfg, d, b); ticks[|ticks| - 1].radio == A.Accepted
    ensures var ticks := LiveTicks(cfg, d, b);
            var now := ticks[|ticks| - 1];
            Boot(cfg, d, b).d.radioDbm
            == if now.windowOpen || exists j :: A.Closes(ticks, j) && now.ms - ticks[j].ms < 180_000 then 8 else cfg.postDbm
  {
    RadioRefinesNaive(cfg, d, b);
  }

  /** If the radio accepts every write, a boot writes it once, and once more for each change of the desired level. */
  lemma RadioWritesCounted(cfg: Config, d: Device, b: BootRun)
    requires cfg.Valid() && A.Ordered(LiveTicks(cfg, d, b))
    requires forall i | 0 <= i < |LiveTicks(cfg, d, b)| :: LiveTicks(cfg, d, b)[i].radio == A.Accepted
    ensures var ticks := LiveTicks(cfg, d, b);
            |Only(Boot(cfg, d, b).fx, {RadioWrites})| == if ticks == [] then 0 else 1 + A.LevelChanges(cfg.postDbm, ticks)
  {
    BootRadioAndKicks(cfg, d, b);
    A.WritesCountChanges(cfg.postDbm, LiveTicks(cfg, d, b));
  }

  /** A boot never kicks the ICD manager more than once per second of uptime. */
  lemma KicksRateLimited(cfg: Config, d: Device, b: BootRun)
    requires A.Ordered(LiveTicks(cfg, d, b))
    ensures var kicks := Times(Boot(cfg, d, b).fx, Kicks);
            && SpacedBy(0, kicks, 1000)
            && |kicks| * 1000 <= Latest(0, kicks) <= A.LastMs(LiveTicks(cfg, d, b))
  {
    BootRadioAndKicks(cfg, d, b);
    A.KicksAreRateLimited(cfg.postDbm, LiveTicks(cfg, d, b));
  }

  /** Nor much less often while hold lasts: consecutive kicks of a boot are less than a period and a tick gap apart. */
  lemma KicksKeepComing(cfg: Config, d: Device, b: BootRun, gap: int, i: nat)
    requires A.Ordered(LiveTicks(cfg, d, b)) && i + 1 < |Times(Boot(cfg, d, b).fx, Kicks)|
    requires var ticks, kicks := LiveTicks(cfg, d, b), Times(Boot(cfg, d, b).fx, Kicks);
             forall j | 0 < j < |ticks| && kicks[i] <= ticks[j].ms <= kicks[i + 1] ::
               A.HoldNow(ticks[..j + 1]) && ticks[j].ms - ticks[j - 1].ms <= gap
    ensures var kicks := Times(Boot(cfg, d, b).fx, Kicks);
            1000 <= kicks[i + 1] - kicks[i] < 1000 + gap
  {
    BootRadioAndKicks(cfg, d, b);
    A.ConsecutiveKicksAreClose(cfg.postDbm, LiveTicks(cfg, d, b), gap, i);
  }

  /** After a tick with hold active, the trace has a kick less than one period back, unless uptime is shorter. */
  lemma HoldKeepsAwake(cfg: Config, d: Device, b: BootRun)
    requires A.Ordered(LiveTicks(cfg, d, b)) && LiveTicks(cfg, d, b) != [] && A.HoldNow(LiveTicks(cfg, d, b))
    ensures var now := A.LastMs(LiveTicks(cfg, d, b));
            || now < 1000
            || exists ms :: ms in Times(Boot(cfg, d, b).fx, Kicks) && now - 1000 < ms <= now
  {
    BootRadioAndKicks(cfg, d, b);
    A.HoldKeepsAwake(cfg.postDbm, LiveTicks(cfg, d, b));
  }

  /**
   * A tick of a running device reboots it iff diagnostic mode is on, the node is commissioned, and every role observed
   * in this boot since some observation, the earliest of its kind, was DETACHED for strictly longer than the threshold.
   * (A detachment dated at uptime zero does not count.)
   */
  lemma RebootMatchesHistory(cfg: Config, d: Device, b: BootRun, p: PolicyInput)
    requires !Boot(cfg, d, b).d.halted
    ensures var obs := Observations(b.steps) + [p.thread];
            Policy(cfg, Boot(cfg, d, b).d, p).d.halted <==>
              && cfg.diag && p.commissioned
              && exists j :: DetachmentStarts(obs, j) && obs[j].ms > 0 && p.ms - obs[j].ms > cfg.rebootMs
  {
    var obs := Observations(b.steps) + [p.thread];
    RunningBoot(cfg, d, b);
    BootLinkAndGate(cfg, d, b);
    TrackSnoc(Observations(b.steps), p.thread);
    RebootsByTracker(cfg, Boot(cfg, d, b).d, p);
    TrackerMatchesHistory(obs);
    if Track(obs).detached {
      var j :| DetachmentStarts(obs, j);
    }
  }

  lemma RebootsByTracker(cfg: Config, d: Device, p: PolicyInput)
    requires !d.halted
    ensures Policy(cfg, d, p).d.halted <==> RebootDue(cfg, Handle(d.thread, ALL, p.thread), p)
  {
  }

  // ----- A detached node does reboot -----

  /** Time of the latest policy tick, `prevMs` before any. */
  function LastTick(prevMs: int, steps: seq<Step>): int {
    if steps == [] then prevMs
    else if steps[|steps| - 1].PolicyStep? then steps[|steps| - 1].p.ms
    else LastTick(prevMs, steps[..|steps| - 1])
  }

  /** Policy ticks at most `gap` apart that find the node commissioned and see no role but DETACHED. */
  predicate StaysDetached(prevMs: int, steps: seq<Step>, gap: int) {
    steps == []
    || (var n := |steps| - 1;
        && StaysDetached(prevMs, steps[..n], gap)
        && (steps[n].PolicyStep? ==>
              var p, before := steps[n].p, LastTick(prevMs, steps[..n]);
              && p.commissioned && (p.thread.instance ==> p.thread.role == Detached)
              && before <= p.ms <= before + gap))
  }

  /** Still running, and still detached since the same moment. */
  predicate Waits(d: Device, o: Outcome) {
    && !o.d.halted && Times(o.fx, Reboots) == []
    && o.d.thread.detached && o.d.thread.lastRole == Detached && o.d.thread.sinceMs == d.thread.sinceMs
  }

  /** Rebooted, once, after limit and within gap. */
  predicate RebootedAfter(o: Outcome, limit: int, gap: int) {
    o.d.halted && |Times(o.fx, Reboots)| == 1 && limit < Times(o.fx, Reboots)[0] <= limit + gap
  }

  /** Once the node is known to be detached, it runs on up to the threshold and reboots within one tick gap after it. */
  lemma {:induction false} DetachedNodeReboots(cfg: Config, d: Device, prevMs: int, steps: seq<Step>, gap: int)
    requires cfg.diag && !d.halted
    requires d.thread.detached && d.thread.lastRole == Detached && d.thread.sinceMs > 0
    requires prevMs <= d.thread.sinceMs + cfg.rebootMs
    requires StaysDetached(prevMs, steps, gap)
    ensures var limit := d.thread.sinceMs + cfg.rebootMs;
            if LastTick(prevMs, steps) <= limit then Waits(d, Run(cfg, d, steps))
            else RebootedAfter(Run(cfg, d, steps), limit, gap)
  {
    if steps != [] {
      var n := |steps| - 1;
      var o := Run(cfg, d, steps[..n]);
      DetachedNodeReboots(cfg, d, prevMs, steps[..n], gap);
      LastTickGrows(prevMs, steps, gap);
      if o.d.halted {
        assert o.fx + [] == o.fx;
      } else {
        WaitingStep(cfg, d, o, steps[n], LastTick(prevMs, steps[..n]), gap);
      }
    }
  }

  /** One step of a waiting device. */
  lemma WaitingStep(cfg: Config, d: Device, o: Outcome, st: Step, before: int, gap: int)
    requires cfg.diag && d.thread.sinceMs > 0 && Waits(d, o) && before <= d.thread.sinceMs + cfg.rebootMs
    requires st.PolicyStep? ==>
               st.p.commissioned && (st.p.thread.instance ==> st.p.thread.role == Detached)
               && before <= st.p.ms <= before + gap
    ensures var limit, n := d.thread.sinceMs + cfg.rebootMs, Next(cfg, o.d, st);
            if st.PolicyStep? && st.p.ms > limit then RebootedAfter(Outcome(n.d, o.fx + n.fx), limit, gap)
            else Waits(d, Outcome(n.d, o.fx + n.fx))
  {
    NextReboots(cfg, o.d, st);
    NextParts(cfg, o.d, st);
    TimesConcat(o.fx, Next(cfg, o.d, st).fx, Reboots);
  }

  lemma LastTickGrows(prevMs: int, steps: seq<Step>, gap: int)
    requires steps != [] && StaysDetached(prevMs, steps, gap)
    ensures LastTick(prevMs, steps[..|steps| - 1]) <= LastTick(prevMs, steps)
  {
  }

  /** Only a policy tick reboots, and it stamps the reboot with its own first clock read. */
  lemma NextReboots(cfg: Config, d: Device, st: Step)
    ensures var n := Next(cfg, d, st);
            Times(n.fx, Reboots) ==
              if !d.halted && st.PolicyStep? && RebootDue(cfg, Handle(d.thread, ALL, st.p.thread), st.p) then [st.p.ms] else []
    ensures Next(cfg, d, st).d.halted <==>
              d.halted || (st.PolicyStep? && RebootDue(cfg, Handle(d.thread, ALL, st.p.thread), st.p))
  {
    if !d.halted {
      match st
      case PolicyStep(p) => PolicyReboots(cfg, d, p);
      case SampleStep(s) =>
        SampleKinds(cfg, d, s);
        TimesNone(Sample(cfg, d, s).fx, {Saves, Climates, Batteries, Healths, Feeds}, Reboots);
      case LoopStep(ms) => TimesNone(FeedFx(cfg, d.wdtChannel, ms), {Feeds}, Reboots);
    }
  }

  lemma TailReboots(cfg: Config, d: Device, p: PolicyInput)
    ensures Times(RebootOrSnap(cfg, d, p).fx, Reboots) == if RebootDue(cfg, d.thread, p) then [p.ms] else []
  {
    if RebootDue(cfg, d.thread, p) {
      TimesSingle(Reboot(p.ms), Reboots);
    } else {
      TimesNone(Snapped(cfg, d, p.healthMs, p.saves).fx, {Saves, Healths}, Reboots);
    }
  }

  lemma PolicyReboots(cfg: Config, d: Device, p: PolicyInput)
    ensures Times(Policy(cfg, d, p).fx, Reboots)
            == if RebootDue(cfg, Handle(d.thread, ALL, p.thread), p) then [p.ms] else []
  {
    var a := Linked(cfg, d, ALL, p.thread, p.saves);
    var b := Held(cfg, a.d, TickOf(p));
    TickedKinds(cfg, d, p);
    TickedKinds(cfg, a.d, p);
    PolicyParts(cfg, d, p, {}, Reboots);
    TimesNone(a.fx, {Saves}, Reboots);
    TimesNone(b.fx, {RadioWrites, Kicks}, Reboots);
    TailReboots(cfg, b.d, p);
  }
}
