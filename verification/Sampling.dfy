/** The sampling gate and what it means for the watchdog. */
module Sampling {
  import opened Base

  const SAMPLE_PERIOD_MS := 60000
  const COMMISSION_GRACE_MS := 30000

  /** One call of UpdateSensorReadings: its argument, and the fabric table and clock it reads. */
  datatype Call = Call(force: bool, commissioned: bool, ms: int)

  datatype Gate = Gate(wasCommissioned: bool, commissionedAtMs: int)

  const UNSEEN := Gate(false, 0)

  function Observe(g: Gate, c: Call): Gate {
    if c.commissioned == g.wasCommissioned then g
    else Gate(c.commissioned, if c.commissioned then c.ms else 0)
  }

  /** Whether a call that finds gate g goes on to the sensor. */
  predicate Passes(g: Gate, c: Call) {
    var at := Observe(g, c).commissionedAtMs;
    c.force || (c.commissioned && !(at > 0 && c.ms - at < COMMISSION_GRACE_MS))
  }

  /** The gate over the calls of one boot. */
  function Run(calls: seq<Call>): Gate {
    if calls == [] then UNSEEN else Observe(Run(calls[..|calls| - 1]), calls[|calls| - 1])
  }

  ghost predicate Ordered(calls: seq<Call>) {
    && (forall i | 0 <= i < |calls| :: 0 <= calls[i].ms)
    && forall i, j | 0 <= i <= j < |calls| :: calls[i].ms <= calls[j].ms
  }

  /** Call j is the first to see the node commissioned again. */
  predicate Joins(calls: seq<Call>, j: int) {
    0 <= j < |calls| && calls[j].commissioned && (j == 0 || !calls[j - 1].commissioned)
  }

  lemma {:induction false} GateIsLatestJoin(calls: seq<Call>)
    requires Ordered(calls)
    ensures var g := Run(calls);
            && (g.wasCommissioned <==> calls != [] && calls[|calls| - 1].commissioned)
            && (!g.wasCommissioned ==> g.commissionedAtMs == 0)
            && (g.wasCommissioned ==> exists j :: Joins(calls, j) && g.commissionedAtMs == calls[j].ms)
            && (g.wasCommissioned ==> forall j | Joins(calls, j) :: calls[j].ms <= g.commissionedAtMs)
  {
    if calls != [] {
      var n := |calls| - 1;
      var front := calls[..n];
      GateIsLatestJoin(front);
      forall j ensures Joins(calls, j) <==> Joins(front, j) || (j == n && Joins(calls, n)) {
      }
    }
  }

  /** The history definition: the last call is forced, or commissioned with no commissioning seen in the last 30 s. */
  predicate PassesByHistory(calls: seq<Call>)
    requires calls != []
  {
    var now := calls[|calls| - 1];
    || now.force
    || (now.commissioned && forall j | 0 <= j < |calls| && Joins(calls, j) && calls[j].ms > 0 :: now.ms - calls[j].ms >= 30_000)
  }

  /**
   * The gate equals its history definition: a periodic call goes through iff the node is commissioned
   * and no commissioning was observed within the grace period. (One observed at uptime zero is ignored.)
   */
  lemma GateMatchesHistory(calls: seq<Call>)
    requires Ordered(calls) && calls != []
    ensures var n := |calls| - 1;
            Passes(Run(calls[..n]), calls[n]) <==> PassesByHistory(calls)
  {
    GateIsLatestJoin(calls);
  }

  /** Periodic calls on a commissioned node that the gate turns away. */
  function Lost(calls: seq<Call>): nat {
    if calls == [] then 0
    else
      var n := |calls| - 1;
      Lost(calls[..n])
      + if !calls[n].force && calls[n].commissioned && !Passes(Run(calls[..n]), calls[n]) then 1 else 0
  }

  /** Commissionings first observed by a periodic call. */
  function PeriodicJoins(calls: seq<Call>): nat {
    if calls == [] then 0
    else
      var n := |calls| - 1;
      PeriodicJoins(calls[..n]) + if !calls[n].force && Joins(calls, n) then 1 else 0
  }

  /** With calls at least a grace period apart, the gate turns away exactly the calls that observe a commissioning. */
  lemma JoinIsTurnedAway(calls: seq<Call>)
    requires Ordered(calls) && calls != [] && calls[|calls| - 1].ms > 0
    requires |calls| > 1 ==> calls[|calls| - 1].ms - calls[|calls| - 2].ms >= COMMISSION_GRACE_MS
    ensures var n := |calls| - 1;
            Joins(calls, n) <==>
              calls[n].commissioned && !Passes(Run(calls[..n]), Call(false, calls[n].commissioned, calls[n].ms))
  {
    var n := |calls| - 1;
    GateTime(calls[..n]);
  }

  lemma {:induction false} GateTime(calls: seq<Call>)
    requires Ordered(calls)
    ensures Run(calls).wasCommissioned <==> calls != [] && calls[|calls| - 1].commissioned
    ensures calls != [] ==> Run(calls).commissionedAtMs <= calls[|calls| - 1].ms
    ensures !Run(calls).wasCommissioned ==> Run(calls).commissionedAtMs == 0
  {
    if calls != [] {
      GateTime(calls[..|calls| - 1]);
    }
  }

  /** So every commissioning a periodic call observes costs exactly one sample. */
  lemma {:induction false} EachJoinCostsOneSample(calls: seq<Call>)
    requires Ordered(calls)
    requires forall i | 0 <= i < |calls| :: calls[i].ms > 0
    requires forall i | 0 < i < |calls| :: calls[i].ms - calls[i - 1].ms >= COMMISSION_GRACE_MS
    ensures Lost(calls) == PeriodicJoins(calls)
  {
    if calls != [] {
      EachJoinCostsOneSample(calls[..|calls| - 1]);
      JoinIsTurnedAway(calls);
    }
  }

  // ----- Feeding the watchdog -----

  /**
   * What may feed the watchdog: one firing of the sampling timer, with its gate call, whether the sensor answers and
   * when the round ends; or one turn of the main loop.
   */
  datatype Turn = Round(call: Call, works: bool, endMs: int) | Loop(ms: int)

  function GateAfter(g: Gate, turns: seq<Turn>): Gate {
    if turns == [] then g
    else
      var before, t := GateAfter(g, turns[..|turns| - 1]), turns[|turns| - 1];
      if t.Round? then Observe(before, t.call) else before
  }

  /** Whether a round that finds gate g publishes. */
  predicate Succeeds(g: Gate, t: Turn)
    requires t.Round?
  {
    Passes(g, t.call) && t.works
  }

  /** The watchdog is fed at the end of the rounds that publish, and at every turn of the main loop. */
  function FeedTimes(g: Gate, turns: seq<Turn>): seq<int> {
    if turns == [] then []
    else
      var front, t := turns[..|turns| - 1], turns[|turns| - 1];
      match t
      case Round(_, _, endMs) =>
        if Succeeds(GateAfter(g, front), t) then FeedTimes(g, front) + [endMs] else FeedTimes(g, front)
      case Loop(ms) => FeedTimes(g, front) + [ms]
  }

  /** A watchdog fed at `first` and then by `feeds` has never waited a whole timeout, and has not expired by `until`. */
  predicate Survives(first: int, feeds: seq<int>, until: int, timeoutMs: int) {
    NeverLate(first, feeds, timeoutMs) && until - Latest(first, feeds) < timeoutMs
  }

  /** When the latest round began. */
  function LastRound(sinceMs: int, turns: seq<Turn>): int {
    if turns == [] then sinceMs
    else if turns[|turns| - 1].Round? then turns[|turns| - 1].call.ms
    else LastRound(sinceMs, turns[..|turns| - 1])
  }

  /** Rounds begin at most p apart and take at most l; no loop turn comes later than the next round may end. */
  predicate Regular(sinceMs: int, turns: seq<Turn>, p: int, l: int) {
    turns == []
    || (var n := |turns| - 1;
        var last := LastRound(sinceMs, turns[..n]);
        && Regular(sinceMs, turns[..n], p, l)
        && match turns[n]
           case Round(call, _, endMs) => last <= call.ms <= last + p && call.ms <= endMs <= call.ms + l
           case Loop(ms) => last <= ms <= last + p + l)
  }

  lemma {:induction false} RegularStart(sinceMs: int, turns: seq<Turn>, p: int, l: int)
    requires Regular(sinceMs, turns, p, l)
    ensures sinceMs <= LastRound(sinceMs, turns)
    ensures forall i | 0 <= i < |turns| && turns[i].Round? :: sinceMs <= turns[i].call.ms
  {
    if turns != [] {
      RegularStart(sinceMs, turns[..|turns| - 1], p, l);
    }
  }

  /** Every round finds the node commissioned and the sensor working. */
  predicate Working(turns: seq<Turn>) {
    forall i | 0 <= i < |turns| && turns[i].Round? :: turns[i].call.commissioned && turns[i].works
  }

  /** Any two rounds are at least a grace period apart. */
  predicate Apart(turns: seq<Turn>) {
    forall i, j | 0 <= i < j < |turns| && turns[i].Round? && turns[j].Round? ::
      turns[j].call.ms - turns[i].call.ms >= COMMISSION_GRACE_MS
  }

  /** How many of the latest rounds in a row have published nothing. */
  function Misses(g: Gate, turns: seq<Turn>): nat {
    if turns == [] then 0
    else
      var front, t := turns[..|turns| - 1], turns[|turns| - 1];
      if t.Loop? then Misses(g, front)
      else if Succeeds(GateAfter(g, front), t) then 0
      else Misses(g, front) + 1
  }

  /** Never more than k rounds in a row publish nothing. */
  predicate MissesAtMost(g: Gate, turns: seq<Turn>, k: nat) {
    Misses(g, turns) <= k && (turns == [] || MissesAtMost(g, turns[..|turns| - 1], k))
  }

  /** One more feed, when the latest one is at most w older than the latest round. */
  lemma FeedInTime(first: int, feeds: seq<int>, t: int, last: int, w: int, slack: int, timeoutMs: int)
    requires NeverLate(first, feeds, timeoutMs) && last - Latest(first, feeds) <= w
    requires t <= last + slack && timeoutMs > w + slack
    ensures NeverLate(first, feeds + [t], timeoutMs) && Latest(first, feeds + [t]) == t
  {
    NeverLateAppend(first, feeds, t, timeoutMs);
  }

  /** If at most k rounds in a row publish nothing, the latest feed is at most one round gap per miss old. */
  lemma {:induction false} MissesDelayFeeds(g: Gate, sinceMs: int, fedMs: int, turns: seq<Turn>,
                                            p: int, l: int, k: nat, timeoutMs: int)
    requires sinceMs <= fedMs && 0 <= p && 0 <= l && timeoutMs > Portions(k, p) + p + l
    requires Regular(sinceMs, turns, p, l) && MissesAtMost(g, turns, k)
    ensures NeverLate(fedMs, FeedTimes(g, turns), timeoutMs)
    ensures LastRound(sinceMs, turns) - Latest(fedMs, FeedTimes(g, turns)) <= Portions(Misses(g, turns), p)
  {
    if turns != [] {
      var front, t := turns[..|turns| - 1], turns[|turns| - 1];
      MissesDelayFeeds(g, sinceMs, fedMs, front, p, l, k, timeoutMs);
      PortionsGrow(Misses(g, front), k, p);
      PortionsGrow(0, Misses(g, front), p);
      if FeedTimes(g, turns) != FeedTimes(g, front) {
        FeedInTime(fedMs, FeedTimes(g, front), if t.Round? then t.endMs else t.ms,
                   LastRound(sinceMs, front), Portions(k, p), p + l, timeoutMs);
      }
    }
  }

  /**
   * Whatever makes rounds publish nothing, be it the sensor, the gate or a lost fabric: while no more than k in a row
   * do, feeds are at most k + 1 round gaps and one latency apart and no longer timeout expires.
   */
  lemma MissesTolerated(g: Gate, sinceMs: int, fedMs: int, turns: seq<Turn>,
                        p: int, l: int, k: nat, until: int, timeoutMs: int)
    requires sinceMs <= fedMs && 0 <= p && 0 <= l && timeoutMs > (k + 1) * p + l
    requires Regular(sinceMs, turns, p, l) && MissesAtMost(g, turns, k)
    requires until <= LastRound(sinceMs, turns) + p + l
    ensures Survives(fedMs, FeedTimes(g, turns), until, timeoutMs)
  {
    PortionsAreProduct(k, p);
    PortionsAreProduct(k + 1, p);
    MissesDelayFeeds(g, sinceMs, fedMs, turns, p, l, k, timeoutMs);
    PortionsGrow(Misses(g, turns), k, p);
  }

  /** The gate costs a working node with spaced rounds one of them at the most, even if it was commissioned just now. */
  lemma {:induction false} GateMissesOnce(g: Gate, turns: seq<Turn>)
    requires Working(turns) && Apart(turns)
    requires forall i | 0 <= i < |turns| && turns[i].Round? :: g.commissionedAtMs <= turns[i].call.ms
    ensures MissesAtMost(g, turns, 1)
    ensures if exists i :: 0 <= i < |turns| && turns[i].Round? then
              && GateAfter(g, turns).wasCommissioned
              && exists i :: 0 <= i < |turns| && turns[i].Round? && GateAfter(g, turns).commissionedAtMs <= turns[i].call.ms
            else GateAfter(g, turns) == g && Misses(g, turns) == 0
  {
    if turns != [] {
      var n := |turns| - 1;
      GateMissesOnce(g, turns[..n]);
      if i :| 0 <= i < n && turns[..n][i].Round? && GateAfter(g, turns[..n]).commissionedAtMs <= turns[..n][i].call.ms {
        assert turns[i].Round?;
      } else if turns[n].Round? {
        assert Misses(g, turns[..n]) == 0;
      }
    }
  }

  /** The node is commissioned, and at `sinceMs` its grace period, if one is running at all, is over. */
  predicate Settled(g: Gate, sinceMs: int) {
    g.wasCommissioned && (g.commissionedAtMs > 0 ==> sinceMs - g.commissionedAtMs >= COMMISSION_GRACE_MS)
  }

  /** From then on a working node loses no round. */
  lemma {:induction false} SettledGateMissesNone(g: Gate, sinceMs: int, turns: seq<Turn>)
    requires Settled(g, sinceMs) && Working(turns)
    requires forall i | 0 <= i < |turns| && turns[i].Round? :: sinceMs <= turns[i].call.ms
    ensures MissesAtMost(g, turns, 0) && GateAfter(g, turns) == g
  {
    if turns != [] {
      SettledGateMissesNone(g, sinceMs, turns[..|turns| - 1]);
    }
  }

  /** So gap plus latency is enough. */
  lemma SettledNodeSurvives(g: Gate, sinceMs: int, fedMs: int, turns: seq<Turn>, p: int, l: int, until: int, timeoutMs: int)
    requires Settled(g, sinceMs) && sinceMs <= fedMs && 0 <= p && 0 <= l
    requires Working(turns) && Regular(sinceMs, turns, p, l)
    requires until <= LastRound(sinceMs, turns) + p + l && timeoutMs > p + l
    ensures MissesAtMost(g, turns, 0)
    ensures Survives(fedMs, FeedTimes(g, turns), until, timeoutMs)
  {
    RegularStart(sinceMs, turns, p, l);
    SettledGateMissesNone(g, sinceMs, turns);
    MissesTolerated(g, sinceMs, fedMs, turns, p, l, 0, until, timeoutMs);
  }

  /** The same when only the first round is a whole grace period later. */
  lemma SpacedNodeSurvives(g: Gate, sinceMs: int, fedMs: int, turns: seq<Turn>, p: int, l: int, until: int, timeoutMs: int)
    requires g.wasCommissioned && g.commissionedAtMs <= sinceMs <= fedMs && 0 <= p && 0 <= l
    requires Working(turns) && Regular(sinceMs, turns, p, l)
    requires forall i | 0 <= i < |turns| && turns[i].Round? :: turns[i].call.ms - sinceMs >= COMMISSION_GRACE_MS
    requires until <= LastRound(sinceMs, turns) + p + l && timeoutMs > p + l
    ensures MissesAtMost(g, turns, 0)
    ensures Survives(fedMs, FeedTimes(g, turns), until, timeoutMs)
  {
    SettledGateMissesNone(g, sinceMs + COMMISSION_GRACE_MS, turns);
    MissesTolerated(g, sinceMs, fedMs, turns, p, l, 0, until, timeoutMs);
  }

  /** A healthy node's latest feed is no older than its latest round, except within a grace period of the start. */
  lemma {:induction false} HealthyNodeFeeds(g: Gate, sinceMs: int, fedMs: int, turns: seq<Turn>, p: int, l: int, timeoutMs: int)
    requires g.wasCommissioned && g.commissionedAtMs <= sinceMs <= fedMs && 0 <= p && 0 <= l
    requires Working(turns) && Regular(sinceMs, turns, p, l) && timeoutMs >= COMMISSION_GRACE_MS + p + l
    ensures var last, latest := LastRound(sinceMs, turns), Latest(fedMs, FeedTimes(g, turns));
            && NeverLate(fedMs, FeedTimes(g, turns), timeoutMs)
            && GateAfter(g, turns) == g
            && sinceMs <= last && sinceMs <= latest
            && (last - sinceMs >= COMMISSION_GRACE_MS ==> last <= latest)
  {
    if turns != [] {
      var front, t := turns[..|turns| - 1], turns[|turns| - 1];
      HealthyNodeFeeds(g, sinceMs, fedMs, front, p, l, timeoutMs);
      if FeedTimes(g, turns) != FeedTimes(g, front) {
        FeedInTime(fedMs, FeedTimes(g, front), if t.Round? then t.endMs else t.ms,
                   LastRound(sinceMs, front), COMMISSION_GRACE_MS - 1, p + l, timeoutMs);
      }
    }
  }

  /** Exactly periodic rounds with no latency, as the 60 s timer would give, and nothing else. */
  ghost predicate Periodic(sinceMs: int, turns: seq<Turn>) {
    forall i | 0 <= i < |turns| ::
      turns[i] == Round(Call(false, true, sinceMs + (i + 1) * SAMPLE_PERIOD_MS), true, sinceMs + (i + 1) * SAMPLE_PERIOD_MS)
  }

  lemma {:induction false} PeriodicIsRegular(sinceMs: int, turns: seq<Turn>)
    requires Periodic(sinceMs, turns)
    ensures Regular(sinceMs, turns, SAMPLE_PERIOD_MS, 0)
  {
    if turns != [] {
      PeriodicIsRegular(sinceMs, turns[..|turns| - 1]);
    }
  }

  /**
   * On that timer alone a healthy node keeps its watchdog iff the timeout exceeds the sampling period,
   * so of the configurable timeouts (30 s to 3600 s) those up to 60 s reset a healthy node.
   */
  lemma {:induction false} PeriodicSurvivesIff(g: Gate, sinceMs: int, turns: seq<Turn>, timeoutMs: int)
    requires g.wasCommissioned && g.commissionedAtMs <= sinceMs
    requires Periodic(sinceMs, turns) && turns != []
    ensures Survives(sinceMs, FeedTimes(g, turns), LastRound(sinceMs, turns), timeoutMs)
            <==> timeoutMs > 60_000
  {
    if timeoutMs > SAMPLE_PERIOD_MS {
      PeriodicIsRegular(sinceMs, turns);
      SpacedNodeSurvives(g, sinceMs, sinceMs, turns, SAMPLE_PERIOD_MS, 0, LastRound(sinceMs, turns), timeoutMs);
    } else {
      FirstFeed(g, turns);
      FirstGap(sinceMs, FeedTimes(g, turns), timeoutMs);
    }
  }

  lemma {:induction false} FirstGap(first: int, feeds: seq<int>, timeoutMs: int)
    requires feeds != []
    ensures NeverLate(first, feeds, timeoutMs) ==> feeds[0] - first < timeoutMs
  {
    if |feeds| > 1 {
      FirstGap(first, feeds[..|feeds| - 1], timeoutMs);
    }
  }

  lemma {:induction false} FirstFeed(g: Gate, turns: seq<Turn>)
    requires turns != [] && turns[0].Round? && Succeeds(g, turns[0])
    ensures FeedTimes(g, turns) != [] && FeedTimes(g, turns)[0] == turns[0].endMs
  {
    var n := |turns| - 1;
    if n > 0 {
      FirstFeed(g, turns[..n]);
    } else {
      assert turns[..n] == [];
    }
  }

  // ----- The sensor values -----

  /** `static_cast<int16_t>` and `static_cast<uint16_t>`. */
  function ToInt16(x: int): int {
    (x + 0x8000) % 0x1_0000 - 0x8000
  }

  function ToUint16(x: int): int {
    x % 0x1_0000
  }

  /** Both keep the low 16 bits, one as a signed number. */
  lemma CastsKeepLowBits(x: int)
    ensures -0x8000 <= ToInt16(x) < 0x8000 && (ToInt16(x) - x) % 0x1_0000 == 0
    ensures 0 <= ToUint16(x) < 0x1_0000 && (ToUint16(x) - x) % 0x1_0000 == 0
  {
    var y := x + 0x8000;
    assert y == y / 0x1_0000 * 0x1_0000 + y % 0x1_0000;
    assert x == x / 0x1_0000 * 0x1_0000 + x % 0x1_0000;
  }
}
