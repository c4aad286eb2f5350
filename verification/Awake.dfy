/** The commissioning policy: awake hold, cached radio power and ICD kicks. */
module Awake {
  import opened Base
  import opened Effects

  const POST_CLOSE_GRACE_MS := 180000
  const KICK_PERIOD_MS := 1000
  const COMMISSIONING_DBM := 8
  const UNSET_DBM := -128

  /** Outcome of one attempt to set the radio power. */
  datatype Radio = NoInstance | Refused | Accepted

  /** What the policy reads during one tick. */
  datatype Tick = Tick(ms: int, windowOpen: bool, radio: Radio)

  datatype AwakeState = AwakeState(windowOpen: bool, stayAwakeUntilMs: int, lastKickMs: int, appliedDbm: int)

  const RESTED := AwakeState(false, 0, 0, UNSET_DBM)

  function TrackWindow(a: AwakeState, t: Tick): AwakeState {
    if t.windowOpen == a.windowOpen then a
    else a.(windowOpen := t.windowOpen,
            stayAwakeUntilMs := if t.windowOpen then 0 else t.ms + POST_CLOSE_GRACE_MS)
  }

  /** Whether the hold is active in a tick that finds state a. */
  predicate Holds(a: AwakeState, t: Tick) {
    t.windowOpen || TrackWindow(a, t).stayAwakeUntilMs > t.ms
  }

  function Level(postDbm: int, hold: bool): int {
    if hold then COMMISSIONING_DBM else postDbm
  }

  function ApplyTx(a: AwakeState, dbm: int, radio: Radio): AwakeState {
    if a.appliedDbm != dbm && radio == Accepted then a.(appliedDbm := dbm) else a
  }

  function TxFx(a: AwakeState, dbm: int, radio: Radio): Trace {
    if a.appliedDbm == dbm || radio == NoInstance then [] else [RadioWrite(dbm, radio == Accepted)]
  }

  predicate KickDue(a: AwakeState, t: Tick) {
    Holds(a, t) && t.ms - a.lastKickMs >= KICK_PERIOD_MS
  }

  /** State after one tick, and what the tick does to radio and ICD manager. */
  function Next(postDbm: int, a: AwakeState, t: Tick): AwakeState {
    var b := ApplyTx(TrackWindow(a, t), Level(postDbm, Holds(a, t)), t.radio);
    if KickDue(a, t) then b.(lastKickMs := t.ms) else b
  }

  function Fx(postDbm: int, a: AwakeState, t: Tick): Trace {
    TxFx(a, Level(postDbm, Holds(a, t)), t.radio) + if KickDue(a, t) then [Kick(t.ms)] else []
  }

  /** Radio power after a tick that finds it at dbm. */
  function Radiated(postDbm: int, dbm: int, a: AwakeState, t: Tick): int {
    var level := Level(postDbm, Holds(a, t));
    if a.appliedDbm != level && t.radio == Accepted then level else dbm
  }

  /** The policy over the ticks of one boot. */
  function Run(postDbm: int, ticks: seq<Tick>): AwakeState {
    if ticks == [] then RESTED
    else Next(postDbm, Run(postDbm, ticks[..|ticks| - 1]), ticks[|ticks| - 1])
  }

  function RunFx(postDbm: int, ticks: seq<Tick>): Trace {
    if ticks == [] then []
    else
      var front := ticks[..|ticks| - 1];
      RunFx(postDbm, front) + Fx(postDbm, Run(postDbm, front), ticks[|ticks| - 1])
  }

  /** Time of the latest tick, zero before the first. */
  function LastMs(ticks: seq<Tick>): int {
    if ticks == [] then 0 else ticks[|ticks| - 1].ms
  }

  /** Uptime is never negative and never goes back. */
  predicate Ordered(ticks: seq<Tick>) {
    ticks == []
    || (Ordered(ticks[..|ticks| - 1]) && LastMs(ticks[..|ticks| - 1]) <= ticks[|ticks| - 1].ms)
  }

  lemma {:induction false} OrderedPrefix(ticks: seq<Tick>, n: nat)
    requires Ordered(ticks) && n <= |ticks|
    ensures Ordered(ticks[..n]) && 0 <= LastMs(ticks[..n]) <= LastMs(ticks)
    decreases |ticks|
  {
    if n < |ticks| {
      OrderedPrefix(ticks[..|ticks| - 1], n);
      assert ticks[..|ticks| - 1][..n] == ticks[..n];
    } else {
      assert ticks[..n] == ticks;
      if ticks != [] {
        OrderedPrefix(ticks[..|ticks| - 1], 0);
      }
    }
  }

  // ----- The awake hold -----

  /** Tick j is the first to find the window closed again. */
  predicate Closes(ticks: seq<Tick>, j: int) {
    0 < j < |ticks| && ticks[j - 1].windowOpen && !ticks[j].windowOpen
  }

  /** The history definition of the hold at the last tick. */
  ghost predicate HoldNow(ticks: seq<Tick>)
    requires ticks != []
  {
    var now := ticks[|ticks| - 1];
    now.windowOpen || exists j :: Closes(ticks, j) && now.ms - ticks[j].ms < 180_000
  }

  /** Grace granted by the closings seen so far: the deadline of the latest one, zero if there is none. */
  function Deadline(ticks: seq<Tick>): int {
    if ticks == [] then 0
    else if Closes(ticks, |ticks| - 1) then LastMs(ticks) + POST_CLOSE_GRACE_MS
    else Deadline(ticks[..|ticks| - 1])
  }

  lemma {:induction false} DeadlineIsLatestEdge(ticks: seq<Tick>)
    requires Ordered(ticks)
    ensures Deadline(ticks) <= LastMs(ticks) + POST_CLOSE_GRACE_MS
    ensures Deadline(ticks) == 0 || exists j :: Closes(ticks, j) && Deadline(ticks) == ticks[j].ms + POST_CLOSE_GRACE_MS
    ensures forall j | Closes(ticks, j) :: Deadline(ticks) >= ticks[j].ms + POST_CLOSE_GRACE_MS
  {
    if ticks != [] {
      var n := |ticks| - 1;
      var front := ticks[..n];
      DeadlineIsLatestEdge(front);
      forall j ensures Closes(ticks, j) <==> Closes(front, j) || (j == n && Closes(ticks, n)) {
      }
    }
  }

  /** The one stored deadline always is that of the latest closing, or zero while the window is open. */
  lemma {:induction false} StoredDeadline(postDbm: int, ticks: seq<Tick>)
    ensures var a := Run(postDbm, ticks);
            && a.windowOpen == (ticks != [] && ticks[|ticks| - 1].windowOpen)
            && a.stayAwakeUntilMs == if a.windowOpen then 0 else Deadline(ticks)
  {
    if ticks != [] {
      StoredDeadline(postDbm, ticks[..|ticks| - 1]);
    }
  }

  /** Hold is active iff the window is open, or some observed closing is less than the grace period old. */
  lemma HoldMatchesHistory(postDbm: int, ticks: seq<Tick>)
    requires Ordered(ticks) && ticks != []
    ensures Holds(Run(postDbm, ticks[..|ticks| - 1]), ticks[|ticks| - 1]) <==> HoldNow(ticks)
  {
    StoredDeadline(postDbm, ticks);
    DeadlineIsLatestEdge(ticks);
    OrderedPrefix(ticks, |ticks| - 1);
  }

  // ----- Radio power -----

  /** The power the last tick asks for: 8 dBm while the history says hold, the configured power otherwise. */
  ghost function Wanted(postDbm: int, ticks: seq<Tick>): int
    requires ticks != []
  {
    if HoldNow(ticks) then 8 else postDbm
  }

  /** A writer without a cache: it asks the radio for that power on every tick. */
  ghost function NaivePower(postDbm: int, dbm: int, ticks: seq<Tick>): int {
    if ticks == [] then dbm
    else if ticks[|ticks| - 1].radio == Accepted then Wanted(postDbm, ticks)
    else NaivePower(postDbm, dbm, ticks[..|ticks| - 1])
  }

  /** The cached writer leaves the radio at the same power after every tick, and its cache never lies. */
  lemma {:induction false} CacheRefinesNaive(postDbm: int, dbm: int, ticks: seq<Tick>)
    requires Ordered(ticks) && postDbm != UNSET_DBM
    ensures Power(dbm, RunFx(postDbm, ticks)) == NaivePower(postDbm, dbm, ticks)
    ensures Run(postDbm, ticks).appliedDbm in {UNSET_DBM, NaivePower(postDbm, dbm, ticks)}
  {
    if ticks != [] {
      var n := |ticks| - 1;
      var a := Run(postDbm, ticks[..n]);
      CacheRefinesNaive(postDbm, dbm, ticks[..n]);
      HoldMatchesHistory(postDbm, ticks);
      PowerConcat(dbm, RunFx(postDbm, ticks[..n]), Fx(postDbm, a, ticks[n]));
      FxPower(Power(dbm, RunFx(postDbm, ticks[..n])), postDbm, a, ticks[n]);
    }
  }

  lemma FxPower(dbm: int, postDbm: int, a: AwakeState, t: Tick)
    ensures Power(dbm, Fx(postDbm, a, t)) == Radiated(postDbm, dbm, a, t)
  {
    var tx := TxFx(a, Level(postDbm, Holds(a, t)), t.radio);
    var kick := if KickDue(a, t) then [Kick(t.ms)] else [];
    PowerConcat(dbm, tx, kick);
    PowerSingle(Power(dbm, tx), Kick(t.ms));
    PowerSingle(dbm, RadioWrite(Level(postDbm, Holds(a, t)), t.radio == Accepted));
  }

  /** How often the desired level differs from one tick to the next. */
  ghost function LevelChanges(postDbm: int, ticks: seq<Tick>): nat {
    if |ticks| <= 1 then 0
    else
      var front := ticks[..|ticks| - 1];
      LevelChanges(postDbm, front)
      + if Wanted(postDbm, ticks) != Wanted(postDbm, front) then 1 else 0
  }

  /** The radio writes of one boot, oldest first. */
  function WritesOf(postDbm: int, ticks: seq<Tick>): Trace {
    if ticks == [] then []
    else
      var n := |ticks| - 1;
      var a := Run(postDbm, ticks[..n]);
      WritesOf(postDbm, ticks[..n]) + TxFx(a, Level(postDbm, Holds(a, ticks[n])), ticks[n].radio)
  }

  /** With a radio that accepts every write, there is one write for the first tick and one for each change of level. */
  lemma {:induction false} WritesCountChanges(postDbm: int, ticks: seq<Tick>)
    requires Ordered(ticks) && postDbm != UNSET_DBM
    requires forall i | 0 <= i < |ticks| :: ticks[i].radio == Accepted
    ensures |WritesOf(postDbm, ticks)| == if ticks == [] then 0 else 1 + LevelChanges(postDbm, ticks)
    ensures Run(postDbm, ticks).appliedDbm == if ticks == [] then UNSET_DBM else Wanted(postDbm, ticks)
  {
    if ticks != [] {
      WritesCountChanges(postDbm, ticks[..|ticks| - 1]);
      HoldMatchesHistory(postDbm, ticks);
    }
  }

  /** These are exactly the radio writes and kicks in the trace. */
  lemma {:induction false} TraceSplits(postDbm: int, ticks: seq<Tick>)
    ensures Only(RunFx(postDbm, ticks), {RadioWrites}) == WritesOf(postDbm, ticks)
    ensures Times(RunFx(postDbm, ticks), Kicks) == KickTimes(postDbm, ticks)
  {
    if ticks != [] {
      var n := |ticks| - 1;
      var a := Run(postDbm, ticks[..n]);
      TraceSplits(postDbm, ticks[..n]);
      OnlyConcat(RunFx(postDbm, ticks[..n]), Fx(postDbm, a, ticks[n]), {RadioWrites});
      TimesConcat(RunFx(postDbm, ticks[..n]), Fx(postDbm, a, ticks[n]), Kicks);
      FxOnly(postDbm, a, ticks[n]);
    }
  }

  lemma FxOnly(postDbm: int, a: AwakeState, t: Tick)
    ensures Only(Fx(postDbm, a, t), {RadioWrites}) == TxFx(a, Level(postDbm, Holds(a, t)), t.radio)
    ensures Times(Fx(postDbm, a, t), Kicks) == if KickDue(a, t) then [t.ms] else []
  {
    var level := Level(postDbm, Holds(a, t));
    var kick := if KickDue(a, t) then [Kick(t.ms)] else [];
    OnlyConcat(TxFx(a, level, t.radio), kick, {RadioWrites});
    TimesConcat(TxFx(a, level, t.radio), kick, Kicks);
    OnlySingle(Kick(t.ms), {RadioWrites});
    TimesSingle(Kick(t.ms), Kicks);
    OnlySingle(RadioWrite(level, t.radio == Accepted), {RadioWrites});
    TimesSingle(RadioWrite(level, t.radio == Accepted), Kicks);
  }

  // ----- ICD kicks -----

  /** When one boot kicks, oldest first. */
  function KickTimes(postDbm: int, ticks: seq<Tick>): seq<int> {
    if ticks == [] then []
    else
      var n := |ticks| - 1;
      var before := KickTimes(postDbm, ticks[..n]);
      if KickDue(Run(postDbm, ticks[..n]), ticks[n]) then before + [ticks[n].ms] else before
  }

  lemma {:induction false} KicksAreSpaced(postDbm: int, ticks: seq<Tick>)
    requires Ordered(ticks)
    ensures SpacedBy(0, KickTimes(postDbm, ticks), KICK_PERIOD_MS)
    ensures Latest(0, KickTimes(postDbm, ticks)) == Run(postDbm, ticks).lastKickMs <= LastMs(ticks)
  {
    if ticks != [] {
      var n := |ticks| - 1;
      KicksAreSpaced(postDbm, ticks[..n]);
      if KickDue(Run(postDbm, ticks[..n]), ticks[n]) {
        SpacedAppend(0, KickTimes(postDbm, ticks[..n]), ticks[n].ms, KICK_PERIOD_MS);
      }
    }
  }

  /** Kicks are at least a period apart, the first a period after boot, so there is at most one per second of uptime. */
  lemma KicksAreRateLimited(postDbm: int, ticks: seq<Tick>)
    requires Ordered(ticks)
    ensures var kicks := KickTimes(postDbm, ticks);
            && SpacedBy(0, kicks, KICK_PERIOD_MS)
            && |kicks| * KICK_PERIOD_MS <= Latest(0, kicks)
            && Latest(0, kicks) == Run(postDbm, ticks).lastKickMs <= LastMs(ticks)
            && forall ms | ms in kicks :: ms <= Latest(0, kicks)
  {
    KicksAreSpaced(postDbm, ticks);
    SpacedBound(0, KickTimes(postDbm, ticks), KICK_PERIOD_MS);
  }

  /** A tick kicks iff hold is active and neither a kick nor the boot lies within the last period. */
  lemma KickMatchesHistory(postDbm: int, ticks: seq<Tick>)
    requires Ordered(ticks) && ticks != []
    ensures var n := |ticks| - 1;
            KickDue(Run(postDbm, ticks[..n]), ticks[n]) <==>
              && HoldNow(ticks)
              && ticks[n].ms >= 1000
              && forall ms | ms in KickTimes(postDbm, ticks[..n]) :: ticks[n].ms - ms >= 1000
  {
    var n := |ticks| - 1;
    HoldMatchesHistory(postDbm, ticks);
    KicksAreRateLimited(postDbm, ticks[..n]);
    var kicks := KickTimes(postDbm, ticks[..n]);
    if kicks != [] {
      assert Latest(0, kicks) in kicks;
    }
  }

  /** Tick i of a boot kicks. */
  predicate KickAt(postDbm: int, ticks: seq<Tick>, i: nat)
    requires i < |ticks|
  {
    KickDue(Run(postDbm, ticks[..i]), ticks[i])
  }

  lemma {:induction false} NoKickKeepsTime(postDbm: int, ticks: seq<Tick>, a: nat, b: nat)
    requires a <= b < |ticks| && KickAt(postDbm, ticks, a)
    requires forall i | a < i <= b :: !KickAt(postDbm, ticks, i)
    ensures Run(postDbm, ticks[..b + 1]).lastKickMs == ticks[a].ms
    decreases b
  {
    assert ticks[..b + 1][..b] == ticks[..b];
    if a < b {
      NoKickKeepsTime(postDbm, ticks, a, b - 1);
      assert !KickAt(postDbm, ticks, b);
    }
  }

  lemma QuietHold(postDbm: int, ticks: seq<Tick>)
    requires Ordered(ticks) && ticks != [] && HoldNow(ticks)
    requires !KickDue(Run(postDbm, ticks[..|ticks| - 1]), ticks[|ticks| - 1])
    ensures ticks[|ticks| - 1].ms - Run(postDbm, ticks).lastKickMs < KICK_PERIOD_MS
  {
    HoldMatchesHistory(postDbm, ticks);
  }

  /** While hold stays active and ticks come at most d apart, consecutive kicks are less than a period plus d apart. */
  lemma KicksKeepComing(postDbm: int, ticks: seq<Tick>, d: int, a: nat, b: nat)
    requires Ordered(ticks) && a < b < |ticks|
    requires ticks[b].ms - ticks[b - 1].ms <= d
    requires KickAt(postDbm, ticks, a) && KickAt(postDbm, ticks, b)
    requires forall i | a < i < b :: !KickAt(postDbm, ticks, i)
    requires b - 1 == a || HoldNow(ticks[..b])
    ensures KICK_PERIOD_MS <= ticks[b].ms - ticks[a].ms < KICK_PERIOD_MS + d
  {
    NoKickKeepsTime(postDbm, ticks, a, b - 1);
    if a < b - 1 {
      var upTo := ticks[..b];
      assert upTo[..b - 1] == ticks[..b - 1] && upTo[b - 1] == ticks[b - 1];
      assert !KickAt(postDbm, ticks, b - 1);
      OrderedPrefix(ticks, b);
      QuietHold(postDbm, upTo);
    }
  }

  lemma KickCounts(postDbm: int, ticks: seq<Tick>, c: nat)
    requires c < |ticks|
    ensures |KickTimes(postDbm, ticks[..c + 1])|
            == |KickTimes(postDbm, ticks[..c])| + if KickAt(postDbm, ticks, c) then 1 else 0
  {
    assert ticks[..c + 1][..c] == ticks[..c];
  }

  lemma {:induction false} KicksGrow(postDbm: int, ticks: seq<Tick>, b: nat, c: nat)
    requires b <= c <= |ticks|
    ensures |KickTimes(postDbm, ticks[..b])| <= |KickTimes(postDbm, ticks[..c])|
    decreases c
  {
    if b < c {
      KicksGrow(postDbm, ticks, b, c - 1);
      KickCounts(postDbm, ticks, c - 1);
    }
  }

  /** The tick of the i-th kick. */
  lemma {:induction false} KickOf(postDbm: int, ticks: seq<Tick>, i: nat) returns (a: nat)
    requires i < |KickTimes(postDbm, ticks)|
    ensures a < |ticks| && KickAt(postDbm, ticks, a)
    ensures |KickTimes(postDbm, ticks[..a])| == i && ticks[a].ms == KickTimes(postDbm, ticks)[i]
  {
    var n := |ticks| - 1;
    if i < |KickTimes(postDbm, ticks[..n])| {
      a := KickOf(postDbm, ticks[..n], i);
      assert ticks[..n][..a] == ticks[..a];
    } else {
      a := n;
    }
  }

  /** Between the ticks of two consecutive kicks no tick kicks. */
  lemma NoneBetween(postDbm: int, ticks: seq<Tick>, a: nat, b: nat, c: nat)
    requires a < c < b < |ticks| && KickAt(postDbm, ticks, a)
    requires |KickTimes(postDbm, ticks[..b])| == |KickTimes(postDbm, ticks[..a])| + 1
    ensures !KickAt(postDbm, ticks, c)
  {
    KickCounts(postDbm, ticks, a);
    KicksGrow(postDbm, ticks, a + 1, c);
    KickCounts(postDbm, ticks, c);
    KicksGrow(postDbm, ticks, c + 1, b);
  }

  /** The ticks of two consecutive kicks. */
  lemma KickPair(postDbm: int, ticks: seq<Tick>, i: nat) returns (a: nat, b: nat)
    requires i + 1 < |KickTimes(postDbm, ticks)|
    ensures a < b < |ticks| && KickAt(postDbm, ticks, a) && KickAt(postDbm, ticks, b)
    ensures ticks[a].ms == KickTimes(postDbm, ticks)[i] && ticks[b].ms == KickTimes(postDbm, ticks)[i + 1]
    ensures forall c | a < c < b :: !KickAt(postDbm, ticks, c)
  {
    a := KickOf(postDbm, ticks, i);
    b := KickOf(postDbm, ticks, i + 1);
    if b <= a {
      KicksGrow(postDbm, ticks, b, a);
      assert false;
    }
    forall c | a < c < b ensures !KickAt(postDbm, ticks, c) {
      NoneBetween(postDbm, ticks, a, b, c);
    }
  }

  lemma OrderedTicks(ticks: seq<Tick>, i: nat, j: nat)
    requires Ordered(ticks) && i <= j < |ticks|
    ensures ticks[i].ms <= ticks[j].ms
  {
    OrderedPrefix(ticks, j + 1);
    OrderedPrefix(ticks[..j + 1], i + 1);
    assert ticks[..j + 1][..i + 1] == ticks[..i + 1];
  }

  /** Any two consecutive kicks of a boot are close, if the ticks from one to the other are and find hold active. */
  lemma ConsecutiveKicksAreClose(postDbm: int, ticks: seq<Tick>, gap: int, i: nat)
    requires Ordered(ticks) && i + 1 < |KickTimes(postDbm, ticks)|
    requires var kicks := KickTimes(postDbm, ticks);
             forall j | 0 < j < |ticks| && kicks[i] <= ticks[j].ms <= kicks[i + 1] ::
               HoldNow(ticks[..j + 1]) && ticks[j].ms - ticks[j - 1].ms <= gap
    ensures KICK_PERIOD_MS <= KickTimes(postDbm, ticks)[i + 1] - KickTimes(postDbm, ticks)[i] < KICK_PERIOD_MS + gap
  {
    var a, b := KickPair(postDbm, ticks, i);
    OrderedTicks(ticks, a, b - 1);
    OrderedTicks(ticks, b - 1, b);
    if b - 1 > a {
      assert HoldNow(ticks[..(b - 1) + 1]);
    }
    KicksKeepComing(postDbm, ticks, gap, a, b);
  }

  /** Whenever hold is active, a kick lies less than one period back, unless the node has been up for less. */
  lemma HoldKeepsAwake(postDbm: int, ticks: seq<Tick>)
    requires Ordered(ticks) && ticks != [] && HoldNow(ticks)
    ensures var now := LastMs(ticks);
            now < KICK_PERIOD_MS || exists ms :: ms in KickTimes(postDbm, ticks) && now - KICK_PERIOD_MS < ms <= now
  {
    var n := |ticks| - 1;
    HoldMatchesHistory(postDbm, ticks);
    KicksAreRateLimited(postDbm, ticks);
    var kicks := KickTimes(postDbm, ticks);
    if kicks != [] {
      assert Latest(0, kicks) in kicks;
    }
  }
}
