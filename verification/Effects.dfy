/** What the firmware does to the outside world, as one ordered trace per run. */
module Effects {
  import opened Base
  import opened Settings

  datatype Effect =
    | Save(key: Key, value: Word, ok: bool)       // settings_save_one and its outcome
    | RadioWrite(dbm: int, ok: bool)              // otPlatRadioSetTransmitPower and its outcome
    | Kick(ms: int)                               // ICDManager().OnNetworkActivity()
    | Climate(temperature: int, humidity: int)    // the two measured-value attributes
    | Battery(mv: int, halfPercent: int)          // BatVoltage and BatPercentRemaining
    | Health(ms: int)                             // the health snapshot log line
    | Feed(ms: int)                               // wdt_feed
    | Reboot(ms: int)                             // sys_reboot

  type Trace = seq<Effect>

  datatype Kind = Saves | RadioWrites | Kicks | Climates | Batteries | Healths | Feeds | Reboots

  function KindOf(e: Effect): Kind {
    match e
    case Save(_, _, _) => Saves
    case RadioWrite(_, _) => RadioWrites
    case Kick(_) => Kicks
    case Climate(_, _) => Climates
    case Battery(_, _) => Batteries
    case Health(_) => Healths
    case Feed(_) => Feeds
    case Reboot(_) => Reboots
  }

  /** The effects of the given kinds, in order. */
  function Only(fx: Trace, kinds: set<Kind>): Trace {
    if fx == [] then []
    else Only(fx[..|fx| - 1], kinds) + if KindOf(fx[|fx| - 1]) in kinds then [fx[|fx| - 1]] else []
  }

  lemma {:induction false} OnlyConcat(a: Trace, b: Trace, kinds: set<Kind>)
    ensures Only(a + b, kinds) == Only(a, kinds) + Only(b, kinds)
  {
    if b == [] {
      assert a + b == a;
    } else {
      var n := |b| - 1;
      assert (a + b)[..|a + b| - 1] == a + b[..n];
      assert (a + b)[|a + b| - 1] == b[n];
      OnlyConcat(a, b[..n], kinds);
    }
  }

  /** How often the trace tries to save a key. */
  function Attempts(fx: Trace, k: Key): nat {
    if fx == [] then 0
    else Attempts(fx[..|fx| - 1], k) + if fx[|fx| - 1].Save? && fx[|fx| - 1].key == k then 1 else 0
  }

  /** How many of these attempts there were up to the last one that succeeded; zero if none did. */
  function Kept(fx: Trace, k: Key): nat {
    if fx == [] then 0
    else
      var front, e := fx[..|fx| - 1], fx[|fx| - 1];
      if e.Save? && e.key == k && e.ok then Attempts(front, k) + 1 else Kept(front, k)
  }

  /** How many saves of a key have failed since the last one that succeeded. */
  function Lag(fx: Trace, k: Key): int {
    Attempts(fx, k) - Kept(fx, k)
  }

  /** Every save of k in the trace succeeded. */
  predicate AllSaved(fx: Trace, k: Key) {
    forall e | e in fx && e.Save? && e.key == k :: e.ok
  }

  lemma {:induction false} TallyConcat(a: Trace, b: Trace, k: Key)
    ensures Attempts(a + b, k) == Attempts(a, k) + Attempts(b, k)
    ensures Kept(a + b, k) == if Kept(b, k) == 0 then Kept(a, k) else Attempts(a, k) + Kept(b, k)
    ensures Kept(b, k) <= Attempts(b, k)
  {
    if b == [] {
      assert a + b == a;
    } else {
      var n := |b| - 1;
      assert (a + b)[..|a + b| - 1] == a + b[..n];
      assert (a + b)[|a + b| - 1] == b[n];
      TallyConcat(a, b[..n], k);
    }
  }

  lemma {:induction false} SavedHasNoLag(fx: Trace, k: Key)
    requires AllSaved(fx, k)
    ensures Kept(fx, k) == Attempts(fx, k)
  {
    if fx != [] {
      assert fx[|fx| - 1] in fx;
      SavedHasNoLag(fx[..|fx| - 1], k);
    }
  }

  /** The values the trace tries to save under a key, and those that reach flash, oldest first. */
  function Tried(fx: Trace, k: Key): seq<int> {
    if fx == [] then []
    else
      var front, e := Tried(fx[..|fx| - 1], k), fx[|fx| - 1];
      if e.Save? && e.key == k then front + [e.value] else front
  }

  function Written(fx: Trace, k: Key): seq<int> {
    if fx == [] then []
    else
      var front, e := Written(fx[..|fx| - 1], k), fx[|fx| - 1];
      if e.Save? && e.key == k && e.ok then front + [e.value] else front
  }

  lemma {:induction false} TriedConcat(a: Trace, b: Trace, k: Key)
    ensures Tried(a + b, k) == Tried(a, k) + Tried(b, k)
  {
    if b == [] {
      assert a + b == a;
    } else {
      var n := |b| - 1;
      assert (a + b)[..|a + b| - 1] == a + b[..n];
      assert (a + b)[|a + b| - 1] == b[n];
      TriedConcat(a, b[..n], k);
    }
  }

  /** What the trace makes of a store. */
  function Replay(s: Store, fx: Trace): Store {
    if fx == [] then s
    else
      var t, e := Replay(s, fx[..|fx| - 1]), fx[|fx| - 1];
      if e.Save? && e.ok then t[e.key := e.value] else t
  }

  lemma {:induction false} ReplayConcat(s: Store, a: Trace, b: Trace)
    ensures Replay(s, a + b) == Replay(Replay(s, a), b)
  {
    if b == [] {
      assert a + b == a;
    } else {
      var n := |b| - 1;
      assert (a + b)[..|a + b| - 1] == a + b[..n];
      assert (a + b)[|a + b| - 1] == b[n];
      ReplayConcat(s, a, b[..n]);
    }
  }

  /** So each key holds the last value written, or what it held before. */
  lemma {:induction false} ReplayTakesLast(s: Store, fx: Trace, k: Key)
    ensures Stored(Replay(s, fx), k) == Latest(Stored(s, k), Written(fx, k))
  {
    if fx != [] {
      ReplayTakesLast(s, fx[..|fx| - 1], k);
    }
  }

  /** Radio power after the trace: the last accepted write, or what it was before. */
  function Power(dbm: int, fx: Trace): int {
    if fx == [] then dbm
    else
      var e := fx[|fx| - 1];
      if e.RadioWrite? && e.ok then e.dbm else Power(dbm, fx[..|fx| - 1])
  }

  lemma {:induction false} PowerConcat(dbm: int, a: Trace, b: Trace)
    ensures Power(dbm, a + b) == Power(Power(dbm, a), b)
  {
    if b == [] {
      assert a + b == a;
    } else {
      var n := |b| - 1;
      assert (a + b)[..|a + b| - 1] == a + b[..n];
      assert (a + b)[|a + b| - 1] == b[n];
      PowerConcat(dbm, a, b[..n]);
    }
  }

  /** When the trace kicked, logged its health, fed the watchdog or rebooted. */
  function Times(fx: Trace, kind: Kind): seq<int> {
    if fx == [] then []
    else
      var e := fx[|fx| - 1];
      Times(fx[..|fx| - 1], kind)
      + if KindOf(e) == kind && (e.Kick? || e.Health? || e.Feed? || e.Reboot?) then [e.ms] else []
  }

  lemma {:induction false} TimesConcat(a: Trace, b: Trace, kind: Kind)
    ensures Times(a + b, kind) == Times(a, kind) + Times(b, kind)
  {
    if b == [] {
      assert a + b == a;
    } else {
      var n := |b| - 1;
      assert (a + b)[..|a + b| - 1] == a + b[..n];
      assert (a + b)[|a + b| - 1] == b[n];
      TimesConcat(a, b[..n], kind);
    }
  }

  // The folds on a one-element trace.

  lemma TallySingle(e: Effect, k: Key)
    ensures Attempts([e], k) == if e.Save? && e.key == k then 1 else 0
    ensures Kept([e], k) == if e.Save? && e.key == k && e.ok then 1 else 0
  {
    assert [e][..0] == [];
  }

  lemma TimesSingle(e: Effect, kind: Kind)
    ensures Times([e], kind) == if KindOf(e) == kind && (e.Kick? || e.Health? || e.Feed? || e.Reboot?) then [e.ms] else []
  {
    assert [e][..0] == [];
  }

  lemma OnlySingle(e: Effect, kinds: set<Kind>)
    ensures Only([e], kinds) == if KindOf(e) in kinds then [e] else []
  {
    assert [e][..0] == [];
  }

  lemma PowerSingle(dbm: int, e: Effect)
    ensures Power(dbm, [e]) == if e.RadioWrite? && e.ok then e.dbm else dbm
  {
    assert [e][..0] == [];
  }

  // ----- Traces of few kinds -----

  /** The trace holds only effects of the given kinds. */
  predicate Within(fx: Trace, kinds: set<Kind>) {
    forall i | 0 <= i < |fx| :: KindOf(fx[i]) in kinds
  }

  lemma {:induction false} OnlyAll(fx: Trace, kinds: set<Kind>)
    requires Within(fx, kinds)
    ensures Only(fx, kinds) == fx
  {
    if fx != [] {
      OnlyAll(fx[..|fx| - 1], kinds);
    }
  }

  lemma {:induction false} OnlyNone(fx: Trace, present: set<Kind>, kinds: set<Kind>)
    requires Within(fx, present) && present !! kinds
    ensures Only(fx, kinds) == []
  {
    if fx != [] {
      OnlyNone(fx[..|fx| - 1], present, kinds);
    }
  }

  lemma {:induction false} TimesNone(fx: Trace, present: set<Kind>, kind: Kind)
    requires Within(fx, present) && kind !in present
    ensures Times(fx, kind) == []
  {
    if fx != [] {
      TimesNone(fx[..|fx| - 1], present, kind);
    }
  }

  /** Parts without an effect of the kind do not matter. */
  lemma TimesSkip(a: Trace, b: Trace, present: set<Kind>, kind: Kind)
    requires kind !in present
    ensures Within(a, present) ==> Times(a + b, kind) == Times(b, kind)
    ensures Within(b, present) ==> Times(a + b, kind) == Times(a, kind)
  {
    TimesConcat(a, b, kind);
    if Within(a, present) {
      TimesNone(a, present, kind);
    }
    if Within(b, present) {
      TimesNone(b, present, kind);
    }
  }

  lemma OnlyMiddle(a: Trace, b: Trace, c: Trace, present: set<Kind>, kinds: set<Kind>)
    requires Within(a, present) && Within(c, present) && present !! kinds
    ensures Only(a + (b + c), kinds) == Only(b, kinds)
  {
    OnlyConcat(b, c, kinds);
    OnlyConcat(a, b + c, kinds);
    OnlyNone(a, present, kinds);
    OnlyNone(c, present, kinds);
  }

  lemma {:induction false} TallyNone(fx: Trace, present: set<Kind>, k: Key)
    requires Within(fx, present) && Saves !in present
    ensures Attempts(fx, k) == 0 && Kept(fx, k) == 0
  {
    if fx != [] {
      TallyNone(fx[..|fx| - 1], present, k);
    }
  }
}
