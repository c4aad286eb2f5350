/** The diagnostic keys, the settings store and the loader that runs at boot. */
module Settings {
  import opened Base

  datatype Key =
    | BootCount
    | WdtResetCount
    | ThreadDetachCount
    | ThreadReattachCount
    | SensorFailureCount
    | AdcFailureCount
    | LastResetReas
    | LastUptimeSec
    | LastThreadRole

  /** Name of a key below the subtree "tinyenv/diag". */
  function Name(k: Key): string {
    match k
    case BootCount => "boot_count"
    case WdtResetCount => "wdt_reset_count"
    case ThreadDetachCount => "thread_detach_count"
    case ThreadReattachCount => "thread_reattach_count"
    case SensorFailureCount => "sensor_failure_count"
    case AdcFailureCount => "adc_failure_count"
    case LastResetReas => "last_reset_reas"
    case LastUptimeSec => "last_uptime_sec"
    case LastThreadRole => "last_thread_role"
  }

  /** The six counters that only ever count up. */
  predicate Counter(k: Key) {
    k != LastResetReas && k != LastUptimeSec && k != LastThreadRole
  }

  /** The keys the boot loader restores: every key but the two snapshot values. */
  predicate Restored(k: Key) {
    k != LastUptimeSec && k != LastThreadRole
  }

  /** The RAM copies; the same seven fields form `DiagLoadContext` and the `mDiag*` members. */
  datatype Counters = Counters(boot: Word, wdt: Word, detach: Word, reattach: Word,
                               sensor: Word, adc: Word, lastReset: Word)
  {
    function Get(k: Key): Word {
      match k
      case BootCount => boot
      case WdtResetCount => wdt
      case ThreadDetachCount => detach
      case ThreadReattachCount => reattach
      case SensorFailureCount => sensor
      case AdcFailureCount => adc
      case LastResetReas => lastReset
      case _ => 0
    }

    function Put(k: Key, v: Word): Counters {
      match k
      case BootCount => this.(boot := v)
      case WdtResetCount => this.(wdt := v)
      case ThreadDetachCount => this.(detach := v)
      case ThreadReattachCount => this.(reattach := v)
      case SensorFailureCount => this.(sensor := v)
      case AdcFailureCount => this.(adc := v)
      case LastResetReas => this.(lastReset := v)
      case _ => this
    }
  }

  const ZERO := Counters(0, 0, 0, 0, 0, 0, 0)

  /** What flash holds, as far as the diagnostic keys go. */
  type Store = map<Key, Word>

  /** A missing key reads as zero. */
  function Stored(s: Store, k: Key): Word {
    if k in s then s[k] else 0
  }

  /**
   * One entry handed to the load callback: the key below the subtree, the stored length,
   * what `read_cb` returned (negative on error) and the word it read.
   */
  datatype Record = Record(key: string, len: nat, read: int, value: Word)
  {
    predicate WellFormed() {
      len == 4 && read == 4
    }

    /** It brings a value of k: its key's name, four bytes stored and four bytes read. */
    predicate Carries(k: Key) {
      len == 4 && read == 4 && key == Name(k)
    }
  }

  /** The restored key a name stands for; every other name is ignored. */
  function KeyNamed(name: string): Option<Key> {
    if name == "boot_count" then Some(BootCount)
    else if name == "wdt_reset_count" then Some(WdtResetCount)
    else if name == "thread_detach_count" then Some(ThreadDetachCount)
    else if name == "thread_reattach_count" then Some(ThreadReattachCount)
    else if name == "sensor_failure_count" then Some(SensorFailureCount)
    else if name == "adc_failure_count" then Some(AdcFailureCount)
    else if name == "last_reset_reas" then Some(LastResetReas)
    else None
  }

  function Absorb(c: Counters, r: Record): Counters {
    if r.WellFormed() && KeyNamed(r.key).Some? then c.Put(KeyNamed(r.key).value, r.value) else c
  }

  function Load(records: seq<Record>): Counters {
    if records == [] then ZERO
    else Absorb(Load(records[..|records| - 1]), records[|records| - 1])
  }

  /** The load context the callback writes through its `param` pointer. */
  class DiagLoadContext {
    var bootCount: Word
    var wdtResetCount: Word
    var threadDetachCount: Word
    var threadReattachCount: Word
    var sensorFailureCount: Word
    var adcFailureCount: Word
    var lastResetReas: Word

    ghost function Contents(): Counters
      reads this
    {
      Counters(bootCount, wdtResetCount, threadDetachCount, threadReattachCount,
               sensorFailureCount, adcFailureCount, lastResetReas)
    }

    constructor ()
      ensures Contents() == ZERO
    {
      bootCount, wdtResetCount, threadDetachCount, threadReattachCount := 0, 0, 0, 0;
      sensorFailureCount, adcFailureCount, lastResetReas := 0, 0, 0;
    }

    method DiagLoadCb(r: Record)
      modifies this
      ensures Contents() == Absorb(old(Contents()), r)
    {
      if r.len != 4 || r.read != 4 {
        return;
      }
      if r.key == "boot_count" {
        bootCount := r.value;
      } else if r.key == "wdt_reset_count" {
        wdtResetCount := r.value;
      } else if r.key == "thread_detach_count" {
        threadDetachCount := r.value;
      } else if r.key == "thread_reattach_count" {
        threadReattachCount := r.value;
      } else if r.key == "sensor_failure_count" {
        sensorFailureCount := r.value;
      } else if r.key == "adc_failure_count" {
        adcFailureCount := r.value;
      } else if r.key == "last_reset_reas" {
        lastResetReas := r.value;
      }
    }

    /** `settings_load_subtree_direct`: the callback runs once for every entry the backend finds. */
    method LoadSubtree(records: seq<Record>)
      requires Contents() == ZERO
      modifies this
      ensures Contents() == Load(records)
    {
      for i := 0 to |records|
        invariant Contents() == Load(records[..i])
      {
        assert records[..i + 1][..i] == records[..i];
        DiagLoadCb(records[i]);
      }
      assert records[..|records|] == records;
    }
  }

  lemma NamesDistinct(a: Key, b: Key)
    requires Name(a) == Name(b)
    ensures a == b
  {
    assert |Name(a)| == |Name(b)| && Name(a)[0] == Name(b)[0];
  }

  /** Saving under a key's name and loading by name meet: no two keys are confused. */
  lemma KeyNamedIsInverse(name: string, k: Key)
    requires Restored(k)
    ensures KeyNamed(name) == Some(k) <==> name == Name(k)
  {
    if KeyNamed(name).Some? {
      assert name == Name(KeyNamed(name).value);
      if name == Name(k) {
        NamesDistinct(k, KeyNamed(name).value);
      }
    }
  }

  lemma AbsorbOne(c: Counters, r: Record, k: Key)
    requires Restored(k)
    ensures Absorb(c, r).Get(k) == if r.Carries(k) then r.value else c.Get(k)
  {
    KeyNamedIsInverse(r.key, k);
  }

  /** Entry i is the last well-formed one for key k. */
  ghost predicate LastFor(records: seq<Record>, k: Key, i: int) {
    && 0 <= i < |records|
    && records[i].Carries(k)
    && forall j | i < j < |records| :: !records[j].Carries(k)
  }

  /** Loading is a faithful fold: whatever the entries and their order, the last well-formed one wins. */
  lemma {:induction false} LoadTakesLast(records: seq<Record>, k: Key)
    requires Restored(k)
    ensures forall i | LastFor(records, k, i) :: Load(records).Get(k) == records[i].value
    ensures (forall i | 0 <= i < |records| :: !records[i].Carries(k)) ==> Load(records).Get(k) == 0
  {
    if records != [] {
      var n := |records| - 1;
      var front := records[..n];
      LoadTakesLast(front, k);
      AbsorbOne(Load(front), records[n], k);
      forall i | LastFor(records, k, i) ensures Load(records).Get(k) == records[i].value {
        if i < n {
          assert !records[n].Carries(k);
          assert LastFor(front, k, i);
        }
      }
    }
  }

  /** The backend reports the store: the last well-formed entry of a key carries its value, absent keys have none. */
  ghost predicate Agrees(records: seq<Record>, s: Store) {
    && (forall k | k in s :: exists i :: LastFor(records, k, i) && records[i].value == s[k])
    && (forall k, i | k !in s && 0 <= i < |records| :: !records[i].Carries(k))
  }

  /** So a boot restores exactly what was saved. */
  lemma LoadRestores(records: seq<Record>, s: Store, k: Key)
    requires Restored(k) && Agrees(records, s)
    ensures Load(records).Get(k) == Stored(s, k)
  {
    LoadTakesLast(records, k);
    if k in s {
      var i :| LastFor(records, k, i) && records[i].value == s[k];
    }
  }

  /** Any listing that names every stored key with its value and nothing else well-formed for these keys agrees. */
  lemma ListingAgrees(records: seq<Record>, s: Store)
    requires forall k | k in s :: exists i :: 0 <= i < |records| && records[i].Carries(k)
    requires forall k, i | 0 <= i < |records| && records[i].Carries(k) :: k in s && records[i].value == s[k]
    ensures Agrees(records, s)
  {
    forall k | k in s ensures exists i :: LastFor(records, k, i) && records[i].value == s[k] {
      var i :| 0 <= i < |records| && records[i].Carries(k);
      var l := LastIndex(records, k, i);
    }
  }

  /** As a store with one key is by its one entry. */
  lemma SingleListing(r: Record, k: Key)
    requires r.Carries(k)
    ensures Agrees([r], map[k := r.value])
  {
    assert [r][0].Carries(k);
    forall j | r.Carries(j) ensures j == k {
      NamesDistinct(j, k);
    }
    ListingAgrees([r], map[k := r.value]);
  }

  lemma {:induction false} LastIndex(records: seq<Record>, k: Key, i: int) returns (l: int)
    requires 0 <= i < |records| && records[i].Carries(k)
    ensures LastFor(records, k, l)
    decreases |records| - i
  {
    if j :| i < j < |records| && records[j].Carries(k) {
      l := LastIndex(records, k, j);
    } else {
      l := i;
    }
  }
}
