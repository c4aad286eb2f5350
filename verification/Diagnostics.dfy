/** The persistent counters: RAM copies, the flash store, and what boot does with both. */
module Diagnostics {
  import opened Base
  import opened Settings
  import opened Effects

  /** Counters in RAM and the store in flash. */
  datatype Mem = Mem(ram: Counters, flash: Store)

  /** The bits of the reset-reason register; DOG is the watchdog's. */
  datatype ResetBit = ResetPin | Dog | Sreq | Lockup | Off | LpComp | Dif | Nfc | Vbus

  type Reasons = set<ResetBit>

  /** The register's value. */
  function Code(r: Reasons): Word {
    (if ResetPin in r then 0x1 else 0) + (if Dog in r then 0x2 else 0)
    + (if Sreq in r then 0x4 else 0) + (if Lockup in r then 0x8 else 0)
    + (if Off in r then 0x1_0000 else 0) + (if LpComp in r then 0x2_0000 else 0)
    + (if Dif in r then 0x4_0000 else 0) + (if Nfc in r then 0x8_0000 else 0)
    + (if Vbus in r then 0x10_0000 else 0)
  }

  /** Bit of w under a mask with a single bit set. */
  predicate HasBit(w: int, mask: int)
    requires mask > 0
  {
    w / mask % 2 == 1
  }

  /** The word has exactly the bits of these reasons set, at their places in the register. */
  predicate Tells(w: int, reas: Reasons) {
    && (HasBit(w, 0x1) <==> ResetPin in reas) && (HasBit(w, 0x2) <==> Dog in reas)
    && (HasBit(w, 0x4) <==> Sreq in reas) && (HasBit(w, 0x8) <==> Lockup in reas)
    && (HasBit(w, 0x1_0000) <==> Off in reas) && (HasBit(w, 0x2_0000) <==> LpComp in reas)
    && (HasBit(w, 0x4_0000) <==> Dif in reas) && (HasBit(w, 0x8_0000) <==> Nfc in reas)
    && (HasBit(w, 0x10_0000) <==> Vbus in reas)
  }

  lemma Multiples(mask: int, k: int)
    requires mask > 0
    ensures k >= 1 ==> mask * k >= mask
    ensures k <= -1 ==> mask * k <= -mask
  {
  }

  /** The bit between what lies below and above it. */
  lemma BitAt(w: int, mask: int, low: int, bit: int, high: int)
    requires mask > 0 && 0 <= low < mask && 0 <= bit < 2
    requires w == low + mask * (2 * high + bit)
    ensures HasBit(w, mask) <==> bit == 1
  {
    var q, r := 2 * high + bit, w / mask;
    assert w == mask * r + w % mask;
    assert mask * (q - r) == w % mask - low;
    Multiples(mask, q - r);
    assert r == q;
  }

  lemma LowBits(w: int, a: nat, b: nat, c: nat, d: nat, high: nat)
    requires a < 2 && b < 2 && c < 2 && d < 2 && w == a + 0x2 * b + 0x4 * c + 0x8 * d + 0x1_0000 * high
    ensures (HasBit(w, 0x1) <==> a == 1) && (HasBit(w, 0x2) <==> b == 1)
    ensures (HasBit(w, 0x4) <==> c == 1) && (HasBit(w, 0x8) <==> d == 1)
  {
    BitAt(w, 0x1, 0, a, b + 0x2 * c + 0x4 * d + 0x8000 * high);
    BitAt(w, 0x2, a, b, c + 0x2 * d + 0x4000 * high);
    BitAt(w, 0x4, a + 0x2 * b, c, d + 0x2000 * high);
    BitAt(w, 0x8, a + 0x2 * b + 0x4 * c, d, 0x1000 * high);
  }

  lemma HighBits(w: int, low: nat, a: nat, b: nat, c: nat, d: nat, e: nat)
    requires low < 0x1_0000 && a < 2 && b < 2 && c < 2 && d < 2 && e < 2
    requires w == low + 0x1_0000 * a + 0x2_0000 * b + 0x4_0000 * c + 0x8_0000 * d + 0x10_0000 * e
    ensures (HasBit(w, 0x1_0000) <==> a == 1) && (HasBit(w, 0x2_0000) <==> b == 1) && (HasBit(w, 0x4_0000) <==> c == 1)
    ensures (HasBit(w, 0x8_0000) <==> d == 1) && (HasBit(w, 0x10_0000) <==> e == 1)
  {
    var l1 := low + 0x1_0000 * a;
    var l2 := l1 + 0x2_0000 * b;
    var l3 := l2 + 0x4_0000 * c;
    BitAt(w, 0x1_0000, low, a, b + 0x2 * c + 0x4 * d + 0x8 * e);
    BitAt(w, 0x2_0000, l1, b, c + 0x2 * d + 0x4 * e);
    BitAt(w, 0x4_0000, l2, c, d + 0x2 * e);
    BitAt(w, 0x8_0000, l3, d, e);
    BitAt(w, 0x10_0000, l3 + 0x8_0000 * d, e, 0);
  }

  function One(b: bool): nat {
    if b then 1 else 0
  }

  /** The register's value shows every reason at its place, and nothing else. */
  lemma CodeTells(reas: Reasons)
    ensures Tells(Code(reas), reas)
  {
    hide HasBit;
    var a, b, c, d := One(ResetPin in reas), One(Dog in reas), One(Sreq in reas), One(Lockup in reas);
    var e, f, g, h, i := One(Off in reas), One(LpComp in reas), One(Dif in reas), One(Nfc in reas), One(Vbus in reas);
    CodeIsSum(reas);
    LowBits(Code(reas), a, b, c, d, e + 2 * f + 4 * g + 8 * h + 16 * i);
    HighBits(Code(reas), a + 2 * b + 4 * c + 8 * d, e, f, g, h, i);
  }

  lemma CodeIsSum(reas: Reasons)
    ensures Code(reas) == One(ResetPin in reas) + 0x2 * One(Dog in reas) + 0x4 * One(Sreq in reas) + 0x8 * One(Lockup in reas)
                          + 0x1_0000 * One(Off in reas) + 0x2_0000 * One(LpComp in reas) + 0x4_0000 * One(Dif in reas)
                          + 0x8_0000 * One(Nfc in reas) + 0x10_0000 * One(Vbus in reas)
  {
  }

  /** Saves that succeed are listed in `saves`; the others leave flash alone. */
  function SaveTo(flash: Store, k: Key, v: Word, saves: set<Key>): Store {
    if k in saves then flash[k := v] else flash
  }

  /** Count one event of k and save the new value. */
  function Bump(m: Mem, k: Key, saves: set<Key>): Mem {
    var v := Plus(m.ram.Get(k), 1);
    Mem(m.ram.Put(k, v), SaveTo(m.flash, k, v, saves))
  }

  function BumpFx(m: Mem, k: Key, saves: set<Key>): Trace {
    [Save(k, Plus(m.ram.Get(k), 1), k in saves)]
  }

  /** Remember the reset reason in RAM and flash. */
  function NoteReset(m: Mem, reas: Reasons, saves: set<Key>): Mem {
    Mem(m.ram.(lastReset := Code(reas)), SaveTo(m.flash, LastResetReas, Code(reas), saves))
  }

  function NoteResetFx(reas: Reasons, saves: set<Key>): Trace {
    [Save(LastResetReas, Code(reas), LastResetReas in saves)]
  }

  /** Count the boot, note the reset reason, count a watchdog reset. */
  function Counted(m: Mem, reas: Reasons, saves: set<Key>): Mem {
    var noted := NoteReset(Bump(m, BootCount, saves), reas, saves);
    if Dog in reas then Bump(noted, WdtResetCount, saves) else noted
  }

  function CountedFx(m: Mem, reas: Reasons, saves: set<Key>): Trace {
    var noted := NoteReset(Bump(m, BootCount, saves), reas, saves);
    BumpFx(m, BootCount, saves) + NoteResetFx(reas, saves)
    + if Dog in reas then BumpFx(noted, WdtResetCount, saves) else []
  }

  // ----- What a trace says about RAM and flash -----

  /**
   * The trace explains how counter k went from m to n: RAM counted every attempted save, and flash holds
   * RAM's value at the last attempt that succeeded (its old value if none did).
   */
  predicate Explains(m: Mem, n: Mem, fx: Trace, k: Key) {
    && n.ram.Get(k) == Plus(m.ram.Get(k), Attempts(fx, k))
    && Stored(n.flash, k) == if Kept(fx, k) == 0 then Stored(m.flash, k) else Plus(m.ram.Get(k), Kept(fx, k))
  }

  lemma ExplainsNothing(m: Mem, n: Mem, fx: Trace, k: Key)
    requires Attempts(fx, k) == 0
    requires n.ram.Get(k) == m.ram.Get(k) && Stored(n.flash, k) == Stored(m.flash, k)
    ensures Explains(m, n, fx, k)
  {
    TallyConcat([], fx, k);
    PlusNothing(m.ram.Get(k));
  }

  lemma ExplainsThen(m: Mem, n: Mem, o: Mem, a: Trace, b: Trace, k: Key)
    requires Explains(m, n, a, k) && Explains(n, o, b, k)
    ensures Explains(m, o, a + b, k)
  {
    TallyConcat(a, b, k);
    PlusPlus(m.ram.Get(k), Attempts(a, k), Attempts(b, k), Attempts(a + b, k));
    if Kept(b, k) != 0 {
      PlusPlus(m.ram.Get(k), Attempts(a, k), Kept(b, k), Kept(a + b, k));
    }
  }

  lemma GetPut(c: Counters, j: Key, v: Word, k: Key)
    requires Restored(j)
    ensures c.Put(j, v).Get(k) == if j == k then v else c.Get(k)
  {
  }

  lemma BumpExplained(m: Mem, j: Key, saves: set<Key>, k: Key)
    requires Counter(j) && Counter(k)
    ensures Explains(m, Bump(m, j, saves), BumpFx(m, j, saves), k)
  {
    var v := Plus(m.ram.Get(j), 1);
    TallySingle(Save(j, v, j in saves), k);
    GetPut(m.ram, j, v, k);
    PlusNothing(m.ram.Get(k));
    PlusNothing(v);
  }

  lemma NoteExplained(m: Mem, reas: Reasons, saves: set<Key>, k: Key)
    requires Counter(k)
    ensures Explains(m, NoteReset(m, reas, saves), NoteResetFx(reas, saves), k)
  {
    TallySingle(Save(LastResetReas, Code(reas), LastResetReas in saves), k);
  }

  lemma CountedExplained(m: Mem, reas: Reasons, saves: set<Key>, k: Key)
    requires Counter(k)
    ensures Explains(m, Counted(m, reas, saves), CountedFx(m, reas, saves), k)
  {
    var counted := Bump(m, BootCount, saves);
    var noted := NoteReset(counted, reas, saves);
    var fx := BumpFx(m, BootCount, saves) + NoteResetFx(reas, saves);
    BumpExplained(m, BootCount, saves, k);
    NoteExplained(counted, reas, saves, k);
    ExplainsThen(m, counted, noted, BumpFx(m, BootCount, saves), NoteResetFx(reas, saves), k);
    if Dog in reas {
      BumpExplained(noted, WdtResetCount, saves, k);
      ExplainsThen(m, noted, Bump(noted, WdtResetCount, saves), fx, BumpFx(noted, WdtResetCount, saves), k);
    } else {
      assert CountedFx(m, reas, saves) == fx;
    }
  }
}
