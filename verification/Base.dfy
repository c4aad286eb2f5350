/** Types shared by every part of the model: optional oracle results, 32-bit words and C rounding. */
module Base {

  datatype Option<+T> = None | Some(value: T)

  /** A `uint32_t`. */
  type Word = x: int | 0 <= x < 0x1_0000_0000

  /** Unsigned 32-bit wrap-around. */
  function Wrap(x: int): Word {
    x % 0x1_0000_0000
  }

  /** Counting n on from x, modulo 2^32. */
  function Plus(x: int, n: int): Word {
    Wrap(x + n)
  }

  /** Unsigned subtraction modulo 2^32. */
  function Minus(x: int, y: int): Word {
    Wrap(x - y)
  }

  /** If one counter has counted e more than another, their difference has grown by e. */
  lemma MinusGrows(x: int, y: int, p: int, q: int, m: int, n: int, e: int)
    requires p == Plus(x, m) && q == Plus(y, n) && m == n + e
    ensures Minus(p, q) == Plus(Minus(x, y), e)
  {
    var i, j, k := Wraps(x + m), Wraps(y + n), Wraps(x - y);
    SameWord(Minus(x, y) + e, p - q, i - j - k);
  }

  /** How often x has wrapped. */
  function Wraps(x: int): (k: int)
    ensures x == Wrap(x) + k * 0x1_0000_0000
  {
    x / 0x1_0000_0000
  }

  lemma SameWord(x: int, y: int, k: int)
    requires x == y + k * 0x1_0000_0000
    ensures Wrap(x) == Wrap(y)
  {
  }

  lemma PlusSmall(x: int, n: int)
    requires 0 <= x + n < 0x1_0000_0000
    ensures Plus(x, n) == x + n
  {
  }

  lemma PlusPlus(x: int, a: int, b: int, sum: int)
    requires sum == a + b
    ensures Plus(Plus(x, a), b) == Plus(x, sum)
  {
  }

  lemma PlusNothing(x: Word)
    ensures Plus(x, 0) == x
  {
  }

  /** `lround`: nearest integer, halves away from zero, on exact reals. */
  function Round(x: real): int {
    if x >= 0.0 then (x + 0.5).Floor else -((-x + 0.5).Floor)
  }

  lemma RoundNearest(x: real)
    ensures -0.5 <= Round(x) as real - x <= 0.5
  {
    var h := if x >= 0.0 then x + 0.5 else -x + 0.5;
    assert h.Floor as real <= h < h.Floor as real + 1.0;
  }

  lemma RoundMonotone(x: real, y: real)
    requires x <= y
    ensures Round(x) <= Round(y)
  {
    if 0.0 <= x {
      assert x + 0.5 <= y + 0.5;
    } else if y < 0.0 {
      assert -y + 0.5 <= -x + 0.5;
    }
  }

  /** n portions of size c. */
  function Portions(n: nat, c: int): int {
    if n == 0 then 0 else Portions(n - 1, c) + c
  }

  lemma {:induction false} PortionsAreProduct(n: nat, c: int)
    ensures Portions(n, c) == n * c
  {
    if n > 0 {
      PortionsAreProduct(n - 1, c);
    }
  }

  lemma {:induction false} PortionsGrow(m: nat, n: nat, c: int)
    requires m <= n && 0 <= c
    ensures Portions(m, c) <= Portions(n, c)
  {
    if m < n {
      PortionsGrow(m, n - 1, c);
    }
  }

  // ----- Lists of times -----

  /** The latest of a list of times that started at `first`. */
  function Latest(first: int, times: seq<int>): int {
    if times == [] then first else times[|times| - 1]
  }

  /** Each time is at least `gap` after the one before it, the first one after `first`. */
  predicate SpacedBy(first: int, times: seq<int>, gap: int) {
    times == []
    || (var n := |times| - 1;
        SpacedBy(first, times[..n], gap) && times[n] - Latest(first, times[..n]) >= gap)
  }

  /** So n of them take at least n gaps. */
  lemma {:induction false} SpacedBound(first: int, times: seq<int>, gap: int)
    requires SpacedBy(first, times, gap) && gap >= 0
    ensures |times| * gap <= Latest(first, times) - first
    ensures forall t | t in times :: first + gap <= t <= Latest(first, times)
  {
    if times != [] {
      var n := |times| - 1;
      SpacedBound(first, times[..n], gap);
      assert times == times[..n] + [times[n]];
      assert |times| * gap == n * gap + gap;
      assert 0 <= n * gap;
    }
  }

  lemma SpacedAppend(first: int, times: seq<int>, t: int, gap: int)
    requires SpacedBy(first, times, gap) && t - Latest(first, times) >= gap
    ensures SpacedBy(first, times + [t], gap) && Latest(first, times + [t]) == t
  {
    assert (times + [t])[..|times|] == times;
  }

  /** No value of the list is below the one before it. */
  predicate Rising(values: seq<int>) {
    |values| <= 1 || (Rising(values[..|values| - 1]) && values[|values| - 2] <= values[|values| - 1])
  }

  /** A rising list continues a value without falling iff it does so where it starts. */
  lemma {:induction false} RisingFrom(first: int, values: seq<int>)
    requires Rising(values)
    ensures SpacedBy(first, values, 0) <==> values == [] || first <= values[0]
  {
    if |values| > 1 {
      RisingFrom(first, values[..|values| - 1]);
    } else if values != [] {
      assert values[..0] == [];
    }
  }

  /** No time of the list comes `limit` or more after the one before it. */
  predicate NeverLate(first: int, times: seq<int>, limit: int) {
    times == []
    || (var n := |times| - 1;
        NeverLate(first, times[..n], limit) && times[n] - Latest(first, times[..n]) < limit)
  }

  lemma NeverLateAppend(first: int, times: seq<int>, t: int, limit: int)
    requires NeverLate(first, times, limit) && t - Latest(first, times) < limit
    ensures NeverLate(first, times + [t], limit) && Latest(first, times + [t]) == t
  {
    assert (times + [t])[..|times|] == times;
  }

  lemma Assoc<T>(a: seq<T>, b: seq<T>, c: seq<T>)
    ensures a + b + c == a + (b + c)
  {
  }
}
