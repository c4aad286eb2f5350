/** Sampling the battery through the switched divider, and the two attributes computed from it. */
module BatterySense {
  import opened Base
  import opened BatteryCurve

  type Int16 = x: int | -0x8000 <= x < 0x8000

  const SAMPLE_COUNT := 4

  /** The ADC reads of one measurement; None is a failed `adc_read`. */
  type Samples = s: seq<Option<Int16>> | |s| == SAMPLE_COUNT witness [None, None, None, None]

  /** What the drivers answer when the divider is set up, and the samples. */
  datatype BatteryInput = BatteryInput(adcReady: bool, gpioReady: bool, pinOk: bool, channelOk: bool, samples: Samples)
  {
    predicate SetUp() {
      adcReady && gpioReady && pinOk && channelOk
    }
  }

  /** The static flags of InitBatterySense, and whether the enable pin currently connects the divider. */
  datatype Sense = Sense(init: bool, ready: bool, connected: bool)

  const COLD := Sense(false, false, false)

  function Prepared(s: Sense, b: BatteryInput): Sense {
    if s.init then s else Sense(true, b.SetUp(), false)
  }

  /** The sum of the positive samples among the first n. */
  function RawSum(samples: Samples, n: nat): nat
    requires n <= SAMPLE_COUNT
  {
    if n == 0 then 0
    else
      RawSum(samples, n - 1)
      + if samples[n - 1].Some? && samples[n - 1].value > 0 then samples[n - 1].value else 0
  }

  /** How many of the first n reads are made: up to the first that fails, and that one. */
  function ReadsMade(samples: Samples, n: nat): nat
    requires n <= SAMPLE_COUNT
  {
    if n == 0 then 0
    else if exists i :: 0 <= i < n - 1 && samples[i].None? then ReadsMade(samples, n - 1)
    else n
  }

  lemma FirstFailure(samples: Samples, i: nat)
    requires i < SAMPLE_COUNT && forall j | 0 <= j < i :: samples[j].Some?
    ensures ReadsMade(samples, i) == i && ReadsMade(samples, i + 1) == i + 1
    ensures samples[i].None? ==> ReadsMade(samples, SAMPLE_COUNT) == i + 1
  {
    if samples[i].None? {
      LaterReads(samples, i, SAMPLE_COUNT);
    }
  }

  lemma {:induction false} LaterReads(samples: Samples, i: nat, n: nat)
    requires i < n <= SAMPLE_COUNT && samples[i].None? && forall j | 0 <= j < i :: samples[j].Some?
    ensures ReadsMade(samples, n) == i + 1
  {
    if n > i + 1 {
      LaterReads(samples, i, n - 1);
      assert 0 <= i < n - 1 && samples[i].None?;
    }
  }

  const PLACEHOLDER_VOLTS: real := 3.69 * 1.0

  /** 12-bit average of four samples at gain 1/6 against 0.6 V, behind a 1M/510k divider. */
  function Volts(rawSum: nat): real {
    var fullScale := 0.6 / (1.0 / 6.0);
    var average := rawSum as real / 4.0;
    var vIn := average / 4095.0 * fullScale;
    vIn * ((1000000.0 + 510000.0) / 510000.0) * 1.0
  }

  /** One measurement that finds sense state s. */
  predicate AdcFails(s: Sense, b: BatteryInput) {
    Prepared(s, b).ready && None in b.samples
  }

  function Measured(s: Sense, b: BatteryInput): real {
    if !Prepared(s, b).ready || None in b.samples then PLACEHOLDER_VOLTS
    else Volts(RawSum(b.samples, SAMPLE_COUNT))
  }

  function Millivolts(v: real): int {
    Round(v * 1000.0)
  }

  function HalfPercent(v: real): int {
    CurveWellFormed();
    var pct := PercentOf(CURVE, v);
    if pct >= 100 then 200 else pct * 2
  }

  /** The function-local and static state of the battery code in app_task.cpp. */
  class BatteryMonitor {
    var sInit: bool
    var sReady: bool
    var pinConnects: bool
    /** For every `adc_read` so far, whether the divider was connected. */
    ghost var adcReads: seq<bool>

    ghost function State(): Sense
      reads this
    {
      Sense(sInit, sReady, pinConnects)
    }

    constructor ()
      ensures State() == COLD
    {
      sInit, sReady, pinConnects := false, false, false;
      adcReads := [];
    }

    method InitBatterySense(b: BatteryInput) returns (ready: bool)
      requires !pinConnects
      modifies this`sInit, this`sReady, this`pinConnects
      ensures State() == Prepared(old(State()), b) && !pinConnects
      ensures ready == sReady
    {
      if sInit {
        return sReady;
      }
      sInit := true;
      sReady := false;
      if !b.adcReady || !b.gpioReady || !b.pinOk {
        return false;
      }
      pinConnects := true;    // configured as an inactive, low output ...
      pinConnects := false;   // ... and set high at once
      if !b.channelOk {
        return false;
      }
      sReady := true;
      return true;
    }

    /**
     * The divider is connected whenever the ADC reads, and only then: every way out switches it off again. All four
     * reads are made unless one fails.
     */
    method ReadBatteryVolts(b: BatteryInput) returns (v: real, adcFailed: bool)
      requires !pinConnects
      modifies this
      ensures State() == Prepared(old(State()), b) && !pinConnects
      ensures v == Measured(old(State()), b)
      ensures adcFailed == AdcFails(old(State()), b)
      ensures old(adcReads) <= adcReads && forall i | |old(adcReads)| <= i < |adcReads| :: adcReads[i]
      ensures |adcReads| - |old(adcReads)| == if Prepared(old(State()), b).ready then ReadsMade(b.samples, SAMPLE_COUNT) else 0
    {
      var ready := InitBatterySense(b);
      if !ready {
        return PLACEHOLDER_VOLTS, false;
      }
      var rawSum: Word := 0;
      pinConnects := true;
      var i := 0;
      while i < SAMPLE_COUNT
        invariant 0 <= i <= SAMPLE_COUNT
        invariant rawSum == RawSum(b.samples, i) && rawSum <= i * 0x7fff
        invariant forall j | 0 <= j < i :: b.samples[j].Some?
        invariant pinConnects && State() == Prepared(old(State()), b).(connected := true)
        invariant old(adcReads) <= adcReads && forall j | |old(adcReads)| <= j < |adcReads| :: adcReads[j]
        invariant |adcReads| - |old(adcReads)| == i == ReadsMade(b.samples, i)
      {
        adcReads := adcReads + [pinConnects];
        FirstFailure(b.samples, i);
        match b.samples[i]
        case None =>
          pinConnects := false;
          return PLACEHOLDER_VOLTS, true;
        case Some(raw) =>
          if raw > 0 {
            rawSum := rawSum + raw;
          }
        i := i + 1;
      }
      pinConnects := false;
      return Volts(rawSum), false;
    }
  }

  /** Whatever four samples arrive, the 32-bit accumulator cannot overflow. */
  lemma {:induction false} SumFits(samples: Samples, n: nat)
    requires n <= SAMPLE_COUNT
    ensures RawSum(samples, n) <= n * 0x7fff < 0x1_0000_0000
  {
    if n > 0 {
      SumFits(samples, n - 1);
    }
  }

  /** No sample of a is larger than its counterpart in b. */
  ghost predicate Below(a: Samples, b: Samples) {
    forall i | 0 <= i < SAMPLE_COUNT :: a[i].Some? && b[i].Some? && a[i].value <= b[i].value
  }

  lemma {:induction false} SumMonotone(a: Samples, b: Samples, n: nat)
    requires n <= SAMPLE_COUNT && Below(a, b)
    ensures RawSum(a, n) <= RawSum(b, n)
  {
    if n > 0 {
      SumMonotone(a, b, n - 1);
    }
  }

  lemma VoltsMonotone(x: nat, y: nat)
    requires x <= y
    ensures 0.0 <= Volts(x) <= Volts(y)
    ensures y <= 4 * 0x7fff ==> Volts(y) < 86.0
  {
    assert Volts(x) == x as real / 4.0 / 4095.0 * 3.6 * (151.0 / 51.0);
    assert Volts(y) == y as real / 4.0 / 4095.0 * 3.6 * (151.0 / 51.0);
  }

  /** What an ideal 12-bit ADC reads of a battery at v volts, at gain 1/6 of 0.6 V behind 1M over 510k. */
  function IdealSample(v: real): int {
    (v * 510000.0 / 1510000.0 / 3.6 * 4095.0).Floor
  }

  /** One step of that ADC, in volts of the battery. */
  const STEP: real := 1510.0 / 510.0 * 3.6 / 4095.0

  /** The mean of four voltages comes back from their samples, at most one step too low and never too high. */
  lemma MeasuredInvertsTheAdc(s: Sense, b: BatteryInput, v0: real, v1: real, v2: real, v3: real)
    requires Prepared(s, b).ready && v0 >= 0.0 && v1 >= 0.0 && v2 >= 0.0 && v3 >= 0.0
    requires forall v | v in [v0, v1, v2, v3] :: IdealSample(v) < 0x8000
    requires b.samples[0] == Some(IdealSample(v0)) && b.samples[1] == Some(IdealSample(v1))
    requires b.samples[2] == Some(IdealSample(v2)) && b.samples[3] == Some(IdealSample(v3))
    ensures Measured(s, b) <= (v0 + v1 + v2 + v3) / 4.0 < Measured(s, b) + STEP
  {
    SampleNear(v0);
    SampleNear(v1);
    SampleNear(v2);
    SampleNear(v3);
    var i0, i1, i2, i3 := IdealSample(v0), IdealSample(v1), IdealSample(v2), IdealSample(v3);
    SumOfFour(b.samples, i0, i1, i2, i3);
    VoltsScale(i0 + i1 + i2 + i3);
  }

  lemma SampleNear(v: real)
    requires v >= 0.0
    ensures 0 <= IdealSample(v) && IdealSample(v) as real * STEP <= v < IdealSample(v) as real * STEP + STEP
  {
    var x := v * 510000.0 / 1510000.0 / 3.6 * 4095.0;
    assert x * STEP == v;
    assert IdealSample(v) as real <= x < IdealSample(v) as real + 1.0;
  }

  lemma SumOfFour(samples: Samples, i0: nat, i1: nat, i2: nat, i3: nat)
    requires i0 < 0x8000 && i1 < 0x8000 && i2 < 0x8000 && i3 < 0x8000
    requires samples[0] == Some(i0) && samples[1] == Some(i1) && samples[2] == Some(i2) && samples[3] == Some(i3)
    ensures None !in samples && RawSum(samples, 4) == i0 + i1 + i2 + i3
  {
    assert RawSum(samples, 1) == i0;
    assert RawSum(samples, 2) == i0 + i1;
    assert RawSum(samples, 3) == i0 + i1 + i2;
  }

  lemma VoltsScale(sum: nat)
    ensures Volts(sum) == sum as real / 4.0 * STEP
  {
  }

  /** A sample below zero counts as zero. */
  lemma NegativeIsZero(s: Sense, a: BatteryInput, b: BatteryInput)
    requires Prepared(s, a).ready && Prepared(s, b).ready
    requires forall i | 0 <= i < SAMPLE_COUNT ::
               && a.samples[i].Some? && b.samples[i].Some?
               && (a.samples[i] == b.samples[i] || (a.samples[i].value <= 0 && b.samples[i].value == 0))
    ensures Measured(s, a) == Measured(s, b)
  {
    assert None !in a.samples && None !in b.samples by {
      assert forall i | 0 <= i < SAMPLE_COUNT :: a.samples[i].Some? && b.samples[i].Some?;
    }
    SameSum(a.samples, b.samples, SAMPLE_COUNT);
  }

  lemma {:induction false} SameSum(a: Samples, b: Samples, n: nat)
    requires n <= SAMPLE_COUNT
    requires forall i | 0 <= i < n ::
               a[i].Some? && b[i].Some? && (a[i] == b[i] || (a[i].value <= 0 && b[i].value == 0))
    ensures RawSum(a, n) == RawSum(b, n)
  {
    if n > 0 {
      SameSum(a, b, n - 1);
    }
  }

  /** A measurement that failed, or whose divider was not set up on the first attempt, shows 3690 mV. */
  lemma FailureShowsPlaceholder(s: Sense, b: BatteryInput)
    requires || None in b.samples
             || (if s.init then !s.ready else !b.adcReady || !b.gpioReady || !b.pinOk || !b.channelOk)
    ensures Millivolts(Measured(s, b)) == 3690
  {
  }

  /** The two attributes: the nearest millivolt, and twice the percentage, within one of the line through the table. */
  lemma AttributesAreNearest(v: real)
    ensures -0.5 <= Millivolts(v) as real - 1000.0 * v <= 0.5
    ensures WellFormed(CURVE) && HalfPercent(v) == 2 * PercentOf(CURVE, v)
    ensures v >= 4.14 ==> HalfPercent(v) == 200
    ensures v <= 3.0 ==> HalfPercent(v) == 0
    ensures 3.0 < v < 4.14 ==> -1.0 <= HalfPercent(v) as real - 2.0 * Interpolate(CURVE, v) <= 1.0
  {
    CurveWellFormed();
    RoundNearest(v * 1000.0);
    PercentIsSound(CURVE, v, v);
  }

  /** The whole pipeline is non-decreasing in every sample, in millivolts and in half percents. */
  lemma PipelineMonotone(s: Sense, a: BatteryInput, b: BatteryInput)
    requires Prepared(s, a).ready && Prepared(s, b).ready && Below(a.samples, b.samples)
    ensures var v, w := Measured(s, a), Measured(s, b);
            && 0 <= Millivolts(v) <= Millivolts(w) < 0x1_0000_0000
            && HalfPercent(v) <= HalfPercent(w)
  {
    assert forall i | 0 <= i < SAMPLE_COUNT :: a.samples[i].Some? && b.samples[i].Some?;
    var x, y := RawSum(a.samples, SAMPLE_COUNT), RawSum(b.samples, SAMPLE_COUNT);
    SumMonotone(a.samples, b.samples, SAMPLE_COUNT);
    SumFits(b.samples, SAMPLE_COUNT);
    VoltsMonotone(x, y);
    MillivoltsFit(Volts(x));
    MillivoltsFit(Volts(y));
    RoundMonotone(Volts(x) * 1000.0, Volts(y) * 1000.0);
    CurveWellFormed();
    PercentIsSound(CURVE, Volts(x), Volts(y));
  }

  /** Every reading, failures and placeholder included, fits its attribute: an even number of half percents up to 200. */
  lemma ReadingsFit(s: Sense, b: BatteryInput)
    ensures var v := Measured(s, b);
            && 0 <= Millivolts(v) < 0x1_0000_0000
            && 0 <= HalfPercent(v) <= 200
            && HalfPercent(v) % 2 == 0
  {
    hide PercentOf, Volts, RawSum;
    var v := Measured(s, b);
    SumFits(b.samples, SAMPLE_COUNT);
    VoltsMonotone(0, RawSum(b.samples, SAMPLE_COUNT));
    MillivoltsFit(v);
    CurveWellFormed();
    PercentIsSound(CURVE, v, v);
  }

  lemma MillivoltsFit(v: real)
    requires 0.0 <= v < 86.0
    ensures 0 <= Millivolts(v) <= 86000
  {
    RoundMonotone(0.0, v * 1000.0);
    RoundMonotone(v * 1000.0, 86000.0);
  }

  /** The outcome of the first set-up is final: a failed one makes every later reading the placeholder. */
  lemma SetUpIsFinal(s: Sense, first: BatteryInput, later: BatteryInput)
    ensures Prepared(Prepared(s, first), later) == Prepared(s, first)
    ensures !s.init && !first.SetUp() ==> Measured(Prepared(s, first), later) == PLACEHOLDER_VOLTS
  {
  }
}
