/**
 The keyer's configuration and the microsecond timing it derives from it.
 Floating-point expressions are modelled as the exact rational they denote,
 rounded down where the source casts to an integer.
 */
module KeyerConfig {
  import opened Base

  datatype Mode = Straight | IambicA | IambicB | Bug | Ultimatic | SinglePaddle

  /** The fields of the configuration that the engine reads. */
  datatype Config = Config(
    mode: Mode,
    speedWpm: u8,
    weight: u8,
    hangTimeMs: u32,
    keysReversed: bool,
    autoSpacing: bool,
    iambicBTimingPercent: u8,
    farnsworthWpm: u8,
    keyingCompensationMs: u8,
    dynamicRatio: bool,
    dynamicRatioLowWpm: u8,
    dynamicRatioHighWpm: u8)
  {
    predicate IsModeB() { mode == IambicB || mode == Ultimatic }

    function DotDurationUs(): (d: u32)
      ensures 4705 <= d <= 1_200_000
    {
      DotRange(Max(speedWpm, 1));
      1_200_000 / Max(speedWpm, 1)
    }

    /** A dash is never shorter than a dot, whatever the weight or the dynamic ratio. */
    function DashDurationUs(): (d: u32)
      ensures DotDurationUs() <= d <= 14_000_000
    {
      var dot := DotDurationUs();
      if dynamicRatio && speedWpm > dynamicRatioLowWpm then
        var high := Max(dynamicRatioHighWpm, Min(dynamicRatioLowWpm + 1, 255));
        var den := high - dynamicRatioLowWpm;
        var num := Min(speedWpm - dynamicRatioLowWpm, den);
        RatioRange(dot, 15 * den - 3 * num, 5 * den);
        dot * (15 * den - 3 * num) / (5 * den)
      else
        WeightRange(dot, weight);
        dot * (25 + weight) / 25
    }

    function EffectiveDotUs(): (d: u32)
      ensures DotDurationUs() <= d <= 1_455_000
    { DotDurationUs() + keyingCompensationMs * 1000 }

    function EffectiveDashUs(): (d: u32)
      ensures EffectiveDotUs() <= d <= 14_255_000
    { DashDurationUs() + keyingCompensationMs * 1000 }

    function ElementGapUs(): u32 { DotDurationUs() }

    /** Unit of the stretched letter and word gaps; never shorter than a dot. */
    function GapUnitUs(): (u: u32)
      ensures DotDurationUs() <= u <= 600_000_000
      ensures farnsworthWpm == 0 || farnsworthWpm >= speedWpm ==> u == DotDurationUs()
    {
      if farnsworthWpm == 0 || farnsworthWpm >= speedWpm then
        DotDurationUs()
      else
        FarnsworthRange(speedWpm, farnsworthWpm);
        1_200_000 * (50 * speedWpm - 31 * farnsworthWpm) / (19 * speedWpm * farnsworthWpm)
    }

    function LetterGapUs(): (g: u32)
      ensures 3 * DotDurationUs() <= g
    { GapUnitUs() * 3 }

    function WordGapUs(): (g: u32)
      ensures 7 * DotDurationUs() <= g
    { GapUnitUs() * 7 }
  }

  lemma {:induction false} DotRange(w: int)
    requires 1 <= w <= 255
    ensures 4705 <= 1_200_000 / w <= 1_200_000
  {
    DivLower(1_200_000, w, 4705);
    DivUpper(1_200_000, w, 1_200_000);
  }

  lemma {:induction false} MulCancel(x: int, y: int, b: int)
    requires b > 0 && x * b < y * b
    ensures x < y
  {}

  lemma {:induction false} DivLower(a: int, b: int, q: int)
    requires b > 0 && q * b <= a
    ensures q <= a / b
  {
    assert a < (a / b + 1) * b;
    MulCancel(q, a / b + 1, b);
  }

  lemma {:induction false} DivUpper(a: int, b: int, q: int)
    requires b > 0 && a <= q * b
    ensures a / b <= q
  {}

  lemma {:induction false} RatioRange(dot: int, num: int, den: int)
    requires 0 < dot <= 1_200_000 && 0 < den && den <= num <= 3 * den
    ensures dot <= dot * num / den <= 3 * dot
  {
    assert dot * den <= dot * num <= dot * (3 * den);
    DivLower(dot * num, den, dot);
    DivUpper(dot * num, den, 3 * dot);
  }

  lemma {:induction false} WeightRange(dot: int, weight: u8)
    requires 0 < dot <= 1_200_000
    ensures dot <= dot * (25 + weight) / 25 <= 14_000_000
  {
    assert dot * 25 <= dot * (25 + weight) <= 1_200_000 * 280;
  }

  lemma {:induction false} FarnsworthRange(w: int, f: int)
    requires 0 < f < w <= 255
    ensures 19 * w * f > 0
    ensures 1_200_000 / w <= 1_200_000 * (50 * w - 31 * f) / (19 * w * f) <= 600_000_000
  {
    assert w * f > 0;
    FarnsworthLower(w, f);
    FarnsworthUpper(w, f);
  }

  lemma {:induction false} FarnsworthLower(w: int, f: int)
    requires 0 < f < w <= 255 && w * f > 0
    ensures 1_200_000 / w <= 1_200_000 * (50 * w - 31 * f) / (19 * w * f)
  {
    var q := 1_200_000 / w;
    assert q * (19 * w * f) == (q * w) * (19 * f) <= 1_200_000 * (19 * f);
    DivLower(1_200_000 * (50 * w - 31 * f), 19 * w * f, q);
  }

  lemma {:induction false} FarnsworthUpper(w: int, f: int)
    requires 0 < f < w <= 255 && w * f > 0
    ensures 1_200_000 * (50 * w - 31 * f) / (19 * w * f) <= 600_000_000
  {
    var a, b := 1_200_000 * (50 * w - 31 * f), 19 * w * f;
    assert b == 19 * (w * f) && w <= w * f;
    assert a <= 60_000_000 * w <= 600_000_000 * b;
    DivUpper(a, b, 600_000_000);
  }
}
