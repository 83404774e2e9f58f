/** Samples as two's-complement bytes: 24 bits towards the host, 16 bits towards the radio. */
module IqCodec {
  import opened Base
  import opened Samples
  import opened ByteBuffers

  // ---- two's complement ----------------------------------------------------------------------

  /** The bytes of a word, most significant first. */
  function Bytes16(w: u16): (r: seq<u8>)
    ensures |r| == 2
  {
    [w / 0x100, w % 0x100]
  }

  function Bytes24(w: int): (r: seq<u8>)
    requires 0 <= w < 0x100_0000
    ensures |r| == 3
  {
    Bytes16(w / 0x100) + [w % 0x100]
  }

  function Bytes32(w: u32): (r: seq<u8>)
    ensures |r| == 4
  {
    Bytes24(w / 0x100) + [w % 0x100]
  }

  function Word32(a: u8, b: u8, c: u8, d: u8): u32 { ((a * 256 + b) * 256 + c) * 256 + d }

  function Word16(a: u8, b: u8): u16 { a * 256 + b }

  function Signed32(w: u32): int { if w >= 0x8000_0000 then w - 0x1_0000_0000 else w }

  function Signed16(w: u16): int { if w >= 0x8000 then w - 0x1_0000 else w }

  /** The low 24 bits of an `i32`. */
  function Low24(v: int): (r: int)
    ensures 0 <= r < 0x100_0000
  {
    v % 0x100_0000
  }

  function Low16(v: int): u16 { v % 0x1_0000 }

  lemma {:induction false} Word16OfBytes(w: u16)
    ensures var b := Bytes16(w); Word16(b[0], b[1]) == w
  {}

  lemma {:induction false} Word32OfBytes(w: u32)
    ensures var b := Bytes32(w); Word32(b[0], b[1], b[2], b[3]) == w
  {
    Word16OfBytes(w / 0x100 / 0x100);
  }

  lemma {:induction false} Word24OfBytes(w: int)
    requires 0 <= w < 0x100_0000
    ensures var b := Bytes24(w); Word32(b[0], b[1], b[2], 0) == 256 * w
  {
    Word16OfBytes(w / 0x100);
  }

  lemma {:induction false} Low24Signed(v: int)
    requires -0x80_0000 <= v < 0x80_0000
    ensures Low24(v) == if v < 0 then v + 0x100_0000 else v
  {}

  lemma {:induction false} Low16Signed(v: int)
    requires -0x8000 <= v < 0x8000
    ensures Low16(v) == if v < 0 then v + 0x1_0000 else v
  {}

  /** Every 24-bit integer comes back from its bytes exactly, in the upper bytes of 32 bits. */
  lemma {:induction false} Exact24(v: int)
    requires -0x80_0000 <= v < 0x80_0000
    ensures var b := Bytes24(Low24(v)); Signed32(Word32(b[0], b[1], b[2], 0)) == 256 * v
  {
    hide Low24, Bytes24, Word32;
    Low24Signed(v);
    Word24OfBytes(Low24(v));
  }

  lemma {:induction false} Exact16(v: int)
    requires -0x8000 <= v < 0x8000
    ensures var b := Bytes16(Low16(v)); Signed16(Word16(b[0], b[1])) == v
  {
    hide Low16, Bytes16, Word16;
    Low16Signed(v);
    Word16OfBytes(Low16(v));
  }

  // ---- quantising -------------------------------------------------------------------------------

  function Clamp(x: real): real { if x < -1.0 then -1.0 else if x > 1.0 then 1.0 else x }

  /** Conversion to an integer truncates towards zero. */
  function Truncate(x: real): int { if x >= 0.0 then x.Floor else -((-x).Floor) }

  function Times(x: real, y: real): real { x * y }

  function Quantise(x: real, max: nat): int { Truncate(Times(Clamp(x), max as real)) }

  lemma {:induction false} QuantiseRange(x: real, max: nat)
    ensures -(max as int) <= Quantise(x, max) <= max
  {
    hide Times, Truncate;
    TimesRange(Clamp(x), max as real);
    TruncateRange(Times(Clamp(x), max as real), max);
  }

  lemma {:induction false} TruncateRange(p: real, max: nat)
    requires -(max as real) <= p <= max as real
    ensures -(max as int) <= Truncate(p) <= max
  {}

  lemma {:induction false} TimesRange(x: real, m: real)
    requires -1.0 <= x <= 1.0 && m >= 0.0
    ensures -m <= Times(x, m) <= m && if x >= 0.0 then Times(x, m) >= 0.0 else Times(x, m) <= 0.0
  {
    if x >= 0.0 { TimesPositive(x, m); } else { TimesPositive(-x, m); TimesNegated(x, m); }
  }

  lemma {:induction false} TimesPositive(x: real, m: real)
    requires 0.0 <= x <= 1.0 && m >= 0.0
    ensures 0.0 <= Times(x, m) <= m
  {
    assert Times(1.0 - x, m) == m - Times(x, m);
    Nonnegative(x, m);
    Nonnegative(1.0 - x, m);
  }

  lemma {:induction false} Nonnegative(x: real, y: real)
    requires x >= 0.0 && y >= 0.0
    ensures Times(x, y) >= 0.0
  {}

  lemma {:induction false} TimesNegated(x: real, y: real)
    ensures Times(-x, y) == -Times(x, y)
  {}

  function Abs(x: real): real { if x < 0.0 then -x else x }

  /** The step of reading back a value quantised to `max`. */
  function Unit(max: nat): (u: real)
    ensures u > 0.0
  {
    1.0 / (max + 1) as real
  }

  function Restored(v: int, max: nat): real { Times(v as real, Unit(max)) }

  /**
   Quantising to `max` steps and reading back in units of `max + 1` is off by less than two units, for
   every value in range.
   */
  lemma {:induction false} QuantiseError(x: real, max: nat)
    requires -1.0 <= x <= 1.0
    ensures Abs(Restored(Quantise(x, max), max) - x) < 2.0 * Unit(max)
  {
    hide Unit, Abs, Times, Truncate;
    var p := Times(x, max as real);
    TimesRange(x, max as real);
    TruncateError(p);
    OffByTwo(Truncate(p) as real, p, x);
    ScaledError(Truncate(p) as real, p, x, max);
  }

  /** `p` is `x` in steps, `v` what is left of it after truncation. */
  lemma {:induction false} OffByTwo(v: real, p: real, x: real)
    requires -1.0 <= x <= 1.0 && if x >= 0.0 then p >= 0.0 else p <= 0.0
    requires if p >= 0.0 then -1.0 < v - p <= 0.0 else 0.0 <= v - p < 1.0
    ensures Abs(v - (p + x)) < 2.0
  {}

  lemma {:induction false} TruncateError(p: real)
    ensures var v := Truncate(p) as real; if p >= 0.0 then -1.0 < v - p <= 0.0 else 0.0 <= v - p < 1.0
  {}

  lemma {:induction false} ScaledError(v: real, p: real, x: real, max: nat)
    requires p == Times(x, max as real) && Abs(v - (p + x)) < 2.0
    ensures Abs(Times(v, Unit(max)) - x) < 2.0 * Unit(max)
  {
    hide Unit, Times, Abs;
    StepsBack(p, x, max);
    TimesMinus(v, p + x, Unit(max));
    TimesBelow(v - (p + x), Unit(max));
  }

  lemma {:induction false} StepsBack(p: real, x: real, max: nat)
    requires p == Times(x, max as real)
    ensures Times(p + x, Unit(max)) == x
  {
    var n := (max + 1) as real;
    assert p + x == x * n;
    UnitInverse(max);
    TimesAssoc(x, n, Unit(max));
  }

  lemma {:induction false} UnitInverse(max: nat)
    ensures (max + 1) as real * Unit(max) == 1.0
  {}

  lemma {:induction false} TimesAssoc(x: real, y: real, z: real)
    requires y * z == 1.0
    ensures Times(x * y, z) == x
  {
    assert (x * y) * z == x * (y * z);
  }

  lemma {:induction false} TimesMinus(x: real, y: real, z: real)
    ensures Times(x - y, z) == Times(x, z) - Times(y, z)
  {}

  lemma {:induction false} TimesBelow(e: real, unit: real)
    requires unit > 0.0 && Abs(e) < 2.0
    ensures Abs(Times(e, unit)) < 2.0 * unit
  {
    assert Times(2.0 - e, unit) == 2.0 * unit - Times(e, unit) && Times(2.0 + e, unit) == 2.0 * unit + Times(e, unit);
    Positive(2.0 - e, unit);
    Positive(2.0 + e, unit);
  }

  lemma {:induction false} Positive(x: real, y: real)
    requires x > 0.0 && y > 0.0
    ensures Times(x, y) > 0.0
  {}

  // ---- 24-bit samples ---------------------------------------------------------------------------

  const MAX24: nat := 8_388_607

  function Component24(x: real): seq<u8> {
    QuantiseRange(x, MAX24);
    Bytes24(Low24(Quantise(x, MAX24)))
  }

  /** The six bytes of a sample; the host side negates Q for the wire. */
  function IqBytes(s: Complex, negateQ: bool): (r: seq<u8>)
    ensures |r| == 6
  {
    Component24(s.re) + Component24(if negateQ then -s.im else s.im)
  }

  /** The sample in the six bytes from `at` on, with Q negated back. */
  function UnpackIq(buf: seq<u8>, at: nat): Complex
    requires at + 6 <= |buf|
  {
    Complex(Signed32(Word32(buf[at], buf[at + 1], buf[at + 2], 0)) as real / 2_147_483_648.0,
            -(Signed32(Word32(buf[at + 3], buf[at + 4], buf[at + 5], 0)) as real / 2_147_483_648.0))
  }

  method PackIq24BitInto(buf: array<u8>, at: nat, sample: Complex, negateQ: bool) returns (next: nat)
    requires at + 6 <= buf.Length
    modifies buf
    ensures buf[..] == Over(old(buf[..]), at, IqBytes(sample, negateQ)) && next == at + 6
  {
    hide Low24, Quantise;
    QuantiseRange(sample.re, MAX24);
    QuantiseRange(if negateQ then -sample.im else sample.im, MAX24);
    var iu := Low24(Quantise(sample.re, MAX24));
    var qu := Low24(Quantise(if negateQ then -sample.im else sample.im, MAX24));
    buf[at], buf[at + 1], buf[at + 2] := iu / 0x100 / 0x100, iu / 0x100 % 0x100, iu % 0x100;
    buf[at + 3], buf[at + 4], buf[at + 5] := qu / 0x100 / 0x100, qu / 0x100 % 0x100, qu % 0x100;
    next := at + 6;
  }

  lemma {:induction false} Component24Back(x: real)
    ensures var b := Component24(x);
      |b| == 3 &&
      Signed32(Word32(b[0], b[1], b[2], 0)) as real / 2_147_483_648.0 == Restored(Quantise(x, MAX24), MAX24)
  {
    hide Signed32, Word32, Bytes24, Low24, Quantise;
    QuantiseRange(x, MAX24);
    Exact24(Quantise(x, MAX24));
  }

  /** What a packed sample is read as: both components quantised, Q negated unless it was on packing. */
  lemma {:induction false} IqBack(s: Complex, negateQ: bool, buf: seq<u8>, at: nat)
    requires at + 6 <= |buf| && buf[at..at + 6] == IqBytes(s, negateQ)
    ensures UnpackIq(buf, at) ==
      Complex(Restored(Quantise(s.re, MAX24), MAX24),
              -Restored(Quantise(if negateQ then -s.im else s.im, MAX24), MAX24))
  {
    hide Signed32, Word32, Component24, Restored, Quantise;
    var b := buf[at..at + 6];
    var q := if negateQ then -s.im else s.im;
    Component24Back(s.re);
    Component24Back(q);
    assert b[0] == buf[at] && b[1] == buf[at + 1] && b[2] == buf[at + 2];
    assert b[3] == buf[at + 3] && b[4] == buf[at + 4] && b[5] == buf[at + 5];
    assert b[..3] == Component24(s.re) && b[3..] == Component24(q);
  }

  /** Both components of `a` are less than `tolerance` from those of `b`. */
  predicate Near(a: Complex, b: Complex, tolerance: real) {
    Abs(a.re - b.re) < tolerance && Abs(a.im - b.im) < tolerance
  }

  predicate InRange(s: Complex) { -1.0 <= s.re <= 1.0 && -1.0 <= s.im <= 1.0 }

  /**
   Round trip with its error: a sample in range comes back within two units of 2^-23, as its conjugate
   from the radio side and as itself from the host side.
   */
  lemma {:induction false} IqRoundTrip(s: Complex, negateQ: bool, buf: seq<u8>, at: nat)
    requires at + 6 <= |buf| && buf[at..at + 6] == IqBytes(s, negateQ) && InRange(s)
    ensures Near(UnpackIq(buf, at), if negateQ then s else s.Conjugate(), 2.0 / 8_388_608.0)
  {
    hide IqBytes, UnpackIq, Restored, Quantise;
    var q := if negateQ then -s.im else s.im;
    IqBack(s, negateQ, buf, at);
    QuantiseError(s.re, MAX24);
    QuantiseError(q, MAX24);
    assert 2.0 * Unit(MAX24) == 2.0 / 8_388_608.0;
  }

  // ---- 16-bit samples ---------------------------------------------------------------------------

  const MAX16: nat := 32_767

  function Component16(x: real): (r: seq<u8>)
    ensures |r| == 2
  {
    Bytes16(Low16(Quantise(x, MAX16)))
  }

  lemma {:induction false} Component16Back(x: real)
    ensures var b := Component16(x);
      Signed16(Word16(b[0], b[1])) as real / 32_768.0 == Restored(Quantise(x, MAX16), MAX16)
  {
    hide Signed16, Word16, Bytes16, Low16, Quantise;
    QuantiseRange(x, MAX16);
    Exact16(Quantise(x, MAX16));
  }

  lemma {:induction false} Component24Wire(x: real)
    ensures var b := Component24(x);
      |b| == 3 && 65536 * b[0] as int + 256 * b[1] as int + b[2] as int == Quantise(x, MAX24) % 0x100_0000
  {
    hide Quantise;
    QuantiseRange(x, MAX24);
    Bytes24Sum(Low24(Quantise(x, MAX24)));
  }

  lemma {:induction false} Bytes24Sum(w: int)
    requires 0 <= w < 0x100_0000
    ensures var b := Bytes24(w); 65536 * b[0] as int + 256 * b[1] as int + b[2] as int == w
  {}

  /** I before Q, most significant bytes first. */
  lemma {:induction false} IqWire(s: Complex)
    ensures var b := IqBytes(s, false);
      && 65536 * b[0] as int + 256 * b[1] as int + b[2] as int == Quantise(s.re, MAX24) % 0x100_0000
      && 65536 * b[3] as int + 256 * b[4] as int + b[5] as int == Quantise(s.im, MAX24) % 0x100_0000
  {
    hide Quantise, Component24;
    Component24Wire(s.re);
    Component24Wire(s.im);
    var b := IqBytes(s, false);
    assert b[..3] == Component24(s.re) && b[3..] == Component24(s.im);
    assert b[..3][0] == b[0] && b[..3][1] == b[1] && b[..3][2] == b[2];
    assert b[3..][0] == b[3] && b[3..][1] == b[4] && b[3..][2] == b[5];
  }
}
