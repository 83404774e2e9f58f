/** Types shared by every component: machine integers of the source and the option type. */
module Base {
  datatype Option<+T> = None | Some(value: T)

  type u8 = x: int | 0 <= x < 0x100
  type u16 = x: int | 0 <= x < 0x1_0000
  type u32 = x: int | 0 <= x < 0x1_0000_0000

  const U32_MAX: u32 := 0xFFFF_FFFF

  /** `u32::saturating_add`. */
  function SaturatingAdd(a: u32, b: u32): u32 {
    if a + b > U32_MAX then U32_MAX else a + b
  }

  /** `u32::saturating_mul`. */
  function SaturatingMul(a: u32, b: u32): u32 {
    if a * b > U32_MAX then U32_MAX else a * b
  }

  /** `saturating_sub` on an unsigned integer. */
  function MonusNat(a: nat, b: nat): nat {
    if a < b then 0 else a - b
  }

  function Min(a: int, b: int): int { if a <= b then a else b }

  function Max(a: int, b: int): int { if a <= b then b else a }

  /** The key is down from `down` to `up`, in microseconds. */
  datatype Pulse = Pulse(down: nat, up: nat)

  /** Quotient and remainder are determined by their equation. */
  lemma {:induction false} RemainderUnique(x: nat, q: nat, r: nat, m: nat)
    requires m > 0 && x == q * m + r && r < m
    ensures x % m == r
  {
    var d := x / m;
    assert x == d * m + x % m;
    if q < d { Multiples(q, d, m); } else if d < q { Multiples(d, q, m); }
  }

  lemma {:induction false} Multiples(a: nat, b: nat, m: nat)
    requires a < b
    ensures a * m + m <= b * m
  {
    assert (b - 1) * m + m == b * m;
    if a < b - 1 { Multiples(a, b - 1, m); }
  }
}
