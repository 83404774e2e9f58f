/** Complex baseband samples with exact components. */
module Samples {
  import opened Base

  datatype Complex = Complex(re: real, im: real) {
    function Plus(other: Complex): Complex { Complex(re + other.re, im + other.im) }

    function Conjugate(): Complex { Complex(re, -im) }
  }

  const ZERO := Complex(0.0, 0.0)

  function Zeros(n: nat): (s: seq<Complex>)
    ensures |s| == n && forall i :: 0 <= i < n ==> s[i] == ZERO
  {
    seq(n, i => ZERO)
  }

  /** The sample at `i`, silence outside the sequence. */
  function At(s: seq<Complex>, i: int): Complex {
    if 0 <= i < |s| then s[i] else ZERO
  }

  /** `samples` added into `data` from index `at` on, growing it with silence where needed. */
  function Mix(data: seq<Complex>, at: nat, samples: seq<Complex>): (r: seq<Complex>)
    ensures |r| == Max(|data|, at + |samples|)
  {
    seq(Max(|data|, at + |samples|), i => At(data, i).Plus(At(samples, i - at)))
  }

  /** The newest `max` samples. */
  function Newest(data: seq<Complex>, max: nat): (r: seq<Complex>)
    ensures |r| == Min(|data|, max)
  {
    if |data| > max then data[|data| - max..] else data
  }

  lemma {:induction false} MixCommutes(data: seq<Complex>, i: nat, a: seq<Complex>, j: nat, b: seq<Complex>)
    ensures Mix(Mix(data, i, a), j, b) == Mix(Mix(data, j, b), i, a)
  {
    hide Mix, At;
    var x, y := Mix(Mix(data, i, a), j, b), Mix(Mix(data, j, b), i, a);
    forall k | 0 <= k < |x|
      ensures x[k] == y[k]
    {
      MixTwice(data, i, a, j, b, k);
      MixTwice(data, j, b, i, a, k);
      PlusSwap(At(data, k), At(a, k - i), At(b, k - j));
    }
  }

  lemma {:induction false} MixTwice(data: seq<Complex>, i: nat, a: seq<Complex>, j: nat, b: seq<Complex>, k: nat)
    requires k < |Mix(Mix(data, i, a), j, b)|
    ensures Mix(Mix(data, i, a), j, b)[k] == At(data, k).Plus(At(a, k - i)).Plus(At(b, k - j))
  {
    hide Mix, At, Complex.Plus;
    MixAt(Mix(data, i, a), j, b, k);
    AtMix(data, i, a, k);
  }

  lemma {:induction false} PlusSwap(x: Complex, y: Complex, z: Complex)
    ensures x.Plus(y).Plus(z) == x.Plus(z).Plus(y)
  {}

  lemma {:induction false} AtConcat(a: seq<Complex>, b: seq<Complex>, i: int)
    ensures At(a + b, i) == At(a, i).Plus(At(b, i - |a|))
  {}

  lemma {:induction false} MixConcat(data: seq<Complex>, i: nat, a: seq<Complex>, b: seq<Complex>)
    ensures Mix(Mix(data, i, a), i + |a|, b) == Mix(data, i, a + b)
  {
    hide Mix, At;
    var x, y := Mix(Mix(data, i, a), i + |a|, b), Mix(data, i, a + b);
    forall k | 0 <= k < |x|
      ensures x[k] == y[k]
    {
      MixConcatAt(data, i, a, b, k);
    }
  }

  lemma {:induction false} MixConcatAt(data: seq<Complex>, i: nat, a: seq<Complex>, b: seq<Complex>, k: nat)
    requires k < |Mix(data, i, a + b)|
    ensures Mix(Mix(data, i, a), i + |a|, b)[k] == Mix(data, i, a + b)[k]
  {
    hide Mix, At, Complex.Plus;
    var m := Mix(data, i, a);
    MixAt(m, i + |a|, b, k);
    MixAt(data, i, a + b, k);
    AtMix(data, i, a, k);
    AtConcat(a, b, k - i);
    PlusAssoc(At(data, k), At(a, k - i), At(b, k - i - |a|));
  }

  lemma {:induction false} MixAt(data: seq<Complex>, at: nat, samples: seq<Complex>, k: nat)
    requires k < |Mix(data, at, samples)|
    ensures Mix(data, at, samples)[k] == At(data, k).Plus(At(samples, k - at))
  {}

  lemma {:induction false} AtMix(data: seq<Complex>, i: nat, a: seq<Complex>, k: int)
    ensures At(Mix(data, i, a), k) == At(data, k).Plus(At(a, k - i))
  {}

  lemma {:induction false} PlusAssoc(x: Complex, y: Complex, z: Complex)
    ensures x.Plus(y).Plus(z) == x.Plus(y.Plus(z))
  {}

  /** Samples mixed in behind a cut can be mixed in before it. */
  lemma {:induction false} MixDrop(data: seq<Complex>, cut: nat, at: nat, samples: seq<Complex>)
    requires cut <= |data| && cut <= at
    ensures Mix(data[cut..], at - cut, samples) == Mix(data, at, samples)[cut..]
  {}

  lemma {:induction false} NewestOfRest(data: seq<Complex>, cut: nat, max: nat)
    requires cut + max <= |data|
    ensures Newest(data[cut..], max) == Newest(data, max)
  {}
}
