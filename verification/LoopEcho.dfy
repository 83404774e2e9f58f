/** What the looping recorder commits: trimming, the silent tail and the crossfade. */
module LoopEcho {
  import opened Base
  import opened Samples

  /** The rise of the crossfade: a weight for each of its `n` positions, from 0 upwards, never above 1. */
  type Fade = f: (nat, nat) -> real | (forall i, n :: i < n ==> 0.0 <= f(i, n) <= 1.0) && (forall n :: f(0, n) == 0.0)
    witness (i, n) => 0.0

  // ---- trimming ---------------------------------------------------------------------------

  predicate Silent(s: seq<Complex>) { forall i :: 0 <= i < |s| ==> s[i] == ZERO }

  /** `t` is `s` without the silence at its edges. */
  predicate TrimmedTo(s: seq<Complex>, f: nat, t: seq<Complex>) {
    && f + |t| <= |s| && t == s[f..f + |t|]
    && Silent(s[..f]) && Silent(s[f + |t|..])
    && (t != [] ==> t[0] != ZERO && t[|t| - 1] != ZERO)
  }

  function TrimHead(s: seq<Complex>): seq<Complex> { if s != [] && s[0] == ZERO then TrimHead(s[1..]) else s }

  function TrimTail(s: seq<Complex>): seq<Complex> {
    if s != [] && s[|s| - 1] == ZERO then TrimTail(s[..|s| - 1]) else s
  }

  function Trim(s: seq<Complex>): seq<Complex> { TrimTail(TrimHead(s)) }

  lemma {:induction false} TrimHeadCuts(s: seq<Complex>) returns (f: nat)
    ensures f <= |s| && TrimHead(s) == s[f..] && Silent(s[..f]) && (f < |s| ==> s[f] != ZERO)
  {
    f := 0;
    if s != [] && s[0] == ZERO {
      f := TrimHeadCuts(s[1..]);
      assert s[1..][f..] == s[f + 1..] && s[..f + 1] == [s[0]] + s[1..][..f];
      f := f + 1;
    }
  }

  lemma {:induction false} TrimTailCuts(s: seq<Complex>) returns (l: nat)
    ensures l <= |s| && TrimTail(s) == s[..l] && Silent(s[l..]) && (l > 0 ==> s[l - 1] != ZERO)
  {
    l := |s|;
    if s != [] && s[|s| - 1] == ZERO {
      var t := s[..|s| - 1];
      l := TrimTailCuts(t);
      assert s == t + [ZERO];
      SilenceBehind(t, l);
    }
  }

  lemma {:induction false} SilenceBehind(t: seq<Complex>, l: nat)
    requires l <= |t| && Silent(t[l..])
    ensures (t + [ZERO])[..l] == t[..l] && Silent((t + [ZERO])[l..])
    ensures l > 0 ==> (t + [ZERO])[l - 1] == t[l - 1]
  {
    assert (t + [ZERO])[l..] == t[l..] + [ZERO];
  }

  /** Trimming removes silence at the edges and nothing else; nothing is left only of silence. */
  lemma {:induction false} TrimExact(s: seq<Complex>)
    ensures (exists f: nat :: TrimmedTo(s, f, Trim(s))) && (Trim(s) == [] <==> Silent(s))
  {
    var f := TrimHeadCuts(s);
    var h := TrimHead(s);
    var l := TrimTailCuts(h);
    assert h[..l] == s[f..f + l] && h[l..] == s[f + l..];
    if l > 0 {
      assert TrimmedTo(s, f, Trim(s)) && s[f] != ZERO;
    } else {
      assert s == s[..f] + h[l..];
      assert TrimmedTo(s, f, Trim(s));
    }
  }

  // ---- the committed recording ---------------------------------------------------------------

  function Weighted(head: real, tail: real, w: real): real { head * w + tail * (1.0 - w) }

  function Blend(head: Complex, tail: Complex, w: real): Complex {
    Complex(Weighted(head.re, tail.re, w), Weighted(head.im, tail.im, w))
  }

  /** The last `n` samples faded into the first `n`. */
  function Spliced(buf: seq<Complex>, n: nat, fade: Fade): (r: seq<Complex>)
    requires 4 * n <= |buf|
    ensures |r| == if n > 1 then |buf| - n else |buf|
  {
    if n > 1 then
      var len := |buf| - n;
      seq(len, i requires 0 <= i < len => if i < n then Blend(buf[i], buf[len + i], fade(i, n)) else buf[i])
    else buf
  }

  /** The trimmed recording with its silent tail of half a second, as far as there is room. */
  function Padded(trimmed: seq<Complex>, rate: u32, max: nat): seq<Complex> {
    trimmed + Zeros(Min((rate + 1) / 2, MonusNat(max, |trimmed|)))
  }

  function FadeSamples(len: nat, rate: u32): nat { Min(rate * 40 / 1000, len / 4) }

  function Oldest(recording: seq<Complex>, max: nat): seq<Complex> {
    if |recording| > max then recording[..max] else recording
  }

  /** What is committed from a recording; nothing from silence. */
  function Committed(recording: seq<Complex>, rate: u32, max: nat, fade: Fade): seq<Complex> {
    var trimmed := Trim(Oldest(recording, max));
    if trimmed == [] then []
    else
      var padded := Padded(trimmed, rate, max);
      Spliced(padded, FadeSamples(|padded|, rate), fade)
  }

  /** The crossfade loop, in place, and the cut of the tail. */
  method CrossFade(buf: seq<Complex>, n: nat, fade: Fade) returns (r: seq<Complex>)
    requires 4 * n <= |buf|
    ensures r == Spliced(buf, n, fade)
  {
    hide Blend;
    r := buf;
    if n > 1 {
      for i := 0 to n
        invariant |r| == |buf|
        invariant forall k :: 0 <= k < i ==> r[k] == Blend(buf[k], buf[|buf| - n + k], fade(k, n))
        invariant forall k :: i <= k < |buf| ==> r[k] == buf[k]
      {
        var tailIdx := |buf| - n + i;
        r := r[i := Blend(r[i], r[tailIdx], fade(i, n))];
      }
      r := r[..|buf| - n];
    }
  }

  /** The search for the first and the last sample that is not silent. */
  method TrimEdges(buf: seq<Complex>) returns (r: seq<Complex>)
    ensures r == Trim(buf)
  {
    var first := 0;
    while first < |buf| && buf[first] == ZERO
      invariant first <= |buf| && TrimHead(buf[first..]) == TrimHead(buf)
    {
      assert buf[first..][1..] == buf[first + 1..];
      first := first + 1;
    }
    assert TrimHead(buf) == buf[first..];
    var end := |buf|;
    assert buf[first..end] == buf[first..];
    while end > first && buf[end - 1] == ZERO
      invariant first <= end <= |buf| && TrimTail(buf[first..end]) == TrimTail(buf[first..])
    {
      assert buf[first..end][..end - first - 1] == buf[first..end - 1];
      end := end - 1;
    }
    r := buf[first..end];
  }

  method Commit(recording: seq<Complex>, rate: u32, max: nat, fade: Fade) returns (buf: seq<Complex>)
    ensures buf == Committed(recording, rate, max, fade)
  {
    hide Trim, Spliced;
    buf := Oldest(recording, max);
    buf := TrimEdges(buf);
    if buf == [] {
      return;
    }
    var tailPad := (rate + 1) / 2;
    var room := MonusNat(max, |buf|);
    buf := buf + Zeros(Min(tailPad, room));
    buf := CrossFade(buf, Min(rate * 40 / 1000, |buf| / 4), fade);
  }

  // ---- what a commit keeps ----------------------------------------------------------------------

  /** A commit of anything but silence is not empty and keeps the bound, so the playback loop ends. */
  lemma {:induction false} CommittedLength(recording: seq<Complex>, rate: u32, max: nat, fade: Fade)
    ensures var c := Committed(recording, rate, max, fade);
      |c| <= max && (c == [] <==> Silent(Oldest(recording, max)))
  {
    hide Silent, Trim, Spliced;
    var kept := Oldest(recording, max);
    TrimExact(kept);
    TrimShortens(kept);
  }

  lemma {:induction false} TrimShortens(s: seq<Complex>)
    ensures |Trim(s)| <= |s|
  {
    TrimExact(s);
  }

  /** Between the two. */
  predicate Amid(x: real, a: real, b: real) { (a <= x <= b) || (b <= x <= a) }

  /**
   What a commit makes of a recording `t` without its silent edges: half a second of silence is added as far
   as there is room, and 40 ms or a quarter of it all, whichever is less, are faded from the end into the
   beginning. Outside the fade every sample is the recorded one, inside each component lies between the two
   samples it blends; and where the loop wraps, the first sample is the one that followed the last.
   */
  lemma {:induction false} CommittedSamples(recording: seq<Complex>, rate: u32, max: nat, fade: Fade)
    requires !Silent(Oldest(recording, max))
    ensures exists f: nat :: TrimmedTo(Oldest(recording, max), f, Trim(Oldest(recording, max)))
    ensures LoopOf(Trim(Oldest(recording, max)), rate, max, Committed(recording, rate, max, fade))
  {
    hide Silent, Trim, Blend, TrimmedTo, Between;
    var kept := Oldest(recording, max);
    TrimExact(kept);
    TrimShortens(kept);
    var t := Trim(kept);
    var p := Padded(t, rate, max);
    var n := FadeSamples(|p|, rate);
    forall i | 0 <= i < |p|
      ensures p[i] == At(t, i)
    {
      assert i >= |t| ==> p[i] == ZERO;
    }
    if n > 1 { SplicedSamples(p, n, fade); }
  }

  /** `c` is a loop of the recorded samples `t`. */
  predicate LoopOf(t: seq<Complex>, rate: u32, max: nat, c: seq<Complex>)
  {
    var whole := |t| + Min((rate + 1) / 2, MonusNat(max, |t|));
    var fading := Min(rate * 40 / 1000, whole / 4);
    var cut := if fading > 1 then fading else 0;
    && |c| == whole - cut
    && (forall i :: cut <= i < |c| ==> c[i] == At(t, i))
    && (forall i :: 0 <= i < cut ==> Between(c[i], At(t, i), At(t, |c| + i)))
    && (cut > 0 ==> c[0] == At(t, |c|))
  }

  predicate Between(x: Complex, a: Complex, b: Complex) { Amid(x.re, a.re, b.re) && Amid(x.im, a.im, b.im) }

  lemma {:induction false} SplicedSamples(buf: seq<Complex>, n: nat, fade: Fade)
    requires 4 * n <= |buf| && n > 1
    ensures var c := Spliced(buf, n, fade);
      && |c| == |buf| - n
      && (forall i :: n <= i < |c| ==> c[i] == buf[i])
      && (forall i :: 0 <= i < n ==> Between(c[i], buf[i], buf[|c| + i]))
      && c[0] == buf[|c|]
  {
    hide Blend, Between;
    var c := Spliced(buf, n, fade);
    forall i | 0 <= i < n
      ensures Between(c[i], buf[i], buf[|c| + i])
    {
      BlendBetween(buf[i], buf[|c| + i], fade(i, n));
    }
    BlendNothing(buf[0], buf[|c|], fade(0, n));
  }

  lemma {:induction false} BlendBetween(a: Complex, b: Complex, w: real)
    requires 0.0 <= w <= 1.0
    ensures Between(Blend(a, b, w), a, b)
  {
    hide Amid, Weighted;
    AmidBlend(a.re, b.re, w);
    AmidBlend(a.im, b.im, w);
  }

  lemma {:induction false} AmidBlend(a: real, b: real, w: real)
    requires 0.0 <= w <= 1.0
    ensures Amid(Weighted(a, b, w), a, b)
  {
    var d, v := b - a, 1.0 - w;
    var x := a * w + b * v;
    Distribute(a, b, w);
    if d >= 0.0 {
      Nonnegative(d, v);
      Nonnegative(d, w);
      assert a <= x <= b;
    } else {
      Nonnegative(-d, v);
      Nonnegative(-d, w);
      assert b <= x <= a;
    }
  }

  lemma {:induction false} Distribute(a: real, b: real, w: real)
    ensures a * w + b * (1.0 - w) == a + (b - a) * (1.0 - w) == b - (b - a) * w
  {}

  lemma {:induction false} Nonnegative(x: real, y: real)
    requires x >= 0.0 && y >= 0.0
    ensures x * y >= 0.0 && (-x) * y == -(x * y)
  {}

  lemma {:induction false} BlendNothing(a: Complex, b: Complex, w: real)
    requires w == 0.0
    ensures Blend(a, b, w) == b
  {}
}
