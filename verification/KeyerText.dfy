/** The exact timing of macros: when every key edge of a queued text falls. */
module KeyerText {
  import opened Base
  import opened KeyerConfig
  import opened Morse
  import TextEncoder
  import opened Engine
  import opened KeyerFacts
  import opened KeyerRuns
  import opened KeyerSafety
  import opened KeyerQuiescence

  /** The key edges of the next `n` ticks, stamped with the engine's clock. */
  function KeyEdges(k: Keyer, n: nat): seq<KeyTransition>
    decreases n
  {
    if n == 0 then [] else EdgeOf(k.Tick()) + KeyEdges(k.Tick().keyer, n - 1)
  }

  function EdgeOf(s: Step): seq<KeyTransition> {
    match s.out
    case Some(KeyDown) => [KeyTransition(true, s.keyer.elapsedUs)]
    case Some(KeyUp) => [KeyTransition(false, s.keyer.elapsedUs)]
    case _ => []
  }

  lemma {:induction false} KeyEdgesSplit(k: Keyer, m: nat, n: nat)
    ensures KeyEdges(k, m + n) == KeyEdges(k, m) + KeyEdges(Ticks(k, m), n)
    decreases m
  {
    hide Keyer.Tick, EdgeOf;
    if m > 0 { KeyEdgesSplit(k.Tick().keyer, m - 1, n); }
  }

  // ---- rounding up to whole ticks ----------------------------------------------------------

  /** The first whole number of ticks that lasts at least `d`. */
  function TicksFor(d: nat, q: Quantum): (n: nat)
    ensures n >= 1
  {
    if d <= q then 1 else 1 + TicksFor(d - q, q)
  }

  function RoundUp(d: nat, q: Quantum): (r: nat)
    ensures r >= q && d <= r && (d > 0 ==> r < d + q)
  {
    if d <= q then q else q + RoundUp(d - q, q)
  }

  /** The mode sends text, and every element and gap lasts longer than a tick. */
  predicate TickFits(c: Config, q: Quantum) {
    c.mode != Straight && q < c.ElementGapUs() && q < c.EffectiveDotUs()
  }

  // ---- the ideal timing of a queue ------------------------------------------------------------

  function ElemUs(c: Config, e: Element): nat {
    if e.Keyed() then ElementUs(c, e == Dash) else GapUs(c, e)
  }

  /**
   An idle engine at time `now` starts the next element one tick later and gives it its duration,
   rounded up to whole ticks; the first pulse after a PTT request starts another tick later.
   */
  function Keying(c: Config, q: Quantum, queue: seq<Element>, now: nat, ptt: bool): seq<Pulse> {
    if queue == [] then []
    else
      var e, start := queue[0], now + q;
      var end := start + RoundUp(ElemUs(c, e), q);
      if e.Keyed() then
        [Pulse(if ptt then start else start + q, end)] + Keying(c, q, queue[1..], end, true)
      else Keying(c, q, queue[1..], end, ptt)
  }

  function KeyingTicks(c: Config, q: Quantum, queue: seq<Element>): nat {
    if queue == [] then 0 else 1 + TicksFor(ElemUs(c, queue[0]), q) + KeyingTicks(c, q, queue[1..])
  }

  function PulseTransitions(ps: seq<Pulse>): seq<KeyTransition> {
    if ps == [] then []
    else [KeyTransition(true, ps[0].down), KeyTransition(false, ps[0].up)] + PulseTransitions(ps[1..])
  }

  // ---- the engine in a macro ---------------------------------------------------------------------

  /** Sending text, untouched by paddles. */
  predicate Macro(k: Keyer) {
    && Safe(k) && TickFits(k.config, k.tickUs)
    && !k.ditHeld && !k.dashHeld && !k.ditMemory && !k.dashMemory
  }

  /** Between two elements of a macro. */
  predicate Between(k: Keyer) {
    Macro(k) && k.state == Idle && k.phaseEndUs <= k.elapsedUs
  }

  predicate Sounding(k: Keyer) {
    Macro(k) && k.textSending && k.singlePaddleDecided && k.InElement() && k.elapsedUs < k.phaseEndUs
  }

  predicate Pausing(k: Keyer) {
    Macro(k) && k.textSending && k.state == DitDelay && k.elapsedUs < k.phaseEndUs
  }

  /** The clock, the queue and the settings of a macro that moves on. */
  predicate Onward(k: Keyer, m: Keyer) {
    m.config == k.config && m.tickUs == k.tickUs && m.textQueue == k.textQueue
  }

  lemma {:induction false} PopTick(k: Keyer)
    requires Between(k) && k.textQueue != []
    ensures var s := k.Tick(); var m := s.keyer; var e := k.textQueue[0];
      && m.config == k.config && m.tickUs == k.tickUs && m.textQueue == k.textQueue[1..]
      && m.elapsedUs == k.elapsedUs + k.tickUs
      && m.phaseEndUs == m.elapsedUs + ElemUs(k.config, e)
      && if e.Keyed() then
           && Sounding(m) && m.pttActive && m.keyActive == k.pttActive
           && s.out == Some(if k.pttActive then KeyDown else PttRequest(true))
         else Pausing(m) && m.pttActive == k.pttActive && s.out == None
  {
    hide Keyer.DispatchNext, Keyer.HandleHangTime, Keyer.StartElementKeyed, ElementUs, Config.ElementGapUs;
    TickSafe(k);
    var t := k.(elapsedUs := k.elapsedUs + k.tickUs);
    DispatchFacts(t);
    ElemLong(k.config, k.tickUs, k.textQueue[0]);
  }

  lemma {:induction false} ElemLong(c: Config, q: Quantum, e: Element)
    requires TickFits(c, q)
    ensures ElemUs(c, e) > q
  {
    hide Config.EffectiveDotUs, Config.EffectiveDashUs, Config.ElementGapUs;
    GapLong(c, e);
  }

  lemma {:induction false} GapLong(c: Config, e: Element)
    ensures GapUs(c, e) >= c.ElementGapUs()
  {
    hide Config.DotDurationUs;
  }

  /** A sounding element: the pending key-down, then silence until the deadline, then the key-up. */
  lemma {:induction false} SoundingTick(k: Keyer)
    requires Sounding(k) && (k.keyActive || k.elapsedUs + k.tickUs < k.phaseEndUs)
    ensures var s := k.Tick(); var m := s.keyer;
      && Onward(k, m) && m.elapsedUs == k.elapsedUs + k.tickUs && m.pttActive
      && if !k.keyActive then Sounding(m) && m.keyActive && m.phaseEndUs == k.phaseEndUs && s.out == Some(KeyDown)
         else if m.elapsedUs < k.phaseEndUs then
           Sounding(m) && m.keyActive && m.phaseEndUs == k.phaseEndUs && s.out == None
         else Between(m) && m.textSending && s.out == Some(KeyUp)
  {
    hide Keyer.TickIambicElement, Keyer.TickSinglePaddle, Config.EffectiveDotUs, Config.ElementGapUs;
    TickSafe(k);
    var t := k.(elapsedUs := k.elapsedUs + k.tickUs);
    SoundingStep(t);
  }

  lemma {:induction false} SoundingStep(t: Keyer)
    requires t.textSending && t.singlePaddleDecided && t.InElement() && !t.AnyHeld() && Safe(t)
    ensures var delay := if t.state == SendDit then DitDelay else DashDelay;
      var s := if !t.keyActive then t.EmitKeyDown()
               else if t.PhaseExpired() then t.FinishElement(delay) else Step(t, None);
      && t.TickIambicElement(delay) == s
      && (t.config.mode == SinglePaddle ==> t.TickSinglePaddle() == s)
      && (s.keyer.config == t.config && s.keyer.tickUs == t.tickUs && s.keyer.elapsedUs == t.elapsedUs)
      && s.keyer.ditHeld == t.ditHeld && s.keyer.dashHeld == t.dashHeld && s.keyer.textQueue == t.textQueue
      && s.keyer.ditMemory == t.ditMemory && s.keyer.dashMemory == t.dashMemory && s.keyer.textSending
      && s.keyer.singlePaddleDecided && s.keyer.pttActive && s.keyer.phaseEndUs == t.phaseEndUs
      && s.keyer.state == (if t.keyActive && t.PhaseExpired() then Idle else t.state)
      && s.keyer.keyActive == !(t.keyActive && t.PhaseExpired())
      && s.out == (if !t.keyActive then Some(KeyDown) else if t.PhaseExpired() then Some(KeyUp) else None)
  {
    hide Keyer.FinishElement, Keyer.EmitKeyDown, Keyer.LatchOpposite, Config.ElementGapUs, Anchor;
    LatchFacts(t);
    KeyDownFacts(t);
    FinishElementFacts(t, if t.state == SendDit then DitDelay else DashDelay);
  }

  /** A pause with more text to come: silence until the deadline, then idle. */
  lemma {:induction false} PausingTick(k: Keyer)
    requires Pausing(k) && k.textQueue != []
    ensures var s := k.Tick(); var m := s.keyer;
      && Onward(k, m) && m.elapsedUs == k.elapsedUs + k.tickUs && m.pttActive == k.pttActive
      && s.out == None
      && if m.elapsedUs < k.phaseEndUs then Pausing(m) && m.phaseEndUs == k.phaseEndUs
         else Between(m) && m.textSending
  {
    hide Keyer.TickIambicInner, Keyer.TickSinglePaddleDelay, Config.EffectiveDotUs, Config.ElementGapUs;
    TickSafe(k);
    var t := k.(elapsedUs := k.elapsedUs + k.tickUs);
    PausingStep(t, k.config.mode == Bug);
  }

  lemma {:induction false} PausingStep(t: Keyer, bugMode: bool)
    requires t.textSending && t.state == DitDelay && !t.AnyHeld() && t.textQueue != []
    requires !t.ditMemory && !t.dashMemory
    ensures var s := Step(if t.PhaseExpired() then t.(state := Idle) else t, None);
      t.TickIambicInner(bugMode) == s == t.TickSinglePaddleDelay()
  {
    hide Keyer.TickIambicInner, Keyer.StartElementKeyed, Keyer.ResolveDelayTail, Keyer.EnterIdleFromDelay,
         LetterRestUs, Anchor;
    DelayShape(t, bugMode);
    DelayAlone(t, bugMode);
    TailFacts(t);
  }

  // ---- one element of a macro -----------------------------------------------------------------

  lemma {:induction false} SoundingRun(k: Keyer)
    requires Sounding(k) && k.keyActive
    ensures var d := k.phaseEndUs - k.elapsedUs; var n := TicksFor(d, k.tickUs); var m := Ticks(k, n);
      && Between(m) && m.textSending && Onward(k, m) && m.pttActive
      && m.elapsedUs == k.elapsedUs + RoundUp(d, k.tickUs)
      && KeyEdges(k, n) == [KeyTransition(false, m.elapsedUs)]
    decreases k.phaseEndUs - k.elapsedUs
  {
    hide Keyer.Tick, Sounding, Between;
    SoundingTick(k) by { assert Sounding(k); }
    SoundingAhead(k);
    var m := k.Tick().keyer;
    if m.elapsedUs < k.phaseEndUs {
      SoundingRun(m);
      assert [] + KeyEdges(m, TicksFor(m.phaseEndUs - m.elapsedUs, k.tickUs))
          == KeyEdges(m, TicksFor(m.phaseEndUs - m.elapsedUs, k.tickUs));
    } else {
      assert KeyEdges(m, 0) == [] && Ticks(m, 0) == m;
    }
  }

  lemma {:induction false} SoundingAhead(k: Keyer)
    ensures Sounding(k) ==> k.elapsedUs < k.phaseEndUs
  {}

  /** An element that had to ask for PTT first: its key-down comes one tick after its start. */
  lemma {:induction false} PendingRun(k: Keyer)
    requires Sounding(k) && !k.keyActive && k.elapsedUs + k.tickUs < k.phaseEndUs
    ensures var d := k.phaseEndUs - k.elapsedUs; var n := TicksFor(d, k.tickUs); var m := Ticks(k, n);
      && Between(m) && m.textSending && Onward(k, m) && m.pttActive
      && m.elapsedUs == k.elapsedUs + RoundUp(d, k.tickUs)
      && KeyEdges(k, n) == [KeyTransition(true, k.elapsedUs + k.tickUs), KeyTransition(false, m.elapsedUs)]
  {
    hide Keyer.Tick, Sounding, Between;
    SoundingTick(k);
    var m := k.Tick().keyer;
    SoundingRun(m);
    assert TicksFor(k.phaseEndUs - k.elapsedUs, k.tickUs) == 1 + TicksFor(m.phaseEndUs - m.elapsedUs, k.tickUs);
  }

  lemma {:induction false} PausingRun(k: Keyer)
    requires Pausing(k) && k.textQueue != []
    ensures var d := k.phaseEndUs - k.elapsedUs; var n := TicksFor(d, k.tickUs); var m := Ticks(k, n);
      && Between(m) && m.textSending && Onward(k, m) && m.pttActive == k.pttActive
      && m.elapsedUs == k.elapsedUs + RoundUp(d, k.tickUs)
      && KeyEdges(k, n) == []
    decreases k.phaseEndUs - k.elapsedUs
  {
    hide Keyer.Tick, Pausing, Between;
    PausingTick(k);
    PausingAhead(k);
    var m := k.Tick().keyer;
    if m.elapsedUs < k.phaseEndUs {
      PausingRun(m);
    } else {
      assert KeyEdges(m, 0) == [] && Ticks(m, 0) == m;
    }
  }

  lemma {:induction false} PausingAhead(k: Keyer)
    ensures Pausing(k) ==> k.elapsedUs < k.phaseEndUs
  {}

  // ---- the silence after a macro ------------------------------------------------------------------

  /** Nothing left that could key. */
  predicate Spent(k: Keyer) { Calm(k) && !k.keyActive && Budget(k) == 0 }

  lemma {:induction false} SpentTick(k: Keyer)
    requires Spent(k)
    ensures Spent(k.Tick().keyer) && EdgeOf(k.Tick()) == []
  {
    hide Keyer.Tick, Calm, Safe, Rank, Settled;
    TickSafe(k) by { SpentSafe(k); }
    if Settled(k) {
      SettledTick(k);
      SettledSpent(k.Tick().keyer);
    } else {
      TickProgress(k);
    }
  }

  lemma {:induction false} SpentSafe(k: Keyer)
    requires Calm(k)
    ensures Safe(k)
  {}

  lemma {:induction false} SettledSpent(k: Keyer)
    requires Settled(k)
    ensures Spent(k)
  {}

  lemma {:induction false} SpentSilent(k: Keyer, n: nat)
    requires Spent(k)
    ensures KeyEdges(k, n) == []
    decreases n
  {
    hide Keyer.Tick, Spent, EdgeOf;
    if n > 0 {
      SpentTick(k);
      SpentSilent(k.Tick().keyer, n - 1);
    }
  }

  // ---- whole macros ---------------------------------------------------------------------------------

  /** One element from idle to idle. */
  lemma {:induction false} ElementRun(k: Keyer)
    requires Between(k) && k.textQueue != [] && (k.textQueue[0].Keyed() || |k.textQueue| > 1)
    ensures var e := k.textQueue[0];
      var start := k.elapsedUs + k.tickUs; var end := start + RoundUp(ElemUs(k.config, e), k.tickUs);
      var n := 1 + TicksFor(ElemUs(k.config, e), k.tickUs);
      var m := Ticks(k, n);
      && Between(m) && m.textSending && m.config == k.config && m.tickUs == k.tickUs && m.elapsedUs == end
      && m.textQueue == k.textQueue[1..] && m.pttActive == (k.pttActive || e.Keyed())
      && KeyEdges(k, n) ==
           if e.Keyed() then
             [KeyTransition(true, if k.pttActive then start else start + k.tickUs), KeyTransition(false, end)]
           else []
  {
    hide Keyer.Tick, Between, Sounding, Pausing, ElemUs;
    PopTick(k);
    BetweenLong(k);
    ElemLong(k.config, k.tickUs, k.textQueue[0]);
    var m := k.Tick().keyer;
    if !k.textQueue[0].Keyed() { PausingRun(m); }
    else if m.keyActive { SoundingRun(m); }
    else { PendingRun(m); }
  }

  lemma {:induction false} BetweenLong(k: Keyer)
    requires Between(k)
    ensures TickFits(k.config, k.tickUs)
  {}

  /** The last gap of a queue: nothing keys any more. */
  lemma {:induction false} LastGap(k: Keyer, n: nat)
    requires Between(k) && |k.textQueue| == 1 && !k.textQueue[0].Keyed()
    ensures KeyEdges(k, n) == []
  {
    hide Keyer.Tick, Between, Sounding;
    if n > 0 {
      PopTick(k);
      var m := k.Tick().keyer;
      PausingSpent(m);
      SpentSilent(m, n - 1);
    }
  }

  lemma {:induction false} PausingSpent(k: Keyer)
    requires Pausing(k) && k.textQueue == []
    ensures Spent(k)
  {
    hide Config.EffectiveDotUs, Config.ElementGapUs;
  }

  lemma {:induction false} BetweenSpent(k: Keyer)
    requires Between(k) && k.textQueue == []
    ensures Spent(k)
  {
    hide Config.EffectiveDotUs, Config.ElementGapUs;
  }

  /**
   The key edges of a macro, exactly: for any queue, speed and tick, an engine left alone between two
   elements produces the pulses of the ideal timing and nothing else, however long it keeps ticking.
   */
  lemma {:induction false} MacroTiming(k: Keyer, n: nat)
    requires Between(k) && n >= KeyingTicks(k.config, k.tickUs, k.textQueue)
    ensures KeyEdges(k, n) == PulseTransitions(Keying(k.config, k.tickUs, k.textQueue, k.elapsedUs, k.pttActive))
    decreases |k.textQueue|
  {
    hide Keyer.Tick, Between, ElemUs, RoundUp, TicksFor, PulseTransitions, Keying, KeyEdges, Ticks;
    if k.textQueue == [] {
      NoKeying(k.config, k.tickUs, k.elapsedUs, k.pttActive);
      BetweenSpent(k);
      SpentSilent(k, n);
    } else if |k.textQueue| == 1 && !k.textQueue[0].Keyed() {
      var end := k.elapsedUs + k.tickUs + RoundUp(ElemUs(k.config, k.textQueue[0]), k.tickUs);
      NoKeying(k.config, k.tickUs, end, k.pttActive);
      KeyingCons(k.config, k.tickUs, k.textQueue, k.elapsedUs, k.pttActive);
      LastGap(k, n);
    } else {
      var a := 1 + TicksFor(ElemUs(k.config, k.textQueue[0]), k.tickUs);
      ElementRun(k);
      KeyEdgesSplit(k, a, n - a);
      var m := Ticks(k, a);
      MacroTiming(m, n - a);
      KeyingCons(k.config, k.tickUs, k.textQueue, k.elapsedUs, k.pttActive);
    }
  }

  lemma {:induction false} NoKeying(c: Config, q: Quantum, now: nat, ptt: bool)
    ensures PulseTransitions(Keying(c, q, [], now, ptt)) == []
  {}

  lemma {:induction false} KeyingCons(c: Config, q: Quantum, queue: seq<Element>, now: nat, ptt: bool)
    requires queue != []
    ensures var e, start := queue[0], now + q; var end := start + RoundUp(ElemUs(c, e), q);
      var rest := PulseTransitions(Keying(c, q, queue[1..], end, ptt || e.Keyed()));
      PulseTransitions(Keying(c, q, queue, now, ptt)) ==
        if e.Keyed() then
          [KeyTransition(true, if ptt then start else start + q), KeyTransition(false, end)] + rest
        else rest
  {
    hide ElemUs, RoundUp;
    var e, start := queue[0], now + q;
    var end := start + RoundUp(ElemUs(c, e), q);
    var rest := Keying(c, q, queue[1..], end, ptt || e.Keyed());
    var p := Pulse(if ptt then start else start + q, end);
    assert ([p] + rest)[1..] == rest;
  }

  /** A fresh engine with a text queued is between elements. */
  lemma {:induction false} FreshBetween(c: Config, q: Quantum, text: string)
    requires TickFits(c, q)
    ensures var k := Fresh(c, q).SendText(text);
      && Between(k) && !k.pttActive && k.elapsedUs == 0 && k.config == c && k.tickUs == q
      && k.textQueue == TextEncoder.Elements(text, true)
  {
    hide TickFits;
    assert [] + TextEncoder.Elements(text, true) == TextEncoder.Elements(text, true);
  }

  // ---- bounds on every pulse and gap --------------------------------------------------------------

  /** When the engine is idle again after a queue. */
  function NowAfter(c: Config, q: Quantum, queue: seq<Element>, now: nat): nat {
    if queue == [] then now else NowAfter(c, q, queue[1..], now + q + RoundUp(ElemUs(c, queue[0]), q))
  }

  /** The timing of a queue is the timing of its parts, the second from where the first ends. */
  lemma {:induction false} KeyingSplit(c: Config, q: Quantum, a: seq<Element>, b: seq<Element>, now: nat, ptt: bool)
    ensures var ps := Keying(c, q, a, now, ptt);
      Keying(c, q, a + b, now, ptt) == ps + Keying(c, q, b, NowAfter(c, q, a, now), ptt || ps != [])
    ensures NowAfter(c, q, a + b, now) == NowAfter(c, q, b, NowAfter(c, q, a, now))
  {
    hide ElemUs, RoundUp;
    if a == [] {
      assert a + b == b;
    } else {
      assert (a + b)[1..] == a[1..] + b;
      KeyingSplit(c, q, a[1..], b, now + q + RoundUp(ElemUs(c, a[0]), q), ptt || a[0].Keyed());
    }
  }

  /**
   Wherever an element, a gap and an element follow each other in a queue: the first pulse lasts its
   duration or less than a tick more (a tick less when it had to ask for PTT), and the key stays up for
   the gap plus two ticks, or less than a tick more.
   */
  lemma {:induction false} MacroBounds(c: Config, q: Quantum, pre: seq<Element>, a: Element, g: Element, b: Element,
                                       post: seq<Element>, now: nat, ptt: bool)
    requires a.Keyed() && !g.Keyed() && b.Keyed() && TickFits(c, q)
    ensures var ps := Keying(c, q, pre + [a, g, b] + post, now, ptt);
      var i := |Keying(c, q, pre, now, ptt)|;
      var ask := if ptt || i > 0 then 0 else q;
      && i + 1 < |ps|
      && ElemUs(c, a) - ask <= ps[i].up - ps[i].down < ElemUs(c, a) - ask + q
      && GapUs(c, g) + 2 * q <= ps[i + 1].down - ps[i].up < GapUs(c, g) + 3 * q
  {
    hide ElemUs, Config.ElementGapUs, Config.EffectiveDotUs;
    var head := Keying(c, q, pre, now, ptt);
    var t := NowAfter(c, q, pre, now);
    var p := ptt || head != [];
    assert pre + [a, g, b] + post == pre + ([a, g, b] + post);
    KeyingSplit(c, q, pre, [a, g, b] + post, now, ptt);
    ThreeElements(c, q, a, g, b, post, t, p);
    ElemLong(c, q, a);
    ElemLong(c, q, g);
    GapElem(c, g);
  }

  lemma {:induction false} GapElem(c: Config, g: Element)
    requires !g.Keyed()
    ensures ElemUs(c, g) == GapUs(c, g)
  {}

  lemma {:induction false} ThreeElements(c: Config, q: Quantum, a: Element, g: Element, b: Element,
                                         post: seq<Element>, t: nat, ptt: bool)
    requires a.Keyed() && !g.Keyed() && b.Keyed()
    ensures var ps := Keying(c, q, [a, g, b] + post, t, ptt);
      var up := t + q + RoundUp(ElemUs(c, a), q);
      && |ps| >= 2
      && ps[0] == Pulse(if ptt then t + q else t + 2 * q, up)
      && ps[1].down == up + 2 * q + RoundUp(ElemUs(c, g), q)
  {
    hide ElemUs, RoundUp;
    assert ([a, g, b] + post)[1..] == [g, b] + post && ([g, b] + post)[1..] == [b] + post;
    var up := t + q + RoundUp(ElemUs(c, a), q);
    var rest := Keying(c, q, [b] + post, up + q + RoundUp(ElemUs(c, g), q), true);
    assert Keying(c, q, [g, b] + post, up, true) == rest;
  }
}
