/** What paddle holds and taps mean, over holds of any length. */
module KeyerPaddles {
  import opened Base
  import opened KeyerConfig
  import opened Morse
  import opened Engine
  import opened KeyerFacts
  import opened KeyerRuns
  import opened KeyerSafety
  import opened KeyerQuiescence
  import opened KeyerDrift

  // ---- holds ---------------------------------------------------------------------------

  /** Paddles held so that the mode keeps sending for as long as they are. */
  predicate Holding(k: Keyer) {
    match k.config.mode
    case IambicA => k.ditHeld && k.dashHeld
    case IambicB => k.ditHeld && k.dashHeld
    case Ultimatic => k.ditHeld && k.dashHeld && k.lastPaddle.Some?
    case SinglePaddle => k.AnyHeld() && (k.state == SendDit ==> !k.singlePaddleDecided)
    case Bug => k.ditHeld
    case Straight => false
  }

  /** The phase after `s` while the paddles are held. */
  function NextHeld(mode: Mode, last: Option<bool>, s: KeyerState): KeyerState {
    match s
    case SendDit => if mode == SinglePaddle then SendDash else DitDelay
    case SendDash => DashDelay
    case _ =>
      match mode
      case Ultimatic => if last == Some(true) then SendDash else SendDit
      case IambicA => if s == DitDelay then SendDash else SendDit
      case IambicB => if s == DitDelay then SendDash else SendDit
      case _ => SendDit
  }

  /** What one tick of a held engine must do, seen from the clock-advanced state. */
  predicate HeldStep(t: Keyer, m: Keyer) {
    && m.config == t.config && m.tickUs == t.tickUs && m.elapsedUs == t.elapsedUs
    && m.lastPaddle == t.lastPaddle && Holding(m) && InPhase(m)
    && m.state == if t.PhaseExpired() then NextHeld(t.config.mode, t.lastPaddle, t.state) else t.state
  }

  lemma {:induction false} HeldElement(t: Keyer)
    requires Late(t) && Holding(t) && t.InElement() && t.config.mode != SinglePaddle
    ensures HeldStep(t, t.TickIambicElement(if t.state == SendDit then DitDelay else DashDelay).keyer)
  {
    hide Keyer.FinishElement, Keyer.EmitKeyDown, Keyer.LatchOpposite, Config.ElementGapUs, Anchor;
    LatchFacts(t);
    KeyDownFacts(t);
    FinishElementFacts(t.LatchOpposite(), if t.state == SendDit then DitDelay else DashDelay);
  }

  lemma {:induction false} HeldChoice(t: Keyer)
    requires Holding(t) && Delay(t.state) && t.config.mode != SinglePaddle
    ensures ChoiceAfter(t, t.state == DitDelay, t.config.mode == Bug)
      == Some(NextHeld(t.config.mode, t.lastPaddle, t.state) == SendDash)
  {}

  lemma {:induction false} HeldDelay(t: Keyer)
    requires Late(t) && Holding(t) && Delay(t.state) && t.config.mode != SinglePaddle
    ensures HeldStep(t, t.TickIambicInner(t.config.mode == Bug).keyer)
  {
    hide Keyer.TickIambicInner, Keyer.StartElementKeyed, Keyer.ResolveDelayTail, ChoiceAfter, ElementUs, Anchor;
    DelayShape(t, t.config.mode == Bug);
    HeldChoice(t);
    StartElementFacts(t, NextHeld(t.config.mode, t.lastPaddle, t.state) == SendDash);
  }

  lemma {:induction false} HeldIambic(t: Keyer)
    requires Late(t) && Holding(t) && t.config.mode != SinglePaddle
    ensures HeldStep(t, t.TickIambicInner(t.config.mode == Bug).keyer)
  {
    hide Keyer.TickIambicElement, HeldStep;
    match t.state
    case SendDit => HeldElement(t);
    case SendDash => HeldElement(t);
    case DitDelay => hide *; HeldDelay(t);
    case DashDelay => hide *; HeldDelay(t);
  }

  lemma {:induction false} HeldSinglePaddle(t: Keyer)
    requires Late(t) && Holding(t) && t.config.mode == SinglePaddle
    ensures HeldStep(t, t.TickSinglePaddle().keyer)
  {
    hide Keyer.FinishElement, Keyer.EmitKeyDown, Keyer.SchedulePhase, Keyer.StartElementKeyed, Config.EffectiveDotUs,
         Config.EffectiveDashUs, Config.ElementGapUs, ElementUs, Anchor;
    match t.state
    case SendDit => hide *; HeldUndecided(t);
    case SendDash =>
      KeyDownFacts(t);
      FinishElementFacts(t, DashDelay);
    case _ =>
      StartElementFacts(t.(singlePaddleDecided := false), false);
  }

  lemma {:induction false} HeldUndecided(t: Keyer)
    requires Late(t) && Holding(t) && t.config.mode == SinglePaddle && t.state == SendDit
    ensures HeldStep(t, t.TickSinglePaddle().keyer)
  {
    hide Keyer.FinishElement, Keyer.EmitKeyDown, Keyer.SchedulePhase, Keyer.ConfirmDit, Config.EffectiveDotUs,
         Config.EffectiveDashUs, Config.ElementGapUs, Anchor;
    KeyDownFacts(t);
    ScheduleFacts(t.(singlePaddleDecided := true, state := SendDash), UpgradeUs(t.config));
  }

  /** A held engine stays held, and changes phase exactly at the tick that reaches the deadline. */
  lemma {:induction false} HeldTick(k: Keyer)
    requires OnTime(k) && LongPhases(k.config, k.tickUs) && Holding(k)
    ensures var m := k.Tick().keyer;
      && OnTime(m) && Holding(m) && m.config == k.config && m.tickUs == k.tickUs && m.lastPaddle == k.lastPaddle
      && m.elapsedUs == k.elapsedUs + k.tickUs
      && if m.elapsedUs < k.phaseEndUs then m.state == k.state && m.phaseEndUs == k.phaseEndUs
         else
           && m.state == NextHeld(k.config.mode, k.lastPaddle, k.state)
           && m.phaseEndUs == k.phaseEndUs + PhaseUs(k.config, k.state, m.state)
  {
    hide Keyer.TickIambicInner, Keyer.TickSinglePaddle, LongPhases, PhaseUs, NextHeld;
    TickChained(k);
    var t := k.(elapsedUs := k.elapsedUs + k.tickUs);
    if k.config.mode == SinglePaddle { HeldSinglePaddle(t); } else { HeldIambic(t); }
  }

  lemma {:induction false} PhasePositive(c: Config, last: Option<bool>, tickUs: Quantum, s: KeyerState)
    requires LongPhases(c, tickUs)
    ensures PhaseUs(c, s, NextHeld(c.mode, last, s)) > tickUs
  {
    hide Config.EffectiveDotUs, Config.EffectiveDashUs, Config.ElementGapUs;
  }

  /** Phase and deadline of an ideal keyer at time `now`: phases follow each other without end or slack. */
  function Wave(c: Config, last: Option<bool>, tickUs: Quantum, s: KeyerState, end: nat, now: nat): (KeyerState, nat)
    requires LongPhases(c, tickUs)
    decreases if now < end then 0 else now - end + 1
  {
    if now < end then (s, end)
    else
      PhasePositive(c, last, tickUs, s);
      var next := NextHeld(c.mode, last, s);
      Wave(c, last, tickUs, next, end + PhaseUs(c, s, next), now)
  }

  /**
   For a hold of any length the engine is the ideal wave, sampled at its ticks: in iambic modes dits and
   dashes alternate for ever, in Ultimatic every element after the current one is the last-pressed side,
   and no deadline ever drifts.
   */
  lemma {:induction false} HeldWave(k: Keyer, n: nat)
    requires OnTime(k) && LongPhases(k.config, k.tickUs) && Holding(k)
    ensures var m := Ticks(k, n);
      && OnTime(m) && Holding(m) && m.config == k.config && m.elapsedUs == k.elapsedUs + n * k.tickUs
      && (m.state, m.phaseEndUs) == Wave(k.config, k.lastPaddle, k.tickUs, k.state, k.phaseEndUs, m.elapsedUs)
    decreases n
  {
    hide Keyer.Tick, OnTime, LongPhases, Holding, NextHeld, PhaseUs;
    if n == 0 {
      WaveNow(k);
    } else {
      HeldTick(k);
      var m := k.Tick().keyer;
      HeldWave(m, n - 1);
      assert n * k.tickUs == (n - 1) * k.tickUs + k.tickUs;
      WaveTick(k);
    }
  }

  lemma {:induction false} WaveNow(k: Keyer)
    requires OnTime(k) && LongPhases(k.config, k.tickUs)
    ensures Wave(k.config, k.lastPaddle, k.tickUs, k.state, k.phaseEndUs, k.elapsedUs) == (k.state, k.phaseEndUs)
  {
    hide LongPhases, NextHeld, PhaseUs;
  }

  /** The wave from one tick on is the wave from the next one on. */
  lemma {:induction false} WaveTick(k: Keyer)
    requires OnTime(k) && LongPhases(k.config, k.tickUs) && Holding(k)
    ensures var m := k.Tick().keyer; forall now :: now >= m.elapsedUs ==>
      Wave(k.config, k.lastPaddle, k.tickUs, k.state, k.phaseEndUs, now) ==
      Wave(k.config, k.lastPaddle, k.tickUs, m.state, m.phaseEndUs, now)
  {
    hide Keyer.Tick, OnTime, LongPhases, Holding, NextHeld, PhaseUs;
    HeldTick(k);
  }

  // ---- memories in the iambic modes --------------------------------------------------------------

  /** The side of the element a tick starts, if it starts one. */
  function Started(k: Keyer, m: Keyer): Option<bool> {
    if m.InElement() && !k.InElement() then Some(m.state == SendDash) else None
  }

  /** How many elements of one side the next `n` ticks start. */
  function Starts(k: Keyer, n: nat, isDash: bool): nat
    decreases n
  {
    if n == 0 then 0
    else
      var m := k.Tick().keyer;
      (if Started(k, m) == Some(isDash) then 1 else 0) + Starts(m, n - 1, isDash)
  }

  /** Each memory pays for exactly one element of its side. */
  predicate Paid(k: Keyer, m: Keyer) {
    && m.ditMemory == (k.ditMemory && Started(k, m) != Some(false))
    && m.dashMemory == (k.dashMemory && Started(k, m) != Some(true))
    && (Started(k, m) == Some(false) ==> k.ditMemory)
    && (Started(k, m) == Some(true) ==> k.dashMemory)
    && m.config == k.config
  }

  lemma {:induction false} PaidStart(k: Keyer, isDash: bool)
    requires !k.InElement() && (if isDash then k.dashMemory else k.ditMemory)
    ensures Paid(k, k.StartElementKeyed(isDash).keyer)
  {
    hide Keyer.StartElementKeyed, ElementUs, Anchor;
    StartElementFacts(k, isDash);
  }

  lemma {:induction false} PaidElement(k: Keyer, delay: KeyerState)
    requires Calm(k) && k.InElement() && Delay(delay)
    ensures Paid(k, k.TickIambicElement(delay).keyer)
  {
    hide Keyer.FinishElement, Keyer.EmitKeyDown, Keyer.LatchOpposite, Config.ElementGapUs, Anchor;
    LatchFacts(k);
    KeyDownFacts(k);
    FinishElementFacts(k, delay);
  }

  /** Delays lead on to a letter space, which leaves memories alone. */
  predicate Spaced(c: Config) { c.autoSpacing && LetterRestUs(c) > 0 }

  /** Memories outlive the delay: always in iambic B, and in iambic A when auto-spacing adds a letter space. */
  predicate Keeps(c: Config) { c.mode == IambicB || (c.mode == IambicA && Spaced(c)) }

  lemma {:induction false} PaidDelay(k: Keyer)
    requires Calm(k) && Delay(k.state) && Keeps(k.config)
    ensures Paid(k, k.TickIambicInner(false).keyer)
  {
    hide Keyer.TickIambicInner, Keyer.StartElementKeyed, Keyer.ResolveDelayTail, LetterRestUs, Anchor, Paid;
    DelayShape(k, false);
    DelayAlone(k, false);
    PaidWait(k);
    if k.ditMemory { PaidStart(k, false); }
    if k.dashMemory { PaidStart(k, true); }
    if (!k.ditMemory && !k.dashMemory) || k.config.mode == IambicA { PaidTail(k); }
  }

  lemma {:induction false} PaidWait(k: Keyer)
    ensures Paid(k, k)
  {}

  lemma {:induction false} PaidTail(k: Keyer)
    requires Delay(k.state) && k.textQueue == []
    requires (!k.ditMemory && !k.dashMemory) || Spaced(k.config)
    ensures Paid(k, k.ResolveDelayTail().keyer)
  {
    hide Keyer.ResolveDelayTail, LetterRestUs, Anchor;
    TailFacts(k);
    TailState(k);
  }

  lemma {:induction false} TailState(k: Keyer)
    requires k.textQueue == []
    ensures k.ResolveDelayTail().keyer.state == if Spaced(k.config) then LetterSpace else Idle
  {
    hide Config.LetterGapUs, Config.ElementGapUs;
  }

  lemma {:induction false} PaidIdle(k: Keyer)
    requires Calm(k) && k.state == Idle && Keeps(k.config)
    ensures Paid(k, k.TickIambicInner(false).keyer)
  {
    hide Keyer.StartElementKeyed, Keyer.DispatchNext, Keyer.HandleHangTime, Paid;
    if k.ditMemory { PaidStart(k, false); }
    else if k.dashMemory { PaidStart(k, true); }
    else { PaidHang(k); }
  }

  lemma {:induction false} PaidHang(k: Keyer)
    requires k.state == Idle
    ensures Paid(k, k.HandleHangTime().keyer)
  {
    hide Keyer.HandleHangTime;
    HangFacts(k);
  }

  lemma {:induction false} PaidLetterSpace(k: Keyer)
    requires k.state == LetterSpace
    ensures Paid(k, k.TickLetterSpace().keyer)
  {}

  lemma {:induction false} PaidInner(k: Keyer)
    requires Calm(k) && Keeps(k.config)
    ensures Paid(k, k.TickIambicInner(false).keyer)
  {
    hide Keyer.TickIambicElement, Keyer.TickLetterSpace, Keyer.ResolveAfterDitDelay, Keyer.ResolveAfterDashDelay;
    match k.state
    case Idle => hide *; PaidIdle(k);
    case SendDit => hide Paid; PaidElement(k, DitDelay);
    case SendDash => hide Paid; PaidElement(k, DashDelay);
    case DitDelay => hide *; PaidDelay(k);
    case DashDelay => hide *; PaidDelay(k);
    case LetterSpace => hide Paid; PaidLetterSpace(k);
    case StraightKey =>
  }

  lemma {:induction false} PaidTick(k: Keyer)
    requires Calm(k) && Keeps(k.config)
    ensures Paid(k, k.Tick().keyer)
  {
    hide Keyer.TickIambicInner, Paid;
    var t := k.(elapsedUs := k.elapsedUs + k.tickUs);
    PaidClock(k, t);
    PaidInner(t);
  }

  lemma {:induction false} PaidClock(k: Keyer, t: Keyer)
    requires t == k.(elapsedUs := k.elapsedUs + k.tickUs)
    ensures forall m :: Paid(t, m) ==> Paid(k, m)
  {}

  /**
   With paddles released and memories that outlive delays, each latched memory sends exactly one element
   of its side before the engine settles, and nothing else is started.
   */
  lemma {:induction false} MemoriesSendOnce(k: Keyer, n: nat)
    requires Calm(k) && Keeps(k.config) && LongEnough(k, n)
    ensures Starts(k, n, false) == (if k.ditMemory then 1 else 0)
    ensures Starts(k, n, true) == (if k.dashMemory then 1 else 0)
  {
    MemoriesPaid(k, n);
    Quiescence(k, n, n);
  }

  lemma {:induction false} MemoriesPaid(k: Keyer, n: nat)
    requires Calm(k) && Keeps(k.config)
    ensures var m := Ticks(k, n);
      && Starts(k, n, false) + (if m.ditMemory then 1 else 0) == (if k.ditMemory then 1 else 0)
      && Starts(k, n, true) + (if m.dashMemory then 1 else 0) == (if k.dashMemory then 1 else 0)
      && m.config == k.config
    decreases n
  {
    hide Keyer.Tick, Calm, Settled, Keeps;
    if n > 0 {
      PaidTick(k);
      if Settled(k) { SettledTick(k); SettledCalm(k.Tick().keyer); } else { TickProgress(k); }
      MemoriesPaid(k.Tick().keyer, n - 1);
    }
  }

  lemma {:induction false} SettledCalm(k: Keyer)
    requires Settled(k)
    ensures Calm(k)
  {
    hide Calm;
  }

  // ---- releases in iambic A ----------------------------------------------------------------

  /** Sending by paddle, or idle with nothing remembered. */
  predicate Fading(k: Keyer) {
    && Calm(k) && k.config.mode == IambicA && !Spaced(k.config) && !k.textSending
    && (k.InElement() || Delay(k.state) || (k.state == Idle && !k.ditMemory && !k.dashMemory))
  }

  lemma {:induction false} FadingInner(k: Keyer)
    requires Fading(k)
    ensures var m := k.TickIambicInner(false).keyer;
      && Started(k, m) == None && m.config == k.config && !m.textSending
      && (m.InElement() || Delay(m.state) || (m.state == Idle && !m.ditMemory && !m.dashMemory))
  {
    hide Keyer.TickIambicElement, Keyer.ResolveDelayTail, Keyer.StartElementKeyed, Spaced, Anchor, LetterRestUs,
         Keyer.TickLetterSpace, Keyer.HandleHangTime, Keyer.TickIambicInner, Keyer.DispatchNext;
    if Delay(k.state) {
      DelayShape(k, false);
      DelayAlone(k, false);
      TailFacts(k);
      TailState(k);
    } else {
      FadingElement(k);
      HangFacts(k);
      FadingShape(k);
    }
  }

  lemma {:induction false} FadingShape(k: Keyer)
    requires !k.AnyHeld() && k.textQueue == []
    ensures k.state == SendDit ==> k.TickIambicInner(false) == k.TickIambicElement(DitDelay)
    ensures k.state == SendDash ==> k.TickIambicInner(false) == k.TickIambicElement(DashDelay)
    ensures k.state == Idle && !k.ditMemory && !k.dashMemory ==> k.TickIambicInner(false) == k.HandleHangTime()
  {
    hide Keyer.TickIambicElement, Keyer.HandleHangTime, Keyer.StartElementKeyed;
  }

  lemma {:induction false} FadingElement(k: Keyer)
    requires !k.textSending
    ensures k.InElement() ==> forall d :: Delay(d) ==>
      var m := k.TickIambicElement(d).keyer;
      m.config == k.config && !m.textSending && (m.state == k.state || m.state == d)
  {
    hide Keyer.FinishElement, Keyer.EmitKeyDown, Keyer.LatchOpposite, Config.ElementGapUs, Anchor;
    LatchFacts(k);
    KeyDownFacts(k);
    FinishElementFacts(k.LatchOpposite(), DitDelay);
    FinishElementFacts(k.LatchOpposite(), DashDelay);
  }

  lemma {:induction false} FadingTick(k: Keyer)
    requires Fading(k)
    ensures Fading(k.Tick().keyer) && Started(k, k.Tick().keyer) == None
  {
    hide Keyer.TickIambicInner, Spaced, Settled;
    var t := k.(elapsedUs := k.elapsedUs + k.tickUs);
    FadingInner(t);
    if Settled(k) { SettledTick(k); SettledCalm(k.Tick().keyer); } else { TickProgress(k); }
  }

  lemma {:induction false} FadingSilent(k: Keyer, n: nat)
    requires Fading(k)
    ensures Starts(k, n, false) == 0 && Starts(k, n, true) == 0
    decreases n
  {
    hide Keyer.Tick, Fading;
    if n > 0 {
      FadingTick(k);
      FadingSilent(k.Tick().keyer, n - 1);
    }
  }

  /**
   Iambic A after the release of both paddles during an element or its delay: no further element is sent,
   exactly unless auto-spacing adds a letter space and an element was remembered; that one still follows.
   */
  lemma {:induction false} IambicARelease(k: Keyer, n: nat)
    requires Calm(k) && k.config.mode == IambicA && (k.InElement() || Delay(k.state)) && !k.textSending
    requires LongEnough(k, n)
    ensures Starts(k, n, false) == (if Spaced(k.config) && k.ditMemory then 1 else 0)
    ensures Starts(k, n, true) == (if Spaced(k.config) && k.dashMemory then 1 else 0)
  {
    hide Calm, Rank, Spaced, Starts;
    if Spaced(k.config) { MemoriesSendOnce(k, n); } else { FadingSilent(k, n); }
  }

  // ---- taps in iambic B -----------------------------------------------------------------

  /** A sounding element of iambic B with nothing remembered and the opposite paddle up. */
  predicate Alone(k: Keyer) {
    && Safe(k) && k.config.mode == IambicB && k.InElement() && k.keyActive
    && !k.ditMemory && !k.dashMemory && !k.textSending && k.textQueue == []
    && !(if k.state == SendDit then k.dashHeld else k.ditHeld)
  }

  /** The opposite paddle goes down; the element's own paddle stays as it is. */
  function TapDown(k: Keyer): Keyer {
    if k.state == SendDit then k.Press(k.ditHeld, true) else k.Press(true, k.dashHeld)
  }

  /** During an element: same element, and exactly the opposite memory set when `latched`. */
  predicate Tapped(k: Keyer, m: Keyer, latched: bool) {
    && Safe(m) && m.config == k.config && m.state == k.state && m.keyActive && m.phaseEndUs == k.phaseEndUs
    && m.elementDurationUs == k.elementDurationUs && m.elapsedUs >= k.elapsedUs && m.tickUs == k.tickUs
    && !m.textSending && m.textQueue == []
    && m.ditMemory == (latched && k.state == SendDash) && m.dashMemory == (latched && k.state == SendDit)
  }

  lemma {:induction false} TapLatches(k: Keyer)
    requires Alone(k)
    ensures Tapped(k, TapDown(k), k.InMemoryWindow())
  {
    hide Keyer.InMemoryWindow;
    PressFacts(k, k.ditHeld, true);
    PressFacts(k, true, k.dashHeld);
  }

  /** Once the window of an element has closed it stays closed. */
  lemma {:induction false} WindowCloses(k: Keyer, m: Keyer)
    requires m.phaseEndUs == k.phaseEndUs && m.elementDurationUs == k.elementDurationUs && m.config == k.config
    requires m.elapsedUs >= k.elapsedUs && m.InMemoryWindow()
    ensures k.InMemoryWindow()
  {}

  lemma {:induction false} TapHeld(k: Keyer, m: Keyer, n: nat)
    requires Alone(k) && Tapped(k, m, k.InMemoryWindow()) && Ticks(m, n).state == k.state
    requires forall i :: 0 <= i < n ==> Ticks(m, i).state == k.state
    ensures Tapped(k, Ticks(m, n), k.InMemoryWindow())
    decreases n
  {
    hide Keyer.Tick, Tapped, Alone, Keyer.InMemoryWindow;
    if n > 0 {
      assert Ticks(m, 1) == Ticks(m.Tick().keyer, 0);
      assert n > 1 ==> Ticks(m, 1).state == k.state;
      TapTick(k, m);
      forall i | 0 <= i < n - 1
        ensures Ticks(m.Tick().keyer, i).state == k.state
      {
        assert Ticks(m, i + 1) == Ticks(m.Tick().keyer, i);
      }
      TapHeld(k, m.Tick().keyer, n - 1);
    }
  }

  lemma {:induction false} TapTick(k: Keyer, m: Keyer)
    requires Alone(k) && Tapped(k, m, k.InMemoryWindow()) && m.Tick().keyer.state == k.state
    ensures Tapped(k, m.Tick().keyer, k.InMemoryWindow())
  {
    hide Keyer.FinishElement, Keyer.InMemoryWindow, Config.ElementGapUs, Anchor;
    TickSafe(m);
    var t := m.(elapsedUs := m.elapsedUs + m.tickUs);
    if t.InMemoryWindow() { WindowCloses(k, t); }
    FinishElementFacts(t.LatchOpposite(), if t.state == SendDit then DitDelay else DashDelay);
  }

  /**
   A tap of the opposite paddle while an element of iambic B sounds, held for `i` ticks and let go
   before the element ends: the opposite element follows, exactly once, if and only if the paddle
   went down inside the memory window; no further element of the element's own side is sent.
   */
  lemma {:induction false} OppositeTap(k: Keyer, i: nat, n: nat)
    requires Alone(k)
    requires forall j :: 0 <= j <= i ==> Ticks(TapDown(k), j).state == k.state
    requires LongEnough(Ticks(TapDown(k), i).Press(false, false), n)
    ensures var released := Ticks(TapDown(k), i).Press(false, false);
      && Starts(released, n, k.state == SendDit) == (if k.InMemoryWindow() then 1 else 0)
      && Starts(released, n, k.state != SendDit) == 0
  {
    hide Keyer.InMemoryWindow, Rank;
    TapLatches(k);
    TapHeld(k, TapDown(k), i);
    var m := Ticks(TapDown(k), i);
    Letting(m);
    MemoriesSendOnce(m.Press(false, false), n);
  }

  lemma {:induction false} Letting(m: Keyer)
    requires Safe(m) && m.config.mode == IambicB && m.textQueue == [] && !m.textSending
    ensures var r := m.Press(false, false);
      Calm(r) && r.ditMemory == m.ditMemory && r.dashMemory == m.dashMemory && r.config == m.config
  {
    hide Keyer.GateOpen;
  }

  // ---- taps within a hold --------------------------------------------------------------------

  function HeldSide(k: Keyer, isDash: bool): bool { if isDash then k.dashHeld else k.ditHeld }

  function MemoryOf(k: Keyer, isDash: bool): bool { if isDash then k.dashMemory else k.ditMemory }

  /** Ticks and paddle moves only. */
  predicate PaddlesOnly(inputs: seq<Input>) {
    forall i :: 0 <= i < |inputs| ==> inputs[i].Clock? || inputs[i].Paddle?
  }

  /** How many elements of one side a run starts. */
  function RunStarts(k: Keyer, inputs: seq<Input>, isDash: bool): nat {
    if inputs == [] then 0
    else
      var n := |inputs| - 1;
      var before, after := Run(k, inputs[..n]), Run(k, inputs);
      RunStarts(k, inputs[..n], isDash) + (if Started(before, after) == Some(isDash) then 1 else 0)
  }

  /** In iambic B without text, a side whose paddle is up is sent only out of its memory, which that uses up. */
  predicate SidePaid(k: Keyer, m: Keyer, isDash: bool) {
    && MemoryOf(m, isDash) == (MemoryOf(k, isDash) && Started(k, m) != Some(isDash))
    && (Started(k, m) == Some(isDash) ==> MemoryOf(k, isDash))
  }

  /** Iambic B without text. */
  predicate ByPaddle(k: Keyer) {
    Safe(k) && k.config.mode == IambicB && !k.textSending && k.textQueue == []
  }

  lemma {:induction false} SideStart(k: Keyer, isDash: bool, side: bool)
    requires !k.InElement() && (side == isDash ==> MemoryOf(k, isDash))
    ensures SidePaid(k, k.StartElementKeyed(side).keyer, isDash)
    ensures var m := k.StartElementKeyed(side).keyer; !m.textSending == !k.textSending && m.textQueue == k.textQueue
  {
    hide Keyer.StartElementKeyed, ElementUs, Anchor;
    StartElementFacts(k, side);
  }

  lemma {:induction false} SideElement(k: Keyer, isDash: bool, delay: KeyerState)
    requires k.InElement() && Delay(delay) && !HeldSide(k, isDash) && !k.textSending
    ensures var m := k.TickIambicElement(delay).keyer;
      SidePaid(k, m, isDash) && !m.textSending && m.textQueue == k.textQueue
  {
    hide Keyer.FinishElement, Keyer.EmitKeyDown, Keyer.InMemoryWindow, Config.ElementGapUs, Anchor;
    KeyDownFacts(k);
    FinishElementFacts(k.LatchOpposite(), delay);
  }

  lemma {:induction false} SideDelay(k: Keyer, isDash: bool)
    requires ByPaddle(k) && Delay(k.state) && !HeldSide(k, isDash)
    ensures var m := k.TickIambicInner(false).keyer;
      SidePaid(k, m, isDash) && !m.textSending && m.textQueue == []
  {
    hide Keyer.TickIambicInner, Keyer.StartElementKeyed, Keyer.ResolveDelayTail, SidePaid, LetterRestUs, Anchor;
    DelayShape(k, false);
    if !k.PhaseExpired() {
      SideWait(k, isDash);
    } else {
      match ChoiceAfter(k, k.state == DitDelay, false) {
        case Some(side) => SideStart(k, isDash, side);
        case None => SideTail(k, isDash);
      }
    }
  }

  lemma {:induction false} SideWait(k: Keyer, isDash: bool)
    requires Delay(k.state) && !HeldSide(k, isDash)
    ensures k.state == DitDelay ==> SidePaid(k, k.(dashMemory := k.dashMemory || k.dashHeld), isDash)
    ensures k.state == DashDelay ==> SidePaid(k, k.(ditMemory := k.ditMemory || k.ditHeld), isDash)
  {}

  lemma {:induction false} SideTail(k: Keyer, isDash: bool)
    requires Delay(k.state) && !k.ditMemory && !k.dashMemory && !k.textSending
    ensures var m := k.ResolveDelayTail().keyer;
      SidePaid(k, m, isDash) && !m.textSending && m.textQueue == k.textQueue
  {
    hide Keyer.ResolveDelayTail, LetterRestUs, Anchor;
    TailFacts(k);
  }

  lemma {:induction false} SideIdle(k: Keyer, isDash: bool)
    requires k.state == Idle && k.textQueue == [] && !k.textSending && !HeldSide(k, isDash)
    ensures var m := k.TickIambicInner(false).keyer;
      SidePaid(k, m, isDash) && !m.textSending && m.textQueue == []
  {
    hide Keyer.StartElementKeyed, Keyer.HandleHangTime, SidePaid;
    HangFacts(k);
    if k.ditHeld || k.ditMemory { SideStart(k, isDash, false); }
    else if k.dashHeld || k.dashMemory { SideStart(k, isDash, true); }
    else { SideQuiet(k, k.HandleHangTime().keyer, isDash); }
  }

  lemma {:induction false} SideQuiet(k: Keyer, m: Keyer, isDash: bool)
    requires !m.InElement() && m.ditMemory == k.ditMemory && m.dashMemory == k.dashMemory
    ensures SidePaid(k, m, isDash)
  {}

  lemma {:induction false} SideInner(k: Keyer, isDash: bool)
    requires ByPaddle(k) && !HeldSide(k, isDash)
    ensures var m := k.TickIambicInner(false).keyer;
      SidePaid(k, m, isDash) && !m.textSending && m.textQueue == []
  {
    hide Keyer.TickIambicElement, Keyer.TickLetterSpace, Keyer.ResolveAfterDitDelay, Keyer.ResolveAfterDashDelay,
         Keyer.StartElementKeyed, Keyer.HandleHangTime, SidePaid, Safe;
    match k.state {
      case Idle => SideIdle(k, isDash);
      case SendDit => SideElement(k, isDash, DitDelay);
      case SendDash => SideElement(k, isDash, DashDelay);
      case DitDelay => SideDelay(k, isDash);
      case DashDelay => SideDelay(k, isDash);
      case LetterSpace => SideSpace(k, isDash);
      case StraightKey => SideQuiet(k, k.(state := Idle), isDash);
    }
  }

  lemma {:induction false} SideSpace(k: Keyer, isDash: bool)
    ensures var m := k.TickLetterSpace().keyer;
      && (k.state == LetterSpace ==> SidePaid(k, m, isDash))
      && m.textSending == k.textSending && m.textQueue == k.textQueue
  {}

  lemma {:induction false} SideTick(k: Keyer, isDash: bool)
    requires ByPaddle(k) && !HeldSide(k, isDash)
    ensures SidePaid(k, k.Tick().keyer, isDash) && ByPaddle(k.Tick().keyer)
  {
    hide Keyer.TickIambicInner;
    TickSafe(k);
    SideInner(k.(elapsedUs := k.elapsedUs + k.tickUs), isDash);
  }

  /** Moving the paddles starts nothing, and a memory changes only when its own paddle goes down. */
  lemma {:induction false} SidePaddle(k: Keyer, dit: bool, dash: bool, isDash: bool)
    requires ByPaddle(k)
    ensures var m := k.SetPaddle(dit, dash);
      && ByPaddle(m) && m.state == k.state
      && (!HeldSide(m, isDash) || HeldSide(k, isDash) ==> MemoryOf(m, isDash) == MemoryOf(k, isDash))
  {
    hide Keyer.Press, Safe;
    PaddleSafe(k, dit, dash);
    SetPaddleFacts(k, dit, dash);
    PressMemory(k, dit, dash, isDash);
    PressMemory(k, dash, dit, isDash);
  }

  lemma {:induction false} PressMemory(k: Keyer, d: bool, h: bool, isDash: bool)
    ensures var m := k.Press(d, h);
      !HeldSide(m, isDash) || HeldSide(k, isDash) ==> MemoryOf(m, isDash) == MemoryOf(k, isDash)
  {
    hide Keyer.GateOpen;
  }

  /**
   While a paddle stays up, its side is started once if it was remembered, and not at all otherwise; what
   has not been started yet is still remembered.
   */
  lemma {:induction false} SideRun(k: Keyer, inputs: seq<Input>, isDash: bool)
    requires ByPaddle(k) && PaddlesOnly(inputs)
    requires forall i :: 0 <= i <= |inputs| ==> !HeldSide(Run(k, inputs[..i]), isDash)
    ensures var m := Run(k, inputs);
      && ByPaddle(m)
      && RunStarts(k, inputs, isDash) + (if MemoryOf(m, isDash) then 1 else 0) == if MemoryOf(k, isDash) then 1 else 0
  {
    hide Keyer.Tick, Keyer.SetPaddle, ByPaddle, HeldSide;
    if inputs != [] {
      var n := |inputs| - 1;
      assert forall i :: 0 <= i <= n ==> inputs[..n][..i] == inputs[..i];
      SideRun(k, inputs[..n], isDash);
      var m := Run(k, inputs[..n]);
      assert !HeldSide(m, isDash);
      assert inputs[..|inputs|] == inputs;
      assert !HeldSide(Run(k, inputs), isDash);
      match inputs[n] {
        case Clock => SideTick(m, isDash);
        case Paddle(dit, dash) =>
          SidePaddle(m, dit, dash, isDash);
      }
    }
  }

  /** A sounding element of iambic B, the opposite paddle up and not remembered; its own may do anything. */
  predicate Tappable(k: Keyer) {
    && ByPaddle(k) && k.InElement() && k.keyActive
    && !HeldSide(k, k.state == SendDit) && !MemoryOf(k, k.state == SendDit)
  }

  /** The opposite paddle held during the element, and remembered exactly when `latched`. */
  predicate HeldTap(k: Keyer, m: Keyer, latched: bool) {
    && ByPaddle(m) && m.config == k.config && m.state == k.state && m.keyActive && m.phaseEndUs == k.phaseEndUs
    && m.elementDurationUs == k.elementDurationUs && m.elapsedUs >= k.elapsedUs
    && HeldSide(m, k.state == SendDit) && MemoryOf(m, k.state == SendDit) == latched
  }

  lemma {:induction false} TapBegins(k: Keyer)
    requires Tappable(k)
    ensures HeldTap(k, TapDown(k), k.InMemoryWindow())
  {
    hide Keyer.InMemoryWindow;
    PressFacts(k, k.ditHeld, true);
    PressFacts(k, true, k.dashHeld);
  }

  lemma {:induction false} HeldTapTick(k: Keyer, m: Keyer)
    requires k.InElement() && HeldTap(k, m, k.InMemoryWindow()) && m.Tick().keyer.state == k.state
    ensures HeldTap(k, m.Tick().keyer, k.InMemoryWindow())
  {
    hide Keyer.FinishElement, Keyer.InMemoryWindow, Config.ElementGapUs, Anchor;
    TickSafe(m);
    var t := m.(elapsedUs := m.elapsedUs + m.tickUs);
    if t.InMemoryWindow() { WindowCloses(k, t); }
    FinishElementFacts(t.LatchOpposite(), if t.state == SendDit then DitDelay else DashDelay);
  }

  lemma {:induction false} HeldTapPaddle(k: Keyer, m: Keyer, dit: bool, dash: bool)
    requires k.InElement() && HeldTap(k, m, k.InMemoryWindow())
    ensures HeldSide(m.SetPaddle(dit, dash), k.state == SendDit) ==>
      HeldTap(k, m.SetPaddle(dit, dash), k.InMemoryWindow())
    ensures MemoryOf(m.SetPaddle(dit, dash), k.state == SendDit) == k.InMemoryWindow()
    ensures ByPaddle(m.SetPaddle(dit, dash)) && m.SetPaddle(dit, dash).state == k.state
  {
    hide Keyer.InMemoryWindow, Keyer.SetPaddle, ByPaddle;
    SidePaddle(m, dit, dash, k.state == SendDit);
    SetPaddleFacts(m, dit, dash);
  }

  /** The element still sounds and the opposite paddle is down through all of the run. */
  predicate TapRun(d: Keyer, tap: seq<Input>, state: KeyerState) {
    forall i :: 0 <= i <= |tap| ==>
      Run(d, tap[..i]).state == state && HeldSide(Run(d, tap[..i]), state == SendDit)
  }

  lemma {:induction false} HeldTapRun(k: Keyer, tap: seq<Input>)
    requires Tappable(k) && PaddlesOnly(tap) && TapRun(TapDown(k), tap, k.state)
    ensures HeldTap(k, Run(TapDown(k), tap), k.InMemoryWindow())
  {
    hide Keyer.Tick, Keyer.SetPaddle, HeldTap, Tappable, Keyer.InMemoryWindow, HeldSide, TapDown;
    var d := TapDown(k);
    TappableElement(k);
    if tap == [] {
      TapBegins(k);
    } else {
      var n := |tap| - 1;
      assert forall i :: 0 <= i <= n ==> tap[..n][..i] == tap[..i];
      HeldTapRun(k, tap[..n]);
      assert tap[..|tap|] == tap;
      assert Run(d, tap).state == k.state && HeldSide(Run(d, tap), k.state == SendDit);
      var m := Run(d, tap[..n]);
      match tap[n] {
        case Clock => HeldTapTick(k, m);
        case Paddle(dit, dash) => HeldTapPaddle(k, m, dit, dash);
      }
    }
  }

  lemma {:induction false} TappableElement(k: Keyer)
    requires Tappable(k)
    ensures k.InElement()
  {}

  /** The share of the element that is still to come exceeds the timing percentage. */
  predicate InTime(k: Keyer) {
    100 * (k.phaseEndUs - k.elapsedUs) > k.elementDurationUs * Min(k.config.iambicBTimingPercent, 100)
  }

  lemma {:induction false} WindowInTime(k: Keyer)
    ensures k.InMemoryWindow() <==> InTime(k)
  {
    FloorBelow(k.elementDurationUs * Min(k.config.iambicBTimingPercent, 100), k.phaseEndUs - k.elapsedUs);
  }

  lemma {:induction false} FloorBelow(x: nat, y: int)
    ensures Max(y, 0) > x / 100 <==> 100 * y > x
  {}

  /**
   A tap of the opposite paddle within an element of iambic B, whatever the element's own paddle does
   meanwhile and afterwards: let go before the element ends and kept up from then on, it has sent the
   opposite side, over any later run, at most once and only if it went down while more of the element than
   the timing percentage was still to come; and
   exactly once in that case by the time both paddles have been up long enough.
   */
  lemma {:induction false} OppositeTapOnce(k: Keyer, tap: seq<Input>, dit: bool, dash: bool, rest: seq<Input>, n: nat)
    requires Tappable(k) && PaddlesOnly(tap) && TapRun(TapDown(k), tap, k.state)
    requires PaddlesOnly(rest)
    requires var r := Run(TapDown(k), tap).SetPaddle(dit, dash);
      forall i :: 0 <= i <= |rest| ==> !HeldSide(Run(r, rest[..i]), k.state == SendDit)
    ensures var opposite := k.state == SendDit;
      var r := Run(TapDown(k), tap).SetPaddle(dit, dash); var m := Run(r, rest);
      && RunStarts(r, rest, opposite) <= (if InTime(k) then 1 else 0)
      && (!m.AnyHeld() && LongEnough(m, n) ==>
           RunStarts(r, rest, opposite) + Starts(m, n, opposite) == if InTime(k) then 1 else 0)
  {
    WindowInTime(k);
    hide InTime, Keyer.InMemoryWindow, Rank, HeldTap, Tappable, TapDown, Keyer.SetPaddle, Starts, RunStarts, HeldSide;
    var opposite := k.state == SendDit;
    TappableElement(k);
    HeldTapRun(k, tap);
    HeldTapPaddle(k, Run(TapDown(k), tap), dit, dash);
    var r := Run(TapDown(k), tap).SetPaddle(dit, dash);
    SideRun(r, rest, opposite);
    var m := Run(r, rest);
    if !m.AnyHeld() && LongEnough(m, n) {
      ByPaddleCalm(m);
      MemoriesSendOnce(m, n);
    }
  }

  lemma {:induction false} ByPaddleCalm(m: Keyer)
    requires ByPaddle(m) && !m.AnyHeld()
    ensures Calm(m) && Keeps(m.config)
  {}
}
