/** What the paddles mean to the operator: which side sounds, how long a straight key sounds, when PTT goes. */
module KeyerKeys {
  import opened Base
  import opened KeyerConfig
  import opened Morse
  import opened Engine
  import opened KeyerFacts
  import opened KeyerRuns
  import opened KeyerSafety
  import opened KeyerQuiescence
  import opened KeyerDrift
  import opened KeyerPaddles

  // ---- one paddle ----------------------------------------------------------------------------

  predicate Iambic(m: Mode) { m == IambicA || m == IambicB || m == Ultimatic }

  /** The element a paddle stands for: its own, or the other one when the paddles are exchanged. */
  function Keys(c: Config, dashPaddle: bool): bool { dashPaddle != c.keysReversed }

  /** Ticks and moves of one paddle; the other one stays up. */
  predicate OnlyPaddle(inputs: seq<Input>, dashPaddle: bool) {
    forall i :: 0 <= i < |inputs| ==>
      inputs[i] == Clock || (inputs[i].Paddle? && !(if dashPaddle then inputs[i].dit else inputs[i].dash))
  }

  function SendOf(side: bool): KeyerState { if side then SendDash else SendDit }

  function DelayOf(side: bool): KeyerState { if side then DashDelay else DitDelay }

  /** Nothing held, remembered or sounding on the other side, and no text. */
  predicate OneSided(k: Keyer, side: bool) {
    && Iambic(k.config.mode) && !k.textSending && k.textQueue == []
    && !HeldSide(k, !side) && !MemoryOf(k, !side) && k.lastPaddle != Some(!side)
    && k.state != SendOf(!side) && k.state != DelayOf(!side) && k.state != StraightKey
  }

  lemma {:induction false} OneStart(k: Keyer, side: bool)
    requires OneSided(k, side)
    ensures var m := k.StartElementKeyed(side).keyer; OneSided(m, side) && m.config == k.config
  {
    hide Keyer.StartElementKeyed, ElementUs, Anchor;
    StartElementFacts(k, side);
  }

  lemma {:induction false} OneElement(k: Keyer, side: bool)
    requires OneSided(k, side) && k.state == SendOf(side)
    ensures var m := k.TickIambicElement(DelayOf(side)).keyer; OneSided(m, side) && m.config == k.config
  {
    hide Keyer.FinishElement, Keyer.EmitKeyDown, Keyer.InMemoryWindow, Config.ElementGapUs, Anchor;
    KeyDownFacts(k);
    FinishElementFacts(k.LatchOpposite(), DelayOf(side));
  }

  lemma {:induction false} OneChoice(k: Keyer, side: bool)
    requires OneSided(k, side)
    ensures ChoiceAfter(k, k.state == DitDelay, false) != Some(!side)
    ensures HeldSide(k, side) ==> ChoiceAfter(k, k.state == DitDelay, false) == Some(side)
  {}

  lemma {:induction false} OneTail(k: Keyer, side: bool)
    requires OneSided(k, side)
    ensures var m := k.ResolveDelayTail().keyer; OneSided(m, side) && m.config == k.config
  {
    hide Keyer.ResolveDelayTail, LetterRestUs, Anchor;
    TailFacts(k);
    TailLast(k);
  }

  lemma {:induction false} TailLast(k: Keyer)
    ensures var m := k.ResolveDelayTail().keyer; m.lastPaddle == k.lastPaddle || m.lastPaddle == None
  {
    hide Keyer.EnterIdleFromDelay, Keyer.SchedulePhase, Config.LetterGapUs, Config.ElementGapUs, Anchor;
    EnterIdleFacts(k);
    ScheduleFacts(k.(state := LetterSpace), LetterRestUs(k.config));
  }

  lemma {:induction false} OneDelay(k: Keyer, side: bool)
    requires OneSided(k, side) && k.state == DelayOf(side)
    ensures var m := k.TickIambicInner(false).keyer; OneSided(m, side) && m.config == k.config
  {
    hide Keyer.TickIambicInner, Keyer.StartElementKeyed, Keyer.ResolveDelayTail, ChoiceAfter, LetterRestUs, Anchor;
    DelayShape(k, false);
    OneChoice(k, side);
    OneStart(k, side);
    OneTail(k, side);
  }

  lemma {:induction false} OneIdle(k: Keyer, side: bool)
    requires OneSided(k, side) && k.state == Idle
    ensures var m := k.TickIambicInner(false).keyer; OneSided(m, side) && m.config == k.config
    ensures HeldSide(k, side) ==> k.TickIambicInner(false) == k.StartElementKeyed(side)
  {
    hide Keyer.StartElementKeyed, Keyer.HandleHangTime;
    OneStart(k, side);
    HangFacts(k);
  }

  lemma {:induction false} OneSpace(k: Keyer, side: bool)
    requires OneSided(k, side)
    ensures var m := k.TickLetterSpace().keyer; OneSided(m, side) && m.config == k.config
  {}

  lemma {:induction false} OneInner(k: Keyer, side: bool)
    requires OneSided(k, side)
    ensures var m := k.TickIambicInner(false).keyer; OneSided(m, side) && m.config == k.config
  {
    hide Keyer.TickIambicElement, Keyer.TickLetterSpace, Keyer.ResolveAfterDitDelay, Keyer.ResolveAfterDashDelay,
         Keyer.StartElementKeyed, Keyer.HandleHangTime, OneSided;
    OneStates(k, side);
    match k.state {
      case Idle => OneIdle(k, side);
      case SendDit => OneElement(k, side);
      case SendDash => OneElement(k, side);
      case DitDelay => OneDelay(k, side);
      case DashDelay => OneDelay(k, side);
      case _ => OneSpace(k, side);
    }
  }

  lemma {:induction false} OneStates(k: Keyer, side: bool)
    requires OneSided(k, side)
    ensures k.state == Idle || k.state == LetterSpace || k.state == SendOf(side) || k.state == DelayOf(side)
  {}

  lemma {:induction false} OneTick(k: Keyer, side: bool)
    requires OneSided(k, side)
    ensures OneSided(k.Tick().keyer, side) && k.Tick().keyer.config == k.config
  {
    hide Keyer.TickIambicInner;
    OneInner(k.(elapsedUs := k.elapsedUs + k.tickUs), side);
  }

  lemma {:induction false} InnerShape(k: Keyer)
    ensures k.state == SendDit ==> k.TickIambicInner(false) == k.TickIambicElement(DitDelay)
    ensures k.state == SendDash ==> k.TickIambicInner(false) == k.TickIambicElement(DashDelay)
  {
    hide Keyer.StartElementKeyed, Keyer.HandleHangTime, Keyer.DispatchNext, Keyer.TickIambicElement,
         Keyer.TickLetterSpace;
  }

  lemma {:induction false} OnePaddle(k: Keyer, dit: bool, dash: bool, side: bool)
    requires OneSided(k, side) && !(if side != k.config.keysReversed then dit else dash)
    ensures var m := k.SetPaddle(dit, dash);
      && OneSided(m, side) && m.config == k.config
      && HeldSide(m, side) == (if side != k.config.keysReversed then dash else dit)
  {
    hide Keyer.GateOpen;
  }

  /**
   With only one paddle ever down, in the iambic modes and Ultimatic, everything that is started is the
   element of that paddle: the dit paddle sends dits and the dash paddle dashes, exchanged exactly when the
   configuration reverses the keys; over runs of any length and any pressing and releasing.
   */
  lemma {:induction false} OnlySide(c: Config, q: Quantum, dashPaddle: bool, inputs: seq<Input>)
    requires Iambic(c.mode) && OnlyPaddle(inputs, dashPaddle)
    ensures var k := Fresh(c, q);
      && RunStarts(k, inputs, !Keys(c, dashPaddle)) == 0
      && OneSided(Run(k, inputs), Keys(c, dashPaddle)) && Run(k, inputs).config == c
  {
    hide Keyer.Tick, Keyer.SetPaddle, OneSided;
    var k, side := Fresh(c, q), Keys(c, dashPaddle);
    if inputs == [] {
      FreshOneSided(c, q, side);
    } else {
      var n := |inputs| - 1;
      OnlySide(c, q, dashPaddle, inputs[..n]);
      var m := Run(k, inputs[..n]);
      match inputs[n] {
        case Clock => OneTick(m, side);
        case Paddle(dit, dash) => OnePaddle(m, dit, dash, side);
      }
      NotStarted(Run(k, inputs), side);
    }
  }

  lemma {:induction false} FreshOneSided(c: Config, q: Quantum, side: bool)
    requires Iambic(c.mode)
    ensures OneSided(Fresh(c, q), side)
  {}

  lemma {:induction false} NotStarted(m: Keyer, side: bool)
    requires OneSided(m, side)
    ensures forall k :: Started(k, m) != Some(!side)
  {}

  // ---- holding one paddle ----------------------------------------------------------------------

  /** Element and gap of one side, one after the other, as an ideal keyer sends them; and the deadline. */
  function SideWave(c: Config, side: bool, sending: bool, end: nat, now: nat): (bool, nat)
    decreases if now < end then 0 else now - end + 1
  {
    if now < end then (sending, end)
    else SideWave(c, side, !sending, end + (if sending then c.ElementGapUs() else ElementUs(c, side)), now)
  }

  predicate HoldingOne(k: Keyer, side: bool) {
    && OneSided(k, side) && HeldSide(k, side) && (k.state == SendOf(side) || k.state == DelayOf(side))
  }

  lemma {:induction false} OneStep(t: Keyer, side: bool)
    requires Late(t) && HoldingOne(t, side)
    ensures var m := t.TickIambicInner(false).keyer;
      && HeldSide(m, side)
      && m.state == if !t.PhaseExpired() then t.state
                    else if t.state == SendOf(side) then DelayOf(side) else SendOf(side)
  {
    hide Keyer.TickIambicInner, Keyer.StartElementKeyed, Keyer.ResolveDelayTail, Keyer.FinishElement, ChoiceAfter,
         Keyer.EmitKeyDown, Keyer.LatchOpposite, Config.ElementGapUs, ElementUs, Anchor, LetterRestUs;
    if t.state == DelayOf(side) {
      DelayShape(t, false);
      OneChoice(t, side);
      StartElementFacts(t, side);
    } else {
      InnerShape(t);
      KeyDownFacts(t);
      LatchFacts(t);
      FinishElementFacts(t.LatchOpposite(), DelayOf(side));
    }
  }

  lemma {:induction false} HoldOneTick(k: Keyer, side: bool)
    requires OnTime(k) && LongPhases(k.config, k.tickUs) && HoldingOne(k, side)
    ensures var m := k.Tick().keyer; var sending := k.state == SendOf(side);
      && OnTime(m) && HoldingOne(m, side) && m.config == k.config && m.tickUs == k.tickUs
      && m.elapsedUs == k.elapsedUs + k.tickUs
      && if m.elapsedUs < k.phaseEndUs then m.state == k.state && m.phaseEndUs == k.phaseEndUs
         else
           && m.state == (if sending then DelayOf(side) else SendOf(side))
           && m.phaseEndUs == k.phaseEndUs
                + (if sending then k.config.ElementGapUs() else ElementUs(k.config, side))
  {
    hide Keyer.TickIambicInner, LongPhases, Config.ElementGapUs, Config.EffectiveDotUs, Config.EffectiveDashUs;
    TickChained(k);
    OneTick(k, side);
    OneStep(k.(elapsedUs := k.elapsedUs + k.tickUs), side);
  }

  lemma {:induction false} SideWaveTick(k: Keyer, side: bool)
    requires OnTime(k) && LongPhases(k.config, k.tickUs) && HoldingOne(k, side)
    ensures var m := k.Tick().keyer; var sending, next := k.state == SendOf(side), m.state == SendOf(side);
      forall now :: now >= m.elapsedUs ==>
        SideWave(k.config, side, sending, k.phaseEndUs, now) == SideWave(k.config, side, next, m.phaseEndUs, now)
  {
    hide Keyer.Tick, OnTime, LongPhases, HoldingOne, ElementUs, Config.ElementGapUs;
    HoldOneTick(k, side);
  }

  lemma {:induction false} HoldOneWave(k: Keyer, side: bool, n: nat)
    requires OnTime(k) && LongPhases(k.config, k.tickUs) && HoldingOne(k, side)
    ensures var m := Ticks(k, n);
      && HoldingOne(m, side) && m.elapsedUs == k.elapsedUs + n * k.tickUs
      && (m.state == SendOf(side), m.phaseEndUs)
           == SideWave(k.config, side, k.state == SendOf(side), k.phaseEndUs, m.elapsedUs)
    decreases n
  {
    hide Keyer.Tick, LongPhases, HoldingOne, ElementUs, Config.ElementGapUs, OnTime;
    if n == 0 {
      OnTimeAhead(k);
    } else {
      HoldOneTick(k, side);
      HoldOneWave(k.Tick().keyer, side, n - 1);
      assert n * k.tickUs == (n - 1) * k.tickUs + k.tickUs;
      SideWaveTick(k, side);
    }
  }

  lemma {:induction false} OnTimeAhead(k: Keyer)
    requires OnTime(k)
    ensures k.elapsedUs < k.phaseEndUs
  {}

  /**
   A fresh engine with one paddle held: from the first tick on it sends that paddle's element and its gap,
   over and over, for holds of any length, each beginning exactly where the one before ended.
   */
  lemma {:induction false} HoldOne(c: Config, q: Quantum, dashPaddle: bool, n: nat)
    requires Iambic(c.mode) && LongPhases(c, q) && n > 0
    ensures var side := Keys(c, dashPaddle); var m := Ticks(Fresh(c, q).SetPaddle(!dashPaddle, dashPaddle), n);
      && (m.state == SendOf(side) || m.state == DelayOf(side)) && m.elapsedUs == n * q
      && (m.state == SendOf(side), m.phaseEndUs) == SideWave(c, side, true, q + ElementUs(c, side), n * q)
  {
    hide Keyer.Tick, Keyer.SetPaddle, LongPhases, HoldingOne, ElementUs, Config.ElementGapUs, OnTime, OneSided;
    var side := Keys(c, dashPaddle);
    var k := Fresh(c, q).SetPaddle(!dashPaddle, dashPaddle);
    FreshOneSided(c, q, side);
    OnePaddle(Fresh(c, q), !dashPaddle, dashPaddle, side);
    SetPaddleFacts(Fresh(c, q), !dashPaddle, dashPaddle);
    FreshStart(k);
    OneTick(k, side);
    FirstElement(k, side);
    var m := k.Tick().keyer;
    HoldOneWave(m, side, n - 1);
    HoldingStates(Ticks(m, n - 1), side);
    assert n * q == (n - 1) * q + q;
  }

  lemma {:induction false} HoldingStates(k: Keyer, side: bool)
    requires HoldingOne(k, side)
    ensures k.state == SendOf(side) || k.state == DelayOf(side)
  {}

  lemma {:induction false} FirstElement(k: Keyer, side: bool)
    requires OneSided(k, side) && HeldSide(k, side) && k.state == Idle
    requires OneSided(k.Tick().keyer, side)
    ensures var m := k.Tick().keyer;
      && HoldingOne(m, side) && m.state == SendOf(side) && m.elapsedUs == k.elapsedUs + k.tickUs
      && PhaseUs(k.config, Idle, m.state) == ElementUs(k.config, side) && m.tickUs == k.tickUs && m.config == k.config
  {
    hide Keyer.TickIambicInner, Keyer.StartElementKeyed, Anchor, Config.EffectiveDotUs, Config.EffectiveDashUs;
    var t := k.(elapsedUs := k.elapsedUs + k.tickUs);
    OneIdle(t, side);
    StartElementFacts(t, side);
  }
}
