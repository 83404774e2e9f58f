/** Paddle-driven keying: deadlines add up exactly, for ever, and holds follow the ideal wave. */
module KeyerDrift {
  import opened Base
  import opened KeyerConfig
  import opened Morse
  import opened Engine
  import opened KeyerFacts
  import opened KeyerRuns

  /** An element or a delay of paddle-driven sending. */
  predicate InPhase(k: Keyer) {
    (k.InElement() || Delay(k.state)) && !k.textSending
  }

  /** Every duration the configuration can schedule in such a run lasts longer than a tick. */
  predicate LongPhases(c: Config, tickUs: Quantum) {
    && c.mode != Straight
    && tickUs < c.ElementGapUs() && tickUs < c.EffectiveDotUs()
    && (c.mode == SinglePaddle ==> tickUs < UpgradeUs(c))
  }

  /** What is left of a dash when a held dit is upgraded. */
  function UpgradeUs(c: Config): nat { MonusNat(c.EffectiveDashUs(), c.EffectiveDotUs()) }

  /** The deadline lies ahead, by more than a tick while the key-down still waits for PTT. */
  predicate OnTime(k: Keyer) {
    && InPhase(k) && k.pttActive
    && k.elapsedUs < k.phaseEndUs
    && (k.InElement() && !k.keyActive ==> k.elapsedUs + k.tickUs < k.phaseEndUs)
    && (Delay(k.state) ==> !k.keyActive)
  }

  /** The scheduled duration of the phase `to`, entered from `from`. */
  function PhaseUs(c: Config, from: KeyerState, to: KeyerState): nat {
    match to
    case SendDit => c.EffectiveDotUs()
    case SendDash => if from == SendDit then UpgradeUs(c) else c.EffectiveDashUs()
    case _ => c.ElementGapUs()
  }

  /**
   A tick either leaves the phase alone or moves on, less than a tick after the deadline, also into idle or
   a letter space; the next phase of the run begins exactly where the old one ended.
   */
  predicate Chained(k: Keyer, m: Keyer) {
    && m.config == k.config && m.tickUs == k.tickUs && m.elapsedUs == k.elapsedUs + k.tickUs
    && (m.elapsedUs >= k.phaseEndUs ==> m.state != k.state && m.elapsedUs < k.phaseEndUs + k.tickUs)
    && (InPhase(m) ==>
          && OnTime(m)
          && m.phaseEndUs == k.phaseEndUs + (if m.state == k.state then 0 else PhaseUs(k.config, k.state, m.state))
          && (m.elapsedUs < k.phaseEndUs && m.state != k.state ==> EarlyRelease(k)))
  }

  /** The one way a phase ends before its deadline: a single paddle let go before the dit ran out. */
  predicate EarlyRelease(k: Keyer) {
    k.config.mode == SinglePaddle && k.state == SendDit && k.keyActive && !k.singlePaddleDecided && !k.AnyHeld()
  }

  /** What a step on the clock-advanced engine must do for the tick to be chained. */
  predicate ChainedStep(t: Keyer, m: Keyer) {
    && m.config == t.config && m.tickUs == t.tickUs && m.elapsedUs == t.elapsedUs
    && (t.PhaseExpired() ==> m.state != t.state)
    && (InPhase(m) ==>
          && m.pttActive && (Delay(m.state) ==> !m.keyActive) && (m.InElement() ==> m.keyActive)
          && m.phaseEndUs == t.phaseEndUs + (if m.state == t.state then 0 else PhaseUs(t.config, t.state, m.state))
          && (t.state == SendDit && m.state == SendDash ==> t.config.mode == SinglePaddle)
          && (!t.PhaseExpired() && m.state != t.state ==> EarlyRelease(t)))
  }

  lemma {:induction false} ChainedTick(k: Keyer, m: Keyer)
    requires OnTime(k) && LongPhases(k.config, k.tickUs)
    requires ChainedStep(k.(elapsedUs := k.elapsedUs + k.tickUs), m)
    ensures Chained(k, m)
  {
    hide Config.EffectiveDotUs, Config.EffectiveDashUs, Config.ElementGapUs;
  }

  /** The engine one clock step later: still in a phase, less than a tick past its deadline. */
  predicate Late(t: Keyer) {
    && InPhase(t) && t.pttActive && t.elapsedUs < t.phaseEndUs + t.tickUs
    && (t.InElement() && !t.keyActive ==> !t.PhaseExpired())
    && (Delay(t.state) ==> !t.keyActive)
  }

  lemma {:induction false} StartChained(t: Keyer, isDash: bool)
    requires Late(t) && Delay(t.state) && t.PhaseExpired()
    ensures ChainedStep(t, t.StartElementKeyed(isDash).keyer)
  {
    hide Keyer.StartElementKeyed, Config.EffectiveDotUs, Config.EffectiveDashUs, Config.ElementGapUs, UpgradeUs;
    StartElementFacts(t, isDash);
  }

  lemma {:induction false} FinishChained(t: Keyer)
    requires Late(t) && t.InElement() && t.keyActive && t.PhaseExpired()
    ensures ChainedStep(t, t.FinishElement(if t.state == SendDit then DitDelay else DashDelay).keyer)
  {
    hide Keyer.FinishElement, Config.EffectiveDotUs, Config.EffectiveDashUs, Config.ElementGapUs, UpgradeUs;
    FinishElementFacts(t, if t.state == SendDit then DitDelay else DashDelay);
  }

  lemma {:induction false} KeyDownChained(t: Keyer)
    requires Late(t) && t.InElement() && !t.keyActive
    ensures ChainedStep(t, t.EmitKeyDown().keyer)
  {
    hide Keyer.EmitKeyDown, Config.EffectiveDotUs, Config.EffectiveDashUs, Config.ElementGapUs, UpgradeUs;
    KeyDownFacts(t);
  }

  lemma {:induction false} TailChained(t: Keyer)
    requires Delay(t.state)
    ensures ChainedStep(t, t.ResolveDelayTail().keyer)
  {
    hide Keyer.ResolveDelayTail, PhaseUs, LetterRestUs;
    TailFacts(t);
  }

  lemma {:induction false} IambicElementChained(t: Keyer)
    requires Late(t) && t.InElement()
    ensures ChainedStep(t, t.TickIambicElement(if t.state == SendDit then DitDelay else DashDelay).keyer)
  {
    hide Keyer.FinishElement, Keyer.EmitKeyDown, Keyer.LatchOpposite, PhaseUs;
    if t.keyActive {
      LatchFacts(t);
      if t.PhaseExpired() { FinishChained(t.LatchOpposite()); }
    } else {
      KeyDownChained(t);
    }
  }

  lemma {:induction false} IambicDelayChained(t: Keyer, bugMode: bool)
    requires Late(t) && Delay(t.state)
    ensures ChainedStep(t, t.TickIambicInner(bugMode).keyer)
  {
    hide Keyer.TickIambicInner, Keyer.StartElementKeyed, Keyer.ResolveDelayTail, ChoiceAfter, PhaseUs;
    DelayShape(t, bugMode);
    if t.PhaseExpired() {
      StartChained(t, false);
      StartChained(t, true);
      TailChained(t);
    }
  }

  lemma {:induction false} IambicChained(t: Keyer, bugMode: bool)
    requires Late(t)
    ensures ChainedStep(t, t.TickIambicInner(bugMode).keyer)
  {
    hide Keyer.TickIambicElement, ChainedStep;
    match t.state
    case SendDit => IambicElementChained(t);
    case SendDash => IambicElementChained(t);
    case DitDelay => hide *; IambicDelayChained(t, bugMode);
    case DashDelay => hide *; IambicDelayChained(t, bugMode);
  }

  lemma {:induction false} UndecidedChained(t: Keyer)
    requires Late(t) && t.state == SendDit && t.keyActive && t.config.mode == SinglePaddle
    ensures EarlyRelease(t) ==> ChainedStep(t, t.ConfirmDit().keyer)
    ensures t.PhaseExpired() ==> ChainedStep(t, t.UpgradeToDash())
  {
    hide Keyer.SchedulePhase, Keyer.EmitKeyUp, Config.EffectiveDotUs, Config.EffectiveDashUs, Config.ElementGapUs;
    var d := t.(singlePaddleDecided := true, state := DitDelay);
    ScheduleFacts(d, t.config.ElementGapUs());
    KeyUpFacts(d.SchedulePhase(t.config.ElementGapUs()));
    ScheduleFacts(t.(singlePaddleDecided := true, state := SendDash), UpgradeUs(t.config));
  }

  lemma {:induction false} SinglePaddleDelayChained(t: Keyer)
    requires Late(t) && Delay(t.state)
    ensures ChainedStep(t, t.TickSinglePaddleDelay().keyer)
  {
    hide Keyer.StartElementKeyed, Keyer.EnterIdleFromDelay, PhaseUs;
    if t.PhaseExpired() {
      StartChained(t.(singlePaddleDecided := false), false);
      EnterIdleFacts(t);
    }
  }

  lemma {:induction false} SinglePaddleChained(t: Keyer)
    requires Late(t) && t.config.mode == SinglePaddle
    ensures ChainedStep(t, t.TickSinglePaddle().keyer)
  {
    hide Keyer.FinishElement, Keyer.EmitKeyDown, Keyer.ConfirmDit, Keyer.UpgradeToDash, Keyer.TickSinglePaddleDelay,
         PhaseUs;
    match t.state
    case SendDit =>
      if !t.keyActive { KeyDownChained(t); }
      else {
        UndecidedChained(t);
        if t.PhaseExpired() { FinishChained(t); }
      }
    case SendDash =>
      if !t.keyActive { KeyDownChained(t); } else if t.PhaseExpired() { FinishChained(t); }
    case DitDelay => SinglePaddleDelayChained(t);
    case DashDelay => SinglePaddleDelayChained(t);
  }

  /** One tick of any mode that times its elements. */
  lemma {:induction false} TickChained(k: Keyer)
    requires OnTime(k) && LongPhases(k.config, k.tickUs)
    ensures Chained(k, k.Tick().keyer)
  {
    hide Keyer.TickIambicInner, Keyer.TickSinglePaddle, ChainedStep, Chained, Config.EffectiveDotUs,
         Config.EffectiveDashUs, Config.ElementGapUs;
    var t := k.(elapsedUs := k.elapsedUs + k.tickUs);
    match k.config.mode {
      case SinglePaddle => SinglePaddleChained(t);
      case Bug => IambicChained(t, true);
      case _ => IambicChained(t, false);
    }
    ChainedTick(k, k.Tick().keyer);
  }

  // ---- unbroken runs ------------------------------------------------------------------

  /** Every state the run passes through is a paddle-driven phase with long enough durations. */
  ghost predicate Unbroken(k: Keyer, inputs: seq<Input>) {
    forall i :: 0 <= i <= |inputs| ==>
      var m := Run(k, inputs[..i]); InPhase(m) && LongPhases(m.config, m.tickUs)
  }

  /** The durations of the phases the run enters, in order. */
  function Durations(k: Keyer, inputs: seq<Input>): seq<nat> {
    if inputs == [] then []
    else
      var n := |inputs| - 1;
      var before, after := Run(k, inputs[..n]), Run(k, inputs);
      Durations(k, inputs[..n])
      + (if inputs[n] == Clock && after.state != before.state
         then [PhaseUs(before.config, before.state, after.state)] else [])
  }

  function Sum(xs: seq<nat>): nat { if xs == [] then 0 else Sum(xs[..|xs| - 1]) + xs[|xs| - 1] }

  lemma {:induction false} InputOnTime(k: Keyer, input: Input)
    requires OnTime(k) && LongPhases(k.config, k.tickUs) && InPhase(Apply(k, input).keyer)
    ensures var m := Apply(k, input).keyer; OnTime(m) && m.tickUs == k.tickUs
    ensures input != Clock ==> Apply(k, input).keyer.phaseEndUs == k.phaseEndUs
    ensures input != Clock ==> Apply(k, input).keyer.state == k.state
  {
    hide Keyer.Tick, Keyer.SetPaddle, LongPhases;
    match input
    case Clock => TickChained(k);
    case Paddle(dit, dash) => SetPaddleFacts(k, dit, dash);
    case _ =>
  }

  /**
   No accumulated drift: after any number of phases, with any paddle activity and any speed changes on
   the way, the deadline is the first deadline plus the exact sum of the durations since, and the
   clock has not reached it yet.
   */
  lemma {:induction false} NoDrift(k: Keyer, inputs: seq<Input>)
    requires OnTime(k) && Unbroken(k, inputs)
    ensures var m := Run(k, inputs); OnTime(m) && m.tickUs == k.tickUs
    ensures Run(k, inputs).phaseEndUs == k.phaseEndUs + Sum(Durations(k, inputs))
  {
    hide Apply, OnTime, InPhase, LongPhases, PhaseUs;
    if inputs != [] {
      var n := |inputs| - 1;
      assert forall i :: 0 <= i <= n ==> inputs[..n][..i] == inputs[..i];
      NoDrift(k, inputs[..n]);
      var m := Run(k, inputs[..n]);
      assert inputs[..|inputs|] == inputs;
      InputOnTime(m, inputs[n]);
      if inputs[n] == Clock {
        ClockChained(m);
        SumSnoc(Durations(k, inputs[..n]), PhaseUs(m.config, m.state, Run(k, inputs).state));
      }
      assert Durations(k, inputs[..n]) + [] == Durations(k, inputs[..n]);
    }
  }

  lemma {:induction false} SumSnoc(xs: seq<nat>, x: nat)
    ensures Sum(xs + [x]) == Sum(xs) + x
  {
    assert (xs + [x])[..|xs|] == xs;
  }

  lemma {:induction false} ClockChained(k: Keyer)
    requires OnTime(k) && LongPhases(k.config, k.tickUs) && InPhase(Apply(k, Clock).keyer)
    ensures var m := Apply(k, Clock).keyer;
      m.phaseEndUs == k.phaseEndUs + (if m.state == k.state then 0 else PhaseUs(k.config, k.state, m.state))
  {
    hide Keyer.Tick, LongPhases, PhaseUs;
    TickChained(k);
  }

  /** A press in idle starts an element on time: its deadline is the tick that saw the press plus its duration. */
  lemma {:induction false} FreshStart(k: Keyer)
    requires k.state == Idle && !k.keyActive && k.phaseEndUs <= k.elapsedUs && !k.textSending && k.textQueue == []
    requires LongPhases(k.config, k.tickUs)
    ensures var m := k.Tick().keyer;
      m.InElement() ==> OnTime(m) && m.phaseEndUs == m.elapsedUs + PhaseUs(k.config, Idle, m.state)
    ensures k.AnyHeld() && k.config.mode != Bug ==> k.Tick().keyer.InElement()
  {
    hide Keyer.StartElementKeyed, Keyer.HandleHangTime, Keyer.StartStraight, Keyer.DispatchNext, OnTime, PhaseUs;
    var t := k.(elapsedUs := k.elapsedUs + k.tickUs);
    FreshElement(t, false);
    FreshElement(t, true);
    FreshElement(t.(singlePaddleDecided := false), false);
    IdleStates(t);
  }

  lemma {:induction false} FreshElement(t: Keyer, isDash: bool)
    requires t.phaseEndUs + t.tickUs <= t.elapsedUs && !t.keyActive && !t.textSending
    requires LongPhases(t.config, t.tickUs)
    ensures var m := t.StartElementKeyed(isDash).keyer;
      && OnTime(m) && m.InElement() && m.elapsedUs == t.elapsedUs && m.config == t.config
      && m.phaseEndUs == t.elapsedUs + PhaseUs(t.config, Idle, m.state)
  {
    hide Keyer.StartElementKeyed, Config.EffectiveDotUs, Config.EffectiveDashUs, Config.ElementGapUs, UpgradeUs;
    StartElementFacts(t, isDash);
  }

  lemma {:induction false} IdleStates(k: Keyer)
    ensures k.StartStraight().keyer.state == StraightKey
    ensures k.HandleHangTime().keyer.state == k.state
  {}
}
