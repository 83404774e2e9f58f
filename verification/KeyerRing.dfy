/** The recorded transitions: always the newest 64 key edges of the run, each with its time. */
module KeyerRing {
  import opened Base
  import opened KeyerConfig
  import opened Morse
  import opened Engine
  import opened KeyerFacts
  import opened KeyerRuns
  import KeyerText

  /** The newest 64 of a sequence of edges. */
  function Newest64(edges: seq<KeyTransition>): seq<KeyTransition> {
    if |edges| > 64 then edges[|edges| - 64..] else edges
  }

  /** A step records exactly the edge it outputs, at the time of the clock. */
  predicate Rung(k: Keyer, s: Step) {
    && s.keyer.elapsedUs == k.elapsedUs
    && s.keyer.transitions ==
         match s.out
         case Some(KeyDown) => Recorded(k.transitions, KeyTransition(true, k.elapsedUs))
         case Some(KeyUp) => Recorded(k.transitions, KeyTransition(false, k.elapsedUs))
         case _ => k.transitions
  }

  lemma {:induction false} RungEdges(k: Keyer)
    ensures Rung(k, k.EmitKeyDown()) && Rung(k, k.EmitKeyUp())
  {}

  lemma {:induction false} RungStart(k: Keyer, isDash: bool)
    ensures Rung(k, k.StartElementKeyed(isDash))
  {
    hide Config.EffectiveDotUs, Config.EffectiveDashUs, Recorded;
  }

  lemma {:induction false} RungFinish(k: Keyer, delay: KeyerState)
    ensures Rung(k, k.FinishElement(delay))
  {
    hide Config.ElementGapUs, Recorded;
  }

  lemma {:induction false} RungDispatch(k: Keyer)
    requires k.textQueue != []
    ensures Rung(k, k.DispatchNext())
  {
    hide Keyer.StartElementKeyed, GapUs, Recorded;
    var d := k.(textSending := true, textQueue := k.textQueue[1..], singlePaddleDecided := true);
    RungStart(d, k.textQueue[0] == Dash);
  }

  lemma {:induction false} RungHang(k: Keyer)
    ensures Rung(k, k.HandleHangTime())
  {
    hide Recorded;
  }

  lemma {:induction false} RungTail(k: Keyer)
    ensures Rung(k, k.ResolveDelayTail())
  {
    hide Config.LetterGapUs, Config.ElementGapUs, Keyer.EnterIdleFromDelay, Keyer.SchedulePhase, Rung;
    IdleRing(k);
    RungWait(k, k.EnterIdleFromDelay());
    RungWait(k, k.(state := Idle));
    ScheduleRing(k.(state := LetterSpace), LetterRestUs(k.config));
    RungWait(k, k.(state := LetterSpace).SchedulePhase(LetterRestUs(k.config)));
  }

  lemma {:induction false} ScheduleRing(k: Keyer, durationUs: u32)
    ensures var m := k.SchedulePhase(durationUs); m.elapsedUs == k.elapsedUs && m.transitions == k.transitions
  {}

  /** What changes neither clock nor ring before the step does not matter. */
  lemma {:induction false} RungFrom(k: Keyer, m: Keyer, s: Step)
    requires m.elapsedUs == k.elapsedUs && m.transitions == k.transitions && Rung(m, s)
    ensures Rung(k, s)
  {}

  lemma {:induction false} QuietedRing(k: Keyer)
    ensures Quieted(k).elapsedUs == k.elapsedUs && Quieted(k).transitions == k.transitions
  {}

  lemma {:induction false} RungWait(k: Keyer, m: Keyer)
    requires m.elapsedUs == k.elapsedUs && m.transitions == k.transitions
    ensures Rung(k, Step(m, None))
  {}

  lemma {:induction false} RungElement(k: Keyer, delay: KeyerState)
    ensures Rung(k, k.TickIambicElement(delay))
  {
    hide Keyer.FinishElement, Keyer.EmitKeyDown, Keyer.LatchOpposite, Rung;
    RungEdges(k);
    var m := k.LatchOpposite();
    LatchRing(k);
    RungFinish(m, delay);
    RungFrom(k, m, m.FinishElement(delay));
    RungWait(k, m);
  }

  lemma {:induction false} LatchRing(k: Keyer)
    ensures k.LatchOpposite().elapsedUs == k.elapsedUs && k.LatchOpposite().transitions == k.transitions
  {
    hide Keyer.InMemoryWindow;
  }

  lemma {:induction false} RungDelay(k: Keyer, bugMode: bool)
    requires Delay(k.state)
    ensures Rung(k, k.TickIambicInner(bugMode))
  {
    hide Keyer.TickIambicInner, Keyer.StartElementKeyed, Keyer.ResolveDelayTail, ChoiceAfter, Rung, Quieted;
    DelayShape(k, bugMode);
    var m := Quieted(k);
    QuietedRing(k);
    if !m.PhaseExpired() {
      RungWait(k, k.TickIambicInner(bugMode).keyer);
    } else {
      match ChoiceAfter(m, k.state == DitDelay, bugMode) {
        case Some(side) => RungStart(m, side); RungFrom(k, m, m.StartElementKeyed(side));
        case None => RungTail(m); RungFrom(k, m, m.ResolveDelayTail());
      }
    }
  }

  lemma {:induction false} RungSpace(k: Keyer)
    ensures Rung(k, k.TickLetterSpace())
  {
    hide Rung;
    RungWait(k, k.(state := Idle, phaseEndUs := k.elapsedUs));
    RungWait(k, k.(state := Idle));
    RungWait(k, k);
  }

  lemma {:induction false} RungInner(k: Keyer, bugMode: bool)
    ensures Rung(k, k.TickIambicInner(bugMode))
  {
    hide Keyer.TickIambicElement, Keyer.ResolveAfterDitDelay, Keyer.ResolveAfterDashDelay, Keyer.StartElementKeyed,
         Keyer.HandleHangTime, Keyer.DispatchNext, Rung;
    match k.state {
      case Idle =>
        RungStart(k, false);
        RungStart(k, true);
        RungHang(k);
        if k.textQueue != [] { RungDispatch(k); }
      case SendDit => RungElement(k, DitDelay);
      case SendDash => RungElement(k, DashDelay);
      case DitDelay => RungDelay(k, bugMode);
      case DashDelay => RungDelay(k, bugMode);
      case LetterSpace => RungSpace(k);
      case StraightKey => RungWait(k, k.(state := Idle));
    }
  }

  lemma {:induction false} RungStartStraight(k: Keyer)
    ensures Rung(k, k.StartStraight())
  {
    hide Recorded;
  }

  lemma {:induction false} RungFinishStraight(k: Keyer)
    ensures Rung(k, k.FinishStraight())
  {
    hide Recorded;
  }

  lemma {:induction false} RungStraight(k: Keyer)
    ensures Rung(k, k.TickStraight())
  {
    hide Keyer.HandleHangTime, Keyer.StartStraight, Keyer.FinishStraight, Keyer.EmitKeyDown, Rung;
    RungHang(k);
    var held := k.(straightReleaseGraceUs := 0);
    RungStartStraight(held);
    RungFrom(k, held, held.StartStraight());
    RungFinishStraight(held);
    RungFrom(k, held, held.FinishStraight());
    RungEdges(k);
    RungWait(k, k);
    RungWait(k, held);
    RungWait(k, k.(straightReleaseGraceUs := SaturatingAdd(k.straightReleaseGraceUs, k.tickUs)));
  }

  lemma {:induction false} RungBug(k: Keyer)
    ensures Rung(k, k.TickBug())
  {
    hide Keyer.TickIambicInner, Keyer.StartStraight, Keyer.FinishStraight, Keyer.EmitKeyDown, Rung;
    RungStartStraight(k);
    RungFinishStraight(k);
    RungEdges(k);
    RungWait(k, k);
    RungInner(k, true);
  }

  lemma {:induction false} RungSingleDelay(k: Keyer)
    ensures Rung(k, k.TickSinglePaddleDelay())
  {
    hide Keyer.StartElementKeyed, Keyer.EnterIdleFromDelay, Rung;
    var m := if k.AnyHeld() && k.textSending then k.AbortText() else k;
    var again := m.(singlePaddleDecided := false);
    RungStart(again, false);
    RungFrom(k, again, again.StartElementKeyed(false));
    RungWait(k, m);
    RungWait(k, m.(state := Idle));
    IdleRing(m);
    RungWait(k, m.EnterIdleFromDelay());
  }

  lemma {:induction false} IdleRing(k: Keyer)
    ensures var m := k.EnterIdleFromDelay(); m.elapsedUs == k.elapsedUs && m.transitions == k.transitions
  {}

  lemma {:induction false} RungUndecided(k: Keyer)
    ensures Rung(k, k.ConfirmDit()) && Rung(k, Step(k.UpgradeToDash(), None))
  {
    hide Config.ElementGapUs, Config.EffectiveDotUs, Config.EffectiveDashUs, Recorded;
  }

  lemma {:induction false} RungSingle(k: Keyer)
    ensures Rung(k, k.TickSinglePaddle())
  {
    hide Keyer.StartElementKeyed, Keyer.HandleHangTime, Keyer.DispatchNext, Keyer.TickSinglePaddleDelay,
         Keyer.TickLetterSpace, Rung;
    hide Keyer.ConfirmDit, Keyer.UpgradeToDash, Keyer.FinishElement, Keyer.EmitKeyDown;
    match k.state {
      case Idle =>
        var begun := k.(singlePaddleDecided := false);
        RungStart(begun, false);
        RungFrom(k, begun, begun.StartElementKeyed(false));
        RungHang(k);
        if k.textQueue != [] { RungDispatch(k); }
      case SendDit => RungEdges(k); RungUndecided(k); RungFinish(k, DitDelay); RungWait(k, k);
      case SendDash => RungEdges(k); RungFinish(k, DashDelay); RungWait(k, k);
      case DitDelay => RungSingleDelay(k);
      case DashDelay => RungSingleDelay(k);
      case LetterSpace => RungSpace(k);
      case StraightKey => RungWait(k, k.(state := Idle));
    }
  }

  lemma {:induction false} RungTick(k: Keyer)
    ensures Rung(k.(elapsedUs := k.elapsedUs + k.tickUs), k.Tick())
  {
    hide Keyer.TickStraight, Keyer.TickBug, Keyer.TickSinglePaddle, Keyer.TickIambicInner, Recorded;
    var t := k.(elapsedUs := k.elapsedUs + k.tickUs);
    match k.config.mode
    case Straight => RungStraight(t);
    case Bug => RungBug(t);
    case SinglePaddle => RungSingle(t);
    case _ => RungInner(t, false);
  }

  /** The key edges a run puts out, with the time of the tick that did. */
  function RunEdges(k: Keyer, inputs: seq<Input>): seq<KeyTransition> {
    if inputs == [] then []
    else
      var n := |inputs| - 1;
      var m := Run(k, inputs[..n]);
      RunEdges(k, inputs[..n]) + (if inputs[n] == Clock then KeyerText.EdgeOf(m.Tick()) else [])
  }

  lemma {:induction false} InputRing(k: Keyer, input: Input)
    requires input != Clock
    ensures Apply(k, input).keyer.transitions == k.transitions
  {
    hide Keyer.Press;
    match input {
      case Paddle(dit, dash) => PressRing(k, dit, dash); PressRing(k, dash, dit);
      case _ =>
    }
  }

  lemma {:induction false} PressRing(k: Keyer, d: bool, h: bool)
    ensures k.Press(d, h).transitions == k.transitions
  {
    hide Keyer.GateOpen;
  }

  /** The ring keeps the newest 64 of what was recorded before and what the run puts out, in order. */
  lemma {:induction false} RingIsNewest(k: Keyer, inputs: seq<Input>)
    requires |k.transitions| <= 64
    ensures Run(k, inputs).transitions == Newest64(k.transitions + RunEdges(k, inputs))
  {
    hide Keyer.Tick, Newest64, Recorded;
    if inputs == [] {
      assert k.transitions + [] == k.transitions;
      RingStart(k.transitions);
    } else {
      var n := |inputs| - 1;
      RingIsNewest(k, inputs[..n]);
      var m := Run(k, inputs[..n]);
      var all := k.transitions + RunEdges(k, inputs[..n]);
      if inputs[n] == Clock {
        RungTick(m);
        var es := KeyerText.EdgeOf(m.Tick());
        assert k.transitions + (RunEdges(k, inputs[..n]) + es) == all + es;
        if es != [] { RingStep(all, es[0]); assert es == [es[0]]; } else { assert all + [] == all; }
      } else {
        InputRing(m, inputs[n]);
        assert k.transitions + (RunEdges(k, inputs[..n]) + []) == all;
      }
    }
  }

  lemma {:induction false} RingStart(ring: seq<KeyTransition>)
    requires |ring| <= 64
    ensures Newest64(ring) == ring
  {}

  lemma {:induction false} RingStep(all: seq<KeyTransition>, e: KeyTransition)
    ensures Recorded(Newest64(all), e) == Newest64(all + [e])
  {}
}
