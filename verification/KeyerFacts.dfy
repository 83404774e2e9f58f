/** What the building blocks of a tick change and what they leave alone, one block at a time. */
module KeyerFacts {
  import opened Base
  import opened KeyerConfig
  import opened Morse
  import opened Engine

  /** Nothing but the paddle inputs, their memories and the macro may differ. */
  predicate SamePhase(k: Keyer, m: Keyer) {
    && m.config == k.config && m.state == k.state && m.tickUs == k.tickUs && m.elapsedUs == k.elapsedUs
    && m.phaseEndUs == k.phaseEndUs && m.elementDurationUs == k.elementDurationUs
    && m.pttActive == k.pttActive && m.keyActive == k.keyActive && m.hangCounterUs == k.hangCounterUs
    && m.singlePaddleDecided == k.singlePaddleDecided && m.straightReleaseGraceUs == k.straightReleaseGraceUs
  }

  /** The paddle inputs, the queue and the clock are as before. */
  predicate SameInputs(k: Keyer, m: Keyer) {
    && m.config == k.config && m.tickUs == k.tickUs && m.elapsedUs == k.elapsedUs
    && m.ditHeld == k.ditHeld && m.dashHeld == k.dashHeld && m.lastPaddle == k.lastPaddle
    && m.textQueue == k.textQueue && m.textSending == k.textSending
  }

  lemma {:induction false} PressFacts(k: Keyer, d: bool, h: bool)
    ensures var m := k.Press(d, h);
      && SamePhase(k, m) && m.ditHeld == d && m.dashHeld == h
      && m.textQueue == (if (d || h) && k.textSending then [] else k.textQueue)
      && m.textSending == (k.textSending && !d && !h)
  {
    hide Keyer.GateOpen;
  }

  lemma {:induction false} SetPaddleFacts(k: Keyer, dit: bool, dash: bool)
    ensures var m := k.SetPaddle(dit, dash);
      && SamePhase(k, m) && m.AnyHeld() == (dit || dash)
      && m.textQueue == (if (dit || dash) && k.textSending then [] else k.textQueue)
      && m.textSending == (k.textSending && !dit && !dash)
  {
    hide Keyer.Press;
    PressFacts(k, dit, dash);
    PressFacts(k, dash, dit);
  }

  /** The anchor of the next phase: the old deadline while it is less than a tick old, else now. */
  function Anchor(k: Keyer): nat {
    if k.phaseEndUs + k.tickUs > k.elapsedUs then k.phaseEndUs else k.elapsedUs
  }

  function ElementUs(c: Config, isDash: bool): u32 {
    if isDash then c.EffectiveDashUs() else c.EffectiveDotUs()
  }

  lemma {:induction false} StartElementFacts(k: Keyer, isDash: bool)
    ensures var s := k.StartElementKeyed(isDash); var m := s.keyer;
      && SameInputs(k, m)
      && m.state == (if isDash then SendDash else SendDit)
      && m.phaseEndUs == Anchor(k) + ElementUs(k.config, isDash)
      && m.elementDurationUs == ElementUs(k.config, isDash)
      && m.ditMemory == (k.ditMemory && isDash) && m.dashMemory == (k.dashMemory && !isDash)
      && m.pttActive && m.keyActive == (k.keyActive || k.pttActive)
      && m.hangCounterUs == (if k.pttActive then 0 else k.hangCounterUs)
      && m.singlePaddleDecided == k.singlePaddleDecided
      && m.straightReleaseGraceUs == k.straightReleaseGraceUs
      && s.out == Some(if k.pttActive then KeyDown else PttRequest(true))
  {
    hide Config.EffectiveDotUs, Config.EffectiveDashUs, Recorded;
  }

  lemma {:induction false} FinishElementFacts(k: Keyer, delay: KeyerState)
    ensures var s := k.FinishElement(delay); var m := s.keyer;
      && SameInputs(k, m)
      && m.state == (if k.textSending then Idle else delay)
      && m.phaseEndUs == (if k.textSending then k.phaseEndUs else Anchor(k) + k.config.ElementGapUs())
      && m.ditMemory == k.ditMemory && m.dashMemory == k.dashMemory
      && m.pttActive == k.pttActive && !m.keyActive
      && m.hangCounterUs == k.hangCounterUs
      && m.singlePaddleDecided == k.singlePaddleDecided
      && m.straightReleaseGraceUs == k.straightReleaseGraceUs
      && s.out == Some(KeyUp)
  {
    hide Config.ElementGapUs, Recorded;
  }

  lemma {:induction false} KeyDownFacts(k: Keyer)
    ensures var s := k.EmitKeyDown(); var m := s.keyer;
      && SameInputs(k, m) && SamePhase(k.(keyActive := true, hangCounterUs := 0), m)
      && m.ditMemory == k.ditMemory && m.dashMemory == k.dashMemory
      && s.out == Some(KeyDown)
  {
    hide Recorded;
  }

  lemma {:induction false} KeyUpFacts(k: Keyer)
    ensures var s := k.EmitKeyUp(); var m := s.keyer;
      && SameInputs(k, m) && SamePhase(k.(keyActive := false), m)
      && m.ditMemory == k.ditMemory && m.dashMemory == k.dashMemory
      && s.out == Some(KeyUp)
  {
    hide Recorded;
  }

  lemma {:induction false} LatchFacts(k: Keyer)
    ensures var m := k.LatchOpposite();
      && SameInputs(k, m) && SamePhase(k, m)
      && (k.ditMemory ==> m.ditMemory) && (k.dashMemory ==> m.dashMemory)
      && (!k.AnyHeld() ==> m == k)
  {
    hide Keyer.InMemoryWindow;
  }

  lemma {:induction false} HangFacts(k: Keyer)
    ensures var s := k.HandleHangTime(); var m := s.keyer;
      && SameInputs(k, m)
      && m.state == k.state && m.phaseEndUs == k.phaseEndUs && m.keyActive == k.keyActive
      && m.ditMemory == k.ditMemory && m.dashMemory == k.dashMemory
      && m.singlePaddleDecided == k.singlePaddleDecided
      && m.straightReleaseGraceUs == k.straightReleaseGraceUs
      && (if k.pttActive && !k.keyActive then
            && m.hangCounterUs == SaturatingAdd(k.hangCounterUs, k.tickUs)
            && m.pttActive == (m.hangCounterUs < SaturatingMul(k.config.hangTimeMs, 1000))
            && s.out == (if m.pttActive then None else Some(PttRequest(false)))
          else m == k && s.out == None)
  {}

  /** A text element: keyed ones start like any element, gaps wait in `DitDelay`. */
  lemma {:induction false} DispatchFacts(k: Keyer)
    requires k.textQueue != []
    ensures var s := k.DispatchNext(); var m := s.keyer; var e := k.textQueue[0];
      && m.config == k.config && m.tickUs == k.tickUs && m.elapsedUs == k.elapsedUs
      && m.ditHeld == k.ditHeld && m.dashHeld == k.dashHeld && m.lastPaddle == k.lastPaddle
      && m.textQueue == k.textQueue[1..] && m.textSending && m.singlePaddleDecided
      && m.straightReleaseGraceUs == k.straightReleaseGraceUs
      && if e.Keyed() then
           && m.state == (if e == Dash then SendDash else SendDit)
           && m.phaseEndUs == Anchor(k) + ElementUs(k.config, e == Dash)
           && m.elementDurationUs == ElementUs(k.config, e == Dash)
           && m.ditMemory == (k.ditMemory && e == Dash) && m.dashMemory == (k.dashMemory && e == Dit)
           && m.pttActive && m.keyActive == (k.keyActive || k.pttActive)
           && m.hangCounterUs == (if k.pttActive then 0 else k.hangCounterUs)
           && s.out == Some(if k.pttActive then KeyDown else PttRequest(true))
         else
           && m.state == DitDelay
           && m.phaseEndUs == Anchor(k) + GapUs(k.config, e)
           && m.ditMemory == k.ditMemory && m.dashMemory == k.dashMemory
           && m.pttActive == k.pttActive && m.keyActive == k.keyActive
           && m.hangCounterUs == k.hangCounterUs
           && s.out == None
  {
    hide Keyer.StartElementKeyed, GapUs, Config.EffectiveDotUs, Config.EffectiveDashUs, Keyer.WaitGap;
    var e := k.textQueue[0];
    var d := k.(textSending := true, textQueue := k.textQueue[1..], singlePaddleDecided := true);
    assert k.DispatchNext() ==
      if e.Keyed() then d.StartElementKeyed(e == Dash) else Step(d.WaitGap(GapUs(k.config, e)), None);
    assert Anchor(d) == Anchor(k);
    if e.Keyed() { StartElementFacts(d, e == Dash); } else { WaitGapFacts(d, GapUs(k.config, e)); }
  }

  lemma {:induction false} WaitGapFacts(k: Keyer, gapUs: u32)
    ensures var m := k.WaitGap(gapUs);
      && SameInputs(k, m) && m.state == DitDelay && m.phaseEndUs == Anchor(k) + gapUs
      && m.singlePaddleDecided == k.singlePaddleDecided
      && m.pttActive == k.pttActive && m.keyActive == k.keyActive && m.hangCounterUs == k.hangCounterUs
      && m.straightReleaseGraceUs == k.straightReleaseGraceUs
      && m.ditMemory == k.ditMemory && m.dashMemory == k.dashMemory
  {}

  lemma {:induction false} EnterIdleFacts(k: Keyer)
    ensures var m := k.EnterIdleFromDelay();
      && m.config == k.config && m.tickUs == k.tickUs && m.elapsedUs == k.elapsedUs
      && m.ditHeld == k.ditHeld && m.dashHeld == k.dashHeld && m.textQueue == k.textQueue && !m.textSending
      && m.pttActive == k.pttActive && m.keyActive == k.keyActive
      && m.straightReleaseGraceUs == k.straightReleaseGraceUs
      && m.state == Idle && m.phaseEndUs == k.phaseEndUs && !m.ditMemory && !m.dashMemory && m.lastPaddle == None
      && m.hangCounterUs == 0 && !m.singlePaddleDecided
  {}

  lemma {:induction false} ScheduleFacts(k: Keyer, durationUs: u32)
    ensures var m := k.SchedulePhase(durationUs);
      && SameInputs(k, m) && m.state == k.state && m.phaseEndUs == Anchor(k) + durationUs
      && m.pttActive == k.pttActive && m.keyActive == k.keyActive && m.hangCounterUs == k.hangCounterUs
      && m.straightReleaseGraceUs == k.straightReleaseGraceUs
      && m.ditMemory == k.ditMemory && m.dashMemory == k.dashMemory
  {}

  /** The rest of a letter gap, which auto-spacing adds after the element gap. */
  function LetterRestUs(c: Config): nat { MonusNat(c.LetterGapUs(), c.ElementGapUs()) }

  lemma {:induction false} TailFacts(k: Keyer)
    ensures var s := k.ResolveDelayTail(); var m := s.keyer;
      && m.config == k.config && m.tickUs == k.tickUs && m.elapsedUs == k.elapsedUs
      && m.ditHeld == k.ditHeld && m.dashHeld == k.dashHeld && m.textQueue == k.textQueue
      && m.pttActive == k.pttActive && m.keyActive == k.keyActive
      && m.straightReleaseGraceUs == k.straightReleaseGraceUs
      && s.out == None
      && (m.state == Idle || m.state == LetterSpace)
      && (k.textSending && k.textQueue != [] ==> m == k.(state := Idle))
      && (m.state == LetterSpace ==>
            && k.config.autoSpacing
            && m.phaseEndUs == Anchor(k) + LetterRestUs(k.config)
            && m.ditMemory == k.ditMemory && m.dashMemory == k.dashMemory && m.textSending == k.textSending)
      && (m.state == Idle ==>
            && m.phaseEndUs == k.phaseEndUs
            && ((k.textSending && k.textQueue != []) || (!m.ditMemory && !m.dashMemory && !m.textSending)))
  {
    hide Config.LetterGapUs, Config.ElementGapUs, Keyer.EnterIdleFromDelay, Keyer.SchedulePhase, Anchor;
    EnterIdleFacts(k);
    ScheduleFacts(k.(state := LetterSpace), LetterRestUs(k.config));
    assert Anchor(k.(state := LetterSpace)) == Anchor(k) by { AnchorIgnoresState(k, LetterSpace); }
  }

  lemma {:induction false} AnchorIgnoresState(k: Keyer, s: KeyerState)
    ensures Anchor(k.(state := s)) == Anchor(k)
  {}

  /** What a delay resolves to: the side of the next element, or none. */
  function ChoiceAfter(k: Keyer, afterDit: bool, bugMode: bool): Option<bool> {
    if k.config.mode == Ultimatic then k.UltimaticChoice()
    else
      var dit := k.ditHeld || (k.config.IsModeB() && k.ditMemory);
      var dash := !bugMode && (k.dashHeld || (k.config.IsModeB() && k.dashMemory));
      if afterDit then (if dash then Some(true) else if dit then Some(false) else None)
      else (if dit then Some(false) else if dash then Some(true) else None)
  }

  function Resolved(k: Keyer, choice: Option<bool>): Step {
    match choice
    case Some(side) => k.StartElementKeyed(side)
    case None => k.ResolveDelayTail()
  }

  lemma {:induction false} ResolveFacts(k: Keyer, bugMode: bool)
    ensures k.ResolveAfterDitDelay(bugMode) == Resolved(k, ChoiceAfter(k, true, bugMode))
    ensures k.ResolveAfterDashDelay(bugMode) == Resolved(k, ChoiceAfter(k, false, bugMode))
  {
    hide Keyer.StartElementKeyed, Keyer.ResolveDelayTail, Keyer.UltimaticChoice;
  }

  /** A paddle hit in a delay ends a macro. */
  function Quieted(k: Keyer): Keyer {
    if k.AnyHeld() && k.textSending then k.AbortText() else k
  }

  function Delay(s: KeyerState): bool { s == DitDelay || s == DashDelay }

  /** A tick in a delay of the iambic machine: wait and latch, or resolve. */
  function DelayStep(k: Keyer, bugMode: bool): Step {
    var m := Quieted(k);
    if !m.PhaseExpired() then
      Step(if k.state == DitDelay then m.(dashMemory := m.dashMemory || m.dashHeld)
           else m.(ditMemory := m.ditMemory || m.ditHeld), None)
    else Resolved(m, ChoiceAfter(m, k.state == DitDelay, bugMode))
  }

  lemma {:induction false} DelayShape(k: Keyer, bugMode: bool)
    requires Delay(k.state)
    ensures k.TickIambicInner(bugMode) == DelayStep(k, bugMode)
  {
    hide Keyer.StartElementKeyed, Keyer.ResolveDelayTail, Keyer.ResolveAfterDitDelay, Keyer.ResolveAfterDashDelay,
         ChoiceAfter;
    ResolveFacts(Quieted(k), bugMode);
  }
}
