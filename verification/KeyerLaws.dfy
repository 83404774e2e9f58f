/** Paddles and text together: what is queued, what interrupts it, and what is remembered during an element. */
module KeyerLaws {
  import opened Base
  import opened KeyerConfig
  import opened Morse
  import opened TextEncoder
  import opened Engine
  import opened KeyerFacts
  import opened KeyerRuns
  import opened KeyerSafety
  import opened KeyerQuiescence
  import opened KeyerDrift
  import opened KeyerPaddles
  import opened KeyerKeys
  import opened KeyerText

  // ---- text ------------------------------------------------------------------------------------

  /** Texts queue up in the order they are given, behind what is already there. */
  lemma {:induction false} TextsQueueUp(k: Keyer, s: string, t: string)
    ensures k.SendText(s).SendText(t).textQueue == k.textQueue + Elements(s, true) + Elements(t, true)
  {}

  /** Two texts given to a fresh engine key exactly the one and then the other. */
  lemma {:induction false} TwoTexts(c: Config, q: Quantum, s: string, t: string, n: nat)
    requires TickFits(c, q) && n >= KeyingTicks(c, q, Elements(s, true) + Elements(t, true))
    ensures KeyEdges(Fresh(c, q).SendText(s).SendText(t), n)
      == PulseTransitions(Keying(c, q, Elements(s, true), 0, false)
           + Keying(c, q, Elements(t, true), NowAfter(c, q, Elements(s, true), 0),
                    Keying(c, q, Elements(s, true), 0, false) != []))
  {
    hide KeyEdges, Keying, PulseTransitions, TickFits, Elements, KeyingTicks;
    FreshBetween(c, q, s);
    var k := Fresh(c, q).SendText(s).SendText(t);
    StillBetween(Fresh(c, q).SendText(s), t);
    assert k.textQueue == Elements(s, true) + Elements(t, true);
    MacroTiming(k, n);
    KeyingSplit(c, q, Elements(s, true), Elements(t, true), 0, false);
    assert (false || Keying(c, q, Elements(s, true), 0, false) != [])
        == (Keying(c, q, Elements(s, true), 0, false) != []);
  }

  lemma {:induction false} StillBetween(k: Keyer, t: string)
    requires Between(k)
    ensures var m := k.SendText(t);
      && Between(m) && m.config == k.config && m.tickUs == k.tickUs && m.elapsedUs == k.elapsedUs
      && m.pttActive == k.pttActive && m.textQueue == k.textQueue + Elements(t, true)
  {
    hide TickFits;
  }

  /**
   A paddle pressed any time after a text was given ends it: nothing of it is left in the queue, and the press
   itself is not remembered as an element, only as a paddle that is down.
   */
  lemma {:induction false} PaddleInterrupts(k: Keyer, t: string, dit: bool, dash: bool)
    requires dit || dash
    ensures var m := k.SendText(t).SetPaddle(dit, dash);
      && m.textQueue == [] && !m.textSending && m.AnyHeld()
      && m.ditMemory == k.ditMemory && m.dashMemory == k.dashMemory && m.state == k.state
    ensures k.textSending ==> k.SetPaddle(dit, dash).textQueue == []
  {
    hide Keyer.Press, Elements;
    SetPaddleFacts(k.SendText(t), dit, dash);
    SetPaddleFacts(k, dit, dash);
    PressInText(k.SendText(t), dit, dash);
    PressInText(k.SendText(t), dash, dit);
  }

  lemma {:induction false} PressInText(k: Keyer, d: bool, h: bool)
    requires k.textSending
    ensures var m := k.Press(d, h); m.ditMemory == k.ditMemory && m.dashMemory == k.dashMemory
  {
    hide Keyer.GateOpen;
  }

  /** A new configuration leaves everything else as it is; whatever is under way goes on. */
  lemma {:induction false} OnlyTheConfiguration(k: Keyer, c: Config)
    ensures var m := k.UpdateConfig(c); m.config == c && m.(config := k.config) == k
  {}

  /** An engine that is not active and remembers nothing stays silent until something is pressed or queued. */
  lemma {:induction false} InactiveIsSilent(k: Keyer, n: nat)
    requires !k.IsActive() && !k.AnyHeld() && !k.ditMemory && !k.dashMemory && Safe(k)
    ensures TickLog(k, n) == [] && !Ticks(k, n).IsActive()
  {
    SettledForGood(k, n);
  }

  // ---- what is remembered ------------------------------------------------------------------------

  /**
   The opposite paddle, down at a tick of a sounding element, is remembered: in iambic A at any tick, in iambic B
   and Ultimatic exactly while more of the element than the timing percentage is still to come.
   */
  lemma {:induction false} HeldIsRemembered(k: Keyer)
    requires Iambic(k.config.mode) && k.InElement() && k.keyActive
    requires HeldSide(k, k.state == SendDit) && !MemoryOf(k, k.state == SendDit)
    ensures MemoryOf(k.Tick().keyer, k.state == SendDit)
      == (k.config.mode == IambicA || InTime(k.(elapsedUs := k.elapsedUs + k.tickUs)))
  {
    hide Keyer.TickIambicInner, Keyer.FinishElement, Keyer.InMemoryWindow, InTime, Config.ElementGapUs, Anchor;
    var t := k.(elapsedUs := k.elapsedUs + k.tickUs);
    WindowInTime(t);
    InnerShape(t);
    FinishElementFacts(t.LatchOpposite(), DitDelay);
    FinishElementFacts(t.LatchOpposite(), DashDelay);
  }

  // ---- starting -----------------------------------------------------------------------------------

  /** An idle bug with the dit paddle down starts a dit, also when the dash paddle is down too. */
  lemma {:induction false} BugDits(k: Keyer)
    requires k.config.mode == Bug && k.state == Idle && k.ditHeld
    ensures k.Tick().keyer.state == SendDit
  {
    hide Keyer.StartElementKeyed, Keyer.StartStraight, ElementUs, Anchor;
    StartElementFacts(k.(elapsedUs := k.elapsedUs + k.tickUs), false);
  }

  /** After an element with nothing to follow, auto-spacing waits until a whole letter gap has passed since it. */
  lemma {:induction false} AutoSpacing(k: Keyer, end: nat)
    requires k.config.autoSpacing && k.textQueue == [] && k.elapsedUs < k.phaseEndUs + k.tickUs
    requires k.phaseEndUs == end + k.config.ElementGapUs() && k.config.LetterGapUs() > k.config.ElementGapUs()
    ensures var m := k.ResolveDelayTail().keyer;
      m.state == LetterSpace && m.phaseEndUs == end + k.config.LetterGapUs()
  {
    hide Config.LetterGapUs, Config.ElementGapUs;
    TailState(k);
    TailFacts(k);
  }

  /** A paddle down in a letter space ends it: the next tick starts an element of full length. */
  lemma {:induction false} PressInLetterSpace(k: Keyer)
    requires Iambic(k.config.mode) && k.state == LetterSpace && k.AnyHeld()
    ensures var m := k.Tick().keyer; var e := m.Tick().keyer;
      && m.state == Idle && e.InElement()
      && e.phaseEndUs == e.elapsedUs + ElementUs(k.config, e.state == SendDash)
  {
    hide Keyer.Tick, ElementUs;
    SpaceEnds(k);
    IdleStarts(k.Tick().keyer);
  }

  lemma {:induction false} SpaceEnds(k: Keyer)
    requires Iambic(k.config.mode) && k.state == LetterSpace && k.AnyHeld()
    ensures var m := k.Tick().keyer;
      && m.config == k.config && m.tickUs == k.tickUs && m.state == Idle && m.AnyHeld()
      && m.elapsedUs == k.elapsedUs + k.tickUs && m.phaseEndUs == m.elapsedUs
  {
    hide Keyer.TickIambicInner;
    SpaceShape(k.(elapsedUs := k.elapsedUs + k.tickUs));
  }

  lemma {:induction false} SpaceShape(t: Keyer)
    requires t.state == LetterSpace
    ensures t.TickIambicInner(false) == t.TickLetterSpace()
  {
    hide Keyer.TickLetterSpace;
  }

  lemma {:induction false} IdleStarts(k: Keyer)
    requires Iambic(k.config.mode) && k.state == Idle && k.AnyHeld() && k.phaseEndUs <= k.elapsedUs
    ensures var m := k.Tick().keyer;
      && m.InElement() && m.elapsedUs == k.elapsedUs + k.tickUs
      && m.phaseEndUs == m.elapsedUs + ElementUs(k.config, m.state == SendDash)
  {
    hide Keyer.StartElementKeyed, ElementUs;
    var t := k.(elapsedUs := k.elapsedUs + k.tickUs);
    StartElementFacts(t, false);
    StartElementFacts(t, true);
  }
}
