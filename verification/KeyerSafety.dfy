/** Key and PTT safety of the keyer engine in every mode, and the mode changes that break it. */
module KeyerSafety {
  import opened Base
  import opened KeyerConfig
  import opened Morse
  import opened Engine
  import opened KeyerFacts
  import opened KeyerRuns

  predicate StraightMode(m: Mode) { m == Straight || m == Bug }

  /** A sounding straight key in a mode that does not know straight keys. */
  predicate Orphaned(k: Keyer) {
    k.keyActive && k.state == StraightKey && !StraightMode(k.config.mode)
  }

  predicate Safe(k: Keyer) {
    && (k.keyActive ==> k.InElement() || k.state == StraightKey)
    && (k.InElement() || k.state == StraightKey ==> k.pttActive)
    && !Orphaned(k)
  }

  /** What a step must do to be safe: a legal output, mirrored in the engine's own flags. */
  predicate SafeStep(k: Keyer, s: Step) {
    && Safe(s.keyer)
    && s.keyer.config == k.config
    && match s.out
       case None => s.keyer.keyActive == k.keyActive && s.keyer.pttActive == k.pttActive
       case Some(o) =>
         && Legal(o, k.keyActive, k.pttActive)
         && s.keyer.keyActive == (if o.PttRequest? then k.keyActive else o == KeyDown)
         && s.keyer.pttActive == (if o.PttRequest? then o.on else k.pttActive)
  }

  /** Whether the straight key may sound in this mode. */
  predicate Sounds(k: Keyer) {
    k.InElement() || (k.state == StraightKey && StraightMode(k.config.mode))
  }

  lemma {:induction false} KeyDownSafe(k: Keyer)
    requires !k.keyActive && k.pttActive && Sounds(k)
    ensures SafeStep(k, k.EmitKeyDown())
  {}

  lemma {:induction false} KeyUpSafe(k: Keyer)
    requires k.keyActive && k.pttActive && !k.InElement() && k.state != StraightKey
    ensures SafeStep(k, k.EmitKeyUp())
  {}

  lemma {:induction false} StartElementSafe(k: Keyer, isDash: bool)
    requires !k.keyActive
    ensures SafeStep(k, k.StartElementKeyed(isDash))
  {
    hide Keyer.StartElementKeyed, ElementUs, Anchor;
    StartElementFacts(k, isDash);
  }

  lemma {:induction false} FinishElementSafe(k: Keyer, delay: KeyerState)
    requires k.keyActive && k.pttActive && (delay == DitDelay || delay == DashDelay)
    ensures SafeStep(k, k.FinishElement(delay))
  {
    hide Keyer.FinishElement, Config.ElementGapUs, Anchor;
    FinishElementFacts(k, delay);
  }

  lemma {:induction false} DispatchSafe(k: Keyer)
    requires !k.keyActive && k.textQueue != [] && k.state == Idle
    ensures SafeStep(k, k.DispatchNext())
  {
    hide Keyer.DispatchNext, GapUs, ElementUs, Anchor;
    DispatchFacts(k);
  }

  lemma {:induction false} HangSafe(k: Keyer)
    requires Safe(k) && k.state == Idle
    ensures SafeStep(k, k.HandleHangTime())
  {
    hide Keyer.HandleHangTime, SaturatingAdd, SaturatingMul;
    HangFacts(k);
  }

  /** The end of a delay: any element may start, or the engine waits or goes idle. */
  lemma {:induction false} TailSafe(k: Keyer)
    requires !k.keyActive && !k.InElement() && k.state != StraightKey
    ensures SafeStep(k, k.ResolveDelayTail())
  {
    hide Keyer.ResolveDelayTail, LetterRestUs, Anchor;
    TailFacts(k);
  }

  lemma {:induction false} IambicIdleSafe(k: Keyer, bugMode: bool)
    requires Safe(k) && k.state == Idle
    ensures SafeStep(k, k.TickIambicInner(bugMode))
  {
    hide Keyer.StartElementKeyed, Keyer.DispatchNext, Keyer.HandleHangTime, SafeStep;
    StartElementSafe(k, false);
    StartElementSafe(k, true);
    if k.textQueue != [] { DispatchSafe(k); }
    HangSafe(k);
  }

  lemma {:induction false} IambicElementSafe(k: Keyer, delay: KeyerState)
    requires Safe(k) && k.InElement() && (delay == DitDelay || delay == DashDelay)
    ensures SafeStep(k, k.TickIambicElement(delay))
  {
    hide Keyer.FinishElement, Keyer.EmitKeyDown, Keyer.LatchOpposite;
    if k.keyActive {
      LatchFacts(k);
      FinishElementSafe(k.LatchOpposite(), delay);
    } else {
      KeyDownSafe(k);
    }
  }

  lemma {:induction false} IambicDelaySafe(k: Keyer, bugMode: bool)
    requires Safe(k) && Delay(k.state)
    ensures SafeStep(k, k.TickIambicInner(bugMode))
  {
    hide Keyer.TickIambicInner, Keyer.StartElementKeyed, Keyer.ResolveDelayTail, ChoiceAfter;
    DelayShape(k, bugMode);
    StartElementSafe(Quieted(k), false);
    StartElementSafe(Quieted(k), true);
    TailSafe(Quieted(k));
  }

  lemma {:induction false} IambicInnerSafe(k: Keyer, bugMode: bool)
    requires Safe(k)
    requires k.state == StraightKey ==> !k.keyActive
    ensures SafeStep(k, k.TickIambicInner(bugMode))
  {
    match k.state
    case Idle => hide *; IambicIdleSafe(k, bugMode);
    case SendDit => hide Keyer.TickIambicElement, SafeStep; IambicElementSafe(k, DitDelay);
    case SendDash => hide Keyer.TickIambicElement, SafeStep; IambicElementSafe(k, DashDelay);
    case DitDelay => hide *; IambicDelaySafe(k, bugMode);
    case DashDelay => hide *; IambicDelaySafe(k, bugMode);
    case LetterSpace =>
    case StraightKey =>
  }

  lemma {:induction false} SinglePaddleElementSafe(k: Keyer)
    requires Safe(k) && k.config.mode == SinglePaddle && k.InElement()
    ensures SafeStep(k, k.TickSinglePaddle())
  {
    hide Keyer.FinishElement, Keyer.EmitKeyDown, Keyer.ConfirmDit, Keyer.UpgradeToDash;
    if !k.keyActive {
      KeyDownSafe(k);
    } else {
      FinishElementSafe(k, if k.state == SendDit then DitDelay else DashDelay);
      if k.state == SendDit { UndecidedSafe(k); }
    }
  }

  lemma {:induction false} UndecidedSafe(k: Keyer)
    requires Safe(k) && k.state == SendDit && k.keyActive
    ensures SafeStep(k, k.ConfirmDit()) && SafeStep(k, Step(k.UpgradeToDash(), None))
  {
    hide Keyer.SchedulePhase, Keyer.EmitKeyUp, Config.ElementGapUs, Config.EffectiveDashUs, Config.EffectiveDotUs;
    var d := k.(singlePaddleDecided := true, state := DitDelay);
    ScheduleFacts(d, k.config.ElementGapUs());
    KeyUpSafe(d.SchedulePhase(k.config.ElementGapUs()));
    ScheduleFacts(k.(singlePaddleDecided := true, state := SendDash),
                  MonusNat(k.config.EffectiveDashUs(), k.config.EffectiveDotUs()));
  }

  lemma {:induction false} SinglePaddleSafe(k: Keyer)
    requires Safe(k) && k.config.mode == SinglePaddle
    ensures SafeStep(k, k.TickSinglePaddle())
  {
    hide Keyer.StartElementKeyed, Keyer.DispatchNext, Keyer.HandleHangTime, Keyer.TickSinglePaddleDelay;
    match k.state
    case Idle =>
      StartElementSafe(k.(singlePaddleDecided := false), false);
      if k.textQueue != [] { DispatchSafe(k); }
      HangSafe(k);
    case SendDit => hide *; SinglePaddleElementSafe(k);
    case SendDash => hide *; SinglePaddleElementSafe(k);
    case DitDelay => SinglePaddleDelaySafe(k);
    case DashDelay => SinglePaddleDelaySafe(k);
    case LetterSpace =>
    case StraightKey =>
  }

  lemma {:induction false} SinglePaddleDelaySafe(k: Keyer)
    requires !k.keyActive && (k.state == DitDelay || k.state == DashDelay)
    ensures SafeStep(k, k.TickSinglePaddleDelay())
  {
    hide Keyer.StartElementKeyed;
    StartElementSafe(k.(singlePaddleDecided := false), false);
    StartElementSafe(k.AbortText().(singlePaddleDecided := false), false);
  }

  lemma {:induction false} StraightSafe(k: Keyer)
    requires Safe(k) && k.config.mode == Straight
    ensures SafeStep(k, k.TickStraight())
  {
    hide Keyer.HandleHangTime;
    HangSafe(if k.state == Idle then k else k.(state := Idle, keyActive := false));
  }

  lemma {:induction false} BugSafe(k: Keyer)
    requires Safe(k) && k.config.mode == Bug
    ensures SafeStep(k, k.TickBug())
  {
    hide Keyer.TickIambicInner;
    if k.state != StraightKey { IambicInnerSafe(k, true); }
  }

  /** In every mode one tick makes only a legal output and keeps the engine safe. */
  lemma {:induction false} TickSafe(k: Keyer)
    requires Safe(k)
    ensures SafeStep(k, k.Tick())
  {
    hide Keyer.TickStraight, Keyer.TickBug, Keyer.TickSinglePaddle, Keyer.TickIambicInner;
    var t := k.(elapsedUs := k.elapsedUs + k.tickUs);
    match k.config.mode
    case Straight => StraightSafe(t);
    case Bug => BugSafe(t);
    case SinglePaddle => SinglePaddleSafe(t);
    case _ => IambicInnerSafe(t, false);
  }

  // ---- whole runs -------------------------------------------------------------

  /** A configuration change that does not take the mode away from under a sounding straight key. */
  predicate ChangeAllowed(k: Keyer, c: Config) {
    !(k.keyActive && k.state == StraightKey && !StraightMode(c.mode))
  }

  ghost predicate ChangesAllowed(k: Keyer, inputs: seq<Input>) {
    forall i :: 0 <= i < |inputs| && inputs[i].Reconfigure? ==> ChangeAllowed(Run(k, inputs[..i]), inputs[i].config)
  }

  predicate ModeFixed(m: Mode, inputs: seq<Input>) {
    forall i :: 0 <= i < |inputs| && inputs[i].Reconfigure? ==> inputs[i].config.mode == m
  }

  lemma {:induction false} PaddleSafe(k: Keyer, dit: bool, dash: bool)
    requires Safe(k)
    ensures SafeStep(k, Step(k.SetPaddle(dit, dash), None))
  {
    hide Keyer.SetPaddle;
    SetPaddleFacts(k, dit, dash);
  }

  lemma {:induction false} ApplySafe(k: Keyer, input: Input)
    requires Safe(k) && (input.Reconfigure? ==> ChangeAllowed(k, input.config))
    ensures var s := Apply(k, input);
      SafeStep(if input.Reconfigure? then k.(config := input.config) else k, s)
  {
    hide Keyer.Tick, Keyer.SetPaddle;
    match input
    case Clock => TickSafe(k);
    case Paddle(dit, dash) => PaddleSafe(k, dit, dash);
    case _ =>
  }

  lemma {:induction false} LogSafe(key: bool, ptt: bool, log: seq<Output>, k: Keyer, s: Step)
    requires WellKeyed(key, ptt, log) && SafeStep(k, s)
    requires k.keyActive == KeyLine(key, log) && k.pttActive == PttLine(ptt, log)
    ensures WellKeyed(key, ptt, log + Emitted(s.out))
    ensures s.keyer.keyActive == KeyLine(key, log + Emitted(s.out))
    ensures s.keyer.pttActive == PttLine(ptt, log + Emitted(s.out))
  {
    hide Safe;
    if s.out.Some? {
      WellKeyedSnoc(key, ptt, log, s.out.value);
      LinesSnoc(key, ptt, log, s.out.value);
    } else {
      assert log + [] == log;
    }
  }

  /**
   Over any run of ticks, paddle edges, texts, aborts and permitted configuration changes, from a
   safe engine, every output is legal on the lines the earlier outputs left, and the engine's own
   key and PTT flags are those lines.
   */
  lemma {:induction false} RunSafe(k: Keyer, inputs: seq<Input>)
    requires Safe(k) && ChangesAllowed(k, inputs)
    ensures WellKeyed(k.keyActive, k.pttActive, Log(k, inputs))
    ensures Safe(Run(k, inputs))
    ensures Run(k, inputs).keyActive == KeyLine(k.keyActive, Log(k, inputs))
    ensures Run(k, inputs).pttActive == PttLine(k.pttActive, Log(k, inputs))
  {
    hide Apply, Safe, WellKeyed, Emitted, ChangeAllowed;
    if inputs == [] {
      NothingLogged(k.keyActive, k.pttActive);
    } else {
      var n := |inputs| - 1;
      assert forall i :: 0 <= i < n ==> inputs[..n][..i] == inputs[..i];
      RunSafe(k, inputs[..n]);
      var m := Run(k, inputs[..n]);
      ApplySafe(m, inputs[n]);
      LogSafe(k.keyActive, k.pttActive, Log(k, inputs[..n]),
              if inputs[n].Reconfigure? then m.(config := inputs[n].config) else m, Apply(m, inputs[n]));
    }
  }

  lemma {:induction false} NothingLogged(key: bool, ptt: bool)
    ensures WellKeyed(key, ptt, [])
  {}

  /** With the mode fixed, whatever else is reconfigured, a fresh engine keys legally. */
  lemma {:induction false} FixedModeSafe(config: Config, tickUs: Quantum, inputs: seq<Input>)
    requires ModeFixed(config.mode, inputs)
    ensures WellKeyed(false, false, Log(Fresh(config, tickUs), inputs))
  {
    FixedModeAllowed(Fresh(config, tickUs), inputs);
    RunSafe(Fresh(config, tickUs), inputs);
  }

  lemma {:induction false} FixedModeAllowed(k: Keyer, inputs: seq<Input>)
    requires Safe(k) && ModeFixed(k.config.mode, inputs)
    ensures ChangesAllowed(k, inputs) && Run(k, inputs).config.mode == k.config.mode
  {
    hide Apply, WellKeyed, KeyLine, PttLine;
    if inputs != [] {
      var n := |inputs| - 1;
      assert forall i :: 0 <= i < n ==> inputs[..n][..i] == inputs[..i];
      FixedModeAllowed(k, inputs[..n]);
      RunSafe(k, inputs[..n]);
      ApplySafe(Run(k, inputs[..n]), inputs[n]);
    }
  }

  // ---- mode changes -------------------------------------------------------------

  /** The engine keys legally from here on, over every run that keeps its mode. */
  ghost predicate SafeFromHere(k: Keyer) {
    forall inputs: seq<Input> :: ModeFixed(k.config.mode, inputs) ==>
      WellKeyed(k.keyActive, k.pttActive, Log(k, inputs))
  }

  /**
   A safe engine stays safe under a change of configuration exactly when the change does not
   take the mode away from under a sounding straight key.
   */
  lemma {:induction false} ModeChange(k: Keyer, c: Config)
    requires Safe(k)
    ensures SafeFromHere(k.UpdateConfig(c)) <==> ChangeAllowed(k, c)
  {
    var u := k.UpdateConfig(c);
    if ChangeAllowed(k, c) {
      forall inputs: seq<Input> | ModeFixed(c.mode, inputs)
        ensures WellKeyed(u.keyActive, u.pttActive, Log(u, inputs))
      {
        FixedModeAllowed(u, inputs);
        RunSafe(u, inputs);
      }
    } else {
      SecondKeyDown(u);
    }
  }

  /** Two ticks and a press make an orphaned straight key sound a second key-down without a key-up. */
  lemma {:induction false} SecondKeyDown(k: Keyer)
    requires Orphaned(k) && k.pttActive
    ensures !SafeFromHere(k)
  {
    hide Run, Log;
    var inputs := [Clock, Paddle(true, true), Clock];
    OrphanRun(k);
    assert ModeFixed(k.config.mode, inputs);
    var log := Log(k, inputs);
    assert log[..0] == [];
    assert !Legal(log[0], KeyLine(true, log[..0]), PttLine(true, log[..0]));
  }

  /** Such an engine comes about: a straight key pressed, sounding after two ticks, and its mode taken away. */
  lemma {:induction false} OrphanReachable(c: Config, tickUs: Quantum, d: Config)
    requires c.mode == Straight && !StraightMode(d.mode)
    ensures var m := Run(Fresh(c, tickUs), [Paddle(true, true), Clock, Clock, Reconfigure(d)]);
      Orphaned(m) && m.pttActive
  {
    hide Keyer.Tick, Keyer.SetPaddle;
    var k := Fresh(c, tickUs);
    var inputs := [Paddle(true, true), Clock, Clock, Reconfigure(d)];
    assert inputs[..3][..2] == inputs[..2] && inputs[..2][..1] == inputs[..1] && inputs[..1][..0] == [];
    var p := k.SetPaddle(true, true);
    assert Run(k, inputs[..0]) == k;
    assert Run(k, inputs[..1]) == p;
    assert Run(k, inputs[..2]) == p.Tick().keyer;
    assert Run(k, inputs[..3]) == p.Tick().keyer.Tick().keyer;
    assert Run(k, inputs) == p.Tick().keyer.Tick().keyer.UpdateConfig(d);
    SetPaddleFacts(k, true, true);
    StraightPress(p);
  }

  lemma {:induction false} StraightPress(p: Keyer)
    requires p.config.mode == Straight && p.state == Idle && p.AnyHeld() && !p.pttActive && !p.keyActive
    ensures var m := p.Tick().keyer.Tick().keyer; m.state == StraightKey && m.keyActive && m.pttActive
  {
    hide Keyer.Tick;
    StraightAsks(p);
    StraightSounds(p.Tick().keyer);
  }

  lemma {:induction false} StraightAsks(p: Keyer)
    requires p.config.mode == Straight && p.state == Idle && p.AnyHeld() && !p.pttActive
    ensures var m := p.Tick().keyer;
      m.state == StraightKey && m.keyActive == p.keyActive && m.pttActive && m.config == p.config
  {
    hide Keyer.HandleHangTime, Keyer.EmitKeyDown;
  }

  lemma {:induction false} StraightSounds(p: Keyer)
    requires p.config.mode == Straight && p.state == StraightKey && !p.keyActive
    ensures var m := p.Tick().keyer; m.state == StraightKey && m.keyActive && m.pttActive == p.pttActive
  {
    hide Recorded;
  }

  lemma {:induction false} OrphanRun(k: Keyer)
    requires Orphaned(k) && k.pttActive
    ensures Log(k, [Clock, Paddle(true, true), Clock]) == [KeyDown]
  {
    hide Keyer.Tick, Keyer.SetPaddle;
    var a := [Clock];
    var b := [Clock, Paddle(true, true)];
    var c := [Clock, Paddle(true, true), Clock];
    assert c[..2] == b && b[..1] == a && a[..0] == [];
    OrphanTick(k);
    var m := k.Tick().keyer;
    assert Run(k, []) == k && Log(k, []) == [];
    assert Run(k, a) == m && Log(k, a) == [] + [];
    assert Run(k, b) == m.SetPaddle(true, true) && Log(k, b) == [];
    PressedTick(m);
  }

  lemma {:induction false} OrphanTick(k: Keyer)
    requires Orphaned(k) && k.pttActive
    ensures k.Tick().out == None && k.Tick().keyer.state == Idle
    ensures k.Tick().keyer.config == k.config && k.Tick().keyer.pttActive
  {
    hide Keyer.TickIambicInner, Keyer.TickSinglePaddle;
    OrphanIgnored(k.(elapsedUs := k.elapsedUs + k.tickUs));
  }

  lemma {:induction false} OrphanIgnored(k: Keyer)
    requires k.state == StraightKey
    ensures k.TickIambicInner(false) == Step(k.(state := Idle), None) == k.TickSinglePaddle()
  {}

  lemma {:induction false} PressedTick(k: Keyer)
    requires k.state == Idle && k.pttActive && !StraightMode(k.config.mode)
    ensures k.SetPaddle(true, true).Tick().out == Some(KeyDown)
  {
    hide Keyer.StartElementKeyed, Keyer.HandleHangTime, Keyer.DispatchNext, Keyer.SetPaddle, ElementUs, Anchor;
    SetPaddleFacts(k, true, true);
    var m := k.SetPaddle(true, true);
    BothHeld(k);
    var t := m.(elapsedUs := m.elapsedUs + m.tickUs);
    StartElementFacts(t, false);
    StartElementFacts(t.(singlePaddleDecided := false), false);
  }

  lemma {:induction false} BothHeld(k: Keyer)
    ensures k.SetPaddle(true, true).ditHeld
  {
    hide Keyer.Press;
    PressFacts(k, true, true);
  }

  // ---- PTT and the text queue -------------------------------------------------------

  predicate DropsPtt(s: Step) { s.out == Some(PttRequest(false)) }

  lemma {:induction false} StartKeepsPtt(k: Keyer, isDash: bool)
    ensures !DropsPtt(k.StartElementKeyed(isDash))
  {
    hide Keyer.StartElementKeyed, ElementUs, Anchor;
    StartElementFacts(k, isDash);
  }

  lemma {:induction false} IambicIdleKeepsPtt(k: Keyer, bugMode: bool)
    requires k.state == Idle && k.textQueue != [] && (bugMode && k.dashHeld ==> k.ditHeld)
    ensures !DropsPtt(k.TickIambicInner(bugMode))
  {
    hide Keyer.StartElementKeyed, Keyer.DispatchNext, Keyer.HandleHangTime, ElementUs, Anchor, GapUs;
    StartKeepsPtt(k, false);
    StartKeepsPtt(k, true);
    DispatchFacts(k);
  }

  lemma {:induction false} ElementKeepsPtt(k: Keyer, delay: KeyerState)
    ensures !DropsPtt(k.TickIambicElement(delay)) && !DropsPtt(k.FinishElement(delay)) && !DropsPtt(k.EmitKeyDown())
  {
    hide Keyer.FinishElement, Keyer.EmitKeyDown, Keyer.LatchOpposite, Anchor, Config.ElementGapUs;
    KeyDownFacts(k);
    FinishElementFacts(k, delay);
    FinishElementFacts(k.LatchOpposite(), delay);
  }

  lemma {:induction false} IambicDelayKeepsPtt(k: Keyer, bugMode: bool)
    requires Delay(k.state)
    ensures !DropsPtt(k.TickIambicInner(bugMode))
  {
    hide Keyer.TickIambicInner, Keyer.StartElementKeyed, Keyer.ResolveDelayTail, ChoiceAfter, Quieted, LetterRestUs,
         Anchor;
    DelayShape(k, bugMode);
    StartKeepsPtt(Quieted(k), false);
    StartKeepsPtt(Quieted(k), true);
    TailFacts(Quieted(k));
  }

  lemma {:induction false} IambicKeepsPtt(k: Keyer, bugMode: bool)
    requires k.textQueue != [] && (bugMode && k.state == Idle && k.dashHeld ==> k.ditHeld)
    ensures !DropsPtt(k.TickIambicInner(bugMode))
  {
    hide Keyer.TickIambicElement, Keyer.ResolveAfterDitDelay, Keyer.ResolveAfterDashDelay;
    match k.state
    case Idle => hide *; IambicIdleKeepsPtt(k, bugMode);
    case SendDit => ElementKeepsPtt(k, DitDelay);
    case SendDash => ElementKeepsPtt(k, DashDelay);
    case DitDelay => hide *; IambicDelayKeepsPtt(k, bugMode);
    case DashDelay => hide *; IambicDelayKeepsPtt(k, bugMode);
    case _ =>
  }

  lemma {:induction false} SinglePaddleDelayKeepsPtt(k: Keyer)
    ensures !DropsPtt(k.TickSinglePaddleDelay())
  {
    hide Keyer.StartElementKeyed;
    StartKeepsPtt(k.(singlePaddleDecided := false), false);
    StartKeepsPtt(k.AbortText().(singlePaddleDecided := false), false);
  }

  lemma {:induction false} ConfirmKeepsPtt(k: Keyer)
    ensures !DropsPtt(k.ConfirmDit())
  {
    hide Keyer.SchedulePhase;
  }

  lemma {:induction false} SinglePaddleKeepsPtt(k: Keyer)
    requires k.textQueue != []
    ensures !DropsPtt(k.TickSinglePaddle())
  {
    hide Keyer.StartElementKeyed, Keyer.FinishElement, Keyer.EmitKeyDown, Keyer.DispatchNext, Keyer.HandleHangTime,
         Keyer.UpgradeToDash, Keyer.ConfirmDit, Keyer.TickSinglePaddleDelay, ElementUs, Anchor, GapUs;
    StartKeepsPtt(k.(singlePaddleDecided := false), false);
    DispatchFacts(k);
    ElementKeepsPtt(k, DitDelay);
    ElementKeepsPtt(k, DashDelay);
    ConfirmKeepsPtt(k);
    SinglePaddleDelayKeepsPtt(k);
  }

  /** Outside straight mode no tick, from any state at all, drops PTT while text is queued. */
  lemma {:induction false} PttHeldForText(k: Keyer)
    requires k.config.mode != Straight && k.textQueue != []
    ensures !DropsPtt(k.Tick())
  {
    hide Keyer.TickIambicInner, Keyer.TickSinglePaddle;
    var t := k.(elapsedUs := k.elapsedUs + k.tickUs);
    match k.config.mode
    case SinglePaddle => SinglePaddleKeepsPtt(t);
    case Bug => if !(t.dashHeld && !t.ditHeld && t.state == Idle) { IambicKeepsPtt(t, true); }
    case _ => IambicKeepsPtt(t, false);
  }

  /**
   A tick drops PTT although text is queued exactly when the engine is an idle straight key with nothing
   held and the hang time runs out on this tick.
   */
  lemma {:induction false} PttDroppedWithText(k: Keyer)
    requires k.textQueue != []
    ensures DropsPtt(k.Tick()) <==>
      && k.config.mode == Straight && k.state == Idle && !k.AnyHeld() && k.pttActive && !k.keyActive
      && SaturatingAdd(k.hangCounterUs, k.tickUs) >= SaturatingMul(k.config.hangTimeMs, 1000)
  {
    hide Keyer.HandleHangTime, Keyer.TickBug, Keyer.TickSinglePaddle, Keyer.TickIambicInner;
    if k.config.mode == Straight {
      HangFacts(k.(elapsedUs := k.elapsedUs + k.tickUs));
    } else {
      PttHeldForText(k);
    }
  }
}
