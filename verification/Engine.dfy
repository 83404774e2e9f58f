/**
 The keyer engine. `Keyer` is its state as a value, and the functions on it say what every
 operation does to that state; all properties of the engine are proved about them. The class
 `KeyerEngine` is the engine as it runs, with each method tied to its function.
 */
module Engine {
  import opened Base
  import opened KeyerConfig
  import opened Morse
  import opened TextEncoder

  datatype KeyerState = Idle | StraightKey | SendDit | SendDash | DitDelay | DashDelay | LetterSpace

  datatype Output = KeyDown | KeyUp | PttRequest(on: bool)

  datatype KeyTransition = KeyTransition(keyDown: bool, timestampUs: nat)

  const STRAIGHT_KEY_RELEASE_DEBOUNCE_MS: u32 := 20
  const MAX_RECORDED_TRANSITIONS: nat := 64

  /** Microseconds per tick; the source refuses to construct an engine with a zero quantum. */
  type Quantum = x: u32 | x > 0 witness 1

  /** The ring after one more entry: the oldest one goes when it is full. */
  function Recorded(ring: seq<KeyTransition>, t: KeyTransition): seq<KeyTransition> {
    (if |ring| >= MAX_RECORDED_TRANSITIONS then ring[1..] else ring) + [t]
  }

  /** How long a gap element of a macro lasts. */
  function GapUs(config: Config, elem: Element): u32 {
    match elem
    case LetterGap => config.LetterGapUs()
    case WordGap => config.WordGapUs()
    case _ => config.ElementGapUs()
  }

  /** The state after a tick, and the output the tick returned. */
  datatype Step = Step(keyer: Keyer, out: Option<Output>)

  datatype Keyer = Keyer(
    config: Config,
    state: KeyerState,
    ditHeld: bool,
    dashHeld: bool,
    ditMemory: bool,
    dashMemory: bool,
    lastPaddle: Option<bool>,
    singlePaddleDecided: bool,
    phaseEndUs: nat,
    elementDurationUs: u32,
    hangCounterUs: u32,
    pttActive: bool,
    keyActive: bool,
    textQueue: seq<Element>,
    textSending: bool,
    elapsedUs: nat,
    transitions: seq<KeyTransition>,
    straightReleaseGraceUs: u32,
    tickUs: Quantum)
  {
    predicate InElement() { state == SendDit || state == SendDash }

    predicate AnyHeld() { ditHeld || dashHeld }

    /** Something is keyed, on the air or still to be sent. */
    predicate IsActive() { state != Idle || pttActive || textQueue != [] }

    function UpdateConfig(c: Config): Keyer { this.(config := c) }

    function AbortText(): Keyer { this.(textQueue := [], textSending := false) }

    function SendText(text: string): Keyer {
      this.(textQueue := textQueue + Elements(text, true), textSending := true)
    }

    predicate InMemoryWindow() {
      MonusNat(phaseEndUs, elapsedUs) > elementDurationUs * Min(config.iambicBTimingPercent, 100) / 100
    }

    /** The latch is open outside elements and, in the modes with a timing gate, inside the window. */
    predicate GateOpen() { !InElement() || !config.IsModeB() || InMemoryWindow() }

    /** Memories are set on rising edges, outside macros and only while the gate is open. */
    function LatchRisingEdges(d: bool, h: bool): Keyer {
      var latch := !textSending && GateOpen();
      this.(
        ditMemory := ditMemory || (latch && d && !ditHeld),
        dashMemory := dashMemory || (latch && h && !dashHeld))
    }

    /** The side of the latest rising edge; the dash side wins when both rise together. */
    function RememberLastPaddle(d: bool, h: bool): Keyer {
      this.(lastPaddle :=
        if h && !dashHeld then Some(true) else if d && !ditHeld then Some(false) else lastPaddle)
    }

    /** New logical paddle inputs: `d` is the dit side and `h` the dash side. */
    function Press(d: bool, h: bool): Keyer {
      var k := LatchRisingEdges(d, h).RememberLastPaddle(d, h).(ditHeld := d, dashHeld := h);
      if (d || h) && k.textSending then k.AbortText() else k
    }

    function SetPaddle(dit: bool, dash: bool): Keyer {
      if config.keysReversed then Press(dash, dit) else Press(dit, dash)
    }

    function EmitKeyDown(): Step {
      Step(this.(keyActive := true, hangCounterUs := 0,
                 transitions := Recorded(transitions, KeyTransition(true, elapsedUs))), Some(KeyDown))
    }

    function EmitKeyUp(): Step {
      Step(this.(keyActive := false,
                 transitions := Recorded(transitions, KeyTransition(false, elapsedUs))), Some(KeyUp))
    }

    function SchedulePhase(durationUs: u32): Keyer {
      var base := if phaseEndUs + tickUs > elapsedUs then phaseEndUs else elapsedUs;
      this.(phaseEndUs := base + durationUs)
    }

    predicate PhaseExpired() { elapsedUs >= phaseEndUs }

    function MaybeEmitPtt(on: bool): Step {
      if on == pttActive then Step(this, None)
      else Step(this.(pttActive := on), Some(PttRequest(on)))
    }

    function StartElement(isDash: bool): Keyer {
      if isDash then
        var k := this.(state := SendDash).SchedulePhase(config.EffectiveDashUs());
        k.(elementDurationUs := config.EffectiveDashUs(), dashMemory := false)
      else
        var k := this.(state := SendDit).SchedulePhase(config.EffectiveDotUs());
        k.(elementDurationUs := config.EffectiveDotUs(), ditMemory := false)
    }

    function StartElementKeyed(isDash: bool): Step {
      var s := StartElement(isDash).MaybeEmitPtt(true);
      if s.out.Some? then s else s.keyer.EmitKeyDown()
    }

    function WaitGap(gapUs: u32): Keyer {
      SchedulePhase(gapUs).(state := DitDelay)
    }

    function DispatchTextElement(elem: Element): Step {
      var k := this.(singlePaddleDecided := true);
      if elem.Keyed() then k.StartElementKeyed(elem == Dash)
      else Step(k.WaitGap(GapUs(config, elem)), None)
    }

    /** The text sequencer: the next element leaves the queue and is dispatched. */
    function DispatchNext(): Step
      requires textQueue != []
    {
      this.(textSending := true, textQueue := textQueue[1..]).DispatchTextElement(textQueue[0])
    }

    function HandleHangTime(): Step {
      if pttActive && !keyActive then
        var k := this.(hangCounterUs := SaturatingAdd(hangCounterUs, tickUs));
        if k.hangCounterUs >= SaturatingMul(config.hangTimeMs, 1000) then k.MaybeEmitPtt(false)
        else Step(k, None)
      else Step(this, None)
    }

    /** Nothing of a finished session may leak into the next one. */
    function ClearSession(): Keyer {
      this.(lastPaddle := None, singlePaddleDecided := false, ditMemory := false, dashMemory := false)
    }

    function EnterIdleFromDelay(): Keyer {
      this.(state := Idle, hangCounterUs := 0, textSending := false).ClearSession()
    }

    /** The end of an element: straight to idle in a macro, into the element gap otherwise. */
    function FinishElement(delay: KeyerState): Step {
      var k := if textSending then this.(state := Idle)
               else this.(state := delay).SchedulePhase(config.ElementGapUs());
      k.EmitKeyUp()
    }

    /** The straight key goes down, after a PTT request if none is active. */
    function StartStraight(): Step {
      var s := this.(state := StraightKey).MaybeEmitPtt(true);
      if s.out.Some? then s else s.keyer.EmitKeyDown()
    }

    function FinishStraight(): Step {
      this.(state := Idle, hangCounterUs := 0).EmitKeyUp()
    }

    function TickStraight(): Step {
      match state
      case Idle =>
        if AnyHeld() then this.(straightReleaseGraceUs := 0).StartStraight() else HandleHangTime()
      case StraightKey =>
        if !keyActive then EmitKeyDown()
        else if AnyHeld() then Step(this.(straightReleaseGraceUs := 0), None)
        else
          var k := this.(straightReleaseGraceUs := SaturatingAdd(straightReleaseGraceUs, tickUs));
          if k.straightReleaseGraceUs >= SaturatingMul(STRAIGHT_KEY_RELEASE_DEBOUNCE_MS, 1000) then
            k.(straightReleaseGraceUs := 0).FinishStraight()
          else Step(k, None)
      case _ => Step(this, None)
    }

    function TickBug(): Step {
      if dashHeld && !ditHeld && state == Idle then StartStraight()
      else if state == StraightKey then
        if !keyActive then EmitKeyDown()
        else if !dashHeld then FinishStraight()
        else Step(this, None)
      else TickIambicInner(true)
    }

    /** Released before the dit ran out: it stays a dit. */
    function ConfirmDit(): Step {
      this.(singlePaddleDecided := true, state := DitDelay).SchedulePhase(config.ElementGapUs()).EmitKeyUp()
    }

    /** Held past the dit: the key stays down for the rest of a dash. */
    function UpgradeToDash(): Keyer {
      var remaining := MonusNat(config.EffectiveDashUs(), config.EffectiveDotUs());
      var k := this.(singlePaddleDecided := true, state := SendDash).SchedulePhase(remaining);
      k.(elementDurationUs := config.EffectiveDashUs())
    }

    function TickSinglePaddle(): Step {
      match state
      case Idle =>
        if AnyHeld() then this.(singlePaddleDecided := false).StartElementKeyed(false)
        else if textQueue != [] then DispatchNext()
        else HandleHangTime()
      case SendDit =>
        if !keyActive then EmitKeyDown()
        else if !singlePaddleDecided then
          if !AnyHeld() then
            ConfirmDit()
          else if PhaseExpired() then Step(UpgradeToDash(), None)
          else Step(this, None)
        else if PhaseExpired() then FinishElement(DitDelay)
        else Step(this, None)
      case SendDash =>
        if !keyActive then EmitKeyDown()
        else if PhaseExpired() then FinishElement(DashDelay)
        else Step(this, None)
      case DitDelay => TickSinglePaddleDelay()
      case DashDelay => TickSinglePaddleDelay()
      case LetterSpace => TickLetterSpace()
      case StraightKey => Step(this.(state := Idle), None)
    }

    function TickSinglePaddleDelay(): Step {
      var k := if AnyHeld() && textSending then AbortText() else this;
      if !k.PhaseExpired() then Step(k, None)
      else if k.AnyHeld() then k.(singlePaddleDecided := false).StartElementKeyed(false)
      else if k.textSending && k.textQueue != [] then Step(k.(state := Idle), None)
      else Step(k.EnterIdleFromDelay(), None)
    }

    function TickLetterSpace(): Step {
      if AnyHeld() then Step(this.(state := Idle, phaseEndUs := elapsedUs), None)
      else if PhaseExpired() then Step(this.(state := Idle), None)
      else Step(this, None)
    }

    /** Latch the paddle opposite to the element being sent, as far as the timing gate allows. */
    function LatchOpposite(): Keyer {
      var latch := !config.IsModeB() || InMemoryWindow();
      if state == SendDit then this.(dashMemory := dashMemory || (dashHeld && latch))
      else this.(ditMemory := ditMemory || (ditHeld && latch))
    }

    function TickIambicElement(delay: KeyerState): Step {
      if !keyActive then EmitKeyDown()
      else
        var k := LatchOpposite();
        if k.PhaseExpired() then k.FinishElement(delay) else Step(k, None)
    }

    function TickIambicInner(bugMode: bool): Step {
      match state
      case Idle =>
        if ditHeld || ditMemory then StartElementKeyed(false)
        else if (dashHeld || dashMemory) && !bugMode then StartElementKeyed(true)
        else if !ditHeld && !dashHeld && textQueue != [] then DispatchNext()
        else HandleHangTime()
      case SendDit => TickIambicElement(DitDelay)
      case SendDash => TickIambicElement(DashDelay)
      case DitDelay =>
        var k := if AnyHeld() && textSending then AbortText() else this;
        if k.PhaseExpired() then k.ResolveAfterDitDelay(bugMode)
        else Step(k.(dashMemory := dashMemory || dashHeld), None)
      case DashDelay =>
        var k := if AnyHeld() && textSending then AbortText() else this;
        if k.PhaseExpired() then k.ResolveAfterDashDelay(bugMode)
        else Step(k.(ditMemory := ditMemory || ditHeld), None)
      case LetterSpace => TickLetterSpace()
      case StraightKey => Step(this.(state := Idle), None)
    }

    /** The side Ultimatic sends next, if any: the last pressed one, else whatever is still held. */
    function UltimaticChoice(): Option<bool> {
      var ditActive := ditHeld || ditMemory;
      var dashActive := dashHeld || dashMemory;
      if lastPaddle == Some(true) && dashActive then Some(true)
      else if lastPaddle == Some(false) && ditActive then Some(false)
      else if ditHeld then Some(false)
      else if dashHeld then Some(true)
      else None
    }

    function ResolveDelayTail(): Step {
      var remaining := MonusNat(config.LetterGapUs(), config.ElementGapUs());
      if textSending && textQueue != [] then Step(this.(state := Idle), None)
      else if config.autoSpacing && remaining > 0 then
        Step(this.(state := LetterSpace).SchedulePhase(remaining), None)
      else Step(EnterIdleFromDelay(), None)
    }

    function ResolveAfterDitDelay(bugMode: bool): Step {
      var modeB := config.IsModeB();
      if config.mode == Ultimatic then
        match UltimaticChoice()
        case Some(side) => StartElementKeyed(side)
        case None => ResolveDelayTail()
      else if modeB && dashMemory && !bugMode then StartElementKeyed(true)
      else if dashHeld && !bugMode then StartElementKeyed(true)
      else if modeB && ditMemory then StartElementKeyed(false)
      else if ditHeld then StartElementKeyed(false)
      else ResolveDelayTail()
    }

    function ResolveAfterDashDelay(bugMode: bool): Step {
      var modeB := config.IsModeB();
      if config.mode == Ultimatic then
        match UltimaticChoice()
        case Some(side) => StartElementKeyed(side)
        case None => ResolveDelayTail()
      else if modeB && ditMemory then StartElementKeyed(false)
      else if ditHeld then StartElementKeyed(false)
      else if modeB && dashMemory && !bugMode then StartElementKeyed(true)
      else if dashHeld && !bugMode then StartElementKeyed(true)
      else ResolveDelayTail()
    }

    function Tick(): Step {
      var k := this.(elapsedUs := elapsedUs + tickUs);
      match config.mode
      case Straight => k.TickStraight()
      case Bug => k.TickBug()
      case SinglePaddle => k.TickSinglePaddle()
      case _ => k.TickIambicInner(false)
    }
  }

  /** A newly constructed engine. */
  function Fresh(config: Config, tickUs: Quantum): Keyer {
    Keyer(config, Idle, false, false, false, false, None, false, 0, 0, 0, false, false, [], false, 0, [], 0, tickUs)
  }

  /** The engine as it runs. */
  class KeyerEngine {
    var config: Config
    var state: KeyerState
    var ditHeld: bool
    var dashHeld: bool
    var ditMemory: bool
    var dashMemory: bool
    var lastPaddle: Option<bool>
    var singlePaddleDecided: bool
    var phaseEndUs: nat
    var elementDurationUs: u32
    var hangCounterUs: u32
    var pttActive: bool
    var keyActive: bool
    var textQueue: seq<Element>
    var textSending: bool
    var elapsedUs: nat
    var transitions: seq<KeyTransition>
    var straightReleaseGraceUs: u32
    const tickUs: Quantum

    function Snapshot(): Keyer
      reads this
    {
      Keyer(config, state, ditHeld, dashHeld, ditMemory, dashMemory, lastPaddle, singlePaddleDecided, phaseEndUs,
            elementDurationUs, hangCounterUs, pttActive, keyActive, textQueue, textSending, elapsedUs, transitions,
            straightReleaseGraceUs, tickUs)
    }

    constructor (config: Config, tickUs: Quantum)
      ensures Snapshot() == Fresh(config, tickUs)
    {
      this.config := config;
      state, ditHeld, dashHeld, ditMemory, dashMemory := Idle, false, false, false, false;
      lastPaddle, singlePaddleDecided, phaseEndUs, elementDurationUs := None, false, 0, 0;
      hangCounterUs, pttActive, keyActive, textQueue, textSending := 0, false, false, [], false;
      elapsedUs, transitions, straightReleaseGraceUs := 0, [], 0;
      this.tickUs := tickUs;
    }

    method UpdateConfig(config: Config)
      modifies this`config
      ensures Snapshot() == old(Snapshot()).UpdateConfig(config)
    {
      this.config := config;
    }

    method SetPaddle(dit: bool, dash: bool)
      modifies this
      ensures Snapshot() == old(Snapshot()).SetPaddle(dit, dash)
    {
      hide Keyer.LatchRisingEdges, Keyer.RememberLastPaddle, Keyer.AbortText;
      var d, h := dit, dash;
      if config.keysReversed {
        d, h := dash, dit;
      }
      LatchRisingEdges(d, h);
      RememberLastPaddle(d, h);
      HoldPaddles(d, h);
      if (d || h) && textSending {
        AbortText();
      }
    }

    method HoldPaddles(d: bool, h: bool)
      modifies this
      ensures Snapshot() == old(Snapshot()).(ditHeld := d, dashHeld := h)
    {
      ditHeld := d;
      dashHeld := h;
    }

    predicate GateOpen()
      reads this
      ensures GateOpen() == Snapshot().GateOpen()
    {
      var inElement := state == SendDit || state == SendDash;
      var isModeB := config.mode == IambicB || config.mode == Ultimatic;
      !inElement || !isModeB || InMemoryWindow()
    }

    method LatchRisingEdges(d: bool, h: bool)
      modifies this
      ensures Snapshot() == old(Snapshot()).LatchRisingEdges(d, h)
    {
      hide Keyer.GateOpen;
      if !textSending && GateOpen() {
        if d && !ditHeld {
          ditMemory := true;
        }
        if h && !dashHeld {
          dashMemory := true;
        }
      }
    }

    method RememberLastPaddle(d: bool, h: bool)
      modifies this
      ensures Snapshot() == old(Snapshot()).RememberLastPaddle(d, h)
    {
      if d && !ditHeld {
        lastPaddle := Some(false);
      }
      if h && !dashHeld {
        lastPaddle := Some(true);
      }
    }

    method SendText(text: string)
      modifies this
      ensures Snapshot() == old(Snapshot()).SendText(text)
    {
      var elements := TextToElements(text);
      textQueue := textQueue + elements;
      textSending := true;
    }

    method AbortText()
      modifies this
      ensures Snapshot() == old(Snapshot()).AbortText()
    {
      textQueue := [];
      textSending := false;
    }

    /** Returns the recorded edges, oldest first, and empties the ring. */
    method DrainTransitions() returns (out: seq<KeyTransition>)
      modifies this
      ensures out == old(transitions)
      ensures Snapshot() == old(Snapshot()).(transitions := [])
    {
      out := [];
      while transitions != []
        invariant out + transitions == old(transitions)
        invariant Snapshot() == old(Snapshot()).(transitions := transitions)
        decreases |transitions|
      {
        out := out + [transitions[0]];
        transitions := transitions[1..];
      }
    }

    predicate IsActive()
      reads this
      ensures IsActive() == Snapshot().IsActive()
    {
      state != Idle || pttActive || textQueue != []
    }

    method RecordTransition(keyDown: bool)
      modifies this`transitions
      ensures transitions == Recorded(old(transitions), KeyTransition(keyDown, elapsedUs))
    {
      if |transitions| >= MAX_RECORDED_TRANSITIONS {
        transitions := transitions[1..];
      }
      transitions := transitions + [KeyTransition(keyDown, elapsedUs)];
    }

    method EmitKeyDown() returns (out: Output)
      modifies this
      ensures Step(Snapshot(), Some(out)) == old(Snapshot()).EmitKeyDown()
    {
      keyActive := true;
      hangCounterUs := 0;
      RecordTransition(true);
      return KeyDown;
    }

    method EmitKeyUp() returns (out: Output)
      modifies this
      ensures Step(Snapshot(), Some(out)) == old(Snapshot()).EmitKeyUp()
    {
      keyActive := false;
      RecordTransition(false);
      return KeyUp;
    }

    method SchedulePhase(durationUs: u32)
      modifies this
      ensures Snapshot() == old(Snapshot()).SchedulePhase(durationUs)
    {
      var base := elapsedUs;
      if phaseEndUs + tickUs > elapsedUs {
        base := phaseEndUs;
      }
      phaseEndUs := base + durationUs;
    }

    predicate PhaseExpired()
      reads this
    {
      elapsedUs >= phaseEndUs
    }

    method MaybeEmitPtt(on: bool) returns (out: Option<Output>)
      modifies this
      ensures Step(Snapshot(), out) == old(Snapshot()).MaybeEmitPtt(on)
    {
      if on && !pttActive {
        pttActive := true;
        return Some(PttRequest(true));
      } else if !on && pttActive {
        pttActive := false;
        return Some(PttRequest(false));
      }
      return None;
    }

    method StartDit()
      modifies this
      ensures Snapshot() == old(Snapshot()).StartElement(false)
    {
      hide Keyer.SchedulePhase, Config.EffectiveDotUs, Config.EffectiveDashUs;
      var dur := config.EffectiveDotUs();
      state := SendDit;
      SchedulePhase(dur);
      UseUpDit(dur);
    }

    method UseUpDit(dur: u32)
      modifies this
      ensures Snapshot() == old(Snapshot()).(elementDurationUs := dur, ditMemory := false)
    {
      elementDurationUs := dur;
      ditMemory := false;
    }

    method StartDash()
      modifies this
      ensures Snapshot() == old(Snapshot()).StartElement(true)
    {
      hide Keyer.SchedulePhase, Config.EffectiveDotUs, Config.EffectiveDashUs;
      var dur := config.EffectiveDashUs();
      state := SendDash;
      SchedulePhase(dur);
      UseUpDash(dur);
    }

    method UseUpDash(dur: u32)
      modifies this
      ensures Snapshot() == old(Snapshot()).(elementDurationUs := dur, dashMemory := false)
    {
      elementDurationUs := dur;
      dashMemory := false;
    }

    predicate InMemoryWindow()
      reads this
    {
      MonusNat(phaseEndUs, elapsedUs) > elementDurationUs * Min(config.iambicBTimingPercent, 100) / 100
    }

    method StartElementKeyed(isDash: bool) returns (out: Output)
      modifies this
      ensures Step(Snapshot(), Some(out)) == old(Snapshot()).StartElementKeyed(isDash)
    {
      hide Keyer.StartElement, Keyer.EmitKeyDown;
      if isDash {
        StartDash();
      } else {
        StartDit();
      }
      var ptt := MaybeEmitPtt(true);
      if ptt.Some? {
        return ptt.value;
      }
      out := EmitKeyDown();
    }

    method DispatchTextElement(elem: Element) returns (out: Option<Output>)
      modifies this
      ensures Step(Snapshot(), out) == old(Snapshot()).DispatchTextElement(elem)
    {
      hide Keyer.StartElementKeyed, Keyer.WaitGap, Config.ElementGapUs, Config.LetterGapUs, Config.WordGapUs;
      singlePaddleDecided := true;
      match elem {
        case Dit =>
          var o := StartElementKeyed(false);
          return Some(o);
        case Dash =>
          var o := StartElementKeyed(true);
          return Some(o);
        case ElementGap =>
          WaitGap(config.ElementGapUs());
        case LetterGap =>
          WaitGap(config.LetterGapUs());
        case WordGap =>
          WaitGap(config.WordGapUs());
      }
      return None;
    }

    method WaitGap(gapUs: u32)
      modifies this
      ensures Snapshot() == old(Snapshot()).WaitGap(gapUs)
    {
      hide Keyer.SchedulePhase;
      SchedulePhase(gapUs);
      state := DitDelay;
    }

    method DispatchNext() returns (out: Option<Output>)
      requires textQueue != []
      modifies this
      ensures Step(Snapshot(), out) == old(Snapshot()).DispatchNext()
    {
      hide Keyer.DispatchTextElement;
      textSending := true;
      var elem := textQueue[0];
      textQueue := textQueue[1..];
      out := DispatchTextElement(elem);
    }

    method HandleHangTime() returns (out: Option<Output>)
      modifies this
      ensures Step(Snapshot(), out) == old(Snapshot()).HandleHangTime()
    {
      out := None;
      if pttActive && !keyActive {
        hangCounterUs := SaturatingAdd(hangCounterUs, tickUs);
        if hangCounterUs >= SaturatingMul(config.hangTimeMs, 1000) {
          out := MaybeEmitPtt(false);
        }
      }
    }

    method EnterIdleFromDelay()
      modifies this
      ensures Snapshot() == old(Snapshot()).EnterIdleFromDelay()
    {
      hide Keyer.ClearSession;
      state := Idle;
      hangCounterUs := 0;
      textSending := false;
      ClearSession();
    }

    method ClearSession()
      modifies this
      ensures Snapshot() == old(Snapshot()).ClearSession()
    {
      lastPaddle := None;
      singlePaddleDecided := false;
      ditMemory := false;
      dashMemory := false;
    }

    /** End of an element in any mode that times its elements. */
    method FinishElement(delay: KeyerState) returns (out: Output)
      modifies this
      ensures Step(Snapshot(), Some(out)) == old(Snapshot()).FinishElement(delay)
    {
      hide Keyer.SchedulePhase, Config.ElementGapUs, Keyer.EmitKeyUp;
      if textSending {
        state := Idle;
      } else {
        state := delay;
        SchedulePhase(config.ElementGapUs());
      }
      out := EmitKeyUp();
    }

    /** One tick of the clock. */
    method Tick() returns (out: Option<Output>)
      modifies this
      ensures Step(Snapshot(), out) == old(Snapshot()).Tick()
    {
      hide Keyer.TickStraight, Keyer.TickBug, Keyer.TickSinglePaddle, Keyer.TickIambicInner;
      elapsedUs := elapsedUs + tickUs;
      match config.mode {
        case Straight => out := TickStraight();
        case Bug => out := TickBug();
        case SinglePaddle => out := TickSinglePaddle();
        case IambicA => out := TickIambicInner(false);
        case IambicB => out := TickIambicInner(false);
        case Ultimatic => out := TickIambicInner(false);
      }
    }

    method StartStraight() returns (out: Output)
      modifies this
      ensures Step(Snapshot(), Some(out)) == old(Snapshot()).StartStraight()
    {
      hide Keyer.EmitKeyDown;
      state := StraightKey;
      var ptt := MaybeEmitPtt(true);
      if ptt.Some? {
        return ptt.value;
      }
      out := EmitKeyDown();
    }

    method FinishStraight() returns (out: Output)
      modifies this
      ensures Step(Snapshot(), Some(out)) == old(Snapshot()).FinishStraight()
    {
      hide Keyer.EmitKeyUp;
      state := Idle;
      hangCounterUs := 0;
      out := EmitKeyUp();
    }

    method TickStraight() returns (out: Option<Output>)
      modifies this
      ensures Step(Snapshot(), out) == old(Snapshot()).TickStraight()
    {
      hide Keyer.HandleHangTime, Keyer.EmitKeyDown, Keyer.StartStraight, Keyer.FinishStraight;
      var anyHeld := ditHeld || dashHeld;
      if state == Idle {
        if anyHeld {
          straightReleaseGraceUs := 0;
          var o := StartStraight();
          return Some(o);
        }
        out := HandleHangTime();
        return;
      }
      if state == StraightKey {
        if !keyActive {
          var o := EmitKeyDown();
          return Some(o);
        }
        if !anyHeld {
          straightReleaseGraceUs := SaturatingAdd(straightReleaseGraceUs, tickUs);
          if straightReleaseGraceUs >= SaturatingMul(STRAIGHT_KEY_RELEASE_DEBOUNCE_MS, 1000) {
            straightReleaseGraceUs := 0;
            var o := FinishStraight();
            return Some(o);
          }
          return None;
        }
        straightReleaseGraceUs := 0;
      }
      return None;
    }

    method TickBug() returns (out: Option<Output>)
      modifies this
      ensures Step(Snapshot(), out) == old(Snapshot()).TickBug()
    {
      hide Keyer.TickIambicInner, Keyer.EmitKeyDown, Keyer.StartStraight, Keyer.FinishStraight;
      if dashHeld && !ditHeld && state == Idle {
        var o := StartStraight();
        return Some(o);
      }
      if state == StraightKey {
        if !keyActive {
          var o := EmitKeyDown();
          return Some(o);
        }
        if !dashHeld {
          var o := FinishStraight();
          return Some(o);
        }
        return None;
      }
      out := TickIambicInner(true);
    }

    method ConfirmDit() returns (out: Output)
      modifies this
      ensures Step(Snapshot(), Some(out)) == old(Snapshot()).ConfirmDit()
    {
      hide Keyer.SchedulePhase, Config.ElementGapUs, Keyer.EmitKeyUp;
      singlePaddleDecided := true;
      state := DitDelay;
      SchedulePhase(config.ElementGapUs());
      out := EmitKeyUp();
    }

    method UpgradeToDash()
      modifies this
      ensures Snapshot() == old(Snapshot()).UpgradeToDash()
    {
      hide Keyer.SchedulePhase, Config.EffectiveDotUs, Config.EffectiveDashUs;
      var dash := config.EffectiveDashUs();
      var remaining := MonusNat(dash, config.EffectiveDotUs());
      singlePaddleDecided := true;
      state := SendDash;
      SchedulePhase(remaining);
      elementDurationUs := dash;
    }

    method TickSinglePaddle() returns (out: Option<Output>)
      modifies this
      ensures Step(Snapshot(), out) == old(Snapshot()).TickSinglePaddle()
    {
      hide Keyer.FinishElement, Keyer.EmitKeyDown, Keyer.TickLetterSpace, Keyer.TickSinglePaddleDelay;
      out := None;
      match state {
        case Idle => out := TickSinglePaddleIdle();
        case SendDit => out := TickSinglePaddleDit();
        case SendDash =>
          if !keyActive {
            var o := EmitKeyDown();
            return Some(o);
          }
          if PhaseExpired() {
            var o := FinishElement(DashDelay);
            return Some(o);
          }
        case DitDelay => out := TickSinglePaddleDelay();
        case DashDelay => out := TickSinglePaddleDelay();
        case LetterSpace => TickLetterSpace();
        case StraightKey => state := Idle;
      }
    }

    method TickSinglePaddleIdle() returns (out: Option<Output>)
      requires state == Idle
      modifies this
      ensures Step(Snapshot(), out) == old(Snapshot()).TickSinglePaddle()
    {
      hide Keyer.StartElementKeyed, Keyer.DispatchNext, Keyer.HandleHangTime;
      if ditHeld || dashHeld {
        singlePaddleDecided := false;
        var o := StartElementKeyed(false);
        return Some(o);
      }
      if textQueue != [] {
        out := DispatchNext();
        return;
      }
      out := HandleHangTime();
    }

    method TickSinglePaddleDit() returns (out: Option<Output>)
      requires state == SendDit
      modifies this
      ensures Step(Snapshot(), out) == old(Snapshot()).TickSinglePaddle()
    {
      hide Keyer.FinishElement, Keyer.EmitKeyDown, Keyer.ConfirmDit, Keyer.UpgradeToDash;
      if !keyActive {
        var o := EmitKeyDown();
        return Some(o);
      }
      if !singlePaddleDecided {
        if !(ditHeld || dashHeld) {
          var o := ConfirmDit();
          return Some(o);
        }
        if PhaseExpired() {
          UpgradeToDash();
        }
      } else if PhaseExpired() {
        var o := FinishElement(DitDelay);
        return Some(o);
      }
      return None;
    }

    method TickSinglePaddleDelay() returns (out: Option<Output>)
      modifies this
      ensures Step(Snapshot(), out) == old(Snapshot()).TickSinglePaddleDelay()
    {
      hide Keyer.StartElementKeyed, Keyer.EnterIdleFromDelay;
      var anyHeld := ditHeld || dashHeld;
      if anyHeld && textSending {
        AbortText();
      }
      if PhaseExpired() {
        if anyHeld {
          singlePaddleDecided := false;
          var o := StartElementKeyed(false);
          return Some(o);
        }
        if textSending && textQueue != [] {
          state := Idle;
          return None;
        }
        EnterIdleFromDelay();
      }
      return None;
    }

    method TickLetterSpace()
      modifies this
      ensures Step(Snapshot(), None) == old(Snapshot()).TickLetterSpace()
    {
      if ditHeld || dashHeld {
        state := Idle;
        phaseEndUs := elapsedUs;
        return;
      }
      if PhaseExpired() {
        state := Idle;
      }
    }

    method TickIambicInner(bugMode: bool) returns (out: Option<Output>)
      modifies this
      ensures Step(Snapshot(), out) == old(Snapshot()).TickIambicInner(bugMode)
    {
      hide Keyer.ResolveAfterDitDelay, Keyer.ResolveAfterDashDelay, Keyer.TickLetterSpace, Keyer.TickIambicElement;
      out := None;
      match state {
        case Idle => out := TickIambicIdle(bugMode);
        case SendDit => out := TickIambicElement(DitDelay);
        case SendDash => out := TickIambicElement(DashDelay);
        case DitDelay =>
          if (ditHeld || dashHeld) && textSending {
            AbortText();
          }
          if PhaseExpired() {
            out := ResolveAfterDitDelay(bugMode);
          } else if dashHeld {
            dashMemory := true;
          }
        case DashDelay =>
          if (ditHeld || dashHeld) && textSending {
            AbortText();
          }
          if PhaseExpired() {
            out := ResolveAfterDashDelay(bugMode);
          } else if ditHeld {
            ditMemory := true;
          }
        case LetterSpace => TickLetterSpace();
        case StraightKey => state := Idle;
      }
    }

    method TickIambicIdle(bugMode: bool) returns (out: Option<Output>)
      requires state == Idle
      modifies this
      ensures Step(Snapshot(), out) == old(Snapshot()).TickIambicInner(bugMode)
    {
      hide Keyer.StartElementKeyed, Keyer.DispatchNext, Keyer.HandleHangTime;
      if ditHeld || ditMemory {
        var o := StartElementKeyed(false);
        return Some(o);
      }
      if (dashHeld || dashMemory) && !bugMode {
        var o := StartElementKeyed(true);
        return Some(o);
      }
      if !ditHeld && !dashHeld && textQueue != [] {
        out := DispatchNext();
        return;
      }
      out := HandleHangTime();
    }

    /** A dit or a dash being sent: the opposite paddle is latched as the timing gate allows. */
    method TickIambicElement(delay: KeyerState) returns (out: Option<Output>)
      requires state == SendDit || state == SendDash
      modifies this
      ensures Step(Snapshot(), out) == old(Snapshot()).TickIambicElement(delay)
    {
      hide Keyer.FinishElement, Keyer.EmitKeyDown, Keyer.LatchOpposite;
      if !keyActive {
        var o := EmitKeyDown();
        return Some(o);
      }
      LatchOpposite();
      if PhaseExpired() {
        var o := FinishElement(delay);
        return Some(o);
      }
      return None;
    }

    method LatchOpposite()
      requires state == SendDit || state == SendDash
      modifies this
      ensures Snapshot() == old(Snapshot()).LatchOpposite()
    {
      var open := !(config.mode == IambicB || config.mode == Ultimatic) || InMemoryWindow();
      if state == SendDit {
        if dashHeld && open {
          dashMemory := true;
        }
      } else if ditHeld && open {
        ditMemory := true;
      }
    }

    /** None when no paddle is active; the arms are tried in the source's order. */
    method ResolveUltimatic(afterDit: bool) returns (out: Option<Output>)
      modifies this
      ensures match old(Snapshot()).UltimaticChoice()
        case Some(side) => Step(Snapshot(), out) == old(Snapshot()).StartElementKeyed(side)
        case None => out == None && Snapshot() == old(Snapshot())
      ensures old(Snapshot()).UltimaticChoice().Some? ==> out.Some?
    {
      hide Keyer.StartElementKeyed;
      var ditActive := ditHeld || ditMemory;
      var dashActive := dashHeld || dashMemory;
      if !ditActive && !dashActive {
        return None;
      }
      var o: Output;
      if lastPaddle == Some(true) && afterDit && dashActive {
        o := StartElementKeyed(true);
      } else if lastPaddle == Some(false) && !afterDit && ditActive {
        o := StartElementKeyed(false);
      } else if lastPaddle == Some(true) && dashActive {
        o := StartElementKeyed(true);
      } else if lastPaddle == Some(false) && ditActive {
        o := StartElementKeyed(false);
      } else if ditHeld {
        o := StartElementKeyed(false);
      } else if dashHeld {
        o := StartElementKeyed(true);
      } else {
        return None;
      }
      return Some(o);
    }

    method ResolveDelayTail(isModeB: bool)
      modifies this
      ensures Step(Snapshot(), None) == old(Snapshot()).ResolveDelayTail()
    {
      hide Config.ElementGapUs, Config.LetterGapUs, Keyer.SchedulePhase;
      if textSending && textQueue != [] {
        state := Idle;
        return;
      }
      if config.autoSpacing {
        var remaining := MonusNat(config.LetterGapUs(), config.ElementGapUs());
        if remaining > 0 {
          state := LetterSpace;
          SchedulePhase(remaining);
          return;
        }
      }
      if !isModeB {
        ditMemory := false;
        dashMemory := false;
      }
      EnterIdleFromDelay();
    }

    method ResolveAfterDitDelay(bugMode: bool) returns (out: Option<Output>)
      modifies this
      ensures Step(Snapshot(), out) == old(Snapshot()).ResolveAfterDitDelay(bugMode)
    {
      hide Keyer.StartElementKeyed, Keyer.ResolveDelayTail, Keyer.UltimaticChoice;
      var isModeB := config.mode == IambicB || config.mode == Ultimatic;
      if config.mode == Ultimatic {
        out := ResolveUltimatic(true);
        if out.Some? {
          return;
        }
      } else {
        if isModeB && dashMemory && !bugMode {
          var o := StartElementKeyed(true);
          return Some(o);
        }
        if dashHeld && !bugMode {
          var o := StartElementKeyed(true);
          return Some(o);
        }
        if isModeB && ditMemory {
          var o := StartElementKeyed(false);
          return Some(o);
        }
        if ditHeld {
          var o := StartElementKeyed(false);
          return Some(o);
        }
      }
      ResolveDelayTail(isModeB);
      return None;
    }

    method ResolveAfterDashDelay(bugMode: bool) returns (out: Option<Output>)
      modifies this
      ensures Step(Snapshot(), out) == old(Snapshot()).ResolveAfterDashDelay(bugMode)
    {
      hide Keyer.StartElementKeyed, Keyer.ResolveDelayTail, Keyer.UltimaticChoice;
      var isModeB := config.mode == IambicB || config.mode == Ultimatic;
      if config.mode == Ultimatic {
        out := ResolveUltimatic(false);
        if out.Some? {
          return;
        }
      } else {
        if isModeB && ditMemory {
          var o := StartElementKeyed(false);
          return Some(o);
        }
        if ditHeld {
          var o := StartElementKeyed(false);
          return Some(o);
        }
        if isModeB && dashMemory && !bugMode {
          var o := StartElementKeyed(true);
          return Some(o);
        }
        if dashHeld && !bugMode {
          var o := StartElementKeyed(true);
          return Some(o);
        }
      }
      ResolveDelayTail(isModeB);
      return None;
    }
  }
}
