/** With paddles released and no text left, the engine runs out of work in a bounded number of ticks. */
module KeyerQuiescence {
  import opened Base
  import opened KeyerConfig
  import opened Morse
  import opened Engine
  import opened KeyerFacts
  import opened KeyerRuns
  import opened KeyerSafety

  /** In straight mode only the straight key is ever in use; a fixed-mode run keeps it so. */
  predicate ModeStates(k: Keyer) {
    k.config.mode == Straight ==> k.state == Idle || k.state == StraightKey
  }

  /** No input drives the engine any more; straight mode never looks at the text queue. */
  predicate Calm(k: Keyer) {
    && Safe(k) && ModeStates(k) && !k.ditHeld && !k.dashHeld
    && (k.config.mode == Straight || k.textQueue == [])
  }

  /** Memories that the mode can still turn into an element. */
  predicate DitUsable(k: Keyer) {
    k.ditMemory && k.config.mode != Straight && k.config.mode != SinglePaddle
  }

  predicate DashUsable(k: Keyer) {
    k.dashMemory && (k.config.mode == IambicA || k.config.mode == IambicB || k.config.mode == Ultimatic)
  }

  /** Idle, key up, PTT off, and nothing remembered that could change that. */
  predicate Settled(k: Keyer) {
    Calm(k) && k.state == Idle && !k.keyActive && !k.pttActive && !DitUsable(k) && !DashUsable(k)
  }

  // ---- the termination measure, in microseconds --------------------------------

  function HangLimitUs(c: Config): u32 { SaturatingMul(c.hangTimeMs, 1000) }

  function HangFull(k: Keyer): nat { HangLimitUs(k.config) + k.tickUs }

  function HangLeft(k: Keyer): nat {
    if k.pttActive then MonusNat(HangLimitUs(k.config), k.hangCounterUs) + k.tickUs else 0
  }

  /** What one remembered element may cost: itself, its gap, a letter space and the ticks between them. */
  function ElementCost(k: Keyer): nat {
    LetterRestUs(k.config) + k.config.ElementGapUs() + k.config.EffectiveDashUs() + 6 * k.tickUs
  }

  function MemoryCost(k: Keyer): nat {
    (if DitUsable(k) then ElementCost(k) else 0) + (if DashUsable(k) then ElementCost(k) else 0)
  }

  function GraceLeft(k: Keyer): nat { MonusNat(20_000, k.straightReleaseGraceUs) }

  function StageCost(k: Keyer): nat {
    match k.state
    case Idle => if DitUsable(k) || DashUsable(k) then HangFull(k) else HangLeft(k)
    case LetterSpace => k.tickUs + HangFull(k)
    case DitDelay => 3 * k.tickUs + LetterRestUs(k.config) + HangFull(k)
    case DashDelay => 3 * k.tickUs + LetterRestUs(k.config) + HangFull(k)
    case StraightKey =>
      2 * k.tickUs + HangFull(k) + (if k.keyActive then GraceLeft(k) else 20_000 + k.tickUs)
    case _ =>
      (if k.keyActive then 4 else 5) * k.tickUs + k.config.ElementGapUs() + LetterRestUs(k.config) + HangFull(k)
  }

  function Rank(k: Keyer): nat {
    MonusNat(k.phaseEndUs, k.elapsedUs) + StageCost(k) + MemoryCost(k)
  }

  /** Key-downs the engine still owes: one for an element waiting for PTT, one per usable memory. */
  function Budget(k: Keyer): nat {
    (if (k.InElement() || k.state == StraightKey) && !k.keyActive then 1 else 0)
    + (if DitUsable(k) then 1 else 0) + (if DashUsable(k) then 1 else 0)
  }

  function Downs(out: Option<Output>): nat { if out == Some(KeyDown) then 1 else 0 }

  /** One tick's worth of progress, paid for out of the budget. */
  predicate Progress(k: Keyer, s: Step) {
    Rank(s.keyer) + k.tickUs <= Rank(k) && Downs(s.out) + Budget(s.keyer) <= Budget(k)
    && s.keyer.tickUs == k.tickUs && s.keyer.config == k.config && s.keyer.textQueue == k.textQueue
    && !s.keyer.ditHeld && !s.keyer.dashHeld && ModeStates(s.keyer)
  }

  /** A remembered element starts, from idle or at the end of a delay. */
  lemma {:induction false} StartProgress(k: Keyer, isDash: bool)
    requires Calm(k) && !k.keyActive && (if isDash then DashUsable(k) else DitUsable(k))
    requires k.state == Idle || Delay(k.state)
    ensures Progress(k, k.StartElementKeyed(isDash))
  {
    hide Keyer.StartElementKeyed, Rank, Config.EffectiveDashUs, Config.EffectiveDotUs, HangLimitUs;
    StartElementFacts(k, isDash);
    StartRank(k, k.StartElementKeyed(isDash).keyer, isDash);
  }

  lemma {:induction false} StartRank(k: Keyer, m: Keyer, isDash: bool)
    requires (k.state == Idle || Delay(k.state)) && (if isDash then DashUsable(k) else DitUsable(k))
    requires m.state == (if isDash then SendDash else SendDit) && m.config == k.config && m.tickUs == k.tickUs
    requires m.elapsedUs == k.elapsedUs && m.phaseEndUs == Anchor(k) + ElementUs(k.config, isDash)
    requires m.ditMemory == (k.ditMemory && isDash) && m.dashMemory == (k.dashMemory && !isDash)
    ensures Rank(m) + k.tickUs <= Rank(k)
  {
    hide Config.EffectiveDashUs, Config.EffectiveDotUs, Config.ElementGapUs, LetterRestUs, HangLimitUs;
  }

  lemma {:induction false} FinishProgress(k: Keyer, delay: KeyerState)
    requires Calm(k) && k.InElement() && k.keyActive && Delay(delay) && k.config.mode != Straight
    ensures Progress(k, k.FinishElement(delay))
  {
    hide Keyer.FinishElement, Config.EffectiveDashUs, Config.ElementGapUs, LetterRestUs, HangLimitUs;
    FinishElementFacts(k, delay);
  }

  lemma {:induction false} KeyDownProgress(k: Keyer)
    requires Calm(k) && (k.InElement() || k.state == StraightKey) && !k.keyActive
    ensures Progress(k, k.EmitKeyDown())
  {
    hide Keyer.EmitKeyDown, Config.EffectiveDashUs, Config.ElementGapUs, LetterRestUs, HangLimitUs;
    KeyDownFacts(k);
  }

  lemma {:induction false} TailProgress(k: Keyer)
    requires Calm(k) && Delay(k.state) && k.config.mode != Straight
    ensures Progress(k, k.ResolveDelayTail())
  {
    hide Keyer.ResolveDelayTail, Rank, Budget, Calm, Safe, LetterRestUs, Anchor;
    TailFacts(k);
    var m := k.ResolveDelayTail().keyer;
    CalmUp(k);
    if m.state == Idle { TailIdle(k, m); } else { TailSpaced(k, m); }
  }

  lemma {:induction false} CalmUp(k: Keyer)
    requires Calm(k)
    ensures Delay(k.state) ==> !k.keyActive
    ensures !k.ditHeld && !k.dashHeld && (k.config.mode == Straight || k.textQueue == [])
  {}

  lemma {:induction false} TailIdle(k: Keyer, m: Keyer)
    requires Delay(k.state) && m.state == Idle && m.config == k.config && m.tickUs == k.tickUs
    requires m.elapsedUs == k.elapsedUs && m.phaseEndUs == k.phaseEndUs && !m.ditMemory && !m.dashMemory
    ensures Rank(m) + k.tickUs <= Rank(k) && Budget(m) <= Budget(k)
  {
    hide HangLimitUs, LetterRestUs, ElementCost;
  }

  lemma {:induction false} TailSpaced(k: Keyer, m: Keyer)
    requires Delay(k.state) && m.state == LetterSpace && m.config == k.config && m.tickUs == k.tickUs
    requires m.elapsedUs == k.elapsedUs && m.phaseEndUs == Anchor(k) + LetterRestUs(k.config)
    requires m.ditMemory == k.ditMemory && m.dashMemory == k.dashMemory && m.keyActive == k.keyActive
    ensures Rank(m) + k.tickUs <= Rank(k) && Budget(m) <= Budget(k)
  {
    hide HangLimitUs, LetterRestUs, MemoryCost, DitUsable, DashUsable;
    SameMemories(k, m);
  }

  lemma {:induction false} SameMemories(k: Keyer, m: Keyer)
    requires m.config == k.config && m.tickUs == k.tickUs
    requires m.ditMemory == k.ditMemory && m.dashMemory == k.dashMemory
    ensures MemoryCost(m) == MemoryCost(k) && DitUsable(m) == DitUsable(k) && DashUsable(m) == DashUsable(k)
  {
    hide ElementCost;
    SameCost(k, m);
  }

  lemma {:induction false} SameCost(k: Keyer, m: Keyer)
    requires m.config == k.config && m.tickUs == k.tickUs
    ensures ElementCost(m) == ElementCost(k)
  {}

  lemma {:induction false} HangProgress(k: Keyer)
    requires Calm(k) && k.state == Idle && k.pttActive && !DitUsable(k) && !DashUsable(k)
    ensures Progress(k, k.HandleHangTime())
  {
    hide Keyer.HandleHangTime, Config.EffectiveDashUs, Config.ElementGapUs, LetterRestUs;
    HangFacts(k);
  }

  /** Either the tick makes progress, or it waits for a deadline that is still ahead. */
  predicate ProgressOrWait(k: Keyer, s: Step) {
    Progress(k, s) || (s == Step(k, None) && !k.PhaseExpired())
  }

  lemma {:induction false} LetterSpaceProgress(k: Keyer)
    requires Calm(k) && k.state == LetterSpace
    ensures ProgressOrWait(k, k.TickLetterSpace())
  {
    hide Config.EffectiveDashUs, Config.ElementGapUs, LetterRestUs, HangLimitUs;
  }

  lemma {:induction false} OrphanProgress(k: Keyer)
    requires Calm(k) && k.state == StraightKey && !k.keyActive
    ensures k.config.mode != Straight ==> Progress(k, Step(k.(state := Idle), None))
  {
    hide Config.EffectiveDashUs, Config.ElementGapUs, LetterRestUs, HangLimitUs;
  }

  lemma {:induction false} IambicElementProgress(k: Keyer, delay: KeyerState)
    requires Calm(k) && k.InElement() && Delay(delay) && k.config.mode != Straight
    ensures ProgressOrWait(k, k.TickIambicElement(delay))
  {
    hide Keyer.FinishElement, Keyer.EmitKeyDown, Keyer.LatchOpposite, Progress;
    LatchFacts(k);
    if k.keyActive { FinishProgress(k, delay); } else { KeyDownProgress(k); }
  }

  lemma {:induction false} ChoiceUsable(k: Keyer, afterDit: bool, bugMode: bool)
    requires Calm(k) && k.config.mode != Straight && k.config.mode != SinglePaddle
    requires bugMode == (k.config.mode == Bug)
    ensures match ChoiceAfter(k, afterDit, bugMode)
      case Some(isDash) => if isDash then DashUsable(k) else DitUsable(k)
      case None => true
  {}

  lemma {:induction false} DelayProgress(k: Keyer, bugMode: bool)
    requires Calm(k) && Delay(k.state) && k.config.mode != Straight && k.config.mode != SinglePaddle
    requires bugMode == (k.config.mode == Bug)
    ensures ProgressOrWait(k, k.TickIambicInner(bugMode))
  {
    hide Keyer.TickIambicInner, Keyer.StartElementKeyed, Keyer.ResolveDelayTail, ChoiceAfter, Progress, DitUsable,
         DashUsable;
    DelayShape(k, bugMode);
    DelayAlone(k, bugMode);
    ChoiceUsable(k, k.state == DitDelay, bugMode);
    match ChoiceAfter(k, k.state == DitDelay, bugMode)
    case Some(side) => StartProgress(k, side);
    case None => TailProgress(k);
  }

  /** Without paddles a delay latches nothing and only waits for its deadline. */
  lemma {:induction false} DelayAlone(k: Keyer, bugMode: bool)
    requires !k.AnyHeld() && Delay(k.state)
    ensures DelayStep(k, bugMode) ==
      if !k.PhaseExpired() then Step(k, None)
      else match ChoiceAfter(k, k.state == DitDelay, bugMode)
        case Some(side) => k.StartElementKeyed(side)
        case None => k.ResolveDelayTail()
  {
    hide Keyer.StartElementKeyed, Keyer.ResolveDelayTail, ChoiceAfter;
  }

  lemma {:induction false} IambicIdleProgress(k: Keyer, bugMode: bool)
    requires Calm(k) && k.state == Idle && !Settled(k) && k.config.mode != Straight && k.config.mode != SinglePaddle
    requires bugMode == (k.config.mode == Bug)
    ensures Progress(k, k.TickIambicInner(bugMode))
  {
    hide Keyer.StartElementKeyed, Keyer.DispatchNext, Keyer.HandleHangTime, Progress;
    if k.ditMemory { StartProgress(k, false); }
    else if k.dashMemory && !bugMode { StartProgress(k, true); }
    else { HangProgress(k); }
  }

  lemma {:induction false} IambicProgress(k: Keyer, bugMode: bool)
    requires Calm(k) && !Settled(k) && k.config.mode != Straight && k.config.mode != SinglePaddle
    requires bugMode == (k.config.mode == Bug) && (k.state == StraightKey ==> !k.keyActive)
    ensures ProgressOrWait(k, k.TickIambicInner(bugMode))
  {
    hide Keyer.TickIambicElement, Keyer.ResolveAfterDitDelay, Keyer.ResolveAfterDashDelay, Keyer.TickLetterSpace,
         Progress;
    match k.state
    case Idle => IambicIdleProgress(k, bugMode);
    case SendDit => IambicElementProgress(k, DitDelay);
    case SendDash => IambicElementProgress(k, DashDelay);
    case DitDelay => hide *; DelayProgress(k, bugMode);
    case DashDelay => hide *; DelayProgress(k, bugMode);
    case LetterSpace => LetterSpaceProgress(k);
    case StraightKey => OrphanProgress(k);
  }

  /** The single paddle lets go of an undecided dit: it is confirmed and its gap begins. */
  lemma {:induction false} ConfirmProgress(k: Keyer)
    requires Calm(k) && k.state == SendDit && k.keyActive && k.config.mode == SinglePaddle
    ensures Progress(k, k.ConfirmDit())
  {
    hide Keyer.SchedulePhase, Keyer.EmitKeyUp, Config.EffectiveDashUs, Config.ElementGapUs, LetterRestUs, HangLimitUs;
    var d := k.(singlePaddleDecided := true, state := DitDelay);
    ScheduleFacts(d, k.config.ElementGapUs());
    KeyUpFacts(d.SchedulePhase(k.config.ElementGapUs()));
  }

  lemma {:induction false} SinglePaddleDelayProgress(k: Keyer)
    requires Calm(k) && Delay(k.state) && k.config.mode == SinglePaddle
    ensures ProgressOrWait(k, k.TickSinglePaddleDelay())
  {
    hide Keyer.EnterIdleFromDelay, Config.EffectiveDashUs, Config.ElementGapUs, LetterRestUs, HangLimitUs;
    EnterIdleFacts(k);
  }

  lemma {:induction false} SinglePaddleProgress(k: Keyer)
    requires Calm(k) && !Settled(k) && k.config.mode == SinglePaddle
    ensures ProgressOrWait(k, k.TickSinglePaddle())
  {
    hide Keyer.FinishElement, Keyer.EmitKeyDown, Keyer.DispatchNext, Keyer.HandleHangTime, Keyer.TickLetterSpace,
         Keyer.TickSinglePaddleDelay, Keyer.ConfirmDit, Progress;
    match k.state
    case Idle => HangProgress(k);
    case SendDit =>
      if k.keyActive { FinishProgress(k, DitDelay); ConfirmProgress(k); } else { KeyDownProgress(k); }
    case SendDash =>
      if k.keyActive { FinishProgress(k, DashDelay); } else { KeyDownProgress(k); }
    case DitDelay => SinglePaddleDelayProgress(k);
    case DashDelay => SinglePaddleDelayProgress(k);
    case LetterSpace => LetterSpaceProgress(k);
    case StraightKey => OrphanProgress(k);
  }

  lemma {:induction false} ReleaseProgress(k: Keyer)
    requires Calm(k) && k.state == StraightKey && k.keyActive
    ensures Progress(k, k.FinishStraight())
    ensures var g := SaturatingAdd(k.straightReleaseGraceUs, k.tickUs);
      g < 20_000 ==> Progress(k, Step(k.(straightReleaseGraceUs := g), None))
  {
    hide Keyer.EmitKeyUp, Config.EffectiveDashUs, Config.ElementGapUs, LetterRestUs, HangLimitUs;
    KeyUpFacts(k.(state := Idle, hangCounterUs := 0));
  }

  lemma {:induction false} StraightProgress(k: Keyer)
    requires Calm(k) && !Settled(k) && k.config.mode == Straight
    ensures Progress(k, k.TickStraight())
  {
    hide Keyer.EmitKeyDown, Keyer.HandleHangTime, Keyer.FinishStraight, Progress;
    if k.state == Idle {
      HangProgress(k);
    } else if !k.keyActive {
      KeyDownProgress(k);
    } else {
      ReleaseProgress(k);
      GraceIgnored(k);
    }
  }

  /** Finishing a straight key-down does not look at the grace counter. */
  lemma {:induction false} GraceIgnored(k: Keyer)
    requires Calm(k) && k.state == StraightKey && k.keyActive
    ensures Progress(k, k.(straightReleaseGraceUs := 0).FinishStraight())
  {
    hide Keyer.EmitKeyUp, Config.EffectiveDashUs, Config.ElementGapUs, LetterRestUs, HangLimitUs;
    KeyUpFacts(k.(state := Idle, hangCounterUs := 0, straightReleaseGraceUs := 0));
  }

  lemma {:induction false} BugProgress(k: Keyer)
    requires Calm(k) && !Settled(k) && k.config.mode == Bug
    ensures ProgressOrWait(k, k.TickBug())
  {
    hide Keyer.TickIambicInner, Keyer.EmitKeyDown, Keyer.FinishStraight, Progress;
    if k.state != StraightKey {
      IambicProgress(k, true);
    } else if !k.keyActive {
      KeyDownProgress(k);
    } else {
      ReleaseProgress(k);
    }
  }

  /** Every tick of a calm engine that is not settled makes progress. */
  lemma {:induction false} TickProgress(k: Keyer)
    requires Calm(k) && !Settled(k)
    ensures Progress(k, k.Tick()) && Calm(k.Tick().keyer)
  {
    hide Keyer.TickStraight, Keyer.TickBug, Keyer.TickSinglePaddle, Keyer.TickIambicInner, Progress;
    TickSafe(k);
    var t := k.(elapsedUs := k.elapsedUs + k.tickUs);
    match k.config.mode {
      case Straight => StraightProgress(t);
      case Bug => BugProgress(t);
      case SinglePaddle => SinglePaddleProgress(t);
      case _ => IambicProgress(t, false);
    }
    ClockProgress(k, k.Tick());
    StaysCalm(k, k.Tick());
  }

  lemma {:induction false} StaysCalm(k: Keyer, s: Step)
    requires Calm(k) && SafeStep(k, s) && Progress(k, s)
    ensures Calm(s.keyer)
  {
    hide Rank, Budget;
  }

  lemma {:induction false} ClockRank(k: Keyer)
    ensures var t := k.(elapsedUs := k.elapsedUs + k.tickUs);
      Rank(t) <= Rank(k) && Budget(t) == Budget(k) && (!t.PhaseExpired() ==> Rank(t) + k.tickUs <= Rank(k))
  {
    hide Config.EffectiveDashUs, Config.ElementGapUs, LetterRestUs, HangLimitUs;
    var t := k.(elapsedUs := k.elapsedUs + k.tickUs);
    assert StageCost(t) == StageCost(k) && MemoryCost(t) == MemoryCost(k);
  }

  lemma {:induction false} ClockProgress(k: Keyer, s: Step)
    requires ProgressOrWait(k.(elapsedUs := k.elapsedUs + k.tickUs), s) && Calm(k)
    ensures Progress(k, s)
  {
    hide Rank, Budget, Safe;
    ClockRank(k);
  }

  /** A settled engine stays settled and silent. */
  lemma {:induction false} SettledTick(k: Keyer)
    requires Settled(k)
    ensures k.Tick() == Step(k.(elapsedUs := k.elapsedUs + k.tickUs), None) && Settled(k.Tick().keyer)
  {
  }

  // ---- runs without input ---------------------------------------------------------

  function KeyDowns(log: seq<Output>): nat {
    if log == [] then 0 else (if log[0] == KeyDown then 1 else 0) + KeyDowns(log[1..])
  }

  lemma {:induction false} KeyDownsEmitted(out: Option<Output>, log: seq<Output>)
    ensures KeyDowns(Emitted(out) + log) == Downs(out) + KeyDowns(log)
  {
    if out.Some? { assert (Emitted(out) + log)[1..] == log; } else { assert Emitted(out) + log == log; }
  }

  /** `n` ticks last longer than the measure: a calm engine is certainly settled by then. */
  predicate LongEnough(k: Keyer, n: nat) { n * k.tickUs > Rank(k) }

  lemma {:induction false} SettledForGood(k: Keyer, n: nat)
    requires Settled(k)
    ensures Settled(Ticks(k, n)) && TickLog(k, n) == [] && Ticks(k, n).textQueue == k.textQueue
    decreases n
  {
    hide Settled, Keyer.Tick;
    if n > 0 {
      SettledTick(k);
      SettledForGood(k.Tick().keyer, n - 1);
    }
  }

  /**
   Released paddles and an empty queue: once the ticks last longer than `Rank(k)` microseconds, whatever
   the mode, the timing, the hang time and the state the engine was left in, it is idle with key up and
   PTT off for good, and on the way it has sent at most one element per usable memory, besides one that
   was waiting for PTT.
   */
  lemma {:induction false} Quiescence(k: Keyer, m: nat, n: nat)
    requires Calm(k) && LongEnough(k, m) && m <= n
    ensures Settled(Ticks(k, n)) && Ticks(k, n).IsActive() == (k.textQueue != [])
    ensures TickLog(k, n) == TickLog(k, m) && KeyDowns(TickLog(k, m)) <= Budget(k)
  {
    hide Keyer.Tick, Rank, Budget, Calm, Settled, LongEnough;
    SettlesWithin(k, m);
    TicksSplit(k, m, n - m);
    SettledForGood(Ticks(k, m), n - m);
    SettledInactive(Ticks(k, n));
    assert TickLog(k, m) + [] == TickLog(k, m);
  }

  lemma {:induction false} SettledInactive(k: Keyer)
    requires Settled(k)
    ensures k.IsActive() == (k.textQueue != [])
  {}

  lemma {:induction false} SettlesWithin(k: Keyer, n: nat)
    requires Calm(k)
    ensures KeyDowns(TickLog(k, n)) <= Budget(k)
    ensures LongEnough(k, n) ==> Settled(Ticks(k, n))
    ensures Ticks(k, n).textQueue == k.textQueue
    decreases n
  {
    hide Keyer.Tick, Rank, Budget, Calm, Settled;
    if Settled(k) {
      SettledForGood(k, n);
    } else if n > 0 {
      TickProgress(k);
      var s := k.Tick();
      SettlesWithin(s.keyer, n - 1);
      KeyDownsEmitted(s.out, TickLog(s.keyer, n - 1));
      assert (n - 1) * k.tickUs == n * k.tickUs - k.tickUs;
    }
  }

  /**
   Straight mode never looks at the text queue: a released straight key lets PTT go even while text
   is queued, and the text stays queued.
   */
  lemma {:induction false} StraightDropsPtt(k: Keyer, n: nat)
    requires Safe(k) && ModeStates(k) && k.config.mode == Straight && !k.AnyHeld() && LongEnough(k, n)
    ensures !Ticks(k, n).pttActive && Ticks(k, n).textQueue == k.textQueue
  {
    hide Rank;
    SettlesWithin(k, n);
  }

  // ---- fixed-mode runs reach only states that this covers -----------------------------

  lemma {:induction false} TickModeStates(k: Keyer)
    requires Safe(k) && ModeStates(k)
    ensures ModeStates(k.Tick().keyer)
  {
    hide Keyer.TickBug, Keyer.TickSinglePaddle, Keyer.TickIambicInner, Keyer.HandleHangTime;
    TickSafe(k);
    HangFacts(k.(elapsedUs := k.elapsedUs + k.tickUs));
  }

  lemma {:induction false} ApplyModeStates(k: Keyer, input: Input)
    requires Safe(k) && ModeStates(k) && (input.Reconfigure? ==> input.config.mode == k.config.mode)
    ensures ModeStates(Apply(k, input).keyer)
  {
    hide Keyer.Tick, Keyer.SetPaddle;
    match input
    case Clock => TickModeStates(k);
    case Paddle(dit, dash) => SetPaddleFacts(k, dit, dash);
    case _ =>
  }

  /** A run that keeps its mode leaves a calm engine as soon as paddles are up and the queue is empty. */
  lemma {:induction false} FixedModeCalm(k: Keyer, inputs: seq<Input>)
    requires Safe(k) && ModeStates(k) && ModeFixed(k.config.mode, inputs)
    ensures var m := Run(k, inputs);
      && Safe(m) && ModeStates(m) && m.config.mode == k.config.mode
      && (!m.AnyHeld() && m.textQueue == [] ==> Calm(m))
  {
    hide Apply, Safe, ModeStates, ChangesAllowed, WellKeyed, KeyLine, PttLine, Log;
    FixedModeAllowed(k, inputs);
    RunSafe(k, inputs);
    if inputs != [] {
      var n := |inputs| - 1;
      FixedModeCalm(k, inputs[..n]);
      ApplyModeStates(Run(k, inputs[..n]), inputs[n]);
    }
  }
}
