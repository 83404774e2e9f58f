/** Keys that follow the hand: the straight key, the bug's dash, the single paddle; and the hang time after them. */
module KeyerStraight {
  import opened Base
  import opened KeyerConfig
  import opened Morse
  import opened Engine
  import opened KeyerFacts
  import opened KeyerRuns
  import opened KeyerSafety
  import opened KeyerQuiescence
  import opened KeyerDrift
  import opened KeyerPaddles
  import opened KeyerKeys

  // ---- what the paddles have done, without looking at the engine ----------------------------------

  /** Whether any paddle is down after these inputs. */
  function DownAfter(down: bool, inputs: seq<Input>): bool {
    if inputs == [] then down
    else match inputs[|inputs| - 1]
      case Paddle(dit, dash) => dit || dash
      case _ => DownAfter(down, inputs[..|inputs| - 1])
  }

  /** How long, in ticks of `q` microseconds, the paddles have been up without interruption at the last tick. */
  function UpFor(down: bool, q: Quantum, inputs: seq<Input>): nat {
    if inputs == [] then 0
    else
      var before := inputs[..|inputs| - 1];
      if inputs[|inputs| - 1] != Clock then UpFor(down, q, before)
      else if DownAfter(down, before) then 0
      else UpFor(down, q, before) + q
  }

  /** The debounce of the straight key: 20 ms. */
  const DEBOUNCE_US: nat := 20_000

  // ---- the straight key -----------------------------------------------------------------------------

  /** A straight key that sounds and has been held up to now, or let go for `up` microseconds. */
  predicate StraightDown(k: Keyer, up: nat) {
    && k.config.mode == Straight && k.state == StraightKey && k.keyActive
    && k.straightReleaseGraceUs == up < DEBOUNCE_US
  }

  lemma {:induction false} StraightTick(k: Keyer, up: nat)
    requires StraightDown(k, up)
    ensures var s := k.Tick(); var m := s.keyer; var now := if k.AnyHeld() then 0 else up + k.tickUs;
      && m.AnyHeld() == k.AnyHeld() && m.tickUs == k.tickUs
      && if now < DEBOUNCE_US then StraightDown(m, now) && s.out == None
         else m.state == Idle && !m.keyActive && s.out == Some(KeyUp)
  {
    hide Keyer.FinishStraight;
    var t := k.(elapsedUs := k.elapsedUs + k.tickUs);
    StraightFinish(t.(straightReleaseGraceUs := 0));
  }

  lemma {:induction false} StraightFinish(t: Keyer)
    ensures var s := t.FinishStraight(); var m := s.keyer;
      && m.state == Idle && !m.keyActive && s.out == Some(KeyUp)
      && m.ditHeld == t.ditHeld && m.dashHeld == t.dashHeld && m.tickUs == t.tickUs
  {
    hide Recorded;
  }

  lemma {:induction false} StraightPaddle(k: Keyer, up: nat, dit: bool, dash: bool)
    requires StraightDown(k, up)
    ensures var m := k.SetPaddle(dit, dash);
      StraightDown(m, up) && m.AnyHeld() == (dit || dash) && m.tickUs == k.tickUs
  {
    hide Keyer.SetPaddle;
    SetPaddleFacts(k, dit, dash);
  }

  /** The paddles have never been up for the whole debounce time. */
  predicate NeverReleased(down: bool, q: Quantum, inputs: seq<Input>) {
    forall i :: 0 <= i <= |inputs| ==> UpFor(down, q, inputs[..i]) < DEBOUNCE_US
  }

  /**
   A sounding straight key emits nothing and stays down, through any pressing and releasing, as long as the
   paddles have not been up for 20 ms on end: a hold of any length and a bounce leave no edge.
   */
  lemma {:induction false} StraightStays(k: Keyer, inputs: seq<Input>)
    requires StraightDown(k, 0) && PaddlesOnly(inputs) && NeverReleased(k.AnyHeld(), k.tickUs, inputs)
    ensures var m := Run(k, inputs);
      && StraightDown(m, UpFor(k.AnyHeld(), k.tickUs, inputs)) && Log(k, inputs) == []
      && m.AnyHeld() == DownAfter(k.AnyHeld(), inputs) && m.tickUs == k.tickUs
  {
    hide Keyer.Tick, Keyer.SetPaddle, StraightDown, Keyer.AnyHeld;
    if inputs != [] {
      var n := |inputs| - 1;
      assert forall i :: 0 <= i <= n ==> inputs[..n][..i] == inputs[..i];
      StraightStays(k, inputs[..n]);
      var m := Run(k, inputs[..n]);
      assert inputs[..|inputs|] == inputs;
      match inputs[n] {
        case Clock => StraightTick(m, UpFor(k.AnyHeld(), k.tickUs, inputs[..n]));
        case Paddle(dit, dash) => StraightPaddle(m, UpFor(k.AnyHeld(), k.tickUs, inputs[..n]), dit, dash);
      }
    }
  }

  /** The key-up comes exactly at the first tick on which the paddles have been up for 20 ms on end. */
  lemma {:induction false} StraightReleases(k: Keyer, inputs: seq<Input>)
    requires StraightDown(k, 0) && PaddlesOnly(inputs) && NeverReleased(k.AnyHeld(), k.tickUs, inputs)
    requires UpFor(k.AnyHeld(), k.tickUs, inputs + [Clock]) >= DEBOUNCE_US
    ensures var m := Run(k, inputs + [Clock]);
      Log(k, inputs + [Clock]) == [KeyUp] && m.state == Idle && !m.keyActive
  {
    hide Keyer.Tick, StraightDown, Keyer.AnyHeld;
    StraightStays(k, inputs);
    var all := inputs + [Clock];
    assert all[..|all| - 1] == inputs;
    StraightTick(Run(k, inputs), UpFor(k.AnyHeld(), k.tickUs, inputs));
  }

  /** Held for any number of ticks, it stays down and emits nothing. */
  lemma {:induction false} StraightHeld(k: Keyer, n: nat)
    requires StraightDown(k, 0) && k.AnyHeld()
    ensures StraightDown(Ticks(k, n), 0) && TickLog(k, n) == []
    decreases n
  {
    hide Keyer.Tick, StraightDown;
    if n > 0 {
      StraightTick(k, 0);
      StraightHeld(k.Tick().keyer, n - 1);
    }
  }

  /** A press in idle sounds on the same tick, or on the next one when PTT has to be asked for. */
  lemma {:induction false} StraightPressed(k: Keyer)
    requires k.config.mode == Straight && k.state == Idle && k.AnyHeld() && !k.keyActive
    ensures if k.pttActive then TickLog(k, 1) == [KeyDown] && StraightDown(Ticks(k, 1), 0)
            else TickLog(k, 2) == [PttRequest(true), KeyDown] && StraightDown(Ticks(k, 2), 0)
  {
    hide Keyer.Tick;
    PressTick(k);
    var m := k.Tick().keyer;
    if !k.pttActive { SoundTick(m); }
    assert TickLog(m, 0) == [] && Ticks(m, 0) == m && Ticks(k, 1) == Ticks(m, 0);
    assert TickLog(m.Tick().keyer, 0) == [] && Ticks(m.Tick().keyer, 0) == m.Tick().keyer;
    assert Ticks(k, 2) == Ticks(m, 1) && TickLog(k, 2) == Emitted(k.Tick().out) + TickLog(m, 1);
  }

  lemma {:induction false} PressTick(k: Keyer)
    requires k.config.mode == Straight && k.state == Idle && k.AnyHeld() && !k.keyActive
    ensures var s := k.Tick(); var m := s.keyer;
      && m.config == k.config && m.state == StraightKey && m.pttActive && m.straightReleaseGraceUs == 0
      && m.keyActive == k.pttActive && s.out == Some(if k.pttActive then KeyDown else PttRequest(true))
  {
    hide Keyer.HandleHangTime, Keyer.EmitKeyDown;
    KeyDownFacts(k.(elapsedUs := k.elapsedUs + k.tickUs, straightReleaseGraceUs := 0, state := StraightKey));
  }

  lemma {:induction false} SoundTick(k: Keyer)
    requires k.config.mode == Straight && k.state == StraightKey && !k.keyActive
    ensures var s := k.Tick(); var m := s.keyer;
      && m.config == k.config && m.state == StraightKey && m.keyActive && s.out == Some(KeyDown)
      && m.straightReleaseGraceUs == k.straightReleaseGraceUs
  {
    hide Recorded;
  }

  // ---- the dash of a bug ------------------------------------------------------------------------------

  /** Whether the paddle of the manual dash is down after these inputs. */
  function DashAfter(down: bool, reversed: bool, inputs: seq<Input>): bool {
    if inputs == [] then down
    else match inputs[|inputs| - 1]
      case Paddle(dit, dash) => if reversed then dit else dash
      case _ => DashAfter(down, reversed, inputs[..|inputs| - 1])
  }

  /** A manual dash that sounds. */
  predicate BugDown(k: Keyer) { k.config.mode == Bug && k.state == StraightKey && k.keyActive }

  lemma {:induction false} BugTick(k: Keyer)
    requires BugDown(k)
    ensures var s := k.Tick(); var m := s.keyer;
      && m.dashHeld == k.dashHeld && m.config == k.config
      && if k.dashHeld then BugDown(m) && s.out == None else m.state == Idle && !m.keyActive && s.out == Some(KeyUp)
  {
    hide Keyer.TickIambicInner, Recorded;
  }

  lemma {:induction false} BugPaddle(k: Keyer, dit: bool, dash: bool)
    requires BugDown(k)
    ensures var m := k.SetPaddle(dit, dash);
      BugDown(m) && m.config == k.config && m.dashHeld == (if k.config.keysReversed then dit else dash)
  {
    hide Keyer.Press;
    SetPaddleFacts(k, dit, dash);
    PressFacts(k, dit, dash);
    PressFacts(k, dash, dit);
  }

  /**
   A manual dash sounds for as long as its paddle is down at every tick, whatever the dit paddle does, and
   ends at the first tick that finds it up.
   */
  lemma {:induction false} BugFollows(k: Keyer, inputs: seq<Input>)
    requires BugDown(k) && PaddlesOnly(inputs)
    requires forall i :: 0 <= i < |inputs| && inputs[i] == Clock ==>
      DashAfter(k.dashHeld, k.config.keysReversed, inputs[..i])
    ensures var m := Run(k, inputs); var down := DashAfter(k.dashHeld, k.config.keysReversed, inputs);
      && BugDown(m) && m.config == k.config && m.dashHeld == down && Log(k, inputs) == []
      && (!down ==> Log(k, inputs + [Clock]) == [KeyUp] && Run(k, inputs + [Clock]).state == Idle)
  {
    hide Keyer.Tick, Keyer.SetPaddle, BugDown;
    if inputs != [] {
      var n := |inputs| - 1;
      assert forall i :: 0 <= i <= n ==> inputs[..n][..i] == inputs[..i];
      BugFollows(k, inputs[..n]);
      var m := Run(k, inputs[..n]);
      match inputs[n] {
        case Clock => BugTick(m);
        case Paddle(dit, dash) => BugPaddle(m, dit, dash);
      }
    }
    BugTick(Run(k, inputs));
    var all := inputs + [Clock];
    assert all[..|all| - 1] == inputs;
  }

  /** The dash paddle of an idle bug sounds on the same tick, or on the next one after asking for PTT. */
  lemma {:induction false} BugPressed(k: Keyer)
    requires k.config.mode == Bug && k.state == Idle && k.dashHeld && !k.ditHeld && !k.keyActive
    ensures if k.pttActive then k.Tick().out == Some(KeyDown) && BugDown(k.Tick().keyer)
            else
              var s := k.Tick();
              s.out == Some(PttRequest(true)) && s.keyer.Tick().out == Some(KeyDown) && BugDown(s.keyer.Tick().keyer)
  {
    hide Keyer.Tick;
    BugPressTick(k);
    if !k.pttActive { BugSoundTick(k.Tick().keyer); }
  }

  lemma {:induction false} BugPressTick(k: Keyer)
    requires k.config.mode == Bug && k.state == Idle && k.dashHeld && !k.ditHeld && !k.keyActive
    ensures var s := k.Tick(); var m := s.keyer;
      && m.config == k.config && m.state == StraightKey && m.keyActive == k.pttActive
      && s.out == Some(if k.pttActive then KeyDown else PttRequest(true))
  {
    hide Keyer.TickIambicInner, Recorded;
  }

  lemma {:induction false} BugSoundTick(k: Keyer)
    requires k.config.mode == Bug && k.state == StraightKey && !k.keyActive
    ensures var s := k.Tick(); s.out == Some(KeyDown) && BugDown(s.keyer)
  {
    hide Keyer.TickIambicInner, Recorded;
  }

  // ---- the single paddle ------------------------------------------------------------------------------------

  /** A dit that may still become a dash. */
  predicate Undecided(k: Keyer) {
    && OnTime(k) && LongPhases(k.config, k.tickUs) && k.config.mode == SinglePaddle
    && k.state == SendDit && k.keyActive && !k.singlePaddleDecided
  }

  /**
   Let go before the dit has run out, the key goes up at once, the next element may begin where it would have
   after a full dit, and with the paddles up nothing more is keyed.
   */
  lemma {:induction false} ShortPress(k: Keyer, n: nat)
    requires Undecided(k) && Safe(k) && !k.AnyHeld() && k.textQueue == []
    ensures var s := k.Tick();
      && s.out == Some(KeyUp) && s.keyer.state == DitDelay
      && s.keyer.phaseEndUs == k.phaseEndUs + k.config.DotDurationUs()
      && KeyDowns(TickLog(s.keyer, n)) == 0
  {
    hide Keyer.Tick, LongPhases, Rank, Config.DotDurationUs;
    TickSafe(k);
    ConfirmTick(k);
    var m := k.Tick().keyer;
    SingleCalm(m);
    SettlesWithin(m, n);
  }

  lemma {:induction false} SingleCalm(m: Keyer)
    requires Safe(m) && m.config.mode == SinglePaddle && !m.AnyHeld() && m.textQueue == []
    ensures Calm(m) && (m.state == DitDelay ==> Budget(m) == 0)
  {}

  lemma {:induction false} ConfirmTick(k: Keyer)
    requires Undecided(k) && !k.AnyHeld()
    ensures var s := k.Tick(); var m := s.keyer;
      && s.out == Some(KeyUp) && m.state == DitDelay && m.config == k.config && !m.AnyHeld()
      && m.textQueue == k.textQueue && m.phaseEndUs == k.phaseEndUs + k.config.DotDurationUs()
  {
    hide Config.DotDurationUs, Config.DashDurationUs, Recorded, Keyer.FinishElement, LongPhases;
  }

  /** Held until the dit has run out, the key stays down for exactly a dash from where the dit began. */
  lemma {:induction false} LongPress(k: Keyer, start: nat)
    requires Undecided(k) && k.AnyHeld() && k.elapsedUs + k.tickUs >= k.phaseEndUs
    requires k.phaseEndUs == start + k.config.EffectiveDotUs()
    ensures var s := k.Tick(); var m := s.keyer;
      && s.out == None && m.state == SendDash && m.keyActive
      && m.phaseEndUs == start + k.config.EffectiveDashUs() && m.elementDurationUs == k.config.EffectiveDashUs()
  {
    hide Config.DotDurationUs, Config.DashDurationUs, Recorded, Keyer.FinishElement, LongPhases;
  }

  // ---- Ultimatic ----------------------------------------------------------------------------------------------

  /** The second paddle joins the first: the squeeze remembers it as the last one pressed. */
  lemma {:induction false} SecondPaddle(k: Keyer, dashPaddle: bool)
    requires k.config.mode == Ultimatic
    requires HeldSide(k, !Keys(k.config, dashPaddle)) && !HeldSide(k, Keys(k.config, dashPaddle))
    ensures var m := k.SetPaddle(true, true);
      Holding(m) && m.lastPaddle == Some(Keys(k.config, dashPaddle)) && SamePhase(k, m)
      && (!k.textSending ==> !m.textSending)
  {
    hide Keyer.GateOpen;
  }

  lemma {:induction false} LastPaddleOnly(k: Keyer, side: bool, n: nat)
    requires OnTime(k) && LongPhases(k.config, k.tickUs) && Holding(k) && k.config.mode == Ultimatic
    requires k.lastPaddle == Some(side)
    ensures Starts(k, n, !side) == 0
    decreases n
  {
    hide Keyer.Tick, OnTime, LongPhases, Holding;
    if n > 0 {
      HeldTick(k);
      PhasesOf(k);
      LastPaddleOnly(k.Tick().keyer, side, n - 1);
    }
  }

  lemma {:induction false} PhasesOf(k: Keyer)
    requires OnTime(k)
    ensures k.InElement() || Delay(k.state)
  {}

  /**
   A squeeze in Ultimatic: when the second paddle goes down during the first one's element or gap, every
   element that starts from then on, for a hold of any length, is the second paddle's.
   */
  lemma {:induction false} SqueezeSendsLast(k: Keyer, dashPaddle: bool, n: nat)
    requires OnTime(k) && LongPhases(k.config, k.tickUs) && k.config.mode == Ultimatic
    requires HeldSide(k, !Keys(k.config, dashPaddle)) && !HeldSide(k, Keys(k.config, dashPaddle))
    ensures Starts(k.SetPaddle(true, true), n, !Keys(k.config, dashPaddle)) == 0
  {
    hide Keyer.SetPaddle, LongPhases, Holding;
    SecondPaddle(k, dashPaddle);
    LastPaddleOnly(k.SetPaddle(true, true), Keys(k.config, dashPaddle), n);
  }

  // ---- the hang time ------------------------------------------------------------------------------------------

  /** On the air with nothing left to key. */
  predicate Resting(k: Keyer) { Calm(k) && k.state == Idle && !k.keyActive && !k.ditMemory && !k.dashMemory }

  /** The hang time in microseconds, as far as 32 bits hold it. */
  function HangUs(c: Config): nat { Min(c.hangTimeMs * 1000, 0xFFFF_FFFF) }

  lemma {:induction false} RestTick(k: Keyer)
    requires Resting(k) && k.pttActive && k.hangCounterUs < HangUs(k.config) + 1
    requires k.textQueue == []
    ensures var s := k.Tick(); var m := s.keyer;
      && Resting(m) && m.config == k.config && m.tickUs == k.tickUs && m.textQueue == k.textQueue
      && if k.hangCounterUs + k.tickUs < HangUs(k.config)
         then m.pttActive && m.hangCounterUs == k.hangCounterUs + k.tickUs && s.out == None
         else !m.pttActive && s.out == Some(PttRequest(false))
  {
    hide Keyer.HandleHangTime, Calm;
    var t := k.(elapsedUs := k.elapsedUs + k.tickUs);
    CalmUp(k);
    RestStep(t);
    HangFacts(t);
    RestCalm(k);
  }

  lemma {:induction false} RestCalm(k: Keyer)
    requires Resting(k) && k.pttActive
    ensures Calm(k.Tick().keyer) && k.Tick().keyer.tickUs == k.tickUs
  {
    hide Keyer.Tick, Calm, Rank, Budget;
    TickProgress(k);
  }

  lemma {:induction false} RestStep(t: Keyer)
    requires !t.AnyHeld() && t.textQueue == [] && t.state == Idle && !t.ditMemory && !t.dashMemory
    ensures t.config.mode == Straight ==> t.TickStraight() == t.HandleHangTime()
    ensures t.config.mode == Bug ==> t.TickBug() == t.HandleHangTime()
    ensures t.config.mode == SinglePaddle ==> t.TickSinglePaddle() == t.HandleHangTime()
    ensures Iambic(t.config.mode) ==> t.TickIambicInner(false) == t.HandleHangTime()
  {
    hide Keyer.HandleHangTime;
  }

  /**
   PTT hangs for exactly the hang time, in every mode: at rest, it is on after each of `n` ticks that ends
   before the hang time is over, and goes off once, at the first tick that does not.
   */
  lemma {:induction false} HangTime(k: Keyer, n: nat)
    requires Resting(k) && k.pttActive && k.textQueue == [] && k.hangCounterUs <= HangUs(k.config)
    ensures TickLog(k, n) ==
      if n == 0 || k.hangCounterUs + n * k.tickUs < HangUs(k.config) then [] else [PttRequest(false)]
    ensures Ticks(k, n).pttActive <==> (n == 0 || k.hangCounterUs + n * k.tickUs < HangUs(k.config))
    decreases n
  {
    hide Keyer.Tick, Resting;
    if n > 0 {
      RestTick(k);
      var s := k.Tick();
      var m := s.keyer;
      assert n * k.tickUs == k.tickUs + (n - 1) * k.tickUs;
      if m.pttActive {
        HangTime(m, n - 1);
      } else {
        assert 0 <= (n - 1) * k.tickUs;
        RestSettled(m);
        SettledForGood(m, n - 1);
        assert [PttRequest(false)] + [] == [PttRequest(false)];
      }
    }
  }

  lemma {:induction false} RestSettled(m: Keyer)
    requires Resting(m) && !m.pttActive
    ensures Settled(m)
  {}
}
