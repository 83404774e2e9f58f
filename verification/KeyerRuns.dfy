/** Runs of the keyer engine: arbitrary interleavings of inputs and ticks, and what they output. */
module KeyerRuns {
  import opened Base
  import opened KeyerConfig
  import opened Morse
  import opened Engine

  datatype Input =
    | Clock
    | Paddle(dit: bool, dash: bool)
    | Text(text: string)
    | Abort
    | Reconfigure(config: Config)

  function Apply(k: Keyer, input: Input): Step {
    match input
    case Clock => k.Tick()
    case Paddle(dit, dash) => Step(k.SetPaddle(dit, dash), None)
    case Text(text) => Step(k.SendText(text), None)
    case Abort => Step(k.AbortText(), None)
    case Reconfigure(config) => Step(k.UpdateConfig(config), None)
  }

  function Emitted(out: Option<Output>): seq<Output> {
    match out case None => [] case Some(o) => [o]
  }

  /** The state after a run of inputs. */
  function Run(k: Keyer, inputs: seq<Input>): Keyer {
    if inputs == [] then k
    else Apply(Run(k, inputs[..|inputs| - 1]), inputs[|inputs| - 1]).keyer
  }

  /** Everything a run outputs, in order. */
  function Log(k: Keyer, inputs: seq<Input>): seq<Output> {
    if inputs == [] then []
    else
      Log(k, inputs[..|inputs| - 1])
      + Emitted(Apply(Run(k, inputs[..|inputs| - 1]), inputs[|inputs| - 1]).out)
  }

  /** `n` ticks with no input between them. */
  function Ticks(k: Keyer, n: nat): Keyer
    decreases n
  {
    if n == 0 then k else Ticks(k.Tick().keyer, n - 1)
  }

  function TickLog(k: Keyer, n: nat): seq<Output>
    decreases n
  {
    if n == 0 then [] else Emitted(k.Tick().out) + TickLog(k.Tick().keyer, n - 1)
  }

  lemma {:induction false} TicksSplit(k: Keyer, m: nat, n: nat)
    ensures Ticks(k, m + n) == Ticks(Ticks(k, m), n)
    ensures TickLog(k, m + n) == TickLog(k, m) + TickLog(Ticks(k, m), n)
    decreases m
  {
    hide Keyer.Tick;
    if m > 0 { TicksSplit(k.Tick().keyer, m - 1, n); }
  }

  // ---- the key and PTT lines, as an observer of the outputs sees them ----------

  function KeyLine(key: bool, log: seq<Output>): bool {
    if log == [] then key
    else match log[|log| - 1]
      case KeyDown => true
      case KeyUp => false
      case PttRequest(_) => KeyLine(key, log[..|log| - 1])
  }

  function PttLine(ptt: bool, log: seq<Output>): bool {
    if log == [] then ptt
    else match log[|log| - 1]
      case PttRequest(on) => on
      case _ => PttLine(ptt, log[..|log| - 1])
  }

  /**
   An output is legal on the lines it finds: key edges alternate and fall inside a PTT span,
   PTT requests alternate and never cut a key-down short.
   */
  predicate Legal(o: Output, key: bool, ptt: bool) {
    match o
    case KeyDown => !key && ptt
    case KeyUp => key && ptt
    case PttRequest(on) => on != ptt && !key
  }

  /** Every output of the log is legal on the lines the outputs before it left. */
  ghost predicate WellKeyed(key: bool, ptt: bool, log: seq<Output>) {
    forall i :: 0 <= i < |log| ==> Legal(log[i], KeyLine(key, log[..i]), PttLine(ptt, log[..i]))
  }

  lemma {:induction false} WellKeyedSnoc(key: bool, ptt: bool, log: seq<Output>, o: Output)
    requires WellKeyed(key, ptt, log) && Legal(o, KeyLine(key, log), PttLine(ptt, log))
    ensures WellKeyed(key, ptt, log + [o])
  {
    var l := log + [o];
    forall i | 0 <= i < |l|
      ensures Legal(l[i], KeyLine(key, l[..i]), PttLine(ptt, l[..i]))
    {
      assert l[..i] == log[..i];
      assert log[..|log|] == log;
    }
  }

  lemma {:induction false} LinesSnoc(key: bool, ptt: bool, log: seq<Output>, o: Output)
    ensures KeyLine(key, log + [o]) ==
      match o case KeyDown => true case KeyUp => false case PttRequest(_) => KeyLine(key, log)
    ensures PttLine(ptt, log + [o]) == match o case PttRequest(on) => on case _ => PttLine(ptt, log)
  {
    assert (log + [o])[..|log|] == log;
  }
}
