/**
 The streaming decoder. `Listener` is its state as a value, with the unbounded log of everything
 it has decoded; the class `Decoder` keeps the last 32 characters of that log in its ring.
 */
module Decoder {
  import opened Base
  import opened Morse

  const HISTORY_CAPACITY: nat := 32

  datatype Line = Idle | Down | Up

  function DitUs(wpm: u8): (d: nat)
    ensures 4705 <= d <= 1_200_000
  {
    var w := Max(wpm, 1);
    assert 4705 * w <= 1_200_000;
    1_200_000 / w
  }

  /** The character for a packed pattern; NUL where there is none. */
  function Lookup(code: nat): char {
    match code
    case 2 => 'E' case 3 => 'T' case 4 => 'I' case 5 => 'A' case 6 => 'N' case 7 => 'M' case 8 => 'S'
    case 9 => 'U' case 10 => 'R' case 11 => 'W' case 12 => 'D' case 13 => 'K' case 14 => 'G' case 15 => 'O'
    case 16 => 'H' case 17 => 'V' case 18 => 'F' case 20 => 'L' case 22 => 'P' case 23 => 'J' case 24 => 'B'
    case 25 => 'X' case 26 => 'C' case 27 => 'Y' case 28 => 'Z' case 29 => 'Q'
    case 32 => '5' case 33 => '4' case 35 => '3' case 39 => '2' case 47 => '1' case 48 => '6' case 56 => '7'
    case 60 => '8' case 62 => '9' case 63 => '0'
    case 49 => '=' case 50 => '/' case 76 => '?' case 85 => '.' case 115 => ','
    case _ => '\0'
  }

  datatype Listener = Listener(line: Line, lastUs: nat, accum: u8, spaceEmitted: bool, log: string)
  {
    /** A pulse shifts one element into the accumulator, which zeroes itself on the eighth. */
    function ProcessPulse(pulseUs: nat, ditUs: nat): Listener {
      if accum == 0 then this
      else if accum >= 128 then this.(accum := 0)
      else this.(accum := 2 * accum + (if pulseUs >= 2 * ditUs then 1 else 0))
    }

    function EmitPending(): Listener {
      var ch := if 1 < accum < 128 then Lookup(accum) else '\0';
      this.(accum := 1, log := if ch != '\0' then log + [ch] else log)
    }

    function EmitSpace(): Listener {
      if spaceEmitted then this else this.(log := log + " ", spaceEmitted := true)
    }

    function ProcessGap(gapUs: nat, ditUs: nat): Listener {
      if gapUs >= 6 * ditUs then EmitPending().EmitSpace()
      else if gapUs >= 2 * ditUs then EmitPending()
      else this
    }

    function OnTransition(nowUs: nat, keyDown: bool, wpm: u8): Listener {
      var elapsed := MonusNat(nowUs, lastUs);
      var l :=
        if keyDown then (if line == Up then ProcessGap(elapsed, DitUs(wpm)) else this).(line := Down)
        else (if line == Down then ProcessPulse(elapsed, DitUs(wpm)) else this).(line := Up, spaceEmitted := false);
      l.(lastUs := nowUs)
    }

    function Poll(nowUs: nat, wpm: u8): Listener {
      if line != Up then this else ProcessGap(MonusNat(nowUs, lastUs), DitUs(wpm))
    }

    function Clear(): Listener {
      this.(log := "", accum := 1, spaceEmitted := false, line := Idle)
    }
  }

  const FRESH: Listener := Listener(Idle, 0, 1, false, "")

  function LastChars(log: string): string {
    if |log| <= HISTORY_CAPACITY then log else log[|log| - HISTORY_CAPACITY..]
  }

  /** The decoder as it runs. */
  class Decoder {
    var line: Line
    var lastTransitionUs: nat
    var accum: u8
    var spaceEmitted: bool
    var history: string
    ghost var log: string

    /** The ring holds exactly the last 32 characters ever decoded. */
    ghost predicate Valid()
      reads this
    {
      history == LastChars(log)
    }

    ghost function Listening(): Listener
      reads this
    {
      Listener(line, lastTransitionUs, accum, spaceEmitted, log)
    }

    constructor ()
      ensures Valid() && Listening() == FRESH
    {
      line, lastTransitionUs, accum, spaceEmitted, history, log := Idle, 0, 1, false, "", "";
    }

    method OnTransition(nowUs: nat, keyDown: bool, wpm: u8)
      requires Valid()
      modifies this
      ensures Valid() && Listening() == old(Listening()).OnTransition(nowUs, keyDown, wpm)
    {
      var ditUs := DitUs(wpm);
      var elapsed := MonusNat(nowUs, lastTransitionUs);
      if keyDown {
        if line == Up {
          ProcessGap(elapsed, ditUs);
        }
        line := Down;
      } else {
        if line == Down {
          ProcessPulse(elapsed, ditUs);
        }
        line := Up;
        spaceEmitted := false;
      }
      lastTransitionUs := nowUs;
    }

    method Poll(nowUs: nat, wpm: u8)
      requires Valid()
      modifies this
      ensures Valid() && Listening() == old(Listening()).Poll(nowUs, wpm)
    {
      if line != Up {
        return;
      }
      ProcessGap(MonusNat(nowUs, lastTransitionUs), DitUs(wpm));
    }

    /** Copies the history, oldest first, into `out`, as far as it fits. */
    method Snapshot(out: array<char>) returns (n: nat)
      modifies out
      ensures n == Min(|history|, out.Length)
      ensures out[..n] == history[..n] && out[n..] == old(out[n..])
      ensures Listening() == old(Listening()) && history == old(history)
    {
      n := 0;
      while n < |history| && n < out.Length
        invariant n <= |history| && n <= out.Length
        invariant out[..n] == history[..n] && out[n..] == old(out[n..])
      {
        out[n] := history[n];
        n := n + 1;
      }
    }

    method Clear()
      requires Valid()
      modifies this
      ensures Valid() && Listening() == old(Listening()).Clear()
    {
      history, log := "", "";
      accum := 1;
      spaceEmitted := false;
      line := Idle;
    }

    method ProcessPulse(pulseUs: nat, ditUs: nat)
      requires Valid()
      modifies this
      ensures Valid() && Listening() == old(Listening()).ProcessPulse(pulseUs, ditUs)
    {
      if accum == 0 {
        return;
      }
      if accum >= 128 {
        accum := 0;
        return;
      }
      var bit := if pulseUs >= 2 * ditUs then 1 else 0;
      accum := 2 * accum + bit;
    }

    method ProcessGap(gapUs: nat, ditUs: nat)
      requires Valid()
      modifies this
      ensures Valid() && Listening() == old(Listening()).ProcessGap(gapUs, ditUs)
    {
      hide Listener.EmitPending;
      if gapUs >= 6 * ditUs {
        EmitPending();
        if !spaceEmitted {
          PushChar(' ');
          spaceEmitted := true;
        }
      } else if gapUs >= 2 * ditUs {
        EmitPending();
      }
    }

    method EmitPending()
      requires Valid()
      modifies this
      ensures Valid() && Listening() == old(Listening()).EmitPending()
    {
      hide Lookup;
      if accum > 1 && accum < 128 {
        var ch := Lookup(accum);
        if ch != '\0' {
          PushChar(ch);
        }
      }
      accum := 1;
    }

    method PushChar(ch: char)
      requires Valid()
      modifies this
      ensures Valid() && Listening() == old(Listening()).(log := old(log) + [ch])
    {
      if |history| == HISTORY_CAPACITY {
        history := history[1..];
      }
      history := history + [ch];
      log := log + [ch];
    }
  }

  /** The history is the last 32 characters of the log, or all of it. */
  lemma {:induction false} HistoryIsNewest(log: string)
    ensures var h := LastChars(log);
      && |h| == Min(32, |log|)
      && forall i :: 0 <= i < |h| ==> h[i] == log[|log| - |h| + i]
  {}
}
