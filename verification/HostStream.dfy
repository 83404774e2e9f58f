/** What the streaming client transmits over any number of sub-frames, and what the emulator hears of it. */
module HostStream {
  import opened Base
  import opened Samples
  import opened IqCodec
  import opened Emulator
  import opened HostRadio
  import opened ControlRotation

  /** The producer adds samples, or a sub-frame goes out. */
  datatype Event = Produced(samples: seq<Complex>) | Sent(ptt: bool)

  /** The samples of each sub-frame of a history, and what is still to be sent after it. */
  function Play(stream: seq<Complex>, events: seq<Event>): (seq<seq<Complex>>, seq<Complex>)
    decreases |events|
  {
    if events == [] then ([], stream)
    else match events[0]
      case Produced(s) => Play(stream + s, events[1..])
      case Sent(ptt) =>
        var out := if ptt then Oldest63(stream) else [];
        var (outs, rest) := Play(stream[|out|..], events[1..]);
        ([out] + outs, rest)
  }

  function Concat(ss: seq<seq<Complex>>): seq<Complex> { if ss == [] then [] else ss[0] + Concat(ss[1..]) }

  function AllProduced(events: seq<Event>): seq<Complex> {
    if events == [] then []
    else (if events[0].Produced? then events[0].samples else []) + AllProduced(events[1..])
  }

  /**
   Whatever is produced and sent in whatever order: what has been sent, followed by what is still to be sent, is
   what there was followed by what has been produced; nothing is lost, repeated or reordered.
   */
  lemma {:induction false} NothingLost(stream: seq<Complex>, events: seq<Event>)
    ensures var (outs, rest) := Play(stream, events); Concat(outs) + rest == stream + AllProduced(events)
    decreases |events|
  {
    hide Play, Concat, AllProduced, Oldest63;
    if events == [] {
      NothingSent(stream, events);
      ProducedFirst(events);
      assert [] + stream == stream + [];
    } else {
      var rest := events[1..];
      ProducedFirst(events);
      match events[0] {
        case Produced(s) =>
          PlayProduced(stream, events, s);
          NothingLost(stream + s, rest);
          assert stream + s + AllProduced(rest) == stream + (s + AllProduced(rest));
        case Sent(ptt) =>
          var out := if ptt then Oldest63(stream) else [];
          if ptt { OldestIsPrefix(stream); }
          PlaySent(stream, events, ptt);
          NothingLost(stream[|out|..], rest);
          Rejoin(stream, out, Concat(Play(stream[|out|..], rest).0), Play(stream[|out|..], rest).1, AllProduced(rest));
      }
    }
  }

  lemma {:induction false} Rejoin(stream: seq<Complex>, out: seq<Complex>, sent: seq<Complex>, rest: seq<Complex>,
                                  more: seq<Complex>)
    requires |out| <= |stream| && out == stream[..|out|] && sent + rest == stream[|out|..] + more
    ensures out + sent + rest == stream + more
  {
    assert out + sent + rest == out + (sent + rest);
    assert stream + more == out + (stream[|out|..] + more);
  }

  lemma {:induction false} ProducedFirst(events: seq<Event>)
    ensures AllProduced([]) == []
    ensures events != [] ==>
      AllProduced(events)
        == if events[0].Produced? then events[0].samples + AllProduced(events[1..]) else AllProduced(events[1..])
  {
    if events != [] { assert [] + AllProduced(events[1..]) == AllProduced(events[1..]); }
  }

  lemma {:induction false} PlayProduced(stream: seq<Complex>, events: seq<Event>, s: seq<Complex>)
    requires events != [] && events[0] == Produced(s)
    ensures Play(stream, events) == Play(stream + s, events[1..])
  {}

  /** `k` sub-frames in a row with the same PTT. */
  function InARow(k: nat, ptt: bool): (e: seq<Event>)
    ensures |e| == k && (forall i :: 0 <= i < k ==> e[i] == Sent(ptt))
  {
    seq(k, i => Sent(ptt))
  }

  /**
   With PTT on, `k` sub-frames carry together the first 63 k samples of the stream, or all of it; without PTT
   they carry nothing and the stream stays as it is.
   */
  lemma {:induction false} SentInARow(stream: seq<Complex>, k: nat, ptt: bool)
    ensures var (outs, rest) := Play(stream, InARow(k, ptt)); var n := if ptt then Min(63 * k, |stream|) else 0;
      |outs| == k && Concat(outs) == stream[..n] && rest == stream[n..]
      && forall i :: 0 <= i < k ==> |outs[i]| <= 63
    decreases k
  {
    hide Oldest63, Play, Concat;
    if k == 0 {
      NothingSent(stream, InARow(k, ptt));
    } else {
      var events := InARow(k, ptt);
      assert events[1..] == InARow(k - 1, ptt);
      var out := if ptt then Oldest63(stream) else [];
      if ptt { OldestIsPrefix(stream); }
      PlaySent(stream, events, ptt);
      SentInARow(stream[|out|..], k - 1, ptt);
      TwoPieces(stream, |out|, if ptt then Min(63 * (k - 1), |stream| - |out|) else 0);
    }
  }

  lemma {:induction false} NothingSent(stream: seq<Complex>, events: seq<Event>)
    requires events == []
    ensures Play(stream, events) == ([], stream) && Concat([]) == [] == stream[..0] && stream == stream[0..]
  {}

  lemma {:induction false} PlaySent(stream: seq<Complex>, events: seq<Event>, ptt: bool)
    requires events != [] && events[0] == Sent(ptt)
    ensures var out := if ptt then Oldest63(stream) else [];
      var (outs, rest) := Play(stream[|out|..], events[1..]);
      Play(stream, events) == ([out] + outs, rest) && Concat([out] + outs) == out + Concat(outs)
  {
    hide Oldest63;
    var out := if ptt then Oldest63(stream) else [];
    var outs := Play(stream[|out|..], events[1..]).0;
    assert ([out] + outs)[1..] == outs;
  }

  lemma {:induction false} OldestIsPrefix(stream: seq<Complex>)
    ensures Oldest63(stream) == stream[..Min(63, |stream|)]
  {}

  lemma {:induction false} TwoPieces(s: seq<Complex>, a: nat, n: nat)
    requires a + n <= |s|
    ensures s[..a] + s[a..][..n] == s[..a + n] && s[a..][n..] == s[a + n..]
  {}

  /** What the emulator takes from one sub-frame of the client. */
  function Heard(cmd: Command, out: seq<Complex>, cw: bool): (r: seq<Complex>)
    requires |out| <= 63
    ensures |r| == 63
  {
    TxSamples(HostBytes(cmd, out, cw)[8..], 63)
  }

  /** What the emulator takes from `k` sub-frames in a row with PTT on, as the client sends them from a stream. */
  function HeardInARow(stream: seq<Complex>, cmds: seq<Command>, cw: bool): seq<Complex>
    decreases |cmds|
  {
    if cmds == [] then []
    else Heard(cmds[0], Oldest63(stream), cw) + HeardInARow(stream[|Oldest63(stream)|..], cmds[1..], cw)
  }

  /**
   From the client's stream to the emulator: sub-frames in a row with PTT on, with any commands, are heard as
   the quantised conjugates of the stream, 63 samples each and in order, followed by silence once it has run
   dry.
   */
  lemma {:induction false} StreamHeard(stream: seq<Complex>, cmds: seq<Command>, cw: bool, j: nat)
    requires j < 63 * |cmds|
    ensures var heard := HeardInARow(stream, cmds, cw);
      |heard| == 63 * |cmds| && heard[j] == if j < |stream| then HeardSample(stream[j]) else ZERO
    decreases |cmds|
  {
    hide Heard, HeardSample;
    HeardLength(stream, cmds, cw);
    var out := Oldest63(stream);
    var rest := stream[|out|..];
    HeardLength(rest, cmds[1..], cw);
    if j < 63 {
      HeardAt(cmds[0], out, cw, j);
    } else {
      StreamHeard(rest, cmds[1..], cw, j - 63);
    }
  }

  lemma {:induction false} HeardAt(cmd: Command, out: seq<Complex>, cw: bool, j: nat)
    requires |out| <= 63 && j < 63
    ensures Heard(cmd, out, cw)[j] == if j < |out| then HeardSample(out[j]) else ZERO
  {
    hide HostBytes, TxSamples, HeardSample;
    HostSamplesHeard(cmd, out, cw, j);
  }

  lemma {:induction false} HeardLength(stream: seq<Complex>, cmds: seq<Command>, cw: bool)
    ensures |HeardInARow(stream, cmds, cw)| == 63 * |cmds|
    decreases |cmds|
  {
    hide Heard;
    if cmds != [] { HeardLength(stream[|Oldest63(stream)|..], cmds[1..], cw); }
  }
}
