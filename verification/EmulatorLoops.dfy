/** The emulator's loops: recorded from the frames of its clients, committed on the last release, played for ever. */
module EmulatorLoops {
  import opened Base
  import opened Samples
  import opened LiveBuffers
  import opened LoopEcho
  import opened EchoBuffers
  import opened IqCodec
  import opened Emulator
  import opened Refcounts
  import opened EchoTape
  import opened EmulatorBuffers
  import opened LoopTape
  import HostRadio
  import ControlRotation

  /** What the frames of a run mean for one frequency. */
  function RunNote(fade: Fade, steps: seq<Step>, f: u32): Note {
    JotAll(UNUSED, RunCalls(Vacant(LoopMode, fade), steps), f, 10.0)
  }

  lemma {:induction false} BlankRecorded(fade: Fade, f: u32)
    ensures Recorded(Blank(LoopMode, fade).echo, f, UNUSED)
  {}

  /**
   In every run of the emulator in loop mode, the recording of every frequency is the newest part of what the
   clients' frames have fed in its session, with the silence of its pauses; with one sample rate, as much of
   it as ten seconds hold.
   */
  lemma {:induction false} EmulatorRecords(fade: Fade, steps: seq<Step>, f: u32, rate: u32)
    ensures Recorded(TakeAll(Vacant(LoopMode, fade), steps).echo, f, RunNote(fade, steps, f))
    ensures OneRate(RunCalls(Vacant(LoopMode, fade), steps), f, rate) ==> Full(RunNote(fade, steps, f), rate, 10.0)
  {
    hide TakeAll, RunCalls, Recorded, Full, JotAll;
    var calls := RunCalls(Vacant(LoopMode, fade), steps);
    BlankRecorded(fade, f);
    LoopKept(Blank(LoopMode, fade), calls, f, UNUSED);
    RunEcho(LoopMode, fade, steps);
    if OneRate(calls, f, rate) {
      UnusedFull(rate);
      LoopFull(UNUSED, calls, f, rate, 10.0);
    }
  }

  lemma {:induction false} UnusedFull(rate: u32)
    ensures Full(UNUSED, rate, 10.0)
  {}

  lemma {:induction false} JotSplit(n: Note, a: seq<Call>, b: seq<Call>, f: u32)
    ensures JotAll(n, a + b, f, 10.0) == JotAll(JotAll(n, a, f, 10.0), b, f, 10.0)
    decreases |a|
  {
    hide Jot;
    if a == [] {
      assert a + b == b;
    } else {
      assert (a + b)[1..] == a[1..] + b;
      JotSplit(Jot(n, a[0], f, 10.0), a[1..], b, f);
    }
  }

  lemma {:induction false} JotOne(n: Note, c: Call, f: u32)
    ensures JotAll(n, [c], f, 10.0) == Jot(n, c, f, 10.0)
  {
    hide Jot;
    assert [c][1..] == [];
  }

  /** The calls of a run up to the feed of a transmission. */
  function CallsUpTo(fade: Fade, x: Transmission): seq<Call>
    requires x.OnAir(fade)
  {
    RunCalls(Vacant(LoopMode, fade), x.before) + CallsBefore(x.Sender(fade), x.data, x.t0, x.t1, x.half)
  }

  /**
   From a client's host into the loop. A client sends a sub-frame of its host with PTT on: the session of the
   frequency it is locked to grows by 63 samples, the quantised conjugates of those sent and silence after
   them, and whatever follows continues from there.
   */
  lemma {:induction false} TransmittedIsRecorded(fade: Fade, x: Transmission, after: seq<Step>,
                                                 cmd: HostRadio.Command, samples: seq<Complex>, cw: bool)
    requires x.OnAir(fade) && x.mode == LoopMode && |samples| <= 63
    requires Half(x.data, x.half) == HostRadio.HostBytes(cmd, samples, cw)
    ensures var f := x.Freq(fade); var n := JotAll(UNUSED, CallsUpTo(fade, x), f, 10.0);
      var s := SubframeSamples(Half(x.data, x.half));
      && n.active > 0
      && (forall k :: 0 <= k < 63 ==>
           s[k] == if k < |samples| then ControlRotation.HeardSample(samples[k]) else ZERO)
      && RunNote(fade, x.Steps(after), f) == JotAll(
           n.(stream := n.stream + s, kept := Min(n.kept + 63, SamplesIn(n.rate, 10.0))), x.Later(fade, after), f, 10.0)
  {
    hide InStep, Heeded, CallsUpTo, RunCalls, TakeAll, Half, ClientAfter, ClientAt, Synced, Jot, JotAll, Recorded,
         HostRadio.HostBytes, TxSamples, ControlRotation.HeardSample, Transmission.Later, Transmission.Freq,
         Transmission.Tape, Transmission.OnAir;
    var f := x.Freq(fade);
    CallsAround(fade, x, after);
    var calls, feed := CallsUpTo(fade, x), x.Feed(fade);
    JotSplit(UNUSED, calls + [feed], x.Later(fade, after), f);
    JotSplit(UNUSED, calls, [feed], f);
    JotOne(JotAll(UNUSED, calls, f, 10.0), feed, f);
    RecordedUpTo(fade, x);
    TransmissionLands(fade, x, after);
    FeedJots(x.Tape(fade).echo, JotAll(UNUSED, calls, f, 10.0), feed, f);
    SamplesHeard(fade, x, cmd, samples, cw);
  }

  lemma {:induction false} SamplesHeard(fade: Fade, x: Transmission, cmd: HostRadio.Command, samples: seq<Complex>,
                                        cw: bool)
    requires x.OnAir(fade) && |samples| <= 63 && Half(x.data, x.half) == HostRadio.HostBytes(cmd, samples, cw)
    ensures var s := SubframeSamples(Half(x.data, x.half)); forall k :: 0 <= k < 63 ==>
      s[k] == if k < |samples| then ControlRotation.HeardSample(samples[k]) else ZERO
  {
    hide Half, HostRadio.HostBytes, TxSamples, ControlRotation.HeardSample;
    forall k: nat | k < 63
      ensures SubframeSamples(Half(x.data, x.half))[k]
        == if k < |samples| then ControlRotation.HeardSample(samples[k]) else ZERO
    {
      ControlRotation.HostSamplesHeard(cmd, samples, cw, k);
    }
  }

  /** The calls of the whole run, around the feed of the transmission. */
  lemma {:induction false} CallsAround(fade: Fade, x: Transmission, after: seq<Step>)
    requires x.OnAir(fade) && x.mode == LoopMode
    ensures RunCalls(Vacant(LoopMode, fade), x.Steps(after))
      == CallsUpTo(fade, x) + [x.Feed(fade)] + x.Later(fade, after)
  {
    hide InStep, CallsBefore, RunCalls, TakeAll, Transmission.Later, Transmission.Feed, Transmission.Sender;
    NobodyInStep(LoopMode, fade);
    RunInStep(Vacant(LoopMode, fade), x.before);
    TransmissionCalls(fade, x, after);
  }

  /** Right before the feed, the recorder holds what the calls up to it mean. */
  lemma {:induction false} RecordedUpTo(fade: Fade, x: Transmission)
    requires x.OnAir(fade) && x.mode == LoopMode
    ensures Recorded(x.Tape(fade).echo, x.Freq(fade), JotAll(UNUSED, CallsUpTo(fade, x), x.Freq(fade), 10.0))
  {
    hide Recorded, CallsBefore, RunCalls, TakeAll, JotAll, RecordAll, Transmission.Freq, Transmission.Sender;
    var f := x.Freq(fade);
    BlankRecorded(fade, f);
    LoopKept(Blank(LoopMode, fade), CallsUpTo(fade, x), f, UNUSED);
    RecordSplit(Blank(LoopMode, fade), RunCalls(Vacant(LoopMode, fade), x.before),
                CallsBefore(x.Sender(fade), x.data, x.t0, x.t1, x.half));
  }

  lemma {:induction false} FeedJots(e: Echo, n: Note, c: Call, f: u32)
    requires Heeded(e, c) && c.freq == f && Recorded(e, f, n)
    ensures n.active > 0 && Jot(n, c, f, 10.0)
      == n.(stream := n.stream + c.samples, kept := Min(n.kept + |c.samples|, SamplesIn(n.rate, 10.0)))
  {
    hide SamplesIn, Newest, Lands;
  }

  /**
   When the last client that is locked to a frequency releases PTT, by a sub-frame or by leaving, the loop of that
   frequency is made of exactly what the frames have recorded there.
   */
  lemma {:induction false} ReleaseCommits(fade: Fade, steps: seq<Step>, a: SocketAddr, sf: seq<u8>, now: nat)
    requires var w := TakeAll(Vacant(LoopMode, fade), steps);
      a in w.clients && w.clients[a].recordingFreq.Some? && w.clients[a].recordingFreq.value != 0
    requires Synced(sf) && sf[3] % 2 == 0
    ensures var w := TakeAll(Vacant(LoopMode, fade), steps); var f := w.clients[a].recordingFreq.value;
      var n := RunNote(fade, steps, f); var m := Take(w, Leave(a, now)).echo;
      var max := SamplesIn(n.rate, 10.0); var kept := Oldest(n.Recording(), max);
      && Subframe(w.clients[a], Some(w.echo), sf, now).1 == Some(m)
      && (n.kept <= max ==> kept == n.Recording()) && n.active == |Users(w.clients, f)|
      && if n.active != 1 || Silent(kept) then m.echoes == w.echo.echoes
         else f in m.echoes && LoopOf(Trim(kept), n.rate, max, m.echoes[f])
  {
    hide TakeAll, RunNote, Users, LoopOf, Trim, Silent, Oldest, Note.Recording, Echo.StopRecording, SamplesIn, InStep,
         Subframe;
    var w := TakeAll(Vacant(LoopMode, fade), steps);
    var f := w.clients[a].recordingFreq.value;
    EmulatorRecords(fade, steps, f, 0);
    NobodyInStep(LoopMode, fade);
    RunInStep(Vacant(LoopMode, fade), steps);
    RunDuration(fade, steps);
    CountsUsers(w, f);
    InStepClient(w, a);
    LastStopCommits(w.echo, f, RunNote(fade, steps, f), w.clients[a].addr, now);
    SubframeReleases(w.clients[a], w.echo, sf, now);
  }

  /** A sub-frame with PTT off does to the echo buffer what leaving does. */
  lemma {:induction false} SubframeReleases(c: Client, e: Echo, sf: seq<u8>, now: nat)
    requires Locked(c) && Synced(sf) && sf[3] % 2 == 0
    ensures Subframe(c, Some(e), sf, now).1 == Some(KeyOff(c, e, now).1)
  {
    hide Client.ProcessControl, Echo.StopRecording, TxSamples;
    PttCommanded(c, sf);
    ControlKeepsLock(c, sf[3], sf[4], sf[5], sf[6], sf[7]);
  }

  lemma {:induction false} CountsUsers(w: World, f: u32)
    requires InStep(w)
    ensures w.echo.Active(f) == |Users(w.clients, f)|
  {}

  lemma {:induction false} RunDuration(fade: Fade, steps: seq<Step>)
    ensures TakeAll(Vacant(LoopMode, fade), steps).echo.maxDuration == 10.0
  {
    hide TakeAll, RunCalls, Recorded;
    BlankRecorded(fade, 0);
    LoopKept(Blank(LoopMode, fade), RunCalls(Vacant(LoopMode, fade), steps), 0, UNUSED);
    RunEcho(LoopMode, fade, steps);
  }
}
