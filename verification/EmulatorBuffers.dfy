/** Whatever hosts send, the emulator's live buffers hold exactly the samples of their frames, and readers get them. */
module EmulatorBuffers {
  import opened Base
  import opened Samples
  import opened LiveBuffers
  import LiveTimeline
  import opened LoopEcho
  import opened EchoBuffers
  import opened IqCodec
  import opened Emulator
  import opened Refcounts
  import opened EchoTape
  import Playback
  import HostRadio
  import ControlRotation

  // ---- the calls behind a frame --------------------------------------------------------------------

  /** The samples of a sub-frame, as the emulator takes them from its bytes. */
  function SubframeSamples(sf: seq<u8>): (s: seq<Complex>)
    requires Synced(sf)
    ensures |s| == MAX_TX_IQ_SAMPLES
  {
    TxSamples(sf[8..], MAX_TX_IQ_SAMPLES)
  }

  function Commanded(c: Client, sf: seq<u8>): Client
    requires Synced(sf)
  {
    c.ProcessControl(sf[3], sf[4], sf[5], sf[6], sf[7])
  }

  /** The frequency lock after a sub-frame that has left `m` with its settings. */
  function LockAfter(m: Client, changed: bool): Option<u32> {
    if changed then (if m.ptt then Some(m.txFrequency) else None) else m.recordingFreq
  }

  /** The client after a sub-frame; the echo buffer plays no part in it. */
  function ClientAfter(c: Client, sf: seq<u8>): Client {
    if !Synced(sf) then c
    else var m := Commanded(c, sf); m.(recordingFreq := LockAfter(m, m.ptt != c.ptt))
  }

  /** The calls of the echo buffer that a sub-frame causes. */
  function SubframeCalls(c: Client, sf: seq<u8>, now: nat): seq<Call> {
    if !Synced(sf) then []
    else
      var m := Commanded(c, sf);
      var changed := m.ptt != c.ptt;
      var lock := LockAfter(m, changed);
      if m.ptt then
        (if changed then [Started(m.txFrequency, m.addr, m.sampleRate, now)] else [])
        + (if lock.Some? then [Fed(lock.value, m.addr, SubframeSamples(sf))] else [])
      else if changed && m.recordingFreq.Some? then [Stopped(m.recordingFreq.value, m.addr, now)]
      else []
  }

  function FrameCalls(c: Client, data: seq<u8>, t0: nat, t1: nat): seq<Call> {
    if |data| < PACKET_SIZE then []
    else SubframeCalls(c, data[8..520], t0) + SubframeCalls(ClientAfter(c, data[8..520]), data[520..1032], t1)
  }

  function StepCalls(w: World, s: Step): seq<Call> {
    match s
    case Join(_, _) => []
    case Host(a, data, t0, t1) => if a in w.clients then FrameCalls(w.clients[a], data, t0, t1) else []
    case Leave(a, now) =>
      if a in w.clients && w.clients[a].recordingFreq.Some?
      then [Stopped(w.clients[a].recordingFreq.value, w.clients[a].addr, now)] else []
  }

  function RunCalls(w: World, steps: seq<Step>): seq<Call>
    decreases |steps|
  {
    if steps == [] then [] else StepCalls(w, steps[0]) + RunCalls(Take(w, steps[0]), steps[1..])
  }

  function CallAll(e: Echo, calls: seq<Call>): Echo
    decreases |calls|
  {
    if calls == [] then e else CallAll(CallOn(e, calls[0]), calls[1..])
  }

  lemma {:induction false} CallSplit(e: Echo, a: seq<Call>, b: seq<Call>)
    ensures CallAll(e, a + b) == CallAll(CallAll(e, a), b)
    decreases |a|
  {
    hide CallOn;
    if a == [] {
      assert a + b == b;
    } else {
      assert (a + b)[1..] == a[1..] + b;
      CallSplit(CallOn(e, a[0]), a[1..], b);
    }
  }

  lemma {:induction false} CallTwo(e: Echo, a: Call, b: Call)
    ensures CallAll(e, []) == e && CallAll(e, [a]) == CallOn(e, a)
    ensures CallAll(e, [a] + [b]) == CallOn(CallOn(e, a), b)
  {
    hide CallOn;
    assert [a][1..] == [] && ([a] + [b])[1..] == [b] && [b][1..] == [];
    assert CallAll(CallOn(e, a), [b]) == CallOn(CallOn(e, a), b);
  }

  lemma {:induction false} TapeEcho(t: Tape, calls: seq<Call>)
    ensures RecordAll(t, calls).echo == CallAll(t.echo, calls)
    decreases |calls|
  {
    hide CallOn, Restarts, Lands;
    if calls != [] { TapeEcho(Record(t, calls[0]), calls[1..]); }
  }

  /** A sub-frame of any bytes does exactly its calls on the echo buffer. */
  lemma {:induction false} SubframeIsCalls(c: Client, e: Echo, sf: seq<u8>, now: nat)
    requires Locked(c)
    ensures Subframe(c, Some(e), sf, now) == (ClientAfter(c, sf), Some(CallAll(e, SubframeCalls(c, sf, now))))
    ensures Locked(ClientAfter(c, sf)) && ClientAfter(c, sf).addr == c.addr
  {
    hide Client.ProcessControl, Echo.StartRecording, Echo.Feed, Echo.StopRecording, CallAll;
    if Synced(sf) {
      var m := Commanded(c, sf);
      ControlKeepsLock(c, sf[3], sf[4], sf[5], sf[6], sf[7]);
      var start := Started(m.txFrequency, m.addr, m.sampleRate, now);
      var lock := LockAfter(m, m.ptt != c.ptt);
      if m.ptt {
        var feed := Fed(lock.value, m.addr, SubframeSamples(sf));
        CallTwo(e, start, feed);
        CallTwo(e, feed, feed);
        assert [] + [feed] == [feed];
      } else if m.recordingFreq.Some? {
        var stop := Stopped(m.recordingFreq.value, m.addr, now);
        CallTwo(e, stop, stop);
      } else {
        CallTwo(e, start, start);
      }
    } else {
      CallTwo(e, Stopped(0, c.addr, now), Stopped(0, c.addr, now));
    }
  }

  lemma {:induction false} FrameIsCalls(c: Client, e: Echo, data: seq<u8>, t0: nat, t1: nat)
    requires Locked(c)
    ensures Frame(c, Some(e), data, t0, t1).1 == Some(CallAll(e, FrameCalls(c, data, t0, t1)))
  {
    hide Subframe, SubframeCalls, ClientAfter, Locked;
    if |data| >= PACKET_SIZE {
      var a, d := SubframeCalls(c, data[8..520], t0), ClientAfter(c, data[8..520]);
      SubframeIsCalls(c, e, data[8..520], t0);
      SubframeIsCalls(d, CallAll(e, a), data[520..1032], t1);
      CallSplit(e, a, SubframeCalls(d, data[520..1032], t1));
    }
  }

  lemma {:induction false} StepIsCalls(w: World, s: Step)
    requires InStep(w)
    ensures Take(w, s).echo == CallAll(w.echo, StepCalls(w, s))
  {
    hide InStep, Frame, FrameCalls, Locked, Echo.StopRecording;
    match s {
      case Join(_, _) =>
      case Host(a, data, t0, t1) =>
        if a in w.clients {
          InStepClient(w, a);
          FrameIsCalls(w.clients[a], w.echo, data, t0, t1);
        }
      case Leave(a, now) =>
        if a in w.clients && w.clients[a].recordingFreq.Some? {
          var stop := Stopped(w.clients[a].recordingFreq.value, w.clients[a].addr, now);
          CallTwo(w.echo, stop, stop);
        }
    }
  }

  /** A run of the emulator is the run of its calls. */
  lemma {:induction false} RunIsCalls(w: World, steps: seq<Step>)
    requires InStep(w)
    ensures TakeAll(w, steps).echo == CallAll(w.echo, RunCalls(w, steps))
    decreases |steps|
  {
    hide InStep, Take, StepCalls;
    if steps != [] {
      StepIsCalls(w, steps[0]);
      RunInStep(w, [steps[0]]);
      OneStep(w, steps[0]);
      RunIsCalls(Take(w, steps[0]), steps[1..]);
      CallSplit(w.echo, StepCalls(w, steps[0]), RunCalls(Take(w, steps[0]), steps[1..]));
    }
  }

  lemma {:induction false} OneStep(w: World, s: Step)
    ensures TakeAll(w, [s]) == Take(w, s) && RunCalls(w, [s]) == StepCalls(w, s)
  {
    hide Take, StepCalls;
    assert [s][1..] == [];
    assert StepCalls(w, s) + [] == StepCalls(w, s);
  }

  lemma {:induction false} RunSplit(w: World, a: seq<Step>, b: seq<Step>)
    ensures TakeAll(w, a + b) == TakeAll(TakeAll(w, a), b)
    ensures RunCalls(w, a + b) == RunCalls(w, a) + RunCalls(TakeAll(w, a), b)
    decreases |a|
  {
    hide Take, StepCalls;
    if a == [] {
      assert a + b == b;
    } else {
      assert (a + b)[1..] == a[1..] + b;
      RunSplit(Take(w, a[0]), a[1..], b);
    }
  }

  // ---- sample rates ------------------------------------------------------------------------------------

  predicate ClientsWithin(w: World, rate: u32) { forall a :: a in w.clients ==> w.clients[a].sampleRate <= rate }

  predicate JoinsWithin(steps: seq<Step>, rate: u32) {
    forall i :: 0 <= i < |steps| && steps[i].Join? ==> steps[i].rate <= rate
  }

  lemma {:induction false} SubframeRate(c: Client, sf: seq<u8>, now: nat, rate: u32)
    requires c.sampleRate <= rate && 384_000 <= rate
    ensures ClientAfter(c, sf).sampleRate <= rate && RatesWithin(SubframeCalls(c, sf, now), rate)
  {
    hide Word32, TxSamples;
  }

  lemma {:induction false} StepRates(w: World, s: Step, rate: u32)
    requires InStep(w) && ClientsWithin(w, rate) && 384_000 <= rate && (s.Join? ==> s.rate <= rate)
    ensures ClientsWithin(Take(w, s), rate) && RatesWithin(StepCalls(w, s), rate)
  {
    hide InStep, Subframe, SubframeCalls, ClientAfter, Locked, KeyOff;
    if s.Host? && s.addr in w.clients && |s.data| >= PACKET_SIZE {
      InStepClient(w, s.addr);
      var c := w.clients[s.addr];
      var d := ClientAfter(c, s.data[8..520]);
      SubframeRate(c, s.data[8..520], s.t0, rate);
      SubframeRate(d, s.data[520..1032], s.t1, rate);
      SubframeIsCalls(c, w.echo, s.data[8..520], s.t0);
      SubframeIsCalls(d, CallAll(w.echo, SubframeCalls(c, s.data[8..520], s.t0)), s.data[520..1032], s.t1);
    }
  }

  lemma {:induction false} RunRates(w: World, steps: seq<Step>, rate: u32)
    requires InStep(w) && ClientsWithin(w, rate) && 384_000 <= rate && JoinsWithin(steps, rate)
    ensures RatesWithin(RunCalls(w, steps), rate)
    decreases |steps|
  {
    hide InStep, Take, StepCalls, ClientsWithin;
    if steps != [] {
      StepRates(w, steps[0], rate);
      RunInStep(w, [steps[0]]);
      OneStep(w, steps[0]);
      RunRates(Take(w, steps[0]), steps[1..], rate);
    }
  }

  // ---- every run -----------------------------------------------------------------------------------------

  /** The emulator with a fresh echo buffer and no clients. */
  function Vacant(mode: EchoMode, fade: Fade): World { World(map[], Blank(mode, fade).echo) }

  /** The tape of a run: what its frames have fed into each frequency since that was last restarted. */
  function RunTape(mode: EchoMode, fade: Fade, steps: seq<Step>): Tape {
    RecordAll(Blank(mode, fade), RunCalls(Vacant(mode, fade), steps))
  }

  lemma {:induction false} BlankSound(mode: EchoMode, fade: Fade, rate: u32)
    ensures Windows(Blank(mode, fade)) && Loops(Blank(mode, fade).echo, rate) && ClientsWithin(Vacant(mode, fade), rate)
  {}

  /**
   In every run of the emulator, each live buffer is the window, from its drain head on, of the sum of
   exactly the samples that the clients' frames have fed into it since it was last restarted, as many of
   them as its first client's rate fills the maximum duration with, and each
   committed loop can be played and keeps the bound of the highest rate in use.
   */
  lemma {:induction false} EmulatorSound(mode: EchoMode, fade: Fade, steps: seq<Step>, rate: u32)
    requires 384_000 <= rate && JoinsWithin(steps, rate)
    ensures var e := TakeAll(Vacant(mode, fade), steps).echo; var t := RunTape(mode, fade, steps);
      && t.echo == e
      && (forall f :: f in e.live ==> LiveTimeline.Window(LiveTimeline.World(e.live[f], t.Log(f))))
      && (mode == LiveMode ==> Sized(e))
      && (forall f :: f in e.echoes ==> f != 0 && 0 < |e.echoes[f]| <= SamplesIn(rate, 10.0))
  {
    hide TakeAll, RunCalls, RecordAll, LiveTimeline.Window, LiveReady, SamplesIn;
    NobodyInStep(mode, fade);
    BlankSound(mode, fade, rate);
    RunIsCalls(Vacant(mode, fade), steps);
    TapeEcho(Blank(mode, fade), RunCalls(Vacant(mode, fade), steps));
    TapeWindows(Blank(mode, fade), RunCalls(Vacant(mode, fade), steps));
    if mode == LiveMode { TapeSized(Blank(mode, fade), RunCalls(Vacant(mode, fade), steps)); }
    RunRates(Vacant(mode, fade), steps, rate);
    TapeLoops(Blank(mode, fade), RunCalls(Vacant(mode, fade), steps), rate);
  }

  // ---- from one client's frame to another client's reader ------------------------------------------------

  /** A feed that is recorded; in live mode it lands in the live buffer. */
  predicate Heeded(e: Echo, c: Call) {
    c.Fed? && c.samples != [] && e.IsRecordingOn(c.freq) && (e.mode == LiveMode ==> Lands(e, c))
  }

  /** A sub-frame with PTT on ends with the feed of its samples, and that is heeded. */
  lemma {:induction false} SubframeLands(w: World, a: SocketAddr, sf: seq<u8>, now: nat)
    requires InStep(w) && a in w.clients && Synced(sf) && sf[3] % 2 == 1
    ensures var calls := SubframeCalls(w.clients[a], sf, now); var n := |calls| - 1;
      && n >= 0 && ClientAfter(w.clients[a], sf).recordingFreq.Some?
      && calls[n] == Fed(ClientAfter(w.clients[a], sf).recordingFreq.value, a, SubframeSamples(sf))
      && Heeded(CallAll(w.echo, calls[..n]), calls[n])
  {
    hide Subframe, LiveReady, Users, Writers, TxSamples, Holds, CallAll, CallOn, Echo.Active, Client.ProcessControl,
         SubframeCalls, ClientAfter, SubframeSamples, Lands, Follows, Locked;
    var c := w.clients[a];
    LastIsFeed(c, sf, now);
    SubframeFollows(c, w.echo, sf, now);
    SubframeIsCalls(c, w.echo, sf, now);
    var calls := SubframeCalls(c, sf, now);
    var n := |calls| - 1;
    var d, e := ClientAfter(c, sf), CallAll(w.echo, calls);
    UpdateInStep(w, a, d, e);
    var before := CallAll(w.echo, calls[..n]);
    assert calls == calls[..n] + [calls[n]];
    CallSplit(w.echo, calls[..n], [calls[n]]);
    CallTwo(before, calls[n], calls[n]);
    BeforeReady(w.echo, calls[..n]);
    HoldsLock(d);
    LandsFrom(World(w.clients[a := d], e), a, before, calls[n]);
  }

  lemma {:induction false} HoldsLock(d: Client)
    ensures d.recordingFreq.Some? ==> Holds(d, d.recordingFreq.value)
  {}

  lemma {:induction false} LastIsFeed(c: Client, sf: seq<u8>, now: nat)
    requires Locked(c) && Synced(sf) && sf[3] % 2 == 1
    ensures var calls := SubframeCalls(c, sf, now); var n := |calls| - 1;
      && n >= 0 && ClientAfter(c, sf).recordingFreq.Some?
      && calls[n] == Fed(ClientAfter(c, sf).recordingFreq.value, c.addr, SubframeSamples(sf))
  {
    hide Client.ProcessControl, SubframeSamples;
    PttCommanded(c, sf);
    ControlKeepsLock(c, sf[3], sf[4], sf[5], sf[6], sf[7]);
  }

  lemma {:induction false} PttCommanded(c: Client, sf: seq<u8>)
    requires Synced(sf)
    ensures Commanded(c, sf).ptt == (sf[3] % 2 == 1)
  {
    hide Word32;
  }

  lemma {:induction false} BeforeReady(e: Echo, calls: seq<Call>)
    requires LiveReady(e)
    ensures LiveReady(CallAll(e, calls)) && CallAll(e, calls).mode == e.mode
    decreases |calls|
  {
    hide LiveReady, CallOn;
    if calls != [] {
      CallReady(e, calls[0]);
      BeforeReady(CallOn(e, calls[0]), calls[1..]);
    }
  }

  /** A feed that leaves the emulator in step has been heeded. */
  lemma {:induction false} LandsFrom(w: World, a: SocketAddr, before: Echo, c: Call)
    requires InStep(w) && a in w.clients && LiveReady(before) && before.mode == w.echo.mode
    requires c.Fed? && c.client == a && c.samples != [] && w.echo == CallOn(before, c) && Holds(w.clients[a], c.freq)
    ensures Heeded(before, c)
  {
    hide Echo.Feed, LiveReady, Holds, Echo.Active;
    FeedCounts(before, c.freq, c.client, c.samples);
    assert a in Users(w.clients, c.freq);
    if w.echo.mode == LiveMode { assert Writers(w.echo, c.freq) == Users(w.clients, c.freq); }
    assert w.echo.Active(c.freq) == |Users(w.clients, c.freq)|;
    SomeUser(Users(w.clients, c.freq), a);
  }

  lemma {:induction false} SomeUser(s: set<SocketAddr>, a: SocketAddr)
    requires a in s
    ensures |s| > 0
  {}

  /** The calls of a frame before the feed of one of its halves. */
  function CallsBefore(c: Client, data: seq<u8>, t0: nat, t1: nat, half: nat): seq<Call>
    requires |data| >= PACKET_SIZE
  {
    var first := SubframeCalls(c, data[8..520], t0);
    var second := SubframeCalls(ClientAfter(c, data[8..520]), data[520..1032], t1);
    if half == 0 then (if first == [] then [] else first[..|first| - 1])
    else first + (if second == [] then [] else second[..|second| - 1])
  }

  function CallsAfter(c: Client, data: seq<u8>, t0: nat, t1: nat, half: nat): seq<Call>
    requires |data| >= PACKET_SIZE
  {
    if half == 0 then SubframeCalls(ClientAfter(c, data[8..520]), data[520..1032], t1) else []
  }

  function Half(data: seq<u8>, half: nat): (sf: seq<u8>)
    requires |data| >= PACKET_SIZE
    ensures |sf| == 512
  {
    if half == 0 then data[8..520] else data[520..1032]
  }

  /** The client when its half of the frame comes up, and after it. */
  function ClientAt(c: Client, data: seq<u8>, half: nat): Client
    requires |data| >= PACKET_SIZE
  {
    if half == 0 then c else ClientAfter(c, data[8..520])
  }

  /** The feed of one half of a frame, between the calls before and after it. */
  lemma {:induction false} FrameFeeds(w: World, a: SocketAddr, data: seq<u8>, t0: nat, t1: nat, half: nat)
    requires InStep(w) && a in w.clients && |data| >= PACKET_SIZE && half < 2
    requires Synced(Half(data, half)) && Half(data, half)[3] % 2 == 1
    ensures var c := w.clients[a]; var d := ClientAfter(ClientAt(c, data, half), Half(data, half));
      && d.recordingFreq.Some?
      && var feed := Fed(d.recordingFreq.value, a, SubframeSamples(Half(data, half)));
      && FrameCalls(c, data, t0, t1)
           == CallsBefore(c, data, t0, t1, half) + [feed] + CallsAfter(c, data, t0, t1, half)
      && Heeded(CallAll(w.echo, CallsBefore(c, data, t0, t1, half)), feed)
  {
    hide InStep, SubframeCalls, ClientAfter, Heeded, SubframeSamples, Locked, LiveReady, Synced, CallAll;
    if half == 0 {
      var first := SubframeCalls(w.clients[a], data[8..520], t0);
      SubframeLands(w, a, data[8..520], t0);
      assert first == first[..|first| - 1] + [first[|first| - 1]];
    } else {
      SecondFeeds(w, a, data[8..520], data[520..1032], t0, t1);
    }
  }

  /** The feed of the second half, in the state that the first half leaves. */
  lemma {:induction false} SecondFeeds(w: World, a: SocketAddr, f: seq<u8>, sf: seq<u8>, t0: nat, t1: nat)
    requires InStep(w) && a in w.clients && Synced(sf) && sf[3] % 2 == 1
    ensures var d := ClientAfter(w.clients[a], f); var first := SubframeCalls(w.clients[a], f, t0);
      var second := SubframeCalls(d, sf, t1); var n := |second| - 1;
      && n >= 0 && ClientAfter(d, sf).recordingFreq.Some?
      && second[n] == Fed(ClientAfter(d, sf).recordingFreq.value, a, SubframeSamples(sf))
      && first + second == first + second[..n] + [second[n]] + []
      && Heeded(CallAll(w.echo, first + second[..n]), second[n])
  {
    hide InStep, SubframeCalls, ClientAfter, Heeded, SubframeSamples, Subframe, Locked, Follows, LiveReady, Synced,
         CallAll;
    var c := w.clients[a];
    InStepClient(w, a);
    var first, d := SubframeCalls(c, f, t0), ClientAfter(c, f);
    SubframeIsCalls(c, w.echo, f, t0);
    SubframeFollows(c, w.echo, f, t0);
    var m := World(w.clients[a := d], CallAll(w.echo, first));
    UpdateInStep(w, a, d, m.echo);
    SubframeLands(m, a, sf, t1);
    var second := SubframeCalls(d, sf, t1);
    var n := |second| - 1;
    assert second == second[..n] + [second[n]];
    CallSplit(w.echo, first, second[..n]);
  }

  /** After the run `before`, client `addr` sends a frame; what counts is one half of it. */
  datatype Transmission = Transmission(
    mode: EchoMode,
    before: seq<Step>,
    addr: SocketAddr,
    data: seq<u8>,
    t0: nat,
    t1: nat,
    half: nat
  ) {
    function Start(fade: Fade): World { TakeAll(Vacant(mode, fade), before) }

    /** The client is there, and that half of its frame is in sync with PTT on. */
    predicate OnAir(fade: Fade) {
      && |data| >= PACKET_SIZE && half < 2 && addr in Start(fade).clients
      && Synced(Half(data, half)) && Half(data, half)[3] % 2 == 1
    }

    function Sender(fade: Fade): Client
      requires OnAir(fade)
    {
      Start(fade).clients[addr]
    }

    /** The frequency the client is locked to in this half. */
    function Freq(fade: Fade): u32
      requires OnAir(fade)
    {
      var lock := ClientAfter(ClientAt(Sender(fade), data, half), Half(data, half)).recordingFreq;
      if lock.Some? then lock.value else 0
    }

    function Feed(fade: Fade): Call
      requires OnAir(fade)
    {
      Fed(Freq(fade), addr, SubframeSamples(Half(data, half)))
    }

    /** The tape right before the samples are fed. */
    function Tape(fade: Fade): Tape
      requires OnAir(fade)
    {
      RecordAll(RunTape(mode, fade, before), CallsBefore(Sender(fade), data, t0, t1, half))
    }

    /** The calls of the emulator after that, when it runs on with `after`. */
    function Later(fade: Fade, after: seq<Step>): seq<Call>
      requires OnAir(fade)
    {
      CallsAfter(Sender(fade), data, t0, t1, half) + RunCalls(Take(Start(fade), Host(addr, data, t0, t1)), after)
    }

    function Steps(after: seq<Step>): seq<Step> { before + [Host(addr, data, t0, t1)] + after }
  }

  /** The samples of a transmission land, and the tape of the whole run has them on top of what was before. */
  lemma {:induction false} TransmissionLands(fade: Fade, x: Transmission, after: seq<Step>)
    requires x.OnAir(fade)
    ensures Windows(x.Tape(fade)) && Heeded(x.Tape(fade).echo, x.Feed(fade))
    ensures RunTape(x.mode, fade, x.Steps(after))
      == RecordAll(Record(x.Tape(fade), x.Feed(fade)), x.Later(fade, after))
  {
    hide InStep, Windows, Heeded, Record, CallsBefore, CallsAfter, RunCalls, TakeAll, Half, SubframeSamples,
         ClientAfter, ClientAt, CallAll, RecordAll, LiveReady, Synced;
    var w0, w := Vacant(x.mode, fade), x.Start(fade);
    var t0 := Blank(x.mode, fade);
    var host := Host(x.addr, x.data, x.t0, x.t1);
    NobodyInStep(x.mode, fade);
    RunInStep(w0, x.before);
    BlankSound(x.mode, fade, 0);
    TapeWindows(t0, RunCalls(w0, x.before));
    TapeWindows(RunTape(x.mode, fade, x.before), CallsBefore(x.Sender(fade), x.data, x.t0, x.t1, x.half));
    RunIsCalls(w0, x.before);
    TapeEcho(t0, RunCalls(w0, x.before));
    TapeEcho(RunTape(x.mode, fade, x.before), CallsBefore(x.Sender(fade), x.data, x.t0, x.t1, x.half));
    FrameFeeds(w, x.addr, x.data, x.t0, x.t1, x.half);
    TransmissionCalls(fade, x, after);
    var calls, feed := CallsBefore(x.Sender(fade), x.data, x.t0, x.t1, x.half), x.Feed(fade);
    RecordSplit(t0, RunCalls(w0, x.before), calls + [feed] + x.Later(fade, after));
    RecordSplit(RunTape(x.mode, fade, x.before), calls + [feed], x.Later(fade, after));
    RecordSplit(RunTape(x.mode, fade, x.before), calls, [feed]);
    RecordOne(x.Tape(fade), feed);
  }

  lemma {:induction false} RecordOne(t: Tape, c: Call)
    ensures RecordAll(t, [c]) == Record(t, c)
  {
    hide Record;
    assert [c][1..] == [];
  }

  /** The calls of the whole run, around the feed of the transmission. */
  lemma {:induction false} TransmissionCalls(fade: Fade, x: Transmission, after: seq<Step>)
    requires x.OnAir(fade) && InStep(x.Start(fade))
    ensures RunCalls(Vacant(x.mode, fade), x.Steps(after))
      == RunCalls(Vacant(x.mode, fade), x.before)
         + (CallsBefore(x.Sender(fade), x.data, x.t0, x.t1, x.half) + [x.Feed(fade)] + x.Later(fade, after))
  {
    hide InStep, Heeded, CallsBefore, CallsAfter, RunCalls, TakeAll, Half, SubframeSamples, ClientAfter, ClientAt,
         CallAll, FrameCalls, Synced;
    var w0, w := Vacant(x.mode, fade), x.Start(fade);
    var host := Host(x.addr, x.data, x.t0, x.t1);
    FrameFeeds(w, x.addr, x.data, x.t0, x.t1, x.half);
    RunSplit(w0, x.before, [host] + after);
    RunSplit(w, [host], after);
    OneStep(w, host);
    assert x.Steps(after) == x.before + ([host] + after);
    var a, b, c := CallsBefore(x.Sender(fade), x.data, x.t0, x.t1, x.half), [x.Feed(fade)],
                   CallsAfter(x.Sender(fade), x.data, x.t0, x.t1, x.half);
    var d := RunCalls(Take(w, host), after);
    assert a + b + c + d == a + b + (c + d);
  }

  /**
   From one client's host to another client's reader. A client sends a sub-frame of its host with PTT on,
   after any run and with any run to follow. Any read, by anyone, of the frequency it is locked to, in the
   same session, that reaches the position of the `k`-th of the transmitted samples returns what the
   emulator heard of it (its conjugate, to 16 bits), on top of whatever all other feeds of the session have
   put at that position.
   */
  lemma {:induction false} TransmittedIsRead(fade: Fade, x: Transmission, after: seq<Step>, cmd: HostRadio.Command,
                                             samples: seq<Complex>, cw: bool, r: Playback.Cursor, recording: bool,
                                             n: nat, i: nat, k: nat)
    requires x.OnAir(fade) && x.mode == LiveMode
    requires k < |samples| <= 63 && Half(x.data, x.half) == HostRadio.HostBytes(cmd, samples, cw)
    requires Reaches(x.Tape(fade).echo, x.Feed(fade), TakeAll(Vacant(LiveMode, fade), x.Steps(after)).echo,
                     r, recording, n, i, k)
    ensures var f := x.Freq(fade); var t := RunTape(LiveMode, fade, x.Steps(after));
      var j := |x.Tape(fade).Log(f)|; var now := TakeAll(Vacant(LiveMode, fade), x.Steps(after)).echo.live;
      && j < |t.Log(f)|
      && r.Read(now[f], recording, n).1[i] == ControlRotation.HeardSample(samples[k])
           .Plus(LiveTimeline.Sum(Others(t.Log(f), j), Playback.Place(r, now[f]) + i))
  {
    hide Windows, Record, RecordAll, RunCalls, TakeAll, LiveTimeline.Sum, Playback.Cursor.Read, Playback.Place,
         TxSamples, Half, HostRadio.HostBytes, ControlRotation.HeardSample, ClientAfter, ClientAt,
         Lands, Transmission.Tape, Transmission.Later, Transmission.OnAir, Transmission.Freq, Others, Tape.Log;
    TransmissionLands(fade, x, after);
    RunEcho(LiveMode, fade, x.Steps(after));
    FeedHeard(fade, x, cmd, samples, cw, k);
    FedIsRead(x.Tape(fade), x.Feed(fade), x.Later(fade, after), r, recording, n, i, k);
  }

  lemma {:induction false} FeedHeard(fade: Fade, x: Transmission, cmd: HostRadio.Command, samples: seq<Complex>,
                                     cw: bool, k: nat)
    requires x.OnAir(fade) && k < |samples| <= 63 && Half(x.data, x.half) == HostRadio.HostBytes(cmd, samples, cw)
    ensures x.Feed(fade).Fed? && x.Feed(fade).freq == x.Freq(fade) && |x.Feed(fade).samples| == 63
    ensures x.Feed(fade).samples[k] == ControlRotation.HeardSample(samples[k])
  {
    hide Half, HostRadio.HostBytes, ControlRotation.HeardSample, TxSamples, Transmission.Freq;
    ControlRotation.HostSamplesHeard(cmd, samples, cw, k);
  }

  lemma {:induction false} RunEcho(mode: EchoMode, fade: Fade, steps: seq<Step>)
    ensures RunTape(mode, fade, steps).echo == TakeAll(Vacant(mode, fade), steps).echo
  {
    hide TakeAll, RunCalls, RecordAll, InStep;
    NobodyInStep(mode, fade);
    RunIsCalls(Vacant(mode, fade), steps);
    TapeEcho(Blank(mode, fade), RunCalls(Vacant(mode, fade), steps));
  }

  // ---- the frequency lock -----------------------------------------------------------------------------------

  /** The client after the given sub-frames. */
  function ClientRun(c: Client, sfs: seq<seq<u8>>): Client {
    if sfs == [] then c else ClientAfter(ClientRun(c, sfs[..|sfs| - 1]), sfs[|sfs| - 1])
  }

  /** How many sub-frames in, PTT went on last. */
  function LastOn(c: Client, sfs: seq<seq<u8>>): nat {
    if sfs == [] then 0
    else
      var before := sfs[..|sfs| - 1];
      if ClientRun(c, sfs).ptt && !ClientRun(c, before).ptt then |sfs| else LastOn(c, before)
  }

  /**
   The lock is the transmit frequency of the sub-frame with which PTT went on last, whatever frequencies are
   commanded after that, and there is none while PTT is off.
   */
  lemma {:induction false} LockIsFromKeying(c: Client, sfs: seq<seq<u8>>)
    requires !c.ptt && c.recordingFreq.None?
    ensures var m := ClientRun(c, sfs); var j := LastOn(c, sfs);
      && j <= |sfs| && (m.ptt ==> j > 0)
      && m.recordingFreq == if m.ptt then Some(ClientRun(c, sfs[..j]).txFrequency) else None
  {
    hide Client.ProcessControl;
    if sfs != [] {
      var n := |sfs| - 1;
      LockIsFromKeying(c, sfs[..n]);
      var before := ClientRun(c, sfs[..n]);
      var j := LastOn(c, sfs[..n]);
      assert sfs[..n][..j] == sfs[..j] && sfs[..|sfs|] == sfs;
      if Synced(sfs[n]) { ControlKeepsLock(before, sfs[n][3], sfs[n][4], sfs[n][5], sfs[n][6], sfs[n][7]); }
    }
  }
}
