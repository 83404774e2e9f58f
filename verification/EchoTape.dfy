/** Calls of the echo buffer in any order: every live buffer is the window of exactly what was fed into it. */
module EchoTape {
  import opened Base
  import opened Samples
  import opened LiveBuffers
  import LiveTimeline
  import opened LoopEcho
  import opened EchoBuffers
  import opened Refcounts
  import Playback

  datatype Call =
    | Started(freq: u32, client: SocketAddr, rate: u32, now: nat)
    | Fed(freq: u32, client: SocketAddr, samples: seq<Complex>)
    | Stopped(freq: u32, client: SocketAddr, now: nat)

  function CallOn(e: Echo, c: Call): Echo {
    match c
    case Started(freq, client, rate, now) => e.StartRecording(freq, client, rate, now)
    case Fed(freq, client, samples) => e.Feed(freq, client, samples)
    case Stopped(freq, client, now) => e.StopRecording(freq, client, now)
  }

  /** The echo buffer and, for every frequency, all that was fed since its live buffer was last restarted. */
  datatype Tape = Tape(echo: Echo, writes: map<u32, seq<LiveTimeline.Write>>) {
    function Log(freq: u32): seq<LiveTimeline.Write> { if freq in writes then writes[freq] else [] }

    function World(freq: u32): LiveTimeline.World
      requires freq in echo.live
    {
      LiveTimeline.World(echo.live[freq], Log(freq))
    }
  }

  /** The first client on a frequency restarts its live buffer. */
  predicate Restarts(e: Echo, c: Call) { c.Started? && e.mode == LiveMode && e.Active(c.freq) == 0 }

  /** The samples of a feed reach a live buffer. */
  predicate Lands(e: Echo, c: Call) {
    && c.Fed? && c.samples != [] && e.mode == LiveMode && e.IsRecordingOn(c.freq)
    && c.freq in e.live && c.client in e.live[c.freq].clientOffsets
  }

  /** What the tape notes of a feed that lands: whose it is, where it begins, and its samples. */
  function Noted(e: Echo, c: Call): LiveTimeline.Write
    requires Lands(e, c)
  {
    LiveTimeline.Write(c.client, e.live[c.freq].Landing(c.client), c.samples)
  }

  function Record(t: Tape, c: Call): Tape {
    Tape(CallOn(t.echo, c),
         if Restarts(t.echo, c) then t.writes[c.freq := []]
         else if Lands(t.echo, c) then t.writes[c.freq := t.Log(c.freq) + [Noted(t.echo, c)]]
         else t.writes)
  }

  function RecordAll(t: Tape, calls: seq<Call>): Tape
    decreases |calls|
  {
    if calls == [] then t else RecordAll(Record(t, calls[0]), calls[1..])
  }

  lemma {:induction false} RecordSplit(t: Tape, a: seq<Call>, b: seq<Call>)
    ensures RecordAll(t, a + b) == RecordAll(RecordAll(t, a), b)
    decreases |a|
  {
    hide Record;
    if a == [] {
      assert a + b == b;
    } else {
      assert (a + b)[1..] == a[1..] + b;
      RecordSplit(Record(t, a[0]), a[1..], b);
    }
  }

  function Blank(mode: EchoMode, fade: Fade): Tape { Tape(Echo(mode, 10.0, fade, map[], map[], map[], 1), map[]) }

  // ---- live buffers ------------------------------------------------------------------------------

  /** Every live buffer is the window of its tape, and the next epoch is a new one. */
  predicate Windows(t: Tape) {
    && LiveReady(t.echo)
    && forall f :: f in t.echo.live ==> LiveTimeline.Window(t.World(f)) && t.echo.live[f].epoch < t.echo.nextEpoch
  }

  /** A restarted live buffer with nothing written into it. */
  function Blanked(epoch: nat, max: nat): LiveTimeline.World { LiveTimeline.World(Live([], 0, epoch, max, map[]), []) }

  /** A call leaves a frequency alone, restarts it, or does one operation of the timeline on it. */
  predicate OneOp(t: Tape, c: Call, n: Tape, f: u32)
    requires f in n.echo.live
  {
    if f != c.freq || (c.Started? && t.echo.mode == LoopMode) then
      f in t.echo.live && n.World(f) == t.World(f)
    else match c
      case Started(_, client, _, _) =>
        if t.echo.Active(f) == 0 then
          n.World(f)
            == LiveTimeline.Do(Blanked(t.echo.nextEpoch, n.echo.live[f].maxSamples), LiveTimeline.Start(client))
        else f in t.echo.live && n.World(f) == LiveTimeline.Do(t.World(f), LiveTimeline.Start(client))
      case Fed(_, client, samples) =>
        f in t.echo.live &&
        (n.World(f) == t.World(f) || n.World(f) == LiveTimeline.Do(t.World(f), LiveTimeline.Feed(client, samples)))
      case Stopped(_, client, _) =>
        f in t.echo.live &&
        (n.World(f) == t.World(f) || n.World(f) == LiveTimeline.Do(t.World(f), LiveTimeline.Stop(client)))
  }

  lemma {:induction false} StartOneOp(t: Tape, c: Call, f: u32)
    requires Windows(t) && c.Started? && f in Record(t, c).echo.live
    ensures OneOp(t, c, Record(t, c), f)
    ensures Record(t, c).echo.nextEpoch == t.echo.nextEpoch + (if Restarts(t.echo, c) then 1 else 0)
  {
    hide Echo.StartRecording, SamplesIn, LiveTimeline.Window, LiveReady;
    StartFacts(t.echo, c.freq, c.client, c.rate, c.now);
    StartEpoch(t.echo, c);
    if f == c.freq && t.echo.mode == LiveMode {
      var max := SamplesIn(c.rate, t.echo.maxDuration);
      if t.echo.Active(f) == 0 {
        var begun := Blanked(t.echo.nextEpoch, max);
        assert Record(t, c).World(f) == LiveTimeline.Do(begun, LiveTimeline.Start(c.client));
      } else {
        ActiveIsLive(t.echo, f);
      }
    }
  }

  lemma {:induction false} ActiveIsLive(e: Echo, f: u32)
    requires LiveReady(e) && e.mode == LiveMode && e.Active(f) > 0
    ensures f in e.live
  {}

  lemma {:induction false} StartEpoch(e: Echo, c: Call)
    requires c.Started?
    ensures CallOn(e, c).nextEpoch == e.nextEpoch + (if Restarts(e, c) then 1 else 0)
  {
    hide Begun, SamplesIn;
  }

  lemma {:induction false} FeedOneOp(t: Tape, c: Call, f: u32)
    requires LiveReady(t.echo) && c.Fed? && f in Record(t, c).echo.live
    ensures OneOp(t, c, Record(t, c), f) && Record(t, c).echo.nextEpoch == t.echo.nextEpoch
  {
    hide SamplesIn, Newest, Live.FeedFrom;
    if c.freq in t.echo.live && c.client !in t.echo.live[c.freq].clientOffsets {
      LiveTimeline.FeedIgnored(t.echo.live[c.freq], c.client, c.samples);
    }
  }

  lemma {:induction false} StopLive(e: Echo, freq: u32, client: SocketAddr, now: nat)
    ensures var n := e.StopRecording(freq, client, now);
      && n.nextEpoch == e.nextEpoch
      && n.live == if e.IsRecordingOn(freq) && e.mode == LiveMode && freq in e.live
                   then e.live[freq := e.live[freq].StopClient(client)] else e.live
  {
    hide Committed, SamplesIn, Live.StopClient;
  }

  lemma {:induction false} StopOneOp(t: Tape, c: Call, f: u32)
    requires c.Stopped? && f in Record(t, c).echo.live
    ensures OneOp(t, c, Record(t, c), f) && Record(t, c).echo.nextEpoch == t.echo.nextEpoch
  {
    hide Echo.StopRecording, Live.StopClient;
    StopLive(t.echo, c.freq, c.client, c.now);
  }

  lemma {:induction false} CallOneOp(t: Tape, c: Call, f: u32)
    requires Windows(t) && f in Record(t, c).echo.live
    ensures OneOp(t, c, Record(t, c), f)
    ensures Record(t, c).echo.nextEpoch == t.echo.nextEpoch + (if Restarts(t.echo, c) then 1 else 0)
  {
    hide Record, OneOp;
    match c {
      case Started(_, _, _, _) => StartOneOp(t, c, f);
      case Fed(_, _, _) => hide Windows; WindowsReady(t); FeedOneOp(t, c, f);
      case Stopped(_, _, _) => StopOneOp(t, c, f);
    }
  }

  lemma {:induction false} WindowsReady(t: Tape)
    requires Windows(t)
    ensures LiveReady(t.echo)
  {}

  /** No live buffer is ever dropped. */
  lemma {:induction false} CallKeepsLive(e: Echo, c: Call, f: u32)
    requires LiveReady(e) && f in e.live
    ensures f in CallOn(e, c).live
  {
    hide SamplesIn, Newest, Live.FeedFrom, Echo.StartRecording, Echo.StopRecording, StartedLive, LiveReady;
    match c {
      case Started(freq, client, rate, now) => StartFacts(e, freq, client, rate, now);
      case Fed(_, _, _) =>
      case Stopped(freq, client, now) => StopLive(e, freq, client, now);
    }
  }

  lemma {:induction false} CallReady(e: Echo, c: Call)
    requires LiveReady(e)
    ensures LiveReady(CallOn(e, c)) && CallOn(e, c).mode == e.mode
  {
    hide LiveReady, Echo.StartRecording, Echo.Feed, Echo.StopRecording;
    match c {
      case Started(freq, client, rate, now) => StartCounts(e, freq, client, rate, now);
      case Fed(freq, client, samples) => FeedCounts(e, freq, client, samples);
      case Stopped(freq, client, now) => StopCounts(e, freq, client, now);
    }
  }

  lemma {:induction false} RecordKeepsWindows(t: Tape, c: Call)
    requires Windows(t)
    ensures Windows(Record(t, c)) && Record(t, c).echo.mode == t.echo.mode
  {
    hide Record, LiveTimeline.Window, LiveTimeline.Do, CallOn, OneOp;
    var n := Record(t, c);
    CallReady(t.echo, c);
    RecordEcho(t, c);
    forall f | f in n.echo.live
      ensures LiveTimeline.Window(n.World(f)) && n.echo.live[f].epoch < n.echo.nextEpoch
    {
      CallOneOp(t, c, f);
      OneOpWindow(t, c, n, f);
    }
  }

  lemma {:induction false} RecordEcho(t: Tape, c: Call)
    ensures Record(t, c).echo == CallOn(t.echo, c)
  {}

  lemma {:induction false} OneOpWindow(t: Tape, c: Call, n: Tape, f: u32)
    requires Windows(t) && f in n.echo.live && OneOp(t, c, n, f)
    requires n.echo.nextEpoch == t.echo.nextEpoch + (if Restarts(t.echo, c) then 1 else 0)
    ensures LiveTimeline.Window(n.World(f)) && n.echo.live[f].epoch < n.echo.nextEpoch
  {
    hide LiveTimeline.Window, LiveTimeline.Do, LiveReady;
    if f in t.echo.live { OpsKeepWindow(t.World(f), c); }
    if f == c.freq && c.Started? && t.echo.mode == LiveMode && t.echo.Active(f) == 0 {
      var begun := Blanked(t.echo.nextEpoch, n.echo.live[f].maxSamples);
      EmptyWindow(begun);
      OpsKeepWindow(begun, c);
    }
  }

  lemma {:induction false} OpsKeepWindow(w: LiveTimeline.World, c: Call)
    requires LiveTimeline.Window(w)
    ensures c.Started? ==> var n := LiveTimeline.Do(w, LiveTimeline.Start(c.client));
      LiveTimeline.Window(n) && n.live.epoch == w.live.epoch
    ensures c.Fed? ==> var n := LiveTimeline.Do(w, LiveTimeline.Feed(c.client, c.samples));
      LiveTimeline.Window(n) && n.live.epoch == w.live.epoch
    ensures c.Stopped? ==> var n := LiveTimeline.Do(w, LiveTimeline.Stop(c.client));
      LiveTimeline.Window(n) && n.live.epoch == w.live.epoch
  {
    hide LiveTimeline.Window, LiveTimeline.Do;
    match c {
      case Started(_, client, _, _) => LiveTimeline.DoKeepsWindow(w, LiveTimeline.Start(client));
      case Fed(_, client, samples) => LiveTimeline.DoKeepsWindow(w, LiveTimeline.Feed(client, samples));
      case Stopped(_, client, _) => LiveTimeline.DoKeepsWindow(w, LiveTimeline.Stop(client));
    }
  }

  lemma {:induction false} EmptyWindow(w: LiveTimeline.World)
    requires w.live.data == [] && w.live.drained == 0 && w.live.clientOffsets == map[] && w.writes == []
    ensures LiveTimeline.Window(w)
  {}

  /**
   After any interleaving of starts, feeds and stops on any frequencies by any clients, every live buffer
   is the window, from its drain head on, of the sum of exactly the samples fed since its last restart.
   */
  lemma {:induction false} TapeWindows(t: Tape, calls: seq<Call>)
    requires Windows(t)
    ensures Windows(RecordAll(t, calls)) && RecordAll(t, calls).echo.mode == t.echo.mode
    decreases |calls|
  {
    hide Windows, Record;
    if calls != [] {
      RecordKeepsWindows(t, calls[0]);
      TapeWindows(Record(t, calls[0]), calls[1..]);
    }
  }

  // ---- sessions ------------------------------------------------------------------------------------

  /** Within a session the tape of a frequency only grows; a restart begins a later session. */
  predicate Extends(t: Tape, n: Tape, f: u32)
    requires f in t.echo.live
  {
    && f in n.echo.live && t.echo.live[f].epoch <= n.echo.live[f].epoch
    && (t.echo.live[f].epoch == n.echo.live[f].epoch ==>
          |t.Log(f)| <= |n.Log(f)| && n.Log(f)[..|t.Log(f)|] == t.Log(f))
  }

  lemma {:induction false} DoExtends(w: LiveTimeline.World, op: LiveTimeline.Op)
    ensures var n := LiveTimeline.Do(w, op);
      n.live.epoch == w.live.epoch && |w.writes| <= |n.writes| && n.writes[..|w.writes|] == w.writes
  {
    hide Mix, Newest;
  }

  lemma {:induction false} CallExtends(t: Tape, c: Call, f: u32)
    requires Windows(t) && f in t.echo.live
    ensures Extends(t, Record(t, c), f)
  {
    hide Record, LiveTimeline.Window, LiveTimeline.Do, LiveReady, CallOn;
    WindowsReady(t);
    CallKeepsLive(t.echo, c, f);
    RecordEcho(t, c);
    CallOneOp(t, c, f);
    var w := t.World(f);
    match c {
      case Started(_, client, _, _) =>
        DoExtends(w, LiveTimeline.Start(client));
        FreshEpoch(t.echo.nextEpoch, client);
      case Fed(_, client, samples) => DoExtends(w, LiveTimeline.Feed(client, samples));
      case Stopped(_, client, _) => DoExtends(w, LiveTimeline.Stop(client));
    }
  }

  lemma {:induction false} FreshEpoch(epoch: nat, client: SocketAddr)
    ensures forall max: nat :: LiveTimeline.Do(Blanked(epoch, max), LiveTimeline.Start(client)).live.epoch == epoch
  {}

  lemma {:induction false} TapeExtends(t: Tape, calls: seq<Call>, f: u32)
    requires Windows(t) && f in t.echo.live
    ensures Extends(t, RecordAll(t, calls), f)
    decreases |calls|
  {
    hide Windows, Record, Tape.Log;
    if calls != [] {
      var m := Record(t, calls[0]);
      RecordKeepsWindows(t, calls[0]);
      CallExtends(t, calls[0], f);
      TapeExtends(m, calls[1..], f);
      var n := RecordAll(t, calls);
      if n.echo.live[f].epoch == t.echo.live[f].epoch {
        assert n.Log(f)[..|t.Log(f)|] == n.Log(f)[..|m.Log(f)|][..|t.Log(f)|];
      }
    }
  }

  /** All writes but the one with index `j`. */
  function Others(writes: seq<LiveTimeline.Write>, j: nat): seq<LiveTimeline.Write>
    requires j < |writes|
  {
    writes[..j] + writes[j + 1..]
  }

  /** The timeline is one write on top of all the others. */
  lemma {:induction false} SumOfOthers(writes: seq<LiveTimeline.Write>, j: nat, p: int)
    requires j < |writes|
    ensures LiveTimeline.Sum(writes, p)
      == At(writes[j].samples, p - writes[j].at).Plus(LiveTimeline.Sum(Others(writes, j), p))
  {
    hide At, Complex.Plus;
    var n := |writes| - 1;
    var last := At(writes[n].samples, p - writes[n].at);
    if j == n {
      assert Others(writes, j) == writes[..n];
      PlusSwapTwo(LiveTimeline.Sum(writes[..n], p), last);
    } else {
      SumOfOthers(writes[..n], j, p);
      assert Others(writes, j) == Others(writes[..n], j) + [writes[n]];
      LiveTimeline.SumSnoc(Others(writes[..n], j), writes[n], p);
      PlusAssoc(At(writes[j].samples, p - writes[j].at), LiveTimeline.Sum(Others(writes[..n], j), p), last);
    }
  }

  lemma {:induction false} PlusSwapTwo(x: Complex, y: Complex)
    ensures x.Plus(y) == y.Plus(x)
  {}

  /** What a reader is handed at each position is the sum on the tape. */
  lemma {:induction false} ReadFromTape(t: Tape, f: u32, r: Playback.Cursor, recording: bool, n: nat, i: nat)
    requires Windows(t) && f in t.echo.live && i < n
    requires Playback.Place(r, t.echo.live[f]) + i + (if recording then 1024 else 0) < t.echo.live[f].Head()
    ensures r.Read(t.echo.live[f], recording, n).1[i]
      == LiveTimeline.Sum(t.Log(f), Playback.Place(r, t.echo.live[f]) + i)
  {
    hide LiveTimeline.Sum, LiveReady, Playback.Place, Playback.Cursor.Read, LiveTimeline.Window;
    Playback.OneReadInNumbers(t.World(f), r, recording, n, i);
  }

  /**
   A read of `n` samples at a later state `now` of the same session reaches, as its sample `i`, the `k`-th
   sample that the call `c` has fed in the state `e`; while someone is recording, that has to be more than
   1024 samples behind the write head.
   */
  predicate Reaches(e: Echo, c: Call, now: Echo, r: Playback.Cursor, recording: bool, n: nat, i: nat, k: nat) {
    && Lands(e, c) && k < |c.samples|
    && c.freq in now.live && now.live[c.freq].epoch == e.live[c.freq].epoch
    && i < n && Playback.Place(r, now.live[c.freq]) + i == e.live[c.freq].Landing(c.client) + k
    && e.live[c.freq].Landing(c.client) + k + (if recording then 1024 else 0) < now.live[c.freq].Head()
  }

  /**
   What one client feeds is what any reader is handed: after any calls before and any later ones of the
   same session, a read that reaches the `k`-th sample of the feed returns it, on top of whatever the other
   feeds of the session put at that position.
   */
  lemma {:induction false} FedIsRead(t: Tape, c: Call, later: seq<Call>, r: Playback.Cursor, recording: bool, n: nat,
                                     i: nat, k: nat)
    requires Windows(t) && Reaches(t.echo, c, RecordAll(Record(t, c), later).echo, r, recording, n, i, k)
    ensures var m := RecordAll(Record(t, c), later); var l := m.echo.live[c.freq]; var j := |t.Log(c.freq)|;
      && j < |m.Log(c.freq)|
      && r.Read(l, recording, n).1[i]
           == c.samples[k].Plus(LiveTimeline.Sum(Others(m.Log(c.freq), j), Playback.Place(r, l) + i))
  {
    hide Windows, LiveTimeline.Sum, Playback.Cursor.Read, Playback.Place, RecordAll;
    var f := c.freq;
    var s := Record(t, c);
    RecordKeepsWindows(t, c);
    TapeWindows(s, later);
    LandedNote(t, c);
    TapeExtends(s, later, f);
    var m := RecordAll(s, later);
    ReadFromTape(m, f, r, recording, n, i);
    assert m.Log(f)[..|s.Log(f)|][|t.Log(f)|] == m.Log(f)[|t.Log(f)|];
    SumOfOthers(m.Log(f), |t.Log(f)|, Playback.Place(r, m.echo.live[f]) + i);
  }

  lemma {:induction false} LandedNote(t: Tape, c: Call)
    requires Lands(t.echo, c)
    ensures var s := Record(t, c);
      && s.Log(c.freq) == t.Log(c.freq) + [Noted(t.echo, c)]
      && c.freq in s.echo.live && s.echo.live[c.freq].epoch == t.echo.live[c.freq].epoch
  {
    hide Mix, Newest, SamplesIn;
  }

  // ---- the bound of live buffers -----------------------------------------------------------------------

  /** Every live buffer holds as many samples as its first client's rate fills the maximum duration with. */
  predicate Sized(e: Echo) {
    forall f :: f in e.live ==>
      f in e.recorders && e.live[f].maxSamples == SamplesIn(e.recorders[f].sampleRate, e.maxDuration)
  }

  lemma {:induction false} StartRate(e: Echo, freq: u32, client: SocketAddr, rate: u32, now: nat)
    ensures var n := e.StartRecording(freq, client, rate, now);
      && freq in n.recorders && n.maxDuration == e.maxDuration
      && n.recorders[freq].sampleRate == if e.Active(freq) == 0 then rate else e.recorders[freq].sampleRate
  {
    hide Live.RestartWithEpoch, Live.StartClient, LiveAt, SamplesIn, Begun;
    BegunRate(e.Recorder(freq, rate), rate, now, e.mode, e.maxDuration);
  }

  lemma {:induction false} StartSized(e: Echo, freq: u32, client: SocketAddr, rate: u32, now: nat)
    requires LiveReady(e) && Sized(e) && e.mode == LiveMode
    ensures Sized(e.StartRecording(freq, client, rate, now))
  {
    hide Echo.StartRecording, SamplesIn;
    StartFacts(e, freq, client, rate, now);
    StartRate(e, freq, client, rate, now);
    if e.Active(freq) > 0 { ActiveIsLive(e, freq); }
  }

  lemma {:induction false} FeedSized(e: Echo, freq: u32, client: SocketAddr, samples: seq<Complex>)
    requires Sized(e) && e.mode == LiveMode
    ensures Sized(e.Feed(freq, client, samples))
  {
    hide SamplesIn, Mix, Newest;
  }

  lemma {:induction false} StopSized(e: Echo, freq: u32, client: SocketAddr, now: nat)
    requires Sized(e) && e.mode == LiveMode
    ensures Sized(e.StopRecording(freq, client, now))
  {
    hide SamplesIn, Committed;
  }

  /** After any calls, every live buffer has the bound of its first client's rate. */
  lemma {:induction false} TapeSized(t: Tape, calls: seq<Call>)
    requires LiveReady(t.echo) && Sized(t.echo) && t.echo.mode == LiveMode
    ensures Sized(RecordAll(t, calls).echo)
    decreases |calls|
  {
    hide Sized, LiveReady, Echo.StartRecording, Echo.Feed, Echo.StopRecording;
    if calls != [] {
      CallReady(t.echo, calls[0]);
      match calls[0] {
        case Started(freq, client, rate, now) => StartSized(t.echo, freq, client, rate, now);
        case Fed(freq, client, samples) => FeedSized(t.echo, freq, client, samples);
        case Stopped(freq, client, now) => StopSized(t.echo, freq, client, now);
      }
      TapeSized(Record(t, calls[0]), calls[1..]);
    }
  }

  // ---- committed loops --------------------------------------------------------------------------------

  /**
   Every committed loop can be played and is no longer than the maximum duration at the highest rate
   anyone has recorded with.
   */
  predicate Loops(e: Echo, rate: u32) {
    && (forall f :: f in e.recorders ==> e.recorders[f].sampleRate <= rate)
    && (forall f :: f in e.echoes ==> f != 0 && 0 < |e.echoes[f]| <= SamplesIn(rate, e.maxDuration))
  }

  lemma {:induction false} MoreSamples(a: u32, b: u32, seconds: real)
    requires a <= b
    ensures SamplesIn(a, seconds) <= SamplesIn(b, seconds)
  {
    var x, y := a as real, b as real;
    if seconds >= 0.0 {
      assert (y - x) * seconds >= 0.0;
      assert (y - x) * seconds == y * seconds - x * seconds;
    } else {
      assert x * -seconds >= 0.0;
      assert x * seconds == -(x * -seconds);
    }
  }

  lemma {:induction false} CommitLoops(e: Echo, freq: u32, rate: u32)
    requires Loops(e, rate)
    ensures Loops(e.CommitFreq(freq), rate)
  {
    hide Committed, SamplesIn;
    if freq in e.recorders {
      var rec := e.recorders[freq];
      var max := SamplesIn(rec.sampleRate, e.maxDuration);
      CommittedLength(rec.recording, rec.sampleRate, max, e.fade);
      MoreSamples(rec.sampleRate, rate, e.maxDuration);
    }
  }

  lemma {:induction false} CallLoops(e: Echo, c: Call, rate: u32)
    requires Loops(e, rate) && (c.Started? ==> c.rate <= rate)
    ensures Loops(CallOn(e, c), rate) && CallOn(e, c).maxDuration == e.maxDuration
  {
    hide Loops, Echo.StartRecording, Echo.Feed, Echo.StopRecording;
    match c {
      case Started(freq, client, r, now) => StartLoops(e, freq, client, r, now, rate);
      case Fed(freq, client, samples) => FeedLoops(e, freq, client, samples, rate);
      case Stopped(freq, client, now) => StopLoops(e, freq, client, now, rate);
    }
  }

  lemma {:induction false} StartLoops(e: Echo, freq: u32, client: SocketAddr, r: u32, now: nat, rate: u32)
    requires Loops(e, rate) && r <= rate
    ensures var n := e.StartRecording(freq, client, r, now); Loops(n, rate) && n.maxDuration == e.maxDuration
  {
    hide SamplesIn, Begun, Live.RestartWithEpoch, Live.StartClient, LiveAt;
    BegunRate(e.Recorder(freq, r), r, now, e.mode, e.maxDuration);
  }

  lemma {:induction false} FeedLoops(e: Echo, freq: u32, client: SocketAddr, samples: seq<Complex>, rate: u32)
    requires Loops(e, rate)
    ensures var n := e.Feed(freq, client, samples); Loops(n, rate) && n.maxDuration == e.maxDuration
  {
    hide SamplesIn, Newest, Live.FeedFrom, LiveAt;
  }

  lemma {:induction false} BegunRate(rec: FreqRecorder, rate: u32, now: nat, mode: EchoMode, maxDuration: real)
    ensures Begun(rec, rate, now, mode, maxDuration).sampleRate == rate
  {}

  lemma {:induction false} StopLoops(e: Echo, freq: u32, client: SocketAddr, now: nat, rate: u32)
    requires Loops(e, rate)
    ensures Loops(e.StopRecording(freq, client, now), rate)
    ensures e.StopRecording(freq, client, now).maxDuration == e.maxDuration
  {
    hide SamplesIn, Committed;
    if e.IsRecordingOn(freq) {
      var rec := e.recorders[freq];
      var left := rec.(activeCount := rec.activeCount - 1,
                       lastPttOff := if rec.activeCount == 1 then Some(now) else rec.lastPttOff);
      var stopped := e.(recorders := e.recorders[freq := left]).OnLive(freq, (l: Live) => l.StopClient(client));
      CommitLoops(stopped, freq, rate);
    }
  }

  predicate RatesWithin(calls: seq<Call>, rate: u32) {
    forall i :: 0 <= i < |calls| && calls[i].Started? ==> calls[i].rate <= rate
  }

  /** After any calls, every committed loop can be played and keeps its bound. */
  lemma {:induction false} TapeLoops(t: Tape, calls: seq<Call>, rate: u32)
    requires Loops(t.echo, rate) && RatesWithin(calls, rate)
    ensures Loops(RecordAll(t, calls).echo, rate) && RecordAll(t, calls).echo.maxDuration == t.echo.maxDuration
    decreases |calls|
  {
    hide Loops, CallOn;
    if calls != [] {
      CallLoops(t.echo, calls[0], rate);
      TapeLoops(Record(t, calls[0]), calls[1..], rate);
    }
  }
}
