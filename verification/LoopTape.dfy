/** The looping recorder: what every recording holds, told from the calls alone, and what the last stop makes of it. */
module LoopTape {
  import opened Base
  import opened Samples
  import opened LiveBuffers
  import opened LoopEcho
  import opened EchoBuffers
  import opened Refcounts
  import opened EchoTape

  /**
   What the calls so far mean for one frequency: how many clients are on it, the rate of the first of them,
   all samples of the operating session with the silence of its pauses, how many of the newest are kept,
   and when the last client left.
   */
  datatype Note = Note(active: nat, rate: u32, stream: seq<Complex>, kept: nat, off: Option<nat>) {
    /** The samples that are kept. */
    function Recording(): seq<Complex> { Newest(stream, kept) }
  }

  const UNUSED := Note(0, 0, [], 0, None)

  /** The silence of a pause of less than thirty seconds, as far as the recording has room; none ends a session. */
  function Pause(n: Note, rate: u32, now: nat, seconds: real): Option<nat> {
    if n.off.Some? && MonusNat(now, n.off.value) < 30_000_000_000 then
      Some(Min(MonusNat(now, n.off.value) * rate / 1_000_000_000, MonusNat(SamplesIn(rate, seconds), n.kept)))
    else None
  }

  /** One more call on the frequency `f`, in loop mode. */
  function Jot(n: Note, c: Call, f: u32, seconds: real): Note {
    if c.freq != f then n
    else match c
      case Started(_, _, rate, now) =>
        if n.active > 0 then n.(active := n.active + 1)
        else
          (match Pause(n, rate, now, seconds)
           case Some(pad) => Note(1, rate, n.stream + Zeros(pad), n.kept + pad, n.off)
           case None => Note(1, rate, [], 0, n.off))
      case Fed(_, _, samples) =>
        if n.active == 0 || samples == [] then n
        else n.(stream := n.stream + samples, kept := Min(n.kept + |samples|, SamplesIn(n.rate, seconds)))
      case Stopped(_, _, now) =>
        if n.active == 0 then n
        else if n.active > 1 then n.(active := n.active - 1)
        else if f == 0 then Note(0, n.rate, [], 0, Some(now))
        else n.(active := 0, off := Some(now))
  }

  function JotAll(n: Note, calls: seq<Call>, f: u32, seconds: real): Note
    decreases |calls|
  {
    if calls == [] then n else JotAll(Jot(n, calls[0], f, seconds), calls[1..], f, seconds)
  }

  /** The recorder of a frequency holds exactly the newest samples of its session. */
  predicate Recorded(e: Echo, f: u32, n: Note) {
    && e.Active(f) == n.active && n.kept <= |n.stream|
    && if f in e.recorders then
         var rec := e.recorders[f];
         rec.sampleRate == n.rate && rec.lastPttOff == n.off && rec.recording == n.Recording()
       else n == UNUSED
  }

  lemma {:induction false} NewestMore(s: seq<Complex>, kept: nat, more: seq<Complex>, keep: nat)
    requires kept <= |s| && keep <= kept + |more|
    ensures Newest(Newest(s, kept) + more, keep) == Newest(s + more, keep)
  {
    var cut := |s| - kept;
    assert s == s[..cut] + Newest(s, kept);
    NewestBehind(s[..cut], Newest(s, kept) + more, keep);
    assert s + more == s[..cut] + (Newest(s, kept) + more);
  }

  lemma {:induction false} NewestBehind(a: seq<Complex>, b: seq<Complex>, keep: nat)
    requires keep <= |b|
    ensures Newest(b, keep) == Newest(a + b, keep)
  {}

  lemma {:induction false} NewestAll(s: seq<Complex>, max: nat)
    ensures |s| <= max ==> Newest(s, max) == s
    ensures Newest(s, Min(|s|, max)) == Newest(s, max)
  {}

  lemma {:induction false} StartRecorded(e: Echo, f: u32, n: Note, freq: u32, client: SocketAddr, rate: u32, now: nat)
    requires e.mode == LoopMode && Recorded(e, f, n)
    ensures Recorded(e.StartRecording(freq, client, rate, now), f,
                     Jot(n, Started(freq, client, rate, now), f, e.maxDuration))
    ensures e.StartRecording(freq, client, rate, now).mode == LoopMode
    ensures e.StartRecording(freq, client, rate, now).maxDuration == e.maxDuration
  {
    hide SamplesIn, Newest, Begun, Live.StartClient, Pause;
    NewestAll([], 0);
    if f == freq && n.active == 0 {
      BegunRecords(e.Recorder(freq, rate), n, rate, now, e.maxDuration);
    }
  }

  lemma {:induction false} BegunRecords(rec: FreqRecorder, n: Note, rate: u32, now: nat, seconds: real)
    requires n.kept <= |n.stream| && rec.recording == n.Recording() && rec.lastPttOff == n.off
    ensures var b := Begun(rec, rate, now, LoopMode, seconds);
      && b.sampleRate == rate && b.lastPttOff == n.off && b.activeCount == rec.activeCount
      && match Pause(n, rate, now, seconds)
         case Some(pad) => b.recording == Newest(n.stream + Zeros(pad), n.kept + pad)
         case None => b.recording == []
  {
    hide SamplesIn, Newest;
    if Pause(n, rate, now, seconds).Some? {
      var pad := Pause(n, rate, now, seconds).value;
      NewestMore(n.stream, n.kept, Zeros(pad), n.kept + pad);
      NewestAll(n.Recording() + Zeros(pad), n.kept + pad);
    }
  }

  lemma {:induction false} FeedRecorded(e: Echo, f: u32, n: Note, freq: u32, client: SocketAddr, samples: seq<Complex>)
    requires e.mode == LoopMode && Recorded(e, f, n)
    ensures Recorded(e.Feed(freq, client, samples), f, Jot(n, Fed(freq, client, samples), f, e.maxDuration))
    ensures e.Feed(freq, client, samples).mode == LoopMode
    ensures e.Feed(freq, client, samples).maxDuration == e.maxDuration
  {
    hide SamplesIn, Newest, LiveAt, Live.FeedFrom;
    if f == freq && n.active > 0 && samples != [] {
      var max := SamplesIn(n.rate, e.maxDuration);
      var keep := Min(n.kept + |samples|, max);
      NewestMore(n.stream, n.kept, samples, keep);
      NewestAll(n.Recording() + samples, max);
    }
  }

  lemma {:induction false} StopRecorded(e: Echo, f: u32, n: Note, freq: u32, client: SocketAddr, now: nat)
    requires e.mode == LoopMode && Recorded(e, f, n)
    ensures Recorded(e.StopRecording(freq, client, now), f, Jot(n, Stopped(freq, client, now), f, e.maxDuration))
    ensures e.StopRecording(freq, client, now).mode == LoopMode
    ensures e.StopRecording(freq, client, now).maxDuration == e.maxDuration
  {
    hide SamplesIn, Committed, Newest, Live.StopClient;
    NewestAll([], 0);
  }

  /**
   After any starts, feeds and stops, every frequency's recording is the newest part of its session: all that
   was fed since the session began, with the silence of its pauses.
   */
  lemma {:induction false} LoopKept(t: Tape, calls: seq<Call>, f: u32, n: Note)
    requires t.echo.mode == LoopMode && Recorded(t.echo, f, n)
    ensures var e := RecordAll(t, calls).echo;
      && Recorded(e, f, JotAll(n, calls, f, t.echo.maxDuration))
      && e.mode == LoopMode && e.maxDuration == t.echo.maxDuration
    decreases |calls|
  {
    hide Recorded, Echo.StartRecording, Echo.Feed, Echo.StopRecording, Jot;
    if calls != [] {
      match calls[0] {
        case Started(freq, client, rate, now) => StartRecorded(t.echo, f, n, freq, client, rate, now);
        case Fed(freq, client, samples) => FeedRecorded(t.echo, f, n, freq, client, samples);
        case Stopped(freq, client, now) => StopRecorded(t.echo, f, n, freq, client, now);
      }
      LoopKept(Record(t, calls[0]), calls[1..], f, Jot(n, calls[0], f, t.echo.maxDuration));
    }
  }

  /** All clients of the frequency have the same sample rate. */
  predicate OneRate(calls: seq<Call>, f: u32, rate: u32) {
    forall i :: 0 <= i < |calls| && calls[i].Started? && calls[i].freq == f ==> calls[i].rate == rate
  }

  predicate Full(n: Note, rate: u32, seconds: real) {
    n.kept == Min(|n.stream|, SamplesIn(rate, seconds)) && (n.active > 0 ==> n.rate == rate)
  }

  lemma {:induction false} JotFull(n: Note, c: Call, f: u32, rate: u32, seconds: real)
    requires Full(n, rate, seconds) && (c.Started? && c.freq == f ==> c.rate == rate)
    ensures Full(Jot(n, c, f, seconds), rate, seconds)
  {
    hide SamplesIn;
  }

  /** With one sample rate, a recording is as much of the newest of its session as the maximum duration holds. */
  lemma {:induction false} LoopFull(n: Note, calls: seq<Call>, f: u32, rate: u32, seconds: real)
    requires Full(n, rate, seconds) && OneRate(calls, f, rate)
    ensures Full(JotAll(n, calls, f, seconds), rate, seconds)
    decreases |calls|
  {
    hide Full, Jot;
    if calls != [] {
      JotFull(n, calls[0], f, rate, seconds);
      LoopFull(Jot(n, calls[0], f, seconds), calls[1..], f, rate, seconds);
    }
  }

  // ---- the last stop ---------------------------------------------------------------------------------

  /**
   When the last client leaves a frequency, what is kept of its session becomes the loop, unless it is all
   silence; when another client stays, and on every other frequency, the loops stay as they are.
   */
  lemma {:induction false} LastStopCommits(e: Echo, f: u32, n: Note, client: SocketAddr, now: nat)
    requires e.mode == LoopMode && Recorded(e, f, n) && f != 0
    ensures var m := e.StopRecording(f, client, now); var max := SamplesIn(n.rate, e.maxDuration);
      var kept := Oldest(n.Recording(), max);
      && (n.kept <= max ==> kept == n.Recording())
      && if n.active != 1 || Silent(kept) then m.echoes == e.echoes
         else
           && f in m.echoes && m.echoes == e.echoes[f := m.echoes[f]]
           && LoopOf(Trim(kept), n.rate, max, m.echoes[f])
  {
    hide SamplesIn, Committed, Trim, Silent, LoopOf, Newest;
    if n.active == 1 {
      var max := SamplesIn(n.rate, e.maxDuration);
      CommittedLength(n.Recording(), n.rate, max, e.fade);
      if !Silent(Oldest(n.Recording(), max)) { CommittedSamples(n.Recording(), n.rate, max, e.fade); }
    }
  }

  /** Whatever frequency 0 records is discarded. */
  lemma {:induction false} NoLoopAtZero(e: Echo, client: SocketAddr, now: nat)
    requires e.mode == LoopMode
    ensures e.StopRecording(0, client, now).echoes == e.echoes
  {
    hide SamplesIn, Committed;
  }
}
