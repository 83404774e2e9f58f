/** The shared echo buffer: per-frequency recorders with refcounts, live buffers and committed loops. */
module EchoBuffers {
  import opened Base
  import opened Samples
  import opened LiveBuffers
  import opened LoopEcho

  datatype EchoMode = LoopMode | LiveMode

  /** Thirty seconds, in nanoseconds. */
  const LOOP_SESSION_GAP_NS: nat := 30_000_000_000

  datatype FreqRecorder = FreqRecorder(
    activeCount: nat,
    sampleRate: u32,
    recording: seq<Complex>,
    lastPttOff: Option<nat>
  )

  /** `(rate * seconds) as usize`. */
  function SamplesIn(rate: u32, seconds: real): nat {
    var n := (rate as real * seconds).Floor;
    if n < 0 then 0 else n
  }

  /** The recorder at the first PTT: its recording continued after a short pause in loop mode, or empty. */
  function Begun(rec: FreqRecorder, rate: u32, now: nat, mode: EchoMode, maxDuration: real): FreqRecorder {
    var elapsed := if rec.lastPttOff.Some? then MonusNat(now, rec.lastPttOff.value) else 0;
    var kept :=
      if mode == LoopMode && rec.lastPttOff.Some? && elapsed < LOOP_SESSION_GAP_NS then
        var gap := elapsed * rate / 1_000_000_000;
        rec.recording + Zeros(Min(gap, MonusNat(SamplesIn(rate, maxDuration), |rec.recording|)))
      else [];
    rec.(sampleRate := rate, recording := kept)
  }

  /** The live buffer of a frequency, new if there is none. */
  function LiveAt(live: map<u32, Live>, freq: u32, max: nat): Live {
    if freq in live then live[freq] else Live([], 0, 0, max, map[])
  }

  /** The echo buffer as a value; the class below computes these functions in place. */
  datatype Echo = Echo(
    mode: EchoMode,
    maxDuration: real,
    fade: Fade,
    echoes: map<u32, seq<Complex>>,
    recorders: map<u32, FreqRecorder>,
    live: map<u32, Live>,
    nextEpoch: nat
  ) {
    /** How many clients are transmitting on a frequency. */
    function Active(freq: u32): nat { if freq in recorders then recorders[freq].activeCount else 0 }

    predicate IsRecordingOn(freq: u32) { Active(freq) > 0 }

    function Recorder(freq: u32, rate: u32): FreqRecorder {
      if freq in recorders then recorders[freq] else FreqRecorder(0, rate, [], None)
    }

    function StartRecording(freq: u32, client: SocketAddr, rate: u32, now: nat): Echo {
      var rec := Recorder(freq, rate);
      var first := rec.activeCount == 0;
      var counted := (if first then Begun(rec, rate, now, mode, maxDuration) else rec)
        .(activeCount := rec.activeCount + 1);
      var restarted := if first && mode == LiveMode then RestartLive(freq, SamplesIn(rate, maxDuration)) else this;
      restarted.(recorders := recorders[freq := counted]).OnLive(freq, (l: Live) => l.StartClient(client))
    }

    function RestartLive(freq: u32, max: nat): Echo {
      var l := LiveAt(live, freq, max).(maxSamples := max);
      this.(live := live[freq := l.RestartWithEpoch(nextEpoch)], nextEpoch := nextEpoch + 1)
    }

    /** In live mode, changes the live buffer of a frequency if there is one. */
    function OnLive(freq: u32, change: Live -> Live): Echo {
      if mode == LiveMode && freq in live then this.(live := live[freq := change(live[freq])]) else this
    }

    function Feed(freq: u32, client: SocketAddr, samples: seq<Complex>): Echo {
      if samples == [] || !IsRecordingOn(freq) then this
      else if mode == LiveMode then
        var max := SamplesIn(recorders[freq].sampleRate, maxDuration);
        this.(live := live[freq := LiveAt(live, freq, max).FeedFrom(client, samples)])
      else
        var rec := recorders[freq];
        var kept := Newest(rec.recording + samples, SamplesIn(rec.sampleRate, maxDuration));
        this.(recorders := recorders[freq := rec.(recording := kept)])
    }

    function StopRecording(freq: u32, client: SocketAddr, now: nat): Echo {
      if !IsRecordingOn(freq) then this
      else
        var rec := recorders[freq];
        var count := rec.activeCount - 1;
        var left := rec.(activeCount := count, lastPttOff := if count == 0 then Some(now) else rec.lastPttOff);
        var stopped := this.(recorders := recorders[freq := left]).OnLive(freq, (l: Live) => l.StopClient(client));
        if count == 0 && mode == LoopMode then stopped.CommitFreq(freq) else stopped
    }

    function CommitFreq(freq: u32): Echo {
      if freq !in recorders then this
      else
        var rec := recorders[freq];
        if freq == 0 then this.(recorders := recorders[freq := rec.(recording := [])])
        else
          var loop := Committed(rec.recording, rec.sampleRate, SamplesIn(rec.sampleRate, maxDuration), fade);
          if loop == [] then this else this.(echoes := echoes[freq := loop])
    }
  }

  class EchoBuffer {
    const mode: EchoMode
    const fade: Fade
    var maxDuration: real
    var echoes: map<u32, seq<Complex>>
    var recorders: map<u32, FreqRecorder>
    var live: map<u32, Live>
    var nextEpoch: nat

    ghost function Snapshot(): Echo
      reads this
    {
      Echo(mode, maxDuration, fade, echoes, recorders, live, nextEpoch)
    }

    constructor (mode: EchoMode, fade: Fade)
      ensures Snapshot() == Echo(mode, 10.0, fade, map[], map[], map[], 1)
    {
      this.mode, this.fade := mode, fade;
      maxDuration := 10.0;
      echoes, recorders, live := map[], map[], map[];
      nextEpoch := 1;
    }

    /** First PTT on a frequency: continues or empties its recording. */
    method BeginRecording(freq: u32, rate: u32, now: nat)
      requires freq in recorders
      modifies this`recorders
      ensures recorders == old(recorders)[freq := Begun(old(recorders[freq]), rate, now, mode, maxDuration)]
    {
      var rec := recorders[freq];
      var recording := [];
      if mode == LoopMode && rec.lastPttOff.Some? && MonusNat(now, rec.lastPttOff.value) < LOOP_SESSION_GAP_NS {
        var gap := MonusNat(now, rec.lastPttOff.value) * rate / 1_000_000_000;
        var maxSamples := SamplesIn(rate, maxDuration);
        recording := rec.recording + Zeros(Min(gap, MonusNat(maxSamples, |rec.recording|)));
      }
      recorders := recorders[freq := rec.(sampleRate := rate, recording := recording)];
    }

    method RestartLive(freq: u32, max: nat)
      modifies this
      ensures Snapshot() == old(Snapshot()).RestartLive(freq, max)
    {
      var l := LiveAt(live, freq, max).(maxSamples := max);
      live := live[freq := l.RestartWithEpoch(nextEpoch)];
      nextEpoch := nextEpoch + 1;
    }

    /** The recorder bookkeeping of a PTT-on; `first` tells whether nobody was recording there. */
    method CountUp(freq: u32, rate: u32, now: nat) returns (first: bool)
      modifies this`recorders
      ensures var rec := old(Snapshot()).Recorder(freq, rate);
        && first == (rec.activeCount == 0)
        && recorders == old(recorders)[freq :=
             (if first then Begun(rec, rate, now, mode, maxDuration) else rec).(activeCount := rec.activeCount + 1)]
    {
      hide Begun;
      if freq !in recorders {
        recorders := recorders[freq := FreqRecorder(0, rate, [], None)];
      }
      first := recorders[freq].activeCount == 0;
      if first {
        BeginRecording(freq, rate, now);
      }
      var rec := recorders[freq];
      recorders := recorders[freq := rec.(activeCount := rec.activeCount + 1)];
      BegunKeepsCount(old(Snapshot()).Recorder(freq, rate), rate, now, mode, maxDuration);
    }

    method StartRecording(freq: u32, client: SocketAddr, rate: u32, now: nat)
      modifies this
      ensures Snapshot() == old(Snapshot()).StartRecording(freq, client, rate, now)
    {
      hide Begun, Echo.Recorder, Live.RestartWithEpoch, Live.StartClient;
      var first := CountUp(freq, rate, now);
      if first && mode == LiveMode {
        RestartLive(freq, SamplesIn(rate, maxDuration));
      }
      if mode == LiveMode && freq in live {
        live := live[freq := live[freq].StartClient(client)];
      }
    }

    method Feed(freq: u32, client: SocketAddr, samples: seq<Complex>)
      modifies this
      ensures Snapshot() == old(Snapshot()).Feed(freq, client, samples)
    {
      hide Live.FeedFrom, Newest;
      if samples == [] || freq !in recorders || recorders[freq].activeCount == 0 {
        return;
      }
      var rec := recorders[freq];
      var maxSamples := SamplesIn(rec.sampleRate, maxDuration);
      if mode == LiveMode {
        live := live[freq := LiveAt(live, freq, maxSamples).FeedFrom(client, samples)];
      } else {
        var recording := Newest(rec.recording + samples, maxSamples);
        recorders := recorders[freq := rec.(recording := recording)];
      }
    }

    /** The recorder bookkeeping of a PTT-off. */
    method CountDown(freq: u32, now: nat) returns (count: nat)
      requires freq in recorders && recorders[freq].activeCount > 0
      modifies this`recorders
      ensures count == old(recorders[freq]).activeCount - 1
      ensures var rec := old(recorders[freq]);
        recorders == old(recorders)[freq :=
          rec.(activeCount := count, lastPttOff := if count == 0 then Some(now) else rec.lastPttOff)]
    {
      var rec := recorders[freq];
      count := rec.activeCount - 1;
      recorders := recorders[freq := rec.(activeCount := count)];
      if count == 0 {
        recorders := recorders[freq := recorders[freq].(lastPttOff := Some(now))];
      }
    }

    method ReleaseLive(freq: u32, client: SocketAddr)
      modifies this`live
      ensures Snapshot() == old(Snapshot()).OnLive(freq, (l: Live) => l.StopClient(client))
    {
      if mode == LiveMode && freq in live {
        live := live[freq := live[freq].StopClient(client)];
      }
    }

    method StopRecording(freq: u32, client: SocketAddr, now: nat)
      modifies this
      ensures Snapshot() == old(Snapshot()).StopRecording(freq, client, now)
    {
      hide Echo.CommitFreq, Echo.OnLive, Live.StopClient;
      if freq !in recorders || recorders[freq].activeCount == 0 {
        return;
      }
      var count := CountDown(freq, now);
      ReleaseLive(freq, client);
      if count == 0 && mode == LoopMode {
        CommitFreq(freq);
      }
    }

    method CommitFreq(freq: u32)
      modifies this
      ensures Snapshot() == old(Snapshot()).CommitFreq(freq)
    {
      hide Committed;
      if freq !in recorders {
        return;
      }
      var rec := recorders[freq];
      if freq == 0 {
        recorders := recorders[freq := rec.(recording := [])];
        return;
      }
      var buf := Commit(rec.recording, rec.sampleRate, SamplesIn(rec.sampleRate, maxDuration), fade);
      if buf != [] {
        echoes := echoes[freq := buf];
      }
    }
  }

  lemma {:induction false} BegunKeepsCount(rec: FreqRecorder, rate: u32, now: nat, mode: EchoMode, maxDuration: real)
    ensures Begun(rec, rate, now, mode, maxDuration).activeCount == rec.activeCount
  {}

  /** The number of samples is rate times seconds, rounded down. */
  lemma {:induction false} SamplesInFloor(rate: u32, seconds: real)
    requires seconds >= 0.0
    ensures SamplesIn(rate, seconds) as real <= rate as real * seconds < SamplesIn(rate, seconds) as real + 1.0
  {
    assert rate as real * seconds >= 0.0;
  }
}
