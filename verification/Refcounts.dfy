/** Many clients on one echo buffer: recorder refcounts, frequency locks and live offsets stay in step. */
module Refcounts {
  import opened Base
  import opened Samples
  import opened LiveBuffers
  import opened LoopEcho
  import opened EchoBuffers
  import opened IqCodec
  import opened Emulator

  // ---- what the operations of the echo buffer do to counts, offsets and loops --------------------

  /** The clients with a write offset in the live buffer of a frequency. */
  function Writers(e: Echo, freq: u32): set<SocketAddr> {
    if freq in e.live then e.live[freq].clientOffsets.Keys else {}
  }

  /** In live mode every active frequency has a live buffer. */
  predicate LiveReady(e: Echo) {
    e.mode == LiveMode ==> forall f :: f in e.recorders && e.recorders[f].activeCount > 0 ==> f in e.live
  }

  /** The live buffer of a frequency after one more client has started on it. */
  function StartedLive(e: Echo, freq: u32, c: SocketAddr, max: nat): Live {
    (if e.Active(freq) == 0 then LiveAt(e.live, freq, max).(maxSamples := max).RestartWithEpoch(e.nextEpoch)
     else LiveAt(e.live, freq, max)).StartClient(c)
  }

  lemma {:induction false} StartFacts(e: Echo, freq: u32, c: SocketAddr, rate: u32, now: nat)
    requires LiveReady(e)
    ensures var n := e.StartRecording(freq, c, rate, now);
      && n.mode == e.mode && n.echoes == e.echoes
      && freq in n.recorders && n.recorders == e.recorders[freq := n.recorders[freq]]
      && n.recorders[freq].activeCount == e.Active(freq) + 1
      && n.live ==
           if e.mode == LiveMode then e.live[freq := StartedLive(e, freq, c, SamplesIn(rate, e.maxDuration))]
           else e.live
  {
    hide Begun, SamplesIn, Live.RestartWithEpoch, Live.StartClient;
    BegunKeepsCount(e.Recorder(freq, rate), rate, now, e.mode, e.maxDuration);
    if e.Active(freq) > 0 { assert freq in e.recorders; }
  }

  lemma {:induction false} StartCounts(e: Echo, freq: u32, c: SocketAddr, rate: u32, now: nat)
    requires LiveReady(e)
    ensures var n := e.StartRecording(freq, c, rate, now);
      && LiveReady(n) && n.mode == e.mode && n.echoes == e.echoes
      && (forall f :: n.Active(f) == e.Active(f) + (if f == freq then 1 else 0))
      && (e.mode == LiveMode ==>
           && freq in n.live
           && (forall f :: f != freq ==> Writers(n, f) == Writers(e, f))
           && Writers(n, freq) == (if e.Active(freq) == 0 then {} else Writers(e, freq)) + {c})
  {
    hide Echo.StartRecording, SamplesIn;
    StartFacts(e, freq, c, rate, now);
  }

  lemma {:induction false} FeedCounts(e: Echo, freq: u32, c: SocketAddr, samples: seq<Complex>)
    requires LiveReady(e)
    ensures var n := e.Feed(freq, c, samples);
      && LiveReady(n) && n.mode == e.mode && n.echoes == e.echoes
      && (forall f :: n.Active(f) == e.Active(f))
      && (forall f :: Writers(n, f) == Writers(e, f))
  {
    hide SamplesIn, Newest, Live.FeedFrom;
    if freq in e.live { FeedKeepsWriters(e.live[freq], c, samples); }
  }

  lemma {:induction false} FeedKeepsWriters(l: Live, c: SocketAddr, samples: seq<Complex>)
    ensures l.FeedFrom(c, samples).clientOffsets.Keys == l.clientOffsets.Keys
  {
    hide Mix, Newest;
  }

  lemma {:induction false} StopCounts(e: Echo, freq: u32, c: SocketAddr, now: nat)
    requires LiveReady(e)
    ensures var n := e.StopRecording(freq, c, now);
      && LiveReady(n) && n.mode == e.mode
      && (forall f :: n.Active(f) == e.Active(f) - (if f == freq && e.Active(freq) > 0 then 1 else 0))
      && (e.mode == LiveMode ==>
           && n.echoes == e.echoes
           && (forall f :: f != freq || e.Active(freq) == 0 ==> Writers(n, f) == Writers(e, f))
           && (e.Active(freq) > 0 ==> Writers(n, freq) == Writers(e, freq) - {c}))
  {
    hide Committed;
  }

  // ---- one client ---------------------------------------------------------------------------------

  /** The frequency lock is set exactly while PTT is on. */
  predicate Locked(c: Client) { c.recordingFreq.Some? == c.ptt }

  predicate Holds(c: Client, freq: u32) { c.recordingFreq == Some(freq) }

  /** Counts and write offsets follow the frequency lock of one client from `c` to `d`. */
  predicate Follows(c: Client, e: Echo, d: Client, n: Echo) {
    && LiveReady(n) && n.mode == e.mode && d.addr == c.addr
    && (forall f :: n.Active(f) ==
         if Holds(d, f) && !Holds(c, f) then e.Active(f) + 1
         else if Holds(c, f) && !Holds(d, f) && e.Active(f) > 0 then e.Active(f) - 1
         else e.Active(f))
    && (e.mode == LiveMode ==>
         forall f :: Writers(n, f) ==
           if Holds(d, f) && !Holds(c, f) then (if e.Active(f) == 0 then {} else Writers(e, f)) + {c.addr}
           else if Holds(c, f) && !Holds(d, f) && e.Active(f) > 0 then Writers(e, f) - {c.addr}
           else Writers(e, f))
  }

  lemma {:induction false} KeyOnFollows(c: Client, e: Echo, now: nat)
    requires LiveReady(e) && c.recordingFreq.None?
    ensures var (d, n) := KeyOn(c, e, now); Follows(c, e, d, n)
  {
    hide Echo.StartRecording, LiveReady, Writers;
    StartCounts(e, c.txFrequency, c.addr, c.sampleRate, now);
  }

  lemma {:induction false} KeyOffFollows(c: Client, e: Echo, now: nat)
    requires LiveReady(e)
    ensures var (d, n) := KeyOff(c, e, now); Follows(c, e, d, n) && d == c.(recordingFreq := None)
  {
    hide Echo.StopRecording, LiveReady, Writers;
    if c.recordingFreq.Some? { StopCounts(e, c.recordingFreq.value, c.addr, now); }
  }

  lemma {:induction false} FeedFollows(c: Client, e: Echo, d: Client, n: Echo, samples: seq<Complex>)
    requires Follows(c, e, d, n)
    ensures Follows(c, e, d, FeedTx(d, n, samples))
  {
    hide Echo.Feed, LiveReady, Writers;
    if d.recordingFreq.Some? { FeedCounts(n, d.recordingFreq.value, d.addr, samples); }
  }

  lemma {:induction false} FollowsItself(c: Client, e: Echo)
    requires LiveReady(e)
    ensures Follows(c, e, c, e)
  {
    hide LiveReady, Writers;
  }

  lemma {:induction false} TransmitFollows(c: Client, changed: bool, e: Echo, samples: seq<Complex>, now: nat)
    requires LiveReady(e) && (changed <==> !Locked(c))
    ensures var (d, n) := Transmit(c, changed, e, samples, now); Follows(c, e, d, n) && Locked(d)
  {
    hide Follows, KeyOff, FeedTx, LiveReady;
    FollowsItself(c, e);
    if c.ptt {
      if changed { KeyOnFollows(c, e, now); }
      var (d, f) := if changed then KeyOn(c, e, now) else (c, e);
      FeedFollows(c, e, d, f, samples);
    } else {
      KeyOffFollows(c, e, now);
    }
  }

  lemma {:induction false} ControlKeepsLock(c: Client, c0: u8, c1: u8, c2: u8, c3: u8, c4: u8)
    ensures var n := c.ProcessControl(c0, c1, c2, c3, c4);
      n.recordingFreq == c.recordingFreq && n.addr == c.addr
  {
    hide Word32;
  }

  /** One sub-frame of any bytes, whatever it commands. */
  lemma {:induction false} SubframeFollows(c: Client, e: Echo, sf: seq<u8>, now: nat)
    requires LiveReady(e) && Locked(c)
    ensures var (d, n) := Subframe(c, Some(e), sf, now); n.Some? && Follows(c, e, d, n.value) && Locked(d)
  {
    hide Follows, Transmit, LiveReady, Client.ProcessControl, TxSamples;
    FollowsItself(c, e);
    if Synced(sf) {
      var m := c.ProcessControl(sf[3], sf[4], sf[5], sf[6], sf[7]);
      ControlKeepsLock(c, sf[3], sf[4], sf[5], sf[6], sf[7]);
      var samples := TxSamples(sf[8..], MAX_TX_IQ_SAMPLES);
      TransmitFollows(m, m.ptt != c.ptt, e, samples, now);
      var (d, n) := Transmit(m, m.ptt != c.ptt, e, samples, now);
      FollowsSame(m, c, e, d, n);
    }
  }

  lemma {:induction false} FollowsSame(m: Client, c: Client, e: Echo, d: Client, n: Echo)
    requires Follows(m, e, d, n) && m.recordingFreq == c.recordingFreq && m.addr == c.addr
    ensures Follows(c, e, d, n)
  {
    hide LiveReady, Writers;
  }

  // ---- all clients ----------------------------------------------------------------------------------

  datatype World = World(clients: map<SocketAddr, Client>, echo: Echo)

  /** A client connects, sends a frame of any bytes, or disconnects. */
  datatype Step =
    | Join(addr: SocketAddr, rate: u32)
    | Host(addr: SocketAddr, data: seq<u8>, t0: nat, t1: nat)
    | Leave(addr: SocketAddr, now: nat)

  function Received(w: World, a: SocketAddr, r: (Client, Option<Echo>)): World {
    World(w.clients[a := r.0], match r.1 case Some(e) => e case None => w.echo)
  }

  function Take(w: World, s: Step): World {
    match s
    case Join(a, rate) => if a in w.clients then w else w.(clients := w.clients[a := NewClient(a, rate)])
    case Host(a, data, t0, t1) =>
      if a in w.clients then Received(w, a, Frame(w.clients[a], Some(w.echo), data, t0, t1)) else w
    case Leave(a, now) =>
      if a in w.clients then World(w.clients - {a}, KeyOff(w.clients[a], w.echo, now).1) else w
  }

  function TakeAll(w: World, steps: seq<Step>): World
    decreases |steps|
  {
    if steps == [] then w else TakeAll(Take(w, steps[0]), steps[1..])
  }

  /** The clients whose frequency lock is on `freq`. */
  function Users(clients: map<SocketAddr, Client>, freq: u32): set<SocketAddr> {
    set a | a in clients && Holds(clients[a], freq)
  }

  /**
   Every frequency counts exactly the clients locked to it, a client is locked exactly while its PTT is
   on, and in live mode exactly the locked clients have a write offset.
   */
  predicate InStep(w: World) {
    && LiveReady(w.echo)
    && (forall a :: a in w.clients ==> w.clients[a].addr == a && Locked(w.clients[a]))
    && (forall f :: w.echo.Active(f) == |Users(w.clients, f)|)
    && (w.echo.mode == LiveMode ==> forall f :: Writers(w.echo, f) == Users(w.clients, f))
  }

  lemma {:induction false} UsersUpdate(clients: map<SocketAddr, Client>, a: SocketAddr, d: Client, f: u32)
    ensures Users(clients[a := d], f) == if Holds(d, f) then Users(clients, f) + {a} else Users(clients, f) - {a}
    ensures a in clients ==> (a in Users(clients, f) <==> Holds(clients[a], f))
    ensures a !in clients ==> a !in Users(clients, f)
    ensures Users(clients - {a}, f) == Users(clients, f) - {a}
  {
    hide Holds;
  }

  lemma {:induction false} UpdateInStep(w: World, a: SocketAddr, d: Client, n: Echo)
    requires InStep(w) && a in w.clients && Follows(w.clients[a], w.echo, d, n) && Locked(d)
    ensures InStep(World(w.clients[a := d], n)) && n.mode == w.echo.mode
  {
    hide Holds, Users, Writers, LiveReady, Echo.Active, Locked;
    var clients := w.clients[a := d];
    forall f: u32
      ensures n.Active(f) == |Users(clients, f)|
      ensures n.mode == LiveMode ==> Writers(n, f) == Users(clients, f)
    {
      UsersUpdate(w.clients, a, d, f);
      CountUpdate(Users(w.clients, f), a);
    }
  }

  lemma {:induction false} CountUpdate(s: set<SocketAddr>, a: SocketAddr)
    ensures |s + {a}| == |s| + (if a in s then 0 else 1)
    ensures |s - {a}| == |s| - (if a in s then 1 else 0)
    ensures |s| == 0 ==> s == {}
    ensures a in s ==> |s| > 0 && s + {a} == s
    ensures a !in s ==> s - {a} == s
  {}

  lemma {:induction false} LeaveInStep(w: World, a: SocketAddr, now: nat)
    requires InStep(w) && a in w.clients
    ensures InStep(Take(w, Leave(a, now))) && Take(w, Leave(a, now)).echo.mode == w.echo.mode
  {
    hide Holds, Users, Writers, LiveReady, Echo.Active, Locked, KeyOff;
    var c := w.clients[a];
    KeyOffFollows(c, w.echo, now);
    var (d, n) := KeyOff(c, w.echo, now);
    NoneHolds(d);
    forall f: u32
      ensures n.Active(f) == |Users(w.clients - {a}, f)|
      ensures n.mode == LiveMode ==> Writers(n, f) == Users(w.clients - {a}, f)
    {
      UsersUpdate(w.clients, a, d, f);
      CountUpdate(Users(w.clients, f), a);
    }
  }

  lemma {:induction false} NoneHolds(c: Client)
    requires c.recordingFreq.None?
    ensures forall f :: !Holds(c, f)
  {}

  lemma {:induction false} JoinInStep(w: World, a: SocketAddr, rate: u32)
    requires InStep(w) && a !in w.clients
    ensures InStep(World(w.clients[a := NewClient(a, rate)], w.echo))
  {
    hide Users, Writers, LiveReady, Echo.Active, Holds;
    var d := NewClient(a, rate);
    NoneHolds(d);
    forall f: u32
      ensures Users(w.clients[a := d], f) == Users(w.clients, f)
    {
      UsersUpdate(w.clients, a, d, f);
    }
  }

  lemma {:induction false} HostInStep(w: World, a: SocketAddr, data: seq<u8>, t0: nat, t1: nat)
    requires InStep(w) && a in w.clients
    ensures var n := Received(w, a, Frame(w.clients[a], Some(w.echo), data, t0, t1));
      InStep(n) && n.echo.mode == w.echo.mode
  {
    hide InStep, Subframe, Follows, Locked, LiveReady;
    InStepClient(w, a);
    var c := w.clients[a];
    if |data| < PACKET_SIZE {
      FollowsItself(c, w.echo);
      UpdateInStep(w, a, c, w.echo);
    } else {
      SubframeFollows(c, w.echo, data[8..520], t0);
      var (d, e) := Subframe(c, Some(w.echo), data[8..520], t0);
      UpdateInStep(w, a, d, e.value);
      var m := World(w.clients[a := d], e.value);
      InStepClient(m, a);
      SubframeFollows(d, e.value, data[520..1032], t1);
      var (f, g) := Subframe(d, e, data[520..1032], t1);
      UpdateInStep(m, a, f, g.value);
      assert m.clients[a := f] == w.clients[a := f];
    }
  }

  lemma {:induction false} InStepClient(w: World, a: SocketAddr)
    requires InStep(w) && a in w.clients
    ensures LiveReady(w.echo) && Locked(w.clients[a])
  {}

  /**
   Refcount conservation: over any interleaving of joining, leaving and frames of any bytes from any
   number of clients, with frequency changes while transmitting, counts, locks and offsets stay in step.
   */
  lemma {:induction false} RunInStep(w: World, steps: seq<Step>)
    requires InStep(w)
    ensures InStep(TakeAll(w, steps)) && TakeAll(w, steps).echo.mode == w.echo.mode
    decreases |steps|
  {
    hide InStep, Frame, KeyOff, Received, NewClient;
    if steps != [] {
      match steps[0] {
        case Join(a, rate) => if a !in w.clients { JoinInStep(w, a, rate); }
        case Host(a, data, t0, t1) => if a in w.clients { HostInStep(w, a, data, t0, t1); }
        case Leave(a, now) => if a in w.clients { LeaveInStep(w, a, now); }
      }
      RunInStep(Take(w, steps[0]), steps[1..]);
    }
  }

  lemma {:induction false} NobodyInStep(mode: EchoMode, fade: Fade)
    ensures InStep(World(map[], Echo(mode, 10.0, fade, map[], map[], map[], 1)))
  {
    hide Holds;
    var w := World(map[], Echo(mode, 10.0, fade, map[], map[], map[], 1));
    forall f: u32
      ensures w.echo.Active(f) == |Users(w.clients, f)| && Writers(w.echo, f) == Users(w.clients, f)
    {
      assert Users(w.clients, f) == {};
    }
  }

  /** A fresh echo buffer without clients is in step, so every run of the emulator is. */
  lemma {:induction false} EmulatorInStep(mode: EchoMode, fade: Fade, steps: seq<Step>)
    ensures var w := TakeAll(World(map[], Echo(mode, 10.0, fade, map[], map[], map[], 1)), steps);
      && (forall f :: w.echo.Active(f) == |Users(w.clients, f)|)
      && (forall a :: a in w.clients ==> (w.clients[a].recordingFreq.Some? <==> w.clients[a].ptt))
      && (mode == LiveMode ==>
           forall f :: f in w.echo.live ==> w.echo.live[f].clientOffsets.Keys == Users(w.clients, f))
  {
    hide Take, Holds, Users;
    var w := World(map[], Echo(mode, 10.0, fade, map[], map[], map[], 1));
    NobodyInStep(mode, fade);
    RunInStep(w, steps);
    var n := TakeAll(w, steps);
    forall f | mode == LiveMode && f in n.echo.live
      ensures n.echo.live[f].clientOffsets.Keys == Users(n.clients, f)
    {
      assert Writers(n.echo, f) == Users(n.clients, f);
    }
  }
}
