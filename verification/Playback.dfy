/** Per-client playback: looping recordings, and order, finality and completeness of live reading. */
module Playback {
  import opened Base
  import opened Samples
  import opened LiveBuffers
  import opened LiveTimeline

  /** Samples kept between the write head and the read head while someone is recording. */
  const LIVE_DELAY: nat := 1024

  /** A client's place in the live buffer of one frequency. */
  datatype Cursor = Cursor(pos: Option<nat>, epoch: nat) {
    /** Where the next read begins: near the write head after a restart, never before the drain head. */
    function From(l: Live): nat {
      var near := MonusNat(l.Head(), LIVE_DELAY);
      var p := if epoch != l.epoch || pos.None? then near else pos.value;
      Max(p, l.drained)
    }

    /** How many samples a read of `n` gets. */
    function Count(l: Live, recording: bool, n: nat): nat {
      var end := if recording then MonusNat(|l.data|, LIVE_DELAY) else |l.data|;
      var idx := From(l) - l.drained;
      if idx < end then Min(n, end - idx) else 0
    }

    function Read(l: Live, recording: bool, n: nat): (Cursor, seq<Complex>) {
      var idx, k := From(l) - l.drained, Count(l, recording, n);
      (Cursor(Some(From(l) + k), l.epoch), Excerpt(l.data, idx, k) + Zeros(n - k))
    }
  }

  /** `k` samples from index `idx` on. */
  function Excerpt(data: seq<Complex>, idx: nat, k: nat): (r: seq<Complex>)
    requires k > 0 ==> idx + k <= |data|
    ensures |r| == k
  {
    if k > 0 then data[idx..idx + k] else []
  }

  class EchoPlaybackState {
    var livePos: map<u32, nat>
    var liveEpoch: map<u32, nat>
    var playbackPos: map<u32, nat>

    constructor ()
      ensures livePos == map[] && liveEpoch == map[] && playbackPos == map[]
    {
      livePos, liveEpoch, playbackPos := map[], map[], map[];
    }

    function LoopPos(freq: u32): nat
      reads this
    {
      if freq in playbackPos then playbackPos[freq] else 0
    }

    /** One frequency's turn of the loop playback: copies with wrapping and moves the cursor. */
    method CopyLoop(freq: u32, echo: seq<Complex>, n: nat) returns (scratch: seq<Complex>)
      requires echo != []
      modifies this`playbackPos
      ensures scratch == Periodic(echo, old(LoopPos(freq)), n)
      ensures LoopPos(freq) == Wrap(old(LoopPos(freq)) + n, |echo|)
      ensures forall f :: f != freq ==> LoopPos(f) == old(LoopPos(f))
    {
      var pos;
      scratch, pos := CopyWrapped(echo, LoopPos(freq), n);
      playbackPos := playbackPos[freq := pos];
    }

    function CursorAt(freq: u32): Cursor
      reads this
    {
      Cursor(if freq in livePos then Some(livePos[freq]) else None, if freq in liveEpoch then liveEpoch[freq] else 0)
    }

    /** One frequency's turn of the live playback loop: fills the scratch buffer and moves the cursor. */
    method CopyLive(freq: u32, l: Live, recording: bool, n: nat) returns (scratch: seq<Complex>)
      modifies this
      ensures (CursorAt(freq), scratch) == old(CursorAt(freq)).Read(l, recording, n)
      ensures forall f :: f != freq ==> CursorAt(f) == old(CursorAt(f))
    {
      hide Excerpt, Zeros, CursorAt;
      var absPos := SyncEpoch(freq, l);
      var readableEnd := if recording then MonusNat(|l.data|, LIVE_DELAY) else |l.data|;
      var k;
      scratch, k := CopyAvailable(l.data, absPos - l.drained, readableEnd, n);
      MoveCursor(freq, absPos + k);
    }

    method MoveCursor(freq: u32, pos: nat)
      modifies this
      ensures CursorAt(freq) == Cursor(Some(pos), old(CursorAt(freq)).epoch)
      ensures forall f :: f != freq ==> CursorAt(f) == old(CursorAt(f))
    {
      livePos := livePos[freq := pos];
    }

    /** Sends the cursor near the write head when the buffer was restarted, and catches up with draining. */
    method SyncEpoch(freq: u32, l: Live) returns (absPos: nat)
      modifies this
      ensures absPos == old(CursorAt(freq)).From(l) && CursorAt(freq).epoch == l.epoch
      ensures forall f :: f != freq ==> CursorAt(f) == old(CursorAt(f))
    {
      var clientEpoch := if freq in liveEpoch then liveEpoch[freq] else 0;
      if clientEpoch != l.epoch {
        livePos := livePos[freq := MonusNat(l.drained + |l.data|, LIVE_DELAY)];
      }
      liveEpoch := liveEpoch[freq := l.epoch];
      var defaultPos := MonusNat(l.drained + |l.data|, LIVE_DELAY);
      absPos := Max(if freq in livePos then livePos[freq] else defaultPos, l.drained);
    }
  }

  /** The copying loop: pieces up to the end of the recording, from its start again after that. */
  method CopyWrapped(echo: seq<Complex>, p: nat, n: nat) returns (scratch: seq<Complex>, pos: nat)
    requires echo != []
    ensures scratch == Periodic(echo, p, n) && pos == Wrap(p + n, |echo|)
  {
    hide Periodic, Wrap;
    pos := Wrap(p, |echo|);
    scratch := [];
    var remaining := n;
    PeriodicNone(echo, p);
    while remaining > 0
      invariant 0 <= remaining <= n && scratch == Periodic(echo, p, n - remaining)
      invariant pos == Wrap(p + (n - remaining), |echo|)
    {
      var available := Min(remaining, |echo| - pos);
      CopyStep(echo, p, n - remaining, available);
      scratch := scratch + echo[pos..pos + available];
      pos := Wrap(pos + available, |echo|);
      remaining := remaining - available;
    }
  }

  // ---- periodic extension -----------------------------------------------------------------------

  /** The position in a recording of `m` samples that is repeated for ever. */
  function Wrap(x: nat, m: nat): (r: nat)
    requires m > 0
    ensures r < m
  {
    x % m
  }

  /** `n` samples of the endless repetition of `echo`, from position `p` on. */
  function Periodic(echo: seq<Complex>, p: nat, n: nat): (r: seq<Complex>)
    requires echo != []
    ensures |r| == n
  {
    seq(n, i requires 0 <= i < n => echo[Wrap(p + i, |echo|)])
  }

  lemma {:induction false} RemainderOfSum(x: nat, k: nat, q: nat, r: nat, q2: nat, r2: nat, m: nat)
    requires m > 0 && x == q * m + r && r + k == q2 * m + r2 && r2 < m
    ensures (x + k) % m == r2
  {
    assert q * m + q2 * m == (q + q2) * m;
    assert x + k == (q + q2) * m + r2;
    RemainderUnique(x + k, q + q2, r2, m);
  }

  lemma {:induction false} Division(x: nat, m: nat)
    requires m > 0
    ensures x == (x / m) * m + Wrap(x, m)
  {}

  lemma {:induction false} WrapStep(x: nat, k: nat, m: nat)
    requires m > 0
    ensures Wrap(Wrap(x, m) + k, m) == Wrap(x + k, m)
    ensures Wrap(x, m) + k < m ==> Wrap(x + k, m) == Wrap(x, m) + k
  {
    var r := Wrap(x, m);
    Division(x, m);
    Division(r + k, m);
    RemainderOfSum(x, k, x / m, r, (r + k) / m, Wrap(r + k, m), m);
    if r + k < m { RemainderOfSum(x, k, x / m, r, 0, r + k, m); }
  }

  lemma {:induction false} PeriodicNone(echo: seq<Complex>, p: nat)
    requires echo != []
    ensures Periodic(echo, p, 0) == []
  {}

  /** Up to the end of the recording, the repetition is a plain piece of it. */
  lemma {:induction false} PeriodicRun(echo: seq<Complex>, p: nat, k: nat)
    requires echo != [] && Wrap(p, |echo|) + k <= |echo|
    ensures var pos := Wrap(p, |echo|); Periodic(echo, p, k) == echo[pos..pos + k]
  {
    hide Wrap;
    var pos := Wrap(p, |echo|);
    var run := Periodic(echo, p, k);
    forall i | 0 <= i < |run|
      ensures run[i] == echo[pos + i]
    {
      WrapStep(p, i, |echo|);
    }
  }

  /** Reading in chunks, each from where the last one stopped, is reading at once. */
  lemma {:induction false} PeriodicSplit(echo: seq<Complex>, p: nat, m: nat, n: nat)
    requires echo != []
    ensures Periodic(echo, p, m) + Periodic(echo, p + m, n) == Periodic(echo, p, m + n)
  {
    hide Wrap;
  }

  lemma {:induction false} PeriodicWrap(echo: seq<Complex>, p: nat, n: nat)
    requires echo != []
    ensures Periodic(echo, Wrap(p, |echo|), n) == Periodic(echo, p, n)
  {
    hide Wrap;
    var a, b := Periodic(echo, Wrap(p, |echo|), n), Periodic(echo, p, n);
    forall i | 0 <= i < |a|
      ensures a[i] == b[i]
    {
      WrapStep(p, i, |echo|);
    }
  }

  /** One turn of the copying loop. */
  lemma {:induction false} CopyStep(echo: seq<Complex>, p: nat, done: nat, available: nat)
    requires echo != [] && Wrap(p + done, |echo|) + available <= |echo|
    ensures var pos := Wrap(p + done, |echo|);
      && Periodic(echo, p, done) + echo[pos..pos + available] == Periodic(echo, p, done + available)
      && Wrap(pos + available, |echo|) == Wrap(p + (done + available), |echo|)
  {
    hide Wrap, Periodic;
    PeriodicRun(echo, p + done, available);
    PeriodicSplit(echo, p, done, available);
    WrapStep(p + done, available, |echo|);
  }

  /** The outputs of loop reads of the sizes `ns`, one after the other. */
  function LoopReads(echo: seq<Complex>, p: nat, ns: seq<nat>): seq<Complex>
    requires echo != []
    decreases |ns|
  {
    if ns == [] then []
    else Periodic(echo, p, ns[0]) + LoopReads(echo, Wrap(p + ns[0], |echo|), ns[1..])
  }

  /** Loop playback is the periodic extension of the recording, whatever the sizes of the reads. */
  lemma {:induction false} LoopReadsPeriodic(echo: seq<Complex>, p: nat, ns: seq<nat>)
    requires echo != []
    ensures LoopReads(echo, p, ns) == Periodic(echo, p, Total(ns))
    decreases |ns|
  {
    hide Periodic, Wrap;
    if ns == [] {
      PeriodicNone(echo, p);
    } else {
      LoopReadsPeriodic(echo, Wrap(p + ns[0], |echo|), ns[1..]);
      PeriodicWrap(echo, p + ns[0], Total(ns[1..]));
      PeriodicSplit(echo, p, ns[0], Total(ns[1..]));
    }
  }

  // ---- copying from a live buffer ------------------------------------------------------------------

  /** Overwrites the head of a silent scratch buffer with what can be read. */
  method CopyAvailable(data: seq<Complex>, idx: nat, readableEnd: nat, n: nat)
    returns (scratch: seq<Complex>, k: nat)
    requires readableEnd <= |data|
    ensures k == if idx < readableEnd then Min(n, readableEnd - idx) else 0
    ensures scratch == Excerpt(data, idx, k) + Zeros(n - k)
  {
    scratch, k := Zeros(n), 0;
    if idx < readableEnd {
      k := Min(n, readableEnd - idx);
      scratch := data[idx..idx + k] + scratch[k..];
    }
  }

  // ---- a reader beside the transmitters ---------------------------------------------------------

  datatype Action = Transmit(op: Op) | Listen(n: nat, recording: bool)

  /** A sample handed to the reader: its position, its value, and the drain head at that time. */
  datatype Delivery = Delivery(pos: nat, sample: Complex, drained: nat)

  datatype Scene = Scene(world: World, cursor: Cursor, heard: seq<Delivery>)

  function Deliveries(l: Live, from: nat, k: nat): (ds: seq<Delivery>)
    requires l.drained <= from && (k > 0 ==> from + k <= l.Head())
    ensures |ds| == k
  {
    seq(k, i requires 0 <= i < k => Delivery(from + i, l.data[from + i - l.drained], l.drained))
  }

  function Act(s: Scene, a: Action): Scene {
    match a
    case Transmit(op) => s.(world := Do(s.world, op))
    case Listen(n, recording) =>
      var l := s.world.live;
      s.(cursor := s.cursor.Read(l, recording, n).0,
         heard := s.heard + Deliveries(l, s.cursor.From(l), s.cursor.Count(l, recording, n)))
  }

  function Play(s: Scene, actions: seq<Action>): Scene
    decreases |actions|
  {
    if actions == [] then s else Play(Act(s, actions[0]), actions[1..])
  }

  /** What `Deliveries` logs is exactly what the read returns before the silence. */
  lemma {:induction false} DeliveredAsRead(l: Live, c: Cursor, recording: bool, n: nat)
    ensures var k := c.Count(l, recording, n); var out := c.Read(l, recording, n).1;
      && k <= n && |out| == n
      && (forall i :: 0 <= i < k ==> out[i] == Deliveries(l, c.From(l), k)[i].sample)
      && (forall i :: k <= i < n ==> out[i] == ZERO)
  {}

  /** Between two deliveries, exactly what had been drained is skipped. */
  predicate InSequence(ds: seq<Delivery>) {
    forall i :: 0 < i < |ds| ==>
      && ds[i - 1].pos < ds[i].pos
      && (ds[i].pos == ds[i - 1].pos + 1 || ds[i].pos == ds[i].drained)
  }

  predicate Following(s: Scene) {
    var l := s.world.live;
    && Window(s.world) && InSequence(s.heard)
    && (s.heard != [] ==>
      && s.cursor.pos.Some? && s.cursor.epoch == l.epoch
      && var next := s.heard[|s.heard| - 1].pos + 1;
      && next <= s.cursor.pos.value
      && (next == s.cursor.pos.value || s.cursor.pos.value <= l.drained))
  }

  lemma {:induction false} SequenceGrows(ds: seq<Delivery>, l: Live, from: nat, k: nat)
    requires InSequence(ds) && l.drained <= from && (k > 0 ==> from + k <= l.Head())
    requires ds != [] ==> var next := ds[|ds| - 1].pos + 1; next <= from && (from == next || from == l.drained)
    ensures InSequence(ds + Deliveries(l, from, k))
  {
    var es := ds + Deliveries(l, from, k);
    forall i | 0 < i < |es|
      ensures es[i - 1].pos < es[i].pos && (es[i].pos == es[i - 1].pos + 1 || es[i].pos == es[i].drained)
    {
      if i < |ds| { assert es[i] == ds[i] && es[i - 1] == ds[i - 1]; }
      else {
        assert es[i] == Deliveries(l, from, k)[i - |ds|];
        if i > |ds| { assert es[i - 1] == Deliveries(l, from, k)[i - 1 - |ds|]; }
      }
    }
  }

  lemma {:induction false} ActFollows(s: Scene, a: Action)
    requires Following(s)
    ensures Following(Act(s, a)) && Act(s, a).world.live.drained >= s.world.live.drained
    ensures Act(s, a).heard[..|s.heard|] == s.heard
  {
    hide Window, Do, InSequence, Deliveries;
    match a {
      case Transmit(op) => DoKeepsWindow(s.world, op);
      case Listen(n, recording) =>
        var l := s.world.live;
        var from, k := s.cursor.From(l), s.cursor.Count(l, recording, n);
        SequenceGrows(s.heard, l, from, k);
        if k > 0 { LastDelivery(l, from, k); }
    }
  }

  lemma {:induction false} LastDelivery(l: Live, from: nat, k: nat)
    requires l.drained <= from && from + k <= l.Head() && k > 0
    ensures Deliveries(l, from, k)[k - 1].pos == from + k - 1
  {}

  /**
   Order: within a session a reader is given timeline samples at strictly increasing positions, none
   twice, and whenever it skips some, it continues at the drain head: only drained samples are skipped.
   */
  lemma {:induction false} ReaderInOrder(s: Scene, actions: seq<Action>)
    requires Following(s)
    ensures Following(Play(s, actions)) && InSequence(Play(s, actions).heard)
    decreases |actions|
  {
    hide Following, Act;
    if actions == [] {
      FollowingInSequence(s);
    } else {
      ActFollows(s, actions[0]);
      ReaderInOrder(Act(s, actions[0]), actions[1..]);
    }
  }

  lemma {:induction false} FollowingInSequence(s: Scene)
    requires Following(s)
    ensures InSequence(s.heard)
  {}

  /** Every delivered sample is the timeline's sum at its position when it was delivered. */
  lemma {:induction false} DeliveredFromTimeline(s: Scene, n: nat, recording: bool)
    requires Following(s)
    ensures var l := s.world.live; var from := s.cursor.From(l);
      var ds := Act(s, Listen(n, recording)).heard[|s.heard|..];
      |ds| == s.cursor.Count(l, recording, n) &&
      forall i :: 0 <= i < |ds| ==> ds[i].pos == from + i && ds[i].sample == Sum(s.world.writes, ds[i].pos)
  {
    hide Sum, InSequence, Cursor.Read, Deliveries, Window;
    var l := s.world.live;
    var from, k := s.cursor.From(l), s.cursor.Count(l, recording, n);
    assert (s.heard + Deliveries(l, from, k))[|s.heard|..] == Deliveries(l, from, k);
    DeliveriesAreSums(s.world, from, k);
  }

  lemma {:induction false} DeliveriesAreSums(w: World, from: nat, k: nat)
    requires Window(w) && w.live.drained <= from && (k > 0 ==> from + k <= w.live.Head())
    ensures var ds := Deliveries(w.live, from, k);
      forall i :: 0 <= i < k ==> ds[i].pos == from + i && ds[i].sample == Sum(w.writes, ds[i].pos)
  {
    hide Sum;
    var ds := Deliveries(w.live, from, k);
    forall i | 0 <= i < k
      ensures ds[i].pos == from + i && ds[i].sample == Sum(w.writes, ds[i].pos)
    {
      assert w.live.data[from + i - w.live.drained] == Sum(w.writes, w.live.drained + (from + i - w.live.drained));
    }
  }

  // ---- finality ------------------------------------------------------------------------------------

  /** No active client can write before `p` any more. */
  predicate AllPast(l: Live, p: nat) {
    forall c :: c in l.clientOffsets ==> p < l.Landing(c)
  }

  lemma {:induction false} DoneFinal(w: World, op: Op, p: nat)
    requires Window(w) && p < w.live.Head() && AllPast(w.live, p)
    ensures var n := Do(w, op); p < n.live.Head() && AllPast(n.live, p) && Sum(n.writes, p) == Sum(w.writes, p)
  {
    hide Live.FeedFrom;
    DoKeepsWindow(w, op);
    if Heeded(w.live, op) {
      FeedFacts(w.live, op.client, op.samples);
      SumSnoc(w.writes, Write(op.client, w.live.Landing(op.client), op.samples), p);
    } else if op.Feed? {
      FeedIgnored(w.live, op.client, op.samples);
    }
  }

  lemma {:induction false} AllPastFinal(w: World, ops: seq<Op>, p: nat)
    requires Window(w) && p < w.live.Head() && AllPast(w.live, p)
    ensures Sum(Run(w, ops).writes, p) == Sum(w.writes, p)
    decreases |ops|
  {
    hide Window, Do, Sum, AllPast, Live.Head;
    if ops != [] {
      DoKeepsWindow(w, ops[0]);
      DoneFinal(w, ops[0], p);
      AllPastFinal(Do(w, ops[0]), ops[1..], p);
    }
  }

  /**
   Finality, exactly: the timeline below the write head at `p` can never change again in this session
   if and only if every active client's next sample lands behind `p`.
   */
  lemma {:induction false} FinalIff(w: World, p: nat)
    requires Window(w) && p < w.live.Head()
    ensures (forall ops: seq<Op> :: Sum(Run(w, ops).writes, p) == Sum(w.writes, p)) <==> AllPast(w.live, p)
  {
    hide Window, Do, Sum, Live.Head, Live.Landing;
    if AllPast(w.live, p) {
      forall ops: seq<Op>
        ensures Sum(Run(w, ops).writes, p) == Sum(w.writes, p)
      {
        AllPastFinal(w, ops, p);
      }
    } else {
      var c :| c in w.live.clientOffsets && w.live.Landing(c) <= p;
      StillChanges(w, c, p);
    }
  }

  lemma {:induction false} StillChanges(w: World, c: SocketAddr, p: nat)
    requires c in w.live.clientOffsets && w.live.Landing(c) <= p
    ensures exists ops: seq<Op> :: Sum(Run(w, ops).writes, p) != Sum(w.writes, p)
  {
    hide Live.FeedFrom, Sum;
    var at := w.live.Landing(c);
    var s := Zeros(p - at) + [Complex(1.0, 0.0)];
    var ops := [Feed(c, s)];
    assert ops[1..] == [];
    assert Run(w, ops) == Do(w, ops[0]);
    SumSnoc(w.writes, Write(c, at, s), p);
    assert Sum(Run(w, ops).writes, p) == Sum(w.writes, p).Plus(Complex(1.0, 0.0));
  }

  /**
   What is delivered while recording stays as it is, if at that moment every active client's offset is
   within `LIVE_DELAY` of the write head.
   */
  lemma {:induction false} DeliveredIsFinal(w: World, c: Cursor, n: nat, i: nat, ops: seq<Op>)
    requires Window(w) && i < c.Count(w.live, true, n)
    requires forall k :: k in w.live.clientOffsets ==> w.live.clientOffsets[k] + LIVE_DELAY >= w.live.Head()
    ensures var p := c.From(w.live) + i;
      c.Read(w.live, true, n).1[i] == Sum(w.writes, p) == Sum(Run(w, ops).writes, p)
  {
    hide Sum, Run;
    AllPastFinal(w, ops, c.From(w.live) + i);
  }

  // ---- completeness ----------------------------------------------------------------------------------

  function Total(ns: seq<nat>): nat { if ns == [] then 0 else ns[0] + Total(ns[1..]) }

  /** The outputs of reads of the sizes `ns`, one after the other, of a buffer that does not change meanwhile. */
  function ReadAll(c: Cursor, l: Live, recording: bool, ns: seq<nat>): seq<Complex>
    decreases |ns|
  {
    if ns == [] then [] else
      var (next, out) := c.Read(l, recording, ns[0]);
      out + ReadAll(next, l, recording, ns[1..])
  }

  /** The first `n` samples of `s`, followed by silence. */
  function Padded(s: seq<Complex>, n: nat): (r: seq<Complex>)
    ensures |r| == n
  {
    if n <= |s| then s[..n] else s + Zeros(n - |s|)
  }

  /** What can be read in all, while recording short of the newest samples. */
  function Readable(l: Live, recording: bool): seq<Complex> {
    l.data[..if recording then MonusNat(|l.data|, LIVE_DELAY) else |l.data|]
  }

  /** What a reader has not had yet. */
  function Rest(c: Cursor, l: Live, recording: bool): seq<Complex> {
    var idx, data := c.From(l) - l.drained, Readable(l, recording);
    if idx < |data| then data[idx..] else []
  }

  lemma {:induction false} OneRead(c: Cursor, l: Live, recording: bool, n: nat)
    ensures var (next, out) := c.Read(l, recording, n); var rest := Rest(c, l, recording);
      out == Padded(rest, n) && Rest(next, l, recording) == rest[Min(n, |rest|)..]
  {
    var rest, idx, k := Rest(c, l, recording), c.From(l) - l.drained, c.Count(l, recording, n);
    var data := Readable(l, recording);
    var next := c.Read(l, recording, n).0;
    assert k == Min(n, |rest|);
    assert next.From(l) == c.From(l) + k;
    ExcerptOfPrefix(l.data, |data|, idx, k);
    ExcerptOfRest(data, idx, k, n);
    if idx < |data| { assert data[idx..][k..] == data[idx + k..]; }
  }

  lemma {:induction false} ExcerptOfPrefix(data: seq<Complex>, end: nat, idx: nat, k: nat)
    requires end <= |data| && (k > 0 ==> idx + k <= end)
    ensures Excerpt(data, idx, k) == Excerpt(data[..end], idx, k)
  {}

  lemma {:induction false} ExcerptOfRest(data: seq<Complex>, idx: nat, k: nat, n: nat)
    requires k == Min(n, MonusNat(|data|, idx))
    ensures Excerpt(data, idx, k) + Zeros(n - k) == Padded(if idx < |data| then data[idx..] else [], n)
  {}

  lemma {:induction false} PaddedSplit(s: seq<Complex>, m: nat, n: nat)
    ensures Padded(s, m) + Padded(s[Min(m, |s|)..], n) == Padded(s, m + n)
  {}

  /**
   Completeness: reads of any sizes deliver every readable sample that is left exactly once and in order, and
   silence from then on; after the last stop that is all of the buffer.
   */
  lemma {:induction false} ReadsDrain(c: Cursor, l: Live, recording: bool, ns: seq<nat>)
    ensures ReadAll(c, l, recording, ns) == Padded(Rest(c, l, recording), Total(ns))
    decreases |ns|
  {
    hide Padded, Rest, Cursor.Read;
    if ns == [] {
      NoRead(Rest(c, l, recording));
    } else {
      var (next, out) := c.Read(l, recording, ns[0]);
      OneRead(c, l, recording, ns[0]);
      ReadsDrain(next, l, recording, ns[1..]);
      PaddedSplit(Rest(c, l, recording), ns[0], Total(ns[1..]));
    }
  }

  lemma {:induction false} NoRead(s: seq<Complex>)
    ensures Padded(s, 0) == []
  {}

  /** Where a reader is: where it stopped in this session, else 1024 before the write head; never in what is gone. */
  function Place(c: Cursor, l: Live): nat {
    Max(if c.epoch == l.epoch && c.pos.Some? then c.pos.value else Max(l.Head() - 1024, 0), l.drained)
  }

  /**
   What any reads get, in numbers: output `j` of reads of any sizes is the timeline's sum `j` positions from
   where the reader is, exactly if that is behind the write head, by more than 1024 samples while someone
   is recording; and silence otherwise.
   */
  lemma {:induction false} ReadsInNumbers(w: World, c: Cursor, recording: bool, ns: seq<nat>, j: nat)
    requires Window(w) && j < Total(ns)
    ensures var p := Place(c, w.live) + j; var out := ReadAll(c, w.live, recording, ns);
      && |out| == Total(ns)
      && out[j] == if p + (if recording then 1024 else 0) < w.live.Head() then Sum(w.writes, p) else ZERO
  {
    hide Sum, ReadAll, Total;
    ReadsDrain(c, w.live, recording, ns);
    RestAt(w, c, recording, Total(ns), j);
  }

  lemma {:induction false} RestAt(w: World, c: Cursor, recording: bool, n: nat, j: nat)
    requires Window(w) && j < n
    ensures var p := Place(c, w.live) + j;
      Padded(Rest(c, w.live, recording), n)[j]
        == if p + (if recording then 1024 else 0) < w.live.Head() then Sum(w.writes, p) else ZERO
  {
    hide Sum;
    assert c.From(w.live) == Place(c, w.live);
  }

  lemma {:induction false} OneReadInNumbers(w: World, c: Cursor, recording: bool, n: nat, i: nat)
    requires Window(w) && i < n
    ensures var p := Place(c, w.live) + i;
      c.Read(w.live, recording, n).1[i]
        == if p + (if recording then 1024 else 0) < w.live.Head() then Sum(w.writes, p) else ZERO
  {
    hide Sum, Cursor.Read, Padded, Rest, Place, Window;
    OneRead(c, w.live, recording, n);
    RestAt(w, c, recording, n, i);
  }

  /** A read moves the reader by what it was given, to where the next one in this session begins. */
  lemma {:induction false} ReadMoves(l: Live, c: Cursor, recording: bool, n: nat)
    ensures var next := c.Read(l, recording, n).0; var p := Place(c, l);
      && next.epoch == l.epoch
      && next.pos == Some(p + Min(n, Max(l.Head() - (if recording then 1024 else 0) - p, 0)))
  {}
}
