/** The live buffer refines an unbounded timeline that sums what everyone has sent. */
module LiveTimeline {
  import opened Base
  import opened Samples
  import opened LiveBuffers

  // ---- runs of one recording session ------------------------------------------------------

  datatype Op =
    | Start(client: SocketAddr)
    | Stop(client: SocketAddr)
    | Feed(client: SocketAddr, samples: seq<Complex>)

  /** Samples that a client has put on the timeline from position `at` on. */
  datatype Write = Write(client: SocketAddr, at: nat, samples: seq<Complex>)

  /** The buffer and everything written in this session, oldest first. */
  datatype World = World(live: Live, writes: seq<Write>)

  predicate Heeded(l: Live, op: Op) { op.Feed? && op.samples != [] && op.client in l.clientOffsets }

  function Apply(l: Live, op: Op): Live {
    match op
    case Start(c) => l.StartClient(c)
    case Stop(c) => l.StopClient(c)
    case Feed(c, s) => l.FeedFrom(c, s)
  }

  function Do(w: World, op: Op): World {
    World(Apply(w.live, op),
          if Heeded(w.live, op) then w.writes + [Write(op.client, w.live.Landing(op.client), op.samples)]
          else w.writes)
  }

  function Run(w: World, ops: seq<Op>): World
    decreases |ops|
  {
    if ops == [] then w else Run(Do(w, ops[0]), ops[1..])
  }

  /** A session just begun. */
  function Session(l: Live, e: nat): World { World(l.RestartWithEpoch(e), []) }

  // ---- the timeline ------------------------------------------------------------------------

  /** The sum of all samples written at position `p`. */
  function Sum(writes: seq<Write>, p: int): Complex {
    if writes == [] then ZERO
    else
      var n := |writes| - 1;
      Sum(writes[..n], p).Plus(At(writes[n].samples, p - writes[n].at))
  }

  /**
   The buffer is the window of the timeline from `drained` on: it holds the sums, nothing lies beyond its
   end, it holds as much of the newest as its bound allows, and no client is ahead of it.
   */
  predicate Window(w: World) {
    && |w.live.data| == Min(w.live.Head(), w.live.maxSamples)
    && (forall c :: c in w.live.clientOffsets ==> w.live.clientOffsets[c] <= w.live.Head())
    && (forall i :: 0 <= i < |w.writes| ==> w.writes[i].at + |w.writes[i].samples| <= w.live.Head())
    && (forall i :: 0 <= i < |w.live.data| ==> w.live.data[i] == Sum(w.writes, w.live.drained + i))
  }

  lemma {:induction false} SumSnoc(writes: seq<Write>, w: Write, p: int)
    ensures Sum(writes + [w], p) == Sum(writes, p).Plus(At(w.samples, p - w.at))
  {
    assert (writes + [w])[..|writes|] == writes;
  }

  lemma {:induction false} SumBeyond(writes: seq<Write>, head: nat, p: int)
    requires forall i :: 0 <= i < |writes| ==> writes[i].at + |writes[i].samples| <= head
    requires p >= head
    ensures Sum(writes, p) == ZERO
  {
    if writes != [] { SumBeyond(writes[..|writes| - 1], head, p); }
  }

  /** What feeding does, in absolute positions. */
  lemma {:induction false} FeedFacts(l: Live, c: SocketAddr, s: seq<Complex>)
    requires s != [] && c in l.clientOffsets
    ensures var m := l.FeedFrom(c, s); var at := l.Landing(c);
      && m.clientOffsets == l.clientOffsets[c := at + |s|]
      && m.Head() == Max(l.Head(), at + |s|)
      && m.drained == l.drained + MonusNat(Max(|l.data|, at - l.drained + |s|), l.maxSamples)
      && m.epoch == l.epoch && m.maxSamples == l.maxSamples
      && |m.data| == Min(m.Head() - l.drained, l.maxSamples)
  {
    hide Mix, Newest;
  }

  lemma {:induction false} FeedAt(l: Live, c: SocketAddr, s: seq<Complex>, i: nat)
    requires s != [] && c in l.clientOffsets && i < |l.FeedFrom(c, s).data|
    ensures var m := l.FeedFrom(c, s); var p := m.drained + i;
      m.data[i] == At(l.data, p - l.drained).Plus(At(s, p - l.Landing(c)))
  {
    hide Complex.Plus, At;
    var mixed := Mix(l.data, l.Landing(c) - l.drained, s);
    var cut := MonusNat(|mixed|, l.maxSamples);
    assert l.FeedFrom(c, s).data[i] == mixed[cut + i];
  }

  lemma {:induction false} FeedKeepsWindow(w: World, c: SocketAddr, s: seq<Complex>)
    requires Window(w) && s != [] && c in w.live.clientOffsets
    ensures Window(Do(w, Feed(c, s)))
  {
    hide Live.FeedFrom, Complex.Plus, At, Sum;
    FeedFacts(w.live, c, s);
    var l, n := w.live, Do(w, Feed(c, s));
    var added := Write(c, l.Landing(c), s);
    forall i | 0 <= i < |n.live.data|
      ensures n.live.data[i] == Sum(n.writes, n.live.drained + i)
    {
      var p := n.live.drained + i;
      FeedAt(l, c, s, i);
      SumSnoc(w.writes, added, p);
      WindowAt(w, p);
    }
  }

  /** The window read at an absolute position, silence beyond its end. */
  lemma {:induction false} WindowAt(w: World, p: nat)
    requires Window(w) && p >= w.live.drained
    ensures At(w.live.data, p - w.live.drained) == Sum(w.writes, p)
  {
    if p >= w.live.Head() { SumBeyond(w.writes, w.live.Head(), p); }
  }

  /** One operation keeps the window; neither the drain head nor the write head moves back. */
  lemma {:induction false} DoKeepsWindow(w: World, op: Op)
    requires Window(w)
    ensures var n := Do(w, op);
      && Window(n) && n.live.epoch == w.live.epoch && n.live.maxSamples == w.live.maxSamples
      && n.live.drained >= w.live.drained && n.live.Head() >= w.live.Head()
  {
    hide Live.FeedFrom, Sum;
    if Heeded(w.live, op) {
      FeedFacts(w.live, op.client, op.samples);
      FeedKeepsWindow(w, op.client, op.samples);
    } else if op.Feed? {
      FeedIgnored(w.live, op.client, op.samples);
    }
  }

  lemma {:induction false} FeedIgnored(l: Live, c: SocketAddr, s: seq<Complex>)
    requires s == [] || c !in l.clientOffsets
    ensures l.FeedFrom(c, s) == l
  {}

  /**
   Refinement: from the start of a session on, after any interleaving of starts, feeds and stops by any
   clients, the buffer is the window of the unbounded timeline from its drain head on.
   */
  lemma {:induction false} RunKeepsWindow(w: World, ops: seq<Op>)
    requires Window(w)
    ensures var n := Run(w, ops);
      && Window(n) && n.live.epoch == w.live.epoch && n.live.maxSamples == w.live.maxSamples
      && n.live.drained >= w.live.drained && n.live.Head() >= w.live.Head()
    decreases |ops|
  {
    hide Do, Window;
    if ops != [] {
      DoKeepsWindow(w, ops[0]);
      RunKeepsWindow(Do(w, ops[0]), ops[1..]);
    }
  }

  lemma {:induction false} SessionWindow(l: Live, e: nat, ops: seq<Op>)
    ensures Window(Run(Session(l, e), ops))
  {
    RunKeepsWindow(Session(l, e), ops);
  }

  // ---- when nobody is late: the timeline alone ------------------------------------------------

  /** The unbounded timeline, with the position each client has reached on it; nothing is ever drained. */
  datatype Timeline = Timeline(writes: seq<Write>, reached: map<SocketAddr, nat>, head: nat)

  function Advance(t: Timeline, op: Op): Timeline {
    match op
    case Start(c) => t.(reached := t.reached[c := t.head])
    case Stop(c) => t.(reached := t.reached - {c})
    case Feed(c, s) =>
      if s == [] || c !in t.reached then t
      else
        var end := t.reached[c] + |s|;
        Timeline(t.writes + [Write(c, t.reached[c], s)], t.reached[c := end], Max(t.head, end))
  }

  function AdvanceAll(t: Timeline, ops: seq<Op>): Timeline
    decreases |ops|
  {
    if ops == [] then t else AdvanceAll(Advance(t, ops[0]), ops[1..])
  }

  /** No feed of the run finds its client's offset already drained. */
  predicate NobodyLate(w: World, ops: seq<Op>)
    decreases |ops|
  {
    ops != [] ==>
      && (Heeded(w.live, ops[0]) ==> w.live.clientOffsets[ops[0].client] >= w.live.drained)
      && NobodyLate(Do(w, ops[0]), ops[1..])
  }

  predicate Mirrors(w: World, t: Timeline) {
    t == Timeline(w.writes, w.live.clientOffsets, w.live.Head())
  }

  lemma {:induction false} MirrorStep(w: World, t: Timeline, op: Op)
    requires Mirrors(w, t)
    requires Heeded(w.live, op) ==> w.live.clientOffsets[op.client] >= w.live.drained
    ensures Mirrors(Do(w, op), Advance(t, op))
  {
    hide Live.FeedFrom;
    if Heeded(w.live, op) { FeedFacts(w.live, op.client, op.samples); }
    else if op.Feed? { FeedIgnored(w.live, op.client, op.samples); }
  }

  /** As long as nobody is late, the bound is invisible: everything lands where the timeline puts it. */
  lemma {:induction false} BoundInvisible(w: World, t: Timeline, ops: seq<Op>)
    requires Mirrors(w, t) && NobodyLate(w, ops)
    ensures Mirrors(Run(w, ops), AdvanceAll(t, ops))
    decreases |ops|
  {
    hide Mirrors, Do, Advance;
    if ops != [] {
      MirrorStep(w, t, ops[0]);
      BoundInvisible(Do(w, ops[0]), Advance(t, ops[0]), ops[1..]);
    }
  }

  /** A full session without late clients: the buffer holds the sums of the timeline from its drain head on. */
  lemma {:induction false} SessionRefinesTimeline(l: Live, e: nat, ops: seq<Op>)
    requires NobodyLate(Session(l, e), ops)
    ensures var live := Run(Session(l, e), ops).live; var t := AdvanceAll(Timeline([], map[], 0), ops);
      && live.clientOffsets == t.reached && live.Head() == t.head
      && |live.data| == Min(live.Head(), live.maxSamples)
      && forall i :: 0 <= i < |live.data| ==> live.data[i] == Sum(t.writes, live.drained + i)
  {
    hide Do, Advance, Sum, NobodyLate;
    BoundInvisible(Session(l, e), Timeline([], map[], 0), ops);
    SessionWindow(l, e, ops);
  }

  // ---- the algebra of feeding -------------------------------------------------------------------

  /** Feeding in pieces is feeding at once, also across draining. */
  lemma {:induction false} FeedPieces(l: Live, c: SocketAddr, a: seq<Complex>, b: seq<Complex>)
    requires |l.data| <= l.maxSamples
    ensures l.FeedFrom(c, a).FeedFrom(c, b) == l.FeedFrom(c, a + b)
  {
    if a == [] {
      assert a + b == b;
    } else if b == [] {
      assert a + b == a;
    } else if c in l.clientOffsets {
      NextPiece(l, c, a, b);
    }
  }

  lemma {:induction false} NextPiece(l: Live, c: SocketAddr, a: seq<Complex>, b: seq<Complex>)
    requires |l.data| <= l.maxSamples && c in l.clientOffsets && a != [] && b != []
    ensures l.FeedFrom(c, a).FeedFrom(c, b) == l.FeedFrom(c, a + b)
  {
    hide Mix, Newest;
    var at := l.Landing(c) - l.drained;
    LandsBehind(l, c, a);
    MixConcat(l.data, at, a, b);
    TwoCuts(Mix(l.data, at, a), l.maxSamples, at + |a|, b);
    var x, y := l.Landing(c) + |a|, l.Landing(c) + |a + b|;
    MapTwice(l.clientOffsets, c, x, y);
  }

  lemma {:induction false} MapTwice(m: map<SocketAddr, nat>, c: SocketAddr, x: nat, y: nat)
    ensures m[c := x][c := y] == m[c := y]
  {}

  lemma {:induction false} LandsBehind(l: Live, c: SocketAddr, a: seq<Complex>)
    requires |l.data| <= l.maxSamples && c in l.clientOffsets && a != []
    ensures l.FeedFrom(c, a).Landing(c) == l.Landing(c) + |a|
  {
    hide Live.FeedFrom;
    FeedFacts(l, c, a);
  }

  /** Cutting, mixing behind the cut and cutting again is mixing and cutting once. */
  lemma {:induction false} TwoCuts(data: seq<Complex>, max: nat, at: nat, s: seq<Complex>)
    requires at >= MonusNat(|data|, max)
    ensures var cut := MonusNat(|data|, max);
      var kept := Mix(Newest(data, max), at - cut, s); var all := Mix(data, at, s);
      && Newest(kept, max) == Newest(all, max)
      && cut + MonusNat(|kept|, max) == MonusNat(|all|, max)
  {
    var cut := MonusNat(|data|, max);
    assert Newest(data, max) == data[cut..];
    hide Mix, Newest;
    MixDrop(data, cut, at, s);
    if cut > 0 { NewestOfRest(Mix(data, at, s), cut, max); }
    else { assert Mix(data, at, s)[0..] == Mix(data, at, s); }
  }

  /**
   The feed of one client drains nothing, or nothing the other one has still to write: its offset is no
   further behind the new write head than the buffer is long.
   */
  predicate Unhurt(l: Live, c: SocketAddr, s: seq<Complex>, other: SocketAddr)
    requires c in l.clientOffsets && other in l.clientOffsets
  {
    var head := Max(l.Head(), l.Landing(c) + |s|);
    head <= l.drained + l.maxSamples || head <= l.clientOffsets[other] + l.maxSamples
  }

  /** Two feeds by different clients, in either order, give the same buffer exactly when neither hurts the other. */
  lemma {:induction false} FeedsCommute(l: Live, c: SocketAddr, a: seq<Complex>, d: SocketAddr, b: seq<Complex>)
    requires c != d && c in l.clientOffsets && d in l.clientOffsets && a != [] && b != []
    ensures (l.FeedFrom(c, a).FeedFrom(d, b) == l.FeedFrom(d, b).FeedFrom(c, a))
        <==> (Unhurt(l, c, a, d) && Unhurt(l, d, b, c))
  {
    hide Mix, Newest, Live.FeedFrom, Unhurt;
    if Unhurt(l, c, a, d) && Unhurt(l, d, b, c) {
      SecondFeed(l, c, a, d, b);
      SecondFeed(l, d, b, c, a);
      MixCommutes(l.data, l.Landing(c) - l.drained, a, l.Landing(d) - l.drained, b);
      MapSwap(l.clientOffsets, c, l.Landing(c) + |a|, d, l.Landing(d) + |b|);
    } else if !Unhurt(l, c, a, d) {
      HurtShows(l, c, a, d, b);
    } else {
      HurtShows(l, d, b, c, a);
    }
  }

  lemma {:induction false} MapSwap(m: map<SocketAddr, nat>, c: SocketAddr, x: nat, d: SocketAddr, y: nat)
    requires c != d
    ensures m[c := x][d := y] == m[d := y][c := x]
  {}

  /** A client hurt by another's feed ends up further than if it had been served first. */
  lemma {:induction false} HurtShows(l: Live, c: SocketAddr, a: seq<Complex>, d: SocketAddr, b: seq<Complex>)
    requires c != d && c in l.clientOffsets && d in l.clientOffsets && a != [] && b != []
    requires !Unhurt(l, c, a, d)
    ensures l.FeedFrom(c, a).FeedFrom(d, b).clientOffsets[d] > l.FeedFrom(d, b).FeedFrom(c, a).clientOffsets[d]
  {
    hide Mix, Newest, Live.FeedFrom;
    FeedFacts(l, c, a);
    FeedFacts(l, d, b);
    FeedFacts(l.FeedFrom(c, a), d, b);
    FeedFacts(l.FeedFrom(d, b), c, a);
  }

  /** The state after two feeds of which the second is not hurt by the first. */
  lemma {:induction false} SecondFeed(l: Live, c: SocketAddr, a: seq<Complex>, d: SocketAddr, b: seq<Complex>)
    requires c != d && c in l.clientOffsets && d in l.clientOffsets && a != [] && b != []
    requires Unhurt(l, c, a, d)
    ensures var all := Mix(Mix(l.data, l.Landing(c) - l.drained, a), l.Landing(d) - l.drained, b);
      l.FeedFrom(c, a).FeedFrom(d, b) ==
        l.(data := Newest(all, l.maxSamples), drained := l.drained + MonusNat(|all|, l.maxSamples),
           clientOffsets := l.clientOffsets[c := l.Landing(c) + |a|][d := l.Landing(d) + |b|])
  {
    hide Mix, Newest;
    TwoCuts(Mix(l.data, l.Landing(c) - l.drained, a), l.maxSamples, l.Landing(d) - l.drained, b);
  }
}
