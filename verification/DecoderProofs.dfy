/** The decoder refines a pure reading of the key line, and polls never change what it will have decoded. */
module DecoderProofs {
  import opened Base
  import opened Morse
  import opened Decoder

  // ---- polls -----------------------------------------------------------------------------

  datatype Event = Edge(us: nat, down: bool) | Polled(us: nat)

  function Hear(l: Listener, e: Event, wpm: u8): Listener {
    match e
    case Edge(us, down) => l.OnTransition(us, down, wpm)
    case Polled(us) => l.Poll(us, wpm)
  }

  function HearAll(l: Listener, events: seq<Event>, wpm: u8): Listener {
    if events == [] then l else Hear(HearAll(l, events[..|events| - 1], wpm), events[|events| - 1], wpm)
  }

  function Edges(events: seq<Event>): seq<Event> {
    if events == [] then []
    else
      var e := events[|events| - 1];
      Edges(events[..|events| - 1]) + (if e.Edge? then [e] else [])
  }

  /** Times do not decrease, and a key-up only follows a key-down. */
  predicate InOrder(events: seq<Event>) {
    && (forall i :: 0 < i < |events| ==> events[i - 1].us <= events[i].us)
    && KeyAlternates(Edges(events))
  }

  predicate KeyAlternates(edges: seq<Event>) {
    forall i :: 0 <= i < |edges| ==> edges[i].Edge? && edges[i].down == (i % 2 == 0)
  }

  lemma {:induction false} EmitPendingTwice(l: Listener)
    ensures l.EmitPending().EmitPending() == l.EmitPending()
  {
    hide Lookup;
  }

  /** Processing a gap early and again later is the same as processing it once, at its full length. */
  lemma {:induction false} GapTwice(l: Listener, g: nat, h: nat, ditUs: nat)
    requires g <= h
    ensures l.ProcessGap(g, ditUs).ProcessGap(h, ditUs) == l.ProcessGap(h, ditUs)
  {
    hide Lookup;
    EmitPendingTwice(l);
    if g >= 6 * ditUs { EmitPendingTwice(l.EmitPending()); SpaceThenPending(l.EmitPending()); }
  }

  lemma {:induction false} SpaceThenPending(l: Listener)
    requires l.accum == 1
    ensures l.EmitSpace().EmitPending() == l.EmitSpace()
  {}

  /** The state a single poll at time `us` would leave. */
  function Settle(l: Listener, us: nat, wpm: u8): Listener { l.Poll(us, wpm) }

  function LastUs(events: seq<Event>): nat { if events == [] then 0 else events[|events| - 1].us }

  /**
   Poll transparency: however many polls are mixed into alternating edges, and whenever they come, the
   state is the one the edges alone lead to, polled once at the time of the last event.
   */
  lemma {:induction false} PollTransparency(events: seq<Event>, wpm: u8)
    requires InOrder(events)
    ensures HearAll(FRESH, events, wpm) == Settle(HearAll(FRESH, Edges(events), wpm), LastUs(events), wpm)
    ensures HearAll(FRESH, Edges(events), wpm).lastUs <= LastUs(events)
  {
    hide Listener.OnTransition, Listener.Poll, KeyAlternates, Settle;
    if events == [] {
      NothingToSettle(wpm);
    } else {
      var n := |events| - 1;
      var before, e := events[..n], events[n];
      var edges := Edges(before);
      assert InOrder(before) by { PrefixInOrder(events, n); }
      PollTransparency(before, wpm);
      assert LastUs(before) <= e.us;
      var l := HearAll(FRESH, edges, wpm);
      if e.Edge? {
        KeyUpNeedsDown(edges, e, wpm);
        assert (edges + [e])[..|edges|] == edges;
        assert Edges(events) == edges + [e] && Edges(events)[|edges|] == e;
        EdgeAfterPolls(l, LastUs(before), e, wpm);
      } else {
        assert edges + [] == edges;
        PollAfterPolls(l, LastUs(before), e.us, wpm);
      }
    }
  }

  lemma {:induction false} PrefixInOrder(events: seq<Event>, n: nat)
    requires InOrder(events) && |events| == n + 1
    ensures InOrder(events[..n])
  {
    assert forall i :: 0 <= i < |Edges(events[..n])| ==> Edges(events)[i] == Edges(events[..n])[i];
  }

  /** The line is down exactly after an odd number of alternating edges. */
  lemma {:induction false} LineOfEdges(edges: seq<Event>, wpm: u8)
    requires KeyAlternates(edges)
    ensures HearAll(FRESH, edges, wpm).line ==
      if edges == [] then Idle else if |edges| % 2 == 1 then Down else Up
  {
    hide Listener.ProcessGap, Listener.ProcessPulse;
  }

  lemma {:induction false} NothingToSettle(wpm: u8)
    ensures Settle(FRESH, 0, wpm) == FRESH
  {}

  lemma {:induction false} KeyUpNeedsDown(edges: seq<Event>, e: Event, wpm: u8)
    requires KeyAlternates(edges + [e]) && e.Edge?
    ensures !e.down ==> HearAll(FRESH, edges, wpm).line == Down
  {
    hide Listener.OnTransition;
    assert forall i :: 0 <= i < |edges| ==> edges[i] == (edges + [e])[i];
    assert e == (edges + [e])[|edges|];
    LineOfEdges(edges, wpm);
  }

  lemma {:induction false} EdgeAfterPolls(l: Listener, us: nat, e: Event, wpm: u8)
    requires e.Edge? && l.lastUs <= us <= e.us && (!e.down ==> l.line == Down)
    ensures Hear(Settle(l, us, wpm), e, wpm) == Settle(Hear(l, e, wpm), e.us, wpm)
    ensures Hear(l, e, wpm).lastUs == e.us
  {
    hide Lookup;
    if l.line == Up {
      GapTwice(l, us - l.lastUs, e.us - l.lastUs, DitUs(wpm));
      GapKeeps(l, us - l.lastUs, DitUs(wpm));
    }
  }

  lemma {:induction false} GapKeeps(l: Listener, g: nat, ditUs: nat)
    ensures var m := l.ProcessGap(g, ditUs); m.line == l.line && m.lastUs == l.lastUs
  {
    hide Lookup;
  }

  lemma {:induction false} PollAfterPolls(l: Listener, us: nat, later: nat, wpm: u8)
    requires l.lastUs <= us <= later
    ensures Settle(l, us, wpm).Poll(later, wpm) == Settle(l, later, wpm)
  {
    hide Lookup, Listener.ProcessGap;
    if l.line == Up {
      GapTwice(l, us - l.lastUs, later - l.lastUs, DitUs(wpm));
      GapKeeps(l, us - l.lastUs, DitUs(wpm));
    }
  }

  // ---- what the key line says ---------------------------------------------------------------

  /** Pulses in time order, not overlapping. */
  predicate Ordered(ps: seq<Pulse>) {
    && (forall i :: 0 <= i < |ps| ==> ps[i].down <= ps[i].up)
    && (forall i :: 0 < i < |ps| ==> ps[i - 1].up <= ps[i].down)
  }

  function PulseEdges(ps: seq<Pulse>): seq<Event> {
    if ps == [] then []
    else
      var p := ps[|ps| - 1];
      PulseEdges(ps[..|ps| - 1]) + [Edge(p.down, true), Edge(p.up, false)]
  }

  /** A pulse of at least two dits is a dash. */
  function Symbol(p: Pulse, ditUs: nat): char {
    if p.up - p.down >= 2 * ditUs then '-' else '.'
  }

  /** The character of a pattern, if it has at most six elements and stands for one. */
  function Letter(pattern: string): string {
    var ch := if 1 <= |pattern| <= 6 then Lookup(Pack(pattern)) else '\0';
    if ch != '\0' then [ch] else []
  }

  /** What has been read: finished characters and spaces, and the pattern still open. */
  datatype Reading = Reading(text: string, pattern: string)

  /** Patterns end at gaps of two dits or more, words at gaps of six dits or more. */
  function Read(ps: seq<Pulse>, ditUs: nat): Reading {
    if ps == [] then Reading("", "")
    else
      var n := |ps| - 1;
      var before := Read(ps[..n], ditUs);
      var s := [Symbol(ps[n], ditUs)];
      if n == 0 then Reading("", s)
      else
        var gap := ps[n].down - ps[n - 1].up;
        if gap >= 6 * ditUs then Reading(before.text + Letter(before.pattern) + " ", s)
        else if gap >= 2 * ditUs then Reading(before.text + Letter(before.pattern), s)
        else Reading(before.text, before.pattern + s)
  }

  lemma {:induction false} PackBounds(p: string)
    ensures |p| <= 6 ==> Pack(p) < 128
    ensures |p| <= 7 ==> Pack(p) < 256
    ensures |p| == 7 ==> Pack(p) >= 128
    ensures |p| >= 1 ==> Pack(p) >= 2
  {
    PackPower(p);
    if |p| < 7 { PowerMonotone(|p|, 6); }
    if |p| > 1 { PowerMonotone(1, |p|); }
  }

  function Power2(k: nat): nat { if k == 0 then 1 else 2 * Power2(k - 1) }

  lemma {:induction false} PackPower(p: string)
    ensures Power2(|p|) <= Pack(p) < 2 * Power2(|p|)
  {
    if p != [] { PackPower(p[..|p| - 1]); }
  }

  lemma {:induction false} PowerMonotone(a: nat, b: nat)
    requires a <= b
    ensures Power2(a) <= Power2(b)
  {
    if a < b { PowerMonotone(a, b - 1); }
  }

  /** The accumulator of a pattern: packed up to seven elements, zero beyond. */
  function Accum(pattern: string): u8 {
    PackBounds(pattern);
    if |pattern| <= 7 then Pack(pattern) else 0
  }

  lemma {:induction false} PulseShifts(l: Listener, pattern: string, p: Pulse, ditUs: nat)
    requires l.accum == Accum(pattern) && p.down <= p.up
    ensures l.ProcessPulse(p.up - p.down, ditUs) == l.(accum := Accum(pattern + [Symbol(p, ditUs)]))
  {
    PackBounds(pattern);
    assert (pattern + [Symbol(p, ditUs)])[..|pattern|] == pattern;
  }

  lemma {:induction false} PendingIsLetter(l: Listener, pattern: string)
    requires l.accum == Accum(pattern)
    ensures l.EmitPending() == l.(accum := 1, log := l.log + Letter(pattern))
  {
    hide Lookup;
    PackBounds(pattern);
    if pattern == [] { assert Pack(pattern) == 1; }
    assert l.log + [] == l.log;
  }

  lemma {:induction false} GapReads(l: Listener, pattern: string, g: nat, ditUs: nat)
    requires l.accum == Accum(pattern) && !l.spaceEmitted && ditUs > 0
    ensures l.ProcessGap(g, ditUs) ==
      if g >= 6 * ditUs then l.(accum := 1, spaceEmitted := true, log := l.log + Letter(pattern) + " ")
      else if g >= 2 * ditUs then l.(accum := 1, log := l.log + Letter(pattern))
      else l
  {
    hide Listener.EmitPending, Letter, Accum;
    PendingIsLetter(l, pattern);
  }

  /** What the decoder is after the edges of some pulses. */
  function Heard(r: Reading, us: nat): Listener { Listener(Up, us, Accum(r.pattern), false, r.text) }

  lemma {:induction false} HearTwo(es: seq<Event>, d: Event, u: Event, wpm: u8)
    ensures HearAll(FRESH, es + [d, u], wpm) == Hear(Hear(HearAll(FRESH, es, wpm), d, wpm), u, wpm)
  {
    hide Hear;
    assert (es + [d, u])[..|es| + 1] == es + [d] && (es + [d])[..|es|] == es;
  }

  /**
   The decoder refines the reading: after the edges of any pulses, its log is the text read so far and
   its accumulator the packed pattern that is still open.
   */
  lemma {:induction false} ReadingRefined(ps: seq<Pulse>, wpm: u8)
    requires Ordered(ps) && ps != []
    ensures HearAll(FRESH, PulseEdges(ps), wpm) == Heard(Read(ps, DitUs(wpm)), ps[|ps| - 1].up)
  {
    hide Listener.OnTransition, Accum, Letter;
    var n := |ps| - 1;
    var p := ps[n];
    var es, d, u := PulseEdges(ps[..n]), Edge(p.down, true), Edge(p.up, false);
    HearTwo(es, d, u, wpm);
    if n == 0 {
      FirstPulse(p, wpm);
      assert es == [] && ps[..n] == [];
    } else {
      ReadingRefined(ps[..n], wpm);
      NextPulse(Read(ps[..n], DitUs(wpm)), ps[n - 1].up, p, wpm);
    }
  }

  /** The end of a pulse adds its symbol to the open pattern. */
  lemma {:induction false} PulseEnds(l: Listener, pattern: string, p: Pulse, wpm: u8)
    requires l.line == Down && l.lastUs == p.down && l.accum == Accum(pattern) && p.down <= p.up
    ensures l.OnTransition(p.up, false, wpm)
      == Heard(Reading(l.log, pattern + [Symbol(p, DitUs(wpm))]), p.up)
  {
    hide DitUs, Listener.ProcessPulse, Accum, Symbol;
    PulseShifts(l, pattern, p, DitUs(wpm));
  }

  lemma {:induction false} FirstPulse(p: Pulse, wpm: u8)
    requires p.down <= p.up
    ensures FRESH.OnTransition(p.down, true, wpm).OnTransition(p.up, false, wpm)
      == Heard(Reading("", [Symbol(p, DitUs(wpm))]), p.up)
  {
    hide DitUs, Listener.ProcessPulse, Listener.ProcessGap, Accum, Symbol;
    var l := FRESH.OnTransition(p.down, true, wpm);
    assert l == FRESH.(line := Down, lastUs := p.down);
    EmptyAccum();
    PulseEnds(l, [], p, wpm);
    assert [] + [Symbol(p, DitUs(wpm))] == [Symbol(p, DitUs(wpm))];
  }

  lemma {:induction false} NextPulse(r: Reading, us: nat, p: Pulse, wpm: u8)
    requires us <= p.down <= p.up
    ensures
      var dit := DitUs(wpm);
      var s := [Symbol(p, dit)];
      var m := Heard(r, us).OnTransition(p.down, true, wpm).OnTransition(p.up, false, wpm);
      m == Heard(if p.down - us >= 6 * dit then Reading(r.text + Letter(r.pattern) + " ", s)
                 else if p.down - us >= 2 * dit then Reading(r.text + Letter(r.pattern), s)
                 else Reading(r.text, r.pattern + s), p.up)
  {
    hide DitUs, Listener.ProcessGap, Letter, Accum, Symbol;
    var dit := DitUs(wpm);
    DitPositive(wpm);
    GapReads(Heard(r, us), r.pattern, p.down - us, dit);
    var l := Heard(r, us).OnTransition(p.down, true, wpm);
    EmptyAccum();
    assert [] + [Symbol(p, dit)] == [Symbol(p, dit)];
    PulseEnds(l, if p.down - us >= 2 * dit then [] else r.pattern, p, wpm);
  }

  lemma {:induction false} DitPositive(wpm: u8)
    ensures DitUs(wpm) > 0
  {}

  lemma {:induction false} EmptyAccum()
    ensures Accum([]) == 1
  {}

  /**
   The log after any alternating edges and any polls: everything read, plus the open character once the
   silence lasts two dits, plus a single space once it lasts six.
   */
  lemma {:induction false} LogRefined(ps: seq<Pulse>, events: seq<Event>, wpm: u8)
    requires ps != [] && Ordered(ps) && InOrder(events) && Edges(events) == PulseEdges(ps)
    ensures var r := Read(ps, DitUs(wpm)); var silence := LastUs(events) - ps[|ps| - 1].up;
      HearAll(FRESH, events, wpm).log ==
        r.text
        + (if silence >= 2 * DitUs(wpm) then Letter(r.pattern) else "")
        + (if silence >= 6 * DitUs(wpm) then " " else "")
  {
    hide Listener.ProcessGap, Letter, Accum, DitUs, Read;
    PollTransparency(events, wpm);
    ReadingRefined(ps, wpm);
    DitPositive(wpm);
    var r := Read(ps, DitUs(wpm));
    var l := Heard(r, ps[|ps| - 1].up);
    GapReads(l, r.pattern, LastUs(events) - l.lastUs, DitUs(wpm));
    assert r.text + Letter(r.pattern) + "" == r.text + Letter(r.pattern) && r.text + "" + "" == r.text;
  }

  /** After a reset, whatever was heard before, any alternating edges and polls are decoded as from the start. */
  lemma {:induction false} ClearForgets(l: Listener, events: seq<Event>, wpm: u8)
    requires KeyAlternates(Edges(events))
    ensures var a, b := HearAll(l.Clear(), events, wpm), HearAll(FRESH, events, wpm);
      && a.log == b.log && a.line == b.line && a.accum == b.accum && a.spaceEmitted == b.spaceEmitted
      && (Edges(events) != [] ==> a == b)
      && (Edges(events) == [] ==> a.line == Idle)
  {
    hide Listener.ProcessPulse, Listener.ProcessGap;
    if events != [] {
      var n := |events| - 1;
      EdgesPrefix(events);
      ClearForgets(l, events[..n], wpm);
    }
  }

  lemma {:induction false} EdgesPrefix(events: seq<Event>)
    requires events != [] && KeyAlternates(Edges(events))
    ensures var n := |events| - 1; var before := Edges(events[..n]);
      && KeyAlternates(before)
      && (events[n].Edge? ==> Edges(events) == before + [events[n]] && (before == [] ==> events[n].down))
      && (!events[n].Edge? ==> Edges(events) == before)
  {
    var n := |events| - 1;
    var before := Edges(events[..n]);
    assert forall i :: 0 <= i < |before| ==> Edges(events)[i] == before[i];
    if events[n].Edge? { assert Edges(events)[|before|] == events[n]; }
  }
}
