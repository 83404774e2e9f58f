/** Text sent by the ticking engine comes back out of the decoder. */
module RoundTrip {
  import opened Base
  import opened KeyerConfig
  import opened Morse
  import opened TextEncoder
  import opened CodeTables
  import Engine
  import opened KeyerText
  import Decoder
  import opened DecoderProofs

  // ---- what the decoder should say ---------------------------------------------------------

  /** Some character of the text has a Morse pattern. */
  predicate Started(text: string) { exists i :: 0 <= i < |text| && text[i] != ' ' && Known(text[i]) }

  /**
   The text as it should be heard: known characters in upper case as far as the decoder knows them, and
   one space before each character that a space separates from an earlier one.
   */
  function Heard(text: string): string {
    if text == [] then ""
    else
      var n := |text| - 1;
      var before, c := text[..n], text[n];
      if c == ' ' || !Known(c) then Heard(before)
      else Heard(before) + (if Started(before) && FirstAfter(before, true) then " " else "") + Decoded(c)
  }

  // ---- timing assumptions --------------------------------------------------------------------

  /**
   When engine and decoder agree on the speed: elements, gaps and their rounding to ticks stay on the
   right side of the decoder's thresholds of two and six dits.
   */
  predicate Legible(c: Config, q: Engine.Quantum) {
    && c.mode != Straight
    && 3 * q <= c.DotDurationUs()
    && c.keyingCompensationMs * 1000 + q <= c.DotDurationUs()
    && 2 * c.DotDurationUs() + q <= c.EffectiveDashUs()
    && c.LetterGapUs() + 3 * q <= 6 * c.DotDurationUs()
  }

  lemma {:induction false} LegibleFits(c: Config, q: Engine.Quantum)
    requires Legible(c, q)
    ensures TickFits(c, q)
  {
    hide Config.DotDurationUs, Config.EffectiveDashUs, Config.LetterGapUs;
  }

  /** Standard weight without dynamic ratio, Farnsworth spacing or compensation is legible at any speed. */
  lemma {:induction false} StandardLegible(c: Config, q: Engine.Quantum)
    requires c.mode != Straight && c.weight == 50 && !c.dynamicRatio && c.farnsworthWpm == 0
    requires c.keyingCompensationMs == 0 && 3 * q <= c.DotDurationUs()
    ensures Legible(c, q)
  {
    hide Config.DotDurationUs;
    assert c.DashDurationUs() == 3 * c.DotDurationUs();
  }

  // ---- reading one pattern ----------------------------------------------------------------------

  function SymbolOf(e: Element): char { if e == Dash then '-' else '.' }

  /** A keyed element is read as what it is, even when it lost a tick to the PTT request. */
  lemma {:induction false} ElementRead(c: Config, q: Engine.Quantum, e: Element, start: nat, late: bool)
    requires Legible(c, q) && e.Keyed()
    ensures var end := start + RoundUp(ElemUs(c, e), q);
      var down := if late then start + q else start;
      down <= end && Symbol(Pulse(down, end), c.DotDurationUs()) == SymbolOf(e)
  {
    hide Config.DotDurationUs, Config.LetterGapUs, Config.DashDurationUs, RoundUp;
  }

  /** How long the key is up across one gap element. */
  function GapSilence(c: Config, q: Engine.Quantum, g: Element): nat { 2 * q + RoundUp(ElemUs(c, g), q) }

  lemma {:induction false} GapsRead(c: Config, q: Engine.Quantum)
    requires Legible(c, q)
    ensures var d := c.DotDurationUs();
      && GapSilence(c, q, ElementGap) < 2 * d
      && 2 * d <= GapSilence(c, q, LetterGap) < 6 * d
      && 6 * d <= GapSilence(c, q, WordGap)
  {
    hide Config.DotDurationUs, RoundUp;
  }

  /** The reading after one more pulse. */
  lemma {:induction false} ReadSnoc(ps: seq<Pulse>, p: Pulse, d: nat)
    requires Ordered(ps) && p.down <= p.up && (ps != [] ==> ps[|ps| - 1].up <= p.down)
    ensures Ordered(ps + [p])
    ensures var r, s := Read(ps, d), [Symbol(p, d)];
      Read(ps + [p], d) ==
        if ps == [] then Reading("", s)
        else
          var gap := p.down - ps[|ps| - 1].up;
          if gap >= 6 * d then Reading(r.text + Letter(r.pattern) + " ", s)
          else if gap >= 2 * d then Reading(r.text + Letter(r.pattern), s)
          else Reading(r.text, r.pattern + s)
  {
    hide Letter, Symbol;
    assert (ps + [p])[..|ps|] == ps;
  }

  /** What is finished when a new pattern starts at `down`, after the pulses `ps`. */
  function Finished(ps: seq<Pulse>, down: nat, d: nat): string {
    var r := Read(ps, d);
    if ps == [] then ""
    else if down - ps[|ps| - 1].up >= 6 * d then r.text + Letter(r.pattern) + " "
    else r.text + Letter(r.pattern)
  }

  function Dot(c: Config): nat { c.DotDurationUs() }

  /** The elements `es`, keyed from idle at `now` after the pulses `ps`, are read as the open pattern `p`. */
  predicate Spelled(c: Config, q: Engine.Quantum, ps: seq<Pulse>, now: nat, es: seq<Element>, p: string) {
    var ks := Keying(c, q, es, now, ps != []);
    && ks != [] && Ordered(ps + ks)
    && (ps + ks)[|ps + ks| - 1].up == NowAfter(c, q, es, now)
    && Read(ps + ks, Dot(c)) == Reading(Finished(ps, now + q, Dot(c)), p)
  }

  predicate Symbols(p: string) { forall k :: 0 <= k < |p| ==> p[k] == '.' || p[k] == '-' }

  lemma {:induction false} FirstSymbol(c: Config, q: Engine.Quantum, ps: seq<Pulse>, now: nat, e: Element)
    requires Legible(c, q) && Ordered(ps) && e.Keyed()
    requires ps != [] ==> ps[|ps| - 1].up <= now && now + q - ps[|ps| - 1].up >= 2 * Dot(c)
    ensures Spelled(c, q, ps, now, [e], [SymbolOf(e)])
  {
    hide Legible, Config.DotDurationUs, RoundUp, ElemUs, Letter, Read, Ordered, Keying, NowAfter, Symbol;
    OneElement(c, q, e, now, ps != []);
    ElementRead(c, q, e, now + q, ps == []);
    ReadSnoc(ps, Keying(c, q, [e], now, ps != [])[0], Dot(c));
  }

  lemma {:induction false} NextSymbol(c: Config, q: Engine.Quantum, ps: seq<Pulse>, now: nat, es: seq<Element>,
                                      p: string, e: Element)
    requires Legible(c, q) && e.Keyed() && Spelled(c, q, ps, now, es, p)
    ensures Spelled(c, q, ps, now, es + [ElementGap, e], p + [SymbolOf(e)])
  {
    hide Legible, Config.DotDurationUs, RoundUp, ElemUs, Letter, Read, Ordered, Keying, NowAfter, Symbol, Finished;
    KeyingSplit(c, q, es, [ElementGap, e], now, ps != []);
    var ks, t := Keying(c, q, es, now, ps != []), NowAfter(c, q, es, now);
    GapThenElement(c, q, ElementGap, e, t);
    var last := Keying(c, q, [ElementGap, e], t, true);
    GapsRead(c, q);
    ElementRead(c, q, e, t + GapSilence(c, q, ElementGap), false);
    ReadSnoc(ps + ks, last[0], Dot(c));
    assert ps + (ks + last) == (ps + ks) + [last[0]];
  }

  function ElementOf(symbol: char): Element { if symbol == '-' then Dash else Dit }

  lemma {:induction false} LastSymbol(p: string)
    requires p != [] && Symbols(p)
    ensures var n := |p| - 1; var e := ElementOf(p[n]);
      && Symbols(p[..n])
      && e.Keyed() && p == p[..n] + [SymbolOf(e)]
      && PatternElements(p) == if n == 0 then [e] else PatternElements(p[..n]) + [ElementGap, e]
  {
    var n := |p| - 1;
    if n == 0 { assert PatternElements(p[..0]) == []; }
    else {
      var e := ElementOf(p[n]);
      assert PatternElements(p) == PatternElements(p[..n]) + [ElementGap] + [e];
    }
  }

  /** A pattern keyed from idle at `now`, more than a letter gap after the last pulse, is read as itself. */
  lemma {:induction false} PatternRead(c: Config, q: Engine.Quantum, ps: seq<Pulse>, now: nat, p: string)
    requires Legible(c, q) && Ordered(ps) && p != [] && Symbols(p)
    requires ps != [] ==> ps[|ps| - 1].up <= now && now + q - ps[|ps| - 1].up >= 2 * Dot(c)
    ensures Spelled(c, q, ps, now, PatternElements(p), p)
    decreases |p|
  {
    hide Legible, Dot, Ordered, Spelled, Symbols, PatternElements, ElementOf, Element.Keyed;
    var n := |p| - 1;
    var e := ElementOf(p[n]);
    LastSymbol(p);
    if n == 0 {
      FirstSymbol(c, q, ps, now, e);
    } else {
      PatternRead(c, q, ps, now, p[..n]);
      NextSymbol(c, q, ps, now, PatternElements(p[..n]), p[..n], e);
    }
  }

  lemma {:induction false} OneElement(c: Config, q: Engine.Quantum, e: Element, now: nat, ptt: bool)
    requires e.Keyed()
    ensures var end := now + q + RoundUp(ElemUs(c, e), q);
      && Keying(c, q, [e], now, ptt) == [Pulse(if ptt then now + q else now + 2 * q, end)]
      && NowAfter(c, q, [e], now) == end
  {
    hide ElemUs, RoundUp;
    assert Keying(c, q, [], now + q + RoundUp(ElemUs(c, e), q), true) == [];
  }

  lemma {:induction false} GapThenElement(c: Config, q: Engine.Quantum, g: Element, e: Element, now: nat)
    requires !g.Keyed() && e.Keyed()
    ensures var start := now + GapSilence(c, q, g); var end := start + RoundUp(ElemUs(c, e), q);
      && Keying(c, q, [g, e], now, true) == [Pulse(start, end)]
      && NowAfter(c, q, [g, e], now) == end
  {
    hide ElemUs, RoundUp;
    var t := now + q + RoundUp(ElemUs(c, g), q);
    OneElement(c, q, e, t, true);
    assert [g, e][1..] == [e];
  }

  // ---- reading a whole text ---------------------------------------------------------------------

  /** The elements so far are read as `heard`, and the time since the last pulse fits what comes next. */
  predicate Caught(c: Config, q: Engine.Quantum, es: seq<Element>, heard: string, started: bool, first: bool) {
    var ps := Keying(c, q, es, 0, false);
    var now := NowAfter(c, q, es, 0);
    var r := Read(ps, Dot(c));
    && Ordered(ps)
    && (ps != []) == started
    && r.text + Letter(r.pattern) == heard
    && (!started ==> first)
    && (started ==>
      var up := ps[|ps| - 1].up;
      up <= now && if first then now + q - up >= 6 * Dot(c) else now == up)
  }

  lemma {:induction false} CaughtNothing(c: Config, q: Engine.Quantum)
    ensures Caught(c, q, [], "", false, true)
  {
    hide Dot, Letter;
    NothingRead();
    assert Read([], Dot(c)) == Reading("", "");
  }

  /** A gap element keys nothing and lets time pass. */
  lemma {:induction false} GapAlone(c: Config, q: Engine.Quantum, es: seq<Element>, g: Element)
    requires !g.Keyed()
    ensures Keying(c, q, es + [g], 0, false) == Keying(c, q, es, 0, false)
    ensures NowAfter(c, q, es + [g], 0) == NowAfter(c, q, es, 0) + q + RoundUp(ElemUs(c, g), q)
  {
    hide ElemUs, RoundUp;
    KeyingSplit(c, q, es, [g], 0, false);
    var ps, t := Keying(c, q, es, 0, false), NowAfter(c, q, es, 0);
    assert Keying(c, q, [], t + q + RoundUp(ElemUs(c, g), q), ps != []) == [];
    assert Keying(c, q, [g], t, ps != []) == [] && ps + [] == ps;
  }

  lemma {:induction false} CaughtSpace(c: Config, q: Engine.Quantum, es: seq<Element>, heard: string,
                                       started: bool, first: bool)
    requires Legible(c, q) && Caught(c, q, es, heard, started, first)
    ensures Caught(c, q, es + [WordGap], heard, started, true)
  {
    hide Legible, Ordered, Read, Letter, Keying, NowAfter, ElemUs, RoundUp, Config.DotDurationUs;
    GapAlone(c, q, es, WordGap);
    GapsRead(c, q);
  }

  lemma {:induction false} CaughtLetter(c: Config, q: Engine.Quantum, es: seq<Element>, heard: string,
                                        started: bool, first: bool, p: string)
    requires Legible(c, q) && Caught(c, q, es, heard, started, first) && p != [] && Symbols(p)
    ensures Caught(c, q, es + ((if first then [] else [LetterGap]) + PatternElements(p)),
                   heard + (if started && first then " " else "") + Letter(p), true, false)
  {
    hide Legible, Ordered, Read, Letter, Keying, NowAfter, ElemUs, RoundUp, Config.DotDurationUs, Symbols;
    var before := if first then es else es + [LetterGap];
    if !first {
      GapAlone(c, q, es, LetterGap);
      GapsRead(c, q);
    }
    var ps, now := Keying(c, q, before, 0, false), NowAfter(c, q, before, 0);
    PatternRead(c, q, ps, now, p);
    KeyingSplit(c, q, before, PatternElements(p), 0, false);
    if first { assert [] + PatternElements(p) == PatternElements(p); }
    else { assert es + ([LetterGap] + PatternElements(p)) == before + PatternElements(p); }
    CaughtFinished(c, q, ps, now, heard, started, first);
    assert heard + "" == heard;
  }

  lemma {:induction false} CaughtFinished(c: Config, q: Engine.Quantum, ps: seq<Pulse>, now: nat, heard: string,
                                          started: bool, first: bool)
    requires (ps != []) == started
    requires var r := Read(ps, Dot(c)); r.text + Letter(r.pattern) == heard
    requires started ==> ps[|ps| - 1].up <= now && (first <==> now + q - ps[|ps| - 1].up >= 6 * Dot(c))
    ensures Finished(ps, now + q, Dot(c)) == heard + (if started && first then " " else "")
  {
    hide Letter, Config.DotDurationUs;
    NothingRead();
    assert heard + "" == heard;
  }

  lemma {:induction false} NothingRead()
    ensures Letter("") == ""
  {}

  lemma {:induction false} FirstAfterSnoc(s: string, c: char, first: bool)
    ensures FirstAfter(s + [c], first) == FirstNext(c, FirstAfter(s, first))
  {
    hide FirstNext;
    if s == [] {
      assert s + [c] == [c];
    } else {
      assert (s + [c])[1..] == s[1..] + [c];
      FirstAfterSnoc(s[1..], c, FirstNext(s[0], first));
    }
  }

  lemma {:induction false} StartedSnoc(s: string, c: char)
    ensures Started(s + [c]) == (Started(s) || (c != ' ' && Known(c)))
  {
    hide Known;
    if Started(s) {
      var i :| 0 <= i < |s| && s[i] != ' ' && Known(s[i]);
      assert (s + [c])[i] == s[i];
    }
    assert (s + [c])[|s|] == c;
  }

  lemma {:induction false} ElementsSnoc(s: string, c: char)
    ensures Elements(s + [c], true) == Elements(s, true) + CharElements(c, FirstAfter(s, true))
  {
    hide CharElements, FirstNext;
    var first := FirstAfter(s, true);
    ElementsConcat(s, [c], true);
    assert Elements([c], first) == CharElements(c, first) + Elements([], FirstNext(c, first));
    assert CharElements(c, first) + [] == CharElements(c, first);
  }

  /** Every text is read as it should be heard, except for its last character, which is still open. */
  lemma {:induction false} TextCaught(c: Config, q: Engine.Quantum, text: string)
    requires Legible(c, q)
    ensures Caught(c, q, Elements(text, true), Heard(text), Started(text), FirstAfter(text, true))
  {
    hide Legible, Caught, Pattern, Elements, FirstAfter, Letter, Started, PatternElements;
    if text == [] {
      CaughtNothing(c, q);
      EmptyText();
    } else {
      var n := |text| - 1;
      var s, ch := text[..n], text[n];
      assert text == s + [ch];
      TextCaught(c, q, s);
      ElementsSnoc(s, ch);
      FirstAfterSnoc(s, ch, true);
      StartedSnoc(s, ch);
      var es, first := Elements(s, true), FirstAfter(s, true);
      if ch == ' ' {
        CaughtSpace(c, q, es, Heard(s), Started(s), first);
      } else if Known(ch) {
        PatternSymbols(ch);
        LetterOfKnown(ch);
        CaughtLetter(c, q, es, Heard(s), Started(s), first, Pattern(ch).value);
        assert CharElements(ch, first) == (if first then [] else [LetterGap]) + PatternElements(Pattern(ch).value);
        assert FirstNext(ch, first) == false;
        assert Started(text);
        assert Heard(text) == Heard(s) + (if Started(s) && first then " " else "") + Decoded(ch);
      } else {
        assert es + [] == es;
      }
    }
  }

  lemma {:induction false} EmptyText()
    ensures Elements([], true) == [] && !Started([]) && FirstAfter([], true)
  {}

  lemma {:induction false} PatternSymbols(ch: char)
    requires Known(ch)
    ensures Pattern(ch).value != [] && Symbols(Pattern(ch).value)
  {
    PatternWellFormed(ch);
  }

  // ---- from the engine's edges to the decoder's ------------------------------------------------------

  /** The key edges as the decoder is told them. */
  function ToEvents(ts: seq<Engine.KeyTransition>): seq<Event> {
    if ts == [] then [] else [Edge(ts[0].timestampUs, ts[0].keyDown)] + ToEvents(ts[1..])
  }

  lemma {:induction false} EdgesConcat(a: seq<Pulse>, b: seq<Pulse>)
    ensures DecoderProofs.PulseEdges(a + b) == DecoderProofs.PulseEdges(a) + DecoderProofs.PulseEdges(b)
  {
    if b == [] {
      assert a + b == a;
    } else {
      assert (a + b)[..|a + b| - 1] == a + b[..|b| - 1];
      EdgesConcat(a, b[..|b| - 1]);
    }
  }

  lemma {:induction false} EdgesMatch(ps: seq<Pulse>)
    ensures ToEvents(PulseTransitions(ps)) == DecoderProofs.PulseEdges(ps)
  {
    if ps != [] {
      EdgesMatch(ps[1..]);
      assert ps == [ps[0]] + ps[1..] && [ps[0]][..0] == [];
      EdgesConcat([ps[0]], ps[1..]);
      ToEventsTwo(ps[0], PulseTransitions(ps[1..]));
    }
  }

  lemma {:induction false} ToEventsTwo(p: Pulse, ts: seq<Engine.KeyTransition>)
    ensures ToEvents([Engine.KeyTransition(true, p.down), Engine.KeyTransition(false, p.up)] + ts)
      == [Edge(p.down, true), Edge(p.up, false)] + ToEvents(ts)
  {
    var d, u := Engine.KeyTransition(true, p.down), Engine.KeyTransition(false, p.up);
    assert ([d, u] + ts)[1..] == [u] + ts && ([u] + ts)[1..] == ts;
  }

  lemma {:induction false} PulsesAlternate(ps: seq<Pulse>)
    ensures KeyAlternates(DecoderProofs.PulseEdges(ps)) && |DecoderProofs.PulseEdges(ps)| == 2 * |ps|
    ensures ps != [] ==>
      DecoderProofs.PulseEdges(ps)[|DecoderProofs.PulseEdges(ps)| - 1].us == ps[|ps| - 1].up
  {
    if ps != [] { PulsesAlternate(ps[..|ps| - 1]); }
  }

  predicate Chronological(events: seq<Event>) {
    forall i :: 0 < i < |events| ==> events[i - 1].us <= events[i].us
  }

  /** The last of `events` comes two to six dits after the last of `edges`. */
  predicate PolledInTime(edges: seq<Event>, events: seq<Event>, dit: nat) {
    edges != [] ==> 2 * dit <= LastUs(events) - edges[|edges| - 1].us < 6 * dit
  }

  lemma {:induction false} SilentLog(events: seq<Event>, wpm: u8)
    requires InOrder(events) && Edges(events) == []
    ensures HearAll(Decoder.FRESH, events, wpm).log == ""
  {
    PollTransparency(events, wpm);
    assert HearAll(Decoder.FRESH, [], wpm) == Decoder.FRESH;
  }

  /** The decoder's log for the edges of a text, however it is polled in between. */
  lemma {:induction false} CaughtLog(c: Config, q: Engine.Quantum, es: seq<Element>, heard: string, started: bool,
                                     first: bool, events: seq<Event>)
    requires Caught(c, q, es, heard, started, first) && InOrder(events)
    requires Edges(events) == DecoderProofs.PulseEdges(Keying(c, q, es, 0, false))
    requires PolledInTime(Edges(events), events, Dot(c))
    ensures HearAll(Decoder.FRESH, events, c.speedWpm).log == heard
  {
    hide HearAll, Keying, NowAfter, Ordered, Letter, DecoderProofs.InOrder, Config.DotDurationUs, Decoder.DitUs;
    var ps := Keying(c, q, es, 0, false);
    DitIsDot(c);
    PulsesAlternate(ps);
    if ps == [] {
      SilentLog(events, c.speedWpm);
      NothingRead();
    } else {
      LogRefined(ps, events, c.speedWpm);
      assert heard + "" == heard;
    }
  }

  lemma {:induction false} DitIsDot(c: Config)
    ensures Decoder.DitUs(c.speedWpm) == Dot(c)
  {}

  // ---- the text, tidied up ---------------------------------------------------------------------------

  /** Upper case, without the characters that have no Morse pattern. */
  function Keyable(text: string): string {
    if text == [] then ""
    else
      var n := |text| - 1;
      Keyable(text[..n]) + (if text[n] == ' ' || Known(text[n]) then [Upper(text[n])] else "")
  }

  predicate EndsInSpace(s: string) { s != [] && s[|s| - 1] == ' ' }

  /** Every run of spaces as a single space. */
  function CollapseSpaces(s: string): string {
    if s == [] then ""
    else
      var n := |s| - 1;
      CollapseSpaces(s[..n]) + (if s[n] == ' ' && EndsInSpace(s[..n]) then "" else [s[n]])
  }

  function TrimStart(s: string): string { if s != [] && s[0] == ' ' then TrimStart(s[1..]) else s }

  function TrimEnd(s: string): string { if EndsInSpace(s) then TrimEnd(s[..|s| - 1]) else s }

  function Tidy(text: string): string { TrimEnd(TrimStart(CollapseSpaces(Keyable(text)))) }

  lemma {:induction false} TrimStartSnoc(s: string, c: char)
    ensures TrimStart(s + [c]) == if TrimStart(s) == "" && c == ' ' then "" else TrimStart(s) + [c]
  {
    if s == [] {
      assert s + [c] == [c] && [c][1..] == [];
    } else {
      assert (s + [c])[1..] == s[1..] + [c];
      TrimStartSnoc(s[1..], c);
    }
  }

  /** What the tidying is after each prefix: the text as heard, and a space that may still be trimmed. */
  predicate Tidying(s: string, heard: string, started: bool, first: bool) {
    && TrimStart(CollapseSpaces(s)) == heard + (if started && first then " " else "")
    && (heard != "") == started && (!started ==> first) && !EndsInSpace(heard)
    && (s != [] ==> EndsInSpace(s) == first)
  }

  lemma {:induction false} CollapseSnoc(s: string, c: char)
    ensures CollapseSpaces(s + [c]) == CollapseSpaces(s) + (if c == ' ' && EndsInSpace(s) then "" else [c])
    ensures EndsInSpace(s + [c]) == (c == ' ')
  {
    assert (s + [c])[..|s|] == s;
  }

  lemma {:induction false} TidyingSpace(s: string, heard: string, started: bool, first: bool)
    requires Tidying(s, heard, started, first)
    ensures Tidying(s + [' '], heard, started, true)
  {
    hide TrimStart, CollapseSpaces;
    CollapseSnoc(s, ' ');
    if EndsInSpace(s) {
      assert CollapseSpaces(s) + "" == CollapseSpaces(s);
    } else {
      TrimStartSnoc(CollapseSpaces(s), ' ');
      EmptyCollapse();
      assert heard + "" == heard;
    }
  }

  lemma {:induction false} EmptyCollapse()
    ensures TrimStart(CollapseSpaces("")) == ""
  {}

  lemma {:induction false} TidyingChar(s: string, heard: string, started: bool, first: bool, c: char)
    requires Tidying(s, heard, started, first) && c != ' '
    ensures Tidying(s + [c], heard + (if started && first then " " else "") + [c], true, false)
  {
    hide TrimStart, CollapseSpaces;
    CollapseSnoc(s, c);
    TrimStartSnoc(CollapseSpaces(s), c);
    var x := heard + (if started && first then " " else "") + [c];
    assert x + "" == x && x[|x| - 1] == c;
  }

  /** Every known character of the text is one the decoder knows. */
  predicate Understood(text: string) {
    forall i :: 0 <= i < |text| && text[i] != ' ' && Known(text[i]) ==> Decodable(Upper(text[i]))
  }

  lemma {:induction false} TidyingText(text: string)
    requires Understood(text)
    ensures Tidying(Keyable(text), Heard(text), Started(text), FirstAfter(text, true))
  {
    hide Tidying, Pattern, FirstAfter, Started, Known, Decodable;
    if text == [] {
      EmptyText();
      TidyingNothing();
    } else {
      var n := |text| - 1;
      var s, ch := text[..n], text[n];
      assert text == s + [ch];
      assert Understood(s) by { UnderstoodPrefix(text, n); }
      TidyingText(s);
      FirstAfterSnoc(s, ch, true);
      StartedSnoc(s, ch);
      if ch == ' ' {
        TidyingSpace(Keyable(s), Heard(s), Started(s), FirstAfter(s, true));
      } else if Known(ch) {
        UpperNotSpace(ch);
        TidyingChar(Keyable(s), Heard(s), Started(s), FirstAfter(s, true), Upper(ch));
      } else {
        assert Keyable(s) + "" == Keyable(s);
      }
    }
  }

  lemma {:induction false} UnderstoodPrefix(text: string, n: nat)
    requires Understood(text) && n <= |text|
    ensures Understood(text[..n])
  {
    hide Known, Decodable;
  }

  lemma {:induction false} UpperNotSpace(c: char)
    requires c != ' '
    ensures Upper(c) != ' '
  {}

  lemma {:induction false} TidyingNothing()
    ensures Tidying("", "", false, true)
  {}

  /** What is heard is the text in upper case, unknown characters dropped, spaces collapsed and trimmed. */
  lemma {:induction false} HeardIsTidy(text: string)
    requires Understood(text)
    ensures Heard(text) == Tidy(text)
  {
    hide TrimStart, CollapseSpaces, Heard, Started, FirstAfter, Keyable;
    TidyingText(text);
    var h := Heard(text);
    assert (h + " ")[..|h|] == h && h + "" == h;
    assert TrimEnd(h) == h;
  }

  // ---- the round trip --------------------------------------------------------------------------------

  /**
   A fresh engine told to send any text, in any mode but Straight and at any legible speed and tick,
   ticked until the text is out or longer: a decoder at the same speed that is told the resulting key
   edges, polled at any times in between and last two to six dits after the last edge, has logged
   exactly the text as it should be heard.
   */
  lemma {:induction false} TextRoundTrip(c: Config, q: Engine.Quantum, text: string, n: nat, events: seq<Event>)
    requires Legible(c, q) && n >= KeyingTicks(c, q, Elements(text, true))
    requires Chronological(events)
    requires Edges(events) == ToEvents(KeyEdges(Engine.Fresh(c, q).SendText(text), n))
    requires PolledInTime(Edges(events), events, c.DotDurationUs())
    ensures HearAll(Decoder.FRESH, events, c.speedWpm).log == Heard(text)
    ensures Understood(text) ==> HearAll(Decoder.FRESH, events, c.speedWpm).log == Tidy(text)
  {
    hide HearAll, Keying, Caught, Heard, Tidy, KeyEdges, Legible, Config.DotDurationUs, Elements, FirstAfter,
         Started, Understood, DecoderProofs.PulseEdges, PulseTransitions, ToEvents, KeyAlternates, PolledInTime;
    LegibleFits(c, q);
    FreshBetween(c, q, text);
    MacroTiming(Engine.Fresh(c, q).SendText(text), n);
    var ps := Keying(c, q, Elements(text, true), 0, false);
    EdgesMatch(ps);
    PulsesAlternate(ps);
    TextCaught(c, q, text);
    CaughtLog(c, q, Elements(text, true), Heard(text), Started(text), FirstAfter(text, true), events);
    if Understood(text) { HeardIsTidy(text); }
  }
}
