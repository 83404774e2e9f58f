/** Text to Morse elements: the push-and-pop loop, its meaning, and its inverse direction. */
module TextEncoder {
  import opened Base
  import opened Morse

  /** The keyed elements of one character, with a gap before each symbol but the first. */
  function PatternElements(p: string): (es: seq<Element>)
  {
    if p == [] then []
    else
      PatternElements(p[..|p| - 1])
      + (if |p| > 1 then [ElementGap] else [])
      + SymbolElements(p[|p| - 1])
  }

  function SymbolElements(symbol: char): seq<Element> {
    if symbol == '.' then [Dit] else if symbol == '-' then [Dash] else []
  }

  /**
   What one character adds. `first` says that no known character has been seen since
   the start or the last space, so that no letter gap is owed.
   */
  function CharElements(c: char, first: bool): seq<Element> {
    if c == ' ' then [WordGap]
    else match Pattern(c)
      case None => []
      case Some(p) => if first then PatternElements(p) else [LetterGap] + PatternElements(p)
  }

  function FirstNext(c: char, first: bool): bool {
    c == ' ' || (first && !Known(c))
  }

  /** What a text means as elements. */
  function Elements(text: string, first: bool): seq<Element> {
    if text == [] then []
    else CharElements(text[0], first) + Elements(text[1..], FirstNext(text[0], first))
  }

  function FirstAfter(text: string, first: bool): bool {
    if text == [] then first else FirstAfter(text[1..], FirstNext(text[0], first))
  }

  // ---- the imperative encoder -------------------------------------------

  predicate TrailingGap(es: seq<Element>) {
    es != [] && (es[|es| - 1] == LetterGap || es[|es| - 1] == ElementGap)
  }

  function StripGaps(es: seq<Element>): seq<Element> {
    if TrailingGap(es) then StripGaps(es[..|es| - 1]) else es
  }

  method PopTrailingGaps(es: seq<Element>) returns (r: seq<Element>)
    ensures r == StripGaps(es)
  {
    r := es;
    while TrailingGap(r)
      invariant StripGaps(r) == StripGaps(es)
      decreases |r|
    {
      r := r[..|r| - 1];
    }
  }

  function PopElementGap(es: seq<Element>): seq<Element> {
    if es != [] && es[|es| - 1] == ElementGap then es[..|es| - 1] else es
  }

  method PushPattern(es: seq<Element>, pattern: string) returns (r: seq<Element>)
    ensures r == es + PatternElements(pattern)
  {
    r := es;
    for i := 0 to |pattern|
      invariant r == es + PatternElements(pattern[..i])
    {
      assert pattern[..i + 1][..i] == pattern[..i];
      if i > 0 {
        r := r + [ElementGap];
      }
      if pattern[i] == '.' {
        r := r + [Dit];
      } else if pattern[i] == '-' {
        r := r + [Dash];
      }
    }
    assert pattern[..|pattern|] == pattern;
  }

  lemma {:induction false} NothingToPop(es: seq<Element>)
    requires !TrailingGap(es)
    ensures StripGaps(es) == es && PopElementGap(es) == es
  {}

  lemma {:induction false} NoTrailing(es: seq<Element>, letter: seq<Element>)
    requires KeyedEnds(letter)
    ensures !TrailingGap(es + letter)
    ensures es + [LetterGap] + letter == es + ([LetterGap] + letter)
  {
    assert (es + letter)[|es + letter| - 1] == letter[|letter| - 1];
  }

  lemma {:induction false} NoTrailingSpace(es: seq<Element>)
    ensures !TrailingGap(es + [WordGap])
  {}

  /** The body of the character loop: the clean-ups remove nothing. */
  method PushChar(es: seq<Element>, first: bool, c: char) returns (r: seq<Element>, firstChar: bool)
    requires !TrailingGap(es)
    ensures r == es + CharElements(c, first) && firstChar == FirstNext(c, first)
    ensures !TrailingGap(r)
  {
    hide Pattern, PatternElements, IntraOnly, Separated, KeyedEnds, TrailingGap;
    r, firstChar := es, first;
    NothingToPop(es);
    if c == ' ' {
      r := PopTrailingGaps(r);
      r := r + [WordGap];
      firstChar := true;
      NoTrailingSpace(es);
      return;
    }
    var pattern := CharToMorse(c);
    if pattern.Some? {
      KnownEnds(c);
      if !firstChar {
        r := PopElementGap(r);
        r := r + [LetterGap];
      }
      NoTrailing(r, PatternElements(pattern.value));
      NoTrailing(es, PatternElements(pattern.value));
      firstChar := false;
      r := PushPattern(r, pattern.value);
    } else {
      assert es + [] == es;
    }
  }

  /** None of the clean-ups ever removes an element. */
  method TextToElements(text: string) returns (elements: seq<Element>)
    ensures elements == Elements(text, true)
  {
    hide CharElements, FirstNext;
    elements := [];
    var firstChar := true;
    for k := 0 to |text|
      invariant !TrailingGap(elements)
      invariant elements + Elements(text[k..], firstChar) == Elements(text, true)
    {
      assert text[k..][1..] == text[k + 1..];
      elements, firstChar := PushChar(elements, firstChar, text[k]);
    }
    NothingToPop(elements);
    elements := PopTrailingGaps(elements);
  }

  // ---- structure of the result --------------------------------------------

  predicate IntraOnly(es: seq<Element>) {
    forall k :: 0 <= k < |es| ==> es[k] != LetterGap && es[k] != WordGap
  }

  /** Two keyed elements never follow each other without a gap between them. */
  predicate Separated(es: seq<Element>) {
    forall k :: 0 <= k < |es| - 1 ==> !(es[k].Keyed() && es[k + 1].Keyed())
  }

  lemma {:induction false} PatternShape(p: string)
    requires WellFormed(p)
    ensures |PatternElements(p)| == 2 * |p| - 1
    ensures forall k :: 0 <= k < |PatternElements(p)| ==>
      PatternElements(p)[k] == if k % 2 == 1 then ElementGap else if p[k / 2] == '.' then Dit else Dash
  {
    if |p| > 1 { PatternShape(p[..|p| - 1]); }
  }

  /** The shape of an encoded text: no letter or element gap at either end, keyed elements apart. */
  predicate Message(es: seq<Element>, first: bool) {
    && Separated(es)
    && !TrailingGap(es)
    && (es != [] ==> es[0] == WordGap || if first then es[0].Keyed() else es[0] == LetterGap)
  }

  predicate KeyedEnds(es: seq<Element>) {
    es != [] && es[0].Keyed() && es[|es| - 1].Keyed()
  }

  lemma {:induction false} PatternEnds(p: string)
    requires WellFormed(p)
    ensures var es := PatternElements(p); KeyedEnds(es) && IntraOnly(es) && Separated(es)
  {
    PatternShape(p);
  }

  lemma {:induction false} KnownEnds(c: char)
    requires Known(c)
    ensures var es := PatternElements(Pattern(c).value); KeyedEnds(es) && IntraOnly(es) && Separated(es)
  {
    PatternWellFormed(c);
    PatternEnds(Pattern(c).value);
  }

  /** Encoding a concatenation is encoding the parts, the second with the state the first left. */
  lemma {:induction false} ElementsConcat(s: string, t: string, first: bool)
    ensures Elements(s + t, first) == Elements(s, first) + Elements(t, FirstAfter(s, first))
  {
    hide CharElements, FirstNext;
    if s == [] {
      assert s + t == t;
    } else {
      assert (s + t)[1..] == s[1..] + t;
      ElementsConcat(s[1..], t, FirstNext(s[0], first));
    }
  }

  lemma {:induction false} ElementsOfSpace(t: string, first: bool)
    ensures Elements(" " + t, first) == [WordGap] + Elements(t, true)
  {
    assert (" " + t)[1..] == t;
  }

  /** A space between two texts contributes exactly one word gap, whatever the texts are. */
  lemma {:induction false} SpaceJoins(s: string, t: string)
    ensures Elements(s + " " + t, true) == Elements(s, true) + [WordGap] + Elements(t, true)
  {
    hide Elements, CharElements;
    assert s + " " + t == s + (" " + t);
    ElementsConcat(s, " " + t, true);
    ElementsOfSpace(t, FirstAfter(s, true));
    assert Elements(s, true) + [WordGap] + Elements(t, true) == Elements(s, true) + ([WordGap] + Elements(t, true));
  }

  /** Keyed elements are always separated, and no letter or element gap starts or ends the message. */
  lemma {:induction false} ElementsStructure(text: string, first: bool)
    ensures Message(Elements(text, first), first)
  {
    hide Pattern, PatternElements, Message;
    if text == [] {
      MessageOfNothing(first);
    } else {
      var rest := Elements(text[1..], FirstNext(text[0], first));
      ElementsStructure(text[1..], FirstNext(text[0], first));
      if text[0] == ' ' {
        MessageAfterSpace(rest, first);
      } else if Known(text[0]) {
        KnownEnds(text[0]);
        MessageAfterLetter(PatternElements(Pattern(text[0]).value), rest, first);
      } else {
        assert [] + rest == rest;
      }
    }
  }

  lemma {:induction false} MessageOfNothing(first: bool)
    ensures Message([], first)
  {}

  lemma {:induction false} MessageAfterSpace(rest: seq<Element>, first: bool)
    requires Message(rest, true)
    ensures Message([WordGap] + rest, first)
  {}

  lemma {:induction false} MessageAfterLetter(letter: seq<Element>, rest: seq<Element>, first: bool)
    requires KeyedEnds(letter) && Separated(letter) && Message(rest, false)
    ensures Message((if first then letter else [LetterGap] + letter) + rest, first)
  {
    var es := letter + rest;
    forall k | 0 <= k < |es| - 1
      ensures !(es[k].Keyed() && es[k + 1].Keyed())
    {
      if k == |letter| - 1 { assert es[k + 1] == rest[0]; }
    }
    assert [LetterGap] + letter + rest == [LetterGap] + es;
  }

  // ---- injectivity -----------------------------------------------------------

  lemma {:induction false} PatternElementsInjective(p: string, q: string)
    requires WellFormed(p) && WellFormed(q) && PatternElements(p) == PatternElements(q)
    ensures p == q
  {
    PatternShape(p);
    PatternShape(q);
    forall k | 0 <= k < |p|
      ensures p[k] == q[k]
    {
      assert PatternElements(p)[2 * k] == PatternElements(q)[2 * k];
    }
  }

  /** A run of elements without letter and word gaps is determined by the sequence it opens. */
  lemma {:induction false} SplitIntra(a: seq<Element>, x: seq<Element>, b: seq<Element>, y: seq<Element>)
    requires a + x == b + y && IntraOnly(a) && IntraOnly(b)
    requires x != [] ==> x[0] == LetterGap || x[0] == WordGap
    requires y != [] ==> y[0] == LetterGap || y[0] == WordGap
    ensures a == b && x == y
  {
    var m := Min(|a|, |b|);
    assert m < |a + x| ==> (a + x)[m] == (b + y)[m];
    assert (a + x)[..|a|] == a && (a + x)[|a|..] == x;
    assert (b + y)[..|b|] == b && (b + y)[|b|..] == y;
  }

  predicate Sendable(text: string) {
    forall k :: 0 <= k < |text| ==> text[k] == ' ' || Known(text[k])
  }

  /** What a sendable character adds is not empty and shows whether the character is a space. */
  lemma {:induction false} CharOpens(c: char, first: bool)
    requires c == ' ' || Known(c)
    ensures CharElements(c, first) != [] && (CharElements(c, first)[0] == WordGap <==> c == ' ')
  {
    hide Pattern, PatternElements, Separated, IntraOnly;
    if c != ' ' { KnownEnds(c); }
  }

  /** Two sendable texts with the same elements are the same text, up to ASCII case. */
  lemma {:induction false} ElementsInjective(s: string, t: string, first: bool)
    requires Sendable(s) && Sendable(t)
    requires Elements(s, first) == Elements(t, first)
    ensures UpperAll(s) == UpperAll(t)
  {
    hide CharElements, Pattern;
    if s != [] { CharOpens(s[0], first); }
    if t != [] { CharOpens(t[0], first); }
    if s != [] && t != [] {
      var x := Elements(s[1..], FirstNext(s[0], first));
      var y := Elements(t[1..], FirstNext(t[0], first));
      assert (CharElements(s[0], first) + x)[0] == (CharElements(t[0], first) + y)[0];
      if s[0] == ' ' {
        SpaceHeads(x, y, first);
      } else {
        ElementsStructure(s[1..], false);
        ElementsStructure(t[1..], false);
        LetterHeads(s[0], t[0], x, y, first);
      }
      ElementsInjective(s[1..], t[1..], FirstNext(s[0], first));
    }
  }

  lemma {:induction false} SpaceHeads(x: seq<Element>, y: seq<Element>, first: bool)
    requires CharElements(' ', first) + x == CharElements(' ', first) + y
    ensures x == y
  {
    assert ([WordGap] + x)[1..] == x && ([WordGap] + y)[1..] == y;
  }

  lemma {:induction false} LetterHeads(c: char, d: char, x: seq<Element>, y: seq<Element>, first: bool)
    requires Known(c) && Known(d) && c != ' ' && d != ' ' && Message(x, false) && Message(y, false)
    requires CharElements(c, first) + x == CharElements(d, first) + y
    ensures Upper(c) == Upper(d) && x == y
  {
    hide Pattern, PatternElements, Separated, WellFormed, IntraOnly, KeyedEnds;
    var p, q := Pattern(c).value, Pattern(d).value;
    KnownEnds(c);
    KnownEnds(d);
    if !first { DropFirst(LetterGap, PatternElements(p), x, PatternElements(q), y); }
    SplitIntra(PatternElements(p), x, PatternElements(q), y);
    PatternWellFormed(c);
    PatternWellFormed(d);
    PatternElementsInjective(p, q);
    PatternInjective(c, d);
  }

  lemma {:induction false} DropFirst(e: Element, a: seq<Element>, x: seq<Element>, b: seq<Element>, y: seq<Element>)
    requires [e] + a + x == [e] + b + y
    ensures a + x == b + y
  {
    assert ([e] + a + x)[1..] == a + x && ([e] + b + y)[1..] == b + y;
  }
}
