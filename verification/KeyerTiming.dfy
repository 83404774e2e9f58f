/** What the timing settings mean: weight, dynamic ratio, compensation, Farnsworth spacing and the word PARIS. */
module KeyerTiming {
  import opened Base
  import opened KeyerConfig
  import opened Morse
  import opened TextEncoder
  import opened Engine
  import opened KeyerFacts
  import opened KeyerText

  lemma {:induction false} FloorOf(a: nat, b: nat)
    requires b > 0
    ensures 0 <= a / b && (a / b) * b <= a < (a / b) * b + b
  {}

  /** A dot is 1.2 s over the speed: `speed` words of 50 dots fill a minute, as far as microseconds allow. */
  lemma {:induction false} DotFillsMinute(c: Config)
    requires c.speedWpm > 0
    ensures c.speedWpm * 50 * c.DotDurationUs() <= 60_000_000 < c.speedWpm * 50 * (c.DotDurationUs() + 1)
  {
    var s: nat, d: nat := c.speedWpm, c.DotDurationUs();
    FloorOf(1_200_000, s);
    assert d == 1_200_000 / s;
    assert s * 50 * d == 50 * (d * s) && s * 50 * (d + 1) == 50 * (d * s + s);
  }

  /** By weight a dash is one dot and `weight / 25` dots more, rounded down; weight 50 makes exactly three dots. */
  lemma {:induction false} DashByWeight(c: Config)
    requires !c.dynamicRatio || c.speedWpm <= c.dynamicRatioLowWpm
    ensures var dot, dash := c.DotDurationUs(), c.DashDurationUs();
      && 25 * (dash - dot) <= dot * c.weight < 25 * (dash - dot + 1)
      && (c.weight == 50 ==> dash == 3 * dot)
  {
    hide Config.DotDurationUs;
    WeightedDash(c.DotDurationUs(), c.weight);
  }

  lemma {:induction false} WeightedDash(dot: nat, w: nat)
    ensures var q := dot * (25 + w) / 25;
      25 * (q - dot) <= dot * w < 25 * (q - dot + 1) && (w == 50 ==> q == 3 * dot)
  {
    assert dot * (25 + w) == 25 * dot + dot * w;
  }

  /**
   By dynamic ratio a dash shrinks with the speed: three dots up to the lower speed, 2.4 dots from the higher
   one on (rounded down), and never outside these.
   */
  lemma {:induction false} DashByRatio(c: Config)
    requires c.dynamicRatio && c.speedWpm > c.dynamicRatioLowWpm
    ensures var dot, dash := c.DotDurationUs(), c.DashDurationUs();
      && 12 * dot < 5 * (dash + 1) && dash <= 3 * dot
      && (c.speedWpm >= Max(c.dynamicRatioHighWpm, Min(c.dynamicRatioLowWpm + 1, 255)) ==> 5 * dash <= 12 * dot)
  {
    hide Config.DotDurationUs;
    var dot := c.DotDurationUs();
    var high := Max(c.dynamicRatioHighWpm, Min(c.dynamicRatioLowWpm + 1, 255));
    var den := high - c.dynamicRatioLowWpm;
    var num := Min(c.speedWpm - c.dynamicRatioLowWpm, den);
    var k := 15 * den - 3 * num;
    assert c.DashDurationUs() == dot * k / (5 * den);
    RatioBetween(dot, k, den);
  }

  function Quotient(a: nat, b: nat): nat
    requires b > 0
  {
    FloorOf(a, b);
    a / b
  }

  lemma {:induction false} QuotientFloor(a: nat, b: nat)
    requires b > 0
    ensures Quotient(a, b) * b <= a < Quotient(a, b) * b + b
  {
    FloorOf(a, b);
  }

  lemma {:induction false} RatioBetween(dot: nat, k: nat, den: nat)
    requires 0 < den && 12 * den <= k <= 15 * den
    ensures var q := Quotient(dot * k, 5 * den);
      12 * dot < 5 * (q + 1) && q <= 3 * dot && (k == 12 * den ==> 5 * q <= 12 * dot)
  {
    hide Quotient;
    Scaled(dot, 12 * den, k);
    Scaled(dot, k, 15 * den);
    Regrouped(dot, den);
    QuotientFloor(dot * k, 5 * den);
    RatioFloor(dot, den, dot * k, Quotient(dot * k, 5 * den));
  }

  lemma {:induction false} Regrouped(dot: nat, den: nat)
    ensures dot * (12 * den) == (12 * dot) * den && dot * (15 * den) == (15 * dot) * den
  {}

  lemma {:induction false} RatioFloor(dot: nat, den: nat, a: nat, q: nat)
    requires den > 0 && q * (5 * den) <= a < q * (5 * den) + 5 * den && (12 * dot) * den <= a <= (15 * dot) * den
    ensures 12 * dot < 5 * (q + 1) && q <= 3 * dot && (a == (12 * dot) * den ==> 5 * q <= 12 * dot)
  {
    assert q * (5 * den) == (5 * q) * den && q * (5 * den) + 5 * den == (5 * (q + 1)) * den;
    MulCancel(12 * dot, 5 * (q + 1), den);
    if q > 3 * dot { StrictlyScaled(15 * dot, 5 * q, den); }
    if a == (12 * dot) * den && 5 * q > 12 * dot { StrictlyScaled(12 * dot, 5 * q, den); }
  }

  lemma {:induction false} Scaled(z: nat, x: nat, y: nat)
    requires x <= y
    ensures z * x <= z * y
  {}

  lemma {:induction false} StrictlyScaled(x: nat, y: nat, z: nat)
    requires x < y && z > 0
    ensures x * z < y * z
  {}

  /** Compensation lengthens every key-down by its milliseconds and leaves the gaps alone. */
  lemma {:induction false} Compensation(c: Config)
    ensures var plain := c.(keyingCompensationMs := 0); var extra := 1000 * c.keyingCompensationMs;
      && ElemUs(c, Dit) == ElemUs(plain, Dit) + extra && ElemUs(c, Dash) == ElemUs(plain, Dash) + extra
      && ElemUs(plain, Dit) == c.DotDurationUs() && ElemUs(plain, Dash) == c.DashDurationUs()
      && ElemUs(c, ElementGap) == ElemUs(plain, ElementGap) == c.DotDurationUs()
      && ElemUs(c, LetterGap) == ElemUs(plain, LetterGap) && ElemUs(c, WordGap) == ElemUs(plain, WordGap)
  {}

  /** The time of a queue without ticks. */
  function QueueUs(c: Config, queue: seq<Element>): nat {
    if queue == [] then 0 else ElemUs(c, queue[0]) + QueueUs(c, queue[1..])
  }

  lemma {:induction false} QueueUsConcat(c: Config, a: seq<Element>, b: seq<Element>)
    ensures QueueUs(c, a + b) == QueueUs(c, a) + QueueUs(c, b)
  {
    hide ElemUs;
    if a == [] {
      assert a + b == b;
    } else {
      assert (a + b)[1..] == a[1..] + b;
      QueueUsConcat(c, a[1..], b);
    }
  }

  /** The length of a pattern in dots: one for a dot, three for a dash, one between any two. */
  function PatternUnits(p: string): nat {
    if p == [] then 0
    else
      PatternUnits(p[..|p| - 1]) + (if |p| > 1 then 1 else 0)
      + (if p[|p| - 1] == '.' then 1 else if p[|p| - 1] == '-' then 3 else 0)
  }

  /** Standard weight, no ratio, no compensation. */
  predicate Plain(c: Config) { c.weight == 50 && !c.dynamicRatio && c.keyingCompensationMs == 0 }

  lemma {:induction false} OneUs(c: Config, e: Element)
    ensures QueueUs(c, [e]) == ElemUs(c, e) && QueueUs(c, []) == 0
  {
    hide ElemUs;
    assert [e][1..] == [];
  }

  lemma {:induction false} PlainUs(c: Config)
    requires Plain(c)
    ensures ElemUs(c, Dit) == c.DotDurationUs() && ElemUs(c, Dash) == 3 * c.DotDurationUs()
    ensures ElemUs(c, ElementGap) == c.DotDurationUs()
    ensures ElemUs(c, LetterGap) == 3 * c.GapUnitUs() && ElemUs(c, WordGap) == 7 * c.GapUnitUs()
  {
    hide Config.DotDurationUs, Config.GapUnitUs;
    DashByWeight(c);
  }

  lemma {:induction false} PatternUs(c: Config, p: string)
    requires Plain(c)
    ensures QueueUs(c, PatternElements(p)) == PatternUnits(p) * c.DotDurationUs()
  {
    hide ElemUs, Config.DotDurationUs, Config.GapUnitUs, QueueUs;
    OneUs(c, Dit);
    OneUs(c, Dash);
    OneUs(c, ElementGap);
    PlainUs(c);
    if p != [] {
      var n := |p| - 1;
      PatternUs(c, p[..n]);
      var gap := if |p| > 1 then [ElementGap] else [];
      var d := c.DotDurationUs();
      QueueUsConcat(c, PatternElements(p[..n]) + gap, SymbolElements(p[n]));
      QueueUsConcat(c, PatternElements(p[..n]), gap);
      var g, s := |gap|, if p[n] == '.' then 1 else if p[n] == '-' then 3 else 0;
      assert (PatternUnits(p[..n]) + g + s) * d == PatternUnits(p[..n]) * d + g * d + s * d;
    }
  }

  /** The dots of a text's characters. */
  function TextUnits(text: string): nat {
    if text == [] then 0
    else (if text[0] != ' ' && Known(text[0]) then PatternUnits(Pattern(text[0]).value) else 0) + TextUnits(text[1..])
  }

  /** Three units for every letter gap, seven for every space. */
  function GapUnits(text: string, first: bool): nat {
    if text == [] then 0
    else
      (if text[0] == ' ' then 7 else if Known(text[0]) && !first then 3 else 0)
      + GapUnits(text[1..], FirstNext(text[0], first))
  }

  /** The time of any text at standard weight: its characters in dots, its spacing in gap units. */
  lemma {:induction false} TextUs(c: Config, text: string, first: bool)
    requires Plain(c)
    ensures QueueUs(c, Elements(text, first))
      == TextUnits(text) * c.DotDurationUs() + GapUnits(text, first) * c.GapUnitUs()
  {
    hide ElemUs, Config.DotDurationUs, Config.GapUnitUs, QueueUs, PatternUnits, Pattern, PatternElements;
    OneUs(c, WordGap);
    OneUs(c, LetterGap);
    PlainUs(c);
    if text != [] {
      var ch, rest := text[0], text[1..];
      TextUs(c, rest, FirstNext(ch, first));
      QueueUsConcat(c, CharElements(ch, first), Elements(rest, FirstNext(ch, first)));
      CharUs(c, ch, first);
      var x := if ch != ' ' && Known(ch) then PatternUnits(Pattern(ch).value) else 0;
      var y := if ch == ' ' then 7 else if Known(ch) && !first then 3 else 0;
      Distribute(x, TextUnits(rest), c.DotDurationUs());
      Distribute(y, GapUnits(rest, FirstNext(ch, first)), c.GapUnitUs());
    }
  }

  lemma {:induction false} Distribute(x: nat, y: nat, z: nat)
    ensures (x + y) * z == x * z + y * z
  {}

  lemma {:induction false} CharUs(c: Config, ch: char, first: bool)
    requires Plain(c)
    ensures QueueUs(c, CharElements(ch, first)) ==
      (if ch != ' ' && Known(ch) then PatternUnits(Pattern(ch).value) else 0) * c.DotDurationUs()
      + (if ch == ' ' then 7 else if Known(ch) && !first then 3 else 0) * c.GapUnitUs()
  {
    hide ElemUs, Config.DotDurationUs, Config.GapUnitUs, QueueUs, PatternUnits, PatternFrom, PatternElements;
    OneUs(c, WordGap);
    OneUs(c, LetterGap);
    PlainUs(c);
    if ch != ' ' && Known(ch) {
      PatternUs(c, Pattern(ch).value);
      QueueUsConcat(c, [LetterGap], PatternElements(Pattern(ch).value));
    }
  }

  /** The word that defines the speed: 31 dots of characters and 19 units of spacing. */
  lemma {:induction false} Paris()
    ensures TextUnits("PARIS ") == 31 && GapUnits("PARIS ", true) == 19
  {
    hide PatternFrom, PatternUnits, Pattern;
    ParisLetters();
    assert " "[1..] == "" && TextUnits(" ") == 0 && GapUnits(" ", false) == 7;
    assert "S "[1..] == " " && TextUnits("S ") == 5 && GapUnits("S ", false) == 10;
    assert "IS "[1..] == "S " && TextUnits("IS ") == 8 && GapUnits("IS ", false) == 13;
    assert "RIS "[1..] == "IS " && TextUnits("RIS ") == 15 && GapUnits("RIS ", false) == 16;
    assert "ARIS "[1..] == "RIS " && TextUnits("ARIS ") == 20 && GapUnits("ARIS ", false) == 19;
    assert "PARIS "[1..] == "ARIS " && TextUnits("PARIS ") == 31 && GapUnits("PARIS ", true) == 19;
  }

  lemma {:induction false} ParisLetters()
    ensures Known('P') && Known('A') && Known('R') && Known('I') && Known('S')
    ensures PatternUnits(Pattern('P').value) == 11 && PatternUnits(Pattern('A').value) == 5
    ensures PatternUnits(Pattern('R').value) == 7 && PatternUnits(Pattern('I').value) == 3
    ensures PatternUnits(Pattern('S').value) == 5
  {
    hide MorseRow, Pattern, PatternUnits;
    LetterPattern(0);
    LetterPattern(8);
    LetterPattern(15);
    LetterPattern(17);
    LetterPattern(18);
    LetterRows();
    ParisUnits();
  }

  /** The letters are the first rows of the table, in order. */
  lemma {:induction false} LetterAt(i: nat)
    requires i < 19
    ensures MorseRow(i).0 == 'A' + i as char
  {
    if i < 10 { LetterAtFirst(i); } else { LetterAtSecond(i); }
  }

  lemma {:induction false} LetterAtFirst(i: nat)
    requires i < 10
    ensures MorseRow(i).0 == 'A' + i as char
  {
    if i == 0 {} else if i == 1 {} else if i == 2 {} else if i == 3 {} else if i == 4 {}
    else if i == 5 {} else if i == 6 {} else if i == 7 {} else if i == 8 {} else if i == 9 {}
  }

  lemma {:induction false} LetterAtSecond(i: nat)
    requires 10 <= i < 19
    ensures MorseRow(i).0 == 'A' + i as char
  {
    if i == 10 {} else if i == 11 {} else if i == 12 {} else if i == 13 {} else if i == 14 {}
    else if i == 15 {} else if i == 16 {} else if i == 17 {} else if i == 18 {}
  }

  lemma {:induction false} SkipRows(i: nat, row: nat)
    requires i <= row < 19
    ensures PatternFrom('A' + row as char, i) == Some(MorseRow(row).1)
    decreases row - i
  {
    hide MorseRow;
    LetterAt(i);
    if i < row { SkipRows(i + 1, row); }
  }

  lemma {:induction false} LetterPattern(row: nat)
    requires row < 19
    ensures Pattern('A' + row as char) == Some(MorseRow(row).1)
  {
    hide MorseRow, PatternFrom;
    SkipRows(0, row);
  }

  lemma {:induction false} LetterRows()
    ensures MorseRow(0).1 == ".-" && MorseRow(8).1 == ".." && MorseRow(15).1 == ".--." && MorseRow(17).1 == ".-."
    ensures MorseRow(18).1 == "..."
  {}

  lemma {:induction false} ParisUnits()
    ensures PatternUnits(".--.") == 11 && PatternUnits(".-") == 5 && PatternUnits(".-.") == 7
    ensures PatternUnits("..") == 3 && PatternUnits("...") == 5
  {
    assert PatternUnits("") == 0;
    assert "."[..0] == "" && PatternUnits(".") == 1;
    assert ".-"[..1] == "." && PatternUnits(".-") == 5;
    assert ".."[..1] == "." && PatternUnits("..") == 3;
    assert "..."[..2] == ".." && PatternUnits("...") == 5;
    assert ".-."[..2] == ".-" && PatternUnits(".-.") == 7;
    assert ".--"[..2] == ".-" && PatternUnits(".--") == 9;
    assert ".--."[..3] == ".--" && PatternUnits(".--.") == 11;
  }

  /**
   Speed: at standard weight, PARIS with its word gap takes 50 dots without Farnsworth spacing; with it, as
   long as at the Farnsworth speed, to within the rounding of dot and unit.
   */
  lemma {:induction false} ParisSpeed(c: Config)
    requires Plain(c)
    ensures var t := QueueUs(c, Elements("PARIS ", true));
      && (c.farnsworthWpm == 0 || c.farnsworthWpm >= c.speedWpm ==> t == 50 * c.DotDurationUs())
      && (0 < c.farnsworthWpm < c.speedWpm ==>
           c.farnsworthWpm * t <= 60_000_000 < c.farnsworthWpm * (t + 50))
  {
    hide Config.DotDurationUs, Config.GapUnitUs, QueueUs, Elements, TextUnits, GapUnits;
    TextUs(c, "PARIS ", true);
    Paris();
    if 0 < c.farnsworthWpm < c.speedWpm { FarnsworthPace(c); }
  }

  lemma {:induction false} FarnsworthPace(c: Config)
    requires 0 < c.farnsworthWpm < c.speedWpm
    ensures var f, t := c.farnsworthWpm, 31 * c.DotDurationUs() + 19 * c.GapUnitUs();
      f * t <= 60_000_000 < f * (t + 50)
  {
    hide Config.DotDurationUs, Config.GapUnitUs;
    var s: nat, f: nat := c.speedWpm, c.farnsworthWpm;
    UnitBounds(c);
    DotBounds(c);
    Pace(s, f, c.DotDurationUs(), c.GapUnitUs());
  }

  lemma {:induction false} DotBounds(c: Config)
    requires c.speedWpm > 0
    ensures var s: nat, d: nat := c.speedWpm, c.DotDurationUs(); d * s <= 1_200_000 < d * s + s
  {
    FloorOf(1_200_000, c.speedWpm);
  }

  lemma {:induction false} UnitBounds(c: Config)
    requires 0 < c.farnsworthWpm < c.speedWpm
    ensures var s: nat, f: nat, u: nat := c.speedWpm, c.farnsworthWpm, c.GapUnitUs();
      u * (19 * s * f) <= 1_200_000 * (50 * s - 31 * f) < u * (19 * s * f) + 19 * s * f
  {
    hide Config.DotDurationUs;
    var s: nat, f: nat := c.speedWpm, c.farnsworthWpm;
    FarnsworthRange(s, f);
    FloorOf(1_200_000 * (50 * s - 31 * f), 19 * s * f);
  }

  lemma {:induction false} Pace(s: nat, f: nat, d: nat, u: nat)
    requires 0 < f < s && d * s <= 1_200_000 < d * s + s
    requires u * (19 * s * f) <= 1_200_000 * (50 * s - 31 * f) < u * (19 * s * f) + 19 * s * f
    ensures f * (31 * d + 19 * u) <= 60_000_000 < f * (31 * d + 19 * u + 50)
  {
    var p, x := d * s, u * (19 * s * f);
    var t := 31 * d + 19 * u;
    Regroup(s, f, d, u);
    Scaled(31 * f, p, 1_200_000);
    StrictlyScaled(1_200_000, p + s, 31 * f);
    assert (f * t) * s == (31 * f) * p + x;
    assert (f * (t + 50)) * s == (p + s) * (31 * f) + x + 19 * s * f;
    assert (f * t) * s <= 60_000_000 * s;
    assert 60_000_000 * s < (f * (t + 50)) * s;
    MulCancel(60_000_000, f * (t + 50), s);
    if f * t > 60_000_000 { StrictlyScaled(60_000_000, f * t, s); }
  }

  lemma {:induction false} Regroup(s: nat, f: nat, d: nat, u: nat)
    ensures var t := 31 * d + 19 * u; var p, x := d * s, u * (19 * s * f);
      && (f * t) * s == (31 * f) * p + x
      && (f * (t + 50)) * s == (p + s) * (31 * f) + x + 19 * s * f
  {
    var t := 31 * d + 19 * u;
    assert (f * t) * s == f * (t * s);
    assert t * s == 31 * (d * s) + 19 * (u * s);
    assert f * (31 * (d * s) + 19 * (u * s)) == 31 * f * (d * s) + 19 * (f * (u * s));
    assert 19 * (f * (u * s)) == u * (19 * s * f);
    assert (f * (t + 50)) * s == (f * t) * s + 50 * (f * s);
    assert (d * s + s) * (31 * f) == (31 * f) * (d * s) + 31 * (f * s);
    assert 19 * s * f == 19 * (f * s);
  }
}
