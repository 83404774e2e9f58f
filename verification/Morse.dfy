/** The Morse table and the translation of text into keyed elements and gaps. */
module Morse {
  import opened Base

  datatype Element = Dit | Dash | ElementGap | LetterGap | WordGap
  {
    predicate Keyed() { this == Dit || this == Dash }
  }

  /** Number of rows of the table. */
  const ROWS: nat := 54

  /** The rows of the ITU Morse table, in order. */
  function MorseRow(i: nat): (char, string)
    requires i < ROWS
  {
    match i
    case 0 => ('A', ".-") case 1 => ('B', "-...") case 2 => ('C', "-.-.") case 3 => ('D', "-..")
    case 4 => ('E', ".") case 5 => ('F', "..-.") case 6 => ('G', "--.") case 7 => ('H', "....")
    case 8 => ('I', "..") case 9 => ('J', ".---") case 10 => ('K', "-.-") case 11 => ('L', ".-..")
    case 12 => ('M', "--") case 13 => ('N', "-.") case 14 => ('O', "---") case 15 => ('P', ".--.")
    case 16 => ('Q', "--.-") case 17 => ('R', ".-.") case 18 => ('S', "...") case 19 => ('T', "-")
    case 20 => ('U', "..-") case 21 => ('V', "...-") case 22 => ('W', ".--") case 23 => ('X', "-..-")
    case 24 => ('Y', "-.--") case 25 => ('Z', "--..") case 26 => ('0', "-----") case 27 => ('1', ".----")
    case 28 => ('2', "..---") case 29 => ('3', "...--") case 30 => ('4', "....-") case 31 => ('5', ".....")
    case 32 => ('6', "-....") case 33 => ('7', "--...") case 34 => ('8', "---..") case 35 => ('9', "----.")
    case 36 => ('.', ".-.-.-") case 37 => (',', "--..--") case 38 => ('?', "..--..")
    case 39 => ('\'', ".----.") case 40 => ('!', "-.-.--") case 41 => ('/', "-..-.") case 42 => ('(', "-.--.")
    case 43 => (')', "-.--.-") case 44 => ('&', ".-...") case 45 => (':', "---...") case 46 => (';', "-.-.-.")
    case 47 => ('=', "-...-") case 48 => ('+', ".-.-.") case 49 => ('-', "-....-") case 50 => ('_', "..--.-")
    case 51 => ('"', ".-..-.") case 52 => ('$', "...-..-") case _ => ('@', ".--.-.")
  }

  /** `char::to_ascii_uppercase`. */
  function Upper(c: char): char {
    if 'a' <= c <= 'z' then c - 'a' + 'A' else c
  }

  function UpperAll(s: string): (u: string)
    ensures |u| == |s|
  {
    if s == [] then [] else [Upper(s[0])] + UpperAll(s[1..])
  }

  /** The pattern of the first row from `i` on whose character is `upper`. */
  function PatternFrom(upper: char, i: nat): Option<string>
    requires i <= ROWS
    decreases ROWS - i
  {
    if i == ROWS then None
    else if MorseRow(i).0 == upper then Some(MorseRow(i).1)
    else PatternFrom(upper, i + 1)
  }

  /** The Morse pattern of a character, ignoring case. */
  function Pattern(c: char): Option<string> { PatternFrom(Upper(c), 0) }

  predicate Known(c: char) { Pattern(c).Some? }

  /** The linear search over the table. */
  method CharToMorse(c: char) returns (pattern: Option<string>)
    ensures pattern == Pattern(c)
  {
    var upper := Upper(c);
    for i := 0 to ROWS
      invariant PatternFrom(upper, 0) == PatternFrom(upper, i)
    {
      if MorseRow(i).0 == upper {
        return Some(MorseRow(i).1);
      }
    }
    return None;
  }

  // ---- the packed form of a pattern ------------------------------------

  function Bit(symbol: char): nat { if symbol == '-' then 1 else 0 }

  /** A leading 1 followed by one binary digit per symbol (1 for a dash). */
  function Pack(p: string): (n: nat)
    ensures n >= 1
  {
    if p == [] then 1 else 2 * Pack(p[..|p| - 1]) + Bit(p[|p| - 1])
  }

  predicate WellFormed(p: string) {
    1 <= |p| <= 7 && forall k :: 0 <= k < |p| ==> p[k] == '.' || p[k] == '-'
  }

  /** `Pack` written out for the lengths the table uses. */
  ghost function PackedByLength(p: string): nat {
    match |p|
    case 1 => 2 + Bit(p[0])
    case 2 => 4 + 2 * Bit(p[0]) + Bit(p[1])
    case 3 => 8 + 4 * Bit(p[0]) + 2 * Bit(p[1]) + Bit(p[2])
    case 4 => 16 + 8 * Bit(p[0]) + 4 * Bit(p[1]) + 2 * Bit(p[2]) + Bit(p[3])
    case 5 => 32 + 16 * Bit(p[0]) + 8 * Bit(p[1]) + 4 * Bit(p[2]) + 2 * Bit(p[3]) + Bit(p[4])
    case 6 => 64 + 32 * Bit(p[0]) + 16 * Bit(p[1]) + 8 * Bit(p[2]) + 4 * Bit(p[3]) + 2 * Bit(p[4]) + Bit(p[5])
    case 7 =>
      128 + 64 * Bit(p[0]) + 32 * Bit(p[1]) + 16 * Bit(p[2]) + 8 * Bit(p[3]) + 4 * Bit(p[4]) + 2 * Bit(p[5]) + Bit(p[6])
    case _ => 1
  }

  lemma {:induction false} PackShort(p: string)
    requires |p| <= 7
    ensures Pack(p) == PackedByLength(p)
  {
    if p != [] { PackShort(p[..|p| - 1]); }
  }

  /** Inverse of the table: which row carries the pattern with packed form `code`. */
  function RowOfCode(code: nat): nat {
    match code
    case 5 => 0 case 24 => 1 case 26 => 2 case 12 => 3 case 2 => 4 case 18 => 5 case 14 => 6 case 16 => 7
    case 4 => 8 case 23 => 9 case 13 => 10 case 20 => 11 case 7 => 12 case 6 => 13 case 15 => 14 case 22 => 15
    case 29 => 16 case 10 => 17 case 8 => 18 case 3 => 19 case 9 => 20 case 17 => 21 case 11 => 22
    case 25 => 23 case 27 => 24 case 28 => 25 case 63 => 26 case 47 => 27 case 39 => 28 case 35 => 29
    case 33 => 30 case 32 => 31 case 48 => 32 case 56 => 33 case 60 => 34 case 62 => 35 case 85 => 36
    case 115 => 37 case 76 => 38 case 94 => 39 case 107 => 40 case 50 => 41 case 54 => 42 case 109 => 43
    case 40 => 44 case 120 => 45 case 106 => 46 case 49 => 47 case 42 => 48 case 97 => 49 case 77 => 50
    case 82 => 51 case 137 => 52 case 90 => 53
    case _ => 54
  }

  lemma {:induction false} RowsOk0(i: nat)
    requires 0 <= i < 8
    ensures WellFormed(MorseRow(i).1) && RowOfCode(PackedByLength(MorseRow(i).1)) == i
  {
    if i == 0 {} else if i == 1 {} else if i == 2 {} else if i == 3 {} else if i == 4 {} else if
    i == 5 {} else if i == 6 {} else if i == 7 {}
  }

  lemma {:induction false} RowsOk1(i: nat)
    requires 8 <= i < 16
    ensures WellFormed(MorseRow(i).1) && RowOfCode(PackedByLength(MorseRow(i).1)) == i
  {
    if i == 8 {} else if i == 9 {} else if i == 10 {} else if i == 11 {} else if i == 12 {} else if
    i == 13 {} else if i == 14 {} else if i == 15 {}
  }

  lemma {:induction false} RowsOk2(i: nat)
    requires 16 <= i < 24
    ensures WellFormed(MorseRow(i).1) && RowOfCode(PackedByLength(MorseRow(i).1)) == i
  {
    if i == 16 {} else if i == 17 {} else if i == 18 {} else if i == 19 {} else if i == 20 {} else if
    i == 21 {} else if i == 22 {} else if i == 23 {}
  }

  lemma {:induction false} RowsOk3(i: nat)
    requires 24 <= i < 30
    ensures WellFormed(MorseRow(i).1) && RowOfCode(PackedByLength(MorseRow(i).1)) == i
  {
    if i == 24 {} else if i == 25 {} else if i == 26 {} else if i == 27 {} else if i == 28 {} else if
    i == 29 {}
  }

  lemma {:induction false} RowsOk4(i: nat)
    requires 30 <= i < 36
    ensures WellFormed(MorseRow(i).1) && RowOfCode(PackedByLength(MorseRow(i).1)) == i
  {
    if i == 30 {} else if i == 31 {} else if i == 32 {} else if i == 33 {} else if i == 34 {} else if
    i == 35 {}
  }

  lemma {:induction false} RowsOk5(i: nat)
    requires 36 <= i < 39
    ensures WellFormed(MorseRow(i).1) && RowOfCode(PackedByLength(MorseRow(i).1)) == i
  {
    if i == 36 {} else if i == 37 {} else if i == 38 {}
  }

  lemma {:induction false} RowsOk6(i: nat)
    requires 39 <= i < 42
    ensures WellFormed(MorseRow(i).1) && RowOfCode(PackedByLength(MorseRow(i).1)) == i
  {
    if i == 39 {} else if i == 40 {} else if i == 41 {}
  }

  lemma {:induction false} RowsOk7(i: nat)
    requires 42 <= i < 45
    ensures WellFormed(MorseRow(i).1) && RowOfCode(PackedByLength(MorseRow(i).1)) == i
  {
    if i == 42 {} else if i == 43 {} else if i == 44 {}
  }

  lemma {:induction false} RowsOk8(i: nat)
    requires 45 <= i < 48
    ensures WellFormed(MorseRow(i).1) && RowOfCode(PackedByLength(MorseRow(i).1)) == i
  {
    if i == 45 {} else if i == 46 {} else if i == 47 {}
  }

  lemma {:induction false} RowsOk9(i: nat)
    requires 48 <= i < 51
    ensures WellFormed(MorseRow(i).1) && RowOfCode(PackedByLength(MorseRow(i).1)) == i
  {
    if i == 48 {} else if i == 49 {} else if i == 50 {}
  }

  lemma {:induction false} RowsOk10(i: nat)
    requires 51 <= i < 53
    ensures WellFormed(MorseRow(i).1) && RowOfCode(PackedByLength(MorseRow(i).1)) == i
  {
    if i == 51 {} else if i == 52 {}
  }

  lemma {:induction false} RowsOk11()
    ensures WellFormed(MorseRow(53).1) && RowOfCode(PackedByLength(MorseRow(53).1)) == 53
  {}

  /** Every row is a well-formed pattern, and its packed form identifies the row. */
  lemma {:induction false} RowsOk(i: nat)
    requires i < ROWS
    ensures WellFormed(MorseRow(i).1) && RowOfCode(Pack(MorseRow(i).1)) == i
  {
    hide MorseRow, RowOfCode;
    if i < 8 { RowsOk0(i); } else if i < 16 { RowsOk1(i); } else if i < 24 { RowsOk2(i); }
    else if i < 30 { RowsOk3(i); } else if i < 36 { RowsOk4(i); } else if i < 39 { RowsOk5(i); }
    else if i < 42 { RowsOk6(i); } else if i < 45 { RowsOk7(i); } else if i < 48 { RowsOk8(i); }
    else if i < 51 { RowsOk9(i); } else if i < 53 { RowsOk10(i); } else { RowsOk11(); }
    PackShort(MorseRow(i).1);
  }

  lemma {:induction false} RowOf(upper: char, i: nat) returns (r: nat)
    requires i <= ROWS && PatternFrom(upper, i).Some?
    ensures r < ROWS && MorseRow(r) == (upper, PatternFrom(upper, i).value)
    decreases ROWS - i
  {
    hide MorseRow;
    if MorseRow(i).0 == upper { r := i; } else { r := RowOf(upper, i + 1); }
  }

  lemma {:induction false} PatternWellFormed(c: char)
    requires Known(c)
    ensures WellFormed(Pattern(c).value)
  {
    hide MorseRow;
    var i := RowOf(Upper(c), 0);
    RowsOk(i);
  }

  /** No two characters share a pattern, up to ASCII case. */
  lemma {:induction false} PatternInjective(c: char, d: char)
    requires Known(c) && Known(d) && Pattern(c) == Pattern(d)
    ensures Upper(c) == Upper(d)
  {
    hide MorseRow, RowOfCode;
    var i := RowOf(Upper(c), 0);
    var j := RowOf(Upper(d), 0);
    RowsOk(i);
    RowsOk(j);
  }
}
