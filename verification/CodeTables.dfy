/** The decoder's table against the encoder's: each inverts the other on the characters both know. */
module CodeTables {
  import opened Base
  import opened Morse
  import Decoder
  import DecoderProofs

  /** Letters, digits and the five marks the decoder knows. */
  predicate Decodable(c: char) {
    'A' <= c <= 'Z' || '0' <= c <= '9' || c == '=' || c == '/' || c == '?' || c == '.' || c == ','
  }

  function Decoded(c: char): string { if Decodable(Upper(c)) then [Upper(c)] else "" }

  ghost predicate RowInverse(i: nat)
    requires i < ROWS
  {
    var row := MorseRow(i);
    var ch := if |row.1| <= 6 then Decoder.Lookup(PackedByLength(row.1)) else '\0';
    ch == if Decodable(row.0) then row.0 else '\0'
  }

  lemma {:induction false} RowsInverse0(i: nat)
    requires 0 <= i < 7
    ensures RowInverse(i)
  {
    if i == 0 {} else if i == 1 {} else if i == 2 {} else if i == 3 {} else if i == 4 {} else if
    i == 5 {} else if i == 6 {}
  }

  lemma {:induction false} RowsInverse1(i: nat)
    requires 7 <= i < 13
    ensures RowInverse(i)
  {
    if i == 7 {} else if i == 8 {} else if i == 9 {} else if i == 10 {} else if i == 11 {} else if i == 12 {}
  }

  lemma {:induction false} RowsInverse2(i: nat)
    requires 13 <= i < 19
    ensures RowInverse(i)
  {
    if i == 13 {} else if i == 14 {} else if i == 15 {} else if i == 16 {} else if i == 17 {} else if
    i == 18 {}
  }

  lemma {:induction false} RowsInverse3(i: nat)
    requires 19 <= i < 26
    ensures RowInverse(i)
  {
    if i == 19 {} else if i == 20 {} else if i == 21 {} else if i == 22 {} else if i == 23 {} else if
    i == 24 {} else if i == 25 {}
  }

  lemma {:induction false} RowsInverse4(i: nat)
    requires 26 <= i < 31
    ensures RowInverse(i)
  {
    if i == 26 {} else if i == 27 {} else if i == 28 {} else if i == 29 {} else if i == 30 {}
  }

  lemma {:induction false} RowsInverse5(i: nat)
    requires 31 <= i < 36
    ensures RowInverse(i)
  {
    if i == 31 {} else if i == 32 {} else if i == 33 {} else if i == 34 {} else if i == 35 {}
  }

  lemma {:induction false} RowsInverse6(i: nat)
    requires 36 <= i < 40
    ensures RowInverse(i)
  {
    if i == 36 {} else if i == 37 {} else if i == 38 {} else if i == 39 {}
  }

  lemma {:induction false} RowsInverse7(i: nat)
    requires 40 <= i < 43
    ensures RowInverse(i)
  {
    if i == 40 {} else if i == 41 {} else if i == 42 {}
  }

  lemma {:induction false} RowsInverse8(i: nat)
    requires 43 <= i < 45
    ensures RowInverse(i)
  {
    if i == 43 {} else if i == 44 {}
  }

  lemma {:induction false} RowsInverse9(i: nat)
    requires 45 <= i < 47
    ensures RowInverse(i)
  {
    if i == 45 {} else if i == 46 {}
  }

  lemma {:induction false} RowsInverse10(i: nat)
    requires 47 <= i < 49
    ensures RowInverse(i)
  {
    if i == 47 {} else if i == 48 {}
  }

  lemma {:induction false} RowsInverse11(i: nat)
    requires 49 <= i < 51
    ensures RowInverse(i)
  {
    if i == 49 {} else if i == 50 {}
  }

  lemma {:induction false} RowsInverse12(i: nat)
    requires 51 <= i < 53
    ensures RowInverse(i)
  {
    if i == 51 {} else if i == 52 {}
  }

  lemma {:induction false} RowsInverse13()
    ensures RowInverse(53)
  {}

  lemma {:induction false} RowsInverse(i: nat)
    requires i < ROWS
    ensures RowInverse(i)
  {
    hide RowInverse;
    if i < 7 { RowsInverse0(i); } else if i < 13 { RowsInverse1(i); } else if i < 19 { RowsInverse2(i); }
    else if i < 26 { RowsInverse3(i); } else if i < 31 { RowsInverse4(i); } else if i < 36 { RowsInverse5(i); }
    else if i < 40 { RowsInverse6(i); } else if i < 43 { RowsInverse7(i); } else if i < 45 { RowsInverse8(i); }
    else if i < 47 { RowsInverse9(i); } else if i < 49 { RowsInverse10(i); } else if i < 51 { RowsInverse11(i); }
    else if i < 53 { RowsInverse12(i); } else { RowsInverse13(); }
  }

  /** The decoder reads a character's pattern as that character, or as nothing when it does not know it. */
  lemma {:induction false} LetterOfKnown(c: char)
    requires Known(c)
    ensures DecoderProofs.Letter(Pattern(c).value) == Decoded(c)
  {
    hide MorseRow, Decoder.Lookup, PackedByLength;
    var i := RowOf(Upper(c), 0);
    RowsOk(i);
    RowsInverse(i);
    PackShort(MorseRow(i).1);
  }
}
