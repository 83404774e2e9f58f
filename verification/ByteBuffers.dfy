/** Writing into byte buffers. */
module ByteBuffers {
  import opened Base

  /** `bytes` written over `s` from `at` on. */
  function Over(s: seq<u8>, at: nat, bytes: seq<u8>): (r: seq<u8>)
    requires at + |bytes| <= |s|
    ensures |r| == |s|
  {
    s[..at] + bytes + s[at + |bytes|..]
  }

  function ZeroBytes(n: nat): (r: seq<u8>)
    ensures |r| == n && forall i :: 0 <= i < n ==> r[i] == 0
  {
    seq(n, i => 0)
  }

  lemma {:induction false} OverNothing(s: seq<u8>, at: nat)
    requires at <= |s|
    ensures Over(s, at, []) == s
  {}

  /** Writing twice in a row is writing the concatenation. */
  lemma {:induction false} OverAppend(s: seq<u8>, at: nat, a: seq<u8>, b: seq<u8>)
    requires at + |a| + |b| <= |s|
    ensures Over(Over(s, at, a), at + |a|, b) == Over(s, at, a + b)
  {}

  /** Writing what is already there changes nothing. */
  lemma {:induction false} OverSame(s: seq<u8>, at: nat, bytes: seq<u8>)
    requires at + |bytes| <= |s| && s[at..at + |bytes|] == bytes
    ensures Over(s, at, bytes) == s
  {}

  lemma {:induction false} OverAll(s: seq<u8>, bytes: seq<u8>)
    requires |s| == |bytes|
    ensures Over(s, 0, bytes) == bytes
  {}

  /** Bytes behind those written stay as they were. */
  lemma {:induction false} OverTail(s: seq<u8>, at: nat, bytes: seq<u8>, from: nat, to: nat)
    requires at + |bytes| <= from <= to <= |s|
    ensures Over(s, at, bytes)[from..to] == s[from..to]
  {}

  lemma {:induction false} ZerosWithin(s: seq<u8>, at: nat, len: nat, from: nat, n: nat)
    requires at + len <= |s| && s[at..at + len] == ZeroBytes(len) && at <= from && from + n <= at + len
    ensures s[from..from + n] == ZeroBytes(n)
  {
    var t := s[from..from + n];
    forall k | 0 <= k < |t|
      ensures t[k] == 0
    {
      assert t[k] == s[at..at + len][from + k - at];
    }
  }

  /** `copy_from_slice`. */
  method WriteBytes(buf: array<u8>, at: nat, bytes: seq<u8>)
    requires at + |bytes| <= buf.Length
    modifies buf
    ensures buf[..] == Over(old(buf[..]), at, bytes)
  {
    for k := 0 to |bytes|
      invariant forall i :: 0 <= i < k ==> buf[at + i] == bytes[i]
      invariant forall i :: 0 <= i < buf.Length && !(at <= i < at + k) ==> buf[i] == old(buf[i])
    {
      buf[at + k] := bytes[k];
    }
  }

  /** Zeros up to the end of the sub-frame. */
  method FillZeros(buf: array<u8>, from: nat, to: nat)
    requires from <= to <= buf.Length
    modifies buf
    ensures buf[..] == Over(old(buf[..]), from, ZeroBytes(to - from))
  {
    for k := from to to
      invariant forall i :: from <= i < k ==> buf[i] == 0
      invariant forall i :: 0 <= i < buf.Length && !(from <= i < k) ==> buf[i] == old(buf[i])
    {
      buf[k] := 0;
    }
  }
}
