/** Radio-to-host frames: the interleaved rows as written by the emulator and as read by both parsers. */
module RxFrames {
  import opened Base
  import opened Samples
  import opened ByteBuffers
  import opened IqCodec

  const SUBFRAME_SIZE: nat := 512

  /** The control bytes of a sub-frame. */
  datatype Header = Header(c0: u8, c1: u8, c2: u8, c3: u8, c4: u8) {
    predicate Ptt() { c0 % 2 == 1 }

    /** The response address, without the PTT bit and the top bit. */
    function Address(): u8 { c0 % 128 - c0 % 2 }

    function Bytes(): (r: seq<u8>)
      ensures |r| == 8
    {
      [0x7F, 0x7F, 0x7F, c0, c1, c2, c3, c4]
    }
  }

  function HeaderAt(sf: seq<u8>): Header
    requires |sf| >= 8
  {
    Header(sf[3], sf[4], sf[5], sf[6], sf[7])
  }

  // ---- layout -------------------------------------------------------------------------------

  /** Bytes of a row: six for each DDC and two for the microphone. */
  function BlockSize(nddc: nat): (r: nat)
    ensures r >= 2
  {
    6 * nddc + 2
  }

  /** Rows that fit into a sub-frame. */
  function Spr(nddc: nat): nat {
    QuotientNat(504, BlockSize(nddc));
    504 / BlockSize(nddc)
  }

  lemma {:induction false} QuotientNat(a: nat, b: nat)
    requires b > 0
    ensures 0 <= a / b && (a / b) * b <= a < (a / b) * b + b
  {}

  /** Where a row starts behind the header. */
  function Offset(row: nat, nddc: nat): nat { if row == 0 then 0 else Offset(row - 1, nddc) + BlockSize(nddc) }

  lemma {:induction false} OffsetIsProduct(row: nat, nddc: nat)
    ensures Offset(row, nddc) == row * BlockSize(nddc)
  {
    if row > 0 { OffsetIsProduct(row - 1, nddc); }
  }

  lemma {:induction false} OffsetGrows(row: nat, more: nat, nddc: nat)
    requires row <= more
    ensures Offset(row, nddc) + (more - row) <= Offset(more, nddc)
  {
    if row < more { OffsetGrows(row, more - 1, nddc); }
  }

  /** All rows fit, and one more would not. */
  lemma {:induction false} RowsFit(nddc: nat)
    ensures Offset(Spr(nddc), nddc) <= 504 < Offset(Spr(nddc) + 1, nddc)
  {
    hide BlockSize, Offset;
    OffsetIsProduct(Spr(nddc), nddc);
    QuotientNat(504, BlockSize(nddc));
    NextOffset(Spr(nddc), nddc);
  }

  lemma {:induction false} NextOffset(row: nat, nddc: nat)
    ensures Offset(row + 1, nddc) == Offset(row, nddc) + BlockSize(nddc)
  {}

  lemma {:induction false} RowFits(row: nat, nddc: nat)
    requires row < Spr(nddc)
    ensures Offset(row, nddc) + BlockSize(nddc) <= 504
  {
    OffsetGrows(row + 1, Spr(nddc), nddc);
    RowsFit(nddc);
  }

  /** A matrix of samples: at least `nddc` channels of at least `rows` samples. */
  predicate Covers(samples: seq<seq<Complex>>, nddc: nat, rows: nat) {
    nddc <= |samples| && forall d :: 0 <= d < nddc ==> |samples[d]| >= rows
  }

  /** The samples of the first `n` channels at one row. */
  function RowBytes(samples: seq<seq<Complex>>, row: nat, n: nat): (r: seq<u8>)
    requires Covers(samples, n, row + 1)
    ensures |r| == 6 * n
  {
    if n == 0 then [] else RowBytes(samples, row, n - 1) + IqBytes(samples[n - 1][row], false)
  }

  function RowsBytes(samples: seq<seq<Complex>>, nddc: nat, rows: nat): (r: seq<u8>)
    requires Covers(samples, nddc, rows)
    ensures |r| == Offset(rows, nddc)
  {
    if rows == 0 then []
    else RowsBytes(samples, nddc, rows - 1) + RowBytes(samples, rows - 1, nddc) + [0, 0]
  }

  /** A sub-frame: its header, all rows that fit, and zeros. */
  function SubframeBytes(header: seq<u8>, samples: seq<seq<Complex>>, nddc: nat): (r: seq<u8>)
    requires |header| == 8 && Covers(samples, nddc, Spr(nddc))
    ensures |r| == SUBFRAME_SIZE
  {
    RowsFit(nddc);
    var rows := RowsBytes(samples, nddc, Spr(nddc));
    header + rows + ZeroBytes(504 - |rows|)
  }

  // ---- writing ------------------------------------------------------------------------------

  /** The rows of the packet loops, written over the buffer from `at` on. */
  method WriteRows(buf: array<u8>, at: nat, samples: seq<seq<Complex>>, nddc: nat) returns (next: nat)
    requires Covers(samples, nddc, Spr(nddc)) && at + 504 <= buf.Length
    modifies buf
    ensures next == at + Offset(Spr(nddc), nddc) <= at + 504
    ensures buf[..] == Over(old(buf[..]), at, RowsBytes(samples, nddc, Spr(nddc)))
  {
    hide Over, RowsBytes, Spr;
    ghost var was := buf[..];
    RowsFit(nddc);
    next := at;
    OverNothing(was, at);
    NoRows(samples, nddc);
    for row := 0 to Spr(nddc)
      invariant next == at + Offset(row, nddc) && Offset(row, nddc) <= 504
      invariant buf[..] == Over(was, at, RowsBytes(samples, nddc, row))
    {
      RowFits(row, nddc);
      next := WriteRow(buf, next, samples, row, nddc);
      OverAppend(was, at, RowsBytes(samples, nddc, row), RowBytes(samples, row, nddc) + [0, 0]);
      OneRowMore(samples, nddc, row);
    }
  }

  lemma {:induction false} NoRows(samples: seq<seq<Complex>>, nddc: nat)
    requires Covers(samples, nddc, 0)
    ensures RowsBytes(samples, nddc, 0) == []
  {}

  lemma {:induction false} OneRowMore(samples: seq<seq<Complex>>, nddc: nat, row: nat)
    requires Covers(samples, nddc, row + 1)
    ensures RowsBytes(samples, nddc, row + 1)
      == RowsBytes(samples, nddc, row) + (RowBytes(samples, row, nddc) + [0, 0])
  {}

  /** One row: the sample of every channel, then silence for the microphone. */
  method WriteRow(buf: array<u8>, at: nat, samples: seq<seq<Complex>>, row: nat, nddc: nat) returns (next: nat)
    requires Covers(samples, nddc, row + 1) && at + BlockSize(nddc) <= buf.Length
    modifies buf
    ensures next == at + BlockSize(nddc)
    ensures buf[..] == Over(old(buf[..]), at, RowBytes(samples, row, nddc) + [0, 0])
  {
    hide Over, IqBytes;
    ghost var was := buf[..];
    next := at;
    OverNothing(was, at);
    for ddc := 0 to nddc
      invariant next == at + 6 * ddc
      invariant buf[..] == Over(was, at, RowBytes(samples, row, ddc))
    {
      next := PackIq24BitInto(buf, next, samples[ddc][row], false);
      OverAppend(was, at, RowBytes(samples, row, ddc), IqBytes(samples[ddc][row], false));
    }
    WriteBytes(buf, next, [0, 0]);
    OverAppend(was, at, RowBytes(samples, row, nddc), [0, 0]);
    next := next + 2;
  }

  /** The sub-frame as the emulator fills it, header first; the bytes around it stay as they are. */
  method FillSubframe(buf: array<u8>, at: nat, header: seq<u8>, samples: seq<seq<Complex>>, nddc: nat)
    requires |header| == 8 && Covers(samples, nddc, Spr(nddc)) && at + SUBFRAME_SIZE <= buf.Length
    modifies buf
    ensures buf[..] == Over(old(buf[..]), at, SubframeBytes(header, samples, nddc))
  {
    hide Over, RowsBytes, Spr;
    ghost var was := buf[..];
    WriteBytes(buf, at, header);
    ghost var rows := RowsBytes(samples, nddc, Spr(nddc));
    RowsFit(nddc);
    var next := WriteRows(buf, at + 8, samples, nddc);
    OverAppend(was, at, header, rows);
    FillZeros(buf, next, at + SUBFRAME_SIZE);
    OverAppend(was, at, header + rows, ZeroBytes(504 - |rows|));
  }

  // ---- reading --------------------------------------------------------------------------------

  /** The samples of one channel in the sub-frame that starts at `base`. */
  function Extract(data: seq<u8>, base: nat, nddc: nat, ddc: nat, rows: nat): (r: seq<Complex>)
    requires ddc < nddc && rows <= Spr(nddc) && base + SUBFRAME_SIZE <= |data|
    ensures |r| == rows
  {
    if rows == 0 then []
    else
      RowFits(rows - 1, nddc);
      Extract(data, base, nddc, ddc, rows - 1) + [UnpackIq(data, base + 8 + Offset(rows - 1, nddc) + 6 * ddc)]
  }

  /** The streaming client's deinterleaving loops. */
  method ParseRadioSubframe(sf: seq<u8>, nddc: nat) returns (bufs: seq<seq<Complex>>)
    requires |sf| == SUBFRAME_SIZE && nddc > 0
    ensures |bufs| == nddc
    ensures forall d :: 0 <= d < nddc ==> bufs[d] == Extract(sf, 0, nddc, d, Spr(nddc))
  {
    hide UnpackIq, Spr;
    bufs := seq(nddc, d => []);
    for row := 0 to Spr(nddc)
      invariant |bufs| == nddc
      invariant forall d :: 0 <= d < nddc ==> bufs[d] == Extract(sf, 0, nddc, d, row)
    {
      RowFits(row, nddc);
      OffsetIsProduct(row, nddc);
      var rowOffset := 8 + row * BlockSize(nddc);
      bufs := PushRow(sf, rowOffset, nddc, bufs);
    }
  }

  /** One row: a sample for every channel. */
  method PushRow(data: seq<u8>, rowOffset: nat, nddc: nat, bufs: seq<seq<Complex>>) returns (r: seq<seq<Complex>>)
    requires |bufs| == nddc && rowOffset + 6 * nddc <= |data|
    ensures |r| == nddc
    ensures forall d :: 0 <= d < nddc ==> r[d] == bufs[d] + [UnpackIq(data, rowOffset + 6 * d)]
  {
    hide UnpackIq;
    r := bufs;
    for ddc := 0 to nddc
      invariant |r| == nddc
      invariant forall d :: 0 <= d < ddc ==> r[d] == bufs[d] + [UnpackIq(data, rowOffset + 6 * d)]
      invariant forall d :: ddc <= d < nddc ==> r[d] == bufs[d]
    {
      var sampleOffset := rowOffset + ddc * 6;
      if sampleOffset + 6 <= |data| {
        r := r[ddc := r[ddc] + [UnpackIq(data, sampleOffset)]];
      }
    }
  }

  predicate SyncAt(data: seq<u8>, base: nat) {
    base + 3 <= |data| && data[base] == 0x7F && data[base + 1] == 0x7F && data[base + 2] == 0x7F
  }

  /** The stand-alone parser's loop over one sub-frame, as long as another row fits. */
  method ParseFrame(data: seq<u8>, base: nat, nddc: nat, samples: seq<seq<Complex>>) returns (r: seq<seq<Complex>>)
    requires base + SUBFRAME_SIZE <= |data| && |samples| == nddc
    ensures |r| == nddc
    ensures forall d :: 0 <= d < nddc ==> r[d] == samples[d] + Extract(data, base, nddc, d, Spr(nddc))
  {
    hide UnpackIq, Spr;
    r := samples;
    var at := base + 8;
    ghost var row := 0;
    RowsFit(nddc);
    while at + BlockSize(nddc) <= base + SUBFRAME_SIZE
      invariant at == base + 8 + Offset(row, nddc) && row <= Spr(nddc)
      invariant |r| == nddc
      invariant forall d :: 0 <= d < nddc ==> r[d] == samples[d] + Extract(data, base, nddc, d, row)
      decreases base + SUBFRAME_SIZE - at
    {
      OneMoreFits(row, nddc);
      ghost var was := r;
      r := PushRow(data, at, nddc, r);
      at := at + BlockSize(nddc);
      row := row + 1;
    }
    if row < Spr(nddc) { RowFits(row, nddc); }
  }

  lemma {:induction false} OneMoreFits(row: nat, nddc: nat)
    requires Offset(row, nddc) + BlockSize(nddc) <= 504 && row <= Spr(nddc)
    ensures row < Spr(nddc)
  {
    RowsFit(nddc);
  }

  /** The status of the stand-alone parser. */
  datatype P1Status = P1Status(
    ptt: bool,
    adcOverflow: u8,
    forwardPower: u16,
    reversePower: u16,
    exciterPower: u16,
    supplyVoltage: u16,
    responseAddr: u8
  ) {
    function Update(h: Header): P1Status {
      var s := this.(ptt := h.Ptt(), responseAddr := h.Address());
      match h.Address()
      case 0x00 => s.(adcOverflow := h.c1)
      case 0x08 => s.(exciterPower := Word16(h.c1, h.c2), forwardPower := Word16(h.c3, h.c4))
      case 0x10 => s.(reversePower := Word16(h.c1, h.c2))
      case 0x18 => s.(supplyVoltage := Word16(h.c3, h.c4))
      case _ => s
    }
  }

  const NO_P1_STATUS := P1Status(false, 0, 0, 0, 0, 0, 0)

  datatype P1RxFrame = P1RxFrame(samples: seq<seq<Complex>>, status: P1Status)

  /** The stand-alone parser: nothing unless both sub-frames are in sync. */
  method ParseRxPacket(data: seq<u8>, nddc: nat) returns (r: Option<P1RxFrame>)
    ensures r.Some? <==> |data| >= 1032 && nddc > 0 && SyncAt(data, 8) && SyncAt(data, 520)
    ensures r.Some? ==> |r.value.samples| == nddc && forall d :: 0 <= d < nddc ==>
      r.value.samples[d] == Extract(data, 8, nddc, d, Spr(nddc)) + Extract(data, 520, nddc, d, Spr(nddc))
    ensures r.Some? ==>
      r.value.status == NO_P1_STATUS.Update(HeaderAt(data[8..520])).Update(HeaderAt(data[520..1032]))
  {
    hide Extract, Spr, P1Status.Update;
    if |data| < 1032 || nddc == 0 {
      return None;
    }
    var samples: seq<seq<Complex>> := seq(nddc, d => []);
    if !SyncAt(data, 8) {
      return None;
    }
    var status := NO_P1_STATUS.Update(HeaderAt(data[8..520]));
    samples := ParseFrame(data, 8, nddc, samples);
    if !SyncAt(data, 520) {
      return None;
    }
    status := status.Update(HeaderAt(data[520..1032]));
    samples := ParseFrame(data, 520, nddc, samples);
    r := Some(P1RxFrame(samples, status));
  }

  // ---- both parsers see the same, and what was written ------------------------------------------

  /** A sub-frame reads the same inside its packet and on its own. */
  lemma {:induction false} ExtractSlice(data: seq<u8>, base: nat, nddc: nat, ddc: nat, rows: nat)
    requires ddc < nddc && rows <= Spr(nddc) && base + SUBFRAME_SIZE <= |data|
    ensures Extract(data[base..base + SUBFRAME_SIZE], 0, nddc, ddc, rows) == Extract(data, base, nddc, ddc, rows)
  {
    hide Spr;
    if rows > 0 {
      ExtractSlice(data, base, nddc, ddc, rows - 1);
      RowFits(rows - 1, nddc);
    }
  }

  lemma {:induction false} RowAt(samples: seq<seq<Complex>>, row: nat, n: nat, ddc: nat)
    requires Covers(samples, n, row + 1) && ddc < n
    ensures RowBytes(samples, row, n)[6 * ddc..6 * ddc + 6] == IqBytes(samples[ddc][row], false)
  {
    hide IqBytes;
    if ddc < n - 1 {
      RowAt(samples, row, n - 1, ddc);
      assert RowBytes(samples, row, n)[6 * ddc..6 * ddc + 6] == RowBytes(samples, row, n - 1)[6 * ddc..6 * ddc + 6];
    }
  }

  lemma {:induction false} RowsAt(samples: seq<seq<Complex>>, nddc: nat, rows: nat, row: nat, ddc: nat)
    requires Covers(samples, nddc, rows) && ddc < nddc && row < rows
    ensures var at := Offset(row, nddc) + 6 * ddc;
      at + 6 <= Offset(rows, nddc) && RowsBytes(samples, nddc, rows)[at..at + 6] == IqBytes(samples[ddc][row], false)
  {
    hide IqBytes, RowBytes, BlockSize, RowsBytes, Covers;
    CoversLess(samples, nddc, rows);
    NextOffset(rows - 1, nddc);
    var before := RowsBytes(samples, nddc, rows - 1);
    var last := RowBytes(samples, rows - 1, nddc);
    OneRowMore(samples, nddc, rows - 1);
    if row < rows - 1 {
      RowsAt(samples, nddc, rows - 1, row, ddc);
      SliceLeft(before, last + [0, 0], Offset(row, nddc) + 6 * ddc);
    } else {
      RowAt(samples, row, nddc, ddc);
      SliceLeft(last, [0, 0], 6 * ddc);
      SliceRight(before, last + [0, 0], 6 * ddc);
    }
  }

  lemma {:induction false} CoversLess(samples: seq<seq<Complex>>, nddc: nat, rows: nat)
    requires Covers(samples, nddc, rows) && rows > 0
    ensures Covers(samples, nddc, rows - 1) && forall d :: 0 <= d < nddc ==> |samples[d]| >= rows
    ensures nddc <= |samples|
  {}

  lemma {:induction false} SliceLeft(a: seq<u8>, b: seq<u8>, at: nat)
    requires at + 6 <= |a|
    ensures (a + b)[at..at + 6] == a[at..at + 6]
  {}

  lemma {:induction false} SliceRight(a: seq<u8>, b: seq<u8>, at: nat)
    requires at + 6 <= |b|
    ensures (a + b)[|a| + at..|a| + at + 6] == b[at..at + 6]
  {}

  /** Where the parsers look for a sample, the emulator has put it. */
  lemma {:induction false} SubframeAt(header: seq<u8>, samples: seq<seq<Complex>>, nddc: nat, row: nat, ddc: nat)
    requires |header| == 8 && Covers(samples, nddc, Spr(nddc)) && ddc < nddc && row < Spr(nddc)
    ensures var at := 8 + Offset(row, nddc) + 6 * ddc;
      at + 6 <= 512 && SubframeBytes(header, samples, nddc)[at..at + 6] == IqBytes(samples[ddc][row], false)
  {
    hide IqBytes, RowsBytes, Spr;
    RowsFit(nddc);
    RowsAt(samples, nddc, Spr(nddc), row, ddc);
    var at := Offset(row, nddc) + 6 * ddc;
    var rows := RowsBytes(samples, nddc, Spr(nddc));
    assert SubframeBytes(header, samples, nddc)[8 + at..8 + at + 6] == rows[at..at + 6];
  }

  lemma {:induction false} ExtractAt(data: seq<u8>, base: nat, nddc: nat, ddc: nat, rows: nat, row: nat)
    requires ddc < nddc && rows <= Spr(nddc) && base + SUBFRAME_SIZE <= |data| && row < rows
    ensures var at := base + 8 + Offset(row, nddc) + 6 * ddc;
      at + 6 <= |data| && Extract(data, base, nddc, ddc, rows)[row] == UnpackIq(data, at)
  {
    hide UnpackIq, Spr;
    RowFits(row, nddc);
    if row < rows - 1 { ExtractAt(data, base, nddc, ddc, rows - 1, row); }
  }

  /** Every sample of a channel is close to the conjugate of the one that was packed. */
  predicate Received(got: seq<Complex>, sent: seq<Complex>, n: nat) {
    |got| == n <= |sent| &&
    forall i :: 0 <= i < n ==> InRange(sent[i]) ==> Near(got[i], sent[i].Conjugate(), 2.0 / 8_388_608.0)
  }

  lemma {:induction false} SubframeRoundTrip(header: seq<u8>, samples: seq<seq<Complex>>, nddc: nat, ddc: nat)
    requires |header| == 8 && Covers(samples, nddc, Spr(nddc)) && ddc < nddc
    ensures Received(Extract(SubframeBytes(header, samples, nddc), 0, nddc, ddc, Spr(nddc)), samples[ddc], Spr(nddc))
  {
    hide SubframeBytes, Extract, IqBytes, UnpackIq, Near, InRange, Spr;
    var sf := SubframeBytes(header, samples, nddc);
    var got := Extract(sf, 0, nddc, ddc, Spr(nddc));
    forall i | 0 <= i < Spr(nddc) && InRange(samples[ddc][i])
      ensures Near(got[i], samples[ddc][i].Conjugate(), 2.0 / 8_388_608.0)
    {
      SubframeAt(header, samples, nddc, i, ddc);
      ExtractAt(sf, 0, nddc, ddc, Spr(nddc), i);
      IqRoundTrip(samples[ddc][i], false, sf, 8 + Offset(i, nddc) + 6 * ddc);
    }
  }

  /**
   A whole data packet: for every number of channels, each channel gets the rows of both sub-frames,
   twice 504 / (6 n + 2) samples, each within 2 / 2^23 of the conjugate of the one packed; the stand-alone
   parser and the streaming client read the same samples.
   */
  lemma {:induction false} PacketRoundTrip(prefix: seq<u8>, h0: seq<u8>, s0: seq<seq<Complex>>, h1: seq<u8>,
                                           s1: seq<seq<Complex>>, nddc: nat, ddc: nat)
    requires |prefix| == 8 && |h0| == 8 && |h1| == 8 && ddc < nddc
    requires Covers(s0, nddc, Spr(nddc)) && Covers(s1, nddc, Spr(nddc))
    ensures var packet := prefix + SubframeBytes(h0, s0, nddc) + SubframeBytes(h1, s1, nddc);
      var a, b := Extract(packet, 8, nddc, ddc, Spr(nddc)), Extract(packet, 520, nddc, ddc, Spr(nddc));
      && |a + b| == 2 * (504 / (6 * nddc + 2))
      && a == Extract(packet[8..520], 0, nddc, ddc, Spr(nddc)) && Received(a, s0[ddc], Spr(nddc))
      && b == Extract(packet[520..1032], 0, nddc, ddc, Spr(nddc)) && Received(b, s1[ddc], Spr(nddc))
  {
    hide SubframeBytes, Extract, Received;
    var packet := prefix + SubframeBytes(h0, s0, nddc) + SubframeBytes(h1, s1, nddc);
    assert packet[8..520] == SubframeBytes(h0, s0, nddc) && packet[520..1032] == SubframeBytes(h1, s1, nddc);
    SubframeRoundTrip(h0, s0, nddc, ddc);
    SubframeRoundTrip(h1, s1, nddc, ddc);
    ExtractSlice(packet, 8, nddc, ddc, Spr(nddc));
    ExtractSlice(packet, 520, nddc, ddc, Spr(nddc));
  }

  /**
   The wire format in numbers: after the header, row `row` begins at byte 8 + row (6 n + 2); the sample of channel
   `ddc` stands six bytes per channel further on, I before Q, each as a 24-bit two's complement with the most
   significant byte first.
   */
  lemma {:induction false} WireFormat(header: seq<u8>, samples: seq<seq<Complex>>, nddc: nat, row: nat, ddc: nat,
                                      at: nat)
    requires |header| == 8 && Covers(samples, nddc, Spr(nddc)) && ddc < nddc && row < Spr(nddc)
    requires at == 8 + row * (6 * nddc + 2) + 6 * ddc
    ensures var sf := SubframeBytes(header, samples, nddc);
      && sf[..8] == header && at + 6 <= 512
      && 65536 * sf[at] as int + 256 * sf[at + 1] as int + sf[at + 2] as int
           == Quantise(samples[ddc][row].re, MAX24) % 0x100_0000
      && 65536 * sf[at + 3] as int + 256 * sf[at + 4] as int + sf[at + 5] as int
           == Quantise(samples[ddc][row].im, MAX24) % 0x100_0000
  {
    hide RowsBytes, Spr, IqBytes, Quantise;
    var sf := SubframeBytes(header, samples, nddc);
    OffsetIsProduct(row, nddc);
    SubframeAt(header, samples, nddc, row, ddc);
    IqWire(samples[ddc][row]);
    var b := sf[at..at + 6];
    assert b[0] == sf[at] && b[1] == sf[at + 1] && b[2] == sf[at + 2];
    assert b[3] == sf[at + 3] && b[4] == sf[at + 4] && b[5] == sf[at + 5];
  }
}
