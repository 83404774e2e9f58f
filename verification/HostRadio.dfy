/** The streaming client's side of Protocol 1: control rotation and transmitted samples. */
module HostRadio {
  import opened Base
  import opened Samples
  import opened ByteBuffers
  import opened IqCodec
  import Emulator

  datatype Hardware = Hermes | HermesLite

  const SLOTS: nat := 13

  /** The settings a client sends to its radio. */
  datatype Tuning = Tuning(
    hw: Hardware,
    sampleRate: u32,
    nddc: u8,
    rxFrequencies: Emulator.Freqs,
    txFrequency: u32,
    txDrive: u8,
    rxAttenuation: u8,
    ptt: bool
  )

  datatype Command = Command(c0: u8, c1: u8, c2: u8, c3: u8, c4: u8)

  // ---- tables -----------------------------------------------------------------------------------

  function SampleRateToCode(rate: u32): u8 {
    if rate == 48_000 then 0 else if rate == 96_000 then 1 else if rate == 192_000 then 2
    else if rate == 384_000 then 3 else 0
  }

  /** The filter board outputs for a frequency. */
  function N2adrOc(freq: u32): (r: u8)
    ensures r < 128
  {
    if freq <= 2_000_000 then 1 else if freq <= 4_000_000 then 66 else if freq <= 8_000_000 then 68
    else if freq <= 15_000_000 then 72 else if freq <= 22_000_000 then 80 else if freq <= 30_000_000 then 96 else 64
  }

  function AlexRxHpf(freq: u32): u8 {
    if freq < 1_500_000 then 0x20 else if freq < 6_500_000 then 0x10 else if freq < 9_500_000 then 0x08
    else if freq < 13_000_000 then 0x04 else if freq < 20_000_000 then 0x01 else if freq < 50_000_000 then 0x02
    else 0x42
  }

  function AlexTxLpf(freq: u32): u8 {
    if freq <= 2_500_000 then 0x08 else if freq <= 5_000_000 then 0x04 else if freq <= 8_000_000 then 0x02
    else if freq <= 16_500_000 then 0x01 else if freq <= 24_000_000 then 0x40 else if freq <= 35_600_000 then 0x20
    else 0x10
  }

  // ---- the rotation -------------------------------------------------------------------------------

  function WordCommand(c0: u8, word: u32): Command {
    var b := Bytes32(word);
    Command(c0, b[0], b[1], b[2], b[3])
  }

  /** The frequency sent for one DDC; unused ones are sent as zero. */
  function SentRxFrequency(t: Tuning, ddc: nat): u32
    requires ddc < 7
  {
    if ddc < t.nddc then t.rxFrequencies[ddc] else 0
  }

  function OcOutputs(t: Tuning): (r: u8)
    ensures r < 128
  {
    match t.hw
    case HermesLite => N2adrOc(if t.ptt then t.txFrequency else t.rxFrequencies[0])
    case Hermes => 0
  }

  function NddcBits(t: Tuning): u8 { (Max(t.nddc, 1) - 1) % 8 * 8 }

  /** What slot `idx` of the rotation sends; the PTT bit is added on filling the sub-frame. */
  function CommandAt(t: Tuning, idx: nat): Command
    requires idx < SLOTS
  {
    if idx == 0 then Command(0x00, SampleRateToCode(t.sampleRate), OcOutputs(t) * 2, 0, NddcBits(t) + 4)
    else if idx == 1 then WordCommand(0x02, t.txFrequency)
    else if idx <= 8 then WordCommand(0x04 + (idx - 2) * 2, SentRxFrequency(t, idx - 2))
    else if idx == 9 then
      if t.hw == HermesLite then Command(0x12, t.txDrive, 0x08, 0, 0)
      else Command(0x12, t.txDrive, 0, AlexRxHpf(t.rxFrequencies[0]), AlexTxLpf(t.txFrequency))
    else if idx == 10 then
      Command(0x14, 0, 0, 0, if t.hw == HermesLite then t.rxAttenuation % 32
                             else if t.rxAttenuation >= 20 then 0x20 else 0x00)
    else if idx == 11 then Command(0x16, 0, 0, 0, 0)
    else Command(0x1C, 0, 0, if t.hw == HermesLite then 0xC0 + t.rxAttenuation % 64 else 0, 0)
  }

  /** The command as it goes out, with the PTT bit. */
  function OnAir(t: Tuning, idx: nat): Command
    requires idx < SLOTS
  {
    hide N2adrOc, AlexRxHpf, AlexTxLpf, Bytes32, SampleRateToCode;
    var c := CommandAt(t, idx);
    c.(c0 := c.c0 + (if t.ptt then 1 else 0))
  }

  // ---- transmitted samples ------------------------------------------------------------------------

  /** One block: left and right audio, silent in CW mode, then I and the negated Q. */
  function Block(s: Complex, cw: bool): (r: seq<u8>)
    ensures |r| == 8
  {
    (if cw then [0, 0, 0, 0] else Component16(s.re) + Component16(s.re)) + Component16(s.re) + Component16(-s.im)
  }

  function Blocks(samples: seq<Complex>, cw: bool): (r: seq<u8>)
    ensures |r| == 8 * |samples|
  {
    if samples == [] then []
    else Blocks(samples[..|samples| - 1], cw) + Block(samples[|samples| - 1], cw)
  }

  /** A sub-frame towards the radio: sync, command, the samples there are, and silence. */
  function HostBytes(c: Command, samples: seq<Complex>, cw: bool): (r: seq<u8>)
    requires |samples| <= 63
    ensures |r| == 512
  {
    [0x7F, 0x7F, 0x7F, c.c0, c.c1, c.c2, c.c3, c.c4] + Blocks(samples, cw) + ZeroBytes(504 - 8 * |samples|)
  }

  /** The oldest 63 samples of a stream, or all of them. */
  function Oldest63(stream: seq<Complex>): (r: seq<Complex>)
    ensures |r| == Min(63, |stream|)
  {
    stream[..Min(63, |stream|)]
  }

  class Protocol1Client {
    const hw: Hardware
    var sampleRate: u32
    var nddc: u8
    var rxFrequencies: Emulator.Freqs
    var txFrequency: u32
    var txDrive: u8
    var rxAttenuation: u8
    var ptt: bool
    var txCwMode: bool
    var controlIdx: nat
    var txIqBuffer: seq<Complex>
    var txIqRing: seq<Complex>
    var txSeq: u32

    constructor (hw: Hardware)
      ensures controlIdx < SLOTS && txIqBuffer == [] && txIqRing == []
    {
      this.hw := hw;
      sampleRate, nddc, rxFrequencies := 48_000, 1, seq(12, i => 7_074_000);
      txFrequency, txDrive, rxAttenuation, ptt := 7_074_000, 0, 0, false;
      txCwMode, controlIdx, txIqBuffer, txIqRing, txSeq := false, 0, [], [], 0;
    }

    function Settings(): Tuning
      reads this
    {
      Tuning(hw, sampleRate, nddc, rxFrequencies, txFrequency, txDrive, rxAttenuation, ptt)
    }

    /** Everything still to be sent, oldest first: the buffer, then what the producer has put into the ring. */
    function Stream(): seq<Complex>
      reads this
    {
      txIqBuffer + txIqRing
    }

    method NextControlCommand() returns (c: Command)
      requires controlIdx < SLOTS
      modifies this`controlIdx
      ensures c == CommandAt(Settings(), old(controlIdx))
      ensures controlIdx == (old(controlIdx) + 1) % SLOTS
    {
      c := CommandAt(Settings(), controlIdx);
      controlIdx := (controlIdx + 1) % 13;
    }

    /** Takes up to 63 samples from the buffer, topped up from the ring when it runs low. */
    method TakeSamples() returns (samples: seq<Complex>)
      requires ptt
      modifies this`txIqBuffer, this`txIqRing
      ensures samples == Oldest63(old(Stream())) && Stream() == old(Stream())[|samples|..]
    {
      ghost var was := Stream();
      if |txIqBuffer| < 63 {
        txIqBuffer := txIqBuffer + txIqRing;
        txIqRing := [];
      }
      var n := Min(|txIqBuffer|, 63);
      samples := txIqBuffer[..n];
      txIqBuffer := txIqBuffer[n..];
      assert samples == was[..n] && Stream() == was[n..];
    }

    /**
     The next sub-frame, into a zeroed packet: with PTT on it carries the oldest 63 samples there are, or all of
     them, and these leave the stream; without PTT it carries none and none leaves.
     */
    method FillHostSubframe(buf: array<u8>, at: nat)
      requires controlIdx < SLOTS && at + 512 <= buf.Length && buf[at..at + 512] == ZeroBytes(512)
      modifies buf, this`controlIdx, this`txIqBuffer, this`txIqRing
      ensures buf[..] ==
        Over(old(buf[..]), at,
             HostBytes(OnAir(old(Settings()), old(controlIdx)), if ptt then Oldest63(old(Stream())) else [], txCwMode))
      ensures controlIdx == (old(controlIdx) + 1) % SLOTS
      ensures Stream() == old(Stream())[if ptt then Min(63, |old(Stream())|) else 0..]
    {
      hide Over, Component16, CommandAt, ZeroBytes;
      ghost var was := buf[..];
      ghost var air := OnAir(Settings(), controlIdx);
      var mox := if ptt then 1 else 0;
      MoxFits(Settings(), controlIdx);
      var c := NextControlCommand();
      var header := [0x7F, 0x7F, 0x7F, c.c0 + mox, c.c1, c.c2, c.c3, c.c4];
      WriteBytes(buf, at, header);
      var samples := [];
      if ptt {
        samples := TakeSamples();
        RestIsZero(was, at, header, |samples|);
        assert buf[at + 8..at + 8 + 8 * |samples|] == buf[..][at + 8..at + 8 + 8 * |samples|];
        WriteBlocks(buf, at + 8, samples);
      }
      FilledAsHostBytes(was, at, air, samples, txCwMode);
    }

    /** A host packet: the sequence number, and the next two sub-frames of rotation and stream. */
    method SendHostDataPacket(buf: array<u8>)
      requires controlIdx < SLOTS && buf.Length == 1032
      modifies buf, this`controlIdx, this`txIqBuffer, this`txIqRing, this`txSeq
      ensures controlIdx == (old(controlIdx) + 2) % SLOTS && txSeq == (old(txSeq) + 1) % 0x1_0000_0000
      ensures var t := old(Settings()); var s := old(Stream());
        var first := if ptt then Oldest63(s) else []; var rest := s[|first|..];
        var second := if ptt then Oldest63(rest) else [];
        && Stream() == rest[|second|..]
        && buf[..] == [0xEF, 0xFE, 0x01, 0x02] + Bytes32(old(txSeq))
             + HostBytes(OnAir(t, old(controlIdx)), first, txCwMode)
             + HostBytes(OnAir(t, (old(controlIdx) + 1) % SLOTS), second, txCwMode)
    {
      hide Over, HostBytes, OnAir, ZeroBytes, Oldest63, Bytes32;
      ghost var s := Stream();
      ghost var t := Settings();
      ghost var idx := controlIdx;
      FillZeros(buf, 0, 1032);
      ghost var zero := buf[..];
      AllZero(old(buf[..]), zero);
      var header := [0xEF, 0xFE, 0x01, 0x02] + Bytes32(txSeq);
      txSeq := (txSeq + 1) % 0x1_0000_0000;
      WriteBytes(buf, 0, header);
      StillZeros(zero, header, 8, 512);
      assert buf[8..520] == buf[..][8..520];
      FillHostSubframe(buf, 8);
      ghost var first := HostBytes(OnAir(t, idx), if ptt then Oldest63(s) else [], txCwMode);
      OverAppend(zero, 0, header, first);
      StillZeros(zero, header + first, 520, 512);
      assert buf[520..1032] == buf[..][520..1032];
      ghost var rest := Stream();
      FillHostSubframe(buf, 520);
      ghost var second := HostBytes(OnAir(t, (idx + 1) % SLOTS), if ptt then Oldest63(rest) else [], txCwMode);
      OverAppend(zero, 0, header + first, second);
      OverAll(zero, header + first + second);
      NextTwo(idx);
    }

    /** The packing loop; in CW mode it leaves the audio bytes as they are. */
    method WriteBlocks(buf: array<u8>, at: nat, samples: seq<Complex>)
      requires at + 8 * |samples| <= buf.Length
      requires buf[at..at + 8 * |samples|] == ZeroBytes(8 * |samples|)
      modifies buf
      ensures buf[..] == Over(old(buf[..]), at, Blocks(samples, txCwMode))
    {
      hide Over, Component16;
      ghost var was := buf[..];
      OverNothing(was, at);
      for i := 0 to |samples|
        invariant buf[..] == Over(was, at, Blocks(samples[..i], txCwMode))
      {
        OverTail(was, at, Blocks(samples[..i], txCwMode), at + 8 * i, at + 8 * i + 4);
        StillZero(was, at, |samples|, i);
        assert buf[at + 8 * i..at + 8 * i + 4] == buf[..][at + 8 * i..at + 8 * i + 4];
        WriteBlock(buf, at + 8 * i, samples[i]);
        OverAppend(was, at, Blocks(samples[..i], txCwMode), Block(samples[i], txCwMode));
        assert samples[..i + 1][..i] == samples[..i];
      }
      assert samples[..|samples|] == samples;
    }

    method WriteBlock(buf: array<u8>, at: nat, s: Complex)
      requires at + 8 <= buf.Length && buf[at..at + 4] == [0, 0, 0, 0]
      modifies buf
      ensures buf[..] == Over(old(buf[..]), at, Block(s, txCwMode))
    {
      hide Over, Component16;
      ghost var was := buf[..];
      assert was[at..at + 4] == [0, 0, 0, 0];
      if !txCwMode {
        WriteBytes(buf, at, Component16(s.re) + Component16(s.re));
      } else {
        OverSame(was, at, [0, 0, 0, 0]);
      }
      ghost var audio := if txCwMode then [0, 0, 0, 0] else Component16(s.re) + Component16(s.re);
      var iq := Component16(s.re) + Component16(-s.im);
      WriteBytes(buf, at + 4, iq);
      OverAppend(was, at, audio, iq);
      assert Block(s, txCwMode) == audio + iq;
    }
  }

  lemma {:induction false} AllZero(was: seq<u8>, now: seq<u8>)
    requires |was| == 1032 && now == Over(was, 0, ZeroBytes(1032))
    ensures now == ZeroBytes(1032)
  {}

  lemma {:induction false} StillZeros(zero: seq<u8>, bytes: seq<u8>, from: nat, n: nat)
    requires zero == ZeroBytes(1032) && |bytes| <= from && from + n <= 1032
    ensures Over(zero, 0, bytes)[from..from + n] == ZeroBytes(n)
  {
    hide Over, ZeroBytes;
    OverTail(zero, 0, bytes, from, from + n);
    assert zero[0..1032] == zero;
    ZerosWithin(zero, 0, 1032, from, n);
  }

  lemma {:induction false} NextTwo(idx: nat)
    requires idx < SLOTS
    ensures ((idx + 1) % SLOTS + 1) % SLOTS == (idx + 2) % SLOTS
  {}

  lemma {:induction false} StillZero(was: seq<u8>, at: nat, n: nat, i: nat)
    requires at + 8 * n <= |was| && was[at..at + 8 * n] == ZeroBytes(8 * n) && i < n
    ensures was[at + 8 * i..at + 8 * i + 4] == [0, 0, 0, 0]
  {
    ZerosWithin(was, at, 8 * n, at + 8 * i, 4);
  }

  lemma {:induction false} MoxFits(t: Tuning, idx: nat)
    requires idx < SLOTS
    ensures CommandAt(t, idx).c0 % 2 == 0 && CommandAt(t, idx).c0 < 0x20
  {
    hide N2adrOc, AlexRxHpf, AlexTxLpf, Bytes32, SampleRateToCode;
  }

  lemma {:induction false} FilledAsHostBytes(was: seq<u8>, at: nat, c: Command, samples: seq<Complex>, cw: bool)
    requires at + 512 <= |was| && was[at..at + 512] == ZeroBytes(512) && |samples| <= 63
    ensures var header := [0x7F, 0x7F, 0x7F, c.c0, c.c1, c.c2, c.c3, c.c4];
      var headed := Over(was, at, header);
      && Over(headed, at + 8, Blocks(samples, cw)) == Over(was, at, HostBytes(c, samples, cw))
      && (samples == [] ==> headed == Over(was, at, HostBytes(c, samples, cw)))
  {
    hide Over, Blocks;
    var header, blocks := [0x7F, 0x7F, 0x7F, c.c0, c.c1, c.c2, c.c3, c.c4], Blocks(samples, cw);
    var zeros := ZeroBytes(504 - |blocks|);
    OverAppend(was, at, header, blocks);
    OverAppend(was, at, header + blocks, zeros);
    var written := Over(was, at, header + blocks);
    var from := at + 8 + |blocks|;
    OverTail(was, at, header + blocks, from, at + 512);
    ZerosWithin(was, at, 512, from, 504 - |blocks|);
    OverSame(written, from, zeros);
    if samples == [] { NoBlocks(cw); assert header + [] == header; }
  }

  lemma {:induction false} NoBlocks(cw: bool)
    ensures Blocks([], cw) == []
  {}

  lemma {:induction false} RestIsZero(was: seq<u8>, at: nat, header: seq<u8>, n: nat)
    requires at + 512 <= |was| && was[at..at + 512] == ZeroBytes(512) && |header| == 8 && n <= 63
    ensures Over(was, at, header)[at + 8..at + 8 + 8 * n] == ZeroBytes(8 * n)
  {
    hide Over;
    OverTail(was, at, header, at + 8, at + 8 + 8 * n);
    ZerosWithin(was, at, 512, at + 8, 8 * n);
  }

  // ---- the band plan --------------------------------------------------------------------------------------

  /**
   On a Hermes Lite the filter board follows the band that is in use, the transmit one with PTT on and the first
   receiver's otherwise; every amateur band from 160 m to 6 m has one setting. The slot always asks for duplex.
   */
  lemma {:induction false} FilterBoardFollows(t: Tuning)
    ensures var freq := if t.ptt then t.txFrequency else t.rxFrequencies[0]; var c := OnAir(t, 0);
      && c.c4 % 8 == 4 && c.c3 == 0
      && (t.hw == Hermes ==> c.c2 == 0)
      && (t.hw == HermesLite ==>
           && (1_800_000 <= freq <= 2_000_000 ==> c.c2 == 2 * 1)
           && (3_500_000 <= freq <= 4_000_000 ==> c.c2 == 2 * 66)
           && (5_250_000 <= freq <= 7_300_000 ==> c.c2 == 2 * 68)
           && (10_100_000 <= freq <= 14_350_000 ==> c.c2 == 2 * 72)
           && (18_068_000 <= freq <= 21_450_000 ==> c.c2 == 2 * 80)
           && (24_890_000 <= freq <= 29_700_000 ==> c.c2 == 2 * 96)
           && (50_000_000 <= freq <= 54_000_000 ==> c.c2 == 2 * 64))
  {
    hide AlexRxHpf, AlexTxLpf, Bytes32, SampleRateToCode;
  }

  /** On a Hermes the low-pass filter follows the transmit band and the high-pass filter the first receiver's. */
  lemma {:induction false} AlexFollows(t: Tuning)
    requires t.hw == Hermes
    ensures var c, tx, rx := OnAir(t, 9), t.txFrequency, t.rxFrequencies[0];
      && (1_800_000 <= tx <= 2_000_000 ==> c.c4 == 0x08) && (1_800_000 <= rx <= 2_000_000 ==> c.c3 == 0x10)
      && (3_500_000 <= tx <= 4_000_000 ==> c.c4 == 0x04) && (3_500_000 <= rx <= 4_000_000 ==> c.c3 == 0x10)
      && (7_000_000 <= tx <= 7_300_000 ==> c.c4 == 0x02) && (7_000_000 <= rx <= 7_300_000 ==> c.c3 == 0x08)
      && (10_100_000 <= tx <= 10_150_000 ==> c.c4 == 0x01) && (10_100_000 <= rx <= 10_150_000 ==> c.c3 == 0x04)
      && (14_000_000 <= tx <= 14_350_000 ==> c.c4 == 0x01) && (14_000_000 <= rx <= 14_350_000 ==> c.c3 == 0x01)
      && (18_068_000 <= tx <= 18_168_000 ==> c.c4 == 0x40) && (18_068_000 <= rx <= 18_168_000 ==> c.c3 == 0x01)
      && (21_000_000 <= tx <= 21_450_000 ==> c.c4 == 0x40) && (21_000_000 <= rx <= 21_450_000 ==> c.c3 == 0x02)
      && (24_890_000 <= tx <= 29_700_000 ==> c.c4 == 0x20) && (24_890_000 <= rx <= 29_700_000 ==> c.c3 == 0x02)
      && (50_000_000 <= tx <= 54_000_000 ==> c.c4 == 0x10) && (50_000_000 <= rx <= 54_000_000 ==> c.c3 == 0x42)
  {
    hide N2adrOc, Bytes32, SampleRateToCode;
  }

  /** The attenuator reaches the radio whole on a Hermes Lite in both of its slots, and as 0 or 20 dB on a Hermes. */
  lemma {:induction false} Attenuator(t: Tuning)
    requires t.rxAttenuation < 32
    ensures var a, b := OnAir(t, 10), OnAir(t, 12);
      && a.c0 / 2 * 2 == 0x14 && b.c0 / 2 * 2 == 0x1C
      && (t.hw == HermesLite ==> a.c4 == t.rxAttenuation && b.c3 == 0xC0 + t.rxAttenuation)
      && (t.hw == Hermes ==> a.c4 == (if t.rxAttenuation >= 20 then 0x20 else 0) && b.c3 == 0)
  {
    hide N2adrOc, AlexRxHpf, AlexTxLpf, Bytes32, SampleRateToCode;
  }

  // ---- the audio bytes ----------------------------------------------------------------------------------------

  /** The first half of a block is audio: the in-phase sample on both channels, or silence in CW mode. */
  lemma {:induction false} BlockAudio(s: Complex, cw: bool)
    ensures var b := Block(s, cw); var v := if cw then 0 else Quantise(s.re, MAX16);
      Signed16(Word16(b[0], b[1])) == v == Signed16(Word16(b[2], b[3]))
  {
    hide Quantise, Low16, Bytes16, Signed16, Word16;
    QuantiseRange(s.re, MAX16);
    Exact16(Quantise(s.re, MAX16));
    SilentWord();
    var c, b := Component16(s.re), Block(s, cw);
    if !cw { assert b[0] == c[0] && b[1] == c[1] && b[2] == c[0] && b[3] == c[1]; }
  }

  lemma {:induction false} SilentWord()
    ensures Signed16(Word16(0, 0)) == 0
  {}
}
