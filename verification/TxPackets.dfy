/** The stand-alone builder of host-to-radio packets. */
module TxPackets {
  import opened Base
  import opened Samples
  import opened ByteBuffers
  import opened IqCodec
  import opened HostRadio

  /** The samples of sub-frame `f` of a packet. */
  function Share(samples: seq<Complex>, f: nat): (r: seq<Complex>)
    ensures |r| <= 63
  {
    samples[Min(63 * f, |samples|)..Min(63 * f + 63, |samples|)]
  }

  /** What block `i` of a sub-frame holds: its sample, or zeros when there are no more. */
  function BlockOrZeros(samples: seq<Complex>, i: nat): (r: seq<u8>)
    ensures |r| == 8
  {
    if i < |samples| then Block(samples[i], true) else ZeroBytes(8)
  }

  function FirstBlocks(samples: seq<Complex>, n: nat): (r: seq<u8>)
    ensures |r| == 8 * n
  {
    if n == 0 then [] else FirstBlocks(samples, n - 1) + BlockOrZeros(samples, n - 1)
  }

  lemma {:induction false} FirstBlocksPadded(samples: seq<Complex>, n: nat)
    ensures FirstBlocks(samples, n) ==
      if n <= |samples| then Blocks(samples[..n], true) else Blocks(samples, true) + ZeroBytes(8 * (n - |samples|))
  {
    hide Block;
    if n > 0 {
      FirstBlocksPadded(samples, n - 1);
      if n <= |samples| {
        assert samples[..n][..n - 1] == samples[..n - 1];
      } else {
        assert n - 1 == |samples| ==> samples[..n - 1] == samples;
        assert Blocks(samples, true) + ZeroBytes(0) == Blocks(samples, true);
        assert ZeroBytes(8 * (n - 1 - |samples|)) + ZeroBytes(8) == ZeroBytes(8 * (n - |samples|));
      }
    }
  }

  /** The bytes of one block: silent audio, then I and the negated Q of sample `idx` if there is one. */
  method PackBlock(samples: seq<Complex>, idx: nat) returns (block: seq<u8>)
    ensures block == BlockOrZeros(samples, idx)
  {
    hide Component16;
    block := ZeroBytes(8);
    if idx < |samples| {
      var iq := Component16(samples[idx].re) + Component16(-samples[idx].im);
      block := [0, 0, 0, 0] + iq;
    }
  }

  lemma {:induction false} ShareAt(samples: seq<Complex>, f: nat, i: nat)
    requires i < 63
    ensures BlockOrZeros(Share(samples, f), i) == BlockOrZeros(samples, 63 * f + i)
  {
    hide Block;
  }

  /** The sample loop of one sub-frame. */
  method WriteShare(packet: array<u8>, at: nat, samples: seq<Complex>, f: nat)
    requires at + 504 <= packet.Length
    modifies packet
    ensures packet[..] == Over(old(packet[..]), at, FirstBlocks(Share(samples, f), 63))
  {
    hide Over, BlockOrZeros, Share;
    ghost var was := packet[..];
    OverNothing(was, at);
    ghost var share := Share(samples, f);
    for i := 0 to 63
      invariant packet[..] == Over(was, at, FirstBlocks(share, i))
    {
      var block := PackBlock(samples, 63 * f + i);
      ShareAt(samples, f, i);
      WriteBytes(packet, at + 8 * i, block);
      OverAppend(was, at, FirstBlocks(share, i), block);
    }
  }

  /** One sub-frame of the packet loop. */
  method WriteSubframe(packet: array<u8>, base: nat, samples: seq<Complex>, f: nat, c: Command)
    requires base + 512 <= packet.Length
    modifies packet
    ensures packet[..] == Over(old(packet[..]), base, HostBytes(c, Share(samples, f), true))
  {
    hide Over, FirstBlocks, ZeroBytes, Share, Blocks;
    ghost var was := packet[..];
    var header := [0x7F, 0x7F, 0x7F, c.c0, c.c1, c.c2, c.c3, c.c4];
    WriteBytes(packet, base, header);
    WriteShare(packet, base + 8, samples, f);
    ghost var share := Share(samples, f);
    FirstBlocksPadded(share, 63);
    NoZeros(share);
    OverAppend(was, base, header, FirstBlocks(share, 63));
    assert header + FirstBlocks(share, 63) == HostBytes(c, share, true);
  }

  lemma {:induction false} NoZeros(samples: seq<Complex>)
    requires |samples| <= 63
    ensures |samples| == 63 ==>
      samples[..63] == samples && Blocks(samples, true) + ZeroBytes(504 - 8 * |samples|) == Blocks(samples, true)
  {}

  /**
   A packet of two sub-frames that are byte for byte those of the streaming client in CW mode, so the
   emulator obeys its commands and hears its samples in the same way.
   */
  method BuildTxPacket(sequence: u32, txIq: seq<Complex>, c: Command, d: Command) returns (packet: seq<u8>)
    ensures packet == [0xEF, 0xFE, 0x01, 0x02] + Bytes32(sequence)
      + HostBytes(c, Share(txIq, 0), true) + HostBytes(d, Share(txIq, 1), true)
  {
    hide Over, HostBytes, Share, Bytes32;
    var buf := new u8[1032](i => 0);
    ghost var was := buf[..];
    var header := [0xEF, 0xFE, 0x01, 0x02] + Bytes32(sequence);
    WriteBytes(buf, 0, header);
    WriteSubframe(buf, 8, txIq, 0, c);
    WriteSubframe(buf, 520, txIq, 1, d);
    packet := buf[..];
    ghost var first, second := HostBytes(c, Share(txIq, 0), true), HostBytes(d, Share(txIq, 1), true);
    OverAppend(was, 0, header, first);
    OverAppend(was, 0, header + first, second);
    OverAll(was, header + first + second);
  }

  /** A packet carries the first 126 samples it is given, in order, 63 in each half. */
  lemma {:induction false} SharesInOrder(samples: seq<Complex>)
    ensures Share(samples, 0) + Share(samples, 1) == samples[..Min(126, |samples|)]
    ensures |Share(samples, 0)| == Min(63, |samples|)
  {}
}
