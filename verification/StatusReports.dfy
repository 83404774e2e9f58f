/** Radio status: the emulator's rotating responses and the client's accumulation of them. */
module StatusReports {
  import opened Base
  import opened Samples
  import opened ByteBuffers
  import opened IqCodec
  import opened RxFrames
  import Emulator

  // ---- the emulator's responses -------------------------------------------------------------------

  /** The largest whole number up to `top` whose square is at most `x`; zero for a negative `x`. */
  function Root(x: real, top: nat): (r: nat)
    ensures r <= top
  {
    if top == 0 || (top * top) as real <= x then top else Root(x, top - 1)
  }

  /** `Root` is the square root rounded down, as far as it does not exceed `top`. */
  lemma {:induction false} RootExact(x: real, top: nat)
    requires x >= 0.0
    ensures var r := Root(x, top); (r * r) as real <= x && (r < top ==> x < ((r + 1) * (r + 1)) as real)
  {
    if top > 0 && (top * top) as real > x { RootExact(x, top - 1); }
  }

  const FULL_FORWARD: nat := 3800
  const FULL_EXCITER: nat := 800

  /** What a response is made of: the client's state, its transmit envelope and the firmware versions. */
  datatype Radio = Radio(client: Emulator.Client, envelope: real, firmware: u8, penny: u8) {
    predicate Powered() { client.ptt && client.txDrive > 0 }

    /** The fraction of full power: drive times envelope, both between 0 and 1. */
    function PowerFraction(): (p: real)
      ensures 0.0 <= p <= 1.0
    {
      var e := if envelope < 0.0 then 0.0 else if envelope > 1.0 then 1.0 else envelope;
      var d := client.txDrive as real / 255.0;
      FractionOf(d, e);
      d * e
    }

    /** The readings grow with the square root of the power. */
    function Forward(): u16 {
      if Powered() then Root(PowerFraction() * (FULL_FORWARD * FULL_FORWARD) as real, FULL_FORWARD) else 0
    }

    function Exciter(): u16 {
      if Powered() then Root(PowerFraction() * (FULL_EXCITER * FULL_EXCITER) as real, FULL_EXCITER) else 0
    }

    /** A fixed mismatch of 13 in 100, and at least one count while there is power. */
    function Reverse(): u16 { if Powered() then Max(Forward() * 13 / 100, 1) else 0 }

    function PaAmps(): u16 { if client.ptt then client.txDrive * 5 else 0 }
  }

  lemma {:induction false} FractionOf(d: real, e: real)
    requires 0.0 <= d <= 1.0 && 0.0 <= e <= 1.0
    ensures 0.0 <= d * e <= 1.0
  {
    TimesPositive(d, e);
  }

  /**
   The power readings under PTT: forward and exciter are the power's square root on their full scales,
   rounded down, and the reflected reading never exceeds 13 % of the forward one but for its minimum.
   */
  lemma {:induction false} PowerReadings(r: Radio)
    requires r.Powered()
    ensures var p := r.PowerFraction(); var f := r.Forward(); var e := r.Exciter();
      && (f * f) as real <= p * 14_440_000.0 && (f < 3800 ==> p * 14_440_000.0 < ((f + 1) * (f + 1)) as real)
      && (e * e) as real <= p * 640_000.0 && (e < 800 ==> p * 640_000.0 < ((e + 1) * (e + 1)) as real)
      && 1 <= r.Reverse() && (r.Reverse() == 1 || 100 * r.Reverse() <= 13 * f)
      && 13 * f < 100 * (r.Reverse() + 1) && r.PaAmps() == 5 * r.client.txDrive
  {
    hide Radio.PowerFraction, Root;
    var p := r.PowerFraction();
    ScaledFraction(p);
    RootExact(p * 14_440_000.0, 3800);
    RootExact(p * 640_000.0, 800);
  }

  lemma {:induction false} ScaledFraction(p: real)
    requires p >= 0.0
    ensures p * 14_440_000.0 >= 0.0 && p * 640_000.0 >= 0.0
  {}

  const SUPPLY: u16 := 3200

  function PairHeader(c0: u8, a: u16, b: u16): Header {
    var x, y := Bytes16(a), Bytes16(b);
    Header(c0, x[0], x[1], y[0], y[1])
  }

  /** The response at one index of the rotation over the addresses 0x00, 0x08, 0x10 and 0x18. */
  function Response(r: Radio, idx: nat): Header {
    var c0 := 8 * (idx % 4) + (if r.client.ptt then 1 else 0);
    if idx % 4 == 0 then Header(c0, 0, r.firmware, r.penny, 0)
    else if idx % 4 == 1 then PairHeader(c0, r.Exciter(), r.Forward())
    else if idx % 4 == 2 then PairHeader(c0, r.Reverse(), SUPPLY)
    else PairHeader(c0, r.PaAmps(), SUPPLY)
  }

  /** The sending side of an emulated client. */
  class Responder {
    var controlIdx: nat
    var dataSeq: u32

    constructor ()
      ensures controlIdx == 0 && dataSeq == 0
    {
      controlIdx, dataSeq := 0, 0;
    }

    method FillSubframeSync(buf: array<u8>, at: nat, r: Radio, samples: seq<seq<Complex>>)
      requires controlIdx < 4 && at + 512 <= buf.Length
      requires Covers(samples, Max(r.client.nddc, 1), Spr(Max(r.client.nddc, 1)))
      modifies buf, this`controlIdx
      ensures controlIdx == (old(controlIdx) + 1) % 4
      ensures buf[..] == Over(old(buf[..]), at,
        SubframeBytes(Response(r, old(controlIdx)).Bytes(), samples, Max(r.client.nddc, 1)))
    {
      var header := Response(r, controlIdx);
      controlIdx := (controlIdx + 1) % 4;
      FillSubframe(buf, at, header.Bytes(), samples, Max(r.client.nddc, 1));
    }

    /** A data packet: header and two sub-frames fill the whole buffer; the sequence number wraps. */
    method BuildDataPacketSync(buf: array<u8>, r: Radio, s0: seq<seq<Complex>>, s1: seq<seq<Complex>>)
      requires controlIdx < 4 && buf.Length == 1032
      requires Covers(s0, Max(r.client.nddc, 1), Spr(Max(r.client.nddc, 1)))
      requires Covers(s1, Max(r.client.nddc, 1), Spr(Max(r.client.nddc, 1)))
      modifies buf, this
      ensures controlIdx == (old(controlIdx) + 2) % 4 && dataSeq == (old(dataSeq) + 1) % 0x1_0000_0000
      ensures var n := Max(r.client.nddc, 1);
        buf[..] == [0xEF, 0xFE, 0x01, 0x06] + Bytes32(old(dataSeq))
          + SubframeBytes(Response(r, old(controlIdx)).Bytes(), s0, n)
          + SubframeBytes(Response(r, (old(controlIdx) + 1) % 4).Bytes(), s1, n)
    {
      hide Spr, SubframeBytes, Over, Response, Bytes32;
      ghost var was := buf[..];
      var n := Max(r.client.nddc, 1);
      var header := [0xEF, 0xFE, 0x01, 0x06] + Bytes32(dataSeq);
      dataSeq := (dataSeq + 1) % 0x1_0000_0000;
      WriteBytes(buf, 0, header);
      FillSubframeSync(buf, 8, r, s0);
      FillSubframeSync(buf, 520, r, s1);
      ghost var first := SubframeBytes(Response(r, old(controlIdx)).Bytes(), s0, n);
      ghost var second := SubframeBytes(Response(r, (old(controlIdx) + 1) % 4).Bytes(), s1, n);
      OverAppend(was, 0, header, first);
      OverAppend(was, 0, header + first, second);
      OverAll(was, header + first + second);
    }
  }

  // ---- the client's accumulation --------------------------------------------------------------------

  datatype RadioStatus = RadioStatus(
    ptt: bool,
    adcOverflow: u8,
    forwardPower: u16,
    reversePower: u16,
    exciterPower: u16,
    supplyVoltage: u16,
    paCurrent: u16
  )

  const NO_STATUS := RadioStatus(false, 0, 0, 0, 0, 0, 0)

  /** The accumulated status, the last response address, and everything emitted so far. */
  datatype Tracker = Tracker(status: RadioStatus, lastAddress: Option<u8>, sent: seq<RadioStatus>) {
    function Update(h: Header): RadioStatus {
      if h.Address() == 0x00 then status.(adcOverflow := h.c1)
      else if h.Address() == 0x08 then
        status.(exciterPower := Word16(h.c1, h.c2), forwardPower := Word16(h.c3, h.c4))
      else if h.Address() == 0x10 then
        status.(reversePower := Word16(h.c1, h.c2), supplyVoltage := Word16(h.c3, h.c4))
      else if h.Address() == 0x18 then status.(paCurrent := Word16(h.c1, h.c2))
      else status
    }

    /** PTT first, then the emission on a wrap, then the fields of this sub-frame. */
    function Hear(h: Header): Tracker {
      var t := this.(status := status.(ptt := h.Ptt()));
      var wrapped := lastAddress.Some? && h.Address() <= lastAddress.value;
      Tracker(t.Update(h), Some(h.Address()), if wrapped then sent + [t.status] else sent)
    }
  }

  const SILENT_TRACKER := Tracker(NO_STATUS, None, [])

  /** The receiving side of the streaming client. */
  class Receiver {
    var nddc: u8
    var accumulatedStatus: RadioStatus
    var lastStatusAddr: Option<u8>
    var statusSent: seq<RadioStatus>
    var ddcSampleBufs: seq<seq<Complex>>

    constructor (n: u8)
      ensures Status() == SILENT_TRACKER && nddc == n
    {
      nddc, accumulatedStatus, lastStatusAddr, statusSent, ddcSampleBufs := n, NO_STATUS, None, [], [];
    }

    function Status(): Tracker
      reads this
    {
      Tracker(accumulatedStatus, lastStatusAddr, statusSent)
    }

    method HearStatus(h: Header)
      modifies this`accumulatedStatus, this`lastStatusAddr, this`statusSent
      ensures Status() == old(Status()).Hear(h)
    {
      hide Word16;
      accumulatedStatus := accumulatedStatus.(ptt := h.Ptt());
      var address := h.Address();
      if lastStatusAddr.Some? && address <= lastStatusAddr.value {
        statusSent := statusSent + [accumulatedStatus];
      }
      lastStatusAddr := Some(address);
      if address == 0x00 {
        accumulatedStatus := accumulatedStatus.(adcOverflow := h.c1);
      } else if address == 0x08 {
        accumulatedStatus := accumulatedStatus.(exciterPower := Word16(h.c1, h.c2),
                                                forwardPower := Word16(h.c3, h.c4));
      } else if address == 0x10 {
        accumulatedStatus := accumulatedStatus.(reversePower := Word16(h.c1, h.c2),
                                                supplyVoltage := Word16(h.c3, h.c4));
      } else if address == 0x18 {
        accumulatedStatus := accumulatedStatus.(paCurrent := Word16(h.c1, h.c2));
      }
    }

    /** A sub-frame: nothing without sync, else its status and the samples of every channel. */
    method ParseSubframe(sf: seq<u8>)
      modifies this
      ensures nddc == old(nddc)
      ensures |sf| < SUBFRAME_SIZE || !SyncAt(sf, 0) ==>
        Status() == old(Status()) && ddcSampleBufs == old(ddcSampleBufs)
      ensures |sf| >= SUBFRAME_SIZE && SyncAt(sf, 0) ==>
        var n := Max(nddc, 1);
        && Status() == old(Status()).Hear(HeaderAt(sf))
        && |ddcSampleBufs| == n && forall d :: 0 <= d < n ==> ddcSampleBufs[d] == Extract(sf, 0, n, d, Spr(n))
    {
      hide Tracker.Hear, Extract, Spr;
      if |sf| < SUBFRAME_SIZE || !SyncAt(sf, 0) {
        return;
      }
      HearStatus(HeaderAt(sf));
      var n: nat := Max(nddc, 1);
      ddcSampleBufs := ParseRadioSubframe(sf[..SUBFRAME_SIZE], n);
      forall d | 0 <= d < n
        ensures ddcSampleBufs[d] == Extract(sf, 0, n, d, Spr(n))
      {
        ExtractSlice(sf, 0, n, d, Spr(n));
      }
    }
  }

  // ---- coherence ------------------------------------------------------------------------------------

  function HearAll(t: Tracker, hs: seq<Header>): Tracker {
    if hs == [] then t else HearAll(t, hs[..|hs| - 1]).Hear(hs[|hs| - 1])
  }

  /** Responses in the order of the rotation, beginning with its slot `start`. */
  predicate Rotating(hs: seq<Header>, start: nat) {
    forall k :: 0 <= k < |hs| ==> hs[k].Address() == 8 * ((start + k) % 4)
  }

  /** The response `back` places before `k`; an empty one before the first. */
  function Before(hs: seq<Header>, k: nat, back: nat): Header
    requires k <= |hs| && back > 0
  {
    if back <= k then hs[k - back] else Header(0, 0, 0, 0, 0)
  }

  /** The fields of the rotation that ends right before `k`, with the PTT of `k` itself. */
  function RotationEndingAt(hs: seq<Header>, k: nat): RadioStatus
    requires k < |hs|
  {
    var a, b, c, d := Before(hs, k, 4), Before(hs, k, 3), Before(hs, k, 2), Before(hs, k, 1);
    RadioStatus(hs[k].Ptt(), a.c1, Word16(b.c3, b.c4), Word16(c.c1, c.c2), Word16(b.c1, b.c2),
                Word16(c.c3, c.c4), Word16(d.c1, d.c2))
  }

  /** How long ago slot `s` was heard last, after `n` responses. */
  function Age(n: nat, start: nat, s: nat): (a: nat)
    requires s < 4
    ensures 1 <= a <= 4
  {
    (start + n + 3 - s) % 4 + 1
  }

  /** Each field comes from the latest response of its slot. */
  predicate Gathered(t: Tracker, hs: seq<Header>, start: nat) {
    var n := |hs|;
    var a, b, c, d := Before(hs, n, Age(n, start, 0)), Before(hs, n, Age(n, start, 1)),
                      Before(hs, n, Age(n, start, 2)), Before(hs, n, Age(n, start, 3));
    && t.status.adcOverflow == a.c1
    && t.status.exciterPower == Word16(b.c1, b.c2) && t.status.forwardPower == Word16(b.c3, b.c4)
    && t.status.reversePower == Word16(c.c1, c.c2) && t.status.supplyVoltage == Word16(c.c3, c.c4)
    && t.status.paCurrent == Word16(d.c1, d.c2)
    && t.lastAddress == if n == 0 then None else Some(8 * ((start + n - 1) % 4))
  }

  lemma {:induction false} SlotStep(x: nat)
    ensures (x + 1) % 4 == if x % 4 == 3 then 0 else x % 4 + 1
  {
    var q, r := x / 4, x % 4;
    if r == 3 { RemainderUnique(x + 1, q + 1, 0, 4); } else { RemainderUnique(x + 1, q, r + 1, 4); }
  }

  lemma {:induction false} SlotShift(y: nat, s: nat)
    requires s < 4
    ensures (y + 3 - s) % 4 == 3 <==> y % 4 == s
  {
    var q, r := y / 4, y % 4;
    if r <= s { RemainderUnique(y + 3 - s, q, r + 3 - s, 4); } else { RemainderUnique(y + 3 - s, q + 1, r - s - 1, 4); }
  }

  lemma {:induction false} AgeSnoc(n: nat, start: nat, s: nat)
    requires s < 4
    ensures Age(n + 1, start, s) == if (start + n) % 4 == s then 1 else Age(n, start, s) + 1
  {
    SlotStep(start + n + 3 - s);
    SlotShift(start + n, s);
  }

  lemma {:induction false} BeforeSnoc(hs: seq<Header>, h: Header, back: nat)
    requires back > 0
    ensures Before(hs + [h], |hs| + 1, back + 1) == Before(hs, |hs|, back)
    ensures Before(hs + [h], |hs| + 1, 1) == h
  {}

  lemma {:induction false} GatheredStep(t: Tracker, hs: seq<Header>, start: nat, h: Header)
    requires Gathered(t, hs, start) && h.Address() == 8 * ((start + |hs|) % 4)
    ensures Gathered(t.Hear(h), hs + [h], start)
  {
    hide Word16, Before, Age, Header.Address;
    var n := |hs|;
    AgeSnoc(n, start, 0);
    AgeSnoc(n, start, 1);
    AgeSnoc(n, start, 2);
    AgeSnoc(n, start, 3);
    BeforeSnoc(hs, h, Age(n, start, 0));
    BeforeSnoc(hs, h, Age(n, start, 1));
    BeforeSnoc(hs, h, Age(n, start, 2));
    BeforeSnoc(hs, h, Age(n, start, 3));
  }

  /** The first response on which a status is emitted. */
  function First(start: nat): (k: nat)
    ensures 1 <= k <= 4
  {
    4 - start % 4
  }

  /** A status is emitted on the first response and on every fourth from there, and on no other. */
  predicate Emissions(sent: seq<RadioStatus>, hs: seq<Header>, start: nat) {
    && (sent == [] ==> |hs| <= First(start))
    && (sent != [] ==> First(start) + 4 * (|sent| - 1) < |hs| <= First(start) + 4 * |sent|)
    && forall j :: 0 <= j < |sent| ==>
         First(start) + 4 * j < |hs| && sent[j] == RotationEndingAt(hs, First(start) + 4 * j)
  }

  lemma {:induction false} RotationOfPrefix(hs: seq<Header>, h: Header, k: nat)
    requires k < |hs|
    ensures RotationEndingAt(hs + [h], k) == RotationEndingAt(hs, k)
  {
    hide Word16;
  }

  /** On a wrap, the accumulated fields are those of the rotation just completed. */
  lemma {:induction false} WrapEmits(t: Tracker, hs: seq<Header>, start: nat, h: Header)
    requires Gathered(t, hs, start) && (start + |hs|) % 4 == 0
    ensures t.status.(ptt := h.Ptt()) == RotationEndingAt(hs + [h], |hs|)
  {
    hide Word16;
    var n := |hs|;
    AgesOnWrap(start, n);
    assert (hs + [h])[..n] == hs;
  }

  lemma {:induction false} AgesOnWrap(start: nat, n: nat)
    requires (start + n) % 4 == 0
    ensures Age(n, start, 0) == 4 && Age(n, start, 1) == 3 && Age(n, start, 2) == 2 && Age(n, start, 3) == 1
  {
    var q := (start + n) / 4;
    RemainderUnique(start + n + 3, q, 3, 4);
    RemainderUnique(start + n + 2, q, 2, 4);
    RemainderUnique(start + n + 1, q, 1, 4);
  }

  lemma {:induction false} EmissionStep(t: Tracker, hs: seq<Header>, start: nat, h: Header)
    requires Gathered(t, hs, start) && h.Address() == 8 * ((start + |hs|) % 4) && Emissions(t.sent, hs, start)
    ensures Emissions(t.Hear(h).sent, hs + [h], start)
  {
    hide Word16, Before, Age, Header.Address, RotationEndingAt, Tracker.Update;
    var n := |hs|;
    forall j | 0 <= j < |t.sent|
      ensures RotationEndingAt(hs + [h], First(start) + 4 * j) == t.sent[j]
    {
      RotationOfPrefix(hs, h, First(start) + 4 * j);
    }
    if n > 0 {
      WrapOnZero(start, n);
      EmissionSlot(start, n, |t.sent|);
    }
    if n > 0 && (start + n) % 4 == 0 { WrapEmits(t, hs, start, h); }
  }

  lemma {:induction false} WrapOnZero(start: nat, n: nat)
    requires n > 0
    ensures (start + n) % 4 <= (start + n - 1) % 4 <==> (start + n) % 4 == 0
  {
    SlotStep(start + n - 1);
  }

  /** The slot `d` places after the `m`-th emission. */
  lemma {:induction false} SlotOf(start: nat, m: nat, d: nat)
    requires d < 4
    ensures (start + First(start) + 4 * m + d) % 4 == d
  {
    var a := start / 4;
    assert start + First(start) == 4 * (a + 1);
    RemainderUnique(start + First(start) + 4 * m + d, a + 1 + m, d, 4);
  }

  /** After `l` emissions, the next one comes exactly on its turn. */
  lemma {:induction false} EmissionSlot(start: nat, n: nat, l: nat)
    requires n > 0 && n <= First(start) + 4 * l && (l > 0 ==> First(start) + 4 * (l - 1) < n)
    ensures (start + n) % 4 == 0 <==> n == First(start) + 4 * l
  {
    if n == First(start) + 4 * l {
      SlotOf(start, l, 0);
    } else if l > 0 {
      SlotOf(start, l - 1, n - First(start) - 4 * (l - 1));
    } else {
      RemainderUnique(start + n, start / 4, start % 4 + n, 4);
    }
  }

  /**
   Coherence: with in-order, lossless responses from any slot of the rotation on, statuses are emitted
   once per rotation, and each carries the fields of exactly the four responses before it, with the PTT
   of the response that triggered it. From the second on, those four are a full rotation.
   */
  lemma {:induction false} StatusCoherent(hs: seq<Header>, start: nat)
    requires Rotating(hs, start)
    ensures var t := HearAll(SILENT_TRACKER, hs); Gathered(t, hs, start) && Emissions(t.sent, hs, start)
  {
    hide Gathered, Emissions, Tracker.Hear;
    if hs == [] {
      NothingHeard(start);
    } else {
      var n := |hs| - 1;
      StatusCoherent(hs[..n], start);
      assert hs == hs[..n] + [hs[n]];
      var t := HearAll(SILENT_TRACKER, hs[..n]);
      GatheredStep(t, hs[..n], start, hs[n]);
      EmissionStep(t, hs[..n], start, hs[n]);
    }
  }

  lemma {:induction false} NothingHeard(start: nat)
    ensures Gathered(SILENT_TRACKER, [], start) && Emissions([], [], start)
  {}

  // ---- emulator and client together -------------------------------------------------------------------

  /** The responses of the emulator as its state goes through `rs`, beginning with slot `start`. */
  function Responses(rs: seq<Radio>, start: nat): (hs: seq<Header>)
    ensures |hs| == |rs|
  {
    seq(|rs|, k requires 0 <= k < |rs| => Response(rs[k], start + k))
  }

  lemma {:induction false} ResponseAddress(r: Radio, idx: nat)
    ensures Response(r, idx).Address() == 8 * (idx % 4) && Response(r, idx).Ptt() == r.client.ptt
  {
    hide Bytes16;
  }

  /** The response of the first slot: no overflow, then the two firmware versions. */
  lemma {:induction false} VersionResponse(r: Radio, idx: nat)
    requires idx % 4 == 0
    ensures var h := Response(r, idx);
      h.Address() == 0 && h.c1 == 0 && h.c2 == r.firmware && h.c3 == r.penny && h.c4 == 0
  {}

  lemma {:induction false} PairRead(c0: u8, a: u16, b: u16)
    ensures var h := PairHeader(c0, a, b); Word16(h.c1, h.c2) == a && Word16(h.c3, h.c4) == b
  {
    Word16OfBytes(a);
    Word16OfBytes(b);
  }

  /**
   What the client reports of the emulator: in every status after the first, the powers, the supply and
   the PA current are the emulator's readings in the four sub-frames of one rotation.
   */
  lemma {:induction false} EmulatorStatus(rs: seq<Radio>, start: nat, j: nat)
    requires var sent := HearAll(SILENT_TRACKER, Responses(rs, start)).sent; 1 <= j < |sent|
    ensures var sent := HearAll(SILENT_TRACKER, Responses(rs, start)).sent;
      var k := First(start) + 4 * j;
      && 4 < k < |rs|
      && sent[j] == RadioStatus(rs[k].client.ptt, 0,
           rs[k - 3].Forward(), rs[k - 2].Reverse(), rs[k - 3].Exciter(), 3200, rs[k - 1].PaAmps())
  {
    hide HearAll, Responses, Gathered, Rotating, Emissions, Radio.Exciter, Radio.Forward, Radio.Reverse,
         Radio.PaAmps, RotationEndingAt;
    var hs := Responses(rs, start);
    ResponsesRotate(rs, start);
    StatusCoherent(hs, start);
    EmissionAt(HearAll(SILENT_TRACKER, hs).sent, hs, start, j);
    RotationRead(rs, start, First(start) + 4 * j);
  }

  lemma {:induction false} EmissionAt(sent: seq<RadioStatus>, hs: seq<Header>, start: nat, j: nat)
    requires Emissions(sent, hs, start) && j < |sent|
    ensures var k := First(start) + 4 * j;
      && (start + k) % 4 == 0 && k < |hs|
      && sent[j] == RotationEndingAt(hs, k)
  {
    hide RotationEndingAt;
    SlotOf(start, j, 0);
  }

  lemma {:induction false} ResponsesRotate(rs: seq<Radio>, start: nat)
    ensures Rotating(Responses(rs, start), start)
  {
    hide Response, Header.Address;
    var hs := Responses(rs, start);
    forall k | 0 <= k < |hs|
      ensures hs[k].Address() == 8 * ((start + k) % 4)
    {
      ResponseAddress(rs[k], start + k);
    }
  }

  lemma {:induction false} RotationRead(rs: seq<Radio>, start: nat, k: nat)
    requires 4 <= k < |rs| && (start + k) % 4 == 0
    ensures RotationEndingAt(Responses(rs, start), k) == RadioStatus(rs[k].client.ptt, 0,
      rs[k - 3].Forward(), rs[k - 2].Reverse(), rs[k - 3].Exciter(), 3200, rs[k - 1].PaAmps())
  {
    hide Word16, PairHeader, Radio.Exciter, Radio.Forward, Radio.Reverse, Radio.PaAmps, Header.Ptt;
    ResponseAddress(rs[k], start + k);
    var b, c, d := rs[k - 3], rs[k - 2], rs[k - 1];
    SlotStep(start + k - 4);
    SlotStep(start + k - 3);
    SlotStep(start + k - 2);
    SlotStep(start + k - 1);
    var mox := (r: Radio) => if r.client.ptt then 1 else 0;
    PairRead(8 + mox(b), b.Exciter(), b.Forward());
    PairRead(16 + mox(c), c.Reverse(), SUPPLY);
    PairRead(24 + mox(d), d.PaAmps(), SUPPLY);
  }

  // ---- the stand-alone parser beside the streaming client ---------------------------------------------

  /** What the stand-alone parser knows of a status, in the streaming client's terms. */
  function Known(s: P1Status, supply: u16, paCurrent: u16): RadioStatus {
    RadioStatus(s.ptt, s.adcOverflow, s.forwardPower, s.reversePower, s.exciterPower, supply, paCurrent)
  }

  /**
   From the same fields, one response leaves both parsers with the same fields again, except that they take
   the supply voltage from different responses: the supplies agree afterwards exactly if the response
   carries none, or the one they had before.
   */
  lemma {:induction false} ParsersAgree(s: P1Status, t: Tracker, h: Header)
    requires t.status == Known(s, s.supplyVoltage, t.status.paCurrent)
    ensures var u, v := s.Update(h), t.Hear(h).status;
      && v == Known(u, v.supplyVoltage, v.paCurrent)
      && (v.supplyVoltage == u.supplyVoltage <==>
           match h.Address()
           case 0x10 => Word16(h.c3, h.c4) == s.supplyVoltage
           case 0x18 => Word16(h.c3, h.c4) == s.supplyVoltage
           case _ => true)
  {
    hide Word16;
  }
}
