/** The control rotation brings the emulator to the client's settings, from any state and through any losses. */
module ControlRotation {
  import opened Base
  import opened Samples
  import opened ByteBuffers
  import opened IqCodec
  import opened Emulator
  import opened HostRadio
  import EchoBuffers

  function Obey(c: Client, cmd: Command): Client { c.ProcessControl(cmd.c0, cmd.c1, cmd.c2, cmd.c3, cmd.c4) }

  predicate Slots(s: seq<nat>) { forall i :: 0 <= i < |s| ==> s[i] < SLOTS }

  /** The emulator's client after the sub-frames of the given slots have arrived, in that order. */
  function Deliver(c: Client, t: Tuning, slots: seq<nat>): Client
    requires Slots(slots)
  {
    if slots == [] then c else
      var n := |slots| - 1;
      Obey(Deliver(c, t, slots[..n]), OnAir(t, slots[n]))
  }

  // ---- what arrives, and what it leaves ------------------------------------------------------------

  /** The sample rate and the number of DDCs as the emulator decodes them. */
  function ReceivedRate(t: Tuning): u32 {
    var r := CodeToSampleRate(SampleRateToCode(t.sampleRate));
    if r.Some? then r.value else 48_000
  }

  function ReceivedNddc(t: Tuning): u8 { (Max(t.nddc, 1) - 1) % 8 + 1 }

  /** The client whose settings are those of `t` for the slots in `d`, and still those of `c` for the others. */
  function Patched(c: Client, t: Tuning, d: set<nat>): Client {
    c.(sampleRate := if 0 in d then ReceivedRate(t) else c.sampleRate,
       nddc := if 0 in d then ReceivedNddc(t) else c.nddc,
       ocOutputs := if 0 in d then OcOutputs(t) else c.ocOutputs,
       txFrequency := if 1 in d then t.txFrequency else c.txFrequency,
       rxFrequencies := PatchedFrequencies(c.rxFrequencies, t, d),
       txDrive := if 9 in d then t.txDrive else c.txDrive,
       paEnabled := if 9 in d then t.hw == HermesLite else c.paEnabled,
       ptt := if d == {} then c.ptt else t.ptt)
  }

  function PatchedFrequencies(f: Freqs, t: Tuning, d: set<nat>): Freqs {
    seq(12, i requires 0 <= i < 12 => if i < 7 && i + 2 in d then SentRxFrequency(t, i) else f[i])
  }

  /** What obeying one slot's command does. */
  lemma {:induction false} ObeyControl(c: Client, t: Tuning, idx: nat)
    requires idx < SLOTS
    ensures var n := Obey(c, OnAir(t, idx)); var m := c.(ptt := t.ptt);
      n == if idx == 0 then m.(sampleRate := ReceivedRate(t), nddc := ReceivedNddc(t), ocOutputs := OcOutputs(t))
           else if idx == 1 then m.(txFrequency := t.txFrequency)
           else if idx <= 8 then m.(rxFrequencies := c.rxFrequencies[idx - 2 := SentRxFrequency(t, idx - 2)])
           else if idx == 9 then m.(txDrive := t.txDrive, paEnabled := t.hw == HermesLite)
           else m
  {
    hide N2adrOc, AlexRxHpf, AlexTxLpf, Bytes32, Word32, SentRxFrequency;
    Word32OfBytes(t.txFrequency);
    if 2 <= idx <= 8 { Word32OfBytes(SentRxFrequency(t, idx - 2)); }
  }

  lemma {:induction false} ObeyPatched(c: Client, t: Tuning, d: set<nat>, idx: nat)
    requires idx < SLOTS
    ensures Obey(Patched(c, t, d), OnAir(t, idx)) == Patched(c, t, d + {idx})
  {
    hide Obey, OnAir, ReceivedRate, ReceivedNddc, OcOutputs, SentRxFrequency;
    var p := Patched(c, t, d);
    ObeyControl(p, t, idx);
    assert d + {idx} != {};
    var f, g := p.rxFrequencies, PatchedFrequencies(c.rxFrequencies, t, d + {idx});
    if 2 <= idx <= 8 { assert f[idx - 2 := SentRxFrequency(t, idx - 2)] == g; } else { assert f == g; }
  }

  function Arrived(slots: seq<nat>): set<nat> { set s | s in slots }

  /**
   Exactly what any sequence of deliveries leaves, with losses, duplicates and in any order: every setting
   is the client's if its slot has arrived, and what it was otherwise.
   */
  lemma {:induction false} DeliverPatches(c: Client, t: Tuning, slots: seq<nat>)
    requires Slots(slots)
    ensures Deliver(c, t, slots) == Patched(c, t, Arrived(slots))
  {
    hide Obey, OnAir, Patched;
    if slots == [] {
      NothingPatched(c, t);
      assert Arrived(slots) == {};
    } else {
      var n := |slots| - 1;
      DeliverPatches(c, t, slots[..n]);
      ObeyPatched(c, t, Arrived(slots[..n]), slots[n]);
      assert slots == slots[..n] + [slots[n]];
      assert Arrived(slots) == Arrived(slots[..n]) + {slots[n]};
    }
  }

  lemma {:induction false} NothingPatched(c: Client, t: Tuning)
    ensures Patched(c, t, {}) == c
  {
    assert PatchedFrequencies(c.rxFrequencies, t, {}) == c.rxFrequencies;
  }

  // ---- agreement -------------------------------------------------------------------------------------

  /** The emulator's settings are the client's. */
  predicate Agrees(c: Client, t: Tuning) {
    && c.sampleRate == t.sampleRate && c.nddc == t.nddc && c.ptt == t.ptt
    && c.txFrequency == t.txFrequency && c.txDrive == t.txDrive
    && c.paEnabled == (t.hw == HermesLite) && c.ocOutputs == OcOutputs(t)
    && forall i :: 0 <= i < Min(t.nddc, 7) ==> c.rxFrequencies[i] == t.rxFrequencies[i]
  }

  predicate SupportedRate(rate: u32) { rate == 48_000 || rate == 96_000 || rate == 192_000 || rate == 384_000 }

  predicate Complete(slots: seq<nat>) { forall k: nat :: k < SLOTS ==> k in slots }

  /**
   Self-stabilisation: once every slot has arrived at least once, in any order and with any losses and
   duplicates, the emulator agrees with the client from any state, if and only if the client's rate is
   supported and its number of DDCs is between 1 and 8.
   */
  lemma {:induction false} Stabilises(c: Client, t: Tuning, slots: seq<nat>)
    requires Slots(slots) && Complete(slots)
    ensures Agrees(Deliver(c, t, slots), t) <==> SupportedRate(t.sampleRate) && 1 <= t.nddc <= 8
  {
    hide Deliver, OcOutputs;
    DeliverPatches(c, t, slots);
    var d := Arrived(slots);
    assert 0 in d && 1 in d && 9 in d;
    assert 2 in d && 3 in d && 4 in d && 5 in d && 6 in d && 7 in d && 8 in d;
    RateArrives(t);
    NddcArrives(t);
    var n := Deliver(c, t, slots);
    if 1 <= t.nddc <= 8 {
      assert forall i :: 0 <= i < Min(t.nddc, 7) ==> n.rxFrequencies[i] == SentRxFrequency(t, i);
    }
  }

  lemma {:induction false} RateArrives(t: Tuning)
    ensures ReceivedRate(t) == t.sampleRate <==> SupportedRate(t.sampleRate)
  {}

  lemma {:induction false} NddcArrives(t: Tuning)
    ensures ReceivedNddc(t) == t.nddc <==> 1 <= t.nddc <= 8
  {}

  // ---- the client's own order --------------------------------------------------------------------------

  /** The slots of `n` sub-frames generated in a row, from index `from` on. */
  function Generated(from: nat, n: nat): (s: seq<nat>)
    requires from < SLOTS
    ensures |s| == n && Slots(s)
    decreases n
  {
    if n == 0 then [] else [from] + Generated(NextSlot(from), n - 1)
  }

  /** The slot the client goes on to: the next one, and the first after the last. */
  function NextSlot(from: nat): (next: nat)
    requires from < SLOTS
    ensures next < SLOTS && next == (from + 1) % SLOTS
  {
    if from == SLOTS - 1 then 0 else from + 1
  }

  /** The slot `k` sub-frames after `from`. */
  function SlotAt(from: nat, k: nat): nat { (from + k) % SLOTS }

  lemma {:induction false} GeneratedAt(from: nat, n: nat, k: nat)
    requires from < SLOTS && k < n
    ensures Generated(from, n)[k] == SlotAt(from, k)
    decreases k
  {
    hide SlotAt, NextSlot;
    if k == 0 {
      SlotStart(from);
    } else {
      GeneratedAt(NextSlot(from), n - 1, k - 1);
      SlotAfter(from, k);
    }
  }

  lemma {:induction false} SlotStart(from: nat)
    requires from < SLOTS
    ensures SlotAt(from, 0) == from
  {
    RemainderUnique(from, 0, from, SLOTS);
  }

  lemma {:induction false} SlotAfter(from: nat, k: nat)
    requires from < SLOTS && k > 0
    ensures SlotAt(NextSlot(from), k - 1) == SlotAt(from, k)
  {
    if from == SLOTS - 1 {
      var q, r := (k - 1) / SLOTS, (k - 1) % SLOTS;
      RemainderUnique(from + k, q + 1, r, SLOTS);
    }
  }

  lemma {:induction false} GeneratedComplete(from: nat, n: nat)
    requires from < SLOTS && n >= SLOTS
    ensures Complete(Generated(from, n))
  {
    hide Generated, SlotAt;
    forall k: nat | k < SLOTS
      ensures k in Generated(from, n)
    {
      var i := if k >= from then k - from else k + SLOTS - from;
      GeneratedAt(from, n, i);
      SlotHit(from, i, k);
      assert Generated(from, n)[i] == k;
    }
  }

  lemma {:induction false} SlotHit(from: nat, i: nat, k: nat)
    requires k < SLOTS && (from + i == k || from + i == k + SLOTS)
    ensures SlotAt(from, i) == k
  {
    RemainderUnique(from + i, if from + i == k then 0 else 1, k, SLOTS);
  }

  /** Seven packets without loss are enough, whatever the index and the emulator's state. */
  lemma {:induction false} SevenPackets(c: Client, t: Tuning, from: nat)
    requires from < SLOTS && SupportedRate(t.sampleRate) && 1 <= t.nddc <= 8
    ensures Agrees(Deliver(c, t, Generated(from, 14)), t)
  {
    GeneratedComplete(from, 14);
    Stabilises(c, t, Generated(from, 14));
  }

  // ---- on the wire -------------------------------------------------------------------------------------

  /** A client without its recorder lock, which control commands neither read nor write. */
  function Unlocked(c: Client): Client { c.(recordingFreq := None) }

  /** What the emulator hears in a block of the client: the conjugate, to 16 bits. */
  function HeardSample(s: Complex): Complex {
    Complex(Restored(Quantise(s.re, MAX16), MAX16), Restored(Quantise(-s.im, MAX16), MAX16))
  }

  lemma {:induction false} BlockHeard(s: Complex, cw: bool)
    ensures TxSamples(Block(s, cw), 1) == [HeardSample(s)]
  {
    hide Component16, Quantise, Restored, Signed16, Word16;
    Component16Back(s.re);
    Component16Back(-s.im);
    var b, re, im := Block(s, cw), Component16(s.re), Component16(-s.im);
    assert b[4] == re[0] && b[5] == re[1] && b[6] == im[0] && b[7] == im[1];
  }

  lemma {:induction false} TxSamplesAt(data: seq<u8>, n: nat, k: nat)
    requires 8 * n <= |data| && k < n
    ensures TxSamples(data, n)[k] == TxSamples(data[8 * k..8 * k + 8], 1)[0]
  {
    hide Signed16, Word16;
  }

  lemma {:induction false} BlocksAt(samples: seq<Complex>, cw: bool, k: nat)
    requires k < |samples|
    ensures Blocks(samples, cw)[8 * k..8 * k + 8] == Block(samples[k], cw)
  {
    hide Block;
    var n := |samples| - 1;
    var before := Blocks(samples[..n], cw);
    if k < n {
      BlocksAt(samples[..n], cw, k);
      PieceLeft(before, Block(samples[n], cw), 8 * k);
    } else {
      PieceRight(before, Block(samples[n], cw));
    }
  }

  lemma {:induction false} PieceLeft(a: seq<u8>, b: seq<u8>, at: nat)
    requires at + 8 <= |a|
    ensures (a + b)[at..at + 8] == a[at..at + 8]
  {}

  lemma {:induction false} PieceRight(a: seq<u8>, b: seq<u8>)
    requires |b| == 8
    ensures (a + b)[|a|..|a| + 8] == b
  {}

  lemma {:induction false} SilenceHeard(data: seq<u8>)
    requires data == ZeroBytes(8)
    ensures TxSamples(data, 1) == [ZERO]
  {}

  /** The samples the emulator takes from a sub-frame of the client: those sent, then silence. */
  lemma {:induction false} HostSamplesHeard(cmd: Command, samples: seq<Complex>, cw: bool, k: nat)
    requires |samples| <= 63 && k < 63
    ensures TxSamples(HostBytes(cmd, samples, cw)[8..], 63)[k] ==
      if k < |samples| then HeardSample(samples[k]) else ZERO
  {
    hide TxSamples, Blocks, Block, HeardSample;
    var data := HostBytes(cmd, samples, cw)[8..];
    var blocks := Blocks(samples, cw);
    assert data == blocks + ZeroBytes(504 - |blocks|);
    TxSamplesAt(data, 63, k);
    if k < |samples| {
      assert data[8 * k..8 * k + 8] == blocks[8 * k..8 * k + 8];
      BlocksAt(samples, cw, k);
      BlockHeard(samples[k], cw);
    } else {
      assert data[8 * k..8 * k + 8] == ZeroBytes(8);
      SilenceHeard(data[8 * k..8 * k + 8]);
    }
  }

  /** A transmitted sample in range arrives as its conjugate, within two units of 2^-15. */
  lemma {:induction false} HeardNear(s: Complex)
    requires InRange(s)
    ensures Near(HeardSample(s), s.Conjugate(), 2.0 / 32_768.0)
  {
    hide Quantise, Restored;
    QuantiseError(s.re, MAX16);
    QuantiseError(-s.im, MAX16);
    assert 2.0 * Unit(MAX16) == 2.0 / 32_768.0;
  }

  /**
   The client's sub-frame, handled by the emulator: its settings change as the command says, whatever the
   samples and the echo buffer are.
   */
  lemma {:induction false} SubframeObeyed(c: Client, e: Option<EchoBuffers.Echo>, cmd: Command, samples: seq<Complex>,
                                          cw: bool, now: nat)
    requires |samples| <= 63
    ensures var sf := HostBytes(cmd, samples, cw);
      Unlocked(Subframe(c, e, sf, now).0) == Unlocked(Obey(c, cmd))
  {
    hide Client.ProcessControl, TxSamples, Blocks, KeyOn, KeyOff, FeedTx;
    var sf := HostBytes(cmd, samples, cw);
    assert sf[0] == 0x7F && sf[1] == 0x7F && sf[2] == 0x7F;
    assert sf[3] == cmd.c0 && sf[4] == cmd.c1 && sf[5] == cmd.c2 && sf[6] == cmd.c3 && sf[7] == cmd.c4;
    var n := Obey(c, cmd);
    if e.Some? {
      TransmitUnlocked(n, n.ptt != c.ptt, e.value, TxSamples(sf[8..], MAX_TX_IQ_SAMPLES), now);
    }
  }

  lemma {:induction false} TransmitUnlocked(c: Client, changed: bool, e: EchoBuffers.Echo, samples: seq<Complex>,
                                            now: nat)
    ensures Unlocked(Transmit(c, changed, e, samples, now).0) == Unlocked(c)
  {
    hide EchoBuffers.Echo.StartRecording, EchoBuffers.Echo.StopRecording, FeedTx;
  }

  lemma {:induction false} ObeyUnlocked(c: Client, cmd: Command)
    ensures Unlocked(Obey(c, cmd)) == Obey(Unlocked(c), cmd)
  {
    hide Word32;
  }

  /** One delivered sub-frame: its slot, the samples it carries, and when it is handled. */
  datatype Delivery = Delivery(slot: nat, samples: seq<Complex>, cw: bool, now: nat)

  predicate Deliverable(ds: seq<Delivery>) {
    forall i :: 0 <= i < |ds| ==> ds[i].slot < SLOTS && |ds[i].samples| <= 63
  }

  /** The emulator's client after the wire bytes of all these sub-frames. */
  function HandleAll(c: Client, e: Option<EchoBuffers.Echo>, t: Tuning, ds: seq<Delivery>)
    : (Client, Option<EchoBuffers.Echo>)
    requires Deliverable(ds)
  {
    if ds == [] then (c, e) else
      var n := |ds| - 1;
      var (d, f) := HandleAll(c, e, t, ds[..n]);
      Subframe(d, f, HostBytes(OnAir(t, ds[n].slot), ds[n].samples, ds[n].cw), ds[n].now)
  }

  function SlotsOf(ds: seq<Delivery>): (s: seq<nat>)
    requires Deliverable(ds)
    ensures Slots(s) && |s| == |ds|
  {
    if ds == [] then [] else SlotsOf(ds[..|ds| - 1]) + [ds[|ds| - 1].slot]
  }

  lemma {:induction false} WireDelivers(c: Client, e: Option<EchoBuffers.Echo>, t: Tuning, ds: seq<Delivery>)
    requires Deliverable(ds)
    ensures Unlocked(HandleAll(c, e, t, ds).0) == Unlocked(Deliver(c, t, SlotsOf(ds)))
  {
    hide Subframe, Obey, OnAir, Unlocked, HostBytes;
    if ds != [] {
      var n := |ds| - 1;
      var s := ds[n];
      var (d, f) := HandleAll(c, e, t, ds[..n]);
      WireDelivers(c, e, t, ds[..n]);
      SubframeObeyed(d, f, OnAir(t, s.slot), s.samples, s.cw, s.now);
      ObeyUnlocked(d, OnAir(t, s.slot));
      ObeyUnlocked(Deliver(c, t, SlotsOf(ds[..n])), OnAir(t, s.slot));
      assert SlotsOf(ds)[..n] == SlotsOf(ds[..n]);
    }
  }

  /** Self-stabilisation on the wire: with any samples in the sub-frames and with or without echo. */
  lemma {:induction false} WireStabilises(c: Client, e: Option<EchoBuffers.Echo>, t: Tuning, ds: seq<Delivery>)
    requires Deliverable(ds) && Complete(SlotsOf(ds))
    ensures Agrees(HandleAll(c, e, t, ds).0, t) <==> SupportedRate(t.sampleRate) && 1 <= t.nddc <= 8
  {
    hide HandleAll, Deliver, OcOutputs;
    WireDelivers(c, e, t, ds);
    Stabilises(c, t, SlotsOf(ds));
    assert Unlocked(HandleAll(c, e, t, ds).0).rxFrequencies == Deliver(c, t, SlotsOf(ds)).rxFrequencies;
  }
}
