/** The emulator's side of Protocol 1: per-client state, host frames and the echo buffer behind them. */
module Emulator {
  import opened Base
  import opened Samples
  import opened LiveBuffers
  import opened EchoBuffers
  import opened IqCodec

  const PACKET_SIZE: nat := 1032
  const SUBFRAME_SIZE: nat := 512
  const MAX_TX_IQ_SAMPLES: nat := 63

  type Freqs = s: seq<u32> | |s| == 12 witness seq(12, i => 7_074_000)

  /** Protocol 1 codes of the supported sample rates. */
  function CodeToSampleRate(code: u8): Option<u32> {
    match code
    case 0 => Some(48_000)
    case 1 => Some(96_000)
    case 2 => Some(192_000)
    case 3 => Some(384_000)
    case _ => None
  }

  /** One client of the emulator as a value; the class below computes these functions in place. */
  datatype Client = Client(
    addr: SocketAddr,
    sampleRate: u32,
    nddc: u8,
    rxFrequencies: Freqs,
    txFrequency: u32,
    ptt: bool,
    txDrive: u8,
    ocOutputs: u8,
    paEnabled: bool,
    recordingFreq: Option<u32>
  ) {
    function Settings(c1: u8, c2: u8, c4: u8): Client {
      var rate := CodeToSampleRate(c1 % 4);
      this.(sampleRate := if rate.Some? then rate.value else sampleRate,
            nddc := c4 / 8 % 8 + 1,
            ocOutputs := c2 / 2)
    }

    function Tune(idx: nat, freq: u32): Client {
      if idx < 12 then this.(rxFrequencies := rxFrequencies[idx := freq]) else this
    }

    /** A control command takes effect; bit 0 of the first byte is PTT. */
    function ProcessControl(c0: u8, c1: u8, c2: u8, c3: u8, c4: u8): Client {
      var c := this.(ptt := c0 % 2 == 1);
      var address := c0 - c0 % 2;
      if address == 0x00 then c.Settings(c1, c2, c4)
      else if address == 0x02 then c.(txFrequency := Word32(c1, c2, c3, c4))
      else if 0x04 <= address < 0x12 then c.Tune((address - 4) / 2, Word32(c1, c2, c3, c4))
      else if address == 0x12 then c.(txDrive := c1, paEnabled := c2 / 8 % 2 == 1)
      else c
    }
  }

  function NewClient(addr: SocketAddr, rate: u32): Client {
    Client(addr, rate, 1, seq(12, i => 7_074_000), 7_074_000, false, 0, 0, false, None)
  }

  // ---- host frames ---------------------------------------------------------------------------

  /** The transmitted samples of a sub-frame: in every block of eight bytes, the last four. */
  function TxSamples(data: seq<u8>, n: nat): (r: seq<Complex>)
    requires 8 * n <= |data|
    ensures |r| == n
  {
    seq(n, k requires 0 <= k < n =>
      Complex(Signed16(Word16(data[8 * k + 4], data[8 * k + 5])) as real / 32768.0,
              Signed16(Word16(data[8 * k + 6], data[8 * k + 7])) as real / 32768.0))
  }

  predicate Synced(sf: seq<u8>) { |sf| == SUBFRAME_SIZE && sf[0] == 0x7F && sf[1] == 0x7F && sf[2] == 0x7F }

  /** PTT turned on: the transmit frequency of this moment is locked for the recorder. */
  function KeyOn(c: Client, e: Echo, now: nat): (Client, Echo) {
    (c.(recordingFreq := Some(c.txFrequency)), e.StartRecording(c.txFrequency, c.addr, c.sampleRate, now))
  }

  function KeyOff(c: Client, e: Echo, now: nat): (Client, Echo) {
    match c.recordingFreq
    case None => (c, e)
    case Some(freq) => (c.(recordingFreq := None), e.StopRecording(freq, c.addr, now))
  }

  function FeedTx(c: Client, e: Echo, samples: seq<Complex>): Echo {
    if c.recordingFreq.Some? then e.Feed(c.recordingFreq.value, c.addr, samples) else e
  }

  /** What the echo buffer and the client's lock become once a control command has taken effect. */
  function Transmit(c: Client, pttChanged: bool, e: Echo, samples: seq<Complex>, now: nat): (Client, Echo) {
    if c.ptt then
      var (d, f) := if pttChanged then KeyOn(c, e, now) else (c, e);
      (d, FeedTx(d, f, samples))
    else if pttChanged then KeyOff(c, e, now)
    else (c, e)
  }

  function Subframe(c: Client, e: Option<Echo>, sf: seq<u8>, now: nat): (Client, Option<Echo>) {
    if !Synced(sf) then (c, e)
    else
      var n := c.ProcessControl(sf[3], sf[4], sf[5], sf[6], sf[7]);
      match e
      case None => (n, None)
      case Some(echo) =>
        var (d, f) := Transmit(n, n.ptt != c.ptt, echo, TxSamples(sf[8..], MAX_TX_IQ_SAMPLES), now);
        (d, Some(f))
  }

  /** A whole host frame: its two sub-frames in turn, handled at the times `t0` and `t1`. */
  function Frame(c: Client, e: Option<Echo>, data: seq<u8>, t0: nat, t1: nat): (Client, Option<Echo>) {
    if |data| < PACKET_SIZE then (c, e)
    else
      var (d, f) := Subframe(c, e, data[8..520], t0);
      Subframe(d, f, data[520..1032], t1)
  }

  predicate HasHeader(data: seq<u8>) { |data| >= 3 && data[0] == 0xEF && data[1] == 0xFE && data[2] == 0x01 }

  ghost function EchoValue(echo: EchoBuffer?): Option<Echo>
    reads echo
  {
    if echo == null then None else Some(echo.Snapshot())
  }

  method UnpackTxIq(data: seq<u8>, max: nat) returns (out: seq<Complex>)
    ensures out == TxSamples(data, Min(|data| / 8, max))
  {
    var n := Min(|data| / 8, max);
    out := [];
    for k := 0 to n
      invariant out == TxSamples(data, k)
    {
      var i := Signed16(Word16(data[8 * k + 4], data[8 * k + 5]));
      var q := Signed16(Word16(data[8 * k + 6], data[8 * k + 7]));
      out := out + [Complex(i as real / 32768.0, q as real / 32768.0)];
    }
  }

  class ClientState {
    const addr: SocketAddr
    var sampleRate: u32
    var nddc: u8
    var rxFrequencies: Freqs
    var txFrequency: u32
    var ptt: bool
    var txDrive: u8
    var ocOutputs: u8
    var paEnabled: bool
    var recordingFreq: Option<u32>

    function Snapshot(): Client
      reads this
    {
      Client(addr, sampleRate, nddc, rxFrequencies, txFrequency, ptt, txDrive, ocOutputs, paEnabled, recordingFreq)
    }

    constructor (addr: SocketAddr, rate: u32)
      ensures Snapshot() == NewClient(addr, rate)
    {
      this.addr := addr;
      sampleRate, nddc := rate, 1;
      rxFrequencies, txFrequency := seq(12, i => 7_074_000), 7_074_000;
      ptt, txDrive, ocOutputs, paEnabled := false, 0, 0, false;
      recordingFreq := None;
    }

    method ApplySettings(c1: u8, c2: u8, c4: u8)
      modifies this
      ensures Snapshot() == old(Snapshot()).Settings(c1, c2, c4)
    {
      var rate := CodeToSampleRate(c1 % 4);
      if rate.Some? {
        sampleRate := rate.value;
      }
      nddc := c4 / 8 % 8 + 1;
      ocOutputs := c2 / 2;
    }

    method ProcessControl(c0: u8, c1: u8, c2: u8, c3: u8, c4: u8) returns (pttChanged: bool)
      modifies this
      ensures Snapshot() == old(Snapshot()).ProcessControl(c0, c1, c2, c3, c4)
      ensures pttChanged == (ptt != old(ptt))
    {
      hide Client.Settings, Word32;
      var mox := c0 % 2 == 1;
      pttChanged := mox != ptt;
      ptt := mox;
      var address := c0 - c0 % 2;
      if address == 0x00 {
        ApplySettings(c1, c2, c4);
        SettingsKeepPtt(old(Snapshot()).(ptt := mox), c1, c2, c4);
      } else if address == 0x02 {
        txFrequency := Word32(c1, c2, c3, c4);
      } else if 0x04 <= address < 0x12 {
        var idx := (address - 4) / 2;
        rxFrequencies := rxFrequencies[idx := Word32(c1, c2, c3, c4)];
      } else if address == 0x12 {
        txDrive := c1;
        paEnabled := c2 / 8 % 2 == 1;
      }
    }

    method StartKey(echo: EchoBuffer, now: nat)
      modifies this, echo
      ensures (Snapshot(), echo.Snapshot()) == KeyOn(old(Snapshot()), old(echo.Snapshot()), now)
    {
      hide Echo.StartRecording;
      recordingFreq := Some(txFrequency);
      echo.StartRecording(txFrequency, addr, sampleRate, now);
    }

    /** Releases the recorder of this client, on PTT-off and when its task ends. */
    method Release(echo: EchoBuffer, now: nat)
      modifies this, echo
      ensures (Snapshot(), echo.Snapshot()) == KeyOff(old(Snapshot()), old(echo.Snapshot()), now)
    {
      hide Echo.StopRecording;
      if recordingFreq.Some? {
        var freq := recordingFreq.value;
        recordingFreq := None;
        echo.StopRecording(freq, addr, now);
      }
    }

    method FeedEcho(echo: EchoBuffer, samples: seq<Complex>)
      modifies echo
      ensures echo.Snapshot() == FeedTx(Snapshot(), old(echo.Snapshot()), samples)
    {
      hide Echo.Feed;
      if recordingFreq.Some? {
        echo.Feed(recordingFreq.value, addr, samples);
      }
    }

    /** A sub-frame as the synchronous path handles it. */
    method HostSubframe(echo: EchoBuffer?, sf: seq<u8>, now: nat)
      requires |sf| == SUBFRAME_SIZE
      modifies this, echo
      ensures (Snapshot(), EchoValue(echo)) == Subframe(old(Snapshot()), old(EchoValue(echo)), sf, now)
    {
      hide Client.ProcessControl, KeyOn, KeyOff, FeedTx, TxSamples;
      if !Synced(sf) {
        return;
      }
      var pttChanged := ProcessControl(sf[3], sf[4], sf[5], sf[6], sf[7]);
      if ptt {
        var samples := UnpackTxIq(sf[8..], MAX_TX_IQ_SAMPLES);
        if echo != null {
          if pttChanged {
            StartKey(echo, now);
          }
          FeedEcho(echo, samples);
        }
      } else if echo != null && pttChanged {
        Release(echo, now);
      }
    }

    method ProcessHostFrame(echo: EchoBuffer?, data: seq<u8>, t0: nat, t1: nat)
      modifies this, echo
      ensures (Snapshot(), EchoValue(echo)) ==
        if HasHeader(data) then Frame(old(Snapshot()), old(EchoValue(echo)), data, t0, t1)
        else (old(Snapshot()), old(EchoValue(echo)))
    {
      hide Subframe, EchoValue, ClientState.Snapshot;
      if |data| < PACKET_SIZE || !HasHeader(data) {
        return;
      }
      HostSubframe(echo, data[8..520], t0);
      HostSubframe(echo, data[520..1032], t1);
    }

    /** A sub-frame as the client task handles it: the samples first, then everything under the lock. */
    method HandleSubframe(echo: EchoBuffer?, sf: seq<u8>, now: nat)
      requires |sf| == SUBFRAME_SIZE
      modifies this, echo
      ensures (Snapshot(), EchoValue(echo)) == Subframe(old(Snapshot()), old(EchoValue(echo)), sf, now)
    {
      hide Client.ProcessControl, KeyOn, KeyOff, FeedTx, TxSamples;
      if !Synced(sf) {
        return;
      }
      var pttChanged := ProcessControl(sf[3], sf[4], sf[5], sf[6], sf[7]);
      var txSamples := None;
      if ptt {
        var samples := UnpackTxIq(sf[8..], MAX_TX_IQ_SAMPLES);
        txSamples := Some(samples);
      }
      if (pttChanged || txSamples.Some?) && echo != null {
        if pttChanged {
          if ptt {
            StartKey(echo, now);
          } else {
            Release(echo, now);
          }
        }
        if txSamples.Some? {
          FeedEcho(echo, txSamples.value);
        }
      }
    }

    /** Both paths give the same result on every frame with the header of a data packet. */
    method HandleHostData(echo: EchoBuffer?, data: seq<u8>, t0: nat, t1: nat)
      modifies this, echo
      ensures (Snapshot(), EchoValue(echo)) == Frame(old(Snapshot()), old(EchoValue(echo)), data, t0, t1)
    {
      hide Subframe, EchoValue, ClientState.Snapshot;
      if |data| < PACKET_SIZE {
        return;
      }
      HandleSubframe(echo, data[8..520], t0);
      HandleSubframe(echo, data[520..1032], t1);
    }
  }

  /** A sub-frame that does not begin with three sync bytes has no effect at all; neither has a short frame. */
  lemma {:induction false} OutOfSync(c: Client, e: Option<Echo>, sf: seq<u8>, now: nat)
    ensures |sf| >= 3 && sf[..3] != [0x7F, 0x7F, 0x7F] ==> Subframe(c, e, sf, now) == (c, e)
    ensures |sf| < 1032 ==> Frame(c, e, sf, now, now) == (c, e)
  {
    hide Transmit, Client.ProcessControl, TxSamples;
    if Synced(sf) { assert sf[..3] == [0x7F, 0x7F, 0x7F]; }
  }

  /** A data packet begins with EF FE 01. */
  lemma {:induction false} DataPacket(data: seq<u8>)
    ensures HasHeader(data) <==> |data| >= 3 && data[..3] == [0xEF, 0xFE, 0x01]
  {
    if |data| >= 3 { assert data[..3] == [data[0], data[1], data[2]]; }
  }

  lemma {:induction false} SettingsKeepPtt(c: Client, c1: u8, c2: u8, c4: u8)
    ensures c.Settings(c1, c2, c4).ptt == c.ptt
  {}
}
