/** The bounded, draining buffer that mixes the samples of concurrent transmitters. */
module LiveBuffers {
  import opened Base
  import opened Samples

  datatype SocketAddr = SocketAddr(ip: u32, port: u16)

  /** A live buffer as a value; the class below computes these functions in place. */
  datatype Live = Live(
    data: seq<Complex>,
    drained: nat,
    epoch: nat,
    maxSamples: nat,
    clientOffsets: map<SocketAddr, nat>
  ) {
    /** The absolute position behind the newest sample. */
    function Head(): nat { drained + |data| }

    function RestartWithEpoch(e: nat): Live { Live([], 0, e, maxSamples, map[]) }

    function StartClient(client: SocketAddr): Live { this.(clientOffsets := clientOffsets[client := Head()]) }

    function StopClient(client: SocketAddr): Live { this.(clientOffsets := clientOffsets - {client}) }

    /** Where the next samples of a client land: at its offset, or at the drain head when it is late. */
    function Landing(client: SocketAddr): nat
      requires client in clientOffsets
    {
      Max(clientOffsets[client], drained)
    }

    function FeedFrom(client: SocketAddr, samples: seq<Complex>): Live {
      if samples == [] || client !in clientOffsets then this
      else
        var at := Landing(client);
        var mixed := Mix(data, at - drained, samples);
        this.(data := Newest(mixed, maxSamples),
              drained := drained + MonusNat(|mixed|, maxSamples),
              clientOffsets := clientOffsets[client := at + |samples|])
    }
  }

  class LiveBuffer {
    var data: seq<Complex>
    var drained: nat
    var epoch: nat
    var maxSamples: nat
    var clientOffsets: map<SocketAddr, nat>

    function Snapshot(): Live
      reads this
    {
      Live(data, drained, epoch, maxSamples, clientOffsets)
    }

    constructor (max: nat)
      ensures Snapshot() == Live([], 0, 0, max, map[])
    {
      data, drained, epoch, maxSamples, clientOffsets := [], 0, 0, max, map[];
    }

    method RestartWithEpoch(e: nat)
      modifies this
      ensures Snapshot() == old(Snapshot()).RestartWithEpoch(e)
    {
      data, drained := [], 0;
      epoch := e;
      clientOffsets := map[];
    }

    method StartClient(client: SocketAddr)
      modifies this
      ensures Snapshot() == old(Snapshot()).StartClient(client)
    {
      clientOffsets := clientOffsets[client := drained + |data|];
    }

    method StopClient(client: SocketAddr)
      modifies this
      ensures Snapshot() == old(Snapshot()).StopClient(client)
    {
      clientOffsets := clientOffsets - {client};
    }

    /** The adding loop: `samples` on top of what is already at `rel` and behind. */
    method AddInto(rel: nat, samples: seq<Complex>)
      requires rel + |samples| <= |data|
      modifies this`data
      ensures data == Mix(old(data), rel, samples)
    {
      ghost var was := data;
      for i := 0 to |samples|
        invariant |data| == |was|
        invariant forall k :: 0 <= k < |data| && !(rel <= k < rel + i) ==> data[k] == was[k]
        invariant forall k :: rel <= k < rel + i ==> data[k] == was[k].Plus(samples[k - rel])
      {
        data := data[rel + i := data[rel + i].Plus(samples[i])];
      }
      AddedAll(was, rel, samples, data);
    }

    /** Drops the oldest samples beyond the capacity. */
    method DrainExcess()
      modifies this`data, this`drained
      ensures data == Newest(old(data), maxSamples)
      ensures drained == old(drained) + MonusNat(|old(data)|, maxSamples)
    {
      if |data| > maxSamples {
        var excess := |data| - maxSamples;
        data := data[excess..];
        drained := drained + excess;
      }
    }

    method FeedFrom(client: SocketAddr, samples: seq<Complex>)
      modifies this
      ensures Snapshot() == old(Snapshot()).FeedFrom(client, samples)
    {
      hide Mix, Newest, At, Complex.Plus;
      if samples == [] || client !in clientOffsets {
        return;
      }
      if clientOffsets[client] < drained {
        clientOffsets := clientOffsets[client := drained];
      }
      var curAbs := clientOffsets[client];
      var rel := curAbs - drained;
      var needed := rel + |samples|;
      GrowthIsSilent(data, rel, samples);
      if |data| < needed {
        data := data + Zeros(needed - |data|);
      }
      AddInto(rel, samples);
      clientOffsets := clientOffsets[client := curAbs + |samples|];
      DrainExcess();
    }
  }

  /** Growing the buffer with silence first does not change what mixing gives. */
  lemma {:induction false} GrowthIsSilent(data: seq<Complex>, at: nat, samples: seq<Complex>)
    ensures Mix(data + Zeros(MonusNat(at + |samples|, |data|)), at, samples) == Mix(data, at, samples)
  {}

  lemma {:induction false} AddedAll(was: seq<Complex>, rel: nat, samples: seq<Complex>, data: seq<Complex>)
    requires |data| == |was| && rel + |samples| <= |data|
    requires forall k :: 0 <= k < |data| && !(rel <= k < rel + |samples|) ==> data[k] == was[k]
    requires forall k :: rel <= k < rel + |samples| ==> data[k] == was[k].Plus(samples[k - rel])
    ensures data == Mix(was, rel, samples)
  {
    forall k | 0 <= k < |data|
      ensures data[k] == Mix(was, rel, samples)[k]
    {
      if !(rel <= k < rel + |samples|) { assert was[k] == was[k].Plus(ZERO); }
    }
  }
}
