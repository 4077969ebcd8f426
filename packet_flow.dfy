/** What the program does to each packet between the encoder and the muxer: rescale its
    timestamps from the encoder's time base to its stream's, then tag it with the stream index.
    The rescale arithmetic belongs to the media library and is a parameter here. */
module PacketFlow {
  import opened Media

  type Rescaler = (int, Rational, Rational) -> int

  function Rescaled(packet: Packet, from: Rational, to: Rational, rescale: Rescaler): Packet
  {
    packet.(pts := rescale(packet.pts, from, to), dts := rescale(packet.dts, from, to),
            duration := rescale(packet.duration, from, to))
  }

  /** The packet as it is handed to the muxer. */
  function Prepared(packet: Packet, from: Rational, to: Rational, index: nat, rescale: Rescaler): Packet
  {
    Rescaled(packet, from, to, rescale).(streamIndex := index)
  }

  function PrepareAll(packets: seq<Packet>, from: Rational, to: Rational, index: nat, rescale: Rescaler): seq<Packet>
  {
    if packets == [] then []
    else PrepareAll(packets[..|packets| - 1], from, to, index, rescale)
         + [Prepared(packets[|packets| - 1], from, to, index, rescale)]
  }

  /** Each packet is tagged with the stream index and rescaled exactly once; none is dropped,
      added or reordered. */
  lemma {:induction false} PrepareAllElements(packets: seq<Packet>, from: Rational, to: Rational, index: nat, rescale: Rescaler)
    ensures |PrepareAll(packets, from, to, index, rescale)| == |packets|
    ensures forall k :: 0 <= k < |packets| ==>
              var p := PrepareAll(packets, from, to, index, rescale)[k];
              && p.streamIndex == index
              && p.pts == rescale(packets[k].pts, from, to)
              && p.dts == rescale(packets[k].dts, from, to)
              && p.duration == rescale(packets[k].duration, from, to)
  {
    if packets != [] {
      var init := packets[..|packets| - 1];
      PrepareAllElements(init, from, to, index, rescale);
      assert forall k :: 0 <= k < |init| ==> init[k] == packets[k];
    }
  }

  lemma {:induction false} PrepareAllAppend(a: seq<Packet>, b: seq<Packet>, from: Rational, to: Rational, index: nat, rescale: Rescaler)
    ensures PrepareAll(a + b, from, to, index, rescale)
            == PrepareAll(a, from, to, index, rescale) + PrepareAll(b, from, to, index, rescale)
  {
    if b == [] {
      assert a + b == a;
    } else {
      var init := b[..|b| - 1];
      PrepareAllAppend(a, init, from, to, index, rescale);
      assert (a + b)[..|a + b| - 1] == a + init;
    }
  }

  /** Writing the packets of one more encode call after those already written. */
  lemma PrepareAllExtend(written: seq<Packet>, emitted: seq<Packet>, out: seq<Packet>, from: Rational, to: Rational,
                         index: nat, rescale: Rescaler)
    ensures written + PrepareAll(emitted, from, to, index, rescale) + PrepareAll(out, from, to, index, rescale)
            == written + PrepareAll(emitted + out, from, to, index, rescale)
  {
    PrepareAllAppend(emitted, out, from, to, index, rescale);
  }
}
