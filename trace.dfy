/** The order in which the program talks to the muxer and the encoders. Each of the operations
    the program calls (NewStream, CopyParameters, SetTimeBase, WriteHeader, WritePacket and
    WriteTrailer of `Muxing.FormatContext`; Open and EncodeFrame of `Encoding.CodecContext`)
    appends one event to a shared log, whether it succeeds or not, so that orderings across
    objects can be stated. */
module CallTrace {
  import opened Media

  datatype Event =
    | NewStreamCall(index: nat, codec: CodecId)
    | OpenCall(kind: MediaKind)
    | CopyParametersCall(index: nat, kind: MediaKind)
    | SetTimeBaseCall(index: nat, timeBase: Rational)
    | WriteHeaderCall
    | EncodeCall(kind: MediaKind, frame: Option<Frame>)
    | WritePacketCall(packet: Packet)
    | WriteTrailerCall

  /** Events that may happen while streaming, between the header and the trailer. */
  predicate IsStreaming(e: Event)
  {
    e.EncodeCall? || e.WritePacketCall?
  }

  /** `events` extends `before` with streaming events only. */
  ghost predicate StreamingSince(before: seq<Event>, events: seq<Event>)
  {
    && |before| <= |events| && events[..|before|] == before
    && forall k :: |before| <= k < |events| ==> IsStreaming(events[k])
  }

  lemma StreamingSinceTransitive(a: seq<Event>, b: seq<Event>, c: seq<Event>)
    requires StreamingSince(a, b) && StreamingSince(b, c)
    ensures StreamingSince(a, c)
  {
  }

  class CallLog {
    ghost var events: seq<Event>

    constructor ()
      ensures events == []
    {
      events := [];
    }
  }
}
