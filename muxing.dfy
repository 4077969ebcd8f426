/** The output container (`FormatContext`): its stream table, its lifecycle and the packets it
    has written. A stream handle of the program is the index of its entry in the table; copying
    codec parameters into a stream and setting its time base are operations on that entry. */
module Muxing {
  import opened Media
  import opened CallTrace
  import opened Encoding

  datatype MuxState = Unopened | HeaderWritten | TrailerWritten

  datatype MuxError = InvalidState | HeaderWriteError | StreamIndexOutOfRange

  datatype StreamEntry = StreamEntry(codec: CodecId, parameters: Option<EncoderConfig>, timeBase: Rational)

  predicate AllParametersSet(streams: seq<StreamEntry>)
  {
    forall k :: 0 <= k < |streams| ==> streams[k].parameters.Some?
  }

  /** The stream table after the header: the container format may replace every time base;
      codecs and parameters stay. */
  function Retimed(streams: seq<StreamEntry>, headerTimeBase: (nat, Rational) -> Rational): (retimed: seq<StreamEntry>)
    ensures |retimed| == |streams|
    ensures forall k :: 0 <= k < |streams| ==>
              retimed[k].codec == streams[k].codec && retimed[k].parameters == streams[k].parameters
    ensures AllParametersSet(retimed) == AllParametersSet(streams)
  {
    seq(|streams|, k requires 0 <= k < |streams| => streams[k].(timeBase := headerTimeBase(k, streams[k].timeBase)))
  }

  class FormatContext {
    const formatName: string
    /** The time base the container format settles on for stream k at header time. */
    const headerTimeBase: (nat, Rational) -> Rational
    const log: CallLog
    var videoCodec: Option<CodecId>
    var audioCodec: Option<CodecId>
    var state: MuxState
    var streams: seq<StreamEntry>
    /** The packets in the output, in the order they were written. */
    var packets: seq<Packet>

    /** Nothing is written before the header; the header is written only once every stream has
        its codec parameters; every written packet belongs to an existing stream. */
    ghost predicate Valid()
      reads this
    {
      && (state == Unopened ==> packets == [])
      && (state != Unopened ==> AllParametersSet(streams))
      && (forall k :: 0 <= k < |packets| ==> 0 <= packets[k].streamIndex < |streams|)
    }

    constructor AllocOutput(formatName: string, headerTimeBase: (nat, Rational) -> Rational, log: CallLog)
      ensures Valid() && state == Unopened && streams == [] && packets == []
      ensures videoCodec == None && audioCodec == None
      ensures this.formatName == formatName && this.headerTimeBase == headerTimeBase && this.log == log
    {
      this.formatName := formatName;
      this.headerTimeBase := headerTimeBase;
      this.log := log;
      videoCodec, audioCodec := None, None;
      state := Unopened;
      streams, packets := [], [];
    }

    /** Adds a stream for `codec` and returns its index, the next free one. */
    method NewStream(codec: CodecId) returns (r: Result<nat, MuxError>)
      requires Valid()
      modifies this`streams, log
      ensures Valid() && state == old(state) && packets == old(packets)
      ensures log.events == old(log.events) + [NewStreamCall(old(|streams|), codec)]
      ensures old(state) != Unopened ==> r == Err(InvalidState) && streams == old(streams)
      ensures old(state) == Unopened ==>
                r == Ok(old(|streams|)) && streams == old(streams) + [StreamEntry(codec, None, UNSET_TIME_BASE)]
    {
      log.events := log.events + [NewStreamCall(|streams|, codec)];
      if state != Unopened {
        r := Err(InvalidState);
      } else {
        r := Ok(|streams|);
        streams := streams + [StreamEntry(codec, None, UNSET_TIME_BASE)];
      }
    }

    /** Copies an opened encoder's parameters into stream `index`; once the header is written
        the stream table is fixed and the call fails. */
    method CopyParameters(index: nat, encoder: CodecContext) returns (r: Outcome<MuxError>)
      requires Valid() && index < |streams| && encoder.state == Opened
      modifies this`streams, log
      ensures Valid() && state == old(state) && packets == old(packets)
      ensures log.events == old(log.events) + [CopyParametersCall(index, encoder.Kind())]
      ensures r == if old(state) == Unopened then Pass else Fail(InvalidState)
      ensures streams == if r.Pass? then old(streams)[index := old(streams[index]).(parameters := Some(encoder.config))]
                         else old(streams)
    {
      log.events := log.events + [CopyParametersCall(index, encoder.Kind())];
      if state != Unopened {
        r := Fail(InvalidState);
      } else {
        streams := streams[index := streams[index].(parameters := Some(encoder.config))];
        r := Pass;
      }
    }

    /** Sets the time base of stream `index`; once the header is written the call fails, so the
        time base packets are rescaled to cannot change while streaming. */
    method SetTimeBase(index: nat, timeBase: Rational) returns (r: Outcome<MuxError>)
      requires Valid() && index < |streams|
      modifies this`streams, log
      ensures Valid() && state == old(state) && packets == old(packets)
      ensures log.events == old(log.events) + [SetTimeBaseCall(index, timeBase)]
      ensures r == if old(state) == Unopened then Pass else Fail(InvalidState)
      ensures streams == if r.Pass? then old(streams)[index := old(streams[index]).(timeBase := timeBase)]
                         else old(streams)
    {
      log.events := log.events + [SetTimeBaseCall(index, timeBase)];
      if state != Unopened {
        r := Fail(InvalidState);
      } else {
        streams := streams[index := streams[index].(timeBase := timeBase)];
        r := Pass;
      }
    }

    /** Fails when the header was already written or a stream has no codec parameters. */
    method WriteHeader() returns (r: Outcome<MuxError>)
      requires Valid()
      modifies this`state, this`streams, log
      ensures Valid() && packets == old(packets)
      ensures log.events == old(log.events) + [WriteHeaderCall]
      ensures r == if old(state) == Unopened && AllParametersSet(old(streams)) then Pass else Fail(HeaderWriteError)
      ensures r.Pass? ==> state == HeaderWritten && streams == Retimed(old(streams), headerTimeBase)
      ensures r.Fail? ==> state == old(state) && streams == old(streams)
    {
      log.events := log.events + [WriteHeaderCall];
      if state == Unopened && AllParametersSet(streams) {
        streams := Retimed(streams, headerTimeBase);
        state := HeaderWritten;
        r := Pass;
      } else {
        r := Fail(HeaderWriteError);
      }
    }

    /** Appends a packet to the output; on failure the output is left as it was. */
    method WritePacket(packet: Packet) returns (r: Outcome<MuxError>)
      requires Valid()
      modifies this`packets, log
      ensures Valid() && state == old(state) && streams == old(streams)
      ensures log.events == old(log.events) + [WritePacketCall(packet)]
      ensures r == if old(state) != HeaderWritten then Fail(InvalidState)
                   else if !(0 <= packet.streamIndex < |streams|) then Fail(StreamIndexOutOfRange)
                   else Pass
      ensures packets == if r.Pass? then old(packets) + [packet] else old(packets)
    {
      log.events := log.events + [WritePacketCall(packet)];
      if state != HeaderWritten {
        r := Fail(InvalidState);
      } else if !(0 <= packet.streamIndex < |streams|) {
        r := Fail(StreamIndexOutOfRange);
      } else {
        packets := packets + [packet];
        r := Pass;
      }
    }

    /** Fails unless the header was written and the trailer was not. */
    method WriteTrailer() returns (r: Outcome<MuxError>)
      requires Valid()
      modifies this`state, log
      ensures Valid() && streams == old(streams) && packets == old(packets)
      ensures log.events == old(log.events) + [WriteTrailerCall]
      ensures r == if old(state) == HeaderWritten then Pass else Fail(InvalidState)
      ensures state == if r.Pass? then TrailerWritten else old(state)
    {
      log.events := log.events + [WriteTrailerCall];
      if state == HeaderWritten {
        state := TrailerWritten;
        r := Pass;
      } else {
        r := Fail(InvalidState);
      }
    }
  }
}
