/** The stream encoders (`CodecContext`) and the pixel-format converter. What a codec emits
    for a given input is not visible to the program: each encoder is given its `codec`
    behaviour, the packets one encode call yields as a function of every input so far. */
module Encoding {
  import opened Media
  import opened CallTrace

  /** The settings a CodecContext is created with. */
  datatype EncoderConfig =
    | VideoConfig(codec: CodecId, width: int, height: int, frameRate: Rational,
                  timeBase: Rational, pixelFormat: PixelFormat, globalHeader: bool)
    | AudioConfig(codec: CodecId, bitRate: int, sampleFormat: SampleFormat, sampleRate: int,
                  channels: int, frameSize: int, timeBase: Rational)

  function KindOfConfig(config: EncoderConfig): MediaKind
  {
    if config.VideoConfig? then Video else Audio
  }

  datatype EncoderState = Configured | Opened | Flushed

  datatype EncoderError = CodecOpenError | FrameFormatError | EncoderClosed

  /** Opening fails when a parameter the codec needs is missing or zero. */
  predicate Complete(config: EncoderConfig)
  {
    match config
    case VideoConfig(_, width, height, _, timeBase, pixelFormat, _) =>
      width > 0 && height > 0 && pixelFormat != NoPixelFormat && timeBase.num > 0 && timeBase.den > 0
    case AudioConfig(_, _, sampleFormat, sampleRate, channels, frameSize, timeBase) =>
      sampleFormat != NoSampleFormat && sampleRate > 0 && channels > 0 && frameSize > 0
      && timeBase.num > 0 && timeBase.den > 0
  }

  /** The configuration after `Open`: the "frame_size" option overrides an audio frame size. */
  function WithOptions(config: EncoderConfig, frameSizeOption: Option<int>): (effective: EncoderConfig)
    ensures KindOfConfig(effective) == KindOfConfig(config) && effective.timeBase == config.timeBase
    ensures effective.AudioConfig? && frameSizeOption.Some? ==> effective.frameSize == frameSizeOption.value
    ensures config.VideoConfig? || frameSizeOption.None? ==> effective == config
  {
    if config.AudioConfig? && frameSizeOption.Some? then config.(frameSize := frameSizeOption.value)
    else config
  }

  /** A frame an encoder accepts has exactly its geometry and pixel format, or exactly its
      frame size, sample format, channel count and sample rate. */
  predicate Accepts(config: EncoderConfig, frame: Frame)
  {
    match config
    case VideoConfig(_, width, height, _, _, pixelFormat, _) =>
      frame.VideoFrame? && frame.width == width && frame.height == height
      && frame.pixelFormat == pixelFormat
    case AudioConfig(_, _, sampleFormat, sampleRate, channels, frameSize, _) =>
      frame.AudioFrame? && frame.nbSamples == frameSize && frame.sampleFormat == sampleFormat
      && frame.channels == channels && frame.sampleRate == sampleRate
  }

  /** Everything an encoder with behaviour `codec` has emitted after receiving `inputs` one by
      one: each call yields `codec` of the inputs so far. */
  ghost function Output(codec: seq<Option<Frame>> -> seq<Packet>, inputs: seq<Option<Frame>>): seq<Packet>
  {
    if inputs == [] then [] else Output(codec, inputs[..|inputs| - 1]) + codec(inputs)
  }

  /** Packets once emitted stay emitted: more input only appends output. */
  lemma {:induction false} OutputGrows(codec: seq<Option<Frame>> -> seq<Packet>, inputs: seq<Option<Frame>>,
                                       more: seq<Option<Frame>>)
    ensures |Output(codec, inputs)| <= |Output(codec, inputs + more)|
    ensures Output(codec, inputs + more)[..|Output(codec, inputs)|] == Output(codec, inputs)
    decreases |more|
  {
    if more == [] {
      assert inputs + more == inputs;
    } else {
      var init := more[..|more| - 1];
      OutputGrows(codec, inputs, init);
      assert (inputs + more)[..|inputs + more| - 1] == inputs + init;
    }
  }

  lemma OutputStep(codec: seq<Option<Frame>> -> seq<Packet>, inputs: seq<Option<Frame>>, input: Option<Frame>)
    ensures Output(codec, inputs + [input]) == Output(codec, inputs) + codec(inputs + [input])
  {
    assert (inputs + [input])[..|inputs|] == inputs;
  }

  class CodecContext {
    var config: EncoderConfig
    var state: EncoderState
    /** Every frame (or the flush sentinel None) handed to EncodeFrame so far. */
    var inputs: seq<Option<Frame>>
    const codec: seq<Option<Frame>> -> seq<Packet>
    /** Every packet the encoder has emitted, call after call. */
    ghost var emitted: seq<Packet>
    const log: CallLog

    /** Frames come only after Open; the flush sentinel is the last input and only it; what has
        been emitted is exactly what the codec yields for the inputs so far. */
    ghost predicate Valid()
      reads this
    {
      && emitted == Output(codec, inputs)
      && (state == Configured ==> inputs == [])
      && (forall k :: 0 <= k < |inputs| - 1 ==> inputs[k].Some?)
      && (state == Flushed <==> |inputs| > 0 && inputs[|inputs| - 1].None?)
    }

    function Kind(): MediaKind
      reads this
    {
      KindOfConfig(config)
    }

    constructor (config: EncoderConfig, codec: seq<Option<Frame>> -> seq<Packet>, log: CallLog)
      ensures Valid() && this.config == config && state == Configured && inputs == [] && emitted == []
      ensures this.codec == codec && this.log == log
    {
      this.config := config;
      state := Configured;
      inputs := [];
      emitted := [];
      this.codec := codec;
      this.log := log;
    }

    method Open(frameSizeOption: Option<int>) returns (r: Outcome<EncoderError>)
      requires Valid()
      modifies this, log
      ensures Valid() && inputs == old(inputs) && emitted == old(emitted)
      ensures log.events == old(log.events) + [OpenCall(old(Kind()))]
      ensures r == if old(state) == Configured && Complete(WithOptions(old(config), frameSizeOption))
                   then Pass else Fail(CodecOpenError)
      ensures r.Pass? ==> state == Opened && config == WithOptions(old(config), frameSizeOption)
      ensures r.Fail? ==> state == old(state) && config == old(config)
    {
      log.events := log.events + [OpenCall(Kind())];
      var effective := WithOptions(config, frameSizeOption);
      if state == Configured && Complete(effective) {
        config := effective;
        state := Opened;
        r := Pass;
      } else {
        r := Fail(CodecOpenError);
      }
    }

    /** A blank frame with the encoder's own geometry and pixel format. */
    function CreateFrame(): (frame: Frame)
      reads this
      requires config.VideoConfig?
      ensures Accepts(config, frame)
    {
      VideoFrame(config.width, config.height, config.pixelFormat, 0)
    }

    /** Sends one frame, or the flush sentinel None, and yields the packets that come out. */
    method EncodeFrame(frame: Option<Frame>) returns (r: Result<seq<Packet>, EncoderError>)
      requires Valid() && state != Configured
      modifies this, log
      ensures Valid() && config == old(config)
      ensures log.events == old(log.events) + [EncodeCall(old(Kind()), frame)]
      ensures old(state) == Flushed ==> r == Err(EncoderClosed)
      ensures old(state) == Opened && frame.Some? && !Accepts(config, frame.value) ==>
                r == Err(FrameFormatError)
      ensures r.Err? ==> state == old(state) && inputs == old(inputs) && emitted == old(emitted)
      ensures old(state) == Opened && (frame.None? || Accepts(config, frame.value)) ==>
                && r == Ok(codec(old(inputs) + [frame]))
                && inputs == old(inputs) + [frame]
                && emitted == old(emitted) + r.value
                && state == (if frame.None? then Flushed else Opened)
    {
      log.events := log.events + [EncodeCall(Kind(), frame)];
      if state == Flushed {
        r := Err(EncoderClosed);
      } else if frame.Some? && !Accepts(config, frame.value) {
        r := Err(FrameFormatError);
      } else {
        var packets := Accept(frame);
        r := Ok(packets);
      }
    }

    /** The successful part of EncodeFrame: record the input and what the codec yields for it. */
    method Accept(frame: Option<Frame>) returns (packets: seq<Packet>)
      requires Valid() && state == Opened && (frame.None? || Accepts(config, frame.value))
      modifies this`inputs, this`emitted, this`state
      ensures Valid()
      ensures packets == codec(old(inputs) + [frame])
      ensures inputs == old(inputs) + [frame] && emitted == old(emitted) + packets
      ensures state == if frame.None? then Flushed else Opened
    {
      OutputStep(codec, inputs, frame);
      inputs := inputs + [frame];
      packets := codec(inputs);
      emitted := emitted + packets;
      if frame.None? {
        state := Flushed;
      }
    }
  }

  /** Converts a source frame into the encoder's pixel layout. The pixel planes are not
      modelled, so the converted frame is the destination frame as it was handed in. */
  class VideoFrameConverter {
    /** Every source frame converted so far. */
    ghost var sources: seq<Frame>

    constructor ()
      ensures sources == []
    {
      sources := [];
    }

    method ConvertFrame(source: Frame, destination: Frame) returns (converted: Frame)
      requires source.VideoFrame? && destination.VideoFrame?
      modifies this
      ensures converted == destination
      ensures sources == old(sources) + [source]
    {
      sources := sources + [source];
      converted := destination;
    }
  }
}
