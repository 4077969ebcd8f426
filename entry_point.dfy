/** The program itself: set up an mp4 container with an x264 video stream and an AAC audio
    stream, encode 20 seconds of video at 30 frames per second and then 20 seconds of mono
    44.1 kHz audio, and write every packet between the header and the trailer.

    The parts the program does not own are parameters of `Run`: what each codec emits
    (`videoCodec`, `audioCodec`), the time base the container format chooses for each stream
    when the header is written (`headerTimeBase`), and the timestamp rescale arithmetic
    (`rescale`). Test-pattern drawing, tone synthesis and the output file are not modelled. */
module EntryPoint {
  import opened Media
  import opened CallTrace
  import opened Encoding
  import opened Muxing
  import opened PacketFlow
  import opened AudioBlocks

  const SECONDS := 20
  const FRAME_COUNT := 30 * SECONDS
  const VIDEO_CONFIG := VideoConfig(Libx264, 800, 600, Rational(1, 30), Rational(1, 30), Yuv420p, true)
  const AUDIO_CONFIG := AudioConfig(Aac, 320000, Flt, 44100, 1, 1024, Rational(1, 44100))

  /** The body of a `foreach` over one encode call's output: rescale each packet from the
      encoder's time base to the stream's, tag it with the stream index and write it. */
  method WritePackets(formatContext: FormatContext, packets: seq<Packet>, from: Rational, index: nat,
                      rescale: Rescaler)
    requires formatContext.Valid() && formatContext.state == HeaderWritten && index < |formatContext.streams|
    modifies formatContext`packets, formatContext.log
    ensures formatContext.Valid()
    ensures formatContext.packets
            == old(formatContext.packets) + PrepareAll(packets, from, formatContext.streams[index].timeBase, index, rescale)
    ensures StreamingSince(old(formatContext.log.events), formatContext.log.events)
  {
    ghost var written := formatContext.packets;
    ghost var events := formatContext.log.events;
    for j := 0 to |packets|
      invariant formatContext.Valid()
      invariant formatContext.packets
                == written + PrepareAll(packets[..j], from, formatContext.streams[index].timeBase, index, rescale)
      invariant StreamingSince(events, formatContext.log.events)
    {
      var packet := Rescaled(packets[j], from, formatContext.streams[index].timeBase, rescale);
      packet := packet.(streamIndex := index);
      var outcome := formatContext.WritePacket(packet);
      assert outcome.Pass?;
      assert packets[..j + 1][..j] == packets[..j];
    }
    assert packets[..|packets|] == packets;
  }

  /** One `foreach (var packet in encoder.EncodeFrame(frame, packetRef))` statement: send the
      frame (or the flush sentinel None), then write every packet that comes out. */
  method EncodeAndWrite(formatContext: FormatContext, encoder: CodecContext, frame: Option<Frame>,
                        index: nat, rescale: Rescaler)
    requires formatContext.Valid() && formatContext.state == HeaderWritten && index < |formatContext.streams|
    requires encoder.Valid() && encoder.state == Opened && encoder.log == formatContext.log
    requires frame.None? || Accepts(encoder.config, frame.value)
    modifies formatContext`packets, formatContext.log, encoder
    ensures formatContext.Valid()
    ensures encoder.Valid() && encoder.config == old(encoder.config)
    ensures encoder.state == if frame.None? then Flushed else Opened
    ensures encoder.inputs == old(encoder.inputs) + [frame]
    ensures formatContext.packets == old(formatContext.packets)
              + PrepareAll(encoder.codec(encoder.inputs), encoder.config.timeBase,
                           formatContext.streams[index].timeBase, index, rescale)
    ensures encoder.emitted == old(encoder.emitted) + encoder.codec(encoder.inputs)
    ensures |old(formatContext.log.events)| < |formatContext.log.events|
    ensures StreamingSince(old(formatContext.log.events), formatContext.log.events)
  {
    var encoded := encoder.EncodeFrame(frame);
    assert encoded.Ok?;
    WritePackets(formatContext, encoded.value, encoder.config.timeBase, index, rescale);
  }

  /** The calls the program makes before streaming, in order: both streams before either
      encoder is opened; parameters and time bases copied after the encoders are opened; then
      the header. */
  const SETUP_EVENTS := [NewStreamCall(0, Libx264), NewStreamCall(1, Aac), OpenCall(Video), OpenCall(Audio),
                         CopyParametersCall(0, Video), SetTimeBaseCall(0, Rational(1, 30)),
                         CopyParametersCall(1, Audio), SetTimeBaseCall(1, Rational(1, 44100)),
                         WriteHeaderCall]

  /** Lines 18-43 of EntryPoint.Main: the container and both encoders, configured but not
      opened. The default channel layout for one channel is mono. */
  method CreateContexts(videoCodec: seq<Option<Frame>> -> seq<Packet>, audioCodec: seq<Option<Frame>> -> seq<Packet>,
                        headerTimeBase: (nat, Rational) -> Rational)
    returns (log: CallLog, formatContext: FormatContext, videoEncoder: CodecContext, audioEncoder: CodecContext)
    ensures fresh(log) && fresh(formatContext) && fresh(videoEncoder) && fresh(audioEncoder)
    ensures log.events == []
    ensures formatContext.log == log && videoEncoder.log == log && audioEncoder.log == log
    ensures formatContext.Valid() && formatContext.state == Unopened && formatContext.streams == []
    ensures formatContext.formatName == "mp4" && formatContext.headerTimeBase == headerTimeBase
    ensures formatContext.videoCodec == Some(Libx264) && formatContext.audioCodec == Some(Aac)
    ensures videoEncoder.Valid() && videoEncoder.state == Configured && videoEncoder.codec == videoCodec
    ensures videoEncoder.config == VIDEO_CONFIG && videoEncoder.inputs == [] && videoEncoder.emitted == []
    ensures audioEncoder.Valid() && audioEncoder.state == Configured && audioEncoder.codec == audioCodec
    ensures audioEncoder.config == AUDIO_CONFIG && audioEncoder.inputs == [] && audioEncoder.emitted == []
  {
    log := new CallLog();
    formatContext := new FormatContext.AllocOutput("mp4", headerTimeBase, log);
    formatContext.videoCodec := Some(Libx264);
    formatContext.audioCodec := Some(Aac);
    videoEncoder := new CodecContext(
      VideoConfig(formatContext.videoCodec.value, 800, 600, Rational(1, 30), Rational(1, 30), Yuv420p, true),
      videoCodec, log);
    audioEncoder := new CodecContext(
      AudioConfig(formatContext.audioCodec.value, 320000, Flt, 44100, 1, 1024, Rational(1, 44100)),
      audioCodec, log);
  }

  /** Lines 45-53 of EntryPoint.Main: one stream per encoder, then both encoders opened, the
      audio one with the option "frame_size" = 1024. Every call succeeds. */
  method OpenStreams(formatContext: FormatContext, videoEncoder: CodecContext, audioEncoder: CodecContext)
    returns (videoStream: nat, audioStream: nat)
    requires formatContext.Valid() && formatContext.state == Unopened && formatContext.streams == []
    requires formatContext.videoCodec == Some(Libx264) && formatContext.audioCodec == Some(Aac)
    requires videoEncoder.Valid() && videoEncoder.state == Configured && videoEncoder.config == VIDEO_CONFIG
    requires audioEncoder.Valid() && audioEncoder.state == Configured && audioEncoder.config == AUDIO_CONFIG
    requires videoEncoder != audioEncoder && videoEncoder.log == formatContext.log && audioEncoder.log == formatContext.log
    modifies formatContext`streams, formatContext.log, videoEncoder, audioEncoder
    ensures videoStream == 0 && audioStream == 1
    ensures formatContext.Valid()
    ensures formatContext.streams == [StreamEntry(Libx264, None, UNSET_TIME_BASE), StreamEntry(Aac, None, UNSET_TIME_BASE)]
    ensures formatContext.log.events == old(formatContext.log.events) + SETUP_EVENTS[..4]
    ensures videoEncoder.Valid() && videoEncoder.state == Opened && videoEncoder.config == VIDEO_CONFIG
    ensures videoEncoder.inputs == old(videoEncoder.inputs) && videoEncoder.emitted == old(videoEncoder.emitted)
    ensures audioEncoder.Valid() && audioEncoder.state == Opened && audioEncoder.config == AUDIO_CONFIG
    ensures audioEncoder.inputs == old(audioEncoder.inputs) && audioEncoder.emitted == old(audioEncoder.emitted)
  {
    var created := formatContext.NewStream(formatContext.videoCodec.value);
    videoStream := created.value;
    created := formatContext.NewStream(formatContext.audioCodec.value);
    audioStream := created.value;

    var openOutcome := videoEncoder.Open(None);
    assert openOutcome.Pass?;
    openOutcome := audioEncoder.Open(Some(1024));
    assert openOutcome.Pass?;
  }

  /** Lines 56-60 of EntryPoint.Main: each stream gets its encoder's parameters and then its
      encoder's time base. */
  method CopyStreamParameters(formatContext: FormatContext, videoEncoder: CodecContext, audioEncoder: CodecContext)
    requires formatContext.Valid() && formatContext.state == Unopened
    requires formatContext.streams == [StreamEntry(Libx264, None, UNSET_TIME_BASE), StreamEntry(Aac, None, UNSET_TIME_BASE)]
    requires videoEncoder.state == Opened && videoEncoder.config == VIDEO_CONFIG
    requires audioEncoder.state == Opened && audioEncoder.config == AUDIO_CONFIG
    modifies formatContext`streams, formatContext.log
    ensures formatContext.Valid()
    ensures formatContext.streams == [StreamEntry(Libx264, Some(VIDEO_CONFIG), Rational(1, 30)),
                                      StreamEntry(Aac, Some(AUDIO_CONFIG), Rational(1, 44100))]
    ensures formatContext.log.events == old(formatContext.log.events) + SETUP_EVENTS[4..8]
  {
    var outcome := formatContext.CopyParameters(0, videoEncoder);
    assert outcome.Pass?;
    outcome := formatContext.SetTimeBase(0, videoEncoder.config.timeBase);
    assert outcome.Pass?;
    outcome := formatContext.CopyParameters(1, audioEncoder);
    assert outcome.Pass?;
    outcome := formatContext.SetTimeBase(1, audioEncoder.config.timeBase);
    assert outcome.Pass?;
  }

  /** Lines 18-75 of EntryPoint.Main: the container, both encoders, both streams, and the
      header. Every call succeeds. */
  method Setup(videoCodec: seq<Option<Frame>> -> seq<Packet>, audioCodec: seq<Option<Frame>> -> seq<Packet>,
               headerTimeBase: (nat, Rational) -> Rational)
    returns (formatContext: FormatContext, videoEncoder: CodecContext, audioEncoder: CodecContext,
             frameConverter: VideoFrameConverter, log: CallLog, videoStream: nat, audioStream: nat)
    ensures fresh(formatContext) && fresh(videoEncoder) && fresh(audioEncoder) && fresh(frameConverter) && fresh(log)
    ensures videoEncoder != audioEncoder
    ensures formatContext.log == log && videoEncoder.log == log && audioEncoder.log == log
    ensures videoEncoder.codec == videoCodec && audioEncoder.codec == audioCodec
    ensures videoStream == 0 && audioStream == 1
    ensures log.events == SETUP_EVENTS
    ensures formatContext.Valid() && formatContext.state == HeaderWritten && formatContext.packets == []
    ensures formatContext.streams == [StreamEntry(Libx264, Some(VIDEO_CONFIG), headerTimeBase(0, Rational(1, 30))),
                                      StreamEntry(Aac, Some(AUDIO_CONFIG), headerTimeBase(1, Rational(1, 44100)))]
    ensures videoEncoder.Valid() && videoEncoder.state == Opened && videoEncoder.config == VIDEO_CONFIG
    ensures videoEncoder.inputs == [] && videoEncoder.emitted == []
    ensures audioEncoder.Valid() && audioEncoder.state == Opened && audioEncoder.config == AUDIO_CONFIG
    ensures audioEncoder.inputs == [] && audioEncoder.emitted == []
    ensures frameConverter.sources == []
  {
    log, formatContext, videoEncoder, audioEncoder := CreateContexts(videoCodec, audioCodec, headerTimeBase);
    videoStream, audioStream := OpenStreams(formatContext, videoEncoder, audioEncoder);
    CopyStreamParameters(formatContext, videoEncoder, audioEncoder);
    frameConverter := new VideoFrameConverter();
    var header := formatContext.WriteHeader();
    assert header.Pass?;
    assert SETUP_EVENTS[..4] + SETUP_EVENTS[4..8] + [WriteHeaderCall] == SETUP_EVENTS;
  }

  /** One pass of the video loop (lines 83-110 of EntryPoint.Main): draw frame i as RGBA,
      convert it into a blank frame of the encoder's layout, give it pts i and encode it.
      `written` and `events` are the output and the log as the loop found them. */
  method EncodeVideoFrame(formatContext: FormatContext, videoEncoder: CodecContext, frameConverter: VideoFrameConverter,
                          videoStream: nat, i: nat, rescale: Rescaler,
                          ghost written: seq<Packet>, ghost events: seq<Event>)
    requires formatContext.Valid() && formatContext.state == HeaderWritten && videoStream < |formatContext.streams|
    requires videoEncoder.Valid() && videoEncoder.state == Opened && videoEncoder.config == VIDEO_CONFIG
    requires videoEncoder.log == formatContext.log
    requires formatContext.packets
             == written + PrepareAll(videoEncoder.emitted, Rational(1, 30),
                                     formatContext.streams[videoStream].timeBase, videoStream, rescale)
    requires StreamingSince(events, formatContext.log.events)
    modifies formatContext`packets, formatContext.log, videoEncoder, frameConverter
    ensures formatContext.Valid()
    ensures videoEncoder.Valid() && videoEncoder.state == Opened && videoEncoder.config == VIDEO_CONFIG
    ensures videoEncoder.inputs == old(videoEncoder.inputs) + [Some(VideoFrame(800, 600, Yuv420p, i))]
    ensures frameConverter.sources == old(frameConverter.sources) + [VideoFrame(800, 600, Rgba, i)]
    ensures formatContext.packets
            == written + PrepareAll(videoEncoder.emitted, Rational(1, 30),
                                    formatContext.streams[videoStream].timeBase, videoStream, rescale)
    ensures StreamingSince(events, formatContext.log.events)
  {
    ghost var emitted := videoEncoder.emitted;
    ghost var logged := formatContext.log.events;
    // The drawn test pattern is not modelled, only the frame's geometry, layout and pts.
    var frame := VideoFrame(800, 600, Rgba, i);
    var convertedFrame := videoEncoder.CreateFrame();
    convertedFrame := frameConverter.ConvertFrame(frame, convertedFrame);
    convertedFrame := VideoFrame(convertedFrame.width, convertedFrame.height, convertedFrame.pixelFormat, i);
    EncodeAndWrite(formatContext, videoEncoder, Some(convertedFrame), videoStream, rescale);
    PrepareAllExtend(written, emitted, videoEncoder.codec(videoEncoder.inputs), Rational(1, 30),
                     formatContext.streams[videoStream].timeBase, videoStream, rescale);
    StreamingSinceTransitive(events, logged, formatContext.log.events);
  }

  /** Lines 113-120 of EntryPoint.Main: the flush sentinel, and every packet it drains written
      like the others. */
  method FlushVideo(formatContext: FormatContext, videoEncoder: CodecContext, videoStream: nat, rescale: Rescaler,
                    ghost written: seq<Packet>, ghost events: seq<Event>)
    requires formatContext.Valid() && formatContext.state == HeaderWritten && videoStream < |formatContext.streams|
    requires videoEncoder.Valid() && videoEncoder.state == Opened && videoEncoder.log == formatContext.log
    requires formatContext.packets
             == written + PrepareAll(videoEncoder.emitted, videoEncoder.config.timeBase,
                                     formatContext.streams[videoStream].timeBase, videoStream, rescale)
    requires StreamingSince(events, formatContext.log.events)
    modifies formatContext`packets, formatContext.log, videoEncoder
    ensures formatContext.Valid()
    ensures videoEncoder.Valid() && videoEncoder.state == Flushed && videoEncoder.config == old(videoEncoder.config)
    ensures videoEncoder.inputs == old(videoEncoder.inputs) + [None]
    ensures formatContext.packets
            == written + PrepareAll(videoEncoder.emitted, videoEncoder.config.timeBase,
                                    formatContext.streams[videoStream].timeBase, videoStream, rescale)
    ensures |events| < |formatContext.log.events| && StreamingSince(events, formatContext.log.events)
  {
    ghost var emitted := videoEncoder.emitted;
    ghost var logged := formatContext.log.events;
    EncodeAndWrite(formatContext, videoEncoder, None, videoStream, rescale);
    PrepareAllExtend(written, emitted, videoEncoder.codec(videoEncoder.inputs), videoEncoder.config.timeBase,
                     formatContext.streams[videoStream].timeBase, videoStream, rescale);
    StreamingSinceTransitive(events, logged, formatContext.log.events);
  }

  /** Lines 80-120 of EntryPoint.Main: `frameCount` frames with pts 0, 1, ..., each drawn as
      RGBA, converted to the encoder's layout and encoded; then one flush. */
  method EncodeVideo(formatContext: FormatContext, videoEncoder: CodecContext, frameConverter: VideoFrameConverter,
                     videoStream: nat, frameCount: nat, rescale: Rescaler)
    requires formatContext.Valid() && formatContext.state == HeaderWritten && videoStream < |formatContext.streams|
    requires videoEncoder.Valid() && videoEncoder.state == Opened && videoEncoder.config == VIDEO_CONFIG
    requires videoEncoder.inputs == [] && videoEncoder.emitted == [] && videoEncoder.log == formatContext.log
    requires frameConverter.sources == []
    modifies formatContext`packets, formatContext.log, videoEncoder, frameConverter
    ensures formatContext.Valid()
    ensures videoEncoder.Valid() && videoEncoder.state == Flushed && videoEncoder.config == VIDEO_CONFIG
    // Frame k is drawn as RGBA with pts k and handed over in the encoder's layout with pts k;
    // the flush comes last.
    ensures |frameConverter.sources| == frameCount
    ensures forall k :: 0 <= k < frameCount ==> frameConverter.sources[k] == VideoFrame(800, 600, Rgba, k)
    ensures |videoEncoder.inputs| == frameCount + 1 && videoEncoder.inputs[frameCount] == None
    ensures forall k :: 0 <= k < frameCount ==> videoEncoder.inputs[k] == Some(VideoFrame(800, 600, Yuv420p, k))
    // Every packet the encoder yields, call after call, reaches the container.
    ensures videoEncoder.emitted == Output(videoEncoder.codec, videoEncoder.inputs)
    ensures formatContext.packets == old(formatContext.packets)
              + PrepareAll(videoEncoder.emitted, Rational(1, 30), formatContext.streams[videoStream].timeBase, videoStream, rescale)
    ensures |old(formatContext.log.events)| < |formatContext.log.events|
    ensures StreamingSince(old(formatContext.log.events), formatContext.log.events)
  {
    ghost var log := formatContext.log;
    ghost var events := log.events;
    ghost var written := formatContext.packets;
    ghost var to := formatContext.streams[videoStream].timeBase;
    for i := 0 to frameCount
      invariant formatContext.Valid()
      invariant videoEncoder.Valid() && videoEncoder.state == Opened && videoEncoder.config == VIDEO_CONFIG
      invariant |frameConverter.sources| == i && |videoEncoder.inputs| == i
      invariant forall k :: 0 <= k < i ==> frameConverter.sources[k] == VideoFrame(800, 600, Rgba, k)
      invariant forall k :: 0 <= k < i ==> videoEncoder.inputs[k] == Some(VideoFrame(800, 600, Yuv420p, k))
      invariant formatContext.packets == written + PrepareAll(videoEncoder.emitted, Rational(1, 30), to, videoStream, rescale)
      invariant StreamingSince(events, log.events)
    {
      EncodeVideoFrame(formatContext, videoEncoder, frameConverter, videoStream, i, rescale, written, events);
    }

    FlushVideo(formatContext, videoEncoder, videoStream, rescale, written, events);
  }

  /** One pass of the audio loop (lines 152-167 of EntryPoint.Main): the frame of
      `frameSampleCount` samples starting at sample i, with pts i, encoded. `written` and
      `events` are the output and the log as the loop found them. */
  method EncodeAudioBlock(formatContext: FormatContext, audioEncoder: CodecContext, audioStream: nat,
                          i: int, frameSampleCount: int, rescale: Rescaler,
                          ghost written: seq<Packet>, ghost events: seq<Event>)
    requires formatContext.Valid() && formatContext.state == HeaderWritten && audioStream < |formatContext.streams|
    requires audioEncoder.Valid() && audioEncoder.state == Opened && audioEncoder.config == AUDIO_CONFIG
    requires audioEncoder.log == formatContext.log && frameSampleCount == AUDIO_CONFIG.frameSize
    requires formatContext.packets
             == written + PrepareAll(audioEncoder.emitted, Rational(1, 44100),
                                     formatContext.streams[audioStream].timeBase, audioStream, rescale)
    requires StreamingSince(events, formatContext.log.events)
    modifies formatContext`packets, formatContext.log, audioEncoder
    ensures formatContext.Valid()
    ensures audioEncoder.Valid() && audioEncoder.state == Opened && audioEncoder.config == AUDIO_CONFIG
    ensures audioEncoder.inputs == old(audioEncoder.inputs) + [Some(BlockFrame(i, 1024, 1, 44100))]
    ensures formatContext.packets
            == written + PrepareAll(audioEncoder.emitted, Rational(1, 44100),
                                    formatContext.streams[audioStream].timeBase, audioStream, rescale)
    ensures StreamingSince(events, formatContext.log.events)
  {
    ghost var emitted := audioEncoder.emitted;
    ghost var logged := formatContext.log.events;
    // The frame points at sample i of the buffer and carries pts i.
    var frame := AudioFrame(Flt, frameSampleCount, audioEncoder.config.channels, 44100, i, i);
    EncodeAndWrite(formatContext, audioEncoder, Some(frame), audioStream, rescale);
    PrepareAllExtend(written, emitted, audioEncoder.codec(audioEncoder.inputs), Rational(1, 44100),
                     formatContext.streams[audioStream].timeBase, audioStream, rescale);
    StreamingSinceTransitive(events, logged, formatContext.log.events);
  }

  /** Lines 124-171 of EntryPoint.Main: cut a buffer of `samplesLength` samples into blocks of
      the encoder's frame size and encode each; the partial last block is dropped, and the
      audio encoder is never flushed. */
  method EncodeAudio(formatContext: FormatContext, audioEncoder: CodecContext, audioStream: nat,
                     samplesLength: nat, rescale: Rescaler)
    requires formatContext.Valid() && formatContext.state == HeaderWritten && audioStream < |formatContext.streams|
    requires audioEncoder.Valid() && audioEncoder.state == Opened && audioEncoder.config == AUDIO_CONFIG
    requires audioEncoder.inputs == [] && audioEncoder.emitted == [] && audioEncoder.log == formatContext.log
    modifies formatContext`packets, formatContext.log, audioEncoder
    ensures formatContext.Valid()
    ensures audioEncoder.Valid() && audioEncoder.state == Opened && audioEncoder.config == AUDIO_CONFIG
    // Block k holds the 1024 samples from sample k * 1024 on and carries pts k * 1024; the
    // blocks are those that end before the last sample.
    ensures |audioEncoder.inputs| == BlockCount(samplesLength, 1024)
    ensures |audioEncoder.inputs| == if samplesLength > 0 then (samplesLength - 1) / 1024 else 0
    ensures forall k :: 0 <= k < |audioEncoder.inputs| ==>
              audioEncoder.inputs[k] == Some(BlockFrame(k * 1024, 1024, 1, 44100))
    // No block reads past the end of the buffer.
    ensures forall k :: 0 <= k < |audioEncoder.inputs| ==> k * 1024 + 1024 < samplesLength
    // Every packet the encoder yields, call after call, reaches the container.
    ensures audioEncoder.emitted == Output(audioEncoder.codec, audioEncoder.inputs)
    ensures formatContext.packets == old(formatContext.packets)
              + PrepareAll(audioEncoder.emitted, Rational(1, 44100), formatContext.streams[audioStream].timeBase, audioStream, rescale)
    ensures StreamingSince(old(formatContext.log.events), formatContext.log.events)
  {
    ghost var log := formatContext.log;
    ghost var events := log.events;
    ghost var written := formatContext.packets;
    ghost var to := formatContext.streams[audioStream].timeBase;
    var maxSampleCount := audioEncoder.config.frameSize;
    ghost var blocks: nat := 0;
    var i := 0;
    while i < samplesLength
      invariant i == blocks * 1024 && blocks <= BlockCount(samplesLength, 1024)
      invariant i < samplesLength || blocks == 0
      invariant formatContext.Valid()
      invariant audioEncoder.Valid() && audioEncoder.state == Opened && audioEncoder.config == AUDIO_CONFIG
      invariant |audioEncoder.inputs| == blocks
      invariant forall k :: 0 <= k < blocks ==> audioEncoder.inputs[k] == Some(BlockFrame(k * 1024, 1024, 1, 44100))
      invariant forall k :: 0 <= k < blocks ==> k * 1024 + 1024 < samplesLength
      invariant formatContext.packets == written + PrepareAll(audioEncoder.emitted, Rational(1, 44100), to, audioStream, rescale)
      invariant StreamingSince(events, log.events)
      decreases samplesLength - i
    {
      var frameSampleCount := maxSampleCount;
      BlockCountCharacterised(samplesLength, 1024, blocks);
      if frameSampleCount + i >= samplesLength {
        break;
      }

      EncodeAudioBlock(formatContext, audioEncoder, audioStream, i, frameSampleCount, rescale, written, events);

      i := i + frameSampleCount;
      blocks := blocks + 1;
    }
    if samplesLength > 0 {
      assert blocks == BlockCount(samplesLength, 1024);
    }
    BlockCountClosedForm(samplesLength, 1024);
  }

  /** Lines 77-175 of EntryPoint.Main: the video, then the audio, then the trailer. */
  method StreamAndClose(formatContext: FormatContext, videoEncoder: CodecContext, audioEncoder: CodecContext,
                        frameConverter: VideoFrameConverter, rescale: Rescaler)
    requires formatContext.Valid() && formatContext.state == HeaderWritten && formatContext.packets == []
    requires |formatContext.streams| == 2
    requires videoEncoder.Valid() && videoEncoder.state == Opened && videoEncoder.config == VIDEO_CONFIG
    requires videoEncoder.inputs == [] && videoEncoder.emitted == []
    requires audioEncoder.Valid() && audioEncoder.state == Opened && audioEncoder.config == AUDIO_CONFIG
    requires audioEncoder.inputs == [] && audioEncoder.emitted == []
    requires videoEncoder != audioEncoder && frameConverter.sources == []
    requires videoEncoder.log == formatContext.log && audioEncoder.log == formatContext.log
    modifies formatContext`packets, formatContext`state, formatContext.log, videoEncoder, audioEncoder, frameConverter
    ensures |old(formatContext.log.events)| + 1 < |formatContext.log.events|
    ensures formatContext.log.events[..|old(formatContext.log.events)|] == old(formatContext.log.events)
    ensures StreamingSince(old(formatContext.log.events), formatContext.log.events[..|formatContext.log.events| - 1])
    ensures formatContext.log.events[|formatContext.log.events| - 1] == WriteTrailerCall
    ensures formatContext.state == TrailerWritten
    ensures |frameConverter.sources| == FRAME_COUNT
    ensures forall k :: 0 <= k < FRAME_COUNT ==> frameConverter.sources[k] == VideoFrame(800, 600, Rgba, k)
    ensures |videoEncoder.inputs| == FRAME_COUNT + 1 && videoEncoder.inputs[FRAME_COUNT] == None
    ensures forall k :: 0 <= k < FRAME_COUNT ==> videoEncoder.inputs[k] == Some(VideoFrame(800, 600, Yuv420p, k))
    ensures videoEncoder.state == Flushed
    ensures |audioEncoder.inputs| == 861
    ensures forall k :: 0 <= k < 861 ==> audioEncoder.inputs[k] == Some(BlockFrame(k * 1024, 1024, 1, 44100))
    ensures audioEncoder.state == Opened
    ensures videoEncoder.emitted == Output(videoEncoder.codec, videoEncoder.inputs)
    ensures audioEncoder.emitted == Output(audioEncoder.codec, audioEncoder.inputs)
    ensures formatContext.packets
            == PrepareAll(Output(videoEncoder.codec, videoEncoder.inputs), Rational(1, 30), formatContext.streams[0].timeBase, 0, rescale)
               + PrepareAll(Output(audioEncoder.codec, audioEncoder.inputs), Rational(1, 44100), formatContext.streams[1].timeBase, 1, rescale)
  {
    ghost var log := formatContext.log;
    ghost var events := log.events;
    var seconds := SECONDS;
    EncodeVideo(formatContext, videoEncoder, frameConverter, 0, 30 * seconds, rescale);
    ghost var afterVideo := log.events;
    ghost var videoPackets := formatContext.packets;
    assert videoPackets == PrepareAll(videoEncoder.emitted, Rational(1, 30), formatContext.streams[0].timeBase, 0, rescale);
    EncodeAudio(formatContext, audioEncoder, 1, seconds * 44100, rescale);
    ghost var streamed := log.events;
    StreamingSinceTransitive(events, afterVideo, streamed);

    var trailer := formatContext.WriteTrailer();
    assert trailer.Pass?;
    assert log.events[..|log.events| - 1] == streamed;
  }

  /** EntryPoint.Main. Every library call it makes succeeds (none returns an error); the
      contract records the whole call order and what ends up in the container. */
  method Run(videoCodec: seq<Option<Frame>> -> seq<Packet>, audioCodec: seq<Option<Frame>> -> seq<Packet>,
             headerTimeBase: (nat, Rational) -> Rational, rescale: Rescaler)
    returns (formatContext: FormatContext, videoEncoder: CodecContext, audioEncoder: CodecContext,
             frameConverter: VideoFrameConverter, log: CallLog)
    ensures formatContext.log == log && videoEncoder.log == log && audioEncoder.log == log
    // The setup calls, then only encode calls and packet writes, then the trailer.
    ensures |log.events| > 10 && log.events[..9] == SETUP_EVENTS
    ensures StreamingSince(SETUP_EVENTS, log.events[..|log.events| - 1])
    ensures log.events[|log.events| - 1] == WriteTrailerCall
    ensures formatContext.state == TrailerWritten
    ensures formatContext.streams == [StreamEntry(Libx264, Some(VIDEO_CONFIG), headerTimeBase(0, Rational(1, 30))),
                                      StreamEntry(Aac, Some(AUDIO_CONFIG), headerTimeBase(1, Rational(1, 44100)))]
    // Video: 600 frames with pts 0..599, each drawn as RGBA and handed to the encoder in its
    // own layout with the same pts, then one flush.
    ensures |frameConverter.sources| == FRAME_COUNT
    ensures forall k :: 0 <= k < FRAME_COUNT ==> frameConverter.sources[k] == VideoFrame(800, 600, Rgba, k)
    ensures |videoEncoder.inputs| == FRAME_COUNT + 1 && videoEncoder.inputs[FRAME_COUNT] == None
    ensures forall k :: 0 <= k < FRAME_COUNT ==> videoEncoder.inputs[k] == Some(VideoFrame(800, 600, Yuv420p, k))
    ensures videoEncoder.state == Flushed
    // Audio: the 861 whole blocks of 1024 samples of the 20-second buffer, block k starting at
    // sample k * 1024 and carrying that as its pts; the partial last block is dropped, no flush.
    ensures |audioEncoder.inputs| == 861
    ensures forall k :: 0 <= k < 861 ==> audioEncoder.inputs[k] == Some(BlockFrame(k * 1024, 1024, 1, 44100))
    ensures audioEncoder.state == Opened
    // The container holds every packet the video codec yields for those inputs, then every packet
    // the audio codec yields for its inputs, each rescaled once and tagged.
    ensures videoEncoder.codec == videoCodec && audioEncoder.codec == audioCodec
    ensures formatContext.packets
            == PrepareAll(Output(videoCodec, videoEncoder.inputs), Rational(1, 30), formatContext.streams[0].timeBase, 0, rescale)
               + PrepareAll(Output(audioCodec, audioEncoder.inputs), Rational(1, 44100), formatContext.streams[1].timeBase, 1, rescale)
  {
    var videoStream, audioStream;
    formatContext, videoEncoder, audioEncoder, frameConverter, log, videoStream, audioStream :=
      Setup(videoCodec, audioCodec, headerTimeBase);
    StreamAndClose(formatContext, videoEncoder, audioEncoder, frameConverter, rescale);
    assert log.events[..9] == SETUP_EVENTS;
  }
}
