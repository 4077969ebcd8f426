# FFmpegTest entry point: an encode-and-mux pipeline in Dafny

`FfmpegTest/EntryPoint.cs` is a single `Main` that uses the Sdcb.FFmpeg bindings to produce
`output.mp4`. It does the following, in order:

- allocates an mp4 output `FormatContext`;
- configures an x264 video encoder (800x600, 1/30, YUV420P) and an AAC audio encoder
  (44.1 kHz, mono, float samples, 1024-sample frames);
- creates one stream per encoder, opens both encoders, and copies each encoder's parameters and
  time base into its stream;
- writes the header;
- encodes 20 seconds of video, frame by frame, and flushes the video encoder;
- cuts 20 seconds of audio samples into 1024-sample frames and encodes them;
- writes the trailer.

Every packet that comes out of an encoder is rescaled from the encoder's time base to its
stream's time base, tagged with the stream index and written to the container.

The model is imperative, like the program. Each module follows one part of the program:

- `Muxing.FormatContext` is a class. It holds the lifecycle state (Unopened, HeaderWritten,
  TrailerWritten), the stream table and the packets written so far.
- `Encoding.CodecContext` is a class. It holds the configuration, the state (Configured, Opened,
  Flushed), every input handed to `EncodeFrame` (a frame, or `None` for the flush) and a ghost
  record of every packet emitted. Its invariant ties that record to the codec: it is always
  `Output(codec, inputs)`, the codec's yield for each prefix of the inputs, concatenated.
- `Encoding.VideoFrameConverter` records the source frames it converts.
- The operations the program calls append an event to a shared ghost `CallTrace.CallLog`,
  whether they succeed or not: `NewStream`, `CopyParameters`, `SetTimeBase`, `WriteHeader`,
  `WritePacket` and `WriteTrailer` of `FormatContext`, and `Open` and `EncodeFrame` of
  `CodecContext`. This lets the order of calls across objects be stated. `CodecContext.Accept` is
  the unlogged success step inside `EncodeFrame`. Frame creation and pixel conversion are not
  logged.
- `EntryPoint.Run` is `Main`. It is split into methods that follow the program's own blocks:
  - setup (`CreateContexts`, `OpenStreams`, `CopyStreamParameters`, `Setup`);
  - the video loop and its flush (`EncodeVideoFrame`, `FlushVideo`, `EncodeVideo`);
  - the audio loop, with the source's `break` (`EncodeAudioBlock`, `EncodeAudio`);
  - the trailer (`StreamAndClose`);
  - the three `foreach packet` blocks, which are one method (`EncodeAndWrite` / `WritePackets`).

What the library does is a parameter of `Run`:

- which packets a codec emits (`videoCodec`, `audioCodec`), given every input so far;
- the time base the mp4 muxer settles on for each stream when the header is written
  (`headerTimeBase`);
- the timestamp rescale arithmetic (`rescale`).

Library errors are modelled as `Outcome` / `Result` values. The error kinds modelled are
`CodecOpenError`, `FrameFormatError`, `EncoderClosed`, `InvalidState`, `StreamIndexOutOfRange`
and `HeaderWriteError`. The muxer refuses to change a stream's parameters or time base once the
header is written. The program checks none of these errors. The model proves that none of them
can occur in `Main`'s call sequence.

`Run`'s contract states the following:

- The setup calls happen in the program's order:
  - both streams are created before either encoder is opened;
  - parameters and time bases are copied after opening;
  - the header is written once, after all of these.
- After the header there are only encode calls and packet writes, then exactly one trailer.
- Video frame k (k < 600) is drawn as RGBA with pts k and is handed to the encoder as YUV420P
  800x600 with pts k. One flush follows.
- The audio encoder receives exactly 861 frames. Frame k holds the 1024 samples starting at
  sample k*1024 and carries pts k*1024. It is never flushed.
- The container holds every packet the video codec yields for those inputs, then every packet
  the audio codec yields for its inputs (`Output(videoCodec, ...)`, `Output(audioCodec, ...)`).
  Each packet is rescaled once from its encoder's time base to its stream's and is tagged with
  its stream's index.

The block arithmetic of the audio loop is proved in `AudioBlocks`. Block k is emitted exactly
when (k+1)*1024 < L. The closed form is (L-1)/1024 blocks. Between 1 and 1024 samples are
dropped. A buffer that is an exact multiple of the frame size loses its last full block.

Points where the code does something a reader might not expect:

- **Audio block count.** One might expect floor(L/F) full audio blocks. The loop's guard
  `frameSampleCount + i >= samples.Length` (line 146) gives (L-1)/F. The two differ only when F
  divides L (`AudioBlocks.ExactFitDropsLastBlock`). For the program's L = 882000 both give 861.
- **Stream time base.** The code assigns `TimeBase` after `CopyFrom` (lines 57 and 60), and the
  muxer may replace it again at `WriteHeader`. Packets are rescaled to the time base the stream
  has after the header.
- **Audio flush.** The code flushes only the video encoder. The model proves that the audio
  encoder's inputs contain no flush.

## Model

| member | source | states |
|---|---|---|
| Encoding.WithOptions | FfmpegTest/EntryPoint.cs:50-53 | the "frame_size" option overrides an audio encoder's frame size and leaves its kind and time base alone; a video configuration, or no option, is left unchanged |
| Encoding.CodecContext.constructor | FfmpegTest/EntryPoint.cs:22-44 | a new encoder holds exactly the given configuration, is Configured and has received nothing |
| Encoding.CodecContext.Open | FfmpegTest/EntryPoint.cs:49-53 | opening succeeds exactly when the encoder is still Configured and its configuration, after the options, is complete; on success the options are applied; on failure nothing changes; inputs are untouched |
| Encoding.CodecContext.CreateFrame | FfmpegTest/EntryPoint.cs:98 | the blank frame has the encoder's geometry and pixel format, so the encoder accepts it |
| Encoding.OutputGrows | FfmpegTest/EntryPoint.cs:103-113 | what an encoder has emitted is never taken back: more input only appends to its output |
| Encoding.CodecContext.Accept | FfmpegTest/EntryPoint.cs:103-113 | an accepted frame or flush is recorded, the codec's yield for all inputs so far is returned and added to what was emitted, keeping emitted = Output(codec, inputs) |
| Encoding.CodecContext.EncodeFrame | FfmpegTest/EntryPoint.cs:103-113 | after the flush every call fails with EncoderClosed; a frame of the wrong shape fails with FrameFormatError and changes nothing; otherwise the input is recorded, the packets the codec yields for all inputs so far are returned and recorded, and the flush sentinel moves the encoder to Flushed |
| Encoding.VideoFrameConverter.ConvertFrame | FfmpegTest/EntryPoint.cs:100 | the converted frame is the destination frame, and the source frame is recorded |
| Muxing.Retimed | FfmpegTest/EntryPoint.cs:75 | retiming at the header keeps the number of streams and each stream's codec and parameters, so every stream still has its parameters exactly when it had them before |
| Muxing.FormatContext.AllocOutput | FfmpegTest/EntryPoint.cs:18 | a new container is Unopened with no streams and no packets, for the given format |
| Muxing.FormatContext.NewStream | FfmpegTest/EntryPoint.cs:46-47 | before the header a new stream with an unset time base is appended and its index is the next free one; after the header the call fails with InvalidState and the table is unchanged |
| Muxing.FormatContext.CopyParameters | FfmpegTest/EntryPoint.cs:56-59 | before the header, an opened encoder's configuration becomes the parameters of exactly that stream; after it, the call fails with InvalidState and the table is unchanged |
| Muxing.FormatContext.SetTimeBase | FfmpegTest/EntryPoint.cs:57-60 | before the header, exactly that stream's time base is replaced; after it, the call fails with InvalidState, so the rescale target cannot change while streaming |
| Muxing.FormatContext.WriteHeader | FfmpegTest/EntryPoint.cs:75 | succeeds exactly when the header was not yet written and every stream has parameters; the streams are then retimed; on failure nothing changes |
| Muxing.FormatContext.WritePacket | FfmpegTest/EntryPoint.cs:109-119 | fails with InvalidState outside HeaderWritten and with StreamIndexOutOfRange for an unknown stream, leaving the output as it was; otherwise the packet is appended (the same call at line 166) |
| Muxing.FormatContext.WriteTrailer | FfmpegTest/EntryPoint.cs:175 | succeeds exactly when the header was written and the trailer was not, and then closes the container; packets and streams are unchanged |
| PacketFlow.PrepareAllElements | FfmpegTest/EntryPoint.cs:105-106 | every packet handed to the muxer is tagged with the stream index and has pts, dts and duration rescaled once from the encoder's time base to the stream's; none is dropped, added or reordered |
| PacketFlow.PrepareAllAppend | FfmpegTest/EntryPoint.cs:103-110 | preparing the packets of successive encode calls one call at a time equals preparing all of them at once |
| AudioBlocks.BlockCountCharacterised | FfmpegTest/EntryPoint.cs:143-150 | block k is emitted if and only if it ends strictly before the end of the buffer, (k+1)*F < L |
| AudioBlocks.DroppedTail | FfmpegTest/EntryPoint.cs:143-150 | for a non-empty buffer, between 1 and F trailing samples are dropped: nothing is padded and at most one block's worth is lost |
| AudioBlocks.BlockCountClosedForm | FfmpegTest/EntryPoint.cs:143-150 | the loop emits (L-1)/F blocks for a non-empty buffer and none for an empty one |
| AudioBlocks.ExactFitDropsLastBlock | FfmpegTest/EntryPoint.cs:146-150 | when F divides L, the last full block is not emitted: L/F - 1 blocks, and F samples are dropped |
| AudioBlocks.TestMovieBlockCount | FfmpegTest/EntryPoint.cs:126-150 | 20 seconds at 44100 Hz in frames of 1024 samples give 861 blocks and drop 336 samples |
| EntryPoint.WritePackets | FfmpegTest/EntryPoint.cs:103-110 | every packet of one encode call is written, in order, rescaled and tagged, and only encode and write events are logged |
| EntryPoint.EncodeAndWrite | FfmpegTest/EntryPoint.cs:103-120 | one encode call on an opened encoder succeeds, records the frame or the flush, and everything it yields reaches the container rescaled and tagged (the audio copy is lines 161-167) |
| EntryPoint.CreateContexts | FfmpegTest/EntryPoint.cs:18-44 | the mp4 container and both encoders are fresh, share one log, and hold exactly the program's video and audio configurations |
| EntryPoint.OpenStreams | FfmpegTest/EntryPoint.cs:46-53 | streams 0 (x264) and 1 (AAC) are created before either encoder is opened, and both encoders open successfully with their configurations unchanged |
| EntryPoint.CopyStreamParameters | FfmpegTest/EntryPoint.cs:56-60 | each stream gets its encoder's parameters and then its encoder's time base (1/30 and 1/44100), in that order |
| EntryPoint.Setup | FfmpegTest/EntryPoint.cs:18-75 | the whole setup logs exactly the program's nine calls in order and leaves the header written, the streams retimed, both encoders opened and nothing encoded |
| EntryPoint.EncodeVideoFrame | FfmpegTest/EntryPoint.cs:83-110 | one pass of the video loop hands frame i to the converter as RGBA and to the encoder as 800x600 YUV420P, both with pts i, and the container keeps holding exactly the prepared output of everything the encoder has emitted |
| EntryPoint.FlushVideo | FfmpegTest/EntryPoint.cs:113-120 | the flush sentinel moves the encoder to Flushed, and what it drains is written like every other packet |
| EntryPoint.EncodeVideo | FfmpegTest/EntryPoint.cs:80-120 | frame k of frameCount carries pts k on both the source and the converted frame, exactly one flush follows, and the container gains exactly Output(codec, inputs), prepared |
| EntryPoint.EncodeAudioBlock | FfmpegTest/EntryPoint.cs:152-167 | one pass of the audio loop encodes the 1024-sample mono 44.1 kHz float frame starting at sample i with pts i, and the container keeps holding exactly the prepared output of everything the encoder has emitted |
| EntryPoint.EncodeAudio | FfmpegTest/EntryPoint.cs:124-171 | BlockCount(L, 1024) = (L-1)/1024 frames are encoded; frame k holds 1024 samples from offset k*1024 with pts k*1024 and lies strictly inside the buffer; no flush is sent; the container gains exactly Output(codec, inputs), prepared |
| EntryPoint.StreamAndClose | FfmpegTest/EntryPoint.cs:77-175 | after the header, only encode calls and packet writes, then one trailer; 600 video frames and a flush, then 861 audio frames; the container holds the video codec's whole output, then the audio codec's, each prepared |
| EntryPoint.Run | FfmpegTest/EntryPoint.cs:15-183 | the whole program: setup calls in order, header once before any packet, trailer once after the last, every frame's geometry, layout and pts, and the container holds Output(videoCodec, video inputs) then Output(audioCodec, audio inputs), rescaled and tagged |

## Left out

- Drawing the test pattern with SkiaSharp and the float lightness value (lines 69-71, 83-88) are
  not modelled. They are floating point, and frames are modelled by geometry, layout and pts only.
- The tone synthesis with `MathF.Sin` / `MathF.Round` (lines 128-139) is not modelled, because it
  is floating point. The sample buffer is modelled by its length; sample values are not modelled.
- What the x264 and AAC encoders emit is a parameter (`codec`), so the model proves nothing about
  packet contents, counts or decode-timestamp order. Likewise, the RGBA to YUV420P pixel
  conversion keeps only the destination frame's shape.
- `RescaleTimestamp` arithmetic is a parameter (`rescale`). Its handling of `AV_NOPTS_VALUE`, and
  whether it leaves a timestamp unchanged when both time bases are equal, are not modelled.
- The `headerTimeBase` parameter stands for the mp4 muxer's choice of time base at
  `WriteHeader`; the actual choice is library code.
- `DumpFormat`, `IOContext.OpenWrite` and `Pb` (lines 63-67) are not modelled. They are file I/O,
  and so is the mp4 byte layout.
- The global channel-layout call (lines 32-33) is taken as giving mono: one channel.
- `unsafe`, `fixed`, `using` and disposal are not modelled. They concern memory management, not
  behaviour.
- The single `packetRef` slot is reused across encode calls (line 78). The model treats packets
  as values, so it does not capture the aliasing between an encode call's packets and the next
  call. Each packet is written before the next encode call, which is the order the model fixes.
- The commented-out generator pipeline (lines 177-182) is dead code.
- A codec is modelled as a function of its inputs so far, so its output is deterministic by
  construction. Codec-internal state beyond the inputs (threads, rate control) is not modelled.
- `Encoding.VideoFrameConverter.ConvertFrame`: the library's failure on a geometry or format
  mismatch is not visible in the program, so the converter always succeeds.
- `EntryPoint.EncodeAudio`: the loop index `i` and the guard `frameSampleCount + i` (lines 143,
  146, 169) are C# 32-bit `int` arithmetic, while the model uses unbounded integers. For a buffer
  longer than 2147482624 samples (2^31 - 1024), the sum wraps negative at i = 2147482624. The
  `break` is then skipped and the block at `samplePtr + i` reads past the end of the buffer. The
  contract, including "every block lies strictly inside the buffer", holds for buffers up to that
  length, which covers every `seconds * 44100` that fits an `int` and the program's 882000. The
  wrap above it is not modelled.
- ffmpeg's acceptance of a short final audio frame is not modelled, because the program never
  sends one.
