/** Value types shared by the encoders, the muxer and the entry point:
    time bases, codec and format identifiers, raw frames and compressed packets. */
module Media {

  /** A time base: one tick lasts num/den seconds. A freshly created stream has 0/0 (unset). */
  datatype Rational = Rational(num: int, den: int)

  const UNSET_TIME_BASE := Rational(0, 0)

  datatype MediaKind = Video | Audio

  /** The two encoders the program asks the codec registry for. */
  datatype CodecId = Libx264 | Aac

  datatype PixelFormat = NoPixelFormat | Rgba | Yuv420p

  datatype SampleFormat = NoSampleFormat | Flt

  /** A raw frame. Pixel planes and sample values are not modelled: a video frame is its
      geometry and layout, an audio frame points into a flat sample buffer at `dataOffset`. */
  datatype Frame =
    | VideoFrame(width: int, height: int, pixelFormat: PixelFormat, pts: int)
    | AudioFrame(sampleFormat: SampleFormat, nbSamples: int, channels: int, sampleRate: int,
                 dataOffset: int, pts: int)

  /** A compressed packet; the payload is not modelled. */
  datatype Packet = Packet(pts: int, dts: int, duration: int, streamIndex: int)

  datatype Option<T> = None | Some(value: T)

  datatype Outcome<E> = Pass | Fail(error: E)

  datatype Result<T, E> = Ok(value: T) | Err(error: E)
}
