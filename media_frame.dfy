/** The media frame descriptor exchanged with the transport library: one
    record for Video, Audio and Metadata frames whose payload fields are
    references to buffers owned by someone else. */
module MediaFrames {

  datatype Option<T> = None | Some(value: T)

  /** An opaque reference to an externally owned buffer; `None` is the null pointer. */
  type BufId = nat

  /** The frame's `Type`; `Other` is any value the program does not recognise. */
  datatype FrameType = NoFrame | Video | Audio | Metadata | Other(code: int)

  /** The encoding quality a sender is created with. */
  datatype Quality = DefaultQuality | LowQuality | MediumQuality | HighQuality

  datatype ColorSpace = ColorUnset | BT601 | BT709

  /** The field-for-field descriptor; copying it copies references, never
      the buffers they point to. */
  datatype MediaFrame = MediaFrame(
    Type: FrameType,
    Timestamp: int,
    Codec: bv32,
    Width: int,
    Height: int,
    Stride: int,
    Flags: int,
    FrameRateN: int,
    FrameRateD: int,
    ColorSpace: ColorSpace,
    SampleRate: int,
    Channels: int,
    SamplesPerChannel: int,
    Data: Option<BufId>,
    DataLength: int,
    CompressedData: Option<BufId>,
    CompressedLength: int,
    FrameMetadata: Option<BufId>,
    FrameMetadataLength: int)

  /** A zero-initialised descriptor, as `OMTMediaFrame f = {}` gives. */
  const ZeroFrame: MediaFrame :=
    MediaFrame(NoFrame, 0, 0, 0, 0, 0, 0, 0, 0, ColorUnset, 0, 0, 0, None, 0, None, 0, None, 0)

  /** The types the programs ask the receiver for (Video | Audio | Metadata). */
  const MediaTypes: set<FrameType> := {Video, Audio, Metadata}

  /** The auto-timestamp sentinel: the library assigns the timestamp and paces the send. */
  const AutoTimestamp: int := -1

  /** Two descriptors agree on everything except the two payload slots
      (`Data`/`DataLength` and `CompressedData`/`CompressedLength`). */
  predicate SameExceptPayload(a: MediaFrame, b: MediaFrame)
  {
    a.(Data := None, DataLength := 0, CompressedData := None, CompressedLength := 0) ==
    b.(Data := None, DataLength := 0, CompressedData := None, CompressedLength := 0)
  }
}
