/** The send test: one video frame and one audio frame are prepared once,
    then sent ten thousand times in a loop that draws a moving pair of
    bright lines into the picture, refills the audio with fresh noise and
    reports the bytes sent once every sixty frames. */
module SendLoop {
  import opened MediaFrames
  import opened FourCC
  import opened Traces

  const FrameWidth: int := 1920
  const FrameHeight: int := 1080
  /** Bytes per row: two bytes per pixel for UYVY. */
  const VideoStride: int := 3840
  const VideoDataLength: int := 4147200
  /** The overlay covers two rows at a time; the frame holds 540 such pairs. */
  const LinePairBytes: int := 7680
  const LinePairs: nat := 540
  const OverlayByte: bv8 := 255

  /** How the geometry constants follow from the frame size. */
  lemma FrameGeometry()
    ensures VideoStride == FrameWidth * 2
    ensures VideoDataLength == VideoStride * FrameHeight
    ensures LinePairBytes == VideoStride * 2
    ensures FrameHeight % 2 == 0 && LinePairs == FrameHeight / 2
    ensures LinePairs * LinePairBytes == VideoDataLength
  {
  }

  const SamplesPerChannel: int := 800
  const AudioChannels: int := 2
  const FloatBytes: int := 4
  /** The audio buffer holds 800 floats per channel for two channels. */
  const AudioBufferFloats: nat := 800 * 2

  const Iterations: nat := 10000
  const ReportInterval: nat := 60

  /** The video descriptor as the sender fills it in. */
  function VideoFrame(data: BufId): (f: MediaFrame)
    ensures f.Type == Video && f.Codec == UYVY && f.Timestamp == AutoTimestamp
    ensures f.Width == 1920 && f.Height == 1080 && f.Height % 2 == 0
    ensures f.Stride == 2 * f.Width == 3840
    ensures f.DataLength == f.Stride * f.Height == 4147200
    ensures f.Data == Some(data) && f.CompressedData == None && f.FrameMetadata == None
  {
    var width, height := FrameWidth, FrameHeight;
    var stride := width * 2;
    ZeroFrame.(Type := Video, Width := width, Height := height, Codec := UYVY,
               Timestamp := AutoTimestamp, ColorSpace := BT709, Flags := 0,
               Stride := stride, DataLength := stride * height, Data := Some(data),
               FrameRateN := 60000, FrameRateD := 1000,
               FrameMetadata := None, FrameMetadataLength := 0)
  }

  /** The audio descriptor: one 60 fps frame's worth of planar float stereo. */
  function AudioFrame(data: BufId): (f: MediaFrame)
    ensures f.Type == Audio && f.Codec == FPA1 && f.Timestamp == AutoTimestamp
    ensures f.SampleRate == 48000 && f.Channels == 2 && f.SamplesPerChannel == 800
    ensures f.DataLength == f.SamplesPerChannel * f.Channels * FloatBytes == 6400
    ensures f.DataLength == AudioBufferFloats * FloatBytes
    ensures f.Data == Some(data) && f.CompressedData == None && f.FrameMetadata == None
  {
    ZeroFrame.(Type := Audio, Timestamp := AutoTimestamp, Codec := FPA1,
               SampleRate := 48000, Channels := AudioChannels,
               SamplesPerChannel := SamplesPerChannel, Data := Some(data),
               DataLength := 800 * FloatBytes * 2,
               FrameMetadata := None, FrameMetadataLength := 0)
  }

  /** The cursor update after each overlay: two rows down, back to the top
      once it reaches the end of the frame. */
  function NextLinePos(linePos: int): int
  {
    if linePos + LinePairBytes >= VideoDataLength then 0 else linePos + LinePairBytes
  }

  /** Where the overlay is drawn in iteration k. */
  function OverlayOffset(k: nat): int
  {
    (k % LinePairs) * LinePairBytes
  }

  /** The cursor update moves from one iteration's offset to the next. */
  lemma OverlayAdvance(k: nat)
    ensures NextLinePos(OverlayOffset(k)) == OverlayOffset(k + 1)
  {
    var r := k % LinePairs;
    if r == LinePairs - 1 {
      assert (k + 1) % LinePairs == 0;
    } else {
      assert (k + 1) % LinePairs == r + 1;
    }
  }

  /** The two overlaid rows always lie inside the frame buffer, at a
      multiple of two rows. */
  lemma OverlayWithinFrame(k: nat)
    ensures 0 <= OverlayOffset(k) < VideoDataLength
    ensures OverlayOffset(k) + LinePairBytes <= VideoDataLength
    ensures OverlayOffset(k) % LinePairBytes == 0
  {
  }

  /** The cursor is back at the top exactly every 540 iterations. */
  lemma OverlayPeriod(k: nat)
    ensures OverlayOffset(k + LinePairs) == OverlayOffset(k)
    ensures OverlayOffset(k) == 0 <==> k % LinePairs == 0
  {
    var q, r := k / LinePairs, k % LinePairs;
    assert k + LinePairs == (q + 1) * LinePairs + r;
    assert (k + LinePairs) % LinePairs == r;
  }

  /** The picture sent: the source image with `lines` copied over it at `pos`. */
  function Overlaid(image: seq<bv8>, pos: int, lines: seq<bv8>): (p: seq<bv8>)
    ensures |p| == |image|
  {
    seq(|image|, j requires 0 <= j < |image| =>
      if pos <= j < pos + |lines| then lines[j - pos] else image[j])
  }

  /** The memset source of the overlay: two rows of 255. */
  function Bright(): (b: seq<bv8>)
    ensures |b| == LinePairBytes
    ensures forall j :: 0 <= j < |b| ==> b[j] == OverlayByte
  {
    seq(LinePairBytes, _ => OverlayByte)
  }

  /** The two copies into the frame buffer: the whole image, then the two
      rows at `linePos`, which must fit inside the buffer. */
  method DrawFrame(frame: array<bv8>, image: seq<bv8>, twoLines: array<bv8>, linePos: int)
    requires frame.Length == |image| && frame != twoLines
    requires 0 <= linePos && linePos + twoLines.Length <= frame.Length
    modifies frame
    ensures frame[..] == Overlaid(image, linePos, twoLines[..])
  {
    forall j | 0 <= j < frame.Length {
      frame[j] := image[j];
    }
    forall j | 0 <= j < twoLines.Length {
      frame[linePos + j] := twoLines[j];
    }
  }

  /** Refills the audio buffer with one draw per float, indices 0 to 1599. */
  method FillNoise(buffer: array<real>, draws: seq<real>)
    requires buffer.Length == AudioBufferFloats == |draws|
    modifies buffer
    ensures buffer[..] == draws
  {
    for z := 0 to AudioBufferFloats
      invariant buffer[..z] == draws[..z]
    {
      buffer[z] := draws[z];
    }
  }

  /** The calls the program makes into the transport library, in order. */
  datatype SendEvent =
    | SetLogFile(name: string)
    | CreateSender(name: string, quality: Quality)
    | SetSenderInfo(productName: string, manufacturer: string, version: string)
    | VideoSent(frame: MediaFrame, pixels: seq<bv8>)
    | Report(bytes: int)
    | AudioSent(frame: MediaFrame, samples: seq<real>)
    | DestroySender

  /** What the program reads from outside: buffer addresses, the image
      file's contents, what each video send returns, and the noise drawn
      for each refill of the audio buffer. */
  datatype Inputs = Inputs(
    videoBuf: BufId, audioBuf: BufId, image: seq<bv8>,
    videoSent: seq<int>, noise: seq<seq<real>>)

  predicate InputsFor(env: Inputs, n: nat)
  {
    && |env.image| == VideoDataLength
    && |env.videoSent| == n
    && |env.noise| == n + 1
    && forall k :: 0 <= k < |env.noise| ==> |env.noise[k]| == AudioBufferFloats
  }

  function Sum(s: seq<int>): int
  {
    if |s| == 0 then 0 else Sum(s[..|s| - 1]) + s[|s| - 1]
  }

  lemma SumExtend(s: seq<int>, a: nat, b: nat)
    requires a <= b < |s|
    ensures Sum(s[a..b + 1]) == Sum(s[a..b]) + s[b]
  {
    assert s[a..b + 1][..b - a] == s[a..b];
  }

  /** Iteration k: the video frame with the overlay at its offset, a report
      of the last sixty video sends' bytes after every sixtieth frame, then
      the audio frame with the noise drawn before it. */
  function IterationEvents(k: nat, env: Inputs): seq<SendEvent>
    requires k < |env.videoSent| && k < |env.noise|
  {
    [VideoSent(VideoFrame(env.videoBuf), Overlaid(env.image, OverlayOffset(k), Bright()))] +
    (if (k + 1) % ReportInterval == 0
     then [Report(Sum(env.videoSent[k + 1 - ReportInterval .. k + 1]))]
     else []) +
    [AudioSent(AudioFrame(env.audioBuf), env.noise[k])]
  }

  /** The calls of the first n iterations, in closed form. */
  function ExpectedEvents(n: nat, env: Inputs): seq<SendEvent>
    requires n <= |env.videoSent| && n <= |env.noise|
  {
    if n == 0 then [] else ExpectedEvents(n - 1, env) + IterationEvents(n - 1, env)
  }

  /** One pass of the send loop body (iteration i): draw the overlay, move
      the cursor, send the video frame, count it and report when due, send
      the audio frame and refill the noise. */
  method SendIteration(
    i: nat, env: Inputs, video: MediaFrame, audio: MediaFrame,
    frameData: array<bv8>, twoLines: array<bv8>, audioBuffer: array<real>,
    linePos: int, frameCount: int, bytes: int)
    returns (nextLinePos: int, nextFrameCount: int, nextBytes: int, sent: seq<SendEvent>)
    requires InputsFor(env, |env.videoSent|) && i < |env.videoSent|
    requires video == VideoFrame(env.videoBuf) && audio == AudioFrame(env.audioBuf)
    requires frameData.Length == VideoDataLength && twoLines[..] == Bright()
    requires frameData != twoLines
    requires audioBuffer.Length == AudioBufferFloats && audioBuffer[..] == env.noise[i]
    requires linePos == OverlayOffset(i)
    requires 0 <= frameCount < ReportInterval && frameCount == i % ReportInterval
    requires bytes == Sum(env.videoSent[i - frameCount .. i])
    modifies frameData, audioBuffer
    ensures nextLinePos == OverlayOffset(i + 1)
    ensures 0 <= nextFrameCount < ReportInterval && nextFrameCount == (i + 1) % ReportInterval
    ensures nextBytes == Sum(env.videoSent[i + 1 - nextFrameCount .. i + 1])
    ensures audioBuffer[..] == env.noise[i + 1]
    ensures sent == IterationEvents(i, env)
    ensures frameData[..] == Overlaid(env.image, OverlayOffset(i), Bright())
  {
    OverlayWithinFrame(i);
    DrawFrame(frameData, env.image, twoLines, linePos);
    ghost var pixels := frameData[..];
    OverlayAdvance(i);
    nextLinePos := linePos + video.Stride * 2;
    if nextLinePos >= video.DataLength {
      nextLinePos := 0;
    }
    sent := [VideoSent(video, frameData[..])];
    CounterStep(env.videoSent, i, frameCount, bytes);
    nextBytes := bytes + env.videoSent[i];
    nextFrameCount := frameCount + 1;
    ghost var reports := [];
    if nextFrameCount >= ReportInterval {
      sent := sent + [Report(nextBytes)];
      reports := [Report(nextBytes)];
      nextFrameCount := 0;
      nextBytes := 0;
    }
    sent := sent + [AudioSent(audio, audioBuffer[..])];
    IterationShape(i, env, pixels, reports, audioBuffer[..]);
    FillNoise(audioBuffer, env.noise[i + 1]);
  }

  /** The send loop over n iterations, with the cursor, the frame counter
      and the byte counter the program keeps. At the end the counter is
      below sixty and the byte counter holds the video bytes since the last
      report. */
  method SendFrames(n: nat, env: Inputs) returns (events: seq<SendEvent>, frameCount: int, bytes: int)
    requires InputsFor(env, n)
    ensures events == ExpectedEvents(n, env)
    ensures 0 <= frameCount < ReportInterval && frameCount == n % ReportInterval
    ensures bytes == Sum(env.videoSent[n - frameCount .. n])
  {
    var video := VideoFrame(env.videoBuf);
    var frameData := new bv8[video.DataLength];
    var audioBuffer := new real[AudioBufferFloats];
    FillNoise(audioBuffer, env.noise[0]);
    var audio := AudioFrame(env.audioBuf);
    var twoLines := new bv8[video.Stride * 2];
    forall j | 0 <= j < twoLines.Length {
      twoLines[j] := OverlayByte;
    }
    assert twoLines[..] == Bright();
    var linePos := 0;
    frameCount, bytes := 0, 0;
    events := [];
    for i := 0 to n
      invariant linePos == OverlayOffset(i)
      invariant 0 <= frameCount < ReportInterval && frameCount == i % ReportInterval
      invariant bytes == Sum(env.videoSent[i - frameCount .. i])
      invariant audioBuffer[..] == env.noise[i]
      invariant twoLines[..] == Bright()
      invariant events == ExpectedEvents(i, env)
    {
      var sent;
      linePos, frameCount, bytes, sent :=
        SendIteration(i, env, video, audio, frameData, twoLines, audioBuffer, linePos, frameCount, bytes);
      events := events + sent;
    }
  }

  /** The byte and frame counters after one more video send: a report is
      due exactly when the iteration count reaches a multiple of 60, and it
      covers the last sixty results. */
  lemma CounterStep(s: seq<int>, i: nat, frameCount: int, bytes: int)
    requires i < |s| && 0 <= frameCount < ReportInterval && frameCount == i % ReportInterval
    requires bytes == Sum(s[i - frameCount .. i])
    ensures frameCount + 1 >= ReportInterval <==> (i + 1) % ReportInterval == 0
    ensures frameCount + 1 >= ReportInterval ==>
      i + 1 >= ReportInterval && bytes + s[i] == Sum(s[i + 1 - ReportInterval .. i + 1])
    ensures frameCount + 1 < ReportInterval ==>
      frameCount + 1 == (i + 1) % ReportInterval &&
      bytes + s[i] == Sum(s[i + 1 - (frameCount + 1) .. i + 1])
  {
    SumExtend(s, i - frameCount, i);
    CounterAdvance(i);
  }

  /** Iteration i's events, piece by piece. */
  lemma IterationShape(i: nat, env: Inputs, pixels: seq<bv8>, reports: seq<SendEvent>, samples: seq<real>)
    requires i < |env.videoSent| && i < |env.noise|
    requires pixels == Overlaid(env.image, OverlayOffset(i), Bright())
    requires samples == env.noise[i]
    requires reports == if (i + 1) % ReportInterval == 0
      then [Report(Sum(env.videoSent[i + 1 - ReportInterval .. i + 1]))] else []
    ensures IterationEvents(i, env) ==
      [VideoSent(VideoFrame(env.videoBuf), pixels)] + reports + [AudioSent(AudioFrame(env.audioBuf), samples)]
  {
  }

  /** The frame counter wraps to zero after 60. */
  lemma CounterAdvance(i: nat)
    ensures (i + 1) % ReportInterval == if i % ReportInterval == ReportInterval - 1 then 0 else i % ReportInterval + 1
    ensures (i + 1) % ReportInterval == 0 ==> i + 1 >= ReportInterval
  {
  }

  const SendLogFile: string := "omtsendtest.log"
  const StreamName: string := "Test"

  /** The calls made before the loop when the sender was created. */
  function Prologue(): seq<SendEvent>
  {
    [SetLogFile(SendLogFile), CreateSender(StreamName, DefaultQuality), SetSenderInfo("SendTest", "OMT", "1.0")]
  }

  /** The whole program: nothing is streamed if the sender cannot be
      created; otherwise the loop runs its ten thousand iterations and the
      sender is destroyed. */
  method SendTestMain(created: bool, env: Inputs) returns (events: seq<SendEvent>)
    requires InputsFor(env, Iterations)
    ensures !created ==> events == [SetLogFile(SendLogFile), CreateSender(StreamName, DefaultQuality)]
    ensures created ==> events == Prologue() + ExpectedEvents(Iterations, env) + [DestroySender]
  {
    events := [SetLogFile(SendLogFile), CreateSender(StreamName, DefaultQuality)];
    if !created {
      return;
    }
    events := events + [SetSenderInfo("SendTest", "OMT", "1.0")];
    var sent, frameCount, bytes := SendFrames(Iterations, env);
    events := events + sent + [DestroySender];
  }

  predicate IsVideoSend(e: SendEvent) { e.VideoSent? }
  predicate IsAudioSend(e: SendEvent) { e.AudioSent? }
  predicate IsReport(e: SendEvent) { e.Report? }

  /** n iterations send n video frames and n audio frames and report
      n / 60 times. */
  lemma {:induction false} ExpectedEventCounts(n: nat, env: Inputs)
    requires n <= |env.videoSent| && n <= |env.noise|
    ensures CountWhere(ExpectedEvents(n, env), IsVideoSend) == n
    ensures CountWhere(ExpectedEvents(n, env), IsAudioSend) == n
    ensures CountWhere(ExpectedEvents(n, env), IsReport) == n / ReportInterval
  {
    if n > 0 {
      ExpectedEventCounts(n - 1, env);
      var it := IterationEvents(n - 1, env);
      CountWhereAppend(ExpectedEvents(n - 1, env), it, IsVideoSend);
      CountWhereAppend(ExpectedEvents(n - 1, env), it, IsAudioSend);
      CountWhereAppend(ExpectedEvents(n - 1, env), it, IsReport);
      var head := [it[0]];
      var tail := [it[|it| - 1]];
      var middle := it[1..|it| - 1];
      assert it == head + middle + tail;
      CountWhereAppend(head + middle, tail, IsVideoSend);
      CountWhereAppend(head + middle, tail, IsAudioSend);
      CountWhereAppend(head + middle, tail, IsReport);
      CountWhereAppend(head, middle, IsVideoSend);
      CountWhereAppend(head, middle, IsAudioSend);
      CountWhereAppend(head, middle, IsReport);
      if n % ReportInterval == 0 {
        assert n / ReportInterval == (n - 1) / ReportInterval + 1;
      } else {
        assert n / ReportInterval == (n - 1) / ReportInterval;
      }
    }
  }

  /** Every frame the loop sends asks for an automatic timestamp. */
  lemma {:induction false} SendsAreAutoTimestamped(n: nat, env: Inputs, j: nat)
    requires n <= |env.videoSent| && n <= |env.noise|
    requires j < |ExpectedEvents(n, env)|
    requires ExpectedEvents(n, env)[j].VideoSent? || ExpectedEvents(n, env)[j].AudioSent?
    ensures ExpectedEvents(n, env)[j].frame.Timestamp == AutoTimestamp
  {
    if j < |ExpectedEvents(n - 1, env)| {
      SendsAreAutoTimestamped(n - 1, env, j);
    }
  }

  /** A created sender makes 20000 sends in all, half of them video, and
      reports 166 times. */
  lemma SendTestTotals(env: Inputs)
    requires InputsFor(env, Iterations)
    ensures var es := Prologue() + ExpectedEvents(Iterations, env) + [DestroySender];
      CountWhere(es, IsVideoSend) == 10000 &&
      CountWhere(es, IsAudioSend) == 10000 &&
      CountWhere(es, IsReport) == 166
  {
    var body := ExpectedEvents(Iterations, env);
    ExpectedEventCounts(Iterations, env);
    CountWhereAppend(Prologue(), body, IsVideoSend);
    CountWhereAppend(Prologue(), body, IsAudioSend);
    CountWhereAppend(Prologue(), body, IsReport);
    CountWhereAppend(Prologue() + body, [DestroySender], IsVideoSend);
    CountWhereAppend(Prologue() + body, [DestroySender], IsAudioSend);
    CountWhereAppend(Prologue() + body, [DestroySender], IsReport);
    assert Prologue()[..2][..1][..0] == [];
  }
}
