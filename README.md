# Open Media Transport examples: relay step and send loop

This project models the self-contained logic of two Open Media Transport
(OMT) demo programs and proves properties about it.

- **Receive test** (`omtrecvtest`). The program reads the receive mode from
  the command line. It creates a loop-back sender and a receiver, and then
  relays every received frame. Each received `OMTMediaFrame` descriptor is
  copied. Video, Audio and Metadata frames are sent on. In native (`nativevmx`)
  mode, a VMX1 video frame first has its compressed payload moved into
  `Data`/`DataLength`. Any other frame type, and a receive timeout, sends
  nothing. The `FourCharCodeToString` decoder of codec tags is modelled too.
- **Send test** (`omtsendtest`). The program prepares a 1920×1080 UYVY video
  frame and a 48 kHz stereo float audio frame, then runs 10000 iterations.
  Each iteration draws two bright rows at a moving cursor, sends the video
  frame, counts its bytes and reports every 60 frames, sends the audio frame
  and refills the noise.

The transport library is outside the model. Every call into it (create,
receive, send, the report queries, destroy, the log file setting) becomes an
event in a trace that the modelled code returns. What the library hands back
becomes a parameter: the outcome of each receive, the byte count of each
video send, and whether the sender was created. The other outside inputs are
parameters as well: the image file's contents, the random draws, and the
buffer addresses.

Files and modules:

- `fourcc.dfy` (`FourCC`): the decoder, its inverse `Pack`, and the codec tags.
- `media_frame.dfy` (`MediaFrames`): the frame descriptor as a datatype,
  and the sender quality setting. Buffer pointers are `Option<BufId>` references.
- `trace_count.dfy` (`Traces`): counting the events of a trace that satisfy
  a predicate, shared by both programs.
- `c_string.dfy` (`CStrings`): `strcasecmp`, written the way the C library
  walks the two strings.
- `relay.dfy` (`Relay`): mode selection, the relay step, the relay loop over
  a finite run of receive outcomes, and the program's top level.
- `send_loop.dfy` (`SendLoop`): frame setup, the overlay cursor, the
  counters, and the loop over real arrays. The loop is proved equal to a
  closed-form description of what each iteration sends.

The model follows the code in these respects:

- The relay loop has no stop signal.
- The receive program never checks the sender or receiver handle for null.
- The remap applies only when the codec is exactly `VMX1`. It does not apply
  to "any compressed codec".

## Model

| member | source | states |
|---|---|---|
| `FourCC.FourCharCodeToString` | C++/omtrecvtest/omtrecvtest.cpp:126 | The decoded string is five bytes long and ends in a zero terminator |
| `FourCC.DecodedByte` | C++/omtrecvtest/omtrecvtest.cpp:126 | Byte i (i < 4) of the decoded string is `(code >> 8i) & 0xFF` |
| `FourCC.Pack` | C++/omtrecvtest/omtrecvtest.cpp:126 | Packs four bytes little-endian: the low byte is the first byte and the top byte the fourth |
| `FourCC.DecodeThenPack` | C++/omtrecvtest/omtrecvtest.cpp:126 | Packing the four decoded bytes gives back the original code |
| `FourCC.PackThenDecode` | C++/omtrecvtest/omtrecvtest.cpp:126 | Decoding a packed code gives back the four bytes plus the terminator |
| `FourCC.CodecTagsSpellTheirNames` | C++/omtrecvtest/omtrecvtest.cpp:98 | The VMX1, UYVY and FPA1 tags decode to the letters of their names |
| `CStrings.StrCaseCmpZeroIff` | C++/omtrecvtest/omtrecvtest.cpp:46-53 | For strings without NUL, `strcasecmp` returns 0 exactly when both strings are equal after ASCII lower-casing (both directions) |
| `Relay.SelectReceiver` | C++/omtrecvtest/omtrecvtest.cpp:44-73 | Every mode requests the source `argv[1]` and the Video, Audio and Metadata types. `nativevmx` in any letter case gives CompressedOnly with the UYVYorUYVAorP216orPA16 format. `16bit` gives P216 with no flags. Anything else, or no third argument, gives UYVYorUYVAorP216orPA16 with no flags. The native flag is set exactly when the receiver is created CompressedOnly |
| `Relay.ModesExclusive` | C++/omtrecvtest/omtrecvtest.cpp:46-53 | No argument selects both the native and the 16-bit mode |
| `Relay.Remapped` | C++/omtrecvtest/omtrecvtest.cpp:100-103 | `Data` and `DataLength` take the compressed payload and its length. The compressed slot becomes null with length 0. Every other field is unchanged |
| `Relay.RelayStep` | C++/omtrecvtest/omtrecvtest.cpp:83-118 | A send happens exactly when a frame was received and its type is Video, Audio or Metadata. A timeout, a None type or an unrecognised type sends nothing. A native VMX1 video frame is sent remapped. Every other forwarded frame is sent as an exact copy. Fields outside the two payload slots never change |
| `Relay.ForwardedPayloadIsPrimary` | C++/omtrecvtest/omtrecvtest.cpp:97-104 | A forwarded frame carries the authoritative payload (the compressed one for native VMX1, the primary one otherwise) in `Data`/`DataLength`. A remapped frame presents no compressed payload |
| `Relay.RelayLoop` | C++/omtrecvtest/omtrecvtest.cpp:75-120 | The loop, with its step-by-step field overwrites, issues exactly the calls of `RelayTrace`: one 40 ms poll for all three types per iteration, followed by the send `RelayStep` prescribes |
| `Relay.ReceiveTestMain` | C++/omtrecvtest/omtrecvtest.cpp:26-120 | With fewer than two arguments, only the log file is set and no stream is created. Otherwise the loop-back sender "OMLoopBack" is created first at default quality. Then the receiver for `argv[1]` is created, asking for Video, Audio and Metadata: compressed-only with the default format for "nativevmx", P216 for "16bit", the default format otherwise. Then the relay runs, remapping exactly when "nativevmx" was given |
| `Relay.RelayTraceCounts` | C++/omtrecvtest/omtrecvtest.cpp:75-118 | The loop polls once per receive outcome, whatever it was, so it keeps going after a timeout. It sends exactly once per received Video, Audio or Metadata frame |
| `Relay.SentFramesComeFromReceived` | C++/omtrecvtest/omtrecvtest.cpp:92-112 | Every sent frame is what `RelayStep` makes of some received frame |
| `Relay.TimeoutsSendNothing` | C++/omtrecvtest/omtrecvtest.cpp:82-83 | A run of timeouts sends nothing, and every iteration still polls |
| `Relay.NativeSendsHaveNoCompressedPayload` | C++/omtrecvtest/omtrecvtest.cpp:98-104 | In native mode, no VMX1 video frame the loop sends presents a compressed payload |
| `Relay.NonNativeSendsAreCopies` | C++/omtrecvtest/omtrecvtest.cpp:92-112 | Outside native mode, every sent frame is an exact copy of a received frame |
| `Relay.NativeVmxScenario` | C++/omtrecvtest/omtrecvtest.cpp:98-104 | A native VMX1 frame with a 100-byte compressed payload and a null `Data` is sent with that buffer in `Data`, length 100, and a null compressed slot |
| `Relay.FiveTimeoutsScenario` | C++/omtrecvtest/omtrecvtest.cpp:75-83 | Five timeouts in a row produce five polls and no send |
| `SendLoop.FrameGeometry` | C++/omtsendtest/omtsendtest.cpp:91-115 | Stride = Width × 2 = 3840. DataLength = Stride × Height. Height is even, and the 540 two-row pairs fill the frame exactly |
| `SendLoop.VideoFrame` | C++/omtsendtest/omtsendtest.cpp:87-132 | The video frame is a UYVY Video frame with the auto timestamp −1. It has Stride 3840 = 2 × Width, DataLength 4147200 = Stride × Height, an even Height, and no compressed payload or metadata |
| `SendLoop.AudioFrame` | C++/omtsendtest/omtsendtest.cpp:157-168 | The audio frame is an FPA1 Audio frame with the auto timestamp. DataLength = SamplesPerChannel × Channels × 4 = 6400, which is exactly the 1600 floats of the buffer |
| `SendLoop.OverlayAdvance` | C++/omtsendtest/omtsendtest.cpp:188-192 | The cursor update (advance two rows, and back to 0 once at or past DataLength) takes the overlay offset of iteration k to that of iteration k + 1 |
| `SendLoop.OverlayWithinFrame` | C++/omtsendtest/omtsendtest.cpp:186-192 | The cursor satisfies 0 ≤ linePos < DataLength and is a multiple of 2 × Stride. The two-row write [linePos, linePos + 2 × Stride) lies inside the frame buffer |
| `SendLoop.OverlayPeriod` | C++/omtsendtest/omtsendtest.cpp:188-192 | The cursor is periodic with period 540. It is at 0 exactly in iterations that are multiples of 540 |
| `SendLoop.DrawFrame` | C++/omtsendtest/omtsendtest.cpp:186-187 | The frame buffer ends up as the image with the two rows copied at `linePos`. The caller must show that the write fits in the buffer |
| `SendLoop.FillNoise` | C++/omtsendtest/omtsendtest.cpp:151-154 | Each of the 1600 floats, indices 0 to 1599, receives its draw, and the buffer afterwards holds exactly the draws |
| `SendLoop.SendIteration` | C++/omtsendtest/omtsendtest.cpp:184-227 | One iteration issues exactly the calls `IterationEvents` describes. It advances the cursor to the next offset. It keeps 0 ≤ frameCount < 60 and keeps `bytes` equal to the sum of the video send results since the last report. It leaves the video buffer holding the image with the two white lines at this iteration's offset, and it refills the noise |
| `SendLoop.SendFrames` | C++/omtsendtest/omtsendtest.cpp:170-228 | After n iterations, the calls made equal the closed form `ExpectedEvents`. frameCount = n mod 60, and `bytes` is the sum of the video send results since the last report. Audio send results are never counted |
| `SendLoop.CounterStep` | C++/omtsendtest/omtsendtest.cpp:195-218 | After one more video send, a report is due exactly when the iteration count reaches a multiple of 60. The report covers the last 60 video results, and both counters then restart from 0 |
| `SendLoop.SendTestMain` | C++/omtsendtest/omtsendtest.cpp:56-238 | The sender "Test" is requested at default quality. If it cannot be created, only the log file and the create call happen. Otherwise the sender info "SendTest"/"OMT"/"1.0" is set, the 10000 iterations run, and the sender is destroyed |
| `SendLoop.ExpectedEventCounts` | C++/omtsendtest/omtsendtest.cpp:182-222 | n iterations send n video frames and n audio frames and report n / 60 times |
| `SendLoop.SendsAreAutoTimestamped` | C++/omtsendtest/omtsendtest.cpp:195-222 | Every frame the loop sends carries Timestamp −1 |
| `SendLoop.SendTestTotals` | C++/omtsendtest/omtsendtest.cpp:180-228 | A created sender makes 20000 sends in all (10000 video and 10000 audio) and 166 reports |

## Left out

- The transport library (`libomt.h`) is not part of this model. Its calls
  are events with no behaviour: `omt_send_create`, `omt_receive_create`,
  `omt_send`, `omt_receive`, `omt_send_receive`, `omt_send_gettally`,
  `omt_send_connections`, `omt_send_getvideostatistics`,
  `omt_send_setsenderinformation`, the destroy calls and
  `omt_setloggingfilename`. Pacing, timestamp assignment and statistics
  live inside it.
- The numeric values of the library's enumerations are not part of this
  model, because `libomt.h` is not available. Frame types, preferred
  formats, flags, quality and colour space are datatypes. The codec tags
  VMX1, UYVY and FPA1 are taken to be the little-endian packing of their
  four letters, which is the convention the decoder reads them with.
- The 40 ms receive timeout is a `None` outcome only. Blocking, wall-clock
  pacing and time are not modelled.
- `while(1)` in the receive program never ends. The model runs it over any
  finite prefix of receive outcomes, and the receiver destroy call after
  the loop is unreachable and omitted.
- Console output is not modelled: `printf`, `cout`, usage text and
  `dumpOMTMediaFrameInfo` apart from its four-character-code decoder.
  `exit(0)` after the usage text is the end of the trace.
- The report block's tally, return-metadata, connection and statistics
  queries are folded into one `Report(bytes)` event that carries the printed
  byte count.
- Reading `california-1080-uyvy.yuv` is not modelled. The image is a
  parameter of exactly DataLength bytes. Short or missing files and files
  longer than the buffer are not modelled.
- Floating point is not modelled. `AspectRatio` is not a field of the
  datatype. The noise samples from `rand_FloatRange` are opaque `real`
  draws supplied as parameters, and `srand`/`rand` are not modelled.
- Fixed-width integers: `int` fields are unbounded. `bytes` is a 32-bit
  `int` in the source; its overflow is not modelled (it only sums 60 send
  results between resets). Timestamps are signed 64-bit in the source.
- `malloc` failure is not modelled: every buffer is assumed to be allocated.
- Fixed-length copying of the sender-info strings
  (`OMT_MAX_STRING_LENGTH`) is not modelled. The strings are short
  literals.
- Memory ownership and lifetime of received buffers are not modelled.
  Payload pointers are opaque references, and `memcpy` of a descriptor is
  a value copy.
- `StrCaseCmpZeroIff`: stated for strings without a NUL character, which
  every `argv` entry is. Past an embedded NUL, `strcasecmp` would stop
  early.
