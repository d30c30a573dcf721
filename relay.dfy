/** The receive test: choose the receive mode from the command line, then
    pull frames from the named source and loop them back out through a
    sender, moving a natively received VMX1 payload into the primary slot. */
module Relay {
  import opened MediaFrames
  import opened FourCC
  import opened CStrings
  import opened Traces

  datatype VideoFormat = UYVYorUYVAorP216orPA16 | P216
  datatype ReceiveFlags = NoFlags | CompressedOnly

  /** The parameters a receiver is created with. */
  datatype ReceiverConfig = ReceiverConfig(
    source: string, types: set<FrameType>, format: VideoFormat, flags: ReceiveFlags)

  /** The calls the program makes into the transport library, in order. */
  datatype Event =
    | SetLogFile(name: string)
    | CreateSender(name: string, quality: Quality)
    | CreateReceiver(config: ReceiverConfig)
    | Poll(types: set<FrameType>, timeoutMs: int)
    | Send(frame: MediaFrame)

  const LogFileName: string := "omtrecvtest.log"
  const LoopbackName: string := "OMLoopBack"
  const ReceiveTimeoutMs: int := 40

  /** Whether an argument list selects a mode word, compared case-insensitively. */
  predicate ModeArgument(argv: seq<string>, word: string)
  {
    |argv| > 2 && Lower(argv[2]) == word
  }

  /** Reads `argv[2]` into the two mode flags and picks the receiver's
      requested types, preferred format and flags; the native flag wins. */
  method SelectReceiver(argv: seq<string>) returns (native: bool, config: ReceiverConfig)
    requires |argv| >= 2
    requires forall i :: 0 <= i < |argv| ==> IsCString(argv[i])
    ensures config.source == argv[1] && config.types == MediaTypes
    ensures native <==> ModeArgument(argv, "nativevmx")
    ensures native <==> config.flags == CompressedOnly
    ensures native ==> config.format == UYVYorUYVAorP216orPA16
    ensures ModeArgument(argv, "16bit") ==> config == ReceiverConfig(argv[1], MediaTypes, P216, NoFlags)
    ensures !ModeArgument(argv, "nativevmx") && !ModeArgument(argv, "16bit") ==>
      config == ReceiverConfig(argv[1], MediaTypes, UYVYorUYVAorP216orPA16, NoFlags)
  {
    var nativeReceiveMode := false;
    var sixteenBitReceiveMode := false;
    if |argv| > 2 {
      StrCaseCmpZeroIff(argv[2], "nativevmx");
      StrCaseCmpZeroIff(argv[2], "16bit");
      assert Lower("nativevmx") == "nativevmx";
      assert Lower("16bit") == "16bit";
      if StrCaseCmp(argv[2], "nativevmx") == 0 {
        nativeReceiveMode := true;
      }
      if StrCaseCmp(argv[2], "16bit") == 0 {
        sixteenBitReceiveMode := true;
      }
    }
    if nativeReceiveMode {
      config := ReceiverConfig(argv[1], MediaTypes, UYVYorUYVAorP216orPA16, CompressedOnly);
    } else if sixteenBitReceiveMode {
      config := ReceiverConfig(argv[1], MediaTypes, P216, NoFlags);
    } else {
      config := ReceiverConfig(argv[1], MediaTypes, UYVYorUYVAorP216orPA16, NoFlags);
    }
    native := nativeReceiveMode;
  }

  /** No argument selects both modes. */
  lemma ModesExclusive(argv: seq<string>)
    ensures !(ModeArgument(argv, "nativevmx") && ModeArgument(argv, "16bit"))
  {
    if ModeArgument(argv, "nativevmx") {
      assert Lower(argv[2])[0] == 'n';
    }
  }

  /** A video frame whose compressed payload must be moved into the primary slot. */
  predicate NativeVmx(f: MediaFrame, native: bool)
  {
    native && f.Type == Video && f.Codec == VMX1
  }

  /** The copy with its compressed payload moved into `Data`/`DataLength`. */
  function Remapped(f: MediaFrame): (r: MediaFrame)
    ensures r.Data == f.CompressedData && r.DataLength == f.CompressedLength
    ensures r.CompressedData == None && r.CompressedLength == 0
    ensures SameExceptPayload(r, f)
  {
    f.(Data := f.CompressedData, DataLength := f.CompressedLength,
       CompressedData := None, CompressedLength := 0)
  }

  /** What one receive outcome makes the relay send: nothing for a timeout
      or a type it does not forward, otherwise the copied descriptor,
      remapped for a natively received VMX1 video frame. */
  function RelayStep(received: Option<MediaFrame>, native: bool): (sent: Option<MediaFrame>)
    ensures sent.Some? <==> received.Some? && received.value.Type in MediaTypes
    ensures sent.Some? ==> SameExceptPayload(sent.value, received.value)
    ensures sent.Some? && NativeVmx(received.value, native) ==>
      sent.value == Remapped(received.value)
    ensures sent.Some? && !NativeVmx(received.value, native) ==> sent.value == received.value
  {
    match received
    case None => None
    case Some(f) =>
      match f.Type
      case Video => Some(if native && f.Codec == VMX1 then Remapped(f) else f)
      case Audio => Some(f)
      case Metadata => Some(f)
      case _ => None
  }

  /** Where the payload the sink must use lives in a received frame. */
  function AuthoritativePayload(f: MediaFrame, native: bool): (Option<BufId>, int)
  {
    if NativeVmx(f, native) then (f.CompressedData, f.CompressedLength) else (f.Data, f.DataLength)
  }

  /** Every forwarded frame carries the authoritative payload in its primary
      slot, and a remapped frame presents no compressed payload. */
  lemma ForwardedPayloadIsPrimary(received: Option<MediaFrame>, native: bool)
    requires RelayStep(received, native).Some?
    ensures var sent := RelayStep(received, native).value;
      (sent.Data, sent.DataLength) == AuthoritativePayload(received.value, native) &&
      (NativeVmx(received.value, native) ==> sent.CompressedData == None && sent.CompressedLength == 0)
  {
  }

  /** The library calls of one loop iteration. */
  function IterationEvents(received: Option<MediaFrame>, native: bool): (es: seq<Event>)
  {
    [Poll(MediaTypes, ReceiveTimeoutMs)] +
    (match RelayStep(received, native)
     case Some(f) => [Send(f)]
     case None => [])
  }

  /** The library calls of the relay loop over a run of receive outcomes. */
  function RelayTrace(received: seq<Option<MediaFrame>>, native: bool): (es: seq<Event>)
  {
    if |received| == 0 then []
    else RelayTrace(received[..|received| - 1], native) +
         IterationEvents(received[|received| - 1], native)
  }

  /** The relay loop, run over a finite prefix of receive outcomes: each
      iteration polls once, copies the frame and forwards it per its type. */
  method RelayLoop(received: seq<Option<MediaFrame>>, native: bool) returns (trace: seq<Event>)
    ensures trace == RelayTrace(received, native)
  {
    trace := [];
    var i := 0;
    while i < |received|
      invariant 0 <= i <= |received|
      invariant trace == RelayTrace(received[..i], native)
    {
      var theFrame := received[i];
      trace := trace + [Poll(MediaTypes, ReceiveTimeoutMs)];
      if theFrame.Some? {
        var frame := theFrame.value;
        match frame.Type {
          case Video =>
            if native && theFrame.value.Codec == VMX1 {
              frame := frame.(Data := theFrame.value.CompressedData);
              frame := frame.(DataLength := theFrame.value.CompressedLength);
              frame := frame.(CompressedData := None);
              frame := frame.(CompressedLength := 0);
            }
            trace := trace + [Send(frame)];
          case Audio =>
            trace := trace + [Send(frame)];
          case Metadata =>
            trace := trace + [Send(frame)];
          case _ =>
        }
      }
      assert received[..i + 1][..i] == received[..i];
      i := i + 1;
    }
    assert received[..i] == received;
  }

  /** The whole program over a finite prefix of receive outcomes: usage
      exits before any stream exists; otherwise sender, then receiver, then
      the relay loop. */
  method ReceiveTestMain(argv: seq<string>, received: seq<Option<MediaFrame>>)
    returns (trace: seq<Event>)
    requires forall i :: 0 <= i < |argv| ==> IsCString(argv[i])
    ensures |argv| < 2 ==> trace == [SetLogFile(LogFileName)]
    ensures |argv| >= 2 ==>
      |trace| >= 3 &&
      trace[..2] == [SetLogFile(LogFileName), CreateSender(LoopbackName, DefaultQuality)] &&
      trace[3..] == RelayTrace(received, ModeArgument(argv, "nativevmx"))
    ensures |argv| >= 2 && ModeArgument(argv, "nativevmx") ==>
      trace[2] == CreateReceiver(ReceiverConfig(argv[1], MediaTypes, UYVYorUYVAorP216orPA16, CompressedOnly))
    ensures |argv| >= 2 && ModeArgument(argv, "16bit") ==>
      trace[2] == CreateReceiver(ReceiverConfig(argv[1], MediaTypes, P216, NoFlags))
    ensures |argv| >= 2 && !ModeArgument(argv, "nativevmx") && !ModeArgument(argv, "16bit") ==>
      trace[2] == CreateReceiver(ReceiverConfig(argv[1], MediaTypes, UYVYorUYVAorP216orPA16, NoFlags))
  {
    trace := [SetLogFile(LogFileName)];
    if |argv| < 2 {
      return;
    }
    trace := trace + [CreateSender(LoopbackName, DefaultQuality)];
    var native, config := SelectReceiver(argv);
    trace := trace + [CreateReceiver(config)];
    var relayed := RelayLoop(received, native);
    trace := trace + relayed;
  }

  predicate IsPoll(e: Event) { e.Poll? }

  /** The frames sent in a run of library calls, in order. */
  function SentFrames(es: seq<Event>): (fs: seq<MediaFrame>)
    ensures |fs| <= |es|
  {
    if |es| == 0 then []
    else SentFrames(es[..|es| - 1]) + (if es[|es| - 1].Send? then [es[|es| - 1].frame] else [])
  }

  lemma {:induction false} SentFramesAppend(a: seq<Event>, b: seq<Event>)
    ensures SentFrames(a + b) == SentFrames(a) + SentFrames(b)
    decreases |b|
  {
    if |b| == 0 {
      assert a + b == a;
    } else {
      assert (a + b)[..|a + b| - 1] == a + b[..|b| - 1];
      SentFramesAppend(a, b[..|b| - 1]);
    }
  }

  /** The number of receive outcomes that are frames of a forwarded type. */
  function ForwardableCount(received: seq<Option<MediaFrame>>): (n: nat)
    ensures n <= |received|
  {
    if |received| == 0 then 0
    else ForwardableCount(received[..|received| - 1]) +
         (var r := received[|received| - 1]; if r.Some? && r.value.Type in MediaTypes then 1 else 0)
  }

  /** The loop polls once per iteration whatever the outcome, and sends
      exactly once for each received Video, Audio or Metadata frame. */
  lemma {:induction false} RelayTraceCounts(received: seq<Option<MediaFrame>>, native: bool)
    ensures CountWhere(RelayTrace(received, native), IsPoll) == |received|
    ensures |SentFrames(RelayTrace(received, native))| == ForwardableCount(received)
  {
    if |received| > 0 {
      var init, last := received[..|received| - 1], received[|received| - 1];
      RelayTraceCounts(init, native);
      CountWhereAppend(RelayTrace(init, native), IterationEvents(last, native), IsPoll);
      SentFramesAppend(RelayTrace(init, native), IterationEvents(last, native));
      var it := IterationEvents(last, native);
      assert it[..|it| - 1] == [] || it[..|it| - 1] == [Poll(MediaTypes, ReceiveTimeoutMs)];
    }
  }

  /** Every frame the loop sends is what RelayStep makes of some received frame. */
  lemma {:induction false} SentFramesComeFromReceived(received: seq<Option<MediaFrame>>, native: bool, f: MediaFrame)
    requires f in SentFrames(RelayTrace(received, native))
    ensures exists k :: 0 <= k < |received| && RelayStep(received[k], native) == Some(f)
  {
    var init, last := received[..|received| - 1], received[|received| - 1];
    var it := IterationEvents(last, native);
    SentFramesAppend(RelayTrace(init, native), it);
    assert it[..|it| - 1] == [] || it[..|it| - 1] == [Poll(MediaTypes, ReceiveTimeoutMs)];
    if f in SentFrames(RelayTrace(init, native)) {
      SentFramesComeFromReceived(init, native, f);
      var k :| 0 <= k < |init| && RelayStep(init[k], native) == Some(f);
      assert received[k] == init[k];
    } else {
      assert RelayStep(received[|received| - 1], native) == Some(f);
    }
  }

  /** A run of timeouts sends nothing and the loop keeps polling. */
  lemma TimeoutsSendNothing(received: seq<Option<MediaFrame>>, native: bool)
    requires forall k :: 0 <= k < |received| ==> received[k].None?
    ensures SentFrames(RelayTrace(received, native)) == []
    ensures CountWhere(RelayTrace(received, native), IsPoll) == |received|
  {
    RelayTraceCounts(received, native);
    NoForwardableTimeouts(received);
  }

  lemma {:induction false} NoForwardableTimeouts(received: seq<Option<MediaFrame>>)
    requires forall k :: 0 <= k < |received| ==> received[k].None?
    ensures ForwardableCount(received) == 0
  {
    if |received| > 0 {
      NoForwardableTimeouts(received[..|received| - 1]);
    }
  }

  /** In native mode no forwarded VMX1 video frame presents a compressed
      payload: whatever the loop sends carries its payload in `Data`. */
  lemma NativeSendsHaveNoCompressedPayload(received: seq<Option<MediaFrame>>, f: MediaFrame)
    requires f in SentFrames(RelayTrace(received, true))
    requires f.Type == Video && f.Codec == VMX1
    ensures f.CompressedData == None && f.CompressedLength == 0
  {
    SentFramesComeFromReceived(received, true, f);
  }

  /** Outside native mode every sent frame is an exact copy of a received one. */
  lemma NonNativeSendsAreCopies(received: seq<Option<MediaFrame>>, f: MediaFrame)
    requires f in SentFrames(RelayTrace(received, false))
    ensures Some(f) in received
  {
    SentFramesComeFromReceived(received, false, f);
  }

  /** A natively received VMX1 frame with a 100-byte compressed payload and
      no primary payload leaves with the payload in `Data`. */
  lemma NativeVmxScenario(buf: BufId)
    ensures var f := ZeroFrame.(Type := Video, Codec := VMX1, CompressedData := Some(buf), CompressedLength := 100);
      RelayStep(Some(f), true) ==
        Some(f.(Data := Some(buf), DataLength := 100, CompressedData := None, CompressedLength := 0))
  {
  }

  /** Five timeouts in a row: five polls and no send. */
  lemma FiveTimeoutsScenario(native: bool)
    ensures var p := Poll(MediaTypes, ReceiveTimeoutMs);
      RelayTrace([None, None, None, None, None], native) == [p, p, p, p, p]
  {
    var p := Poll(MediaTypes, ReceiveTimeoutMs);
    var rs: seq<Option<MediaFrame>> := [None, None, None, None, None];
    assert IterationEvents(None, native) == [p];
    assert rs[..1][..0] == [];
    assert RelayTrace(rs[..1], native) == [p];
    assert rs[..2][..1] == rs[..1];
    assert RelayTrace(rs[..2], native) == [p, p];
    assert rs[..3][..2] == rs[..2];
    assert RelayTrace(rs[..3], native) == [p, p, p];
    assert rs[..4][..3] == rs[..3];
    assert RelayTrace(rs[..4], native) == [p, p, p, p];
    assert rs[..5][..4] == rs[..4] && rs[..5] == rs;
  }
}
