/**
 * The movie decode controller (Movie): opening a container, choosing the
 * video stream and the target pixel layout, pulling one packet per
 * available() call, and uploading the converted frame in read().
 *
 * The decoding library is replaced by a MediaFile value: whether each setup
 * step succeeds, the streams with their media types, and the packets in
 * container order, each with the outcome the decoder reports for it.
 */
module Media {
  import Gl

  datatype Option<T> = None | Some(value: T)

  /** Media type of a stream (AVMEDIA_TYPE_*). */
  datatype MediaType = Video | Audio | Subtitle | Data | Attachment | Unknown

  /** The source pixel-format descriptor; only its component count is used. */
  datatype PixFmtDescriptor = PixFmtDescriptor(nbComponents: nat)

  /** One stream of the container. `pixFmt` is None when the library has no
      descriptor for the decoder's pixel format. */
  datatype Stream = Stream(
    codecType: MediaType,
    decoderOpens: bool,
    width: int,
    height: int,
    pixFmt: Option<PixFmtDescriptor>)

  /** What receiving a frame reports after a packet was sent: a frame (given
      already converted to the target layout, as opaque bytes), EAGAIN, EOF,
      or another error code. */
  datatype Receive = Frame(pixels: seq<bv8>) | Again | EndOfFile | Failure(code: int)

  datatype Packet = Packet(streamIndex: int, outcome: Receive)

  /** The container and the outcome of each fallible setup step. */
  datatype MediaFile = MediaFile(
    opens: bool,
    hasStreamInfo: bool,
    streams: seq<Stream>,
    scalerCreated: bool,
    frameAllocated: bool,
    convertedFrameAllocated: bool,
    packets: seq<Packet>)

  /** What is left of the container once opening it failed: the library frees
      the context it was given, so no stream and no packet remains. */
  const NoContainer := MediaFile(false, false, [], false, false, false, [])

  /** Target pixel formats of the conversion. */
  datatype PixelFormat = Rgba | Rgb24

  datatype Layout = Layout(channels: int, format: PixelFormat)

  /** Channel count and conversion format: RGBA when no channel count is
      requested (a negative request) or the source has 4 components, RGB24
      otherwise. A non-negative request never forces RGBA. */
  function TargetLayout(requested: int, desc: Option<PixFmtDescriptor>): (layout: Layout)
    ensures layout.channels == 3 || layout.channels == 4
    ensures layout.channels == 4 <==> requested < 0 || (desc.Some? && desc.value.nbComponents == 4)
    ensures layout.format == Rgba <==> layout.channels == 4
  {
    if requested < 0 then Layout(4, Rgba)
    else if desc.Some? && desc.value.nbComponents == 4 then Layout(4, Rgba)
    else Layout(3, Rgb24)
  }

  /** Asking for 4 channels from a 3-component source still yields RGB. */
  lemma RequestDoesNotForceRgba(requested: int)
    requires requested >= 0
    ensures TargetLayout(requested, Some(PixFmtDescriptor(3))) == Layout(3, Rgb24)
    ensures TargetLayout(requested, None) == Layout(3, Rgb24)
  {
  }

  /** The texture format read() uploads with: RGBA exactly for 4 channels. */
  function UploadFormat(channels: int): (format: Gl.PixelFormat)
    ensures format == Gl.Rgba <==> channels == 4
    ensures format == Gl.Rgb <==> channels != 4
  {
    if channels == 4 then Gl.Rgba else Gl.Rgb
  }

  /** The uploaded format always matches the conversion format chosen at open. */
  lemma UploadMatchesConversion(requested: int, desc: Option<PixFmtDescriptor>)
    ensures var layout := TargetLayout(requested, desc);
      UploadFormat(layout.channels) == (if layout.format == Rgba then Gl.Rgba else Gl.Rgb)
  {
  }

  /** Index of the first video stream, or -1 when there is none. */
  function FirstVideoIndex(streams: seq<Stream>): (index: int)
    ensures -1 <= index < |streams|
    ensures index == -1 <==> forall k :: 0 <= k < |streams| ==> streams[k].codecType != Video
    ensures index >= 0 ==> streams[index].codecType == Video
    ensures forall k :: 0 <= k < index ==> streams[k].codecType != Video
  {
    if streams == [] then -1
    else if streams[0].codecType == Video then 0
    else
      var rest := FirstVideoIndex(streams[1..]);
      if rest == -1 then -1 else rest + 1
  }

  /** The stream search of init_from_file: a first-match linear scan. */
  method FindVideoStream(streams: seq<Stream>) returns (videoStream: int)
    ensures videoStream == FirstVideoIndex(streams)
  {
    videoStream := -1;
    var i := 0;
    while i < |streams|
      invariant 0 <= i <= |streams|
      invariant forall k :: 0 <= k < i ==> streams[k].codecType != Video
    {
      if streams[i].codecType == Video {
        videoStream := i;
        return;
      }
      i := i + 1;
    }
  }

  /** The fallible steps of init_from_file, in the order they run. */
  datatype Stage = OpenInput | FindStreamInfo | FindVideo | OpenCodec | CreateScaler | AllocFrame | AllocConvertedFrame

  const STAGES: seq<Stage> := [OpenInput, FindStreamInfo, FindVideo, OpenCodec, CreateScaler, AllocFrame, AllocConvertedFrame]

  /** Whether a step succeeds on `file`. */
  predicate Passes(file: MediaFile, stage: Stage)
  {
    match stage
    case OpenInput => file.opens
    case FindStreamInfo => file.hasStreamInfo
    case FindVideo => FirstVideoIndex(file.streams) >= 0
    case OpenCodec =>
      var v := FirstVideoIndex(file.streams);
      v >= 0 && file.streams[v].decoderOpens
    case CreateScaler => file.scalerCreated
    case AllocFrame => file.frameAllocated
    case AllocConvertedFrame => file.convertedFrameAllocated
  }

  /** Position of a step in STAGES. */
  function Ordinal(stage: Stage): (n: nat)
    ensures n < |STAGES| && STAGES[n] == stage
  {
    match stage
    case OpenInput => 0
    case FindStreamInfo => 1
    case FindVideo => 2
    case OpenCodec => 3
    case CreateScaler => 4
    case AllocFrame => 5
    case AllocConvertedFrame => 6
  }

  /** The step init_from_file fails at, if any, checking the steps in order. */
  function FirstFailure(file: MediaFile): Option<Stage>
  {
    if !file.opens then Some(OpenInput)
    else if !file.hasStreamInfo then Some(FindStreamInfo)
    else if FirstVideoIndex(file.streams) < 0 then Some(FindVideo)
    else if !file.streams[FirstVideoIndex(file.streams)].decoderOpens then Some(OpenCodec)
    else if !file.scalerCreated then Some(CreateScaler)
    else if !file.frameAllocated then Some(AllocFrame)
    else if !file.convertedFrameAllocated then Some(AllocConvertedFrame)
    else None
  }

  /** FirstFailure names a failing step every earlier step of which passes,
      and it is None exactly when every step passes. */
  lemma FirstFailureIsFirst(file: MediaFile)
    ensures FirstFailure(file).Some? ==>
      var k := Ordinal(FirstFailure(file).value);
      !Passes(file, STAGES[k]) && forall j :: 0 <= j < k ==> Passes(file, STAGES[j])
    ensures FirstFailure(file).None? <==> forall j :: 0 <= j < |STAGES| ==> Passes(file, STAGES[j])
  {
    if FirstFailure(file).None? {
      forall j | 0 <= j < |STAGES|
        ensures Passes(file, STAGES[j])
      {
        assert STAGES[j] in STAGES;
      }
    } else {
      var k := Ordinal(FirstFailure(file).value);
      assert !Passes(file, STAGES[k]);
    }
  }

  /** The steps init_from_file runs: all of them, or those up to and
      including the first failing one. */
  function StagesRun(file: MediaFile): (run: seq<Stage>)
    ensures 1 <= |run| <= |STAGES| && run == STAGES[..|run|]
    ensures FirstFailure(file).None? ==> run == STAGES
    ensures FirstFailure(file).Some? ==> run[|run| - 1] == FirstFailure(file).value
  {
    match FirstFailure(file)
    case None => STAGES
    case Some(stage) => STAGES[..Ordinal(stage) + 1]
  }

  /** The prefixes of STAGES, written out. */
  lemma StagePrefixes()
    ensures STAGES[..1] == [OpenInput]
    ensures STAGES[..2] == [OpenInput, FindStreamInfo]
    ensures STAGES[..3] == [OpenInput, FindStreamInfo, FindVideo]
    ensures STAGES[..4] == STAGES[..3] + [OpenCodec]
    ensures STAGES[..5] == STAGES[..3] + [OpenCodec, CreateScaler]
    ensures STAGES[..6] == STAGES[..3] + [OpenCodec, CreateScaler, AllocFrame]
    ensures STAGES == STAGES[..3] + [OpenCodec, CreateScaler, AllocFrame, AllocConvertedFrame]
  {
  }

  /** Calls into the decoding library made after setup. */
  datatype AvCall =
    | ReadFrame | SendPacket | ReceiveFrame | Scale | FrameUnref | PacketUnref
    | FreeBuffer | FreeFrame | FreeConvertedFrame | CloseCodec | FreeCodecContext
    | CloseInput | FreeFormatContext | FreePacket | FreeScaler

  /** What one available() call does at read position `cursor`. */
  datatype StepOutcome = StepOutcome(available: bool, consumed: nat, calls: seq<AvCall>)

  /** A packet that yields a frame for the selected stream. */
  predicate Decodable(p: Packet, videoStream: int)
  {
    p.streamIndex == videoStream && p.outcome.Frame?
  }

  /** One available() call: read a packet; decode it only if it belongs to
      the video stream; unreference frame and packet whenever one was read. */
  function Step(packets: seq<Packet>, cursor: nat, videoStream: int): (s: StepOutcome)
    ensures s.available <==> cursor < |packets| && Decodable(packets[cursor], videoStream)
    ensures s.consumed == if cursor < |packets| then 1 else 0
    ensures cursor >= |packets| ==> s.calls == [ReadFrame]
  {
    if cursor >= |packets| then StepOutcome(false, 0, [ReadFrame])
    else
      var p := packets[cursor];
      var decode :=
        if p.streamIndex != videoStream then []
        else [SendPacket, ReceiveFrame] + (if p.outcome.Frame? then [Scale] else []);
      StepOutcome(Decodable(p, videoStream), 1, [ReadFrame] + decode + [FrameUnref, PacketUnref])
  }

  /** The library calls of one available() call: a read first; when a packet
      was read, frame and packet unreferenced last; a packet of another stream
      never reaches the decoder; the frame is converted exactly when the call
      reports a new frame. */
  lemma StepCalls(packets: seq<Packet>, cursor: nat, videoStream: int)
    ensures var s := Step(packets, cursor, videoStream);
      && (cursor < |packets| ==> |s.calls| >= 3 && s.calls[0] == ReadFrame && s.calls[|s.calls| - 2..] == [FrameUnref, PacketUnref])
      && (cursor < |packets| && packets[cursor].streamIndex != videoStream ==> SendPacket !in s.calls && ReceiveFrame !in s.calls)
      && (s.available <==> Scale in s.calls)
  {
  }

  /** Number of `true` entries. */
  function CountTrue(bs: seq<bool>): nat
  {
    if bs == [] then 0 else CountTrue(bs[..|bs| - 1]) + (if bs[|bs| - 1] then 1 else 0)
  }

  /** The count is 0 exactly when no entry is true, and |bs| exactly when
      every entry is. */
  lemma {:induction false} CountTrueExtremes(bs: seq<bool>)
    ensures CountTrue(bs) <= |bs|
    ensures CountTrue(bs) == 0 <==> forall i :: 0 <= i < |bs| ==> !bs[i]
    ensures CountTrue(bs) == |bs| <==> forall i :: 0 <= i < |bs| ==> bs[i]
    decreases |bs|
  {
    if bs != [] {
      var init := bs[..|bs| - 1];
      CountTrueExtremes(init);
      assert forall i :: 0 <= i < |init| ==> init[i] == bs[i];
    }
  }

  /** Counting one more result. */
  lemma CountTrueAppend(bs: seq<bool>, b: bool)
    ensures CountTrue(bs + [b]) == CountTrue(bs) + (if b then 1 else 0)
  {
    assert (bs + [b])[..|bs|] == bs;
  }

  /** Number of packets that decode to a frame of the selected stream. */
  function DecodedFrames(packets: seq<Packet>, videoStream: int): (n: nat)
    ensures n <= |packets|
  {
    if packets == [] then 0
    else DecodedFrames(packets[..|packets| - 1], videoStream) + (if Decodable(packets[|packets| - 1], videoStream) then 1 else 0)
  }

  /** No frame is decoded exactly when no packet is decodable. */
  lemma {:induction false} NoDecodedFrames(packets: seq<Packet>, videoStream: int)
    ensures DecodedFrames(packets, videoStream) == 0 <==> forall i :: 0 <= i < |packets| ==> !Decodable(packets[i], videoStream)
    decreases |packets|
  {
    if packets != [] {
      var init := packets[..|packets| - 1];
      NoDecodedFrames(init, videoStream);
      assert forall i :: 0 <= i < |init| ==> init[i] == packets[i];
    }
  }

  /** Counting the decodable packets of one more prefix. */
  lemma DecodedFramesPrefix(packets: seq<Packet>, c: nat, videoStream: int)
    requires c < |packets|
    ensures DecodedFrames(packets[..c + 1], videoStream) ==
      DecodedFrames(packets[..c], videoStream) + (if Decodable(packets[c], videoStream) then 1 else 0)
  {
    assert packets[..c + 1][..c] == packets[..c];
  }

  /** The results of the first `calls` available() calls on a freshly opened
      file: true exactly for the decodable packets, false past the last one. */
  function PlayResults(packets: seq<Packet>, videoStream: int, calls: nat): (bs: seq<bool>)
    ensures |bs| == calls
  {
    if calls == 0 then []
    else
      var k := calls - 1;
      PlayResults(packets, videoStream, k) + [k < |packets| && Decodable(packets[k], videoStream)]
  }

  /** Each result of PlayResults, read off by position. */
  lemma {:induction false} PlayResultsAt(packets: seq<Packet>, videoStream: int, calls: nat)
    ensures forall k :: 0 <= k < calls ==>
      PlayResults(packets, videoStream, calls)[k] == (k < |packets| && Decodable(packets[k], videoStream))
  {
    if calls > 0 {
      PlayResultsAt(packets, videoStream, calls - 1);
    }
  }

  /** While packets remain, the true results among the first `calls` are
      the decodable packets among those read. */
  lemma {:induction false} PlayResultsCount(packets: seq<Packet>, videoStream: int, calls: nat)
    requires calls <= |packets|
    ensures CountTrue(PlayResults(packets, videoStream, calls)) == DecodedFrames(packets[..calls], videoStream)
  {
    if calls == 0 {
      assert packets[..0] == [];
    } else {
      var k := calls - 1;
      var before := PlayResults(packets, videoStream, k);
      assert PlayResults(packets, videoStream, calls) == before + [Decodable(packets[k], videoStream)];
      PlayResultsCount(packets, videoStream, k);
      CountTrueAppend(before, Decodable(packets[k], videoStream));
      DecodedFramesPrefix(packets, k, videoStream);
    }
  }

  /** Calls past the last packet add no true result. */
  lemma {:induction false} PlayResultsPastEnd(packets: seq<Packet>, videoStream: int, calls: nat)
    requires |packets| <= calls
    ensures CountTrue(PlayResults(packets, videoStream, calls)) == CountTrue(PlayResults(packets, videoStream, |packets|))
    decreases calls
  {
    if calls > |packets| {
      var before := PlayResults(packets, videoStream, calls - 1);
      assert PlayResults(packets, videoStream, calls) == before + [false];
      PlayResultsPastEnd(packets, videoStream, calls - 1);
      CountTrueAppend(before, false);
    }
  }

  /** A whole play-through: one call per packet and `extra` calls more. Its
      true results are exactly the decodable packets, so they number
      DecodedFrames, at most one per packet. */
  lemma PlayResultsSummary(packets: seq<Packet>, videoStream: int, extra: nat, bs: seq<bool>)
    requires bs == PlayResults(packets, videoStream, |packets| + extra)
    ensures |bs| == |packets| + extra
    ensures CountTrue(bs) == DecodedFrames(packets, videoStream) <= |packets|
    ensures forall k :: 0 <= k < |packets| ==> bs[k] == Decodable(packets[k], videoStream)
    ensures forall k :: |packets| <= k < |bs| ==> !bs[k]
  {
    assert CountTrue(bs) == DecodedFrames(packets, videoStream) by {
      PlayResultsPastEnd(packets, videoStream, |packets| + extra);
      PlayResultsCount(packets, videoStream, |packets|);
      assert packets[..|packets|] == packets;
    }
    PlayResultsAt(packets, videoStream, |packets| + extra);
  }

  /** The teardown order of the destructor. */
  function TeardownCalls(): (calls: seq<AvCall>)
    ensures |calls| == 9
    ensures forall i, j :: 0 <= i < j < |calls| ==> calls[i] != calls[j]
    ensures forall c :: c in calls <==> (c.FreeBuffer? || c.FreeFrame? || c.FreeConvertedFrame? || c.CloseCodec?
      || c.FreeCodecContext? || c.CloseInput? || c.FreeFormatContext? || c.FreePacket? || c.FreeScaler?)
    ensures calls[3] == CloseCodec && calls[4] == FreeCodecContext && calls[5] == CloseInput
  {
    [FreeBuffer, FreeFrame, FreeConvertedFrame, CloseCodec, FreeCodecContext, CloseInput, FreeFormatContext, FreePacket, FreeScaler]
  }

  class Movie {
    // image fields, set by init() once setup succeeds
    var width: int
    var height: int
    var channels: int
    // decoding state
    var videoStream: int
    var mFrameCounter: int
    /** The decoding container and how many of its packets were read. */
    var file: MediaFile
    var cursor: nat
    /** The converted-frame buffer that read() uploads. */
    var converted: seq<bv8>
    /** Setup steps attempted, and decoding-library calls made afterwards. */
    var attempted: seq<Stage>
    var avLog: seq<AvCall>
    /** Results of the available() calls so far. */
    ghost var results: seq<bool>
    /** Whether the last init_from_file returned 1. */
    ghost var ready: bool

    ghost predicate Valid()
      reads this
    {
      && mFrameCounter == CountTrue(results)
      && cursor <= |file.packets|
      && (ready ==> 0 <= videoStream < |file.streams| && file.streams[videoStream].codecType == Video)
      && (ready ==> channels == 3 || channels == 4)
    }

    /** Opens `source` as the Movie constructor does: the object exists whether
        or not setup succeeds. */
    constructor (source: MediaFile, requested: int)
      ensures Valid() && results == [] && mFrameCounter == 0 && avLog == []
      ensures attempted == StagesRun(source)
      ensures ready <==> FirstFailure(source).None?
      ensures ready ==> file == source && cursor == 0 && videoStream == FirstVideoIndex(source.streams)
      ensures ready ==>
        var stream := source.streams[videoStream];
        width == stream.width && height == stream.height
        && channels == TargetLayout(requested, stream.pixFmt).channels
      ensures !ready ==> width == 0 && height == 0 && channels == 0
    {
      width, height, channels := 0, 0, 0;
      videoStream := -1;
      mFrameCounter := 0;
      file := source;
      cursor := 0;
      converted := [];
      attempted := [];
      avLog := [];
      results := [];
      ready := false;
      new;
      var _ := InitFromFile(source, requested);
    }

    /** init_from_file: runs the setup steps in order and returns -1 at the
        first failing one, 1 when all succeed. */
    method InitFromFile(source: MediaFile, requested: int) returns (r: int)
      requires Valid()
      modifies this`ready, this`attempted, this`file, this`cursor, this`videoStream
      modifies this`width, this`height, this`channels
      ensures Valid()
      ensures r == 1 || r == -1
      ensures r == 1 <==> FirstFailure(source).None?
      ensures ready <==> r == 1
      ensures attempted == old(attempted) + StagesRun(source)
      ensures file == (if source.opens then source else NoContainer) && cursor == 0
      ensures videoStream == if source.opens && source.hasStreamInfo then FirstVideoIndex(source.streams) else old(videoStream)
      ensures r == 1 ==>
        var stream := source.streams[videoStream];
        width == stream.width && height == stream.height
        && channels == TargetLayout(requested, stream.pixFmt).channels
      ensures r == -1 ==> width == old(width) && height == old(height) && channels == old(channels)
    {
      StagePrefixes();
      ready := false;
      var found := OpenContainer(source);
      if !found {
        return -1;
      }
      var decoding := OpenDecoder(source, requested);
      if !decoding {
        return -1;
      }
      ready := true;
      return 1;
    }

    /** The first half of init_from_file: open the container, read its stream
        information and select the first video stream. */
    method OpenContainer(source: MediaFile) returns (found: bool)
      requires Valid() && !ready
      modifies this`attempted, this`file, this`cursor, this`videoStream
      ensures Valid()
      ensures found <==> source.opens && source.hasStreamInfo && FirstVideoIndex(source.streams) >= 0
      ensures attempted == old(attempted) +
        if !source.opens then [OpenInput]
        else if !source.hasStreamInfo then [OpenInput, FindStreamInfo]
        else [OpenInput, FindStreamInfo, FindVideo]
      ensures file == (if source.opens then source else NoContainer) && cursor == 0
      ensures videoStream == if source.opens && source.hasStreamInfo then FirstVideoIndex(source.streams) else old(videoStream)
    {
      attempted := attempted + [OpenInput];
      if !source.opens {
        file, cursor := NoContainer, 0;
        return false;
      }
      file, cursor := source, 0;

      attempted := attempted + [FindStreamInfo];
      if !source.hasStreamInfo {
        return false;
      }

      attempted := attempted + [FindVideo];
      videoStream := FindVideoStream(source.streams);
      found := videoStream != -1;
    }

    /** The second half of init_from_file: open the decoder, choose the target
        layout, create the scaler and the two frames, then initialise the image. */
    method OpenDecoder(source: MediaFile, requested: int) returns (decoding: bool)
      requires Valid() && !ready
      requires 0 <= videoStream < |source.streams| && file == source
      modifies this`attempted, this`width, this`height, this`channels
      ensures Valid()
      ensures decoding <==> (source.streams[videoStream].decoderOpens && source.scalerCreated
        && source.frameAllocated && source.convertedFrameAllocated)
      ensures attempted == old(attempted) +
        if !source.streams[videoStream].decoderOpens then [OpenCodec]
        else if !source.scalerCreated then [OpenCodec, CreateScaler]
        else if !source.frameAllocated then [OpenCodec, CreateScaler, AllocFrame]
        else [OpenCodec, CreateScaler, AllocFrame, AllocConvertedFrame]
      ensures decoding ==>
        var stream := source.streams[videoStream];
        width == stream.width && height == stream.height
        && channels == TargetLayout(requested, stream.pixFmt).channels
      ensures !decoding ==> width == old(width) && height == old(height) && channels == old(channels)
    {
      attempted := attempted + [OpenCodec];
      var stream := source.streams[videoStream];
      if !stream.decoderOpens {
        return false;
      }

      var layout := TargetLayout(requested, stream.pixFmt);

      attempted := attempted + [CreateScaler];
      if !source.scalerCreated {
        return false;
      }

      attempted := attempted + [AllocFrame];
      if !source.frameAllocated {
        return false;
      }

      attempted := attempted + [AllocConvertedFrame];
      if !source.convertedFrameAllocated {
        return false;
      }

      // the pixel buffer and the packet are allocated without a check
      width, height, channels := stream.width, stream.height, layout.channels;
      decoding := true;
    }

    /** available(): consumes at most one packet and reports whether it
        produced a new frame of the video stream. */
    method Available() returns (available: bool)
      requires Valid() && ready
      modifies this`cursor, this`mFrameCounter, this`converted, this`avLog, this`results
      ensures Valid()
      ensures var s := Step(file.packets, old(cursor), videoStream);
        && available == s.available
        && cursor == old(cursor) + s.consumed
        && avLog == old(avLog) + s.calls
      ensures mFrameCounter == old(mFrameCounter) + (if available then 1 else 0)
      ensures available ==> converted == file.packets[old(cursor)].outcome.pixels
      ensures !available ==> converted == old(converted)
      ensures results == old(results) + [available]
    {
      available := false;
      if cursor < |file.packets| {
        var packet := file.packets[cursor];
        cursor := cursor + 1;
        var decode: seq<AvCall> := [];
        if packet.streamIndex == videoStream {
          decode := [SendPacket, ReceiveFrame];
          match packet.outcome {
            case Frame(pixels) =>
              mFrameCounter := mFrameCounter + 1;
              available := true;
              converted := pixels;
              decode := decode + [Scale];
            case Again =>
              available := false;
            case EndOfFile =>
              available := false;
            case Failure(_) =>
              available := false;
          }
        }
        avLog := avLog + ([ReadFrame] + decode + [FrameUnref, PacketUnref]);
      } else {
        avLog := avLog + [ReadFrame];
      }
      CountTrueAppend(results, available);
      results := results + [available];
      assert mFrameCounter == CountTrue(results);
      assert cursor <= |file.packets|;
      assert ready ==> 0 <= videoStream < |file.streams| && file.streams[videoStream].codecType == Video;
      assert ready ==> channels == 3 || channels == 4;
    }

    /** read(): uploads the converted frame, RGBA for 4 channels, RGB otherwise. */
    method Read(gl: Gl.Context)
      requires ready
      modifies gl`log
      ensures gl.log == old(gl.log) + [Gl.TexImage2D(UploadFormat(channels), width, height, UploadFormat(channels), converted)]
    {
      var format := if channels == 4 then Gl.Rgba else Gl.Rgb;
      gl.Issue(Gl.TexImage2D(format, width, height, format, converted));
    }

    /** The destructor: releases every decoding resource in a fixed order. */
    method Close()
      modifies this`avLog
      ensures avLog == old(avLog) + TeardownCalls()
    {
      avLog := avLog + [FreeBuffer, FreeFrame, FreeConvertedFrame];
      avLog := avLog + [CloseCodec, FreeCodecContext];
      avLog := avLog + [CloseInput, FreeFormatContext];
      avLog := avLog + [FreePacket, FreeScaler];
    }
  }

  /** Calls available() `calls` times on a movie freshly opened on `source`
      with video stream `vs`. */
  method CallAvailable(movie: Movie, source: MediaFile, vs: int, calls: nat) returns (results: seq<bool>)
    requires movie.Valid() && movie.ready
    requires movie.file == source && movie.videoStream == vs
    requires movie.cursor == 0 && movie.results == []
    modifies movie
    ensures movie.Valid() && movie.results == results == PlayResults(source.packets, vs, calls)
    ensures movie.mFrameCounter == CountTrue(results)
  {
    var n := |source.packets|;
    results := [];
    var i := 0;
    while i < calls
      invariant 0 <= i <= calls
      invariant movie.Valid() && movie.ready
      invariant movie.file == source && movie.videoStream == vs
      invariant movie.cursor == if i <= n then i else n
      invariant movie.results == results == PlayResults(source.packets, vs, i)
    {
      var available := movie.Available();
      assert available == (i < n && Decodable(source.packets[i], vs));
      assert PlayResults(source.packets, vs, i + 1) == results + [available];
      results := results + [available];
      i := i + 1;
    }
  }

  /** Plays a whole file: opens it and calls available() once per packet and
      `extra` times more. Exactly the decodable packets of the video stream
      yield true, the frame counter ends at their number, and every call past
      the last packet yields false. */
  method PlayThrough(source: MediaFile, requested: int, extra: nat) returns (results: seq<bool>, frames: int)
    requires FirstFailure(source).None?
    ensures |results| == |source.packets| + extra
    ensures frames == CountTrue(results) == DecodedFrames(source.packets, FirstVideoIndex(source.streams))
    ensures frames <= |source.packets|
    ensures forall k :: 0 <= k < |source.packets| ==> results[k] == Decodable(source.packets[k], FirstVideoIndex(source.streams))
    ensures forall k :: |source.packets| <= k < |results| ==> !results[k]
  {
    var movie := new Movie(source, requested);
    var vs := FirstVideoIndex(source.streams);
    assert movie.ready && movie.file == source && movie.videoStream == vs;
    results := CallAvailable(movie, source, vs, |source.packets| + extra);
    frames := movie.mFrameCounter;
    PlayResultsSummary(source.packets, vs, extra, results);
  }
}
