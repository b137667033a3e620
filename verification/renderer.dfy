/**
 * The DirectShow-to-NDI video renderer: media-type negotiation, frame
 * geometry and buffer sizing at connection time, and the per-sample decision
 * to forward a frame to the NDI sender.
 *
 * The renderer's globals (the sender handle, the NDI frame descriptor and the
 * owned copy buffer) and its stored media type become one immutable state
 * record; every entry point is a pure function from the old state to a status
 * code and the new state. Calls into the NDI library are not executed: a send
 * is a `Send` value in the result, and whether the sender was created and
 * whether an allocation succeeds are inputs.
 */
module NdiRenderer {

  import opened Wrappers
  import opened Win32
  import opened MediaTypes

  /** Whether ASYNC_MODE is defined: copy each sample and send asynchronously, or send the sample's own memory synchronously. */
  datatype DeliveryMode = Async | Sync

  /** What the frame descriptor's `p_data` points at. */
  datatype FrameData =
    | NoData                    // NULL
    | OwnedBuffer(size: nat)    // the renderer's copy buffer of `size` bytes
    | SampleBuffer(length: nat) // the media sample's own memory

  /** The NDI video frame descriptor the renderer keeps between calls. */
  datatype VideoFrame = VideoFrame(fourCC: FourCC, xres: Int32, yres: Int32, data: FrameData)

  /** The NDI descriptor as the SDK's default constructor leaves it. */
  const DefaultFrame: VideoFrame := VideoFrame(UYVY, 0, 0, NoData)

  /** One call into the NDI sender. */
  datatype Send =
    | AsyncSend(frame: VideoFrame, copied: nat)  // after copying `copied` bytes into the owned buffer
    | SyncSend(frame: VideoFrame)

  /**
   * The renderer. `buffer` is the owned copy buffer (None for NULL, else its
   * size in bytes); `senderPresent` says whether an NDI sender exists.
   */
  datatype Renderer = Renderer(
    mode: DeliveryMode,
    senderPresent: bool,
    mtIn: MediaType,
    frame: VideoFrame,
    buffer: Option<nat>)

  /** A media sample delivered for rendering: what GetPointer returns and GetActualDataLength. */
  datatype Sample = Sample(getPointerHr: HResult, actualLength: nat)

  datatype Step = Step(hr: HResult, next: Renderer)

  datatype RenderStep = RenderStep(hr: HResult, next: Renderer, sent: Option<Send>)

  /** The copy buffer exists only in asynchronous mode, and the descriptor never points at memory of the other mode. */
  predicate Valid(r: Renderer) {
    && (r.mode == Sync ==> r.buffer == None && !r.frame.data.OwnedBuffer?)
    && (r.mode == Async ==> !r.frame.data.SampleBuffer?)
  }

  /** Mathematical absolute value, against which the C negation is compared. */
  function Abs(x: int): (n: nat) {
    if x < 0 then -x else x
  }

  /**
   * The constructor of the first renderer in a process: an empty stored
   * media type, the statically initialised NDI descriptor, no copy buffer,
   * and a sender exactly when creating it succeeded. A failed library
   * initialisation or sender creation is only reported.
   */
  function Construct(mode: DeliveryMode, senderCreated: bool): (r: Renderer)
    ensures Valid(r)
    ensures r.senderPresent <==> senderCreated
    ensures r.buffer == None && r.frame.data == NoData
    ensures r.mtIn.pbFormat == None && r.mtIn.formatType != FormatVideoInfo
  {
    Renderer(mode, senderCreated, EmptyMediaType, DefaultFrame, None)
  }

  /** The conjunction of every condition CheckMediaType demands. */
  predicate Acceptable(mt: MediaType) {
    && mt.formatType == FormatVideoInfo
    && mt.cbFormat >= SizeVideoHeader
    && mt.majorType == MediaTypeVideo
    && mt.subtype in SupportedSubtypes
  }

  /** A VIDEOINFOHEADER format block too short to hold the header. */
  predicate ShortFormat(mt: MediaType) {
    mt.formatType == FormatVideoInfo && mt.cbFormat < SizeVideoHeader
  }

  /**
   * CheckMediaType: accepts exactly the Acceptable media types. The checks run
   * in order format type, format length, major type, subtype, and the first
   * that fails decides the error: a short format block is E_FAIL whatever the
   * major type and subtype; every other rejection is E_INVALIDARG.
   */
  function CheckMediaType(mt: MediaType): (hr: HResult)
    ensures hr == S_OK <==> Acceptable(mt)
    ensures hr == E_FAIL <==> ShortFormat(mt)
    ensures hr == E_INVALIDARG <==> !Acceptable(mt) && !ShortFormat(mt)
    ensures mt.formatType != FormatVideoInfo ==> hr == E_INVALIDARG
  {
    if mt.formatType != FormatVideoInfo then E_INVALIDARG
    else if mt.cbFormat < SizeVideoHeader then E_FAIL
    else if mt.majorType != MediaTypeVideo then E_INVALIDARG
    else if mt.subtype == SubtypeUYVY || mt.subtype == SubtypeNV12
         || mt.subtype == SubtypeRGB32 || mt.subtype == SubtypeARGB32 then NOERROR
    else E_INVALIDARG
  }

  /**
   * SetMediaType: a NULL pointer is E_POINTER and changes nothing. Otherwise
   * the stored media type is replaced first, and then the subtype picks the
   * NDI FourCC; an unsupported subtype is E_INVALIDARG with the FourCC kept
   * but the new media type left in place.
   */
  function SetMediaType(r: Renderer, pmt: Option<MediaType>): (s: Step)
    ensures pmt == None ==> s.hr == E_POINTER && s.next == r
    ensures pmt.Some? ==> s.next.mtIn == pmt.value
    ensures s.hr == S_OK <==> pmt.Some? && pmt.value.subtype in SupportedSubtypes
    ensures pmt.Some? && s.hr != S_OK ==> s.hr == E_INVALIDARG && s.next.frame == r.frame
    ensures s.hr == S_OK ==> SubtypeOf(s.next.frame.fourCC) == pmt.value.subtype
    ensures s.next.frame == r.frame.(fourCC := s.next.frame.fourCC)
    ensures s.next == r.(mtIn := s.next.mtIn, frame := s.next.frame)
  {
    match pmt
    case None => Step(E_POINTER, r)
    case Some(mt) =>
      var stored := r.(mtIn := mt);
      match FourCCOf(mt.subtype)
      case Some(f) => Step(NOERROR, stored.(frame := stored.frame.(fourCC := f)))
      case None => Step(E_INVALIDARG, stored)
  }

  /** The stored media type carries a VIDEOINFOHEADER block CompleteConnect can read. */
  predicate FormatBlockUsable(mt: MediaType) {
    mt.formatType == FormatVideoInfo && mt.cbFormat == SizeofVideoInfoHeader && mt.pbFormat.Some?
  }

  /** The frame height made non-negative by C negation of a 32-bit `int`. */
  function NormalizedHeight(biHeight: Int32): (yres: Int32)
    ensures biHeight != Int32Min ==> yres == Abs(biHeight)
    ensures yres >= 0 <==> biHeight != Int32Min
  {
    if biHeight < 0 then Wrap32(-(biHeight as int)) else biHeight
  }

  /**
   * The byte count passed to malloc/realloc, `xres * yres * biBitCount / 8`
   * evaluated as C does on `int` and converted to `size_t`. When the geometry
   * is non-negative and the product fits in an `int`, this is the exact
   * number of bytes of the frame.
   */
  function FrameBytes(xres: Int32, yres: Int32, bitCount: Word): (n: nat)
    ensures n < 0x1_0000_0000_0000_0000
    ensures 0 <= xres && 0 <= yres && xres * yres * bitCount <= Int32Max ==>
      n == xres * yres * bitCount / 8
  {
    WrappedProductExact(xres, yres, bitCount);
    var product := Wrap32(Wrap32(xres * yres) * bitCount);
    EighthExact(product);
    ToSizeT(CDiv(product, 8))
  }

  /** For a non-negative `int`, C's division by 8 and the conversion to `size_t` give the exact quotient. */
  lemma EighthExact(p: Int32)
    ensures 0 <= p ==> ToSizeT(CDiv(p, 8)) == p / 8
  {
  }

  /** The two wrapped `int` multiplications of the size expression lose nothing when the exact product fits. */
  lemma WrappedProductExact(xres: Int32, yres: Int32, bitCount: Word)
    ensures 0 <= xres && 0 <= yres && xres * yres * bitCount <= Int32Max ==>
      0 <= xres * yres * bitCount && Wrap32(Wrap32(xres * yres) * bitCount) == xres * yres * bitCount
  {
    if 0 <= xres && 0 <= yres && xres * yres * bitCount <= Int32Max {
      var area := xres * yres;
      var bits := area * bitCount;
      assert 0 <= area by { NonNegativeProduct(xres, yres); }
      assert 0 <= bits by { NonNegativeProduct(area, bitCount); }
      if bitCount == 0 {
        assert Wrap32(area) * bitCount == 0;
      } else {
        assert area <= bits by { ProductAtLeast(area, bitCount); }
        assert Wrap32(area) == area;
      }
    }
  }

  lemma NonNegativeProduct(a: int, b: int)
    requires 0 <= a && 0 <= b
    ensures 0 <= a * b
  {
  }

  lemma ProductAtLeast(a: int, b: int)
    requires 0 <= a && 1 <= b
    ensures a <= a * b
  {
    assert a * b == a + a * (b - 1);
    NonNegativeProduct(a, b - 1);
  }

  /**
   * CompleteConnect: rejects a stored media type without a usable
   * VIDEOINFOHEADER block with E_INVALIDARG and no change. Otherwise xres is
   * biWidth and yres the normalised biHeight; in asynchronous mode the copy
   * buffer is then (re)allocated to FrameBytes on every call, and a failed
   * allocation is E_OUTOFMEMORY with the geometry already updated and the
   * buffer gone.
   */
  function CompleteConnect(r: Renderer, allocSucceeds: bool): (s: Step)
    ensures !FormatBlockUsable(r.mtIn) <==> s.hr == E_INVALIDARG
    ensures !FormatBlockUsable(r.mtIn) ==> s.next == r
    ensures FormatBlockUsable(r.mtIn) ==>
      var h := r.mtIn.pbFormat.value;
      && s.next.frame.xres == h.biWidth
      && (h.biHeight != Int32Min ==> s.next.frame.yres == Abs(h.biHeight))
      && (r.mode == Sync ==> s.hr == S_OK && s.next.buffer == r.buffer)
      && (r.mode == Async ==> (s.hr == S_OK <==> allocSucceeds))
      && (r.mode == Async && !allocSucceeds ==> s.hr == E_OUTOFMEMORY && s.next.buffer == None)
      && (r.mode == Async && allocSucceeds ==>
            s.next.buffer == Some(FrameBytes(h.biWidth, s.next.frame.yres, h.biBitCount)))
    ensures s.next.frame == r.frame.(xres := s.next.frame.xres, yres := s.next.frame.yres)
    ensures s.next == r.(frame := s.next.frame, buffer := s.next.buffer)
  {
    if FormatBlockUsable(r.mtIn) then
      var h := r.mtIn.pbFormat.value;
      var frame := r.frame.(xres := h.biWidth, yres := NormalizedHeight(h.biHeight));
      match r.mode
      case Sync => Step(NOERROR, r.(frame := frame))
      case Async =>
        if allocSucceeds then
          Step(NOERROR, r.(frame := frame, buffer := Some(FrameBytes(frame.xres, frame.yres, h.biBitCount))))
        else
          Step(E_OUTOFMEMORY, r.(frame := frame, buffer := None))
    else
      Step(E_INVALIDARG, r)
  }

  /**
   * What DoRenderSample demands of its caller: when it copies, the sample
   * fits in the copy buffer (the copy is not clamped).
   */
  predicate CopyFits(r: Renderer, sample: Option<Sample>) {
    sample.Some? && r.senderPresent && !Failed(sample.value.getPointerHr) && r.mode == Async
    ==> r.buffer.Some? && sample.value.actualLength <= r.buffer.value
  }

  /**
   * DoRenderSample: a NULL sample is E_POINTER; with no sender the frame is
   * dropped with S_OK; a failing GetPointer is returned as is. Otherwise
   * exactly one send is issued, of the stored descriptor pointing at the copy
   * buffer (asynchronous) or at the sample (synchronous), and S_OK returned.
   */
  function DoRenderSample(r: Renderer, sample: Option<Sample>): (s: RenderStep)
    requires CopyFits(r, sample)
    ensures sample == None ==> s.hr == E_POINTER && s.sent == None && s.next == r
    ensures sample.Some? && !r.senderPresent ==> s.hr == S_OK && s.sent == None && s.next == r
    ensures s.sent.Some? <==> sample.Some? && r.senderPresent && !Failed(sample.value.getPointerHr)
    ensures sample.Some? && r.senderPresent && Failed(sample.value.getPointerHr) ==>
      s.hr == sample.value.getPointerHr && s.next == r
    ensures s.sent.Some? ==>
      && s.hr == S_OK
      && s.sent.value.frame == s.next.frame
      && s.next.frame == r.frame.(data := s.next.frame.data)
    ensures s.sent.Some? && r.mode == Async ==>
      && s.sent.value.AsyncSend?
      && s.next.frame.data == OwnedBuffer(r.buffer.value)
      && s.sent.value.copied == sample.value.actualLength <= r.buffer.value
    ensures s.sent.Some? && r.mode == Sync ==>
      s.sent.value.SyncSend? && s.next.frame.data == SampleBuffer(sample.value.actualLength)
    ensures Failed(s.hr) <==> sample == None || (r.senderPresent && Failed(sample.value.getPointerHr))
    ensures s.next == r.(frame := s.next.frame)
  {
    match sample
    case None => RenderStep(E_POINTER, r, None)
    case Some(smp) =>
      if !r.senderPresent then RenderStep(S_OK, r, None)
      else if Failed(smp.getPointerHr) then RenderStep(smp.getPointerHr, r, None)
      else
        match r.mode
        case Async =>
          var frame := r.frame.(data := OwnedBuffer(r.buffer.value));
          RenderStep(S_OK, r.(frame := frame), Some(AsyncSend(frame, smp.actualLength)))
        case Sync =>
          var frame := r.frame.(data := SampleBuffer(smp.actualLength));
          RenderStep(S_OK, r.(frame := frame), Some(SyncSend(frame)))
  }

  /**
   * BreakConnect: the base class's verdict is returned when it fails, NOERROR
   * otherwise. The renderer's own state, including the copy buffer, is kept.
   */
  function BreakConnect(r: Renderer, baseHr: HResult): (s: Step)
    ensures Failed(s.hr) <==> Failed(baseHr)
    ensures Failed(s.hr) ==> s.hr == baseHr
    ensures !Failed(s.hr) ==> s.hr == S_OK
    ensures s.next == r
  {
    if Failed(baseHr) then Step(baseHr, r) else Step(NOERROR, r)
  }

  /** The destructor: the sender is destroyed and, in asynchronous mode, the copy buffer freed. */
  function Release(r: Renderer): (next: Renderer)
    ensures !next.senderPresent
    ensures Valid(r) ==> next.buffer == None
    ensures r.mode == Sync ==> next.buffer == r.buffer
    ensures next == r.(senderPresent := false, buffer := next.buffer)
  {
    var r' := r.(senderPresent := false);
    match r.mode
    case Async => r'.(buffer := None)
    case Sync => r'
  }

  /**
   * Among media types that pass the format and major-type checks, the
   * subtypes CheckMediaType accepts are exactly those SetMediaType maps.
   */
  lemma CheckAgreesWithSet(r: Renderer, mt: MediaType)
    requires mt.formatType == FormatVideoInfo && mt.cbFormat >= SizeVideoHeader
    requires mt.majorType == MediaTypeVideo
    ensures CheckMediaType(mt) == S_OK <==> SetMediaType(r, Some(mt)).hr == S_OK
  {
  }

  /**
   * In asynchronous mode the copy buffer after CompleteConnect does not depend
   * on the buffer before it: it is reallocated on every call, with no
   * shortcut when the size is unchanged.
   */
  lemma ReallocatesEveryCall(r: Renderer, previous: Option<nat>, allocSucceeds: bool)
    requires r.mode == Async && FormatBlockUsable(r.mtIn)
    ensures CompleteConnect(r.(buffer := previous), allocSucceeds).next
         == CompleteConnect(r, allocSucceeds).next
  {
  }

  /**
   * CheckMediaType accepts format blocks longer than a VIDEOINFOHEADER (one
   * followed by colour masks, say), but CompleteConnect then rejects the
   * stored type, since it demands the exact length.
   */
  lemma LongFormatAcceptedThenRejected(r: Renderer)
    ensures
      var mt := MediaType(MediaTypeVideo, SubtypeRGB32, FormatVideoInfo, SizeofVideoInfoHeader + 12,
                          Some(VideoInfoHeader(640, 480, 32)));
      var stored := SetMediaType(r, Some(mt));
      && CheckMediaType(mt) == S_OK
      && stored.hr == S_OK
      && CompleteConnect(stored.next, true).hr == E_INVALIDARG
  {
  }

  /**
   * The buffer size wraps with the `int` arithmetic: a 32768 x 32768 RGB32
   * format asks for a buffer of 0 bytes.
   */
  lemma OversizedFrameWraps()
    ensures FrameBytes(32768, 32768, 32) == 0
  {
  }

  /**
   * YV12 is left disabled: whatever the rest of the media type,
   * CheckMediaType rejects it and SetMediaType maps it to no FourCC.
   */
  lemma YV12Rejected(r: Renderer, mt: MediaType)
    requires mt.subtype == SubtypeYV12
    ensures CheckMediaType(mt) != S_OK
    ensures SetMediaType(r, Some(mt)).hr == E_INVALIDARG
    ensures SetMediaType(r, Some(mt)).next.frame == r.frame
  {
  }

}
