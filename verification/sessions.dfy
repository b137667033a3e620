/**
 * Sequences of calls into the renderer, as the DirectShow graph makes them
 * over the life of one renderer instance, and the properties that hold of
 * every such sequence.
 */
module Sessions {

  import opened Wrappers
  import opened Win32
  import opened MediaTypes
  import opened NdiRenderer

  /** One entry-point call with its inputs. */
  datatype Call =
    | CheckType(mt: MediaType)
    | SetType(pmt: Option<MediaType>)
    | Complete(allocSucceeds: bool)
    | Render(sample: Option<Sample>)
    | Break(baseHr: HResult)

  /**
   * The effect of one call. `Overrun` is a DoRenderSample whose copy would
   * write past the copy buffer: behaviour the model does not define.
   */
  datatype Outcome = Done(hr: HResult, next: Renderer, sent: Option<Send>) | Overrun

  function Exec(r: Renderer, c: Call): (o: Outcome)
    ensures o.Overrun? <==> c.Render? && !CopyFits(r, c.sample)
    ensures o.Done? && Valid(r) ==> Valid(o.next)
    ensures o.Done? ==> o.next.senderPresent == r.senderPresent && o.next.mode == r.mode
    ensures o.Done? && o.sent.Some? ==> c.Render? && c.sample.Some? && r.senderPresent
    ensures o.Done? && o.sent.Some? && o.sent.value.AsyncSend? ==>
      o.sent.value.frame.data.OwnedBuffer? && o.sent.value.copied <= o.sent.value.frame.data.size
  {
    match c
    case CheckType(mt) => Done(CheckMediaType(mt), r, None)
    case SetType(pmt) => var s := SetMediaType(r, pmt); Done(s.hr, s.next, None)
    case Complete(ok) => var s := CompleteConnect(r, ok); Done(s.hr, s.next, None)
    case Render(sample) =>
      if CopyFits(r, sample) then
        var s := DoRenderSample(r, sample); Done(s.hr, s.next, s.sent)
      else
        Overrun
    case Break(baseHr) => var s := BreakConnect(r, baseHr); Done(s.hr, s.next, None)
  }

  function SendsOf(sent: Option<Send>): (s: seq<Send>) {
    match sent
    case None => []
    case Some(x) => [x]
  }

  /**
   * The result of a sequence of calls: the final state, one status per call
   * made, every send in order, and whether the run stopped at an overrun.
   */
  datatype Trace = Trace(final: Renderer, results: seq<HResult>, sends: seq<Send>, overrun: bool)

  function Run(r: Renderer, calls: seq<Call>): (t: Trace)
    ensures |t.results| <= |calls|
    ensures !t.overrun <==> |t.results| == |calls|
    ensures !t.overrun ==> t.final.mode == r.mode
    decreases |calls|
  {
    if calls == [] then Trace(r, [], [], false)
    else
      match Exec(r, calls[0])
      case Overrun => Trace(r, [], [], true)
      case Done(hr, next, sent) =>
        var rest := Run(next, calls[1..]);
        Trace(rest.final, [hr] + rest.results, SendsOf(sent) + rest.sends, rest.overrun)
  }

  function RenderCount(calls: seq<Call>): (n: nat)
    ensures n <= |calls|
  {
    if calls == [] then 0
    else (if calls[0].Render? then 1 else 0) + RenderCount(calls[1..])
  }

  /** Every sequence of calls keeps the renderer Valid. */
  lemma {:induction false} RunPreservesValid(r: Renderer, calls: seq<Call>)
    requires Valid(r)
    ensures Valid(Run(r, calls).final)
    decreases |calls|
  {
    if calls != [] {
      match Exec(r, calls[0])
      case Overrun =>
      case Done(_, next, _) => RunPreservesValid(next, calls[1..]);
    }
  }

  /** No entry point creates or destroys the sender: its presence is fixed at construction. */
  lemma {:induction false} SenderFixed(r: Renderer, calls: seq<Call>)
    ensures Run(r, calls).final.senderPresent == r.senderPresent
    decreases |calls|
  {
    if calls != [] {
      match Exec(r, calls[0])
      case Overrun =>
      case Done(_, next, _) => SenderFixed(next, calls[1..]);
    }
  }

  /** Each DoRenderSample issues at most one send, and nothing else sends. */
  lemma {:induction false} AtMostOneSendPerRender(r: Renderer, calls: seq<Call>)
    ensures |Run(r, calls).sends| <= RenderCount(calls)
    decreases |calls|
  {
    if calls != [] {
      match Exec(r, calls[0])
      case Overrun =>
      case Done(_, next, sent) => AtMostOneSendPerRender(next, calls[1..]);
    }
  }

  /**
   * When the sender could not be created, frames are dropped silently: no
   * send is ever made, no copy overruns, and every non-NULL sample is S_OK.
   */
  lemma {:induction false} NoSenderNoSends(r: Renderer, calls: seq<Call>)
    requires !r.senderPresent
    ensures Run(r, calls).sends == []
    ensures !Run(r, calls).overrun
    ensures forall i :: 0 <= i < |calls| && calls[i].Render? && calls[i].sample.Some? ==>
      Run(r, calls).results[i] == S_OK
    decreases |calls|
  {
    if calls != [] {
      var next := Exec(r, calls[0]).next;
      NoSenderNoSends(next, calls[1..]);
      var t := Run(r, calls);
      assert t.results == [Exec(r, calls[0]).hr] + Run(next, calls[1..]).results;
      forall i | 0 < i < |calls|
        ensures t.results[i] == Run(next, calls[1..]).results[i - 1]
      {
      }
    }
  }

  /**
   * Every copy a run performs before its first overrun fits in the buffer the
   * sent frame points at. The overrun itself is reachable: see
   * FormatChangeOverruns.
   */
  lemma {:induction false} CopiesFit(r: Renderer, calls: seq<Call>)
    ensures forall i :: 0 <= i < |Run(r, calls).sends| && Run(r, calls).sends[i].AsyncSend? ==>
      var x := Run(r, calls).sends[i];
      x.frame.data.OwnedBuffer? && x.copied <= x.frame.data.size
    decreases |calls|
  {
    if calls != [] {
      match Exec(r, calls[0])
      case Overrun =>
      case Done(_, next, sent) => CopiesFit(next, calls[1..]);
    }
  }

  /**
   * A full session: an ARGB32 1920 x 1080 top-down (negative biHeight) format is accepted,
   * mapped to BGRA, connected with a 1920 * 1080 * 4 byte buffer, and one
   * full frame is sent asynchronously with that geometry; the destructor
   * then frees the buffer.
   */
  lemma FullHdSession()
    ensures
      var mt := MediaType(MediaTypeVideo, SubtypeARGB32, FormatVideoInfo, SizeofVideoInfoHeader,
                          Some(VideoInfoHeader(1920, -1080, 32)));
      var t := Run(Construct(Async, true),
                   [CheckType(mt), SetType(Some(mt)), Complete(true), Render(Some(Sample(S_OK, 1920 * 1080 * 4)))]);
      && t.results == [S_OK, S_OK, S_OK, S_OK]
      && t.sends == [AsyncSend(VideoFrame(BGRA, 1920, 1080, OwnedBuffer(1920 * 1080 * 4)), 1920 * 1080 * 4)]
      && t.final.buffer == Some(1920 * 1080 * 4)
      && Release(t.final).buffer == None
  {
    var mt := MediaType(MediaTypeVideo, SubtypeARGB32, FormatVideoInfo, SizeofVideoInfoHeader,
                        Some(VideoInfoHeader(1920, -1080, 32)));
    var sample := Sample(S_OK, 1920 * 1080 * 4);
    var calls := [CheckType(mt), SetType(Some(mt)), Complete(true), Render(Some(sample))];
    var r0 := Construct(Async, true);
    var r1 := SetMediaType(r0, Some(mt)).next;
    var r2 := CompleteConnect(r1, true).next;
    assert r2.buffer == Some(1920 * 1080 * 4);
    var rendered := DoRenderSample(r2, Some(sample));
    var frame := VideoFrame(BGRA, 1920, 1080, OwnedBuffer(1920 * 1080 * 4));
    assert rendered.sent == Some(AsyncSend(frame, 1920 * 1080 * 4));
    assert Run(rendered.next, calls[4..]) == Trace(rendered.next, [], [], false);
    assert Run(r2, calls[3..]) == Trace(rendered.next, [S_OK], [AsyncSend(frame, 1920 * 1080 * 4)], false);
    assert Run(r1, calls[2..]) == Trace(rendered.next, [S_OK, S_OK], [AsyncSend(frame, 1920 * 1080 * 4)], false);
    assert Run(r0, calls[1..]) == Trace(rendered.next, [S_OK, S_OK, S_OK], [AsyncSend(frame, 1920 * 1080 * 4)], false);
  }

  /**
   * A format change after connection resizes nothing: SetMediaType swaps the
   * FourCC but keeps the geometry and the copy buffer of the earlier
   * CompleteConnect. A full frame of the new format then overruns the
   * buffer, and the descriptor it would go out with pairs the new FourCC with
   * the old geometry.
   */
  lemma FormatChangeOverruns()
    ensures
      var small := MediaType(MediaTypeVideo, SubtypeRGB32, FormatVideoInfo, SizeofVideoInfoHeader,
                             Some(VideoInfoHeader(640, 480, 32)));
      var large := MediaType(MediaTypeVideo, SubtypeARGB32, FormatVideoInfo, SizeofVideoInfoHeader,
                             Some(VideoInfoHeader(1920, 1080, 32)));
      var t := Run(Construct(Async, true),
                   [SetType(Some(small)), Complete(true), SetType(Some(large)),
                    Render(Some(Sample(S_OK, 1920 * 1080 * 4)))]);
      && t.results == [S_OK, S_OK, S_OK]
      && t.overrun
      && t.final.frame.fourCC == BGRA
      && t.final.frame.xres == 640 && t.final.frame.yres == 480
      && t.final.buffer == Some(640 * 480 * 4)
  {
    var small := MediaType(MediaTypeVideo, SubtypeRGB32, FormatVideoInfo, SizeofVideoInfoHeader,
                           Some(VideoInfoHeader(640, 480, 32)));
    var large := MediaType(MediaTypeVideo, SubtypeARGB32, FormatVideoInfo, SizeofVideoInfoHeader,
                           Some(VideoInfoHeader(1920, 1080, 32)));
    var sample := Sample(S_OK, 1920 * 1080 * 4);
    var calls := [SetType(Some(small)), Complete(true), SetType(Some(large)), Render(Some(sample))];
    var r0 := Construct(Async, true);
    var r1 := SetMediaType(r0, Some(small)).next;
    var r2 := CompleteConnect(r1, true).next;
    assert r2.buffer == Some(640 * 480 * 4);
    var r3 := SetMediaType(r2, Some(large)).next;
    assert !CopyFits(r3, Some(sample));
    assert Run(r3, calls[3..]) == Trace(r3, [], [], true);
    assert Run(r2, calls[2..]) == Trace(r3, [S_OK], [], true);
    assert Run(r1, calls[1..]) == Trace(r3, [S_OK, S_OK], [], true);
  }

  /**
   * Whatever calls a renderer has seen, its destructor leaves no sender and
   * no copy buffer.
   */
  lemma {:induction false} ReleaseAfterRun(mode: DeliveryMode, senderCreated: bool, calls: seq<Call>)
    ensures !Release(Run(Construct(mode, senderCreated), calls).final).senderPresent
    ensures Release(Run(Construct(mode, senderCreated), calls).final).buffer == None
  {
    RunPreservesValid(Construct(mode, senderCreated), calls);
  }

}
