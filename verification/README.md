# NDIRenderer negotiation and frame forwarding, in Dafny

This project models the core of the NDIRenderer DirectShow filter
(`source/renderer.cpp`). The filter is a video renderer. It accepts frames
from a DirectShow graph and forwards them to an NDI network sender. The model
covers four parts:

- media-type negotiation: `CheckMediaType` and `SetMediaType`;
- geometry and copy-buffer sizing at connection time: `CompleteConnect`;
- the per-sample forwarding decision: `DoRenderSample`;
- `BreakConnect`, and the destructor's release of the sender and the buffer.

The filter's globals become one immutable `Renderer` record, for one renderer per process (see `NdiRenderer.Construct` under "## Left out"):

- the sender handle (`senderPresent`);
- the NDI frame descriptor (`frame`: FourCC, xres, yres and what `p_data` points at);
- the owned copy buffer (`buffer`: NULL, or its size in bytes);
- the stored media type (`mtIn`).

Each entry point is a pure function. It returns the HRESULT and the next state.
`DoRenderSample` also returns the send it issued, if any. The `ASYNC_MODE`
compile-time switch becomes a `DeliveryMode` field. `Async` copies each sample
into the owned buffer and sends asynchronously. `Sync` sends the sample's own
memory synchronously.

Files:

- `wrappers.dfy`: `Option`, used for pointers that may be NULL.
- `win32.dfy`: the HRESULT codes with their winerror.h bit patterns, and `FAILED`.
  It also holds 32-bit `int` wrap-around, C's truncating `/` and the conversion to 64-bit `size_t`.
- `media_types.dfy`: GUIDs as abstract tags and the VIDEOINFOHEADER fields the filter reads.
  It also holds `CMediaType`, `SIZE_VIDEOHEADER` and `sizeof(VIDEOINFOHEADER)` (both 88 bytes), and the subtype-to-FourCC catalog.
- `renderer.dfy`: the entry points of `renderer.cpp`.
- `sessions.dfy`: sequences of entry-point calls, and properties of every such sequence.

The model follows the code in these cases, including two where the source's own comments describe something else:

- `CompleteConnect` reallocates the buffer on every call. Its header comment (`renderer.cpp:294-299`) says it bombs out early when the video size is unchanged, but the code never compares sizes.
- The `memcpy` in `DoRenderSample` copies the sample's actual length without a clamp.
  "The sample fits" is therefore a precondition (`CopyFits`). In a session, a violation ends the run as an overrun.
- No "not streaming" state is checked before a sample is forwarded.
- `SetMediaType` replaces `m_mtIn` before it validates the subtype. A rejected subtype leaves the new media type stored.
- `SetMediaType` resizes nothing. A format change after `CompleteConnect` sends the new FourCC with the old geometry, and a full frame of a larger format overruns the copy buffer.
- `BreakConnect` does not release the copy buffer, although its header comment (`renderer.cpp:272-276`) speaks of freeing what the filter holds. Only the destructor frees it.
- A failed allocation in `CompleteConnect` returns `E_OUTOFMEMORY`. By then xres and yres have already been overwritten, and the buffer pointer is NULL.
- `CheckMediaType` accepts any format block of at least `SIZE_VIDEOHEADER` bytes.
  `CompleteConnect` demands exactly `sizeof(VIDEOINFOHEADER)`. An accepted type with colour masks after the header is therefore refused at connection time.

## Model

| member | source | states |
|---|---|---|
| MediaTypes.SubtypeOf | source/renderer.cpp:254-257 | every NDI format is produced from one of the four accepted subtypes (UYVY, NV12, RGB32 for BGRX, ARGB32 for BGRA) |
| MediaTypes.FourCCOf | source/renderer.cpp:253-263 | the subtype-to-FourCC chain yields a FourCC exactly for the four accepted subtypes, and that FourCC maps back to the subtype it came from |
| MediaTypes.FourCCOfSubtypeOf | source/renderer.cpp:254-257 | every NDI format is reached: mapping its subtype forward gives it back |
| MediaTypes.FourCCOfInjective | source/renderer.cpp:254-257 | two subtypes that map to the same FourCC are the same subtype |
| NdiRenderer.Construct | source/renderer.cpp:97-120 | a new renderer has no copy buffer, no frame data and no usable format; it has a sender exactly when creating one succeeded; the state invariant holds |
| NdiRenderer.CheckMediaType | source/renderer.cpp:151-187 | success iff the format type is VideoInfo, the block is at least SIZE_VIDEOHEADER long, the major type is Video and the subtype is one of the four; E_FAIL iff the block is short, even when other fields are also wrong; any other rejection is E_INVALIDARG, and a wrong format type is always E_INVALIDARG |
| NdiRenderer.CheckAgreesWithSet | source/renderer.cpp:177-183 | once the format and major type pass, CheckMediaType accepts a subtype iff SetMediaType maps it |
| NdiRenderer.YV12Rejected | source/renderer.cpp:182 | a YV12 media type, whatever its other fields, is rejected by CheckMediaType, and SetMediaType answers E_INVALIDARG with the frame descriptor unchanged |
| NdiRenderer.SetMediaType | source/renderer.cpp:246-266 | NULL gives E_POINTER and no change; otherwise m_mtIn is always replaced; success iff the subtype is accepted, and then the FourCC is that subtype's; an unsupported subtype gives E_INVALIDARG with the frame descriptor unchanged; nothing else changes |
| NdiRenderer.NormalizedHeight | source/renderer.cpp:312-313 | yres is the absolute value of biHeight, and non-negative, for every height except -2^31, whose negation overflows and stays negative |
| NdiRenderer.FrameBytes | source/renderer.cpp:317-320 | the requested allocation is a size_t value; when xres and yres are non-negative and xres*yres*biBitCount fits in an int, it is exactly xres*yres*biBitCount/8 bytes |
| NdiRenderer.WrappedProductExact | source/renderer.cpp:317-320 | for non-negative xres and yres whose product with biBitCount fits in an int, the two wrapping int multiplications give the exact product |
| NdiRenderer.OversizedFrameWraps | source/renderer.cpp:317-320 | the int arithmetic wraps: a 32768 x 32768 32-bit format requests 0 bytes |
| NdiRenderer.CompleteConnect | source/renderer.cpp:301-329 | E_INVALIDARG with no change iff the stored type is not VideoInfo, has cbFormat other than sizeof(VIDEOINFOHEADER), or has a NULL block; otherwise xres = biWidth and yres = abs(biHeight); in async mode, success iff allocation succeeds, and then the buffer has the frame's byte size; failure is E_OUTOFMEMORY with a NULL buffer and the geometry already updated; sync mode never touches the buffer; nothing else changes |
| NdiRenderer.ReallocatesEveryCall | source/renderer.cpp:315-322 | in async mode, the buffer after CompleteConnect does not depend on the buffer before it: it is reallocated every time, with no skip when the size is unchanged |
| NdiRenderer.LongFormatAcceptedThenRejected | source/renderer.cpp:308 | a VideoInfo RGB32 type with 12 bytes of masks after the header passes CheckMediaType and SetMediaType, but CompleteConnect rejects it with E_INVALIDARG |
| NdiRenderer.DoRenderSample | source/renderer.cpp:209-234 | a NULL sample gives E_POINTER and nothing else; with no sender, S_OK and no send; a failing GetPointer result is returned unchanged with no send; otherwise exactly one send of the stored descriptor, and S_OK; in async mode the descriptor's data is the owned buffer and the copy length is the sample's actual length (within the buffer by precondition); in sync mode the data is the sample; only p_data changes |
| NdiRenderer.BreakConnect | source/renderer.cpp:278-290 | fails iff the base class fails, returning its code, and otherwise returns S_OK; the renderer's state, including the copy buffer, is kept |
| NdiRenderer.Release | source/renderer.cpp:125-145 | after the destructor there is no sender, and no copy buffer in any valid state; nothing else changes |
| Sessions.ReleaseAfterRun | source/renderer.cpp:125-145 | after any sequence of calls on a new renderer, the destructor leaves no sender and no copy buffer |
| Sessions.RunPreservesValid | source/renderer.cpp:315-323 | every sequence of calls keeps the invariant: a copy buffer exists only in async mode, and p_data never points at memory of the other mode |
| Sessions.SenderFixed | source/renderer.cpp:115-131 | no entry point other than the constructor and destructor changes whether a sender exists |
| Sessions.AtMostOneSendPerRender | source/renderer.cpp:213-231 | a run issues no more sends than it has DoRenderSample calls |
| Sessions.NoSenderNoSends | source/renderer.cpp:213-233 | without a sender, a run never sends or overruns, and every non-NULL sample is answered S_OK |
| Sessions.CopiesFit | source/renderer.cpp:223-225 | every asynchronous send made before a run's first overrun copied no more bytes than the buffer its descriptor points at; the run stops at an overrun by definition, so this is a consistency check, not a guarantee of the unclamped copy |
| Sessions.FormatChangeOverruns | source/renderer.cpp:246-266 | a 640x480 RGB32 connection followed by a change to 1920x1080 ARGB32 succeeds at every call but leaves a 640*480*4-byte buffer; the next full frame overruns it, and the descriptor holds BGRA with the stale 640x480 geometry |
| Sessions.FullHdSession | source/renderer.cpp:151-329 | a top-down (negative biHeight) ARGB32 1920 x 1080 type is accepted, mapped to BGRA and connected with a 1920*1080*4-byte buffer; one full frame gives one async send with that geometry, and the destructor frees the buffer |

## Left out

- COM and DirectShow plumbing is not modelled: `CreateInstance`, the factory template table, the setup tables, `GetPin`, the `CVideoInputPin` constructor, DLL registration and `DllMain`. They are host-framework glue.
- NDI library calls are not modelled. `NDIlib_initialize`, `NDIlib_send_create`, `NDIlib_send_destroy` and the send functions are foreign calls.
  Whether the sender was created is an input to `Construct`. A send is a `Send` value. The NDI header is not part of this model.
- The descriptor's other NDI fields are not modelled (frame rate, aspect ratio, stride, timecode), because the renderer never sets them.
  The initial descriptor is taken as the SDK default: UYVY, 0 x 0, no data.
- Diagnostics are not modelled: `ErrorMessage`, `NOTE`, and the debug-only `ASSERT` on the format pointer. They are I/O with no effect on control flow. `source/dbg.h` holds only debug-print macros and is not modelled.
- The base classes' `CompleteConnect` and `BreakConnect` are external collaborators, and so is `SendNotifyWindow`.
  The base `CompleteConnect` result is ignored by the source, so it is left out. The base `BreakConnect` result is the `baseHr` input.
- `CAutoLock` and all concurrency are not modelled. This includes an asynchronous send still reading the owned buffer when the next copy starts.
- Allocation is modelled only as "a buffer of N bytes, or failure" (the `allocSucceeds` input). The bytes that `memcpy` copies are not modelled.
  So NdiRenderer.ReallocatesEveryCall holds only under that input. With the MSVC runtime, `realloc(p, 0)` frees the block and returns NULL while `malloc(0)` succeeds, so for a 0-byte request (reachable, see `OversizedFrameWraps`) the source's outcome does depend on the previous buffer.
  Also not modelled: a block that a failed `realloc` no longer references, and a `p_data` left dangling after a reallocation.
- NdiRenderer.Construct: the model covers one renderer per process, started from static initialisation. In the source, the sender handle, the NDI descriptor and the copy buffer are process-wide globals (`renderer.cpp:17-22`), and the constructor writes only the sender.
  A renderer built after an earlier one was destroyed therefore starts with that renderer's FourCC and geometry, and `p_data` still points at the freed block. The model's `Construct` starts from the SDK default descriptor and no buffer.
  Two live renderers would share one sender and one buffer, and the first destructor would destroy the sender the second still uses. For the same reason, Sessions.SenderFixed speaks of one renderer only.
- NdiRenderer.CompleteConnect: yres = abs(biHeight), and yres >= 0, is proved only for biHeight other than -2^31. The source's negation overflows `int` there.
- NdiRenderer.FrameBytes: the exact byte count is proved only when xres and yres are non-negative and the product fits in an `int`.
  Beyond that, the model uses two's-complement wrap-around for the signed overflow, which C leaves undefined. It also takes `size_t` as 64 bits.
- NdiRenderer.DoRenderSample: the sample's actual length is taken as non-negative, and the caller must make the copy fit (`CopyFits`), because the source does not clamp it.
