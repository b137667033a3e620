/**
 * DirectShow media types as the renderer sees them, and the catalog that
 * maps the accepted DirectShow subtypes to NDI FourCC codes.
 *
 * GUIDs are abstract tags: only equality between them matters, so every GUID
 * the renderer names has its own constructor and every other GUID is
 * `OtherGuid`.
 */
module MediaTypes {

  import opened Wrappers
  import opened Win32

  datatype Guid =
    | GuidNull
    | FormatVideoInfo      // FORMAT_VideoInfo
    | MediaTypeVideo       // MEDIATYPE_Video
    | SubtypeUYVY          // MEDIASUBTYPE_UYVY
    | SubtypeNV12          // MEDIASUBTYPE_NV12
    | SubtypeRGB32         // MEDIASUBTYPE_RGB32
    | SubtypeARGB32        // MEDIASUBTYPE_ARGB32
    | SubtypeYV12          // MEDIASUBTYPE_YV12 (left disabled in the renderer)
    | OtherGuid(id: nat)

  /** The fields of a VIDEOINFOHEADER format block that the renderer reads. */
  datatype VideoInfoHeader = VideoInfoHeader(biWidth: Int32, biHeight: Int32, biBitCount: Word)

  /**
   * A CMediaType. `pbFormat` is None for a NULL format pointer; otherwise it
   * holds the VIDEOINFOHEADER fields read from the start of the block.
   */
  datatype MediaType = MediaType(
    majorType: Guid,
    subtype: Guid,
    formatType: Guid,
    cbFormat: ULong,
    pbFormat: Option<VideoInfoHeader>)

  /** A default-constructed CMediaType: all GUIDs null, no format block. */
  const EmptyMediaType: MediaType := MediaType(GuidNull, GuidNull, GuidNull, 0, None)

  /** Byte layout of VIDEOINFOHEADER: two RECTs, two DWORDs and a REFERENCE_TIME precede the BITMAPINFOHEADER. */
  const SizePreHeader: nat := 2 * 16 + 4 + 4 + 8
  const SizeBitmapInfoHeader: nat := 40

  /** SIZE_VIDEOHEADER: the smallest format block that holds a VIDEOINFOHEADER. */
  const SizeVideoHeader: nat := SizePreHeader + SizeBitmapInfoHeader

  /** sizeof(VIDEOINFOHEADER). */
  const SizeofVideoInfoHeader: nat := SizeBitmapInfoHeader + SizePreHeader

  /** The NDI pixel formats the renderer sends. */
  datatype FourCC = UYVY | NV12 | BGRX | BGRA

  /** The subtypes the renderer accepts, in the order it tests them. */
  const SupportedSubtypes: seq<Guid> := [SubtypeUYVY, SubtypeNV12, SubtypeRGB32, SubtypeARGB32]

  /** The DirectShow subtype each NDI format is sent for; RGB32 and ARGB32 rows are bottom-up when biHeight is positive. */
  function SubtypeOf(f: FourCC): (g: Guid)
    ensures g in SupportedSubtypes
  {
    match f
    case UYVY => SubtypeUYVY
    case NV12 => SubtypeNV12
    case BGRX => SubtypeRGB32
    case BGRA => SubtypeARGB32
  }

  /**
   * The subtype-to-FourCC chain of SetMediaType: defined exactly on the
   * supported subtypes, and the inverse of SubtypeOf there.
   */
  function FourCCOf(g: Guid): (r: Option<FourCC>)
    ensures r.Some? <==> g in SupportedSubtypes
    ensures r.Some? ==> SubtypeOf(r.value) == g
  {
    if g == SubtypeUYVY then Some(UYVY)
    else if g == SubtypeNV12 then Some(NV12)
    else if g == SubtypeRGB32 then Some(BGRX)
    else if g == SubtypeARGB32 then Some(BGRA)
    else None
  }

  /** Mapping a FourCC back to its subtype and forward again returns it: the catalog is a bijection onto FourCC. */
  lemma FourCCOfSubtypeOf(f: FourCC)
    ensures FourCCOf(SubtypeOf(f)) == Some(f)
  {
  }

  /** Distinct subtypes never share a FourCC. */
  lemma FourCCOfInjective(g1: Guid, g2: Guid)
    requires FourCCOf(g1).Some? && FourCCOf(g1) == FourCCOf(g2)
    ensures g1 == g2
  {
    assert SubtypeOf(FourCCOf(g1).value) == g1;
  }
}
