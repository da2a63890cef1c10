/**
 * Choosing the media source: an explicit format hint or, without one, the
 * engine's content-type inference from the URI, selects one of four source kinds.
 */
module MediaSource {
  import opened Wrappers
  import opened Engine

  const FORMAT_SS := "ss"
  const FORMAT_DASH := "dash"
  const FORMAT_HLS := "hls"
  const FORMAT_OTHER := "other"

  /** The value the hint switch falls back to for an unrecognised hint. */
  const UNKNOWN_TYPE := -1

  /** The IllegalStateException "Unsupported type: <type>" thrown for a type with no source kind. */
  datatype BuildError = UnsupportedType(contentType: int)

  predicate IsKnownHint(hint: string) {
    hint == FORMAT_SS || hint == FORMAT_DASH || hint == FORMAT_HLS || hint == FORMAT_OTHER
  }

  predicate IsSupportedType(contentType: int) {
    contentType == CONTENT_TYPE_SS || contentType == CONTENT_TYPE_DASH
    || contentType == CONTENT_TYPE_HLS || contentType == CONTENT_TYPE_OTHER
  }

  /** The switch over a non-null format hint. */
  function ContentTypeOfHint(hint: string): (t: int)
    ensures IsKnownHint(hint) <==> t != UNKNOWN_TYPE
    ensures IsKnownHint(hint) <==> IsSupportedType(t)
  {
    if hint == FORMAT_SS then CONTENT_TYPE_SS
    else if hint == FORMAT_DASH then CONTENT_TYPE_DASH
    else if hint == FORMAT_HLS then CONTENT_TYPE_HLS
    else if hint == FORMAT_OTHER then CONTENT_TYPE_OTHER
    else UNKNOWN_TYPE
  }

  /** The hint that names a supported content type; the inverse of ContentTypeOfHint. */
  function HintOfContentType(contentType: int): (h: Option<string>)
    ensures h.Some? <==> IsSupportedType(contentType)
  {
    if contentType == CONTENT_TYPE_SS then Some(FORMAT_SS)
    else if contentType == CONTENT_TYPE_DASH then Some(FORMAT_DASH)
    else if contentType == CONTENT_TYPE_HLS then Some(FORMAT_HLS)
    else if contentType == CONTENT_TYPE_OTHER then Some(FORMAT_OTHER)
    else None
  }

  /**
   * The content type buildMediaSource switches on: the hint's type, or the
   * inferred type of the URI when there is no hint. `infer` stands for the
   * engine's Util.inferContentType.
   */
  function ResolveContentType(uri: string, formatHint: Option<string>, infer: string -> int): int {
    match formatHint
    case None => infer(uri)
    case Some(hint) => ContentTypeOfHint(hint)
  }

  /** The switch over the content type: a source kind, or the exception for any other type. */
  function SourceKindOf(contentType: int): (r: Result<SourceKind, BuildError>)
    ensures r.Success? <==> IsSupportedType(contentType)
    ensures r.Failure? ==> r.error == UnsupportedType(contentType)
  {
    if contentType == CONTENT_TYPE_SS then Success(SmoothStreaming)
    else if contentType == CONTENT_TYPE_DASH then Success(Dash)
    else if contentType == CONTENT_TYPE_HLS then Success(Hls)
    else if contentType == CONTENT_TYPE_OTHER then Success(Progressive)
    else Failure(UnsupportedType(contentType))
  }

  /** buildMediaSource: the source the engine is given for `uri`, or the exception. */
  function BuildMediaSource(uri: string, formatHint: Option<string>, infer: string -> int)
    : (r: Result<MediaSourceDesc, BuildError>)
    ensures r.Success? ==> r.value.uri == uri
  {
    match SourceKindOf(ResolveContentType(uri, formatHint, infer))
    case Success(kind) => Success(MediaSourceDesc(kind, uri))
    case Failure(e) => Failure(e)
  }

  /** Each known hint names its own content type, and each supported type has exactly one hint. */
  lemma HintRoundTrip(hint: string, contentType: int)
    ensures IsKnownHint(hint) ==> HintOfContentType(ContentTypeOfHint(hint)) == Some(hint)
    ensures IsSupportedType(contentType) ==> ContentTypeOfHint(HintOfContentType(contentType).value) == contentType
  {
  }

  /** The four hints select four different source kinds. */
  lemma HintsSelectDistinctKinds(h1: string, h2: string)
    requires IsKnownHint(h1) && IsKnownHint(h2) && h1 != h2
    ensures SourceKindOf(ContentTypeOfHint(h1)).Success?
    ensures SourceKindOf(ContentTypeOfHint(h1)) != SourceKindOf(ContentTypeOfHint(h2))
  {
  }

  /** ss, dash, hls and other build the SmoothStreaming, DASH, HLS and progressive sources. */
  lemma KnownHintKinds(uri: string, infer: string -> int)
    ensures BuildMediaSource(uri, Some(FORMAT_SS), infer) == Success(MediaSourceDesc(SmoothStreaming, uri))
    ensures BuildMediaSource(uri, Some(FORMAT_DASH), infer) == Success(MediaSourceDesc(Dash, uri))
    ensures BuildMediaSource(uri, Some(FORMAT_HLS), infer) == Success(MediaSourceDesc(Hls, uri))
    ensures BuildMediaSource(uri, Some(FORMAT_OTHER), infer) == Success(MediaSourceDesc(Progressive, uri))
  {
  }

  /** Any other non-null hint fails with type -1, whatever the URI would infer to. */
  lemma UnknownHintFails(uri: string, hint: string, infer: string -> int)
    requires !IsKnownHint(hint)
    ensures BuildMediaSource(uri, Some(hint), infer) == Failure(UnsupportedType(UNKNOWN_TYPE))
  {
  }

  /** Without a hint the inferred type decides; an inferred RTSP stream has no source kind. */
  lemma NoHintUsesInference(uri: string, infer: string -> int)
    ensures BuildMediaSource(uri, None, infer).Success? <==> IsSupportedType(infer(uri))
    ensures infer(uri) == CONTENT_TYPE_RTSP ==>
              BuildMediaSource(uri, None, infer) == Failure(UnsupportedType(CONTENT_TYPE_RTSP))
  {
  }

  /** An explicit hint and an inferred type that agree on the content type build the same source. */
  lemma HintAgreesWithInference(uri: string, hint: string, infer: string -> int)
    requires IsKnownHint(hint) && infer(uri) == ContentTypeOfHint(hint)
    ensures BuildMediaSource(uri, Some(hint), infer) == BuildMediaSource(uri, None, infer)
    ensures BuildMediaSource(uri, None, infer).Success?
  {
  }
}
