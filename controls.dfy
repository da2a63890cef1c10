/**
 * The player's command rules: volume bracketing, looping, the HTTP user agent,
 * track-selection overrides and the teardown order of dispose.
 */
module Controls {
  import opened Wrappers
  import opened Engine

  /** The request header whose value becomes the user agent. */
  const USER_AGENT := "User-Agent"
  /** The user agent used when the headers do not name one. */
  const DEFAULT_USER_AGENT := "ExoPlayer"

  function Min(a: real, b: real): real { if a <= b then a else b }
  function Max(a: real, b: real): real { if a >= b then a else b }

  /** setVolume: max(0, min(1, v)). */
  function BracketVolume(value: real): (v: real)
    ensures 0.0 <= v <= 1.0
    ensures 0.0 <= value <= 1.0 ==> v == value
    ensures value < 0.0 ==> v == 0.0
    ensures value > 1.0 ==> v == 1.0
  {
    Max(0.0, Min(1.0, value))
  }

  /** The behaviour on -1, 2 and 0.5. */
  lemma BracketVolumeExamples()
    ensures BracketVolume(-1.0) == 0.0 && BracketVolume(2.0) == 1.0 && BracketVolume(0.5) == 0.5
  {
  }

  /** setLooping: repeat everything when looping, nothing otherwise. */
  function RepeatModeFor(looping: bool): (mode: int)
    ensures mode == REPEAT_MODE_ALL || mode == REPEAT_MODE_OFF
  {
    if looping then REPEAT_MODE_ALL else REPEAT_MODE_OFF
  }

  /** Whether a repeat mode loops; the inverse of RepeatModeFor. */
  function IsLooping(mode: int): bool { mode != REPEAT_MODE_OFF }

  lemma RepeatModeRoundTrip(looping: bool)
    ensures IsLooping(RepeatModeFor(looping)) == looping
  {
  }

  /** The user agent of the HTTP data source for a header map. */
  function UserAgentFor(headers: map<string, string>): (ua: string)
    ensures USER_AGENT in headers ==> ua == headers[USER_AGENT]
    ensures USER_AGENT !in headers ==> ua == DEFAULT_USER_AGENT
  {
    var httpHeadersNotEmpty := |headers| != 0;
    if httpHeadersNotEmpty && USER_AGENT in headers then headers[USER_AGENT] else DEFAULT_USER_AGENT
  }

  /** The HTTP data source factory settings the player configures. */
  datatype HttpFactory = HttpFactory(
    userAgent: Option<string>,
    allowCrossProtocolRedirects: bool,
    defaultRequestProperties: map<string, string>)

  /** A newly constructed DefaultHttpDataSource.Factory. */
  const DEFAULT_HTTP_FACTORY := HttpFactory(None, false, map[])

  /** buildHttpDataSourceFactory applied to a factory's settings. */
  function ConfigureHttpFactory(factory: HttpFactory, headers: map<string, string>): (f: HttpFactory)
    ensures f.userAgent == Some(UserAgentFor(headers))
    ensures f.allowCrossProtocolRedirects
    ensures |headers| != 0 ==> f.defaultRequestProperties == headers
    ensures |headers| == 0 ==> f.defaultRequestProperties == factory.defaultRequestProperties
    ensures |headers| == 0 ==> f == factory.(userAgent := Some(DEFAULT_USER_AGENT), allowCrossProtocolRedirects := true)
  {
    var f := factory.(userAgent := Some(UserAgentFor(headers)), allowCrossProtocolRedirects := true);
    if |headers| != 0 then f.(defaultRequestProperties := headers) else f
  }

  /** What selectTrack does. */
  datatype Selection =
    | NoMapping                           // no mapped track info yet: nothing happens
    | IndexOutOfRange                     // the renderer or group index does not exist: the lookup throws
    | Override(trackOverride: TrackOverride)  // the engine is asked to select this track

  /** selectTrack against the engine's current mapped track info. */
  function SelectTrack(info: Option<MappedTrackInfo>, renderer: int, group: int, index: int): (r: Selection)
    ensures info.None? <==> r == NoMapping
    ensures r.Override? ==> r.trackOverride.renderer == renderer && r.trackOverride.group == group
                            && r.trackOverride.index == index
    ensures r.Override? <==> info.Some? && 0 <= renderer < |info.value| && 0 <= group < |info.value[renderer].trackGroups|
  {
    match info
    case None => NoMapping
    case Some(m) =>
      if 0 <= renderer < |m| && 0 <= group < |m[renderer].trackGroups| then
        Override(TrackOverride(renderer, group, index))
      else
        IndexOutOfRange
  }

  /** dispose: the calls it makes, in order. */
  function DisposeCalls(isInitialized: bool, hasSurface: bool, hasEngine: bool): (calls: seq<Call>)
  {
    (if isInitialized then [StopEngine] else [])
    + [ReleaseTexture, ClearStreamHandler]
    + (if hasSurface then [ReleaseSurface] else [])
    + (if hasEngine then [ReleaseEngine] else [])
  }

  /** The engine is stopped before anything is released and released after everything else. */
  lemma DisposeOrder(isInitialized: bool, hasSurface: bool, hasEngine: bool)
    ensures var calls := DisposeCalls(isInitialized, hasSurface, hasEngine);
      && (isInitialized ==> calls[0] == StopEngine)
      && (hasEngine ==> calls[|calls| - 1] == ReleaseEngine)
      && (forall i, j :: 0 <= i < j < |calls| ==> calls[i] != calls[j])
      && 2 <= |calls| <= 5
      && ((StopEngine in calls) <==> isInitialized)
      && ReleaseTexture in calls && ClearStreamHandler in calls
      && ((ReleaseSurface in calls) <==> hasSurface)
      && ((ReleaseEngine in calls) <==> hasEngine)
  {
  }
}
