/**
 * The media engine (ExoPlayer) as the adapter sees it: the public constants it
 * compares against, the shapes of what it reports when queried, and the calls
 * the adapter makes on it and on the platform.  The engine itself is not modelled.
 */
module Engine {
  import opened Wrappers

  // Player.STATE_* playback states.
  const STATE_IDLE := 1
  const STATE_BUFFERING := 2
  const STATE_READY := 3
  const STATE_ENDED := 4

  // C.CONTENT_TYPE_* values returned by content-type inference.
  const CONTENT_TYPE_DASH := 0
  const CONTENT_TYPE_SS := 1
  const CONTENT_TYPE_HLS := 2
  const CONTENT_TYPE_RTSP := 3
  const CONTENT_TYPE_OTHER := 4

  // C.TRACK_TYPE_* renderer and track-group types.
  const TRACK_TYPE_AUDIO := 1
  const TRACK_TYPE_VIDEO := 2
  const TRACK_TYPE_TEXT := 3

  /** C.FORMAT_HANDLED: the renderer supports the format natively. */
  const FORMAT_HANDLED: bv32 := 4
  /** The low three bits of a track-support value hold the format support. */
  const FORMAT_SUPPORT_MASK: bv32 := 0x7

  // Player.REPEAT_MODE_*.
  const REPEAT_MODE_OFF := 0
  const REPEAT_MODE_ALL := 2

  /** The fields of a Format the adapter reads for track descriptors. */
  datatype TrackFormat = TrackFormat(
    id: Option<string>,
    language: Option<string>,
    formatLabel: Option<string>,  // Format.label
    sampleMimeType: Option<string>)

  /** The fields of the current video Format read at initialization. */
  datatype VideoFormat = VideoFormat(width: int, height: int, rotationDegrees: int)

  /** One track of a mapped track group together with the renderer's support bits for it. */
  datatype MappedTrack = MappedTrack(support: bv32, format: TrackFormat)

  /** One renderer of the mapped track info: its type and its track groups. */
  datatype Renderer = Renderer(rendererType: int, trackGroups: seq<seq<MappedTrack>>)

  /** MappingTrackSelector.MappedTrackInfo: renderers, each with groups of tracks. */
  type MappedTrackInfo = seq<Renderer>

  /** One track of a Tracks.Group as seen by onTracksChanged. */
  datatype GroupTrack = GroupTrack(supported: bool, selected: bool, format: TrackFormat)

  /** One Tracks.Group: its track type and its tracks. */
  datatype TracksGroup = TracksGroup(trackType: int, tracks: seq<GroupTrack>)

  /** What the engine answers when the adapter queries it. */
  datatype EngineReport = EngineReport(
    duration: int,
    bufferedPosition: int,
    currentPosition: int,
    videoFormat: Option<VideoFormat>,
    mappedTrackInfo: Option<MappedTrackInfo>)

  /** Which track the adapter asks the engine to select. */
  datatype TrackOverride = TrackOverride(renderer: int, group: int, index: int)

  /** The kind of media source handed to the engine. */
  datatype SourceKind = SmoothStreaming | Dash | Hls | Progressive

  /** A media source built for the engine: its kind and the URI it plays. */
  datatype MediaSourceDesc = MediaSourceDesc(kind: SourceKind, uri: string)

  /** A call the adapter makes on the engine, the texture entry or the event channel. */
  datatype Call =
    | SetMediaSource(source: MediaSourceDesc)
    | Prepare
    | SetStreamHandler
    | SetVideoSurface
    | SetAudioAttributes(handleAudioFocus: bool)
    | AddListener
    | SetPlayWhenReady(playWhenReady: bool)
    | SetRepeatMode(repeatMode: int)
    | SetVolume(volume: real)
    | SetPlaybackSpeed(speed: real)
    | SeekTo(position: int)
    | SetTrackOverride(trackOverride: TrackOverride)
    | StopEngine
    | ReleaseTexture
    | ClearStreamHandler
    | ReleaseSurface
    | ReleaseEngine
}
