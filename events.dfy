/**
 * The events the player sends to its event sink, and the video geometry
 * reported with the `initialized` event.
 */
module Events {
  import opened Wrappers
  import opened Engine

  /** The error code of every error the player reports. */
  const ERROR_CODE := "VideoError"
  /** The text that precedes the engine's description of a playback error. */
  const ERROR_PREFIX := "Video player had error "

  /** The size reported to the host: width, height and, for upside-down video, a correction. */
  datatype Geometry = Geometry(width: int, height: int, rotationCorrection: Option<int>)

  /** A buffered range [start, end] in milliseconds. */
  datatype BufferedRange = BufferedRange(start: int, end: int)

  /** One event sent to the sink, in the order it is sent. */
  datatype Event =
    | Initialized(duration: int, geometry: Option<Geometry>)
    | BufferingStart
    | BufferingEnd
    | BufferingUpdate(values: seq<BufferedRange>)
    | Completed
    | IsPlayingStateUpdate(isPlaying: bool)
    | AudioTrackChanged(audioTrack: Option<string>)
    | VideoError(code: string, message: string)

  /** A portrait video, recorded a quarter turn from the stored frame. */
  predicate IsQuarterTurn(rotationDegrees: int) {
    rotationDegrees == 90 || rotationDegrees == 270
  }

  /**
   * The width and height sendInitialized reports for a video format, and the
   * rotationCorrection field it adds for a half turn.
   */
  function VideoGeometry(format: VideoFormat): (g: Geometry)
    ensures g.rotationCorrection.Some? <==> format.rotationDegrees == 180
    ensures g.rotationCorrection.Some? ==> g.rotationCorrection.value == format.rotationDegrees
  {
    var width := if IsQuarterTurn(format.rotationDegrees) then format.height else format.width;
    var height := if IsQuarterTurn(format.rotationDegrees) then format.width else format.height;
    Geometry(width, height, if format.rotationDegrees == 180 then Some(format.rotationDegrees) else None)
  }

  /** The `initialized` event for a duration and the current video format, if any. */
  function InitializedEvent(duration: int, videoFormat: Option<VideoFormat>): (e: Event)
    ensures e.Initialized? && e.duration == duration
    ensures e.geometry.Some? <==> videoFormat.Some?
    ensures videoFormat.None? ==> e == Initialized(duration, None)
  {
    Initialized(duration, match videoFormat case None => None case Some(f) => Some(VideoGeometry(f)))
  }

  /** A quarter turn reports width and height swapped and no correction. */
  lemma QuarterTurnSwaps(format: VideoFormat)
    requires IsQuarterTurn(format.rotationDegrees)
    ensures VideoGeometry(format) == Geometry(format.height, format.width, None)
  {
  }

  /** A half turn reports width and height unchanged with a correction of 180. */
  lemma HalfTurnCorrects(format: VideoFormat)
    requires format.rotationDegrees == 180
    ensures VideoGeometry(format) == Geometry(format.width, format.height, Some(180))
  {
  }

  /** Any other rotation reports width and height unchanged with no correction. */
  lemma OtherRotationUnchanged(format: VideoFormat)
    requires !IsQuarterTurn(format.rotationDegrees) && format.rotationDegrees != 180
    ensures VideoGeometry(format) == Geometry(format.width, format.height, None)
  {
  }

  /**
   * A portrait video stored sideways with a quarter turn is reported exactly as
   * the same picture stored upright would be, and the reported dimensions are
   * always the stored ones, in some order.
   */
  lemma GeometryShowsUprightPicture(width: int, height: int, rotationDegrees: int)
    requires IsQuarterTurn(rotationDegrees)
    ensures VideoGeometry(VideoFormat(height, width, rotationDegrees)) == VideoGeometry(VideoFormat(width, height, 0))
    ensures multiset{VideoGeometry(VideoFormat(width, height, rotationDegrees)).width,
                     VideoGeometry(VideoFormat(width, height, rotationDegrees)).height} == multiset{width, height}
  {
  }

  /** The worked example: 1080 x 1920 turned 90 degrees reports 1920 x 1080; turned 180, 1080 x 1920 and 180. */
  lemma GeometryExamples()
    ensures VideoGeometry(VideoFormat(1080, 1920, 90)) == Geometry(1920, 1080, None)
    ensures VideoGeometry(VideoFormat(1080, 1920, 180)) == Geometry(1080, 1920, Some(180))
  {
  }
}
