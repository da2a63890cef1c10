/**
 * The VideoPlayer adapter and its engine listener as objects: the fields the
 * source updates in place, the event sink as an append-only log, and the calls
 * made on the engine and the platform as a second log.
 */
module Player {
  import opened Wrappers
  import opened Engine
  import opened Events
  import MediaSource
  import TrackCatalog
  import PlaybackState
  import Controls

  class VideoPlayer {
    /** Set when the engine first becomes ready. */
    var isInitialized: bool
    /** Every event sent to the event sink, in order. */
    var events: seq<Event>
    /** Every call made on the engine, the texture entry and the event channel, in order. */
    var calls: seq<Call>
    /** What the engine answers when queried; the engine changes it. */
    var engine: EngineReport
    /** The HTTP data source factory's settings. */
    var httpFactory: Controls.HttpFactory
    /** The surface and the engine reference are non-null. */
    var hasSurface: bool
    var hasEngine: bool

    /** The constructor taking a ready engine, followed by setUpVideoPlayer. */
    constructor (engine: EngineReport, mixWithOthers: bool, httpFactory: Controls.HttpFactory)
      ensures this.engine == engine && this.httpFactory == httpFactory
      ensures !isInitialized && events == [] && hasSurface && hasEngine
      ensures calls == [SetStreamHandler, SetVideoSurface, SetAudioAttributes(!mixWithOthers), AddListener]
    {
      this.engine := engine;
      this.httpFactory := httpFactory;
      isInitialized := false;
      events := [];
      hasSurface := true;
      hasEngine := true;
      calls := [SetStreamHandler, SetVideoSurface, SetAudioAttributes(!mixWithOthers), AddListener];
    }

    /**
     * The constructor taking a URI: configures the HTTP factory, builds the media
     * source (throwing for an unsupported type), hands it to the engine, prepares it
     * and sets the player up.  `infer` is the engine's content-type inference.
     */
    static method Create(uri: string, formatHint: Option<string>, headers: map<string, string>,
                         infer: string -> int, engine: EngineReport, mixWithOthers: bool)
      returns (r: Result<VideoPlayer, MediaSource.BuildError>)
      ensures r.Failure? <==> MediaSource.BuildMediaSource(uri, formatHint, infer).Failure?
      ensures r.Failure? ==> r.error == MediaSource.BuildMediaSource(uri, formatHint, infer).error
      ensures r.Success? ==>
                && fresh(r.value)
                && r.value.calls == [SetMediaSource(MediaSource.BuildMediaSource(uri, formatHint, infer).value), Prepare,
                                     SetStreamHandler, SetVideoSurface, SetAudioAttributes(!mixWithOthers), AddListener]
                && r.value.httpFactory == Controls.ConfigureHttpFactory(Controls.DEFAULT_HTTP_FACTORY, headers)
                && r.value.engine == engine && !r.value.isInitialized && r.value.events == []
                && r.value.hasSurface && r.value.hasEngine
    {
      var source := MediaSource.BuildMediaSource(uri, formatHint, infer);
      if source.Failure? {
        return Failure(source.error);
      }
      var p := new VideoPlayer(engine, mixWithOthers, Controls.DEFAULT_HTTP_FACTORY);
      p.BuildHttpDataSourceFactory(headers);
      p.calls := [SetMediaSource(source.value), Prepare] + p.calls;
      r := Success(p);
    }

    /** buildHttpDataSourceFactory. */
    method BuildHttpDataSourceFactory(headers: map<string, string>)
      modifies this`httpFactory
      ensures httpFactory == Controls.ConfigureHttpFactory(old(httpFactory), headers)
    {
      var httpHeadersNotEmpty := |headers| != 0;
      var userAgent := if httpHeadersNotEmpty && Controls.USER_AGENT in headers
                       then headers[Controls.USER_AGENT] else Controls.DEFAULT_USER_AGENT;
      httpFactory := httpFactory.(userAgent := Some(userAgent), allowCrossProtocolRedirects := true);
      if httpHeadersNotEmpty {
        httpFactory := httpFactory.(defaultRequestProperties := headers);
      }
    }

    /** sendBufferingUpdate. */
    method SendBufferingUpdate()
      modifies this`events
      ensures events == old(events) + [BufferingUpdate([BufferedRange(0, engine.bufferedPosition)])]
    {
      events := events + [BufferingUpdate([BufferedRange(0, engine.bufferedPosition)])];
    }

    /** sendInitialized: the duration and, when there is a video format, its oriented size. */
    method SendInitialized()
      modifies this`events
      ensures events == old(events) + if isInitialized then [InitializedEvent(engine.duration, engine.videoFormat)] else []
    {
      if isInitialized {
        var geometry: Option<Geometry> := None;
        if engine.videoFormat.Some? {
          var videoFormat := engine.videoFormat.value;
          var width := videoFormat.width;
          var height := videoFormat.height;
          var rotationDegrees := videoFormat.rotationDegrees;
          if rotationDegrees == 90 || rotationDegrees == 270 {
            width := videoFormat.height;
            height := videoFormat.width;
          }
          var rotationCorrection: Option<int> := None;
          if rotationDegrees == 180 {
            rotationCorrection := Some(rotationDegrees);
          }
          geometry := Some(Geometry(width, height, rotationCorrection));
        }
        events := events + [Initialized(engine.duration, geometry)];
      }
    }

    method Play()
      modifies this`calls
      ensures calls == old(calls) + [SetPlayWhenReady(true)]
    {
      calls := calls + [SetPlayWhenReady(true)];
    }

    method Pause()
      modifies this`calls
      ensures calls == old(calls) + [SetPlayWhenReady(false)]
    {
      calls := calls + [SetPlayWhenReady(false)];
    }

    /** setLooping: repeat-all or repeat-off. */
    method SetLooping(value: bool)
      modifies this`calls
      ensures calls == old(calls) + [SetRepeatMode(Controls.RepeatModeFor(value))]
      ensures Controls.IsLooping(calls[|calls| - 1].repeatMode) == value
    {
      calls := calls + [SetRepeatMode(if value then REPEAT_MODE_ALL else REPEAT_MODE_OFF)];
    }

    /** setVolume: the engine only ever receives a volume in [0, 1]. */
    method SetVolume(value: real)
      modifies this`calls
      ensures calls == old(calls) + [Call.SetVolume(Controls.BracketVolume(value))]
      ensures 0.0 <= calls[|calls| - 1].volume <= 1.0
    {
      var bracketedValue := Controls.Max(0.0, Controls.Min(1.0, value));
      calls := calls + [Call.SetVolume(bracketedValue)];
    }

    method SetPlaybackSpeed(value: real)
      modifies this`calls
      ensures calls == old(calls) + [Call.SetPlaybackSpeed(value)]
    {
      calls := calls + [Call.SetPlaybackSpeed(value)];
    }

    method SeekTo(location: int)
      modifies this`calls
      ensures calls == old(calls) + [Call.SeekTo(location)]
    {
      calls := calls + [Call.SeekTo(location)];
    }

    method GetPosition() returns (position: int)
      ensures position == engine.currentPosition
    {
      position := engine.currentPosition;
    }

    /** getTracks against the engine's current mapped track info. */
    method GetTracks(textureId: int) returns (result: TrackCatalog.TracksMessage)
      ensures result == TrackCatalog.ListTracks(textureId, engine.mappedTrackInfo)
    {
      result := TrackCatalog.GetTracks(textureId, engine.mappedTrackInfo);
    }

    /** selectTrack: nothing without mapped track info; otherwise an override for that track. */
    method SelectTrack(renderer: int, group: int, index: int) returns (outcome: Controls.Selection)
      modifies this`calls
      ensures outcome == Controls.SelectTrack(engine.mappedTrackInfo, renderer, group, index)
      ensures calls == old(calls) + if outcome.Override? then [SetTrackOverride(outcome.trackOverride)] else []
    {
      var mappedTrackInfo := engine.mappedTrackInfo;
      if mappedTrackInfo.None? {
        return Controls.NoMapping;
      }
      var m := mappedTrackInfo.value;
      if !(0 <= renderer < |m|) || !(0 <= group < |m[renderer].trackGroups|) {
        return Controls.IndexOutOfRange;
      }
      var trackOverride := TrackOverride(renderer, group, index);
      calls := calls + [SetTrackOverride(trackOverride)];
      outcome := Controls.Override(trackOverride);
    }

    /** dispose: stop only an initialized engine, then release everything. */
    method Dispose()
      modifies this`calls
      ensures calls == old(calls) + Controls.DisposeCalls(isInitialized, hasSurface, hasEngine)
    {
      if isInitialized {
        calls := calls + [StopEngine];
      }
      calls := calls + [ReleaseTexture];
      calls := calls + [ClearStreamHandler];
      if hasSurface {
        calls := calls + [ReleaseSurface];
      }
      if hasEngine {
        calls := calls + [ReleaseEngine];
      }
    }
  }

  /** The listener setUpVideoPlayer registers on the engine. */
  class PlayerListener {
    const player: VideoPlayer
    var isBuffering: bool
    /** The callbacks delivered so far, each with what the engine reported while it was handled. */
    ghost var history: seq<PlaybackState.Delivery>

    /** The listener's flags together with the player's isInitialized. */
    function State(): PlaybackState.ListenerState
      reads this, player
    {
      PlaybackState.ListenerState(player.isInitialized, isBuffering)
    }

    /** The flags and the event log are those of running the history from a fresh player. */
    ghost predicate Valid()
      reads this, player
    {
      PlaybackState.Run(PlaybackState.START, history) == PlaybackState.Outcome(State(), player.events)
    }

    constructor (player: VideoPlayer)
      requires !player.isInitialized && player.events == []
      ensures this.player == player && !isBuffering && history == [] && Valid()
    {
      this.player := player;
      isBuffering := false;
      history := [];
    }

    /** setBuffering. */
    method SetBuffering(buffering: bool)
      modifies this`isBuffering, player`events
      ensures State() == PlaybackState.SetBuffering(old(State()), buffering).state
      ensures player.events == old(player.events) + PlaybackState.SetBuffering(old(State()), buffering).events
    {
      if isBuffering != buffering {
        isBuffering := buffering;
        player.events := player.events + [if isBuffering then BufferingStart else BufferingEnd];
      }
    }

    /** Records callback `callback` as delivered, keeping Valid(). */
    ghost method Record(callback: PlaybackState.Callback, before: PlaybackState.ListenerState,
                        logBefore: seq<Event>, report: EngineReport)
      requires PlaybackState.Run(PlaybackState.START, history) == PlaybackState.Outcome(before, logBefore)
      requires State() == PlaybackState.Step(before, PlaybackState.Delivery(report, callback)).state
      requires player.events == logBefore + PlaybackState.Step(before, PlaybackState.Delivery(report, callback)).events
      modifies this`history
      ensures history == old(history) + [PlaybackState.Delivery(report, callback)]
      ensures Valid()
    {
      PlaybackState.RunSnoc(PlaybackState.START, history, PlaybackState.Delivery(report, callback));
      history := history + [PlaybackState.Delivery(report, callback)];
    }

    /** onPlaybackStateChanged. */
    method OnPlaybackStateChanged(playbackState: int)
      requires Valid()
      modifies this`isBuffering, this`history, player`events, player`isInitialized
      ensures Valid()
      ensures history == old(history) + [PlaybackState.Delivery(old(player.engine), PlaybackState.PlaybackStateChanged(playbackState))]
      ensures State() == PlaybackState.OnPlaybackStateChanged(old(State()), old(player.engine), playbackState).state
      ensures player.events
              == old(player.events) + PlaybackState.OnPlaybackStateChanged(old(State()), old(player.engine), playbackState).events
    {
      if playbackState == STATE_BUFFERING {
        SetBuffering(true);
        player.SendBufferingUpdate();
      } else if playbackState == STATE_READY {
        if !player.isInitialized {
          player.isInitialized := true;
          player.SendInitialized();
        }
      } else if playbackState == STATE_ENDED {
        player.events := player.events + [Completed];
      }
      if playbackState != STATE_BUFFERING {
        SetBuffering(false);
      }
      Record(PlaybackState.PlaybackStateChanged(playbackState), old(State()), old(player.events), old(player.engine));
    }

    /** onPlayerError. */
    method OnPlayerError(description: string)
      requires Valid()
      modifies this`isBuffering, this`history, player`events
      ensures Valid()
      ensures history == old(history) + [PlaybackState.Delivery(old(player.engine), PlaybackState.PlayerError(description))]
      ensures State() == PlaybackState.OnPlayerError(old(State()), description).state
      ensures player.events == old(player.events) + PlaybackState.OnPlayerError(old(State()), description).events
    {
      SetBuffering(false);
      player.events := player.events + [VideoError(ERROR_CODE, ERROR_PREFIX + description)];
      Record(PlaybackState.PlayerError(description), old(State()), old(player.events), old(player.engine));
    }

    /** onIsPlayingChanged. */
    method OnIsPlayingChanged(isPlaying: bool)
      requires Valid()
      modifies this`history, player`events
      ensures Valid()
      ensures history == old(history) + [PlaybackState.Delivery(old(player.engine), PlaybackState.IsPlayingChanged(isPlaying))]
      ensures player.events == old(player.events) + [IsPlayingStateUpdate(isPlaying)]
    {
      player.events := player.events + [IsPlayingStateUpdate(isPlaying)];
      Record(PlaybackState.IsPlayingChanged(isPlaying), old(State()), old(player.events), old(player.engine));
    }

    /** onTracksChanged: report the first selected, supported audio track and stop. */
    method OnTracksChanged(groups: seq<TracksGroup>)
      requires Valid()
      modifies this`history, player`events
      ensures Valid()
      ensures history == old(history) + [PlaybackState.Delivery(old(player.engine), PlaybackState.TracksChanged(groups))]
      ensures player.events == old(player.events) + PlaybackState.TracksChangedEvents(groups)
    {
      var g := 0;
      while g < |groups|
        invariant g <= |groups|
        invariant player.events == old(player.events)
        invariant forall h: nat, s: nat :: h < g ==> !TrackCatalog.IsActiveAudio(groups, h, s)
      {
        var trackGroup := groups[g];
        if trackGroup.trackType == TRACK_TYPE_AUDIO {
          var s := 0;
          while s < |trackGroup.tracks|
            invariant s <= |trackGroup.tracks|
            invariant forall t: nat :: t < s ==> !TrackCatalog.IsActiveAudio(groups, g, t)
          {
            var isSupported := trackGroup.tracks[s].supported;
            var isSelected := trackGroup.tracks[s].selected;
            if isSelected && isSupported {
              var id := trackGroup.tracks[s].format.id;
              TrackCatalog.FirstActiveAudioUnique(groups, g, s);
              player.events := player.events + [AudioTrackChanged(id)];
              Record(PlaybackState.TracksChanged(groups), old(State()), old(player.events), old(player.engine));
              return;
            }
            s := s + 1;
          }
        }
        g := g + 1;
      }
      Record(PlaybackState.TracksChanged(groups), old(State()), old(player.events), old(player.engine));
    }
  }

  /** Whatever callbacks a listener has handled, its player's buffering events are start, end, start, end, ... */
  lemma ListenerBufferingAlternates(listener: PlayerListener)
    requires listener.Valid()
    ensures var marks := PlaybackState.Marks(listener.player.events);
      forall i :: 0 <= i < |marks| ==> marks[i] == if i % 2 == 0 then BufferingStart else BufferingEnd
  {
    PlaybackState.FreshRunMarks(listener.history);
  }

  /** Whatever callbacks a listener has handled, its player has sent initialized at most once, and once iff initialized. */
  lemma ListenerInitializedOnce(listener: PlayerListener)
    requires listener.Valid()
    ensures PlaybackState.CountInitialized(listener.player.events) <= 1
    ensures PlaybackState.CountInitialized(listener.player.events) == 1 <==> listener.player.isInitialized
  {
    PlaybackState.FreshRunInitializedAtMostOnce(listener.history);
  }
}
