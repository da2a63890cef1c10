# VideoPlayer adapter model

A Dafny model of the Android `VideoPlayer` class of the Flutter `video_player` plugin: the
adapter that drives an ExoPlayer engine and reports its state to the Flutter side as an
ordered stream of events. The engine, the platform surface and the event channel are
collaborators; the model keeps what the adapter itself decides:

- **Playback-state listener** (`playback_state.dfy`, `video_player.dfy`): the listener's
  `isBuffering` flag and the player's `isInitialized` flag, and the events each engine callback
  sends (buffering start/end/update, initialized, completed, is-playing, audio track changed,
  error). `PlaybackState` states the listener as a pure function from flags and one callback to
  new flags and events (`Step`, `Run`); the classes `Player.VideoPlayer` and
  `Player.PlayerListener` do the same work in place on fields and are proved equal to it.
  A ghost `history` of delivered callbacks ties the listener's real event log to `Run`, so the
  run lemmas (buffering starts and ends alternate; `initialized` is sent at most once) hold of
  every log produced through the listener's callbacks.
- **Media-source selection** (`media_source.dfy`): format hint → content type → source kind,
  with content-type inference from the URI as a function parameter.
- **Initialization geometry** (`events.dfy`): width/height swap for 90/270 degrees and the
  `rotationCorrection` field for 180 degrees.
- **Track catalog** (`track_catalog.dfy`): the nested renderer × group × track walks of
  `getTracks`/`addTracks` and the first-active-audio-track scan of `onTracksChanged`.
- **Commands** (`controls.dfy`, `video_player.dfy`): volume bracketing, looping, the HTTP user
  agent, track-selection overrides, and the teardown order of `dispose`. Calls on the engine and
  the platform are recorded in order in the player's `calls` log; events sent to the event sink
  in its `events` log.

Engine constants (`Player.STATE_*`, `C.CONTENT_TYPE_*`, `C.TRACK_TYPE_*`, `C.FORMAT_HANDLED`,
`REPEAT_MODE_*`) are ExoPlayer 2.18's public values, declared in `engine.dfy`; the proofs rely only
on their being distinct.

Behaviour of the code worth noting:

- On READY the code sends `initialized` first and then `bufferingEnd` (the final
  `setBuffering(false)` runs after the branch), so buffering → ready → buffering → ended yields
  start, update, initialized, end, start, update, completed, end (`PlaybackState.BufferReadyBufferEndScenario`).
- An unknown explicit hint fails with type -1 even where inference from the URI would succeed;
  there is no fallback to inference.
- `selectTrack` is a no-op only when there is no mapped track info; indices outside the current
  mapping are not re-resolved: the renderer/group lookup throws (`Controls.IndexOutOfRange`).
- `dispose` releases the surface and the engine only when their references are non-null.
- Alternation is guaranteed, but an end after every start is not: a stream may stop while
  buffering.

## Model

| member | source | states |
|---|---|---|
| MediaSource.ContentTypeOfHint | packages/video_player/video_player_android/android/src/main/java/io/flutter/plugins/videoplayer/VideoPlayer.java:150-170 | a non-null hint yields a supported content type exactly when it is one of ss, dash, hls, other, and -1 otherwise |
| MediaSource.HintOfContentType | packages/video_player/video_player_android/android/src/main/java/io/flutter/plugins/videoplayer/VideoPlayer.java:56-59 | each supported content type has exactly one hint, and only supported types have one |
| MediaSource.SourceKindOf | packages/video_player/video_player_android/android/src/main/java/io/flutter/plugins/videoplayer/VideoPlayer.java:171-190 | a content type has a source kind exactly when it is SS, DASH, HLS or OTHER; any other type throws "Unsupported type" carrying that type |
| MediaSource.ResolveContentType | packages/video_player/video_player_android/android/src/main/java/io/flutter/plugins/videoplayer/VideoPlayer.java:149-170 | definition: the hint decides when present, inference from the URI otherwise; its properties are lemmas UnknownHintFails, NoHintUsesInference and HintAgreesWithInference |
| MediaSource.BuildMediaSource | packages/video_player/video_player_android/android/src/main/java/io/flutter/plugins/videoplayer/VideoPlayer.java:147-191 | a built source plays the URI it was given; which kind is built, and when it fails, are lemmas KnownHintKinds, UnknownHintFails and NoHintUsesInference |
| MediaSource.HintRoundTrip | packages/video_player/video_player_android/android/src/main/java/io/flutter/plugins/videoplayer/VideoPlayer.java:153-169 | hint → type → hint and type → hint → type are identities on the four known hints and types |
| MediaSource.HintsSelectDistinctKinds | packages/video_player/video_player_android/android/src/main/java/io/flutter/plugins/videoplayer/VideoPlayer.java:153-185 | the four hints select four different source kinds |
| MediaSource.KnownHintKinds | packages/video_player/video_player_android/android/src/main/java/io/flutter/plugins/videoplayer/VideoPlayer.java:150-185 | ss, dash, hls, other build the SmoothStreaming, DASH, HLS and progressive sources for the URI |
| MediaSource.UnknownHintFails | packages/video_player/video_player_android/android/src/main/java/io/flutter/plugins/videoplayer/VideoPlayer.java:166-189 | any other non-null hint fails with type -1 whatever the URI infers to |
| MediaSource.NoHintUsesInference | packages/video_player/video_player_android/android/src/main/java/io/flutter/plugins/videoplayer/VideoPlayer.java:150-151 | with no hint, building succeeds exactly when the inferred type is supported; an inferred RTSP stream fails |
| MediaSource.HintAgreesWithInference | packages/video_player/video_player_android/android/src/main/java/io/flutter/plugins/videoplayer/VideoPlayer.java:149-190 | an explicit hint and an inferred type for the same content type build the same source |
| Events.VideoGeometry | packages/video_player/video_player_android/android/src/main/java/io/flutter/plugins/videoplayer/VideoPlayer.java:425-445 | a rotation correction is reported exactly for 180 degrees, and carries 180 |
| Events.InitializedEvent | packages/video_player/video_player_android/android/src/main/java/io/flutter/plugins/videoplayer/VideoPlayer.java:420-447 | the initialized event carries the duration, and a size exactly when there is a video format; with no format it carries nothing else |
| Events.QuarterTurnSwaps | packages/video_player/video_player_android/android/src/main/java/io/flutter/plugins/videoplayer/VideoPlayer.java:431-434 | rotation 90 or 270 reports (height, width) with no correction |
| Events.HalfTurnCorrects | packages/video_player/video_player_android/android/src/main/java/io/flutter/plugins/videoplayer/VideoPlayer.java:442-444 | rotation 180 reports (width, height) unchanged plus rotationCorrection 180 |
| Events.OtherRotationUnchanged | packages/video_player/video_player_android/android/src/main/java/io/flutter/plugins/videoplayer/VideoPlayer.java:427-445 | any other rotation reports (width, height) unchanged with no correction |
| Events.GeometryShowsUprightPicture | packages/video_player/video_player_android/android/src/main/java/io/flutter/plugins/videoplayer/VideoPlayer.java:430-434 | a portrait video stored sideways is reported as the upright picture would be; reported dimensions are the stored ones in some order |
| Events.GeometryExamples | packages/video_player/video_player_android/android/src/main/java/io/flutter/plugins/videoplayer/VideoPlayer.java:425-445 | 1080×1920 at 90 degrees reports 1920×1080; at 180 degrees 1080×1920 with correction 180 |
| TrackCatalog.Included | packages/video_player/video_player_android/android/src/main/java/io/flutter/plugins/videoplayer/VideoPlayer.java:371-373 | definition: handled support under the 0b111 mask, and not PGS when listing subtitles; its properties are lemmas ListTracksCorrect and PgsExcludedFromSubtitlesOnly |
| TrackCatalog.Describe | packages/video_player/video_player_android/android/src/main/java/io/flutter/plugins/videoplayer/VideoPlayer.java:374-383 | definition: the renderer, group and index with the format's id, language and label; its properties are lemma GroupTracksFacts |
| TrackCatalog.AddedTracks | packages/video_player/video_player_android/android/src/main/java/io/flutter/plugins/videoplayer/VideoPlayer.java:365-386 | definition of what addTracks appends; its properties are lemmas RendererTracksFacts and RendererPartSound |
| TrackCatalog.Catalog | packages/video_player/video_player_android/android/src/main/java/io/flutter/plugins/videoplayer/VideoPlayer.java:347-355 | definition of a list over the first renderers; its properties are lemmas CatalogSound, CatalogOrdered and CatalogComplete |
| TrackCatalog.ListTracks | packages/video_player/video_player_android/android/src/main/java/io/flutter/plugins/videoplayer/VideoPlayer.java:336-345 | the reply carries the texture id; with no mapped track info both lists are empty |
| TrackCatalog.GroupTracksFacts | packages/video_player/video_player_android/android/src/main/java/io/flutter/plugins/videoplayer/VideoPlayer.java:370-384 | one group yields exactly its included tracks, with their own indices, in index order |
| TrackCatalog.RendererTracksFacts | packages/video_player/video_player_android/android/src/main/java/io/flutter/plugins/videoplayer/VideoPlayer.java:365-386 | one renderer yields exactly its included tracks, in (group, index) order |
| TrackCatalog.RendererPartSound | packages/video_player/video_player_android/android/src/main/java/io/flutter/plugins/videoplayer/VideoPlayer.java:347-355 | what one renderer contributes to a list comes from that renderer, is listable and is in order |
| TrackCatalog.RendererPartComplete | packages/video_player/video_player_android/android/src/main/java/io/flutter/plugins/videoplayer/VideoPlayer.java:347-355 | every listable track of a renderer of the list's type is in what that renderer contributes |
| TrackCatalog.CatalogSound | packages/video_player/video_player_android/android/src/main/java/io/flutter/plugins/videoplayer/VideoPlayer.java:347-355 | every listed descriptor is an included track of a renderer of the list's type, with its own indices |
| TrackCatalog.CatalogOrdered | packages/video_player/video_player_android/android/src/main/java/io/flutter/plugins/videoplayer/VideoPlayer.java:347-386 | each list is in strict (renderer, group, index) order, so without duplicates |
| TrackCatalog.CatalogComplete | packages/video_player/video_player_android/android/src/main/java/io/flutter/plugins/videoplayer/VideoPlayer.java:347-386 | every included track of a renderer of the list's type is listed |
| TrackCatalog.ListTracksCorrect | packages/video_player/video_player_android/android/src/main/java/io/flutter/plugins/videoplayer/VideoPlayer.java:336-386 | audio and subtitle lists hold exactly the handled tracks of audio and text renderers, PGS excluded from subtitles, in ascending order |
| TrackCatalog.PgsExcludedFromSubtitlesOnly | packages/video_player/video_player_android/android/src/main/java/io/flutter/plugins/videoplayer/VideoPlayer.java:371-373 | a handled PGS track is listed on an audio renderer and never among subtitles |
| TrackCatalog.AddTracks | packages/video_player/video_player_android/android/src/main/java/io/flutter/plugins/videoplayer/VideoPlayer.java:359-386 | the nested loops append exactly the renderer's included descriptors to the given list |
| TrackCatalog.GetTracks | packages/video_player/video_player_android/android/src/main/java/io/flutter/plugins/videoplayer/VideoPlayer.java:336-357 | the renderer loop builds exactly the catalog listing |
| TrackCatalog.FirstActiveTrack | packages/video_player/video_player_android/android/src/main/java/io/flutter/plugins/videoplayer/VideoPlayer.java:238-241 | the first selected and supported track of an audio group at or after an index, or none |
| TrackCatalog.FirstActiveAudioFrom | packages/video_player/video_player_android/android/src/main/java/io/flutter/plugins/videoplayer/VideoPlayer.java:235-249 | the first selected and supported audio track from a group on, in group-then-index order |
| TrackCatalog.FirstActiveAudio | packages/video_player/video_player_android/android/src/main/java/io/flutter/plugins/videoplayer/VideoPlayer.java:234-250 | the reported track is selected, supported, audio and before every other such track; none exactly when there is no such track |
| TrackCatalog.FirstActiveAudioUnique | packages/video_player/video_player_android/android/src/main/java/io/flutter/plugins/videoplayer/VideoPlayer.java:234-250 | an active audio track with none before it is the one reported |
| PlaybackState.SetBuffering | packages/video_player/video_player_android/android/src/main/java/io/flutter/plugins/videoplayer/VideoPlayer.java:254-261 | the flag becomes the argument; an event is sent only on a change, start when set and end when cleared |
| PlaybackState.BufferingUpdateEvent | packages/video_player/video_player_android/android/src/main/java/io/flutter/plugins/videoplayer/VideoPlayer.java:304-311 | definition: one update holding the single range [0, buffered position]; the contracts of OnPlaybackStateChanged and Player.VideoPlayer.SendBufferingUpdate state the events through it |
| PlaybackState.OnPlaybackStateChanged | packages/video_player/video_player_android/android/src/main/java/io/flutter/plugins/videoplayer/VideoPlayer.java:264-282 | BUFFERING: start if not buffering, then one update [0, buffered]; READY: initialized the first time, then end if buffering; ENDED: completed, then end if buffering; other states: end if buffering; every non-BUFFERING state clears the flag |
| PlaybackState.OnPlayerError | packages/video_player/video_player_android/android/src/main/java/io/flutter/plugins/videoplayer/VideoPlayer.java:285-290 | clears buffering, sending end only if it was set, then the VideoError event with the engine's description |
| PlaybackState.OnIsPlayingChanged | packages/video_player/video_player_android/android/src/main/java/io/flutter/plugins/videoplayer/VideoPlayer.java:293-300 | exactly one is-playing update carrying the flag, with no deduplication |
| PlaybackState.TracksChangedEvents | packages/video_player/video_player_android/android/src/main/java/io/flutter/plugins/videoplayer/VideoPlayer.java:234-250 | at most one audio-track-changed event, sent exactly when some audio track is selected and supported |
| PlaybackState.OnTracksChanged | packages/video_player/video_player_android/android/src/main/java/io/flutter/plugins/videoplayer/VideoPlayer.java:234-250 | definition: flags unchanged, events those of TracksChangedEvents; its properties are lemma StepKeepsInvariants |
| PlaybackState.RunSnoc | packages/video_player/video_player_android/android/src/main/java/io/flutter/plugins/videoplayer/VideoPlayer.java:214-301 | handling one more callback extends the run's flags and log by that callback's |
| PlaybackState.PlaybackStateKeeps | packages/video_player/video_player_android/android/src/main/java/io/flutter/plugins/videoplayer/VideoPlayer.java:264-282 | each playback-state callback keeps alternation, flag and initialized count in step |
| PlaybackState.StepKeepsInvariants | packages/video_player/video_player_android/android/src/main/java/io/flutter/plugins/videoplayer/VideoPlayer.java:233-300 | every callback keeps alternation, flag and initialized count in step |
| PlaybackState.RunAlternates | packages/video_player/video_player_android/android/src/main/java/io/flutter/plugins/videoplayer/VideoPlayer.java:252-282 | across any callbacks, starts are sent only while not buffering and ends only while buffering, and the final flag is what the events say |
| PlaybackState.AlternatingMarks | packages/video_player/video_player_android/android/src/main/java/io/flutter/plugins/videoplayer/VideoPlayer.java:252-261 | in an alternating log the buffering events go start, end, start, ... (end first when already buffering) |
| PlaybackState.FreshRunMarks | packages/video_player/video_player_android/android/src/main/java/io/flutter/plugins/videoplayer/VideoPlayer.java:252-282 | from a fresh player, buffering events go start, end, start, end, ... |
| PlaybackState.RunInitializesOnce | packages/video_player/video_player_android/android/src/main/java/io/flutter/plugins/videoplayer/VideoPlayer.java:268-272 | across any callbacks, initialized is sent once exactly when the run sets isInitialized, and never after |
| PlaybackState.FreshRunInitializedAtMostOnce | packages/video_player/video_player_android/android/src/main/java/io/flutter/plugins/videoplayer/VideoPlayer.java:268-272 | a fresh player sends initialized at most once, and once exactly when initialized |
| PlaybackState.NonBufferingStatesClearBuffering | packages/video_player/video_player_android/android/src/main/java/io/flutter/plugins/videoplayer/VideoPlayer.java:279-286 | every playback state other than BUFFERING, and every error, leaves the player not buffering |
| PlaybackState.BufferReadyBufferEndScenario | packages/video_player/video_player_android/android/src/main/java/io/flutter/plugins/videoplayer/VideoPlayer.java:264-282 | buffering, ready, buffering, ended sends start, update, initialized, end, start, update, completed, end |
| Controls.BracketVolume | packages/video_player/video_player_android/android/src/main/java/io/flutter/plugins/videoplayer/VideoPlayer.java:331-334 | the volume passed on lies in [0, 1], equals the request when already in range, 0 below and 1 above |
| Controls.BracketVolumeExamples | packages/video_player/video_player_android/android/src/main/java/io/flutter/plugins/videoplayer/VideoPlayer.java:332 | -1 gives 0, 2 gives 1, 0.5 gives 0.5 |
| Controls.RepeatModeFor | packages/video_player/video_player_android/android/src/main/java/io/flutter/plugins/videoplayer/VideoPlayer.java:327-329 | looping maps to repeat-all or repeat-off only |
| Controls.RepeatModeRoundTrip | packages/video_player/video_player_android/android/src/main/java/io/flutter/plugins/videoplayer/VideoPlayer.java:328 | the repeat mode loops exactly when looping was asked for |
| Controls.UserAgentFor | packages/video_player/video_player_android/android/src/main/java/io/flutter/plugins/videoplayer/VideoPlayer.java:133-138 | the user agent is the User-Agent header when present, otherwise "ExoPlayer" |
| Controls.ConfigureHttpFactory | packages/video_player/video_player_android/android/src/main/java/io/flutter/plugins/videoplayer/VideoPlayer.java:133-145 | sets the user agent and cross-protocol redirects; replaces request properties only for non-empty headers; empty headers give "ExoPlayer" and change nothing else |
| Controls.SelectTrack | packages/video_player/video_player_android/android/src/main/java/io/flutter/plugins/videoplayer/VideoPlayer.java:388-399 | no mapped track info means no action; an existing renderer and group give an override for exactly the requested track; other indices throw |
| Controls.DisposeCalls | packages/video_player/video_player_android/android/src/main/java/io/flutter/plugins/videoplayer/VideoPlayer.java:451-463 | definition of the teardown calls; its properties are lemma DisposeOrder |
| Controls.DisposeOrder | packages/video_player/video_player_android/android/src/main/java/io/flutter/plugins/videoplayer/VideoPlayer.java:451-463 | stop is called exactly when initialized and comes first; texture and stream handler are always released; surface and engine are released exactly when present, the engine last; nothing twice |
| Player.VideoPlayer.constructor | packages/video_player/video_player_android/android/src/main/java/io/flutter/plugins/videoplayer/VideoPlayer.java:193-214 | a set-up player is uninitialized, has sent nothing, and has installed the stream handler, set the surface and the audio attributes (focus unless mixing) and registered its listener, in that order |
| Player.VideoPlayer.Create | packages/video_player/video_player_android/android/src/main/java/io/flutter/plugins/videoplayer/VideoPlayer.java:81-113 | construction fails exactly when the media source is unsupported; otherwise the engine gets the source, is prepared and set up, and the HTTP factory is configured from the headers |
| Player.VideoPlayer.BuildHttpDataSourceFactory | packages/video_player/video_player_android/android/src/main/java/io/flutter/plugins/videoplayer/VideoPlayer.java:133-145 | the factory ends as the header rule says |
| Player.VideoPlayer.SendBufferingUpdate | packages/video_player/video_player_android/android/src/main/java/io/flutter/plugins/videoplayer/VideoPlayer.java:304-311 | appends one update with the single range [0, buffered position] |
| Player.VideoPlayer.SendInitialized | packages/video_player/video_player_android/android/src/main/java/io/flutter/plugins/videoplayer/VideoPlayer.java:419-449 | appends the initialized event with the oriented size only when initialized |
| Player.VideoPlayer.Play | packages/video_player/video_player_android/android/src/main/java/io/flutter/plugins/videoplayer/VideoPlayer.java:319-321 | asks the engine to play when ready |
| Player.VideoPlayer.Pause | packages/video_player/video_player_android/android/src/main/java/io/flutter/plugins/videoplayer/VideoPlayer.java:323-325 | asks the engine not to play when ready |
| Player.VideoPlayer.SetLooping | packages/video_player/video_player_android/android/src/main/java/io/flutter/plugins/videoplayer/VideoPlayer.java:327-329 | hands the engine the repeat mode for the flag |
| Player.VideoPlayer.SetVolume | packages/video_player/video_player_android/android/src/main/java/io/flutter/plugins/videoplayer/VideoPlayer.java:331-334 | hands the engine the bracketed volume, always in [0, 1] |
| Player.VideoPlayer.SetPlaybackSpeed | packages/video_player/video_player_android/android/src/main/java/io/flutter/plugins/videoplayer/VideoPlayer.java:401-407 | hands the engine the speed |
| Player.VideoPlayer.SeekTo | packages/video_player/video_player_android/android/src/main/java/io/flutter/plugins/videoplayer/VideoPlayer.java:409-411 | hands the engine the position |
| Player.VideoPlayer.GetPosition | packages/video_player/video_player_android/android/src/main/java/io/flutter/plugins/videoplayer/VideoPlayer.java:413-415 | returns the engine's current position |
| Player.VideoPlayer.GetTracks | packages/video_player/video_player_android/android/src/main/java/io/flutter/plugins/videoplayer/VideoPlayer.java:336-357 | returns the listing of the engine's current mapped track info |
| Player.VideoPlayer.SelectTrack | packages/video_player/video_player_android/android/src/main/java/io/flutter/plugins/videoplayer/VideoPlayer.java:388-399 | calls the engine only for an override, as the selection rule says |
| Player.VideoPlayer.Dispose | packages/video_player/video_player_android/android/src/main/java/io/flutter/plugins/videoplayer/VideoPlayer.java:451-463 | makes exactly the teardown calls, in order |
| Player.PlayerListener.constructor | packages/video_player/video_player_android/android/src/main/java/io/flutter/plugins/videoplayer/VideoPlayer.java:252 | a new listener is not buffering and has handled nothing |
| Player.PlayerListener.SetBuffering | packages/video_player/video_player_android/android/src/main/java/io/flutter/plugins/videoplayer/VideoPlayer.java:254-261 | updates the flag and the log as the pure rule says |
| Player.PlayerListener.OnPlaybackStateChanged | packages/video_player/video_player_android/android/src/main/java/io/flutter/plugins/videoplayer/VideoPlayer.java:264-282 | updates flags and log as the pure rule says, and records the callback |
| Player.PlayerListener.OnPlayerError | packages/video_player/video_player_android/android/src/main/java/io/flutter/plugins/videoplayer/VideoPlayer.java:285-290 | updates flag and log as the pure rule says, and records the callback |
| Player.PlayerListener.OnIsPlayingChanged | packages/video_player/video_player_android/android/src/main/java/io/flutter/plugins/videoplayer/VideoPlayer.java:293-300 | appends one is-playing update and records the callback |
| Player.PlayerListener.OnTracksChanged | packages/video_player/video_player_android/android/src/main/java/io/flutter/plugins/videoplayer/VideoPlayer.java:234-250 | the nested scan with early return appends the first active audio track's id, or nothing |
| Player.ListenerBufferingAlternates | packages/video_player/video_player_android/android/src/main/java/io/flutter/plugins/videoplayer/VideoPlayer.java:252-282 | the player's real log, after any callbacks, has buffering events start, end, start, ... |
| Player.ListenerInitializedOnce | packages/video_player/video_player_android/android/src/main/java/io/flutter/plugins/videoplayer/VideoPlayer.java:268-272 | the player's real log has at most one initialized event, one exactly when initialized |

## Left out

- ExoPlayer itself: construction, the media-source factory objects, `Util.inferContentType` (a function parameter), and what the engine does with each call (recorded in `calls` only).
- The platform: `Surface`, `TextureRegistry`, `EventChannel` stream-handler wiring, `Context`, `Uri` parsing (a URI is a string).
- `QueuingEventSink`: its queuing while no listener is attached is not part of this model; the sink is an append-only log of what the player sends.
- The null checks on the event sink in `onPlayerError` and `onIsPlayingChanged`: the sink is always set before the listener is registered, so the model always sends.
- Asynchronous delivery and threading: callbacks and commands are one serialized sequence of method calls.
- Calls after `dispose`: the source does not guard them and the model does not either.
- Controls.BracketVolume: works on exact reals, so the float conversion and NaN inputs are not modelled.
- Player.VideoPlayer.SetPlaybackSpeed: the float conversion of the speed is not modelled.
- Controls.SelectTrack: the engine's own check of the track index against the group and the rebuilding of the selection parameters are library behaviour and not modelled; the model records which override was requested.
- Calls to `sendInitialized` and `sendBufferingUpdate` from outside the listener: the source exposes both to the package; the model provides them as methods, but the alternation and initialized-once lemmas speak only of logs built through the listener's callbacks, and a direct call is not recorded in the listener's history.
- The listener object built inside `setUpVideoPlayer`: the model records its registration (`AddListener`) in `calls`, but the `PlayerListener` object for a player is constructed by the caller.
- The hand-assembled JSON text of track descriptors: each descriptor is a record.
- Integer widths: durations, positions, sizes and rotations are unbounded integers; the source does no arithmetic on them.
- The commented-out `onCues` handler.
