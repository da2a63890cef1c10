/**
 * The player's engine listener as a pure state machine: from the listener's
 * flags and one engine callback to the new flags and the events it sends, in
 * order; and what holds of every sequence of callbacks.
 */
module PlaybackState {
  import opened Wrappers
  import opened Engine
  import opened Events
  import TrackCatalog

  /** The player's isInitialized field and the listener's private isBuffering field. */
  datatype ListenerState = ListenerState(isInitialized: bool, isBuffering: bool)

  /** The state of a newly set up player. */
  const START := ListenerState(false, false)

  /** An engine callback delivered to the listener. */
  datatype Callback =
    | PlaybackStateChanged(playbackState: int)
    | PlayerError(description: string)
    | IsPlayingChanged(isPlaying: bool)
    | TracksChanged(groups: seq<TracksGroup>)

  /** A callback together with what the engine answers to queries made while handling it. */
  datatype Delivery = Delivery(report: EngineReport, callback: Callback)

  /** New flags and the events sent, in order. */
  datatype Outcome = Outcome(state: ListenerState, events: seq<Event>)

  /** setBuffering: an event only when the flag actually changes. */
  function SetBuffering(s: ListenerState, buffering: bool): (o: Outcome)
    ensures o.state == s.(isBuffering := buffering)
    ensures o.events == if s.isBuffering == buffering then []
                        else if buffering then [BufferingStart] else [BufferingEnd]
  {
    if s.isBuffering != buffering then
      Outcome(s.(isBuffering := buffering), [if buffering then BufferingStart else BufferingEnd])
    else
      Outcome(s, [])
  }

  /** sendBufferingUpdate: a single buffered range from zero to the buffered position. */
  function BufferingUpdateEvent(report: EngineReport): Event {
    BufferingUpdate([BufferedRange(0, report.bufferedPosition)])
  }

  /** The event sendInitialized sends. */
  function InitializedEventOf(report: EngineReport): Event {
    InitializedEvent(report.duration, report.videoFormat)
  }

  /** The state-specific branch of onPlaybackStateChanged, before the final setBuffering(false). */
  function StateBranch(s: ListenerState, report: EngineReport, playbackState: int): Outcome {
    if playbackState == STATE_BUFFERING then
      var o := SetBuffering(s, true);
      Outcome(o.state, o.events + [BufferingUpdateEvent(report)])
    else if playbackState == STATE_READY then
      if !s.isInitialized then Outcome(s.(isInitialized := true), [InitializedEventOf(report)])
      else Outcome(s, [])
    else if playbackState == STATE_ENDED then
      Outcome(s, [Completed])
    else
      Outcome(s, [])
  }

  /** onPlaybackStateChanged: the branch, then setBuffering(false) unless the state is BUFFERING. */
  function OnPlaybackStateChanged(s: ListenerState, report: EngineReport, playbackState: int): (o: Outcome)
    ensures playbackState == STATE_BUFFERING ==>
              o.state == s.(isBuffering := true)
              && o.events == (if s.isBuffering then [] else [BufferingStart])
                             + [BufferingUpdate([BufferedRange(0, report.bufferedPosition)])]
    ensures playbackState == STATE_READY ==>
              o.state == ListenerState(true, false)
              && o.events == (if s.isInitialized then [] else [InitializedEvent(report.duration, report.videoFormat)])
                             + (if s.isBuffering then [BufferingEnd] else [])
    ensures playbackState == STATE_ENDED ==>
              o.state == s.(isBuffering := false)
              && o.events == [Completed] + (if s.isBuffering then [BufferingEnd] else [])
    ensures playbackState != STATE_BUFFERING && playbackState != STATE_READY && playbackState != STATE_ENDED ==>
              o.state == s.(isBuffering := false)
              && o.events == (if s.isBuffering then [BufferingEnd] else [])
  {
    var first := StateBranch(s, report, playbackState);
    if playbackState != STATE_BUFFERING then
      var o := SetBuffering(first.state, false);
      Outcome(o.state, first.events + o.events)
    else
      first
  }

  /** onPlayerError: clear buffering, then report the error. */
  function OnPlayerError(s: ListenerState, description: string): (o: Outcome)
    ensures o.state == s.(isBuffering := false)
    ensures o.events == (if s.isBuffering then [BufferingEnd] else [])
                        + [VideoError(ERROR_CODE, ERROR_PREFIX + description)]
  {
    var b := SetBuffering(s, false);
    Outcome(b.state, b.events + [VideoError(ERROR_CODE, ERROR_PREFIX + description)])
  }

  /** onIsPlayingChanged: always exactly one update carrying the flag. */
  function OnIsPlayingChanged(s: ListenerState, isPlaying: bool): (o: Outcome)
    ensures o.state == s && |o.events| == 1 && o.events[0].IsPlayingStateUpdate?
    ensures o.events[0].isPlaying == isPlaying
  {
    Outcome(s, [IsPlayingStateUpdate(isPlaying)])
  }

  /** The event onTracksChanged sends for a list of track groups, if any. */
  function TracksChangedEvents(groups: seq<TracksGroup>): (events: seq<Event>)
    ensures |events| <= 1
    ensures |events| == 1 <==> exists g: nat, k: nat :: TrackCatalog.IsActiveAudio(groups, g, k)
    ensures |events| == 1 ==> events[0].AudioTrackChanged?
  {
    match TrackCatalog.FirstActiveAudio(groups)
    case None => []
    case Some(loc) => [AudioTrackChanged(groups[loc.group].tracks[loc.track].format.id)]
  }

  /** onTracksChanged: flags untouched. */
  function OnTracksChanged(s: ListenerState, groups: seq<TracksGroup>): Outcome {
    Outcome(s, TracksChangedEvents(groups))
  }

  /** One callback. */
  function Step(s: ListenerState, d: Delivery): Outcome {
    match d.callback
    case PlaybackStateChanged(state) => OnPlaybackStateChanged(s, d.report, state)
    case PlayerError(description) => OnPlayerError(s, description)
    case IsPlayingChanged(p) => OnIsPlayingChanged(s, p)
    case TracksChanged(groups) => OnTracksChanged(s, groups)
  }

  /** A sequence of callbacks, handled one after another. */
  function Run(s: ListenerState, ds: seq<Delivery>): Outcome
    decreases |ds|
  {
    if ds == [] then Outcome(s, [])
    else
      var first := Step(s, ds[0]);
      var rest := Run(first.state, ds[1..]);
      Outcome(rest.state, first.events + rest.events)
  }

  /** Running one more callback extends the run's state and log by that callback's. */
  lemma {:induction false} RunSnoc(s: ListenerState, ds: seq<Delivery>, d: Delivery)
    ensures Run(s, ds + [d])
            == Outcome(Step(Run(s, ds).state, d).state, Run(s, ds).events + Step(Run(s, ds).state, d).events)
    decreases |ds|
  {
    if ds == [] {
      assert ds + [d] == [d] && [d][1..] == [];
    } else {
      var first := Step(s, ds[0]);
      assert (ds + [d])[0] == ds[0] && (ds + [d])[1..] == ds[1..] + [d];
      RunSnoc(first.state, ds[1..], d);
      var rest := Run(first.state, ds[1..]);
      var last := Step(rest.state, d);
      calc {
        Run(s, ds + [d]);
        Outcome(Run(first.state, ds[1..] + [d]).state, first.events + Run(first.state, ds[1..] + [d]).events);
        Outcome(last.state, first.events + (rest.events + last.events));
        { assert first.events + (rest.events + last.events) == (first.events + rest.events) + last.events; }
        Outcome(last.state, (first.events + rest.events) + last.events);
      }
    }
  }

  // ----- Buffering events alternate -----

  /** The buffering flag after a log's start and end events, beginning from `buffering`. */
  function FlagAfter(buffering: bool, log: seq<Event>): bool
    decreases |log|
  {
    if log == [] then buffering
    else FlagAfter(if log[0].BufferingStart? then true else if log[0].BufferingEnd? then false else buffering, log[1..])
  }

  /** Every start is sent while not buffering and every end while buffering. */
  predicate Alternating(buffering: bool, log: seq<Event>)
    decreases |log|
  {
    log == [] ||
    (match log[0]
     case BufferingStart => !buffering && Alternating(true, log[1..])
     case BufferingEnd => buffering && Alternating(false, log[1..])
     case _ => Alternating(buffering, log[1..]))
  }

  /** Only the start and end events of a log. */
  function Marks(log: seq<Event>): (r: seq<Event>)
    decreases |log|
  {
    if log == [] then []
    else (if log[0].BufferingStart? || log[0].BufferingEnd? then [log[0]] else []) + Marks(log[1..])
  }

  lemma {:induction false} AlternatingAppend(buffering: bool, a: seq<Event>, c: seq<Event>)
    ensures Alternating(buffering, a + c) <==> Alternating(buffering, a) && Alternating(FlagAfter(buffering, a), c)
    ensures FlagAfter(buffering, a + c) == FlagAfter(FlagAfter(buffering, a), c)
    decreases |a|
  {
    if a != [] {
      assert (a + c)[0] == a[0] && (a + c)[1..] == a[1..] + c;
      var next := if a[0].BufferingStart? then true else if a[0].BufferingEnd? then false else buffering;
      AlternatingAppend(next, a[1..], c);
    } else {
      assert a + c == c;
    }
  }

  /** The flag after one event. */
  function FlagAfterEvent(buffering: bool, e: Event): bool {
    if e.BufferingStart? then true else if e.BufferingEnd? then false else buffering
  }

  /** Whether one event may be sent with the flag at `buffering`. */
  predicate AllowedAt(buffering: bool, e: Event) {
    (e.BufferingStart? ==> !buffering) && (e.BufferingEnd? ==> buffering)
  }

  /** The facts about a log of one event, unfolded. */
  lemma OneEventLog(buffering: bool, x: Event)
    ensures Alternating(buffering, [x]) == AllowedAt(buffering, x)
    ensures FlagAfter(buffering, [x]) == FlagAfterEvent(buffering, x)
    ensures CountInitialized([x]) == if x.Initialized? then 1 else 0
  {
    assert [x][1..] == [];
  }

  /** The facts about a log of one or two events, unfolded. */
  lemma ShortLog(buffering: bool, x: Event, y: Event)
    ensures Alternating(buffering, [x]) == AllowedAt(buffering, x)
    ensures FlagAfter(buffering, [x]) == FlagAfterEvent(buffering, x)
    ensures CountInitialized([x]) == if x.Initialized? then 1 else 0
    ensures Alternating(buffering, [x, y])
            == (AllowedAt(buffering, x) && AllowedAt(FlagAfterEvent(buffering, x), y))
    ensures FlagAfter(buffering, [x, y]) == FlagAfterEvent(FlagAfterEvent(buffering, x), y)
    ensures CountInitialized([x, y]) == (if x.Initialized? then 1 else 0) + (if y.Initialized? then 1 else 0)
  {
    OneEventLog(buffering, x);
    OneEventLog(FlagAfterEvent(buffering, x), y);
    assert [x, y][1..] == [y];
  }

  /** What every callback must keep: alternation, the flag its events leave, and one initialized per initialization. */
  predicate StepKeeps(s: ListenerState, o: Outcome) {
    && Alternating(s.isBuffering, o.events)
    && FlagAfter(s.isBuffering, o.events) == o.state.isBuffering
    && (s.isInitialized ==> o.state.isInitialized)
    && CountInitialized(o.events) == if !s.isInitialized && o.state.isInitialized then 1 else 0
  }

  lemma PlaybackStateKeeps(s: ListenerState, report: EngineReport, state: int)
    ensures StepKeeps(s, OnPlaybackStateChanged(s, report, state))
  {
    var o := OnPlaybackStateChanged(s, report, state);
    var u := BufferingUpdateEvent(report);
    var i := InitializedEventOf(report);
    if state == STATE_BUFFERING {
      if s.isBuffering {
        assert o.events == [u];
        ShortLog(true, u, u);
      } else {
        assert o.events == [BufferingStart, u];
        ShortLog(false, BufferingStart, u);
      }
    } else if state == STATE_READY {
      if !s.isInitialized && s.isBuffering {
        assert o.events == [i, BufferingEnd];
        ShortLog(true, i, BufferingEnd);
      } else if !s.isInitialized {
        assert o.events == [i];
        ShortLog(false, i, i);
      } else if s.isBuffering {
        assert o.events == [BufferingEnd];
        ShortLog(true, BufferingEnd, BufferingEnd);
      }
    } else if state == STATE_ENDED {
      if s.isBuffering {
        assert o.events == [Completed, BufferingEnd];
        ShortLog(true, Completed, BufferingEnd);
      } else {
        assert o.events == [Completed];
        ShortLog(false, Completed, Completed);
      }
    } else if s.isBuffering {
      assert o.events == [BufferingEnd];
      ShortLog(true, BufferingEnd, BufferingEnd);
    }
  }

  /** Every callback keeps alternation, the flag and the initialized count in step. */
  lemma StepKeepsInvariants(s: ListenerState, d: Delivery)
    ensures StepKeeps(s, Step(s, d))
  {
    var o := Step(s, d);
    match d.callback
    case PlaybackStateChanged(state) =>
      PlaybackStateKeeps(s, d.report, state);
    case PlayerError(description) =>
      var e := VideoError(ERROR_CODE, ERROR_PREFIX + description);
      if s.isBuffering {
        assert o.events == [BufferingEnd, e];
        ShortLog(true, BufferingEnd, e);
      } else {
        assert o.events == [e];
        ShortLog(false, e, e);
      }
    case IsPlayingChanged(p) =>
      ShortLog(s.isBuffering, IsPlayingStateUpdate(p), IsPlayingStateUpdate(p));
    case TracksChanged(groups) =>
      if o.events != [] {
        assert o.events == [o.events[0]];
        ShortLog(s.isBuffering, o.events[0], o.events[0]);
      }
  }

  /**
   * Across any sequence of callbacks, buffering starts and ends alternate, and
   * the flag the listener is left with is the one the events say.
   */
  lemma {:induction false} RunAlternates(s: ListenerState, ds: seq<Delivery>)
    ensures Alternating(s.isBuffering, Run(s, ds).events)
    ensures FlagAfter(s.isBuffering, Run(s, ds).events) == Run(s, ds).state.isBuffering
    decreases |ds|
  {
    if ds != [] {
      var first := Step(s, ds[0]);
      StepKeepsInvariants(s, ds[0]);
      RunAlternates(first.state, ds[1..]);
      AlternatingAppend(s.isBuffering, first.events, Run(first.state, ds[1..]).events);
    }
  }

  /** In an alternating log the marks are start, end, start, end, ... (end first when already buffering). */
  lemma {:induction false} AlternatingMarks(buffering: bool, log: seq<Event>)
    requires Alternating(buffering, log)
    ensures forall i :: 0 <= i < |Marks(log)| ==>
              Marks(log)[i] == if (i % 2 == 0) != buffering then BufferingStart else BufferingEnd
    decreases |log|
  {
    if log != [] {
      var next := if log[0].BufferingStart? then true else if log[0].BufferingEnd? then false else buffering;
      AlternatingMarks(next, log[1..]);
      if log[0].BufferingStart? || log[0].BufferingEnd? {
        var ms := Marks(log);
        assert ms == [log[0]] + Marks(log[1..]);
        forall i | 0 <= i < |ms|
          ensures ms[i] == if (i % 2 == 0) != buffering then BufferingStart else BufferingEnd
        {
          if i > 0 {
            assert ms[i] == Marks(log[1..])[i - 1];
          }
        }
      }
    }
  }

  /** From a fresh player, the buffering events of any run are start, end, start, end, ... */
  lemma FreshRunMarks(ds: seq<Delivery>)
    ensures forall i :: 0 <= i < |Marks(Run(START, ds).events)| ==>
              Marks(Run(START, ds).events)[i] == if i % 2 == 0 then BufferingStart else BufferingEnd
  {
    RunAlternates(START, ds);
    AlternatingMarks(false, Run(START, ds).events);
  }

  // ----- initialized is sent at most once -----

  /** The number of initialized events in a log. */
  function CountInitialized(log: seq<Event>): nat
    decreases |log|
  {
    if log == [] then 0 else (if log[0].Initialized? then 1 else 0) + CountInitialized(log[1..])
  }

  lemma {:induction false} CountInitializedAppend(a: seq<Event>, c: seq<Event>)
    ensures CountInitialized(a + c) == CountInitialized(a) + CountInitialized(c)
    decreases |a|
  {
    if a != [] {
      assert (a + c)[0] == a[0] && (a + c)[1..] == a[1..] + c;
      CountInitializedAppend(a[1..], c);
    } else {
      assert a + c == c;
    }
  }

  /**
   * Across any sequence of callbacks, initialized is sent once exactly when the
   * run is what sets isInitialized, and never once it is set.
   */
  lemma {:induction false} RunInitializesOnce(s: ListenerState, ds: seq<Delivery>)
    ensures s.isInitialized ==> Run(s, ds).state.isInitialized
    ensures CountInitialized(Run(s, ds).events) == if !s.isInitialized && Run(s, ds).state.isInitialized then 1 else 0
    decreases |ds|
  {
    if ds != [] {
      var first := Step(s, ds[0]);
      StepKeepsInvariants(s, ds[0]);
      RunInitializesOnce(first.state, ds[1..]);
      CountInitializedAppend(first.events, Run(first.state, ds[1..]).events);
    }
  }

  /** A fresh player sends initialized at most once, however often the engine becomes ready. */
  lemma FreshRunInitializedAtMostOnce(ds: seq<Delivery>)
    ensures CountInitialized(Run(START, ds).events) <= 1
    ensures CountInitialized(Run(START, ds).events) == 1 <==> Run(START, ds).state.isInitialized
  {
    RunInitializesOnce(START, ds);
  }

  /** Every callback other than BUFFERING, is-playing and tracks leaves the listener not buffering. */
  lemma NonBufferingStatesClearBuffering(s: ListenerState, d: Delivery)
    requires d.callback.PlaybackStateChanged? ==> d.callback.playbackState != STATE_BUFFERING
    requires !d.callback.IsPlayingChanged? && !d.callback.TracksChanged?
    ensures !Step(s, d).state.isBuffering
  {
  }

  /**
   * The engine going buffering, ready, buffering, ended from a fresh player:
   * start, update, initialized, end, start, update, completed, end.
   */
  lemma BufferReadyBufferEndScenario(r1: EngineReport, r2: EngineReport, r3: EngineReport, r4: EngineReport)
    ensures Run(START, [Delivery(r1, PlaybackStateChanged(STATE_BUFFERING)),
                        Delivery(r2, PlaybackStateChanged(STATE_READY)),
                        Delivery(r3, PlaybackStateChanged(STATE_BUFFERING)),
                        Delivery(r4, PlaybackStateChanged(STATE_ENDED))]).events
            == [BufferingStart, BufferingUpdateEvent(r1), InitializedEventOf(r2), BufferingEnd,
                BufferingStart, BufferingUpdateEvent(r3), Completed, BufferingEnd]
  {
    var ds := [Delivery(r1, PlaybackStateChanged(STATE_BUFFERING)),
               Delivery(r2, PlaybackStateChanged(STATE_READY)),
               Delivery(r3, PlaybackStateChanged(STATE_BUFFERING)),
               Delivery(r4, PlaybackStateChanged(STATE_ENDED))];
    var s1 := ListenerState(false, true);
    var s2 := ListenerState(true, false);
    var s3 := ListenerState(true, true);
    assert Run(s3, ds[3..]).events == [Completed, BufferingEnd];
    assert Run(s2, ds[2..]).events == [BufferingStart, BufferingUpdateEvent(r3), Completed, BufferingEnd];
    assert Run(s1, ds[1..]).events
        == [InitializedEventOf(r2), BufferingEnd, BufferingStart, BufferingUpdateEvent(r3), Completed, BufferingEnd];
  }
}
