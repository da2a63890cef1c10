/**
 * The track catalog: the audio and subtitle tracks listed from the engine's
 * mapped track info (renderer x group x track), and the active audio track
 * found among the engine's track groups.
 */
module TrackCatalog {
  import opened Wrappers
  import opened Engine

  /** MimeTypes.APPLICATION_PGS: image-based subtitles, never listed as subtitles. */
  const MIME_APPLICATION_PGS := "application/pgs"

  /** One listed track, addressed by its renderer, group and index. */
  datatype TrackDescriptor = TrackDescriptor(
    renderer: nat,
    group: nat,
    index: nat,
    id: Option<string>,
    language: Option<string>,
    title: Option<string>)

  /** The reply to getTracks. */
  datatype TracksMessage = TracksMessage(
    textureId: int,
    audioTracks: seq<TrackDescriptor>,
    subtitleTracks: seq<TrackDescriptor>)

  predicate ValidTrack(m: MappedTrackInfo, r: nat, g: nat, k: nat) {
    r < |m| && g < |m[r].trackGroups| && k < |m[r].trackGroups[g]|
  }

  /** The track is handled natively and, in a subtitle listing, is not PGS. */
  predicate Included(m: MappedTrackInfo, r: nat, g: nat, k: nat, subtitles: bool)
    requires ValidTrack(m, r, g, k)
  {
    var t := m[r].trackGroups[g][k];
    t.support & FORMAT_SUPPORT_MASK == FORMAT_HANDLED
    && !(subtitles && t.format.sampleMimeType == Some(MIME_APPLICATION_PGS))
  }

  /** The descriptor of one track: its own indices and its format's id, language and label. */
  function Describe(m: MappedTrackInfo, r: nat, g: nat, k: nat): (d: TrackDescriptor)
    requires ValidTrack(m, r, g, k)
  {
    var f := m[r].trackGroups[g][k].format;
    TrackDescriptor(r, g, k, f.id, f.language, f.formatLabel)
  }

  /** The descriptors of the first k tracks of group g of renderer r. */
  function GroupTracks(m: MappedTrackInfo, r: nat, g: nat, subtitles: bool, k: nat): seq<TrackDescriptor>
    requires r < |m| && g < |m[r].trackGroups| && k <= |m[r].trackGroups[g]|
  {
    if k == 0 then []
    else GroupTracks(m, r, g, subtitles, k - 1)
         + (if Included(m, r, g, k - 1, subtitles) then [Describe(m, r, g, k - 1)] else [])
  }

  /** The descriptors of the first g groups of renderer r. */
  function RendererTracks(m: MappedTrackInfo, r: nat, subtitles: bool, g: nat): seq<TrackDescriptor>
    requires r < |m| && g <= |m[r].trackGroups|
  {
    if g == 0 then []
    else RendererTracks(m, r, subtitles, g - 1)
         + GroupTracks(m, r, g - 1, subtitles, |m[r].trackGroups[g - 1]|)
  }

  /** What addTracks appends for renderer r. */
  function AddedTracks(m: MappedTrackInfo, r: nat, subtitles: bool): seq<TrackDescriptor>
    requires r < |m|
  {
    RendererTracks(m, r, subtitles, |m[r].trackGroups|)
  }

  /** What renderer r contributes to the listing of kind `kind` (audio or text). */
  function RendererPart(m: MappedTrackInfo, kind: int, r: nat): seq<TrackDescriptor>
    requires r < |m|
  {
    if m[r].rendererType == kind then AddedTracks(m, r, kind == TRACK_TYPE_TEXT) else []
  }

  /** The listing of kind `kind` over the first i renderers. */
  function Catalog(m: MappedTrackInfo, kind: int, i: nat): seq<TrackDescriptor>
    requires i <= |m|
  {
    if i == 0 then [] else Catalog(m, kind, i - 1) + RendererPart(m, kind, i - 1)
  }

  /** getTracks: the listing, or two empty lists when the engine has no mapping yet. */
  function ListTracks(textureId: int, info: Option<MappedTrackInfo>): (r: TracksMessage)
    ensures r.textureId == textureId
    ensures info.None? ==> r.audioTracks == [] && r.subtitleTracks == []
  {
    match info
    case None => TracksMessage(textureId, [], [])
    case Some(m) => TracksMessage(textureId, Catalog(m, TRACK_TYPE_AUDIO, |m|), Catalog(m, TRACK_TYPE_TEXT, |m|))
  }

  /** d is the descriptor of a track of a renderer of type `kind` that the listing admits. */
  predicate Lists(m: MappedTrackInfo, kind: int, d: TrackDescriptor) {
    ValidTrack(m, d.renderer, d.group, d.index)
    && m[d.renderer].rendererType == kind
    && Included(m, d.renderer, d.group, d.index, kind == TRACK_TYPE_TEXT)
    && d == Describe(m, d.renderer, d.group, d.index)
  }

  /** Strict (renderer, group, index) order. */
  predicate Precedes(a: TrackDescriptor, b: TrackDescriptor) {
    a.renderer < b.renderer
    || (a.renderer == b.renderer && a.group < b.group)
    || (a.renderer == b.renderer && a.group == b.group && a.index < b.index)
  }

  predicate StrictlyOrdered(s: seq<TrackDescriptor>) {
    forall a, b :: 0 <= a < b < |s| ==> Precedes(s[a], s[b])
  }

  lemma OrderedAppend(x: seq<TrackDescriptor>, y: seq<TrackDescriptor>)
    requires StrictlyOrdered(x) && StrictlyOrdered(y)
    requires forall i, j :: 0 <= i < |x| && 0 <= j < |y| ==> Precedes(x[i], y[j])
    ensures StrictlyOrdered(x + y)
  {
    forall a, b | 0 <= a < b < |x + y| ensures Precedes((x + y)[a], (x + y)[b]) {
      if b < |x| {
      } else if a < |x| {
        assert (x + y)[b] == y[b - |x|];
      } else {
        assert (x + y)[a] == y[a - |x|] && (x + y)[b] == y[b - |x|];
      }
    }
  }

  /** Group level: entries are the included tracks below k of group g, in index order, and all of them. */
  lemma {:induction false} GroupTracksFacts(m: MappedTrackInfo, r: nat, g: nat, subtitles: bool, k: nat)
    requires r < |m| && g < |m[r].trackGroups| && k <= |m[r].trackGroups[g]|
    ensures forall j :: 0 <= j < |GroupTracks(m, r, g, subtitles, k)| ==>
              var d := GroupTracks(m, r, g, subtitles, k)[j];
              d.renderer == r && d.group == g && d.index < k
              && ValidTrack(m, r, g, d.index) && Included(m, r, g, d.index, subtitles) && d == Describe(m, r, g, d.index)
    ensures StrictlyOrdered(GroupTracks(m, r, g, subtitles, k))
    ensures forall t: nat :: t < k && Included(m, r, g, t, subtitles) ==>
              Describe(m, r, g, t) in GroupTracks(m, r, g, subtitles, k)
  {
    if k > 0 {
      GroupTracksFacts(m, r, g, subtitles, k - 1);
      var prev := GroupTracks(m, r, g, subtitles, k - 1);
      var last := if Included(m, r, g, k - 1, subtitles) then [Describe(m, r, g, k - 1)] else [];
      OrderedAppend(prev, last);
      assert GroupTracks(m, r, g, subtitles, k) == prev + last;
    }
  }

  /** Renderer level: entries come from groups below g of renderer r, in (group, index) order, and all of them. */
  lemma {:induction false} RendererTracksFacts(m: MappedTrackInfo, r: nat, subtitles: bool, g: nat)
    requires r < |m| && g <= |m[r].trackGroups|
    ensures forall j :: 0 <= j < |RendererTracks(m, r, subtitles, g)| ==>
              var d := RendererTracks(m, r, subtitles, g)[j];
              d.renderer == r && d.group < g
              && ValidTrack(m, r, d.group, d.index) && Included(m, r, d.group, d.index, subtitles)
              && d == Describe(m, r, d.group, d.index)
    ensures StrictlyOrdered(RendererTracks(m, r, subtitles, g))
    ensures forall h: nat, t: nat :: h < g && ValidTrack(m, r, h, t) && Included(m, r, h, t, subtitles) ==>
              Describe(m, r, h, t) in RendererTracks(m, r, subtitles, g)
  {
    if g > 0 {
      RendererTracksFacts(m, r, subtitles, g - 1);
      GroupTracksFacts(m, r, g - 1, subtitles, |m[r].trackGroups[g - 1]|);
      var prev := RendererTracks(m, r, subtitles, g - 1);
      var last := GroupTracks(m, r, g - 1, subtitles, |m[r].trackGroups[g - 1]|);
      OrderedAppend(prev, last);
      assert RendererTracks(m, r, subtitles, g) == prev + last;
    }
  }

  /** What renderer r contributes is listable, from renderer r, in order. */
  lemma RendererPartSound(m: MappedTrackInfo, kind: int, r: nat)
    requires r < |m|
    ensures forall j :: 0 <= j < |RendererPart(m, kind, r)| ==>
              RendererPart(m, kind, r)[j].renderer == r && Lists(m, kind, RendererPart(m, kind, r)[j])
    ensures StrictlyOrdered(RendererPart(m, kind, r))
  {
    if m[r].rendererType == kind {
      RendererTracksFacts(m, r, kind == TRACK_TYPE_TEXT, |m[r].trackGroups|);
    }
  }

  /** What renderer r contributes holds every listable track of r. */
  lemma RendererPartComplete(m: MappedTrackInfo, kind: int, r: nat)
    requires r < |m|
    ensures forall g: nat, k: nat :: (ValidTrack(m, r, g, k) && m[r].rendererType == kind
              && Included(m, r, g, k, kind == TRACK_TYPE_TEXT)) ==> Describe(m, r, g, k) in RendererPart(m, kind, r)
  {
    if m[r].rendererType == kind {
      RendererTracksFacts(m, r, kind == TRACK_TYPE_TEXT, |m[r].trackGroups|);
    }
  }

  /** Catalog level, soundness: every entry is listable and comes from a renderer below i. */
  lemma {:induction false} CatalogSound(m: MappedTrackInfo, kind: int, i: nat)
    requires i <= |m|
    ensures forall j :: 0 <= j < |Catalog(m, kind, i)| ==>
              Catalog(m, kind, i)[j].renderer < i && Lists(m, kind, Catalog(m, kind, i)[j])
  {
    if i > 0 {
      CatalogSound(m, kind, i - 1);
      RendererPartSound(m, kind, i - 1);
      var prev: seq<TrackDescriptor> := Catalog(m, kind, i - 1);
      var last: seq<TrackDescriptor> := RendererPart(m, kind, i - 1);
      forall j | 0 <= j < |prev + last| ensures (prev + last)[j].renderer < i && Lists(m, kind, (prev + last)[j]) {
        if j >= |prev| {
          assert (prev + last)[j] == last[j - |prev|];
        } else {
          assert (prev + last)[j] == prev[j];
        }
      }
    }
  }

  /** Catalog level, order: entries are in strict (renderer, group, index) order. */
  lemma {:induction false} CatalogOrdered(m: MappedTrackInfo, kind: int, i: nat)
    requires i <= |m|
    ensures StrictlyOrdered(Catalog(m, kind, i))
  {
    if i > 0 {
      CatalogOrdered(m, kind, i - 1);
      CatalogSound(m, kind, i - 1);
      RendererPartSound(m, kind, i - 1);
      var prev: seq<TrackDescriptor> := Catalog(m, kind, i - 1);
      var last: seq<TrackDescriptor> := RendererPart(m, kind, i - 1);
      forall x, y | 0 <= x < |prev| && 0 <= y < |last| ensures Precedes(prev[x], last[y]) {
        assert prev[x].renderer < i - 1 && last[y].renderer == i - 1;
      }
      OrderedAppend(prev, last);
    }
  }

  /** Catalog level, completeness: every listable track of a renderer below i appears. */
  lemma {:induction false} CatalogComplete(m: MappedTrackInfo, kind: int, i: nat)
    requires i <= |m|
    ensures forall r: nat, g: nat, k: nat ::
              (r < i && ValidTrack(m, r, g, k) && m[r].rendererType == kind
               && Included(m, r, g, k, kind == TRACK_TYPE_TEXT)) ==> Describe(m, r, g, k) in Catalog(m, kind, i)
  {
    if i > 0 {
      CatalogComplete(m, kind, i - 1);
      RendererPartComplete(m, kind, i - 1);
      var prev: seq<TrackDescriptor> := Catalog(m, kind, i - 1);
      var last: seq<TrackDescriptor> := RendererPart(m, kind, i - 1);
      forall r: nat, g: nat, k: nat | r < i && ValidTrack(m, r, g, k) && m[r].rendererType == kind
          && Included(m, r, g, k, kind == TRACK_TYPE_TEXT)
        ensures Describe(m, r, g, k) in prev + last
      {
        if r < i - 1 {
          assert Describe(m, r, g, k) in prev;
        } else {
          assert Describe(m, r, g, k) in last;
        }
      }
    }
  }

  /**
   * The listing's promise: the audio (subtitle) list holds exactly the
   * descriptors of the natively handled tracks of audio (text) renderers,
   * PGS excluded from subtitles only, each with its own indices, in ascending
   * (renderer, group, index) order.
   */
  lemma ListTracksCorrect(textureId: int, m: MappedTrackInfo)
    ensures var r := ListTracks(textureId, Some(m));
      && (forall j :: 0 <= j < |r.audioTracks| ==> Lists(m, TRACK_TYPE_AUDIO, r.audioTracks[j]))
      && (forall j :: 0 <= j < |r.subtitleTracks| ==> Lists(m, TRACK_TYPE_TEXT, r.subtitleTracks[j]))
      && StrictlyOrdered(r.audioTracks) && StrictlyOrdered(r.subtitleTracks)
      && (forall rr: nat, g: nat, k: nat ::
            (ValidTrack(m, rr, g, k) && m[rr].rendererType == TRACK_TYPE_AUDIO && Included(m, rr, g, k, false))
            ==> Describe(m, rr, g, k) in r.audioTracks)
      && (forall rr: nat, g: nat, k: nat ::
            (ValidTrack(m, rr, g, k) && m[rr].rendererType == TRACK_TYPE_TEXT && Included(m, rr, g, k, true))
            ==> Describe(m, rr, g, k) in r.subtitleTracks)
  {
    CatalogSound(m, TRACK_TYPE_AUDIO, |m|);
    CatalogSound(m, TRACK_TYPE_TEXT, |m|);
    CatalogOrdered(m, TRACK_TYPE_AUDIO, |m|);
    CatalogOrdered(m, TRACK_TYPE_TEXT, |m|);
    CatalogComplete(m, TRACK_TYPE_AUDIO, |m|);
    CatalogComplete(m, TRACK_TYPE_TEXT, |m|);
  }

  /** A handled PGS track on an audio renderer is still listed; on a text renderer it never is. */
  lemma PgsExcludedFromSubtitlesOnly(textureId: int, m: MappedTrackInfo, r: nat, g: nat, k: nat)
    requires ValidTrack(m, r, g, k)
    requires m[r].trackGroups[g][k].support & FORMAT_SUPPORT_MASK == FORMAT_HANDLED
    requires m[r].trackGroups[g][k].format.sampleMimeType == Some(MIME_APPLICATION_PGS)
    ensures m[r].rendererType == TRACK_TYPE_AUDIO ==> Describe(m, r, g, k) in ListTracks(textureId, Some(m)).audioTracks
    ensures forall j :: 0 <= j < |ListTracks(textureId, Some(m)).subtitleTracks| ==>
              var d := ListTracks(textureId, Some(m)).subtitleTracks[j];
              !(d.renderer == r && d.group == g && d.index == k)
  {
    ListTracksCorrect(textureId, m);
  }

  /** addTracks: appends the descriptors of renderer `renderer` to `tracks`, group by group, track by track. */
  method AddTracks(m: MappedTrackInfo, renderer: nat, tracks: seq<TrackDescriptor>, subtitles: bool)
    returns (out: seq<TrackDescriptor>)
    requires renderer < |m|
    ensures out == tracks + AddedTracks(m, renderer, subtitles)
  {
    var trackGroupArray := m[renderer].trackGroups;
    out := tracks;
    for s := 0 to |trackGroupArray|
      invariant out == tracks + RendererTracks(m, renderer, subtitles, s)
    {
      var group := trackGroupArray[s];
      for k := 0 to |group|
        invariant out == tracks + RendererTracks(m, renderer, subtitles, s) + GroupTracks(m, renderer, s, subtitles, k)
      {
        if group[k].support & FORMAT_SUPPORT_MASK != FORMAT_HANDLED {
          continue;
        }
        var format := group[k].format;
        if subtitles && format.sampleMimeType == Some(MIME_APPLICATION_PGS) {
          continue;
        }
        out := out + [TrackDescriptor(renderer, s, k, format.id, format.language, format.formatLabel)];
      }
    }
  }

  /** getTracks: walks every renderer, adding audio renderers to the audio list and text renderers to the subtitle list. */
  method GetTracks(textureId: int, info: Option<MappedTrackInfo>) returns (result: TracksMessage)
    ensures result == ListTracks(textureId, info)
  {
    var audioTracks: seq<TrackDescriptor> := [];
    var subtitleTracks: seq<TrackDescriptor> := [];
    if info.None? {
      return TracksMessage(textureId, audioTracks, subtitleTracks);
    }
    var m := info.value;
    for i := 0 to |m|
      invariant audioTracks == Catalog(m, TRACK_TYPE_AUDIO, i)
      invariant subtitleTracks == Catalog(m, TRACK_TYPE_TEXT, i)
    {
      var rendererType := m[i].rendererType;
      if rendererType == TRACK_TYPE_AUDIO {
        audioTracks := AddTracks(m, i, audioTracks, false);
      } else if rendererType == TRACK_TYPE_TEXT {
        subtitleTracks := AddTracks(m, i, subtitleTracks, true);
      }
    }
    result := TracksMessage(textureId, audioTracks, subtitleTracks);
  }

  // ----- The active audio track (onTracksChanged) -----

  /** Where a track sits among the engine's track groups. */
  datatype TrackLocation = TrackLocation(group: nat, track: nat)

  /** Track s of group g is an audio track that is both selected and supported. */
  predicate IsActiveAudio(groups: seq<TracksGroup>, g: nat, s: nat) {
    g < |groups| && groups[g].trackType == TRACK_TYPE_AUDIO && s < |groups[g].tracks|
    && groups[g].tracks[s].selected && groups[g].tracks[s].supported
  }

  /** (g1, s1) comes before (g2, s2) in group-then-index order. */
  predicate LocatedBefore(g1: nat, s1: nat, g2: nat, s2: nat) {
    g1 < g2 || (g1 == g2 && s1 < s2)
  }

  /** The first selected and supported track of an audio group at index `from` or later. */
  function FirstActiveTrack(groups: seq<TracksGroup>, g: nat, from: nat): (r: Option<nat>)
    requires g < |groups| && groups[g].trackType == TRACK_TYPE_AUDIO && from <= |groups[g].tracks|
    ensures r.None? ==> forall s :: from <= s < |groups[g].tracks| ==> !IsActiveAudio(groups, g, s)
    ensures r.Some? ==> (from <= r.value && IsActiveAudio(groups, g, r.value)
              && forall s :: from <= s < r.value ==> !IsActiveAudio(groups, g, s))
    decreases |groups[g].tracks| - from
  {
    if from == |groups[g].tracks| then None
    else if groups[g].tracks[from].selected && groups[g].tracks[from].supported then Some(from)
    else FirstActiveTrack(groups, g, from + 1)
  }

  /** The first selected and supported audio track in group `from` or later, in group-then-index order. */
  function FirstActiveAudioFrom(groups: seq<TracksGroup>, from: nat): (r: Option<TrackLocation>)
    requires from <= |groups|
    ensures r.None? ==> forall g: nat, s: nat :: from <= g ==> !IsActiveAudio(groups, g, s)
    ensures r.Some? ==> (from <= r.value.group && IsActiveAudio(groups, r.value.group, r.value.track)
              && forall g: nat, s: nat :: from <= g && LocatedBefore(g, s, r.value.group, r.value.track)
                   ==> !IsActiveAudio(groups, g, s))
    decreases |groups| - from
  {
    if from == |groups| then None
    else if groups[from].trackType != TRACK_TYPE_AUDIO then FirstActiveAudioFrom(groups, from + 1)
    else match FirstActiveTrack(groups, from, 0)
      case Some(s) => Some(TrackLocation(from, s))
      case None => FirstActiveAudioFrom(groups, from + 1)
  }

  /**
   * The track onTracksChanged reports: the first audio track, in group-then-index
   * order, that is selected and supported; None when there is none.
   */
  function FirstActiveAudio(groups: seq<TracksGroup>): (r: Option<TrackLocation>)
    ensures r.None? <==> forall g: nat, s: nat :: !IsActiveAudio(groups, g, s)
    ensures r.Some? ==> (IsActiveAudio(groups, r.value.group, r.value.track)
              && forall g: nat, s: nat :: LocatedBefore(g, s, r.value.group, r.value.track) ==> !IsActiveAudio(groups, g, s))
  {
    FirstActiveAudioFrom(groups, 0)
  }

  /** The characterisation determines the reported track: an active one with none before it is the first. */
  lemma FirstActiveAudioUnique(groups: seq<TracksGroup>, g: nat, s: nat)
    requires IsActiveAudio(groups, g, s)
    requires forall h: nat, t: nat :: LocatedBefore(h, t, g, s) ==> !IsActiveAudio(groups, h, t)
    ensures FirstActiveAudio(groups) == Some(TrackLocation(g, s))
  {
    var r := FirstActiveAudio(groups);
    assert r.Some?;
    var loc := r.value;
    assert !LocatedBefore(loc.group, loc.track, g, s);
    assert !LocatedBefore(g, s, loc.group, loc.track);
  }
}
