/**
 * The conference page: its widget state, the track-reference predicates it relies on, the
 * selection of screen-share tracks, and the effect that pins a screen share automatically.
 */
module VideoConference {
  import opened Wrappers
  import opened Layout

  // ---------------------------------------------------------------------------------------
  // Track references
  // ---------------------------------------------------------------------------------------

  /** Where a track comes from. */
  datatype TrackSource = Camera | Microphone | ScreenShare | ScreenShareAudio | Unknown

  /** One property of a JavaScript object: not an own property, an own property holding undefined, or a value. */
  datatype Prop<T> = Missing | Undefined | Defined(value: T)
  {
    /** `hasOwnProperty`: the property exists, whether or not it holds a value. */
    predicate IsOwn()
    {
      !Missing?
    }
  }

  /** A media track, known here only by its id. */
  datatype MediaTrack = MediaTrack(sid: string)

  /** A participant's track publication: its id, source, subscription status and the track, once there is one. */
  datatype Publication = Publication(trackSid: string, source: TrackSource, isSubscribed: bool, track: Option<MediaTrack>)

  /**
   * A track reference or placeholder as the predicates receive it: an object whose
   * participant, source, publication and track properties may each be missing, undefined or set.
   */
  datatype TrackRef = TrackRef(participant: Prop<string>, source: Prop<TrackSource>, publication: Prop<Publication>, track: Prop<MediaTrack>)

  /** The shape every track reference and placeholder shares: own participant and source properties. */
  predicate HasParticipantAndSource(t: TrackRef)
  {
    t.participant.IsOwn() && t.source.IsOwn()
  }

  /** A reference with participant, source and track properties whose publication carries a track. */
  function IsTrackReferenceSubscribed(ref: Option<TrackRef>): (r: bool)
    ensures r ==> && ref.Some? && HasParticipantAndSource(ref.value)
                  && ref.value.publication.Defined? && ref.value.publication.value.track.Some?
  {
    match ref
    case None => false
    case Some(t) =>
      && t.participant.IsOwn() && t.source.IsOwn() && t.track.IsOwn()
      && t.publication.Defined? && t.publication.value.track.Some?
  }

  /** A reference with participant and source whose publication property is present and not undefined. */
  function IsTrackReferencePublished(ref: Option<TrackRef>): (r: bool)
    ensures r <==> ref.Some? && HasParticipantAndSource(ref.value) && ref.value.publication.Defined?
  {
    match ref
    case None => false
    case Some(t) => t.participant.IsOwn() && t.source.IsOwn() && t.publication.IsOwn() && !t.publication.Undefined?
  }

  /**
   * `isTrackReference`: false for undefined, otherwise the subscribed or the published check.
   * Every subscribed reference is published, so it holds exactly of the published references.
   */
  function IsTrackReference(x: Option<TrackRef>): (r: bool)
    ensures r <==> IsTrackReferencePublished(x)
  {
    if x.None? then false
    else IsTrackReferenceSubscribed(x) || IsTrackReferencePublished(x)
  }

  /**
   * `isTrackReferencePlaceholder`: participant and source present and no publication.
   * For a reference with participant and source, exactly one of this and the published check holds.
   */
  function IsTrackReferencePlaceholder(ref: Option<TrackRef>): (r: bool)
    ensures r ==> !IsTrackReferencePublished(ref)
    ensures ref.Some? && HasParticipantAndSource(ref.value) ==> (r <==> !IsTrackReferencePublished(ref))
  {
    match ref
    case None => false
    case Some(t) => t.participant.IsOwn() && t.source.IsOwn() && !t.publication.Defined?
  }

  // ---------------------------------------------------------------------------------------
  // Source lists
  // ---------------------------------------------------------------------------------------

  /** An entry of a sources array: a bare source, or an object with a source and options. */
  datatype SourceEntry = BareSource(source: TrackSource) | SourceWithOptions(source: TrackSource, withPlaceholder: bool)

  /** The entries of the array that are objects, in array order. */
  function EntriesWithOptions(sources: seq<SourceEntry>): (r: seq<SourceEntry>)
    ensures |r| <= |sources|
    ensures forall e :: e in r <==> e in sources && e.SourceWithOptions?
  {
    if sources == [] then []
    else (if sources[0].SourceWithOptions? then [sources[0]] else []) + EntriesWithOptions(sources[1..])
  }

  /** `isSourcesWithOptions`: some entry of the array is an object rather than a bare source. */
  function IsSourcesWithOptions(sources: seq<SourceEntry>): (r: bool)
    ensures r <==> exists i :: 0 <= i < |sources| && sources[i].SourceWithOptions?
  {
    var withOptions := EntriesWithOptions(sources);
    assert withOptions != [] ==> withOptions[0] in sources;
    assert forall i :: 0 <= i < |sources| && sources[i].SourceWithOptions? ==> sources[i] in withOptions;
    |withOptions| > 0
  }

  // ---------------------------------------------------------------------------------------
  // Screen shares and auto-focus
  // ---------------------------------------------------------------------------------------

  /** A track reference whose publication is a screen share. */
  predicate IsScreenShareReference(t: TrackRef)
  {
    IsTrackReference(Some(t)) && t.publication.value.source == ScreenShare
  }

  /** The track references of the list whose publication is a screen share, in list order. */
  function ScreenShareTracks(tracks: seq<TrackRef>): (r: seq<TrackRef>)
    ensures |r| <= |tracks|
    ensures forall t :: t in r <==> t in tracks && IsScreenShareReference(t)
  {
    if tracks == [] then []
    else (if IsScreenShareReference(tracks[0]) then [tracks[0]] else []) + ScreenShareTracks(tracks[1..])
  }

  /** Selecting from a concatenation selects from each part in turn: the selection keeps the list's order. */
  lemma {:induction false} ScreenShareTracksAppend(a: seq<TrackRef>, b: seq<TrackRef>)
    ensures ScreenShareTracks(a + b) == ScreenShareTracks(a) + ScreenShareTracks(b)
  {
    if a != [] {
      assert (a + b)[1..] == a[1..] + b;
      ScreenShareTracksAppend(a[1..], b);
    } else {
      assert a + b == b;
    }
  }

  /** Some screen-share track of the list is subscribed. */
  predicate SomeSubscribed(screenShares: seq<TrackRef>)
  {
    exists i :: 0 <= i < |screenShares| && screenShares[i].publication.Defined? && screenShares[i].publication.value.isSubscribed
  }

  /** `current?.publication?.trackSid`: the publication id the auto-focus marker remembers, if any. */
  function MarkedTrackSid(marker: Option<TrackRef>): Option<string>
  {
    if marker.Some? && marker.value.publication.Defined? then Some(marker.value.publication.value.trackSid) else None
  }

  /** Some screen-share track of the list has the publication id the marker remembers. */
  predicate MarkerStillShared(screenShares: seq<TrackRef>, marker: Option<TrackRef>)
  {
    exists i :: 0 <= i < |screenShares| && screenShares[i].publication.Defined?
                && Some(screenShares[i].publication.value.trackSid) == MarkedTrackSid(marker)
  }

  /** The pin actions the effect dispatches. */
  datatype PinAction = SetPin(trackReference: TrackRef) | ClearPin

  /** The auto-focus marker after one run of the effect, and the pin action dispatched, if any. */
  datatype AutoFocusOutcome = AutoFocusOutcome(lastAutoFocused: Option<TrackRef>, dispatched: Option<PinAction>)

  /**
   * One run of the auto-focus effect over the current track list. With some screen share
   * subscribed and no marker, it pins the first screen share (subscribed or not) and remembers
   * it; with a marker whose publication no screen share has any more, it clears the pin and
   * forgets it; otherwise it does nothing. At most one pin action is dispatched, and only
   * when the pin context has a dispatcher.
   */
  function AutoFocusEffect(marker: Option<TrackRef>, tracks: seq<TrackRef>, hasDispatch: bool): (r: AutoFocusOutcome)
    ensures r.dispatched.Some? ==> hasDispatch
    ensures r.lastAutoFocused != marker ==> hasDispatch == r.dispatched.Some?
    ensures r.dispatched.Some? && r.dispatched.value.SetPin? ==>
              && marker.None? && r.lastAutoFocused == Some(r.dispatched.value.trackReference)
              && r.dispatched.value.trackReference in tracks && IsScreenShareReference(r.dispatched.value.trackReference)
    ensures r.dispatched == Some(ClearPin) ==> marker.Some? && r.lastAutoFocused.None?
    ensures hasDispatch ==> (r.dispatched.None? <==> r.lastAutoFocused == marker)
  {
    var screenShares := ScreenShareTracks(tracks);
    if SomeSubscribed(screenShares) && marker.None? then
      AutoFocusOutcome(Some(screenShares[0]), if hasDispatch then Some(SetPin(screenShares[0])) else None)
    else if marker.Some? && !MarkerStillShared(screenShares, marker) then
      AutoFocusOutcome(None, if hasDispatch then Some(ClearPin) else None)
    else
      AutoFocusOutcome(marker, None)
  }

  /**
   * The pin set when a screen share appears is the first screen share of the list, whether or
   * not it is the subscribed one. It is remembered even when the pin context cannot dispatch.
   */
  lemma AutoFocusPinsFirstScreenShare(tracks: seq<TrackRef>, hasDispatch: bool)
    requires SomeSubscribed(ScreenShareTracks(tracks))
    ensures var first := ScreenShareTracks(tracks)[0];
            var r := AutoFocusEffect(None, tracks, hasDispatch);
            && r.lastAutoFocused == Some(first)
            && r.dispatched == (if hasDispatch then Some(SetPin(first)) else None)
  {
  }

  /**
   * A marker whose publication no screen share has any more is forgotten, with one `clear_pin`
   * when the pin context can dispatch.
   */
  lemma AutoFocusClearsVanishedShare(marker: Option<TrackRef>, tracks: seq<TrackRef>, hasDispatch: bool)
    requires marker.Some? && !MarkerStillShared(ScreenShareTracks(tracks), marker)
    ensures AutoFocusEffect(marker, tracks, hasDispatch)
            == AutoFocusOutcome(None, if hasDispatch then Some(ClearPin) else None)
  {
  }

  /** The markers from which a run over these tracks changes nothing. */
  ghost predicate AutoFocusSettled(marker: Option<TrackRef>, tracks: seq<TrackRef>)
  {
    var screenShares := ScreenShareTracks(tracks);
    (marker.None? && !SomeSubscribed(screenShares)) || (marker.Some? && MarkerStillShared(screenShares, marker))
  }

  /** A run from a settled marker changes nothing and dispatches nothing. */
  lemma AutoFocusSettledIsQuiet(marker: Option<TrackRef>, tracks: seq<TrackRef>, hasDispatch: bool)
    requires AutoFocusSettled(marker, tracks)
    ensures AutoFocusEffect(marker, tracks, hasDispatch) == AutoFocusOutcome(marker, None)
  {
  }

  /**
   * On an unchanged track list the effect settles within two runs: the third run, from
   * whatever marker, dispatches nothing and leaves the marker as it is.
   */
  lemma AutoFocusSettles(marker: Option<TrackRef>, tracks: seq<TrackRef>, hasDispatch: bool)
    ensures var m1 := AutoFocusEffect(marker, tracks, hasDispatch).lastAutoFocused;
            var m2 := AutoFocusEffect(m1, tracks, hasDispatch).lastAutoFocused;
            AutoFocusEffect(m2, tracks, hasDispatch) == AutoFocusOutcome(m2, None)
  {
    var screenShares := ScreenShareTracks(tracks);
    var m1 := AutoFocusEffect(marker, tracks, hasDispatch).lastAutoFocused;
    var m2 := AutoFocusEffect(m1, tracks, hasDispatch).lastAutoFocused;
    if SomeSubscribed(screenShares) {
      assert screenShares[0] in screenShares && IsScreenShareReference(screenShares[0]);
      assert MarkerStillShared(screenShares, Some(screenShares[0]));
    }
    assert m1.None? || AutoFocusSettled(m1, tracks);
    assert AutoFocusSettled(m2, tracks);
    AutoFocusSettledIsQuiet(m2, tracks, hasDispatch);
  }

  /**
   * A screen share T1 that becomes subscribed with nothing auto-focused is pinned and
   * remembered; once T1 is no longer published, the pin is cleared and the marker forgotten.
   */
  lemma ScreenShareLifecycle()
    ensures var t1 := TrackRef(Defined("alice"), Defined(ScreenShare),
                               Defined(Publication("TR_1", ScreenShare, true, Some(MediaTrack("MT_1")))), Defined(MediaTrack("MT_1")));
            var camera := TrackRef(Defined("bob"), Defined(Camera), Undefined, Missing);
            && AutoFocusEffect(None, [camera, t1], true) == AutoFocusOutcome(Some(t1), Some(SetPin(t1)))
            && AutoFocusEffect(Some(t1), [camera], true) == AutoFocusOutcome(None, Some(ClearPin))
  {
    var t1 := TrackRef(Defined("alice"), Defined(ScreenShare),
                       Defined(Publication("TR_1", ScreenShare, true, Some(MediaTrack("MT_1")))), Defined(MediaTrack("MT_1")));
    var camera := TrackRef(Defined("bob"), Defined(Camera), Undefined, Missing);
    assert ScreenShareTracks([camera]) == [] by {
      assert [camera][1..] == [];
    }
    assert ScreenShareTracks([camera, t1]) == [t1] by {
      assert [camera, t1][1..] == [t1];
      assert [t1][1..] == [];
    }
    assert SomeSubscribed([t1]) by {
      assert [t1][0] == t1;
    }
  }

  // ---------------------------------------------------------------------------------------
  // The conference component
  // ---------------------------------------------------------------------------------------

  /** The conference component's own state: the widget state and the auto-focus marker. */
  class VideoConferenceComponent {
    var widgetState: WidgetState
    /** The screen share this component pinned itself, if any. */
    var lastAutoFocusedScreenShareTrack: Option<TrackRef>

    /** A conference starts with the chat panel closed, no unread messages and nothing auto-focused. */
    constructor ()
      ensures widgetState == WidgetDefaultState()
      ensures !widgetState.showChat && widgetState.unreadMessages == 0
      ensures lastAutoFocusedScreenShareTrack.None?
    {
      widgetState := WidgetState(false, 0);
      lastAutoFocusedScreenShareTrack := None;
    }

    /** The layout context reports a new widget state; the component adopts it as it is. */
    method WidgetUpdate(state: WidgetState)
      modifies this`widgetState
      ensures widgetState == state
    {
      widgetState := state;
    }

    /** One run of the auto-focus effect, triggered by a change of the screen shares or of the focused track. */
    method AutoFocusScreenShare(tracks: seq<TrackRef>, hasDispatch: bool) returns (dispatched: Option<PinAction>)
      modifies this`lastAutoFocusedScreenShareTrack
      ensures AutoFocusOutcome(lastAutoFocusedScreenShareTrack, dispatched)
              == AutoFocusEffect(old(lastAutoFocusedScreenShareTrack), tracks, hasDispatch)
    {
      dispatched := None;
      var screenShareTracks := ScreenShareTracks(tracks);
      if SomeSubscribed(screenShareTracks) && lastAutoFocusedScreenShareTrack.None? {
        if hasDispatch {
          dispatched := Some(SetPin(screenShareTracks[0]));
        }
        lastAutoFocusedScreenShareTrack := Some(screenShareTracks[0]);
      } else if lastAutoFocusedScreenShareTrack.Some? && !MarkerStillShared(screenShareTracks, lastAutoFocusedScreenShareTrack) {
        if hasDispatch {
          dispatched := Some(ClearPin);
        }
        lastAutoFocusedScreenShareTrack := None;
      }
    }
  }
}
