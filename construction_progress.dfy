/** The construction-progress section: hidden while there is no video entry or
    when the editors switched it off; otherwise a looping, muted video whose
    play overlay shows while `isPlaying` is false. A click toggles the video;
    the video's own `pause`, `play` and `ended` events update `isPlaying`, but
    only through listeners that the mount effect attached. */
module ConstructionProgress {
  import opened Wrappers
  import opened JsStrings
  import opened ContentTypes

  const FallbackVideo: string := "/video/mobile_vid.mp4"

  /** The section renders for a present entry unless `isVisible` is exactly `false`. */
  function ShouldRender(video: Option<ConstructionVideo>): (b: bool)
    ensures b <==> video.Some? && video.value.isVisible != Some(false)
    ensures video.Some? && video.value.isVisible.None? ==> b
  {
    if video.None? then false
    else match video.value.isVisible
      case Some(visible) => visible
      case None => true
  }

  /** The entry has a video asset with resolved fields and a file. */
  predicate HasVideoFile(video: Option<ConstructionVideo>) {
    video.Some? && video.value.video.Some? && video.value.video.value.fields.Some?
    && video.value.video.value.fields.value.file.Some?
  }

  /** `getVideoUrl`: the CMS video when there is a file, else the bundled clip. */
  function VideoUrl(video: Option<ConstructionVideo>): (url: string)
    ensures HasVideoFile(video) ==>
      url == "https:" + Interpolate(video.value.video.value.fields.value.file.value.url)
    ensures !HasVideoFile(video) ==> url == FallbackVideo
    ensures url != FallbackVideo <==> StartsWith(url, "https:")
  {
    if HasVideoFile(video) then
      var u := "https:" + Interpolate(video.value.video.value.fields.value.file.value.url);
      assert u[..6] == "https:" && u[0] != FallbackVideo[0];
      u
    else
      assert FallbackVideo[0] == '/';
      FallbackVideo
  }

  /** The mounted component: whether the video element exists, whether the state listeners
      are attached to it, the element's own `paused` flag, and the `isPlaying` state cell. */
  class VideoSection {
    var rendered: bool
    var listening: bool
    var paused: bool
    var isPlaying: bool

    /** Listeners only ever sit on the element that is on screen. */
    ghost predicate Valid()
      reads this
    {
      listening ==> rendered
    }

    /** The overlay tells the truth: it shows exactly when the video is paused. */
    ghost predicate Synced()
      reads this
    {
      rendered ==> (isPlaying <==> !paused)
    }

    /** The play overlay is drawn while the section is on screen and `isPlaying` is false. */
    function ShowsPlayOverlay(): (shown: bool)
      reads this
      ensures shown <==> rendered && !isPlaying
    {
      rendered && !isPlaying
    }

    /** The first render with `video` from the content snapshot, followed by the mount effects:
        the listener effect finds an element only if the section rendered. */
    constructor Mount(video: Option<ConstructionVideo>)
      ensures rendered == ShouldRender(video) && listening == rendered
      ensures paused && !isPlaying
      ensures Valid() && Synced()
    {
      rendered := ShouldRender(video);
      listening := rendered;
      paused := true;
      isPlaying := false;
    }

    /** A later render with a new snapshot, as the component is written: the listener effect
        has an empty dependency list and does not run again, so a freshly created element
        gets no listeners, and a removed element takes its listeners with it. */
    method Rerender(video: Option<ConstructionVideo>)
      requires Valid()
      modifies this
      ensures rendered == ShouldRender(video)
      ensures listening == (old(listening) && rendered)
      ensures rendered && !old(rendered) ==> paused && !listening
      ensures old(rendered) && rendered ==> paused == old(paused)
      ensures isPlaying == old(isPlaying)
      ensures Valid()
    {
      var next := ShouldRender(video);
      if next && !rendered {
        paused := true;
      }
      listening := listening && next;
      rendered := next;
    }

    /** A later render where the listener effect runs again whenever the element changes:
        the element on screen always has the listeners. */
    method RerenderWithListeners(video: Option<ConstructionVideo>)
      requires Valid() && Synced()
      requires rendered ==> listening
      modifies this
      ensures rendered == ShouldRender(video)
      ensures listening == rendered
      ensures rendered && !old(rendered) ==> paused && !isPlaying
      ensures Valid() && Synced()
    {
      var next := ShouldRender(video);
      if next && !rendered {
        paused := true;
        isPlaying := false;
      }
      rendered := next;
      listening := next;
    }

    /** `handlePlayVideo`: a paused video is played and `isPlaying` set; a playing one is paused
        and `isPlaying` cleared; without an element nothing happens. */
    method HandlePlayVideo()
      requires Valid()
      modifies this
      ensures rendered == old(rendered) && listening == old(listening)
      ensures old(rendered) ==> paused == !old(paused) && isPlaying == !paused
      ensures !old(rendered) ==> paused == old(paused) && isPlaying == old(isPlaying)
      ensures Valid() && Synced()
      ensures old(Synced()) ==> Synced()
    {
      if rendered {
        if paused {
          paused := false;
          isPlaying := true;
        } else {
          paused := true;
          isPlaying := false;
        }
      }
    }

    /** The element pauses (or ends) without a click, for instance from the browser's own
        controls: `isPlaying` follows only if the listeners are attached. */
    method ElementPauses()
      requires Valid() && rendered
      modifies this
      ensures paused && rendered && listening == old(listening)
      ensures listening ==> !isPlaying
      ensures !listening ==> isPlaying == old(isPlaying)
      ensures Valid()
      ensures listening ==> Synced()
    {
      paused := true;
      if listening {
        isPlaying := false;
      }
    }

    /** The element starts playing without a click. */
    method ElementPlays()
      requires Valid() && rendered
      modifies this
      ensures !paused && rendered && listening == old(listening)
      ensures listening ==> isPlaying
      ensures !listening ==> isPlaying == old(isPlaying)
      ensures Valid()
      ensures listening ==> Synced()
    {
      paused := false;
      if listening {
        isPlaying := true;
      }
    }
  }

  /** An entry the editors left visible, with no asset: it renders the bundled clip. */
  function LoadedEntry(): (v: Option<ConstructionVideo>)
    ensures ShouldRender(v)
  {
    Some(ConstructionVideo("Avances de obra", None, None, None, None))
  }

  /** As written: mounted while the content is still loading, the section gets its video only
      on a later render, without listeners; after a click plays it and the element then pauses
      on its own, the video is paused but the play overlay stays hidden. */
  method LateVideoPauseIsMissed() returns (paused: bool, overlayShown: bool)
    ensures paused && !overlayShown
  {
    var section := new VideoSection.Mount(None);
    section.Rerender(LoadedEntry());
    section.HandlePlayVideo();
    section.ElementPauses();
    paused := section.paused;
    overlayShown := section.ShowsPlayOverlay();
  }

  /** Corrected: the same sequence with the listener effect re-run for the new element shows
      the overlay again once the element pauses. */
  method LateVideoPauseIsShown() returns (paused: bool, overlayShown: bool)
    ensures paused && overlayShown
  {
    var section := new VideoSection.Mount(None);
    section.RerenderWithListeners(LoadedEntry());
    section.HandlePlayVideo();
    section.ElementPauses();
    paused := section.paused;
    overlayShown := section.ShowsPlayOverlay();
  }
}
