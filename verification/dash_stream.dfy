/** The simpler DASH stream component (`components/DashPlayer.tsx`): an error flag that
    swaps the video for a placeholder, a retry counter capped at 500, the "stream
    started" flag that makes the video visible, the quality callback, and the gating of
    the caption callback on the element's time. */
module DashStream {
  import opened Common

  /** The retry ceiling the error handler checks. */
  const MaxRetries: nat := 500

  /** Milliseconds between an error and its retry step (the one-shot timer's delay). */
  const RetryDelayMs: nat := 500

  datatype Stream = Stream(
    status: string,        // the room status prop
    error: bool,
    retryCount: nat,
    streamStarted: bool
  )

  function Initial(status: string): (s: Stream)
    ensures !s.error && s.retryCount == 0 && !s.streamStarted && s.status == status
  {
    Stream(status, false, 0, false)
  }

  /** The placeholder replaces the video exactly while the error flag is set. */
  predicate ShowsPlaceholder(s: Stream) {
    s.error
  }

  /** The video is in the page and visible only without an error and after the manifest
      has loaded. */
  predicate VideoVisible(s: Stream) {
    !s.error && s.streamStarted
  }

  /** The ERROR listener: the flag is set and a retry step is scheduled. */
  function OnError(s: Stream): (r: Stream)
    ensures r.error && ShowsPlaceholder(r) && !VideoVisible(r)
    ensures r.(error := s.error) == s
  {
    s.(error := true)
  }

  /** `retryAttachSource` as written. The timer's closure compares the count it captured
      when its player was created, `captured`, with the ceiling, and then increments the
      current count through a functional update. */
  function RetryAsWritten(s: Stream, captured: nat): (r: Stream)
    ensures captured < MaxRetries ==> r.retryCount == s.retryCount + 1
    ensures captured >= MaxRetries ==> r.retryCount == s.retryCount
    ensures r.(retryCount := s.retryCount) == s
  {
    if captured < MaxRetries then s.(retryCount := s.retryCount + 1) else s
  }

  /** Counterexample: one player created at count 499 reports two errors before the
      first retry step runs. Both steps captured 499, both pass the check, and the count
      ends at 501, past the ceiling. */
  lemma RetryAsWrittenPassesCeiling(s: Stream)
    requires s.retryCount == MaxRetries - 1
    ensures RetryAsWritten(RetryAsWritten(s, s.retryCount), s.retryCount).retryCount == MaxRetries + 1
  {
  }

  /** A retry step that checks the count it increments: one more attempt exactly while
      below the ceiling, never a reset. */
  function RetryStep(s: Stream): (r: Stream)
    ensures s.retryCount < MaxRetries ==> r.retryCount == s.retryCount + 1
    ensures s.retryCount >= MaxRetries ==> r.retryCount == s.retryCount
    ensures r.retryCount >= s.retryCount
    ensures r.(retryCount := s.retryCount) == s
  {
    if s.retryCount < MaxRetries then s.(retryCount := s.retryCount + 1) else s
  }

  /** MANIFEST_LOADED: the stream has started. */
  function OnManifestLoaded(s: Stream): (r: Stream)
    ensures r.streamStarted
    ensures !s.error ==> VideoVisible(r)
    ensures r.(streamStarted := s.streamStarted) == s
  {
    s.(streamStarted := true)
  }

  /** PLAYBACK_PLAYING clears the error flag and leaves the retry count alone. */
  function OnPlaybackPlaying(s: Stream): (r: Stream)
    ensures !r.error && !ShowsPlaceholder(r)
    ensures r.retryCount == s.retryCount
    ensures r.(error := s.error) == s
  {
    s.(error := false)
  }

  /** What the quality callback receives: the string "auto" or a rendition height. */
  datatype QualityChoice = Named(text: string) | Height(pixels: int)

  /** The quality callback: the index passed to `setQualityFor`, or `None` when it issues
      nothing. "auto" issues nothing; a height selects the first rendition of exactly that
      height; a string never equals a height under `===`, so it issues nothing either. */
  function QualityIndex(choice: QualityChoice, heights: seq<int>): (r: Option<nat>)
    ensures choice.Named? ==> r.None?
    ensures choice.Height? && choice.pixels !in heights ==> r.None?
    ensures choice.Height? && choice.pixels in heights ==>
              r.Some? && r.value < |heights| && heights[r.value] == choice.pixels &&
              forall j :: 0 <= j < r.value ==> heights[j] != choice.pixels
  {
    match choice
    case Named(_) => None
    case Height(h) =>
      var k := FindIndex(heights, h);
      if k == -1 then None else Some(k)
  }

  /** The 'timeupdate' listener: captions are shown for the element's time only on an
      ended room and only while the element is not paused. */
  function CaptionTimeOnTimeUpdate(s: Stream, paused: bool, position: real): (r: Option<real>)
    ensures r.Some? <==> s.status == "ended" && !paused
    ensures r.Some? ==> r.value == position
  {
    if s.status == "ended" && !paused then Some(position) else None
  }

  /** The 'seeked' listener: on an ended room captions follow every seek, paused or not. */
  function CaptionTimeOnSeeked(s: Stream, position: real): (r: Option<real>)
    ensures r.Some? <==> s.status == "ended"
    ensures r.Some? ==> r.value == position
  {
    if s.status == "ended" then Some(position) else None
  }

  datatype Event =
    | EngineError
    | RetryTimer
    | ManifestLoaded
    | PlaybackPlaying
    | StatusChanged(status: string)

  function Step(s: Stream, e: Event): Stream {
    match e
    case EngineError => OnError(s)
    case RetryTimer => RetryStep(s)
    case ManifestLoaded => OnManifestLoaded(s)
    case PlaybackPlaying => OnPlaybackPlaying(s)
    case StatusChanged(status) => s.(status := status)
  }

  function Run(s: Stream, events: seq<Event>): Stream
    decreases |events|
  {
    if |events| == 0 then s else Run(Step(s, events[0]), events[1..])
  }

  /** No event lowers the retry count, successful playback included, and none takes it
      past the ceiling. */
  lemma {:induction false} RetryCountMonotoneAndBounded(s: Stream, events: seq<Event>)
    requires s.retryCount <= MaxRetries
    ensures s.retryCount <= Run(s, events).retryCount <= MaxRetries
    decreases |events|
  {
    if |events| > 0 {
      RetryCountMonotoneAndBounded(Step(s, events[0]), events[1..]);
    }
  }

  /** The video stays hidden until a MANIFEST_LOADED event has happened. */
  lemma {:induction false} HiddenUntilManifestLoaded(s: Stream, events: seq<Event>)
    requires !s.streamStarted
    requires ManifestLoaded !in events
    ensures !VideoVisible(Run(s, events))
    decreases |events|
  {
    if |events| > 0 {
      assert events[0] in events;
      assert forall e :: e in events[1..] ==> e in events;
      HiddenUntilManifestLoaded(Step(s, events[0]), events[1..]);
    }
  }
}
