/** The DASH player controller (`components/VideoPlayer.tsx`) as a transition system.
    The React state and the media element's observable properties form one record; each
    event handler, timer fire and engine callback is a pure transition that also returns
    the dash.js calls it issues, as `Command` values. */
module VideoPlayer {
  import opened Common
  import Audio

  /** The rendition table the quality menu offers: label and bitrate in bits per second. */
  datatype Rendition = Rendition(name: string, bitrate: nat)

  const Renditions: seq<Rendition> := [
    Rendition("720p", 3000000),
    Rendition("480p", 1500000),
    Rendition("360p", 800000)
  ]

  /** The labels of a rendition table, in its order. */
  function Names(rs: seq<Rendition>): (r: seq<string>)
    ensures |r| == |rs| && forall i :: 0 <= i < |rs| ==> r[i] == rs[i].name
  {
    if |rs| == 0 then [] else [rs[0].name] + Names(rs[1..])
  }

  /** The labels the quality menu offers. */
  const Labels: seq<string> := Names(Renditions)

  /** The overlay text shown while playback is being recovered. */
  const StartingSoon := "Your class is about to start. Please wait while we prepare the video."

  /** Seconds the stall watchdog nudges a frozen position forward by. */
  const Nudge: real := 0.1

  /** Periods, in milliseconds, of the timers that arrive here as tick events: the stall
      watchdog, the retry after an engine error, and the manifest refresh of a live
      stream. */
  const StallCheckMs: nat := 5000
  const RetryIntervalMs: nat := 5000
  const ManifestRefreshMs: nat := 30000

  /** Calls issued on the dash.js player. */
  datatype Command =
    | Seek(to: real)                 // `dashPlayer.seek`
    | SetAutoSwitch(on: bool)        // `updateSettings({streaming: {abr: {autoSwitchBitrate}}})`
    | SetQualityFor(index: int)      // `setQualityFor("video", index)`
    | AttachSource                   // `attachSource(srcUrl)`
    | Play
    | Pause
    | RefreshManifest

  /** What the media element reports. */
  datatype Element = Element(position: real, duration: real, paused: bool)

  datatype Player = Player(
    engine: bool,                 // the `player` state is set
    isLive: bool,
    isPlaying: bool,
    currentTime: real,
    duration: real,
    audio: Audio.Volume,
    playbackRate: real,
    quality: string,
    placeholder: Option<string>,  // `chunkDemuxerError`
    lastSample: real,             // `lastUpdateTimeRef`
    playingWatch: bool,           // a retry's one-shot 'playing' listener is attached
    video: Element
  )

  datatype Outcome = Outcome(player: Player, commands: seq<Command>)

  const Initial := Player(false, false, false, 0.0, 0.0, Audio.Initial, 1.0, "auto",
                          None, 0.0, false, Element(0.0, 0.0, true))

  /** `Math.max(0, Math.min(time, duration))`. */
  function ClampSeek(time: real, duration: real): (r: real)
    ensures duration >= 0.0 ==> 0.0 <= r <= duration
    ensures 0.0 <= time <= duration ==> r == time
    ensures time > duration >= 0.0 ==> r == duration
    ensures time < 0.0 ==> r == 0.0
  {
    var m := if time < duration then time else duration;
    if 0.0 < m then m else 0.0
  }

  /** `handleSeek`: on a stream that is not live, moves the element to the clamped time
      and shows it; on a live stream it does nothing. */
  function SeekTo(p: Player, time: real): (r: Player)
    ensures p.isLive ==> r == p
    ensures !p.isLive ==> r.currentTime == r.video.position == ClampSeek(time, p.duration)
    ensures !p.isLive && p.duration >= 0.0 ==> 0.0 <= r.currentTime <= p.duration
    ensures r.(currentTime := p.currentTime, video := p.video) == p
    ensures r.video.duration == p.video.duration && r.video.paused == p.video.paused
  {
    if p.isLive then p
    else
      var t := ClampSeek(time, p.duration);
      p.(currentTime := t, video := p.video.(position := t))
  }

  /** `togglePlay`: with a player, issues pause or play and flips `isPlaying`. */
  function TogglePlay(p: Player): (o: Outcome)
    ensures !p.engine ==> o == Outcome(p, [])
    ensures p.engine ==> o.player == p.(isPlaying := !p.isPlaying)
    ensures p.engine ==> o.commands == [if p.isPlaying then Pause else Play]
  {
    if !p.engine then Outcome(p, [])
    else Outcome(p.(isPlaying := !p.isPlaying), [if p.isPlaying then Pause else Play])
  }

  /** `handleQualityChange`. "auto" re-enables automatic switching; a label of the
      rendition table disables it and selects the engine rendition with the label's
      bitrate (index -1 when the engine lists none); any other label issues nothing. In
      every case with a player the label is recorded, matched or not. `engineBitrates`
      is the engine's answer to `getBitrateInfoListFor("video")` at that moment. */
  function ChangeQuality(p: Player, name: string, engineBitrates: seq<nat>): (o: Outcome)
    ensures !p.engine ==> o == Outcome(p, [])
    ensures p.engine ==> o.player == p.(quality := name)
    ensures p.engine && name == "auto" ==> o.commands == [SetAutoSwitch(true)]
    ensures p.engine ==>
              forall k :: 0 <= k < |Renditions| && Renditions[k].name == name ==>
                o.commands == [SetAutoSwitch(false),
                               SetQualityFor(FindIndex(engineBitrates, Renditions[k].bitrate))]
    ensures p.engine && name != "auto" && name !in Labels ==> o.commands == []
  {
    if !p.engine then Outcome(p, [])
    else if name == "auto" then Outcome(p.(quality := name), [SetAutoSwitch(true)])
    else
      var k := FindIndex(Labels, name);
      if k == -1 then Outcome(p.(quality := name), [])
      else
        Outcome(p.(quality := name),
                [SetAutoSwitch(false), SetQualityFor(FindIndex(engineBitrates, Renditions[k].bitrate))])
  }

  /** The body of the five-second stall watchdog: while the element is not paused, nudge
      the engine forward when the position equals the last recorded sample, then record
      the position. A paused element is left alone. */
  function StallTick(p: Player): (o: Outcome)
    ensures p.video.paused ==> o == Outcome(p, [])
    ensures !p.video.paused ==> o.player == p.(lastSample := p.video.position)
    ensures !p.video.paused && p.video.position == p.lastSample ==>
              o.commands == [Seek(p.video.position + Nudge)]
    ensures !p.video.paused && p.video.position != p.lastSample ==> o.commands == []
  {
    if p.video.paused then Outcome(p, [])
    else
      var t := p.video.position;
      Outcome(p.(lastSample := t), if t == p.lastSample then [Seek(t + Nudge)] else [])
  }

  /** The element's 'timeupdate' listener: it shows the position and also records it as
      the watchdog's sample. */
  function TimeUpdate(p: Player): (r: Player)
    ensures r.currentTime == r.lastSample == p.video.position
    ensures r.(currentTime := p.currentTime, lastSample := p.lastSample) == p
  {
    p.(currentTime := p.video.position, lastSample := p.video.position)
  }

  /** `retryPlaybackRef.current()`: with a player, reattach the source, play, and attach
      a one-shot 'playing' listener; without one, nothing. */
  function Retry(p: Player): (o: Outcome)
    ensures !p.engine ==> o == Outcome(p, [])
    ensures p.engine ==> o.player == p.(playingWatch := true) && o.commands == [AttachSource, Play]
  {
    if p.engine then Outcome(p.(playingWatch := true), [AttachSource, Play]) else Outcome(p, [])
  }

  /** `handleError`: any dash.js error shows the placeholder and retries at once. */
  function EngineError(p: Player): (o: Outcome)
    ensures o.player.placeholder == Some(StartingSoon)
    ensures p.engine ==> o.player.playingWatch && o.commands == [AttachSource, Play]
    ensures !p.engine ==> o.commands == []
  {
    Retry(p.(placeholder := Some(StartingSoon)))
  }

  /** The five-second retry interval, which runs exactly while the placeholder is set. */
  function RetryTick(p: Player): (o: Outcome)
    ensures p.placeholder.None? ==> o == Outcome(p, [])
    ensures p.placeholder.Some? ==> o == Retry(p)
  {
    if p.placeholder.Some? then Retry(p) else Outcome(p, [])
  }

  /** The element's 'playing' event: a listener attached by a retry clears the
      placeholder and detaches itself; without one the event changes nothing. */
  function Playing(p: Player): (r: Player)
    ensures p.playingWatch ==> r == p.(placeholder := None, playingWatch := false)
    ensures !p.playingWatch ==> r == p
  {
    if p.playingWatch then p.(placeholder := None, playingWatch := false) else p
  }

  /** STREAM_INITIALIZED (both listeners together): a dynamic stream is live and is
      played at once; otherwise the element's duration is adopted. */
  function StreamInitialized(p: Player, isDynamic: bool): (o: Outcome)
    ensures o.player.isLive == isDynamic
    ensures isDynamic ==> o.player == p.(isLive := true, isPlaying := true) && o.commands == [Play]
    ensures !isDynamic ==> o.player == p.(isLive := false, duration := p.video.duration) && o.commands == []
  {
    if isDynamic then Outcome(p.(isLive := true, isPlaying := true), [Play])
    else Outcome(p.(isLive := false, duration := p.video.duration), [])
  }

  /** The thirty-second manifest refresh, issued only while the element plays. */
  function ManifestTick(p: Player): (o: Outcome)
    ensures o.player == p
    ensures o.commands == if p.engine && !p.video.paused then [RefreshManifest] else []
  {
    Outcome(p, if p.engine && !p.video.paused then [RefreshManifest] else [])
  }

  /** The video element is hidden, and the overlay shows the message, exactly while a
      placeholder message is set. */
  predicate VideoHidden(p: Player) {
    p.placeholder.Some?
  }

  /** The keyboard shortcuts, for a key name already lower-cased: space and "k" toggle
      play, "m" toggles mute, the left and right arrows seek five seconds, the up and
      down arrows step the volume by 0.1 within [0, 1]; other keys do nothing. */
  function KeyDown(p: Player, key: string): (o: Outcome)
    ensures key == " " || key == "k" ==> o == TogglePlay(p)
    ensures key == "m" ==> o == Outcome(p.(audio := Audio.ToggleMute(p.audio)), [])
    ensures key == "m" ==> o.player.audio.muted == !p.audio.muted && o.commands == []
    ensures key == "arrowleft" ==> o == Outcome(SeekTo(p, p.currentTime - 5.0), [])
    ensures key == "arrowright" ==> o == Outcome(SeekTo(p, p.currentTime + 5.0), [])
    ensures key == "arrowleft" || key == "arrowright" ==>
              o.commands == [] && (p.isLive ==> o.player == p) &&
              (!p.isLive && p.duration >= 0.0 ==> 0.0 <= o.player.currentTime <= p.duration)
    ensures key == "arrowup" ==> o == Outcome(p.(audio := Audio.VolumeUp(p.audio)), [])
    ensures key == "arrowdown" ==> o == Outcome(p.(audio := Audio.VolumeDown(p.audio)), [])
    ensures key == "arrowup" && Audio.Consistent(p.audio) ==>
              Audio.Consistent(o.player.audio) && !o.player.audio.muted
    ensures key == "arrowdown" && Audio.Consistent(p.audio) ==>
              Audio.Consistent(o.player.audio) && (o.player.audio.muted <==> p.audio.level <= 0.1)
    ensures key !in {" ", "k", "m", "arrowleft", "arrowright", "arrowup", "arrowdown"} ==>
              o == Outcome(p, [])
  {
    if key == " " || key == "k" then TogglePlay(p)
    else if key == "m" then Outcome(p.(audio := Audio.ToggleMute(p.audio)), [])
    else if key == "arrowleft" then Outcome(SeekTo(p, p.currentTime - 5.0), [])
    else if key == "arrowright" then Outcome(SeekTo(p, p.currentTime + 5.0), [])
    else if key == "arrowup" then Outcome(p.(audio := Audio.VolumeUp(p.audio)), [])
    else if key == "arrowdown" then Outcome(p.(audio := Audio.VolumeDown(p.audio)), [])
    else Outcome(p, [])
  }

  /** Pressing "m" twice through the keyboard restores the audio exactly, as the mute
      button does. */
  lemma MuteKeyTwiceRestores(p: Player)
    requires Audio.Consistent(p.audio)
    ensures KeyDown(KeyDown(p, "m").player, "m").player == p
    ensures KeyDown(p, "m").player.audio.muted == !p.audio.muted
  {
    Audio.ToggleMuteTwice(p.audio);
  }

  /** The "m" shortcut as the source installs it. The keydown listener is re-created only
      when `currentTime` or `volume` change, so its `toggleMute` reads `isMuted` from the
      render that last changed one of those: `capturedMuted`, not the current flag. */
  function MuteKeyAsWritten(p: Player, capturedMuted: bool): (r: Player)
    ensures r.audio.muted == !capturedMuted
    ensures r.audio.level == p.audio.level
    ensures r.(audio := p.audio) == p
  {
    p.(audio := if capturedMuted then Audio.Volume(p.audio.level, false, p.audio.level)
                else Audio.Volume(p.audio.level, true, 0.0))
  }

  /** Counterexample: with the video paused, nothing changes `currentTime` or `volume`
      between two presses of "m", so both presses run the listener installed while the
      player was unmuted, and the second press mutes again instead of unmuting. */
  lemma MuteKeyTwiceStaysMuted(p: Player)
    requires Audio.Consistent(p.audio) && !p.audio.muted
    ensures var once := MuteKeyAsWritten(p, p.audio.muted);
            && once.currentTime == p.currentTime && once.audio.level == p.audio.level
            && once.audio.muted
            && MuteKeyAsWritten(once, p.audio.muted).audio.muted
            && MuteKeyAsWritten(once, p.audio.muted) != p
  {
  }

  /** Everything that can happen to the player. */
  datatype Event =
    | EngineCreated                  // `setPlayer(dashPlayer)`
    | UserSeek(time: real)
    | UserVolume(level: real)
    | UserToggleMute
    | UserTogglePlay
    | UserKey(key: string)
    | UserQuality(name: string, engineBitrates: seq<nat>)
    | UserRate(rate: real)
    | UserReload
    | StallTimer
    | RetryTimer
    | ManifestTimer
    | EngineErrorEvent
    | StreamInit(isDynamic: bool)
    | ElementPlaying
    | ElementPlay
    | ElementPause
    | ElementTimeUpdate
    | ElementProgress(position: real)   // the element's clock moves; no handler runs
    | ElementDuration(duration: real)   // the element learns its duration; no handler runs

  function Step(p: Player, e: Event): Outcome {
    match e
    case EngineCreated => Outcome(p.(engine := true), [])
    case UserSeek(t) => Outcome(SeekTo(p, t), [])
    case UserVolume(x) => Outcome(p.(audio := Audio.SetVolume(p.audio, x)), [])
    case UserToggleMute => Outcome(p.(audio := Audio.ToggleMute(p.audio)), [])
    case UserTogglePlay => TogglePlay(p)
    case UserKey(k) => KeyDown(p, k)
    case UserQuality(name, bitrates) => ChangeQuality(p, name, bitrates)
    case UserRate(rate) => Outcome(p.(playbackRate := rate), [])
    case UserReload => Retry(p)
    case StallTimer => if p.engine then StallTick(p) else Outcome(p, [])
    case RetryTimer => RetryTick(p)
    case ManifestTimer => ManifestTick(p)
    case EngineErrorEvent => EngineError(p)
    case StreamInit(d) => StreamInitialized(p, d)
    case ElementPlaying => Outcome(Playing(p), [])
    case ElementPlay => Outcome(p.(isPlaying := true, video := p.video.(paused := false)), [])
    case ElementPause => Outcome(p.(isPlaying := false, video := p.video.(paused := true)), [])
    case ElementTimeUpdate => Outcome(TimeUpdate(p), [])
    case ElementProgress(t) => Outcome(p.(video := p.video.(position := t)), [])
    case ElementDuration(d) => Outcome(p.(video := p.video.(duration := d)), [])
  }

  /** Runs events in order, collecting the commands they issue. */
  function Run(p: Player, events: seq<Event>): Outcome
    decreases |events|
  {
    if |events| == 0 then Outcome(p, [])
    else
      var first := Step(p, events[0]);
      var rest := Run(first.player, events[1..]);
      Outcome(rest.player, first.commands + rest.commands)
  }

  /** Every event keeps the element's volume equal to what the slider shows. */
  lemma {:induction false} AudioStaysConsistent(p: Player, events: seq<Event>)
    requires Audio.Consistent(p.audio)
    ensures Audio.Consistent(Run(p, events).player.audio)
    decreases |events|
  {
    if |events| > 0 {
      StepKeepsAudio(p, events[0]);
      AudioStaysConsistent(Step(p, events[0]).player, events[1..]);
    }
  }

  /** One event keeps the element's volume equal to what the slider shows. */
  lemma StepKeepsAudio(p: Player, e: Event)
    requires Audio.Consistent(p.audio)
    ensures Audio.Consistent(Step(p, e).player.audio)
  {
    match e {
      case UserVolume(x) => Audio.ConsistentPreserved(p.audio, x);
      case UserToggleMute => Audio.ConsistentPreserved(p.audio, 0.0);
      case UserKey(k) => Audio.ConsistentPreserved(p.audio, 0.0);
      case _ =>
    }
  }

  /** The stall watchdog is created together with the dash.js player, so before the
      player exists a tick does nothing. */
  lemma NoStallNudgeWithoutEngine(p: Player)
    requires !p.engine
    ensures Step(p, StallTimer) == Outcome(p, [])
  {
  }

  /** Two stall ticks with no movement in between: the second one nudges. */
  lemma StalledTwiceNudges(p: Player)
    requires !p.video.paused
    ensures StallTick(StallTick(p).player).commands == [Seek(p.video.position + Nudge)]
  {
  }

  /** The watchdog's sample is also written by 'timeupdate', so a tick right after a
      'timeupdate' nudges even though only one tick has passed. */
  lemma TimeUpdateThenTickNudges(p: Player)
    requires !p.video.paused
    ensures StallTick(TimeUpdate(p)).commands == [Seek(p.video.position + Nudge)]
  {
  }

  /** Repeated `events` n times. */
  function Repeat<T>(s: seq<T>, n: nat): (r: seq<T>)
    ensures |r| == n * |s|
  {
    if n == 0 then [] else s + Repeat(s, n - 1)
  }

  /** The recovery loop has no bound: after an error, any number of retry ticks without
      a 'playing' event keep the placeholder and reattach the source every time. */
  lemma {:induction false} RetriesNeverStop(p: Player, n: nat)
    requires p.engine && p.placeholder.Some?
    ensures Run(p, Repeat([RetryTimer], n)).player.placeholder == p.placeholder
    ensures Run(p, Repeat([RetryTimer], n)).commands == Repeat([AttachSource, Play], n)
    decreases n
  {
    if n > 0 {
      var events := Repeat([RetryTimer], n);
      assert events[0] == RetryTimer;
      assert events[1..] == Repeat([RetryTimer], n - 1);
      RetriesNeverStop(p.(playingWatch := true), n - 1);
    }
  }

  /** The recovery scenario: an error shows the placeholder, the retries keep it, and
      the 'playing' event after a retry clears it again. */
  lemma {:induction false} ErrorRetryPlayingRecovers(p: Player, n: nat)
    requires p.engine
    ensures var after := Run(EngineError(p).player, Repeat([RetryTimer], n)).player;
            && VideoHidden(after)
            && after.playingWatch
            && !VideoHidden(Playing(after))
  {
    var q := EngineError(p).player;
    RetriesNeverStop(q, n);
    WatchSurvivesRetries(q, n);
  }

  lemma {:induction false} WatchSurvivesRetries(p: Player, n: nat)
    requires p.engine && p.placeholder.Some? && p.playingWatch
    ensures Run(p, Repeat([RetryTimer], n)).player.playingWatch
    decreases n
  {
    if n > 0 {
      var events := Repeat([RetryTimer], n);
      assert events[0] == RetryTimer;
      assert events[1..] == Repeat([RetryTimer], n - 1);
      WatchSurvivesRetries(p, n - 1);
    }
  }
}
