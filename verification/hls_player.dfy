/** The HLS player controller (`components/HLSVideoPlayer.tsx`): live-edge tracking,
    quality selection by rendition height, the engine's level-switch mapping, seeking,
    volume, and the connection alert. */
module HlsPlayer {
  import opened Common
  import opened Text
  import Audio

  /** Seconds behind the live edge beyond which the "Go Live" control replaces "LIVE". */
  const BehindThreshold: real := 20.0

  /** The quality the menu shows: a label and the engine level it stands for, -1 for
      automatic selection. */
  datatype Quality = Quality(name: string, level: int)

  const AutoQuality := Quality("auto", -1)

  /** What the media element reports. */
  datatype Element = Element(position: real, duration: real, paused: bool)

  /** Calls issued on the media element. */
  datatype Command = Play | Pause

  datatype Player = Player(
    engine: bool,            // `hlsRef.current` holds an hls.js instance
    levels: seq<nat>,        // the heights of `hls.levels`, in engine order
    engineLevel: int,        // `hls.currentLevel` as last assigned by the component
    isLive: bool,
    isPlaying: bool,
    isBuffering: bool,
    currentTime: real,
    duration: real,
    audio: Audio.Volume,
    playbackRate: real,
    quality: Quality,
    isBehindLive: bool,
    video: Element
  )

  datatype Outcome = Outcome(player: Player, commands: seq<Command>)

  /** The initial state; `isLive` starts from the room status. */
  function Initial(status: string): (p: Player)
    ensures p.isLive <==> status == "live"
    ensures p.quality == AutoQuality && !p.isBehindLive
  {
    Player(false, [], -1, status == "live", false, false, 0.0, 0.0, Audio.Initial, 1.0,
           AutoQuality, false, Element(0.0, 0.0, true))
  }

  /** The height a quality label asks for: `Number.parseInt(label.replace("p", ""))`,
      `None` for NaN. */
  function RequestedHeight(name: string): Option<int> {
    ParseInt(RemoveFirst(name, 'p'))
  }

  /** The label the menu uses for a height: `${height}p`. */
  function HeightLabel(height: nat): string {
    NatToString(height) + "p"
  }

  /** A label other than "auto" whose number is NaN or the height of no level. */
  predicate MissesAllLevels(p: Player, name: string) {
    && name != "auto"
    && (RequestedHeight(name).None? || RequestedHeight(name).value !in p.levels)
  }

  /** `handleQualityChange`. "auto" hands the choice back to the engine. Any other label
      selects the first level whose height is the label's number; when no level has that
      height, neither the engine level nor the shown quality changes. Without an engine
      nothing happens. */
  function ChangeQuality(p: Player, name: string): (r: Player)
    ensures !p.engine ==> r == p
    ensures p.engine && name == "auto" ==> r == p.(engineLevel := -1, quality := AutoQuality)
    ensures MissesAllLevels(p, name) ==> r == p
    ensures p.engine && name != "auto" && !MissesAllLevels(p, name) ==>
              var k := r.engineLevel;
                  && 0 <= k < |p.levels| && p.levels[k] == RequestedHeight(name).value
                  && (forall j :: 0 <= j < k ==> p.levels[j] != p.levels[k])
                  && r == p.(engineLevel := k, quality := Quality(name, k))
  {
    if !p.engine then p
    else if name == "auto" then p.(engineLevel := -1, quality := AutoQuality)
    else
      var requested := RequestedHeight(name);
      var k := if requested.None? then -1 else FindIndex(p.levels, requested.value);
      if k != -1 then p.(engineLevel := k, quality := Quality(name, k)) else p
  }

  /** The LEVEL_SWITCHING listener's mapping from an engine level to the shown quality:
      -1 is "auto"; a level the engine lists is labelled with its height; any other
      level reads `undefined` for the height. */
  function LevelQuality(levels: seq<nat>, level: int): (q: Quality)
    ensures q.level == level
    ensures level == -1 ==> q == AutoQuality
    ensures 0 <= level < |levels| ==> q.name == HeightLabel(levels[level])
    ensures level != -1 && !(0 <= level < |levels|) ==> q.name == "undefinedp"
  {
    if level == -1 then AutoQuality
    else if 0 <= level < |levels| then Quality(HeightLabel(levels[level]), level)
    else Quality("undefinedp", level)
  }

  /** A media element's response to a `currentTime` assignment: the new position is the
      requested time brought into [0, duration]. */
  function ElementSeek(e: Element, time: real): (r: Element)
    ensures e.duration >= 0.0 ==> 0.0 <= r.position <= e.duration
    ensures 0.0 <= time <= e.duration ==> r.position == time
    ensures time < 0.0 ==> r.position == 0.0
    ensures 0.0 <= e.duration < time ==> r.position == e.duration
    ensures r.(position := e.position) == e
  {
    e.(position := if time < 0.0 then 0.0 else if time > e.duration then e.duration else time)
  }

  /** `handleSeek`: ignored on a live stream; otherwise the handler assigns the requested
      time as is (the rewind and forward buttons pass ten seconds either side of the
      shown time), and the element keeps the position within the media. */
  function SeekTo(p: Player, time: real): (r: Player)
    ensures p.isLive ==> r == p
    ensures !p.isLive ==> r == p.(video := ElementSeek(p.video, time))
    ensures !p.isLive && p.video.duration >= 0.0 ==> 0.0 <= r.video.position <= p.video.duration
    ensures !p.isLive && 0.0 <= time <= p.video.duration ==> r.video.position == time
  {
    if p.isLive then p else p.(video := ElementSeek(p.video, time))
  }

  /** The 'timeupdate' listeners: the shown time follows the element, and on a live
      stream `checkIfBehindLive` compares the distance to the live edge with the
      threshold, strictly. */
  function TimeUpdate(p: Player): (r: Player)
    ensures r.currentTime == p.video.position
    ensures p.isLive ==> (r.isBehindLive <==> p.video.duration - p.video.position > BehindThreshold)
    ensures !p.isLive ==> r.isBehindLive == p.isBehindLive
    ensures r.(currentTime := p.currentTime, isBehindLive := p.isBehindLive) == p
  {
    var q := p.(currentTime := p.video.position);
    if p.isLive then q.(isBehindLive := p.video.duration - p.video.position > BehindThreshold) else q
  }

  /** `goToLive`: jump to the live edge, play, and drop the "behind" flag. */
  function GoToLive(p: Player): (o: Outcome)
    ensures o.player.video.position == p.video.duration
    ensures !o.player.isBehindLive
    ensures o.commands == [Play]
    ensures o.player == p.(video := p.video.(position := p.video.duration), isBehindLive := false)
  {
    Outcome(p.(video := p.video.(position := p.video.duration), isBehindLive := false), [Play])
  }

  /** `togglePlay` issues the opposite of what `isPlaying` shows; the state itself follows
      the element's 'play' and 'pause' events. */
  function TogglePlay(p: Player): (o: Outcome)
    ensures o.player == p
    ensures o.commands == [if p.isPlaying then Pause else Play]
  {
    Outcome(p, [if p.isPlaying then Pause else Play])
  }

  /** The flags that decide whether the control bar renders: the pointer is over the
      player, the settings menu is open, and the bar itself. */
  datatype Overlay = Overlay(isHovering: bool, isSettingsOpen: bool, showControls: bool)

  /** The first render: no pointer, menu closed, bar hidden. */
  const HiddenOverlay := Overlay(false, false, false)

  /** Milliseconds after which the bar hides once neither the pointer nor the menu holds
      it. */
  const HideControlsMs: nat := 2000

  /** The pointer enters the player: the bar shows. */
  function MouseEnter(o: Overlay): (r: Overlay)
    ensures r.isHovering && r.showControls && r.isSettingsOpen == o.isSettingsOpen
  {
    o.(isHovering := true, showControls := true)
  }

  /** The pointer leaves the player: the bar hides unless the menu is open. */
  function MouseLeave(o: Overlay): (r: Overlay)
    ensures !r.isHovering && r.isSettingsOpen == o.isSettingsOpen
    ensures r.showControls == (o.isSettingsOpen && o.showControls)
  {
    o.(isHovering := false, showControls := if o.isSettingsOpen then o.showControls else false)
  }

  /** The settings menu opens or closes: opening shows the bar, closing it hides the bar
      unless the pointer is over the player. */
  function MenuChanged(o: Overlay, open: bool): (r: Overlay)
    ensures r.isSettingsOpen == open && r.isHovering == o.isHovering
    ensures open ==> r.showControls
    ensures !open && !o.isHovering ==> !r.showControls
    ensures !open && o.isHovering ==> r.showControls == o.showControls
  {
    o.(isSettingsOpen := open,
       showControls := if open then true else if !o.isHovering then false else o.showControls)
  }

  /** The hide timer: it is only pending while neither the pointer nor the menu holds
      the bar (a change of either clears it), and then it hides the bar. */
  function HideTimer(o: Overlay): (r: Overlay)
    ensures !o.isHovering && !o.isSettingsOpen ==> r == o.(showControls := false)
    ensures o.isHovering || o.isSettingsOpen ==> r == o
  {
    if !o.isHovering && !o.isSettingsOpen then o.(showControls := false) else o
  }

  datatype OverlayEvent = PointerEntered | PointerLeft | MenuToggled(open: bool) | HideFired

  function OverlayStep(o: Overlay, e: OverlayEvent): Overlay {
    match e
    case PointerEntered => MouseEnter(o)
    case PointerLeft => MouseLeave(o)
    case MenuToggled(open) => MenuChanged(o, open)
    case HideFired => HideTimer(o)
  }

  function OverlayRun(o: Overlay, events: seq<OverlayEvent>): Overlay
    decreases |events|
  {
    if |events| == 0 then o else OverlayRun(OverlayStep(o, events[0]), events[1..])
  }

  /** The bar shows exactly while the pointer is over the player or the menu is open. */
  predicate OverlayConsistent(o: Overlay) {
    o.showControls <==> o.isHovering || o.isSettingsOpen
  }

  /** Every handler keeps the bar in step with the pointer and the menu. */
  lemma OverlayStepConsistent(o: Overlay, e: OverlayEvent)
    requires OverlayConsistent(o)
    ensures OverlayConsistent(OverlayStep(o, e))
    ensures e == HideFired ==> OverlayStep(o, e) == o
  {
  }

  /** From the first render, the bar shows exactly while the pointer is over the player
      or the menu is open; the hide timer never changes a reachable state. */
  lemma {:induction false} OverlayRunConsistent(o: Overlay, events: seq<OverlayEvent>)
    requires OverlayConsistent(o)
    ensures OverlayConsistent(OverlayRun(o, events))
    decreases |events|
  {
    if |events| > 0 {
      OverlayStepConsistent(o, events[0]);
      OverlayRunConsistent(OverlayStep(o, events[0]), events[1..]);
    }
  }

  /** The connection alert renders inside the control bar, and only for an explicit
      `false`; an absent value (`undefined`) renders nothing. */
  function ConnectionAlertShown(o: Overlay, isConnected: Option<bool>): (r: bool)
    ensures r ==> isConnected == Some(false)
    ensures !o.showControls ==> !r
  {
    o.showControls && isConnected == Some(false)
  }

  /** From the first render, a lost connection is reported exactly while the pointer is
      over the player or the menu is open; without the prop it is never reported. */
  lemma AlertFollowsPointer(events: seq<OverlayEvent>, isConnected: Option<bool>)
    ensures var o := OverlayRun(HiddenOverlay, events);
            ConnectionAlertShown(o, isConnected) <==>
              isConnected == Some(false) && (o.isHovering || o.isSettingsOpen)
    ensures ConnectionAlertShown(OverlayRun(HiddenOverlay, events), None) == false
  {
    OverlayRunConsistent(HiddenOverlay, events);
  }

  /** Rewinding ten seconds near the start lands at 0, and the next 'timeupdate' shows
      0; the position shown after any seek stays within the media. */
  lemma RewindStopsAtStart(p: Player, time: real)
    requires !p.isLive && p.video.duration >= 0.0
    ensures p.currentTime < 10.0 ==>
              TimeUpdate(SeekTo(p, p.currentTime - 10.0)).currentTime == 0.0
    ensures 0.0 <= TimeUpdate(SeekTo(p, time)).currentTime <= p.video.duration
  {
  }

  datatype Event =
    | EngineCreated
    | ManifestParsed(heights: seq<nat>)
    | LevelLoaded(live: bool)
    | StatusChanged(status: string)
    | LevelSwitching(level: int)
    | UserQuality(name: string)
    | UserSeek(time: real)
    | UserVolume(volume: real)
    | UserToggleMute
    | UserTogglePlay
    | UserRate(rate: real)
    | UserGoLive
    | ElementTimeUpdate
    | ElementDurationChange
    | ElementPlay
    | ElementPause
    | ElementWaiting
    | ElementCanPlay
    | ElementProgress(position: real)
    | ElementDuration(duration: real)

  function Step(p: Player, e: Event): Outcome {
    match e
    case EngineCreated => Outcome(p.(engine := true), [])
    case ManifestParsed(hs) => Outcome(p.(levels := hs), [Play])
    case LevelLoaded(live) => Outcome(p.(isLive := live), [])
    case StatusChanged(status) => Outcome(p.(isLive := status == "live"), [])
    case LevelSwitching(level) =>
      Outcome(if p.engine then p.(quality := LevelQuality(p.levels, level)) else p, [])
    case UserQuality(name) => Outcome(ChangeQuality(p, name), [])
    case UserSeek(t) => Outcome(SeekTo(p, t), [])
    case UserVolume(x) => Outcome(p.(audio := Audio.SetVolume(p.audio, x)), [])
    case UserToggleMute => Outcome(p.(audio := Audio.ToggleMute(p.audio)), [])
    case UserTogglePlay => TogglePlay(p)
    case UserRate(rate) => Outcome(p.(playbackRate := rate), [])
    case UserGoLive => GoToLive(p)
    case ElementTimeUpdate => Outcome(TimeUpdate(p), [])
    case ElementDurationChange => Outcome(p.(duration := p.video.duration), [])
    case ElementPlay => Outcome(p.(isPlaying := true, video := p.video.(paused := false)), [])
    case ElementPause => Outcome(p.(isPlaying := false, video := p.video.(paused := true)), [])
    case ElementWaiting => Outcome(p.(isBuffering := true), [])
    case ElementCanPlay => Outcome(p.(isBuffering := false), [])
    case ElementProgress(t) => Outcome(p.(video := p.video.(position := t)), [])
    case ElementDuration(d) => Outcome(p.(video := p.video.(duration := d)), [])
  }

  /** A gap of exactly the threshold still counts as being at the live edge. */
  lemma AtThresholdIsLive(p: Player)
    requires p.isLive && p.video.duration - p.video.position == BehindThreshold
    ensures !TimeUpdate(p).isBehindLive
  {
  }

  /** After "Go Live", the next sample on a live stream finds the viewer at the edge. */
  lemma GoLiveThenSampleIsLive(p: Player)
    requires p.isLive
    ensures !TimeUpdate(GoToLive(p).player).isBehindLive
    ensures TimeUpdate(GoToLive(p).player).currentTime == p.video.duration
  {
  }

  /** The label of a height reads back as that height. */
  lemma HeightLabelRoundTrip(h: nat)
    ensures RequestedHeight(HeightLabel(h)) == Some(h)
  {
    var s := NatToString(h);
    assert 'p' !in s by {
      forall i | 0 <= i < |s| ensures s[i] != 'p' {
        assert IsDecimalDigit(s[i]);
      }
    }
    var l := s + "p";
    assert FindIndex(l, 'p') == |s| by {
      forall j | 0 <= j < |s| ensures l[j] != 'p' {
        assert l[j] == s[j];
      }
    }
    assert RemoveFirst(l, 'p') == s by {
      assert l[..|s|] == s;
    }
    ParseIntOfNatToString(h);
  }

  /** A height label is never "auto": it ends in 'p'. */
  lemma HeightLabelNotAuto(h: nat)
    ensures HeightLabel(h) != "auto"
  {
    var l := HeightLabel(h);
    assert l[|l| - 1] == 'p';
    assert "auto"[3] == 'o';
  }

  /** A label whose number is the height of some level selects the first such level. */
  lemma ChangeQualityToLevel(p: Player, name: string, h: nat)
    requires p.engine && name != "auto" && RequestedHeight(name) == Some(h) && h in p.levels
    ensures ChangeQuality(p, name) == p.(engineLevel := FindIndex(p.levels, h), quality := Quality(name, FindIndex(p.levels, h)))
  {
  }

  /** Choosing the label of a height some level has selects the first such level. */
  lemma ChangeQualityToHeight(p: Player, h: nat)
    requires p.engine && h in p.levels
    ensures var r := ChangeQuality(p, HeightLabel(h));
            r == p.(engineLevel := FindIndex(p.levels, h), quality := Quality(HeightLabel(h), FindIndex(p.levels, h)))
  {
    HeightLabelRoundTrip(h);
    HeightLabelNotAuto(h);
    ChangeQualityToLevel(p, HeightLabel(h), h);
  }

  /** Round trip: choosing `${h}p` when some level has height h selects the first such
      level, and the engine's level-switch event for that level shows the very quality
      that was chosen. */
  lemma SelectThenSwitchRoundTrip(p: Player, h: nat)
    requires p.engine && h in p.levels
    ensures var r := ChangeQuality(p, HeightLabel(h));
            && r.engineLevel == FindIndex(p.levels, h)
            && LevelQuality(p.levels, r.engineLevel) == r.quality
  {
    ChangeQualityToHeight(p, h);
    var f := FindIndex(p.levels, h);
    assert p.levels[f] == h;
  }

  /** The other direction: the label an engine level-switch shows, chosen from the menu,
      selects the first level of the same height, so the shown quality survives the trip
      unchanged whenever no earlier level has that height. */
  lemma SwitchThenSelectRoundTrip(p: Player, k: int)
    requires p.engine && 0 <= k < |p.levels|
    ensures var q := LevelQuality(p.levels, k);
            var r := ChangeQuality(p, q.name);
            && r.engineLevel == FindIndex(p.levels, p.levels[k])
            && ((forall j :: 0 <= j < k ==> p.levels[j] != p.levels[k]) ==> r.quality == q)
  {
    var h := p.levels[k];
    assert h in p.levels;
    ChangeQualityToHeight(p, h);
    var f := FindIndex(p.levels, h);
    assert p.levels[f] == h;
  }

  /** A label asking for a height no level has changes neither the engine level nor
      the shown quality. */
  lemma MissingHeightIsIgnored(p: Player, h: nat)
    requires h !in p.levels
    ensures ChangeQuality(p, HeightLabel(h)) == p
  {
    HeightLabelRoundTrip(h);
    HeightLabelNotAuto(h);
  }
}
