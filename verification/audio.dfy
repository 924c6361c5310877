/** Volume and mute bookkeeping, written identically in both players: the component keeps
    `volume` and `isMuted`, and writes the element's own `volume` property. */
module Audio {

  /** `level` is the stored `volume` state, `muted` is `isMuted`, and `element` is the
      media element's `volume` property. */
  datatype Volume = Volume(level: real, muted: bool, element: real)

  /** Both players start at full volume, unmuted. */
  const Initial := Volume(1.0, false, 1.0)

  /** The level the volume slider shows: `isMuted ? 0 : volume`. */
  function Shown(v: Volume): real {
    if v.muted then 0.0 else v.level
  }

  /** The element plays at the level the slider shows, and both levels are volumes a
      media element accepts. */
  predicate Consistent(v: Volume) {
    && v.element == Shown(v)
    && 0.0 <= v.level <= 1.0
  }

  /** `handleVolumeChange`. Assigning a volume outside [0, 1] to a media element throws,
      which ends the handler before any state is set. */
  function SetVolume(v: Volume, x: real): (r: Volume)
    ensures 0.0 <= x <= 1.0 ==> r.level == x && r.element == x && (r.muted <==> x == 0.0)
    ensures !(0.0 <= x <= 1.0) ==> r == v
  {
    if 0.0 <= x <= 1.0 then Volume(x, x == 0.0, x) else v
  }

  /** `toggleMute`: muting silences the element and keeps the stored level; unmuting
      restores the stored level. */
  function ToggleMute(v: Volume): (r: Volume)
    ensures r.level == v.level
    ensures r.muted == !v.muted
    ensures v.muted ==> r.element == v.level
    ensures !v.muted ==> r.element == 0.0
  {
    if v.muted then Volume(v.level, false, v.level) else Volume(v.level, true, 0.0)
  }

  /** The arrow-up key: `handleVolumeChange(Math.min(volume + 0.1, 1))`. */
  function VolumeUp(v: Volume): (r: Volume)
    ensures Consistent(v) ==> Consistent(r) && !r.muted
    ensures Consistent(v) ==> r.level == if v.level + 0.1 < 1.0 then v.level + 0.1 else 1.0
  {
    SetVolume(v, if v.level + 0.1 < 1.0 then v.level + 0.1 else 1.0)
  }

  /** The arrow-down key: `handleVolumeChange(Math.max(volume - 0.1, 0))`; it mutes
      exactly when the stored level was at most 0.1. */
  function VolumeDown(v: Volume): (r: Volume)
    ensures Consistent(v) ==> Consistent(r)
    ensures Consistent(v) ==> (r.muted <==> v.level <= 0.1)
    ensures Consistent(v) ==> r.level == if v.level - 0.1 > 0.0 then v.level - 0.1 else 0.0
  {
    SetVolume(v, if v.level - 0.1 > 0.0 then v.level - 0.1 else 0.0)
  }

  /** Every volume change and every mute toggle keeps the element at the level the slider
      shows. */
  lemma ConsistentPreserved(v: Volume, x: real)
    requires Consistent(v)
    ensures Consistent(SetVolume(v, x))
    ensures Consistent(ToggleMute(v))
  {
  }

  /** Toggling mute twice restores the state exactly. */
  lemma ToggleMuteTwice(v: Volume)
    requires Consistent(v)
    ensures ToggleMute(ToggleMute(v)) == v
  {
  }
}
