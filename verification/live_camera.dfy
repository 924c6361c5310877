/** The teacher's camera (`components/LiveCamera.tsx`): a record button that starts a
    recorder on the camera stream, asks for confirmation before stopping it, and tells
    the server when a recording ends; and the microphone mute of the preview. The
    camera, the recorder and the socket are not modelled; what the handlers ask of them
    is a list of commands. */
module LiveCamera {
  import opened Common

  /** The recorder's timeslice in milliseconds and the bit rates it is created with. */
  const TimesliceMs: nat := 1000
  const AudioBitsPerSecond: nat := 128000
  const VideoBitsPerSecond: nat := 2000000

  datatype Command =
    | JoinRoom             // `socket.emit("joinRoom", roomId)`
    | CreateRecorder       // a new recorder on the stream, with the bit rates
    | StartRecorder        // the new recorder started with the timeslice
    | StopTracks           // every track of the stream is stopped
    | StopRecorder
    | EmitStopRecording    // `socket.emit("stopRecording", ...)`

  /** `audioTrack` is the enabled flag of the stream's first audio track, absent while
      there is no stream or no such track. `hasRecorder` says the recorder ref is set;
      `tracksStopped` says the stream's tracks were stopped. */
  datatype Camera = Camera(
    socket: bool,
    hasMedia: bool,
    audioTrack: Option<bool>,
    tracksStopped: bool,
    recording: bool,
    hasRecorder: bool,
    showModal: bool,
    isMuted: bool
  )

  datatype Outcome = Outcome(camera: Camera, commands: seq<Command>)

  /** The three phases the record button moves through. */
  datatype Phase = Idle | Recording | ConfirmingStop

  function PhaseOf(c: Camera): Phase {
    if c.showModal then ConfirmingStop else if c.recording then Recording else Idle
  }

  /** The first render: muted, no stream yet, not recording. */
  const Initial := Camera(false, false, None, false, false, false, false, true)

  /** The invariant the handlers keep: a recording has its recorder ref, the
      confirmation only opens over a recording, and the audio track is enabled exactly
      when the preview is not muted. The ref can outlive a recording: see
      `PressRecord` on a stopped stream. */
  predicate Valid(c: Camera) {
    && (c.recording ==> c.hasRecorder)
    && (c.showModal ==> c.recording)
    && (c.audioTrack.Some? ==> c.isMuted == !c.audioTrack.value)
  }

  /** `handleStartRecording`: join the room when a socket exists; then, with a stream,
      start recording if not recording and ask for confirmation if recording. Without a
      stream nothing else happens. A confirmed stop leaves the stopped stream in the
      video element; a recorder created on it refuses to start (its stream is inactive),
      so the ref is set but the flag stays false. */
  function PressRecord(c: Camera): (o: Outcome)
    ensures !c.hasMedia ==> o.camera == c
    ensures c.hasMedia && !c.recording && !c.tracksStopped ==>
              o.camera == c.(recording := true, hasRecorder := true)
    ensures c.hasMedia && !c.recording && c.tracksStopped ==> o.camera == c.(hasRecorder := true)
    ensures c.hasMedia && c.recording ==> o.camera == c.(showModal := true)
    ensures o.commands == (if c.socket then [JoinRoom] else []) +
                              (if c.hasMedia && !c.recording then [CreateRecorder] else []) +
                              (if c.hasMedia && !c.recording && !c.tracksStopped then [StartRecorder] else [])
  {
    var join := if c.socket then [JoinRoom] else [];
    if !c.hasMedia then Outcome(c, join)
    else if c.recording then Outcome(c.(showModal := true), join)
    else if c.tracksStopped then Outcome(c.(hasRecorder := true), join + [CreateRecorder])
    else Outcome(c.(recording := true, hasRecorder := true), join + [CreateRecorder, StartRecorder])
  }

  /** `confirmStopRecording`. With a recorder: stop the tracks and the recorder, tell the
      server, drop the recorder and the flag, and close the confirmation. Before the
      socket exists the emit throws after the tracks and recorder were stopped, so the
      recorder ref, the flag and the confirmation stay. Without a recorder it only closes
      the confirmation. */
  function ConfirmStop(c: Camera): (o: Outcome)
    ensures !c.hasRecorder ==> o == Outcome(c.(showModal := false), [])
    ensures c.hasRecorder && c.socket ==>
              o == Outcome(c.(tracksStopped := true, recording := false, hasRecorder := false, showModal := false),
                           [StopTracks, StopRecorder, EmitStopRecording])
    ensures c.hasRecorder && !c.socket ==>
              o == Outcome(c.(tracksStopped := true), [StopTracks, StopRecorder])
  {
    if !c.hasRecorder then Outcome(c.(showModal := false), [])
    else if !c.socket then Outcome(c.(tracksStopped := true), [StopTracks, StopRecorder])
    else Outcome(c.(tracksStopped := true, recording := false, hasRecorder := false, showModal := false),
                 [StopTracks, StopRecorder, EmitStopRecording])
  }

  /** `cancelStopRecording`: only the confirmation closes. */
  function CancelStop(c: Camera): (r: Camera)
    ensures r == c.(showModal := false)
  {
    c.(showModal := false)
  }

  /** `toggleMute`: with a stream that has an audio track, the track flips and the mute
      flag becomes its negation; otherwise nothing happens. */
  function ToggleMute(c: Camera): (r: Camera)
    ensures c.hasMedia && c.audioTrack.Some? ==>
              r == c.(audioTrack := Some(!c.audioTrack.value), isMuted := c.audioTrack.value)
    ensures !(c.hasMedia && c.audioTrack.Some?) ==> r == c
  {
    if c.hasMedia && c.audioTrack.Some? then
      c.(audioTrack := Some(!c.audioTrack.value), isMuted := c.audioTrack.value)
    else c
  }

  /** The effect that (re)acquires the camera whenever the mute flag changes: the new
      stream replaces the old one, and its first audio track, if any, is enabled exactly
      when not muted. A refused request changes nothing. */
  function MediaAcquired(c: Camera, hasAudio: bool): (r: Camera)
    ensures r.hasMedia && !r.tracksStopped
    ensures hasAudio ==> r.audioTrack == Some(!c.isMuted)
    ensures !hasAudio ==> r.audioTrack.None?
    ensures r.(hasMedia := c.hasMedia, audioTrack := c.audioTrack, tracksStopped := c.tracksStopped) == c
  {
    c.(hasMedia := true, audioTrack := if hasAudio then Some(!c.isMuted) else None, tracksStopped := false)
  }

  datatype Event =
    | RecordClicked
    | ConfirmClicked
    | CancelClicked
    | MuteToggled
    | StreamReady(hasAudio: bool)
    | SocketReady

  function Step(c: Camera, e: Event): Outcome {
    match e
    case RecordClicked => PressRecord(c)
    case ConfirmClicked => ConfirmStop(c)
    case CancelClicked => Outcome(CancelStop(c), [])
    case MuteToggled => Outcome(ToggleMute(c), [])
    case StreamReady(hasAudio) => Outcome(MediaAcquired(c, hasAudio), [])
    case SocketReady => Outcome(c.(socket := true), [])
  }

  function Run(c: Camera, events: seq<Event>): Camera
    decreases |events|
  {
    if |events| == 0 then c else Run(Step(c, events[0]).camera, events[1..])
  }

  /** Every handler keeps the invariant. */
  lemma StepKeepsValid(c: Camera, e: Event)
    requires Valid(c)
    ensures Valid(Step(c, e).camera)
  {
  }

  /** The invariant holds in every reachable state. */
  lemma {:induction false} RunKeepsValid(c: Camera, events: seq<Event>)
    requires Valid(c)
    ensures Valid(Run(c, events))
    decreases |events|
  {
    if |events| > 0 {
      StepKeepsValid(c, events[0]);
      RunKeepsValid(Step(c, events[0]).camera, events[1..]);
    }
  }

  /** Every state reachable from the first render satisfies the invariant. */
  lemma ReachableValid(events: seq<Event>)
    ensures Valid(Run(Initial, events))
  {
    RunKeepsValid(Initial, events);
  }

  /** The record button cycle: from Idle with a stream, a press records; a second press
      asks for confirmation without stopping; cancelling returns to Recording; confirming
      with a socket returns to Idle and tells the server. */
  lemma RecordCycle(c: Camera)
    requires Valid(c) && c.hasMedia && !c.tracksStopped && c.socket && PhaseOf(c) == Idle
    ensures var started := PressRecord(c).camera;
            var asked := PressRecord(started).camera;
            && PhaseOf(started) == Recording
            && PhaseOf(asked) == ConfirmingStop && asked.recording
            && PhaseOf(CancelStop(asked)) == Recording
            && PhaseOf(ConfirmStop(asked).camera) == Idle
            && EmitStopRecording in ConfirmStop(asked).commands
  {
  }

  /** After a confirmed stop the tracks stay stopped, since the stream is only acquired
      again when the mute flag changes. The next press creates a recorder that does not
      start: the phase stays Idle and nothing is recorded, and a further press does the
      same again. */
  lemma RecordAfterStopIsRefused(c: Camera)
    requires Valid(c) && c.hasMedia && !c.tracksStopped && c.socket && PhaseOf(c) == Idle
    ensures var stopped := ConfirmStop(PressRecord(PressRecord(c).camera).camera).camera;
            var again := PressRecord(stopped);
            && PhaseOf(stopped) == Idle && stopped.tracksStopped
            && PhaseOf(again.camera) == Idle && again.camera.hasRecorder
            && StartRecorder !in again.commands
            && PressRecord(again.camera) == again
  {
  }

  /** On a stopped stream, any number of presses never records. */
  lemma {:induction false} PressesOnStoppedStream(c: Camera, n: nat)
    requires c.tracksStopped && !c.recording && !c.showModal
    ensures var r := Run(c, seq(n, _ => RecordClicked));
            !r.recording && PhaseOf(r) == Idle && r.tracksStopped
    decreases n
  {
    if n > 0 {
      var presses := seq(n, _ => RecordClicked);
      assert presses[0] == RecordClicked;
      assert presses[1..] == seq(n - 1, _ => RecordClicked);
      PressesOnStoppedStream(PressRecord(c).camera, n - 1);
    }
  }

  /** Toggling the mute twice restores the stream and the flag. */
  lemma ToggleMuteTwice(c: Camera)
    requires Valid(c)
    ensures ToggleMute(ToggleMute(c)) == c
  {
  }
}
