/**
  The audio player's playback state machine. The component keeps five
  pieces of display state and mirrors user intents onto a platform audio
  element, which may be absent (the element reference is null); the element
  in turn reports its progress through events, three of which the component
  listens to. Every handler is one atomic transition of a `Player`.
 */
module Playback {

  import opened Wrappers
  import opened TimeFormat

  /** The speeds the rate menu offers. */
  const RateMenu: set<real> := {0.5, 1.0, 1.5, 2.0}

  /** The component's own state, as rendered by the controls. */
  datatype PlaybackState = PlaybackState(
    isPlaying: bool,
    currentTime: Seconds,
    duration: Seconds,
    volume: real,
    playbackRate: real)

  /** The platform audio element: its paused flag, position, length, gain and speed. */
  datatype AudioElement = AudioElement(
    paused: bool,
    currentTime: Seconds,
    duration: Seconds,
    volume: real,
    playbackRate: real)

  /** The component together with the element its reference points at, if any. */
  datatype Player = Player(ui: PlaybackState, audio: Option<AudioElement>)

  /** What the element reports; each carries what the platform changed before reporting it. */
  datatype MediaEvent =
    | LoadedData(duration: Seconds, currentTime: Seconds)
    | TimeUpdate(currentTime: Seconds)
    | DurationChange(duration: Seconds)
    | Ended

  /** What the controls ask for. */
  datatype Intent =
    | PressPlay
    | DragSeek(time: Seconds)
    | DragVolume(volume: real)
    | PickRate(rate: real)

  datatype Input = FromMedia(event: MediaEvent) | FromUser(intent: Intent)

  /**
    A freshly mounted player: paused at 0 of an unknown (0) length, at full
    volume and normal speed. A present element has not started, has loaded
    nothing and uses the default gain and speed.
   */
  function Mount(elementPresent: bool): (p: Player)
    ensures p.audio.Some? == elementPresent
    ensures !p.ui.isPlaying && p.ui.currentTime == 0.0 && p.ui.duration == 0.0
    ensures p.ui.volume == 1.0 && p.ui.playbackRate == 1.0
    ensures p.audio.Some? ==> p.audio.value.paused
  {
    var ui := PlaybackState(false, 0.0, 0.0, 1.0, 1.0);
    if elementPresent then Player(ui, Some(AudioElement(true, 0.0, 0.0, 1.0, 1.0)))
    else Player(ui, None)
  }

  // ---------------------------------------------------------------------
  // Listeners. Each reads the element it was attached to.

  /** `loadeddata`: take length and position from the element. */
  function SetAudioData(s: PlaybackState, audio: AudioElement): (r: PlaybackState)
    ensures r.duration == audio.duration && r.currentTime == audio.currentTime
    ensures r.isPlaying == s.isPlaying && r.volume == s.volume && r.playbackRate == s.playbackRate
  {
    s.(duration := audio.duration, currentTime := audio.currentTime)
  }

  /** `timeupdate`: take the position from the element, and nothing else. */
  function SetAudioTime(s: PlaybackState, audio: AudioElement): (r: PlaybackState)
    ensures r.currentTime == audio.currentTime
    ensures r.(currentTime := s.currentTime) == s
  {
    s.(currentTime := audio.currentTime)
  }

  /** `ended`: show the player stopped at the start, whatever the state before. */
  function ResetPlayer(s: PlaybackState): (r: PlaybackState)
    ensures !r.isPlaying && r.currentTime == 0.0
    ensures r.(isPlaying := s.isPlaying, currentTime := s.currentTime) == s
  {
    s.(isPlaying := false, currentTime := 0.0)
  }

  /**
    What the platform does to the element before it raises the event. The
    length can change after loading (an estimate being refined), which the
    platform reports as `durationchange`.
   */
  function Advance(m: AudioElement, e: MediaEvent): (m': AudioElement)
    ensures e.Ended? ==> m' == m.(paused := true)
    ensures !e.Ended? ==> m'.paused == m.paused && m'.volume == m.volume && m'.playbackRate == m.playbackRate
    ensures e.TimeUpdate? || e.Ended? ==> m'.duration == m.duration
  {
    match e
    case LoadedData(d, t) => m.(duration := d, currentTime := t)
    case TimeUpdate(t) => m.(currentTime := t)
    case DurationChange(d) => m.(duration := d)
    case Ended => m.(paused := true)
  }

  /** The listener attached for each event; `durationchange` has none. */
  function Listener(s: PlaybackState, e: MediaEvent, audio: AudioElement): PlaybackState {
    match e
    case LoadedData(_, _) => SetAudioData(s, audio)
    case TimeUpdate(_) => SetAudioTime(s, audio)
    case DurationChange(_) => s
    case Ended => ResetPlayer(s)
  }

  /**
    The element changes and its listener runs. Listeners are attached only
    when the element exists at mount, so without one nothing happens.
   */
  function OnMediaEvent(p: Player, e: MediaEvent): (q: Player)
    ensures p.audio.None? ==> q == p
    ensures q.audio.Some? == p.audio.Some?
  {
    match p.audio
    case None => p
    case Some(m) =>
      var m' := Advance(m, e);
      Player(Listener(p.ui, e, m'), Some(m'))
  }

  // ---------------------------------------------------------------------
  // Intents.

  /**
    Play a present, paused element; otherwise pause whatever there is. The
    display follows what was commanded (play is taken to succeed at once),
    so afterwards it agrees with the element however far apart they were.
   */
  function TogglePlay(p: Player): (q: Player)
    ensures q.ui.isPlaying <==> p.audio.Some? && p.audio.value.paused
    ensures q.audio.Some? == p.audio.Some?
    ensures q.audio.Some? ==> q.audio.value == p.audio.value.(paused := !q.ui.isPlaying)
    ensures q.ui == p.ui.(isPlaying := q.ui.isPlaying)
  {
    match p.audio
    case Some(m) =>
      if m.paused then Player(p.ui.(isPlaying := true), Some(m.(paused := false)))
      else Player(p.ui.(isPlaying := false), Some(m.(paused := true)))
    case None => Player(p.ui.(isPlaying := false), None)
  }

  /**
    Move a present element to `time` and show `time` at once, without waiting
    for the element to report it; with no element, nothing changes.
   */
  function HandleSeek(p: Player, time: Seconds): (q: Player)
    ensures p.audio.None? ==> q == p
    ensures p.audio.Some? ==>
      && q.ui == p.ui.(currentTime := time)
      && q.audio == Some(p.audio.value.(currentTime := time))
  {
    match p.audio
    case Some(m) => Player(p.ui.(currentTime := time), Some(m.(currentTime := time)))
    case None => p
  }

  /** Store the volume, and hand it to the element if there is one. */
  function HandleVolumeChange(p: Player, volume: real): (q: Player)
    ensures q.ui == p.ui.(volume := volume)
    ensures q.audio.Some? == p.audio.Some?
    ensures p.audio.Some? ==> q.audio.value == p.audio.value.(volume := volume)
  {
    Player(p.ui.(volume := volume),
      match p.audio
      case Some(m) => Some(m.(volume := volume))
      case None => None)
  }

  /** Store the speed, and hand it to the element if there is one. */
  function ChangePlaybackRate(p: Player, rate: real): (q: Player)
    ensures q.ui == p.ui.(playbackRate := rate)
    ensures q.audio.Some? == p.audio.Some?
    ensures p.audio.Some? ==> q.audio.value == p.audio.value.(playbackRate := rate)
  {
    Player(p.ui.(playbackRate := rate),
      match p.audio
      case Some(m) => Some(m.(playbackRate := rate))
      case None => None)
  }

  function OnIntent(p: Player, i: Intent): Player {
    match i
    case PressPlay => TogglePlay(p)
    case DragSeek(t) => HandleSeek(p, t)
    case DragVolume(v) => HandleVolumeChange(p, v)
    case PickRate(r) => ChangePlaybackRate(p, r)
  }

  function Step(p: Player, input: Input): Player {
    match input
    case FromMedia(e) => OnMediaEvent(p, e)
    case FromUser(i) => OnIntent(p, i)
  }

  function Run(p: Player, inputs: seq<Input>): Player
    decreases |inputs|
  {
    if |inputs| == 0 then p else Run(Step(p, inputs[0]), inputs[1..])
  }

  // ---------------------------------------------------------------------
  // What the controls can produce, and what stays true.

  /**
    The volume slider ranges over [0, 1] and the rate menu offers only
    `RateMenu`; the element may report anything.
   */
  predicate Offered(input: Input) {
    match input
    case FromUser(DragVolume(v)) => 0.0 <= v <= 1.0
    case FromUser(PickRate(r)) => r in RateMenu
    case _ => true
  }

  /**
    The display claims to play exactly when the element is unpaused, and
    never claims to play without an element.
   */
  predicate PlayFlagAgrees(p: Player) {
    match p.audio
    case None => !p.ui.isPlaying
    case Some(m) => p.ui.isPlaying == !m.paused
  }

  /**
    The play flag agrees with the element, the element has the gain and
    speed the display shows, and both stay within what the controls offer.
    The length is not part of it: a later change of the element's length
    is not listened to.
   */
  predicate Consistent(p: Player) {
    && 0.0 <= p.ui.volume <= 1.0
    && p.ui.playbackRate in RateMenu
    && PlayFlagAgrees(p)
    && (p.audio.Some? ==>
         && p.ui.volume == p.audio.value.volume
         && p.ui.playbackRate == p.audio.value.playbackRate)
  }
}
