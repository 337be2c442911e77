/**
  Properties of the playback state machine: what each transition changes,
  how intents combine, and the agreement between display and element that
  every reachable state keeps.
 */
module PlaybackProperties {

  import opened Wrappers
  import opened TimeFormat
  import opened Playback

  /** A fresh player agrees with its element and shows `0:00` of `0:00`. */
  lemma MountIsConsistent(elementPresent: bool)
    ensures Consistent(Mount(elementPresent))
    ensures FormatTime(Mount(elementPresent).ui.currentTime) == "0:00"
    ensures FormatTime(Mount(elementPresent).ui.duration) == "0:00"
  {
  }

  /** One transition on an input the controls can produce keeps the agreement. */
  lemma StepPreservesConsistent(p: Player, input: Input)
    requires Consistent(p) && Offered(input)
    ensures Consistent(Step(p, input))
  {
    match input
    case FromMedia(e) =>
    case FromUser(i) =>
  }

  /** Every state reachable through the controls and the element's events keeps the agreement. */
  lemma {:induction false} RunPreservesConsistent(p: Player, inputs: seq<Input>)
    requires Consistent(p)
    requires forall k :: 0 <= k < |inputs| ==> Offered(inputs[k])
    ensures Consistent(Run(p, inputs))
    decreases |inputs|
  {
    if |inputs| > 0 {
      StepPreservesConsistent(p, inputs[0]);
      RunPreservesConsistent(Step(p, inputs[0]), inputs[1..]);
    }
  }

  /** In particular the speed shown is always one the menu offers. */
  lemma ReachableRateIsOnMenu(elementPresent: bool, inputs: seq<Input>)
    requires forall k :: 0 <= k < |inputs| ==> Offered(inputs[k])
    ensures Run(Mount(elementPresent), inputs).ui.playbackRate in RateMenu
    ensures 0.0 <= Run(Mount(elementPresent), inputs).ui.volume <= 1.0
  {
    MountIsConsistent(elementPresent);
    RunPreservesConsistent(Mount(elementPresent), inputs);
  }

  /** Two toggles in a row give back the state they started from. */
  lemma ToggleTwiceIsIdentity(p: Player)
    requires PlayFlagAgrees(p)
    ensures TogglePlay(TogglePlay(p)) == p
  {
  }

  /** With an element, a toggle flips what the display shows. */
  lemma ToggleFlips(p: Player)
    requires Consistent(p) && p.audio.Some?
    ensures TogglePlay(p).ui.isPlaying == !p.ui.isPlaying
    ensures Consistent(TogglePlay(p))
  {
  }

  /**
    The agreement is needed: a display that claims to play a paused element
    still claims nothing after two toggles.
   */
  lemma ToggleTwiceOnStaleDisplay()
    ensures var p := Player(PlaybackState(true, 0.0, 0.0, 1.0, 1.0), Some(AudioElement(true, 0.0, 0.0, 1.0, 1.0)));
      !TogglePlay(TogglePlay(p)).ui.isPlaying && p.ui.isPlaying
  {
  }

  /**
    `ended` stops the display at 0 from any state; length, volume and speed
    are kept, and the element keeps its own position.
   */
  lemma EndedResets(p: Player)
    requires p.audio.Some?
    ensures var q := OnMediaEvent(p, Ended);
      && !q.ui.isPlaying && q.ui.currentTime == 0.0
      && q.ui.duration == p.ui.duration && q.ui.volume == p.ui.volume
      && q.ui.playbackRate == p.ui.playbackRate
      && q.audio == Some(p.audio.value.(paused := true))
  {
  }

  /** A second `ended` changes nothing more. */
  lemma EndedIdempotent(p: Player)
    ensures OnMediaEvent(OnMediaEvent(p, Ended), Ended) == OnMediaEvent(p, Ended)
  {
  }

  /** `timeupdate` moves the shown position to the element's and touches nothing else shown. */
  lemma TimeUpdateMovesOnlyPosition(p: Player, t: Seconds)
    requires p.audio.Some?
    ensures var q := OnMediaEvent(p, TimeUpdate(t));
      && q.ui == p.ui.(currentTime := t)
      && q.audio.value.currentTime == t
      && q.audio.value.paused == p.audio.value.paused
  {
  }

  /** `loadeddata` takes length and position from the element and keeps play flag, volume and speed. */
  lemma LoadedDataTakesElementValues(p: Player, d: Seconds, t: Seconds)
    requires p.audio.Some?
    ensures var q := OnMediaEvent(p, LoadedData(d, t));
      && q.ui == p.ui.(duration := d, currentTime := t)
      && q.audio.value.duration == q.ui.duration
      && q.audio.value.currentTime == q.ui.currentTime
  {
  }

  /**
    `durationchange` has no listener: the element takes the new length and
    the display keeps showing the old one.
   */
  lemma DurationChangeNotShown(p: Player, d: Seconds)
    requires p.audio.Some?
    ensures var q := OnMediaEvent(p, DurationChange(d));
      && q.ui == p.ui
      && q.audio == Some(p.audio.value.(duration := d))
  {
  }

  /**
    The shown position is not kept within the shown length: after the
    element's length grows without a listener, a later position report can
    pass the length on screen (2:30 of 2:05), while the player stays
    `Consistent`.
   */
  lemma PositionCanPassShownLength()
    ensures var q := Run(Mount(true), [FromMedia(LoadedData(125.0, 0.0)), FromUser(PressPlay),
                                      FromMedia(DurationChange(200.0)), FromMedia(TimeUpdate(150.0))]);
      && Consistent(q)
      && q.ui.duration == 125.0 && q.ui.currentTime == 150.0
      && q.audio.value.duration == 200.0
      && q.ui.currentTime > q.ui.duration
  {
  }

  /** Of two seeks only the last one counts. */
  lemma SeekLastWins(p: Player, a: Seconds, b: Seconds)
    ensures HandleSeek(HandleSeek(p, a), b) == HandleSeek(p, b)
  {
  }

  /** The optimistic seek agrees with the element's later report of the same position. */
  lemma SeekThenReport(p: Player, t: Seconds)
    ensures OnMediaEvent(HandleSeek(p, t), TimeUpdate(t)) == HandleSeek(p, t)
  {
  }

  /** Of two volume changes only the last one counts. */
  lemma VolumeLastWins(p: Player, a: real, b: real)
    ensures HandleVolumeChange(HandleVolumeChange(p, a), b) == HandleVolumeChange(p, b)
  {
  }

  /** Of two speed changes only the last one counts. */
  lemma RateLastWins(p: Player, a: real, b: real)
    ensures ChangePlaybackRate(ChangePlaybackRate(p, a), b) == ChangePlaybackRate(p, b)
  {
  }

  /** Volume and speed are independent controls. */
  lemma VolumeAndRateCommute(p: Player, v: real, r: real)
    ensures ChangePlaybackRate(HandleVolumeChange(p, v), r) == HandleVolumeChange(ChangePlaybackRate(p, r), v)
  {
  }

  /**
    Load a 125-second track, press play, hear a minute, reach the end: the
    display goes paused at 0 of 125, playing, playing at 60, paused at 0.
   */
  lemma ListenToTheEnd()
    ensures var p0 := Mount(true);
      var p1 := Step(p0, FromMedia(LoadedData(125.0, 0.0)));
      var p2 := Step(p1, FromUser(PressPlay));
      var p3 := Step(p2, FromMedia(TimeUpdate(60.0)));
      var p4 := Step(p3, FromMedia(Ended));
      && p1.ui == PlaybackState(false, 0.0, 125.0, 1.0, 1.0)
      && p2.ui == PlaybackState(true, 0.0, 125.0, 1.0, 1.0)
      && p3.ui == PlaybackState(true, 60.0, 125.0, 1.0, 1.0)
      && p4.ui == PlaybackState(false, 0.0, 125.0, 1.0, 1.0)
      && Run(p0, [FromMedia(LoadedData(125.0, 0.0)), FromUser(PressPlay),
                  FromMedia(TimeUpdate(60.0)), FromMedia(Ended)]) == p4
  {
  }
}
