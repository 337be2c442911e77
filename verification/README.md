# Audio player playback model

A Dafny model of the `AudioPlayer` React component: the playback state the
component keeps (`isPlaying`, `currentTime`, `duration`, `volume`,
`playbackRate`), the platform audio element it drives, the three element
events it listens to (`loadeddata`, `timeupdate`, `ended`), the four user
intents (toggle play, seek, volume, speed) and the `formatTime` clock label.

Each handler is one atomic transition of an immutable `Player` record (the
component state plus `Option<AudioElement>`, since the element reference can
be null). Element events are modelled in two steps: the platform first changes
the element (`Advance`: new length and position on `loadeddata`, a new position
on `timeupdate`, a new length on `durationchange`, paused on `ended`), then the
listener reads the element it was attached to. The component registers no
listener for `durationchange`, so that event changes only the element.
`play()` is taken to succeed at once, because the component ignores the
promise it returns. Times are non-negative reals (`Seconds`).

Modules:
- `Wrappers` (wrappers.dfy): `Option`.
- `Decimal` (decimal.dfy): `toString()` of a whole number and `padStart`, with
  the value of a digit string as the inverse of the numeral.
- `TimeFormat` (time_format.dfy): `formatTime`, an integer reference `Clock` and
  a label parser `ParseClock` used to state what a label determines.
- `Playback` (playback.dfy): state, element, events, intents, transitions, the
  inputs the controls can produce (`Offered`), the agreement on the play flag
  (`PlayFlagAgrees`) and the wider display/element agreement (`Consistent`:
  play flag, gain and speed, with volume and speed in the controls' range).
- `PlaybackProperties` (playback_properties.dfy): lemmas over the transitions.

Behaviour worth noting:
- seeking with no element changes nothing, not even the shown position;
- toggling with no element shows "paused";
- the label's minutes field is not padded (`M:SS`, not `MM:SS`);
- `timeupdate` is accepted in every state, also right after `ended`;
- `ended` leaves the element's own position where it is;
- a length change after loading is not shown, since only `loadeddata` sets the
  shown length;
- nothing keeps the shown position within the shown length: after such a
  length change a position report can pass it (`2:30` of `2:05`).

## Model

| member | source | states |
|---|---|---|
| Playback.Mount | components/AudioPlayer.tsx:22-26 | a new player is paused at position 0 with length 0 (unknown), volume 1 and speed 1; a present element starts paused |
| PlaybackProperties.MountIsConsistent | components/AudioPlayer.tsx:120-121 | a new player agrees with its element on play flag, gain and speed, and both labels read `0:00` |
| Playback.SetAudioData | components/AudioPlayer.tsx:32-35 | `loadeddata` takes length and position from the element and keeps the play flag, volume and speed |
| PlaybackProperties.LoadedDataTakesElementValues | components/AudioPlayer.tsx:32-35 | after `loadeddata` the shown length and position equal the element's, and nothing else shown changes |
| Playback.SetAudioTime | components/AudioPlayer.tsx:37 | `timeupdate` sets the shown position to the element's and changes no other field, in particular not the play flag |
| PlaybackProperties.DurationChangeNotShown | components/AudioPlayer.tsx:44-46 | `durationchange` has no listener: the element takes the new length and the display is unchanged |
| PlaybackProperties.PositionCanPassShownLength | components/AudioPlayer.tsx:32-46 | the code does not keep `0 <= currentTime <= duration`: load 125 s, play, the length grows to 200 s unheard, a report at 150 s shows position 150 of length 125 in a consistent player |
| PlaybackProperties.TimeUpdateMovesOnlyPosition | components/AudioPlayer.tsx:37 | on the whole player, `timeupdate` changes only the shown position and does not touch the element's paused flag |
| Playback.ResetPlayer | components/AudioPlayer.tsx:39-42 | `ended` yields not playing at position 0 from any state and changes no other field |
| PlaybackProperties.EndedResets | components/AudioPlayer.tsx:39-42 | after `ended` the display is stopped at 0 with length, volume and speed kept, and the element keeps its own position |
| PlaybackProperties.EndedIdempotent | components/AudioPlayer.tsx:39-42 | a second `ended` changes nothing more |
| Playback.Advance | components/AudioPlayer.tsx:44-46 | the platform's part of each event: only `ended` changes the paused flag (to paused); no event changes gain or speed; `timeupdate` and `ended` keep the length |
| Playback.OnMediaEvent | components/AudioPlayer.tsx:29-30 | listeners exist only when the element exists at mount, so without an element events change nothing |
| Playback.TogglePlay | components/AudioPlayer.tsx:55-63 | shows playing exactly when the element is present and was paused, unpauses it then, pauses it otherwise, changes no other field, and leaves display and element agreeing |
| PlaybackProperties.ToggleTwiceIsIdentity | components/AudioPlayer.tsx:55-63 | whenever the shown play flag agrees with the element (and is off without one), two toggles restore the whole model player (the rewind of an ended element is not modelled) |
| PlaybackProperties.ToggleFlips | components/AudioPlayer.tsx:55-63 | with an element, one toggle flips the shown play flag and keeps the agreement |
| PlaybackProperties.ToggleTwiceOnStaleDisplay | components/AudioPlayer.tsx:56-58 | on a display that claims to play a paused element, two toggles do not restore the flag: the involution needs the agreement |
| Playback.HandleSeek | components/AudioPlayer.tsx:65-71 | with an element, both the element and the shown position become exactly `time`, nothing else changes; without one nothing changes |
| PlaybackProperties.SeekLastWins | components/AudioPlayer.tsx:65-71 | of two seeks only the last counts |
| PlaybackProperties.SeekThenReport | components/AudioPlayer.tsx:65-71 | a later `timeupdate` reporting the sought position leaves the optimistic state unchanged |
| Playback.HandleVolumeChange | components/AudioPlayer.tsx:73-79 | the volume is always stored, and written to the element only when there is one; nothing else changes |
| PlaybackProperties.VolumeLastWins | components/AudioPlayer.tsx:73-79 | of two volume changes only the last counts |
| Playback.ChangePlaybackRate | components/AudioPlayer.tsx:81-86 | the speed is always stored, and written to the element only when there is one; nothing else changes |
| PlaybackProperties.RateLastWins | components/AudioPlayer.tsx:81-86 | of two speed changes only the last counts |
| PlaybackProperties.VolumeAndRateCommute | components/AudioPlayer.tsx:73-86 | volume and speed changes commute |
| PlaybackProperties.StepPreservesConsistent | components/AudioPlayer.tsx:131-143 | any event, and any intent the slider ([0, 1]) and rate menu can produce, keeps display and element agreeing on play flag, gain and speed, and volume and speed in range |
| PlaybackProperties.RunPreservesConsistent | components/AudioPlayer.tsx:131-143 | the agreement holds after any sequence of such inputs |
| PlaybackProperties.ReachableRateIsOnMenu | components/AudioPlayer.tsx:131-135 | in every reachable state the speed is one of 0.5, 1, 1.5, 2 and the volume lies in [0, 1] |
| PlaybackProperties.ListenToTheEnd | components/AudioPlayer.tsx:32-63 | load 125 s, play, progress to 60 s, end: the display goes paused at 0, playing, playing at 60, paused at 0 |
| TimeFormat.MinuteRemainder | components/AudioPlayer.tsx:90 | JavaScript `time % 60` on a non-negative time lies in [0, 60) and completes the whole minutes to `time` |
| TimeFormat.FormatTime | components/AudioPlayer.tsx:88-92 | the label is the numeral of `floor(time / 60)`, a colon and the two-digit field of `floor(time) mod 60`, and parsing it back gives `floor(time)` |
| TimeFormat.SecondsField | components/AudioPlayer.tsx:90-91 | the seconds field is two digits denoting a value in 00..59, with a leading 0 exactly below 10 |
| TimeFormat.FormatTimeSameLabel | components/AudioPlayer.tsx:88-92 | two times get the same label exactly when their whole seconds agree |
| TimeFormat.FormatTimeFloors | components/AudioPlayer.tsx:89-90 | a time and its whole part get the same label: the formatter floors and never rounds |
| TimeFormat.ZeroLabel | components/AudioPlayer.tsx:88-92 | 0 is shown as `0:00` |
| TimeFormat.PaddedLabel | components/AudioPlayer.tsx:91 | 65 is shown as `1:05` |
| TimeFormat.FractionIsDropped | components/AudioPlayer.tsx:89-90 | every time in [59, 60), 59.9 among them, is shown as `0:59`: the fraction is dropped, not rounded up |
| TimeFormat.MinutesLabel | components/AudioPlayer.tsx:89-91 | 600 is shown as `10:00`: minutes are neither padded nor capped |
| Decimal.NatToDecimal | components/AudioPlayer.tsx:91 | `toString()` of a whole number below 10^21 is a non-empty digit string without leading zero, one digit exactly below 10 |
| Decimal.NatToDecimalRoundTrip | components/AudioPlayer.tsx:91 | reading the numeral of `n` gives `n` |
| Decimal.DecimalValueRoundTrip | components/AudioPlayer.tsx:91 | every canonical numeral is the numeral of its value |
| Decimal.NatToDecimalInjective | components/AudioPlayer.tsx:91 | distinct numbers get distinct numerals |
| Decimal.PadStart | components/AudioPlayer.tsx:91 | `padStart` yields `max(len, width)` characters ending in the input, preceded only by the fill character |
| Decimal.TwoDigitRendering | components/AudioPlayer.tsx:91 | a number below 100 padded to two digits is two digits denoting that number, starting with 0 exactly below 10 |

## Left out

- JSX, styling and the slider, menu, button and card widgets (lines 94-153): rendering only.
- React's state batching, `useRef` and the `useEffect` subscribe/unsubscribe lifecycle (lines 28-53): each handler is one atomic transition; the element reference does not change after mount.
- The promise returned by `play()` (line 57): the component ignores it, so play is taken to succeed at once; a rejected play, which would leave the display claiming to play, is not modelled.
- Pauses caused by anything other than the toggle or the end of the track (other pages, system media keys): the component has no listener for them.
- NaN and infinite lengths from the element before metadata is known, and floating-point rounding: times are exact non-negative reals, and the element's unknown length starts as 0.
- Playback.TogglePlay: `play()` on an element whose playback has ended also rewinds it to the start; the model only unpauses it, so after `ended` the element keeps its end position (the display is unaffected, since it takes positions from the events), and `ToggleTwiceIsIdentity` restores the model's element, not a rewound one.
- A position within the shown length (`0 <= currentTime <= duration`) is not promised: the code does not maintain it (see `PositionCanPassShownLength`).
- The seek slider's bound `duration || 100` (line 113): it is the widget's job and no property here depends on it; seek positions are any non-negative time.
- Playback.HandleVolumeChange: the platform rejects a volume outside [0, 1] when writing it to the element; the model stores any value, and only `Offered` limits volume to the slider's range.
- Playback.ChangePlaybackRate: the platform rejects a speed it does not support when writing it to the element; the model stores any value, and only `Offered` limits speed to the menu's four values.
- Decimal.NatToDecimal: `toString()` prints whole numbers of 10^21 and more in exponent form (`1e+21`); the model always prints plain digits, which differs only for labels of more than 10^22 seconds.
- The `src` and `title` props and the hard-coded `/1.mp3` source (lines 20, 98-99): unused or fixed.
