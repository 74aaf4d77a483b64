# Now-playing panel of a SwiftUI music player, modelled in Dafny

The app shows the current song in a panel (`SongView`) laid over its tabs. The
panel has two layouts. The collapsed layout is a mini bar. The expanded layout
is a full-screen player with a progress slider and playback controls. The
shared flag `isMediaPlayerExpanded` chooses between them. The view's own
`dragOffset` and `isSliderEditing` hold local interaction state. The view sends
`play`, `pause`, `togglePlayback` and `seek(to:)` to its audio player.

The project has three modules:

- `TimeFormat` (time_format.dfy) models `timeString(for:)`. It takes a whole
  number of seconds and builds a `%02d:%02d` label of minutes and seconds. A
  parser of such labels serves as its inverse. Lemmas prove the round trip, the
  field values and widths, and the sample labels.
- `SongViewLogic` (song_view_logic.dfy) models every event handler as a pure
  function on a `Panel` record. The record holds the expanded flag, the drag
  offset, the slider-editing flag, the player's current time and duration, and
  the log of commands sent. The module also has an `Event` type, `Step` and
  `Run`. `Step` ignores events whose control is not on screen. The lemmas cover
  taps, drags, the play/pause button, slider scrubbing and an invariant that
  every run keeps.
- `Views` (views.dfy) holds the same handlers as methods of a `SongView` class.
  The class has mutable `dragOffset` and `isSliderEditing` fields. It shares a
  `MediaPlayerState` object and owns an `AudioPlayer` object. The audio player
  is modelled only as an append-only command log plus the `currentTime` and
  `duration` the view reads. Each handler method is proved to change
  `State()` exactly as the matching `SongViewLogic` function does.

Geometry (drag translation, container height, offset) and times are exact
`real`s. The input of `timeString` is the already truncated second count, a `nat`.

## Model

| member | source | states |
|---|---|---|
| `TimeFormat.ZeroPad2` | musicPlayer/Views/SongView.swift:202 | `%02d` yields only digits, at least two of them, and exactly two iff the number is below 100; a wider field never starts with a zero, so it is padded only below two digits |
| `TimeFormat.TimeString` | musicPlayer/Views/SongView.swift:199-203 | a label is a digit field of at least two characters, a colon, then exactly two digits; it is five characters long iff the time is under 100 minutes, and a longer label never starts with a zero |
| `TimeFormat.TimeStringFields` | musicPlayer/Views/SongView.swift:200-202 | the minutes field reads back as `seconds / 60`, the seconds field as `seconds % 60`, which is below 60, and the minutes field times 60 plus the seconds field gives back the input |
| `TimeFormat.TimeStringRoundTrip` | musicPlayer/Views/SongView.swift:199-203 | parsing a label gives back exactly the second count it was made from |
| `TimeFormat.TimeStringInjective` | musicPlayer/Views/SongView.swift:199-203 | two different second counts never get the same label |
| `TimeFormat.TimeStringExamples` | musicPlayer/Views/SongView.swift:202 | 0 s gives "00:00", 75 s gives "01:15", 3599 s gives "59:59" and 6000 s gives "100:00" |
| `SongViewLogic.ProgressControl` | musicPlayer/Views/SongView.swift:55-82 | the slider is shown iff the duration is positive, and its range is then the non-empty `0 ... duration`; otherwise the loading text is shown |
| `SongViewLogic.Tap` | musicPlayer/Views/SongView.swift:181-186 | a tap flips the expanded flag, puts the offset back to 0, and changes nothing else and sends no command |
| `SongViewLogic.DragChange` | musicPlayer/Views/SongView.swift:123-126 | during a drag the offset is the smaller of the translation and half the container height: it never exceeds either one and equals one of them; nothing else changes |
| `SongViewLogic.DragEnd` | musicPlayer/Views/SongView.swift:127-139 | a release past a quarter of the height moves the offset to the full height and leaves the panel collapsed; any other release puts the offset back to 0 and keeps the panel expanded; nothing else changes |
| `SongViewLogic.SliderEdit` | musicPlayer/Views/SongView.swift:56-64 | starting an edit sets the editing flag and sends exactly `pause`; ending it clears the flag and sends `seek` to the bound time followed by `play` |
| `SongViewLogic.SliderMove` | musicPlayer/Views/SongView.swift:56 | moving the slider writes the chosen in-range value into the bound current time and sends nothing |
| `SongViewLogic.PlayPause` | musicPlayer/Views/SongView.swift:92-98 | while the slider is being edited the button sends only `play`, otherwise exactly one `togglePlayback`; nothing else changes |
| `SongViewLogic.PlayPauseEitherLayout` | musicPlayer/Views/SongView.swift:162-168 | the collapsed-layout button acts exactly as the expanded-layout one, and neither changes the layout |
| `SongViewLogic.PlayPauseWhileEditing` | musicPlayer/Views/SongView.swift:93-94 | while the slider is being edited, pressing play/pause never pauses or toggles: the only command sent is `play` |
| `SongViewLogic.TapTwice` | musicPlayer/Views/SongView.swift:181-186 | two taps in a row restore the original expanded flag, leave the panel at offset 0 and send nothing |
| `SongViewLogic.DragCapExample` | musicPlayer/Views/SongView.swift:125 | a 10000-point drag on an 800-point container is held at 400 points |
| `SongViewLogic.Scrub` | musicPlayer/Views/SongView.swift:55-64 | beginning an edit, moving to a value and releasing sends `pause`, then `seek` to exactly that value, then `play`, in that order, and leaves editing off and the layout and offset unchanged |
| `SongViewLogic.SeekThenPlayAppend` | musicPlayer/Views/SongView.swift:61-62 | appending well-formed commands to a well-formed log, where each `seek` is directly followed by `play`, gives a well-formed log |
| `SongViewLogic.StepConsistent` | musicPlayer/Views/SongView.swift:121-186 | every handler keeps the panel consistent: if expanded, the offset is at most half the container height, and every `seek` in the log is directly followed by `play` |
| `SongViewLogic.RunConsistent` | musicPlayer/Views/SongView.swift:121-186 | any sequence of events from a consistent panel ends in a consistent panel |
| `SongViewLogic.RunExtendsLog` | musicPlayer/Views/SongView.swift:56-168 | the handlers only ever append to the command log: earlier commands are never removed or reordered |
| `Views.SongView.constructor` | musicPlayer/Views/SongView.swift:9-12 | a new view uses the given shared state and a fresh player; it starts not editing, at offset 0, with no command sent |
| `Views.SongView.OnTap` | musicPlayer/Views/SongView.swift:181-186 | the tap handler flips the shared flag in place, zeroes the offset, and is `Tap` on the view's state |
| `Views.SongView.OnDragChanged` | musicPlayer/Views/SongView.swift:123-126 | the drag-update handler assigns the clamped offset and is `DragChange` on the view's state |
| `Views.SongView.OnDragEnded` | musicPlayer/Views/SongView.swift:127-139 | the release handler commits or cancels on the quarter-height threshold and is `DragEnd` on the view's state |
| `Views.SongView.OnSliderEditingChanged` | musicPlayer/Views/SongView.swift:56-64 | the editing handler sets the flag and sends `pause`, or `seek` to the current time then `play`, to the player; it is `SliderEdit` on the view's state |
| `Views.SongView.OnSliderMoved` | musicPlayer/Views/SongView.swift:56 | the slider binding writes the value into the player's current time and is `SliderMove` on the view's state |
| `Views.SongView.OnPlayPause` | musicPlayer/Views/SongView.swift:162-168 | either layout's button sends `play` while editing and `togglePlayback` otherwise; it is `PlayPause` on the view's state |
| `Views.ScrubScenario` | musicPlayer/Views/SongView.swift:56-64 | a scrub driven through the object sends `pause`, `seek` to the released value and `play`, in that order, without touching the layout or the offset |

## Left out

- `setupAudio` (SongView.swift:189-197) is left out. It configures the platform audio session, swallows its error, and asks the player to load the song. All of that is platform I/O.
- The audio player's own behaviour is left out: loading, playing, pausing, seeking and time updates. Its class is not part of this model. The model records the commands the view sends and never their effects, so `isPlaying` and the play/pause icon are not modelled.
- Changes to `currentTime` and `duration` made by the player itself are not modelled. The view only reads those values; the slider binding is its one write to `currentTime`.
- Image loading (`CachedAsyncImage`, `AsyncImage`) is left out. It is network I/O.
- Animations, spring curves, transitions, blur and layout modifiers are left out. They are presentation only.
- The previous and next buttons (SongView.swift:86-90, 104-108) have empty actions and change nothing.
- Whether the tab bar's own tap on the panel (TabBarView.swift:43-47) fires as well as the panel's tap is up to SwiftUI's gesture precedence, which is not visible in the code. That tap toggles the shared flag without resetting `dragOffset`. `SongViewLogic.RunConsistent` therefore covers only runs where the panel's own handlers are the only writers of the expanded flag.
- `SongViewLogic.RunConsistent` holds for one fixed container height. A change of the geometry between events, such as a rotation, is not modelled.
- `SongViewLogic.SliderMove` does not model the slider's `step: 1` snapping. It takes any value in `0 ... duration`.
- `TimeFormat.TimeString` does not model `Int(seconds)` on a `Double`. Its input is the already truncated count, a `nat`. Negative, NaN and infinite inputs, on which Swift's conversion behaves differently or traps, are not covered.
- `TimeFormat.TimeString` does not model the 32-bit width of `%d`. Swift passes 64-bit `Int` values, but `String(format:)` reads each `%d` argument as a 32-bit `int`. From 2^31 minutes up (128,849,018,880 seconds), the source prints a wrapped and possibly negative number. The model prints the exact decimal minutes for every count.
- The other fields of `MediaPlayerState` (`currentSong`, `isMediaPlayerShown`) are left out. The panel reads the song only for display and never writes either field.
- The tab shell, the home screen and the app entry point are left out. They are composition with no logic.
