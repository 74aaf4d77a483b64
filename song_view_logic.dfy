/** The now-playing panel's interaction state machine as values: what each
    event handler of `SongView` does to the expanded flag, the drag offset, the
    slider-editing flag, the slider's bound time and the log of commands sent
    to the audio player. The class in module Views runs the same handlers in
    place and is proved against these functions. */
module SongViewLogic {

  /** A command the panel sends to the audio player. Only the sending is
      modelled; what the player does with it is not part of this model. */
  datatype Command = Play | Pause | TogglePlayback | Seek(time: real)

  /** Everything the panel's handlers read or write. */
  datatype Panel = Panel(
    expanded: bool,         // shared `isMediaPlayerExpanded`
    dragOffset: real,       // local `dragOffset`
    sliderEditing: bool,    // local `isSliderEditing`
    currentTime: real,      // the player's `currentTime`, bound to the slider
    duration: real,         // the player's `duration`, only read
    commands: seq<Command>) // every command sent so far, oldest first

  /** What the expanded layout shows under the song title. */
  datatype Progress = Slider(lower: real, upper: real) | Loading

  /** A user interaction the panel reacts to. */
  datatype Event =
    | Tapped
    | DragChanged(translation: real)
    | DragEnded(translation: real)
    | SliderEditingChanged(editing: bool)
    | SliderMoved(value: real)
    | PlayPauseTapped

  function Min(a: real, b: real): real {
    if a <= b then a else b
  }

  /** The slider is offered only for a known, positive duration; otherwise the
      layout shows a loading text, so the slider never has an empty range. */
  function ProgressControl(duration: real): (c: Progress)
    ensures c.Slider? <==> duration > 0.0
    ensures c.Slider? ==> c.lower == 0.0 < c.upper == duration
  {
    if duration > 0.0 then Slider(0.0, duration) else Loading
  }

  /** A tap anywhere on the panel flips between the collapsed and expanded
      layouts and puts the panel back at its resting offset. */
  function Tap(p: Panel): (r: Panel)
    ensures r.expanded == !p.expanded && r.dragOffset == 0.0
    ensures r.sliderEditing == p.sliderEditing && r.currentTime == p.currentTime
    ensures r.duration == p.duration && r.commands == p.commands
  {
    p.(expanded := !p.expanded, dragOffset := 0.0)
  }

  /** While the expanded panel is dragged, it follows the finger down to at
      most half the container height. */
  function DragChange(p: Panel, translation: real, height: real): (r: Panel)
    requires p.expanded
    ensures r.dragOffset <= translation && r.dragOffset <= height / 2.0
    ensures r.dragOffset == translation || r.dragOffset == height / 2.0
    ensures r == p.(dragOffset := r.dragOffset)
  {
    p.(dragOffset := Min(translation, height / 2.0))
  }

  /** Releasing a drag that went further than a quarter of the container
      height commits: the panel slides the full height down and collapses.
      A shorter drag is cancelled: the panel springs back and stays expanded. */
  function DragEnd(p: Panel, translation: real, height: real): (r: Panel)
    requires p.expanded
    ensures translation > height / 4.0 ==> !r.expanded && r.dragOffset == height
    ensures translation <= height / 4.0 ==> r.expanded && r.dragOffset == 0.0
    ensures r == p.(expanded := r.expanded, dragOffset := r.dragOffset)
  {
    if translation > height / 4.0 then
      p.(dragOffset := height, expanded := !p.expanded)
    else
      p.(dragOffset := 0.0)
  }

  /** The slider reports the start and the end of an edit. Starting pauses
      playback; ending seeks to the slider's time and then resumes playback. */
  function SliderEdit(p: Panel, editing: bool): (r: Panel)
    requires p.expanded && ProgressControl(p.duration).Slider?
    ensures r.sliderEditing == editing
    ensures editing ==> r.commands == p.commands + [Pause]
    ensures !editing ==> r.commands == p.commands + [Seek(p.currentTime), Play]
    ensures r == p.(sliderEditing := editing, commands := r.commands)
  {
    var sent := if editing then [Pause] else [Seek(p.currentTime), Play];
    p.(sliderEditing := editing, commands := p.commands + sent)
  }

  /** Moving the slider writes the chosen time, within the slider's range,
      into the player's bound `currentTime`; no command is sent. */
  function SliderMove(p: Panel, value: real): (r: Panel)
    requires p.expanded && ProgressControl(p.duration).Slider?
    requires 0.0 <= value <= p.duration
    ensures r.currentTime == value && r == p.(currentTime := value)
  {
    p.(currentTime := value)
  }

  /** The play/pause button, the same in both layouts: while the slider is
      being edited it only resumes playback, otherwise it toggles playback. */
  function PlayPause(p: Panel): (r: Panel)
    ensures p.sliderEditing ==> r.commands == p.commands + [Play]
    ensures !p.sliderEditing ==> r.commands == p.commands + [TogglePlayback]
    ensures r == p.(commands := r.commands)
  {
    p.(commands := p.commands + [if p.sliderEditing then Play else TogglePlayback])
  }

  /** Whether the control that produces `e` is on screen: the drag gesture and
      the slider exist only in the expanded layout, the slider only when the
      duration is known, and the slider's values stay within its range. */
  predicate Enabled(p: Panel, e: Event) {
    match e
    case Tapped => true
    case PlayPauseTapped => true
    case DragChanged(_) => p.expanded
    case DragEnded(_) => p.expanded
    case SliderEditingChanged(_) => p.expanded && ProgressControl(p.duration).Slider?
    case SliderMoved(v) => p.expanded && ProgressControl(p.duration).Slider? && 0.0 <= v <= p.duration
  }

  /** One event in a container of the given height; an event whose control is
      not on screen cannot occur and leaves the panel as it is. */
  function Step(p: Panel, e: Event, height: real): Panel {
    if !Enabled(p, e) then p
    else match e
      case Tapped => Tap(p)
      case DragChanged(t) => DragChange(p, t, height)
      case DragEnded(t) => DragEnd(p, t, height)
      case SliderEditingChanged(b) => SliderEdit(p, b)
      case SliderMoved(v) => SliderMove(p, v)
      case PlayPauseTapped => PlayPause(p)
  }

  /** A sequence of events, oldest first. */
  function Run(p: Panel, es: seq<Event>, height: real): Panel
    decreases |es|
  {
    if es == [] then p else Run(Step(p, es[0], height), es[1..], height)
  }

  /** Every seek in the log is immediately followed by a resume of playback. */
  predicate SeekThenPlay(cmds: seq<Command>) {
    forall i | 0 <= i < |cmds| && cmds[i].Seek? :: i + 1 < |cmds| && cmds[i + 1] == Play
  }

  /** What holds of every panel the handlers can produce in a container of
      the given height: the expanded panel is never pushed down by more than
      half the height, and the command log never leaves a seek without a play. */
  predicate Consistent(p: Panel, height: real) {
    (p.expanded ==> p.dragOffset <= height / 2.0) && SeekThenPlay(p.commands)
  }

  /** Sending commands keeps the log well formed when the appended part is. */
  lemma SeekThenPlayAppend(a: seq<Command>, b: seq<Command>)
    requires SeekThenPlay(a) && SeekThenPlay(b)
    ensures SeekThenPlay(a + b)
  {
  }

  /** Each handler keeps the panel consistent. */
  lemma StepConsistent(p: Panel, e: Event, height: real)
    requires height >= 0.0 && Consistent(p, height)
    ensures Consistent(Step(p, e, height), height)
  {
  }

  /** Any sequence of events keeps the panel consistent. */
  lemma {:induction false} RunConsistent(p: Panel, es: seq<Event>, height: real)
    requires height >= 0.0 && Consistent(p, height)
    ensures Consistent(Run(p, es, height), height)
    decreases |es|
  {
    if es != [] {
      StepConsistent(p, es[0], height);
      RunConsistent(Step(p, es[0], height), es[1..], height);
    }
  }

  /** Handlers only ever append to the command log. */
  lemma {:induction false} RunExtendsLog(p: Panel, es: seq<Event>, height: real)
    ensures |p.commands| <= |Run(p, es, height).commands|
    ensures Run(p, es, height).commands[..|p.commands|] == p.commands
    decreases |es|
  {
    if es != [] {
      var q := Step(p, es[0], height);
      assert q.commands[..|p.commands|] == p.commands;
      RunExtendsLog(q, es[1..], height);
    }
  }

  /** Two taps in a row bring back the layout the panel started in, at rest. */
  lemma TapTwice(p: Panel)
    ensures Run(p, [Tapped, Tapped], 0.0) == p.(dragOffset := 0.0)
  {
  }

  /** A huge drag on an 800-point container is held at 400 points. */
  lemma DragCapExample(p: Panel)
    requires p.expanded
    ensures DragChange(p, 10000.0, 800.0).dragOffset == 400.0
  {
  }

  /** The play/pause button does the same in the collapsed and the expanded
      layout and never changes the layout. */
  lemma PlayPauseEitherLayout(p: Panel)
    ensures Step(p.(expanded := true), PlayPauseTapped, 0.0)
         == Step(p.(expanded := false), PlayPauseTapped, 0.0).(expanded := true)
    ensures Step(p, PlayPauseTapped, 0.0).expanded == p.expanded
  {
  }

  /** While the slider is being edited, the play/pause button never pauses. */
  lemma PlayPauseWhileEditing(p: Panel, height: real)
    requires p.sliderEditing
    ensures Step(p, PlayPauseTapped, height).commands == p.commands + [Play]
  {
  }

  /** Scrubbing the slider to a time: the player is paused, then sent to
      exactly the released time, then resumed, and the edit is over. */
  lemma Scrub(p: Panel, value: real, height: real)
    requires p.expanded && p.duration > 0.0 && 0.0 <= value <= p.duration
    ensures var r := Run(p, [SliderEditingChanged(true), SliderMoved(value), SliderEditingChanged(false)], height);
      r.commands == p.commands + [Pause, Seek(value), Play] &&
      !r.sliderEditing && r.currentTime == value && r.expanded && r.dragOffset == p.dragOffset
  {
    var es := [SliderEditingChanged(true), SliderMoved(value), SliderEditingChanged(false)];
    var p1 := Step(p, es[0], height);
    var p2 := Step(p1, es[1], height);
    var p3 := Step(p2, es[2], height);
    assert Run(p2, es[2..], height) == p3 by { assert es[2..][1..] == []; }
    assert Run(p1, es[1..], height) == p3 by { assert es[1..][0] == es[1] && es[1..][1..] == es[2..]; }
    assert Run(p, es, height) == p3;
  }
}
