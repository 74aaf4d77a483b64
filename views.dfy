/** `SongView` as an object: its handlers assign the shared expanded flag, the
    local drag offset and slider-editing flag, and send commands to the audio
    player, one statement after another. Each handler is proved to do to the
    abstract `State()` exactly what the matching function of SongViewLogic does. */
module Views {
  import opened SongViewLogic

  /** The app-wide shared state the panel reads and writes; only the flag the
      panel touches is modelled. */
  class MediaPlayerState {
    var isMediaPlayerExpanded: bool

    constructor (expanded: bool)
      ensures isMediaPlayerExpanded == expanded
    {
      isMediaPlayerExpanded := expanded;
    }
  }

  /** The audio player as the panel sees it: the two times it exposes and an
      append-only log of the commands it has been sent. */
  class AudioPlayer {
    var commands: seq<Command>
    var currentTime: real
    var duration: real

    constructor ()
      ensures commands == []
    {
      commands := [];
    }

    method Play()
      modifies this
      ensures commands == old(commands) + [SongViewLogic.Play]
      ensures currentTime == old(currentTime) && duration == old(duration)
    {
      commands := commands + [SongViewLogic.Play];
    }

    method Pause()
      modifies this
      ensures commands == old(commands) + [SongViewLogic.Pause]
      ensures currentTime == old(currentTime) && duration == old(duration)
    {
      commands := commands + [SongViewLogic.Pause];
    }

    method TogglePlayback()
      modifies this
      ensures commands == old(commands) + [SongViewLogic.TogglePlayback]
      ensures currentTime == old(currentTime) && duration == old(duration)
    {
      commands := commands + [SongViewLogic.TogglePlayback];
    }

    method Seek(time: real)
      modifies this
      ensures commands == old(commands) + [SongViewLogic.Seek(time)]
      ensures currentTime == old(currentTime) && duration == old(duration)
    {
      commands := commands + [SongViewLogic.Seek(time)];
    }
  }

  class SongView {
    const mediaPlayerState: MediaPlayerState
    const audioPlayer: AudioPlayer
    var isSliderEditing: bool
    var dragOffset: real

    /** The panel as a value, for stating what each handler does. */
    ghost function State(): Panel
      reads this, mediaPlayerState, audioPlayer
    {
      Panel(mediaPlayerState.isMediaPlayerExpanded, dragOffset, isSliderEditing,
            audioPlayer.currentTime, audioPlayer.duration, audioPlayer.commands)
    }

    /** A new panel on the shared state, with its own player, at rest and not
        editing, having sent nothing. */
    constructor (state: MediaPlayerState)
      ensures mediaPlayerState == state && fresh(audioPlayer)
      ensures State().expanded == state.isMediaPlayerExpanded
      ensures !isSliderEditing && dragOffset == 0.0 && audioPlayer.commands == []
    {
      mediaPlayerState := state;
      audioPlayer := new AudioPlayer();
      isSliderEditing := false;
      dragOffset := 0.0;
    }

    /** A tap on the panel. */
    method OnTap()
      modifies this, mediaPlayerState
      ensures State() == Tap(old(State()))
      ensures mediaPlayerState.isMediaPlayerExpanded == !old(mediaPlayerState.isMediaPlayerExpanded)
      ensures dragOffset == 0.0 && isSliderEditing == old(isSliderEditing)
    {
      mediaPlayerState.isMediaPlayerExpanded := !mediaPlayerState.isMediaPlayerExpanded;
      dragOffset := 0.0;
    }

    /** A drag update, in the expanded layout, in a container of the given height. */
    method OnDragChanged(translation: real, height: real)
      requires mediaPlayerState.isMediaPlayerExpanded
      modifies this
      ensures State() == DragChange(old(State()), translation, height)
      ensures dragOffset == Min(translation, height / 2.0)
      ensures isSliderEditing == old(isSliderEditing)
    {
      dragOffset := Min(translation, height / 2.0);
    }

    /** The release of a drag, in the expanded layout. */
    method OnDragEnded(translation: real, height: real)
      requires mediaPlayerState.isMediaPlayerExpanded
      modifies this, mediaPlayerState
      ensures State() == DragEnd(old(State()), translation, height)
      ensures translation > height / 4.0 ==> dragOffset == height && !mediaPlayerState.isMediaPlayerExpanded
      ensures translation <= height / 4.0 ==> dragOffset == 0.0 && mediaPlayerState.isMediaPlayerExpanded
      ensures isSliderEditing == old(isSliderEditing)
    {
      if translation > height / 4.0 {
        dragOffset := height;
        mediaPlayerState.isMediaPlayerExpanded := !mediaPlayerState.isMediaPlayerExpanded;
      } else {
        dragOffset := 0.0;
      }
    }

    /** The slider's start or end of an edit; the slider is on screen only in
        the expanded layout with a known duration. */
    method OnSliderEditingChanged(editing: bool)
      requires mediaPlayerState.isMediaPlayerExpanded && audioPlayer.duration > 0.0
      modifies this, audioPlayer
      ensures State() == SliderEdit(old(State()), editing)
      ensures isSliderEditing == editing && dragOffset == old(dragOffset)
      ensures editing ==> audioPlayer.commands == old(audioPlayer.commands) + [SongViewLogic.Pause]
      ensures !editing ==>
                audioPlayer.commands
                == old(audioPlayer.commands) + [SongViewLogic.Seek(old(audioPlayer.currentTime)), SongViewLogic.Play]
    {
      isSliderEditing := editing;
      if editing {
        audioPlayer.Pause();
      } else {
        audioPlayer.Seek(audioPlayer.currentTime);
        audioPlayer.Play();
      }
    }

    /** The slider moved to `value`, written through its binding into the
        player's `currentTime`. */
    method OnSliderMoved(value: real)
      requires mediaPlayerState.isMediaPlayerExpanded && audioPlayer.duration > 0.0
      requires 0.0 <= value <= audioPlayer.duration
      modifies audioPlayer
      ensures State() == SliderMove(old(State()), value)
      ensures audioPlayer.currentTime == value && audioPlayer.commands == old(audioPlayer.commands)
    {
      audioPlayer.currentTime := value;
    }

    /** The play/pause button of either layout. */
    method OnPlayPause()
      modifies audioPlayer
      ensures State() == PlayPause(old(State()))
      ensures isSliderEditing ==> audioPlayer.commands == old(audioPlayer.commands) + [SongViewLogic.Play]
      ensures !isSliderEditing ==> audioPlayer.commands == old(audioPlayer.commands) + [SongViewLogic.TogglePlayback]
    {
      if isSliderEditing {
        audioPlayer.Play();
      } else {
        audioPlayer.TogglePlayback();
      }
    }
  }

  /** A scrub through the object: the player is paused, sent to the released
      time and resumed, while the layout and the offset stay as they were. */
  method ScrubScenario(view: SongView, value: real)
    requires view.mediaPlayerState.isMediaPlayerExpanded && view.audioPlayer.duration > 0.0
    requires 0.0 <= value <= view.audioPlayer.duration
    modifies view, view.audioPlayer
    ensures view.audioPlayer.commands
      == old(view.audioPlayer.commands) + [SongViewLogic.Pause, SongViewLogic.Seek(value), SongViewLogic.Play]
    ensures !view.isSliderEditing && view.dragOffset == old(view.dragOffset)
    ensures view.mediaPlayerState.isMediaPlayerExpanded
  {
    view.OnSliderEditingChanged(true);
    view.OnSliderMoved(value);
    view.OnSliderEditingChanged(false);
  }
}
