/**
 * The controller as the script runs it: the media element's properties, the
 * two module-level variables and the presentational flags are fields that the
 * event handlers update in place. Each handler is proved to leave the fields
 * exactly as the matching transition of `PlayerModel` says.
 */
module Controller {
  import opened Options
  import Keyboard
  import opened PlayerModel

  class Player {
    // media element
    var paused: bool
    var muted: bool
    var volume: real
    var rateQuarters: int
    var currentTime: real
    var duration: real
    var captions: Option<TrackMode>
    // module-level variables of the script
    var isScrubbing: bool
    var wasPaused: Option<bool>
    // classes, data attribute and slider
    var pausedClass: bool
    var playingClass: bool
    var theaterClass: bool
    var captionsClass: bool
    var miniPlayerClass: bool
    var scrubbingClass: bool
    var volumeLevel: Option<VolumeLevel>
    var sliderValue: real
    var volumeListener: bool

    /** The fields as one value. */
    function Model(): State
      reads this
    {
      State(paused, muted, volume, rateQuarters, currentTime, duration, captions,
            isScrubbing, wasPaused,
            pausedClass, playingClass, theaterClass, captionsClass, miniPlayerClass, scrubbingClass,
            volumeLevel, sliderValue, volumeListener)
    }

    ghost predicate Valid()
      reads this
    {
      Inv(Model())
    }

    /** The script's start-up, including setting an existing text track to hidden. */
    constructor (hasTrack: bool, mediaDuration: real)
      requires mediaDuration >= 0.0
      ensures Valid() && Model() == Initial(hasTrack, mediaDuration)
    {
      paused, muted, volume, rateQuarters := true, false, 1.0, 4;
      currentTime, duration := 0.0, mediaDuration;
      captions := None;
      isScrubbing, wasPaused := false, None;
      pausedClass, playingClass, theaterClass := false, false, false;
      captionsClass, miniPlayerClass, scrubbingClass := false, false, false;
      volumeLevel, sliderValue, volumeListener := None, 1.0, false;
      if hasTrack {
        captions := Some(Hidden);
      }
    }

    method TogglePlay()
      requires Valid()
      modifies this
      ensures Valid() && Model() == PlayerModel.TogglePlay(old(Model()))
    {
      if paused {
        paused := false;
      } else {
        paused := true;
      }
    }

    method Skip(seconds: int)
      requires Valid()
      modifies this
      ensures Valid() && Model() == PlayerModel.Skip(old(Model()), seconds)
    {
      currentTime := currentTime + seconds as real;
    }

    method ToggleMute()
      requires Valid()
      modifies this
      ensures Valid() && Model() == PlayerModel.ToggleMute(old(Model()))
    {
      muted := !muted;
    }

    method ToggleTheaterMode()
      requires Valid()
      modifies this
      ensures Valid() && Model() == ToggleTheater(old(Model()))
    {
      theaterClass := !theaterClass;
    }

    /** `ok` is false when there is no text track; the handler then fails before any change. */
    method ToggleCaptions() returns (ok: bool)
      requires Valid()
      modifies this
      ensures ok == old(captions).Some?
      ensures Valid() && Model() == PlayerModel.ToggleCaptions(old(Model()))
    {
      if captions == None {
        return false;
      }
      var isHidden := captions.value == Hidden;
      captions := Some(if isHidden then Showing else Hidden);
      captionsClass := isHidden;
      ok := true;
    }

    method ChangePlaybackSpeed()
      requires Valid()
      modifies this
      ensures Valid() && Model() == PlayerModel.ChangePlaybackSpeed(old(Model()))
    {
      var newRate := rateQuarters + 1;
      if newRate > 8 {
        newRate := 1;
      }
      rateQuarters := newRate;
      if paused {
        paused := false;
        pausedClass := false;
      }
    }

    method OnLoadedData()
      requires Valid()
      modifies this
      ensures Valid() && Model() == LoadedData(old(Model()))
    {
      sliderValue := volume;
      volumeLevel := Some(if volume >= 0.5 then High else Low);
      volumeListener := true;
    }

    method OnVolumeChange()
      requires Valid()
      modifies this
      ensures Valid() && Model() == VolumeChange(old(Model()))
    {
      if !volumeListener {
        return;
      }
      sliderValue := volume;
      var level;
      if muted || volume == 0.0 {
        sliderValue := 0.0;
        level := Muted;
      } else if volume >= 0.5 {
        level := High;
      } else {
        level := Low;
      }
      volumeLevel := Some(level);
    }

    method OnSliderInput(value: real)
      requires Valid() && 0.0 <= value <= 1.0
      modifies this
      ensures Valid() && Model() == SliderInput(old(Model()), value)
    {
      sliderValue := value;  // the user's drag moved the slider before `input` fired
      volume := value;
      muted := false;  // a string is never strictly equal to the number 0
    }

    method OnPlay()
      requires Valid()
      modifies this
      ensures Valid() && Model() == PlayerModel.OnPlay(old(Model()))
    {
      pausedClass := false;
      playingClass := true;
    }

    method OnPause()
      requires Valid()
      modifies this
      ensures Valid() && Model() == PlayerModel.OnPause(old(Model()))
    {
      pausedClass := true;
      playingClass := false;
    }

    method OnEnterPictureInPicture()
      requires Valid()
      modifies this
      ensures Valid() && Model() == PlayerModel.OnEnterPictureInPicture(old(Model()))
    {
      miniPlayerClass := true;
    }

    method OnLeavePictureInPicture()
      requires Valid()
      modifies this
      ensures Valid() && Model() == PlayerModel.OnLeavePictureInPicture(old(Model()))
    {
      miniPlayerClass := false;
    }

    /**
     * The pointer's place on the timeline as a fraction of its width, with
     * the offset clamped to the timeline. The script computes it and drops it.
     * On a timeline of width 0 the division is 0 / 0, which is NaN: `None`.
     */
    method HandleTimelineUpdate(x: real, left: real, width: real) returns (percent: Option<real>)
      requires width >= 0.0
      ensures width > 0.0 ==> percent == Some(TimelineFraction(x, left, width))
      ensures width == 0.0 ==> percent == None
    {
      var offset := x - left;
      if offset < 0.0 {
        offset := 0.0;
      }
      if offset > width {
        offset := width;
      }
      if width == 0.0 {
        return None;
      }
      percent := Some(offset / width);
    }

    /**
     * Starts a scrub on a press, ends it with a seek on a release. On a
     * timeline of width 0 the release's seek target is NaN; assigning it to
     * `currentTime` throws, so the handler stops after ending the scrub.
     */
    method ToggleScrubbing(isMouseDown: bool, x: real, left: real, width: real)
      requires Valid() && width >= 0.0
      modifies this
      ensures Valid()
      ensures Model() == if isMouseDown then MouseDown(old(Model())) else Release(old(Model()), x, left, width)
    {
      isScrubbing := isMouseDown;
      scrubbingClass := isScrubbing;
      if isScrubbing {
        if !paused {
          paused := true;
        }
      } else {
        if width == 0.0 {
          return;
        }
        var fraction := TimelineFraction(x, left, width);
        currentTime := fraction * duration;
        if !Truthy(wasPaused) {
          paused := false;
        }
      }
      var _ := HandleTimelineUpdate(x, left, width);
    }

    method OnTimelineMouseDown(x: real, left: real, width: real)
      requires Valid() && width >= 0.0
      modifies this
      ensures Valid() && Model() == MouseDown(old(Model()))
    {
      ToggleScrubbing(true, x, left, width);
    }

    method OnDocumentMouseUp(x: real, left: real, width: real)
      requires Valid() && width >= 0.0
      modifies this
      ensures Valid() && Model() == MouseUp(old(Model()), x, left, width)
    {
      if isScrubbing {
        ToggleScrubbing(false, x, left, width);
      }
    }

    /** A move over the timeline, or anywhere while scrubbing: the state stays as it was. */
    method OnMouseMove(x: real, left: real, width: real)
      requires width >= 0.0
      ensures Model() == MouseMove(old(Model()))
    {
      if isScrubbing {
        var _ := HandleTimelineUpdate(x, left, width);
      }
    }

    /** The `keydown` listener. Full screen and picture-in-picture requests go to the platform. */
    method OnKeyDown(tag: string, key: string)
      requires Valid()
      modifies this
      ensures Valid() && Model() == KeyDown(old(Model()), tag, key)
    {
      var command := Keyboard.Dispatch(tag, key);
      match command
      case None =>
      case Some(c) =>
        match c
        case TogglePlay => TogglePlay();
        case ToggleFullScreen =>
        case ToggleTheater => ToggleTheaterMode();
        case ToggleMiniPlayer =>
        case ToggleMute => ToggleMute();
        case Skip(seconds) => Skip(seconds);
        case ToggleCaptions => var _ := ToggleCaptions();
    }
  }

  /**
   * A usage check: a scrub, two mutes and a captions toggle, with every
   * assertion following from the methods' contracts alone.
   */
  method ScrubThenToggles(x: real)
  {
    var p := new Player(true, 120.0);
    p.OnTimelineMouseDown(x, 0.0, 100.0);
    assert p.paused && p.isScrubbing;
    p.OnMouseMove(x + 10.0, 0.0, 100.0);
    p.OnDocumentMouseUp(50.0, 0.0, 100.0);
    assert !p.paused && !p.isScrubbing && p.currentTime == 60.0;
    p.ToggleMute();
    p.ToggleMute();
    assert !p.muted;
    var ok := p.ToggleCaptions();
    assert ok && p.captions == Some(Showing) && p.captionsClass;
  }
}
