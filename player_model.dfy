/**
 * The state of the player as one value, and each event handler of the
 * controller as a function from the state before the event to the state after
 * it. The state holds the media element's properties, the controller's two
 * variables and the presentational flags (the CSS classes of the container and
 * of the play button, the `volumeLevel` data attribute and the slider's value).
 *
 * The media element is abstracted: `play()` and `pause()` set `paused` at once,
 * and the `play`/`pause`/`volumechange` events it would fire afterwards are
 * separate events, delivered whenever the platform delivers them.
 */
module PlayerModel {
  import opened Options
  import Keyboard

  datatype TrackMode = Hidden | Showing

  datatype VolumeLevel = Muted | Low | High

  datatype State = State(
    // media element
    paused: bool,
    muted: bool,
    volume: real,
    rateQuarters: int,        // playbackRate == rateQuarters / 4
    currentTime: real,
    duration: real,
    captions: Option<TrackMode>, // mode of the first text track, if there is one
    // controller variables
    isScrubbing: bool,
    wasPaused: Option<bool>,  // None stands for `undefined`
    // presentational flags
    pausedClass: bool,        // "paused" on the container
    playingClass: bool,       // "playing" on the play/pause button
    theaterClass: bool,
    captionsClass: bool,
    miniPlayerClass: bool,
    scrubbingClass: bool,
    volumeLevel: Option<VolumeLevel>,
    sliderValue: real,
    volumeListener: bool      // the volumechange listener is registered
  )

  /** The playback rate as a number, from its count of quarter steps. */
  function Rate(quarters: int): real { quarters as real / 4.0 }

  /** What every reachable state satisfies. */
  predicate Inv(s: State)
  {
    1 <= s.rateQuarters <= 8 &&
    0.0 <= s.volume <= 1.0 &&
    s.duration >= 0.0 &&
    s.wasPaused == None &&
    s.scrubbingClass == s.isScrubbing &&
    s.captionsClass == (s.captions == Some(Showing))
  }

  /**
   * The state when the script has run: a media element with its defaults
   * (paused, unmuted, full volume, rate 1.0) and, when the video has a text
   * track, its mode set to hidden.
   */
  function Initial(hasTrack: bool, duration: real): (s: State)
    requires duration >= 0.0
    ensures Inv(s)
    ensures s.paused && !s.isScrubbing && Rate(s.rateQuarters) == 1.0
    ensures s.captions == (if hasTrack then Some(Hidden) else None)
  {
    State(
      paused := true, muted := false, volume := 1.0, rateQuarters := 4,
      currentTime := 0.0, duration := duration,
      captions := if hasTrack then Some(Hidden) else None,
      isScrubbing := false, wasPaused := None,
      pausedClass := false, playingClass := false, theaterClass := false,
      captionsClass := false, miniPlayerClass := false, scrubbingClass := false,
      volumeLevel := None, sliderValue := 1.0, volumeListener := false)
  }

  // ---------------------------------------------------------------------------
  // Playback commands
  // ---------------------------------------------------------------------------

  function TogglePlay(s: State): State
  {
    // play() when paused, pause() otherwise
    s.(paused := if s.paused then false else true)
  }

  /** Seeking by a number of seconds; the media element's own clamping is not modelled. */
  function Skip(s: State, seconds: int): State
  {
    s.(currentTime := s.currentTime + seconds as real)
  }

  function ToggleMute(s: State): State
  {
    s.(muted := !s.muted)
  }

  function ToggleTheater(s: State): State
  {
    s.(theaterClass := !s.theaterClass)
  }

  /**
   * Swaps the track between hidden and showing and sets the "captions" class
   * when it was hidden. Without a track the handler fails on its first read,
   * before changing anything.
   */
  function ToggleCaptions(s: State): (t: State)
    ensures Inv(s) ==> Inv(t)
  {
    match s.captions
    case None => s
    case Some(mode) =>
      var isHidden := mode == Hidden;
      s.(captions := Some(if isHidden then Showing else Hidden), captionsClass := isHidden)
  }

  /** One click on the speed button, in quarter steps: 0.25 more, or back to 0.25 above 2.0. */
  function NextRate(quarters: int): (next: int)
    ensures Rate(next) == if Rate(quarters) + 0.25 > 2.0 then 0.25 else Rate(quarters) + 0.25
    ensures 1 <= quarters <= 8 ==> 1 <= next <= 8
  {
    var candidate := quarters + 1;
    if candidate > 8 then 1 else candidate
  }

  /** The rate after `n` clicks on the speed button. */
  function RateAfter(quarters: int, n: nat): int
    decreases n
  {
    if n == 0 then quarters else RateAfter(NextRate(quarters), n - 1)
  }

  /** Changing the speed also resumes a paused video and clears the "paused" class. */
  function ChangePlaybackSpeed(s: State): (t: State)
    ensures !t.paused
    ensures Inv(s) ==> Inv(t)
  {
    s.(rateQuarters := NextRate(s.rateQuarters),
       paused := false,
       pausedClass := if s.paused then false else s.pausedClass)
  }

  // ---------------------------------------------------------------------------
  // Volume
  // ---------------------------------------------------------------------------

  /** The volume bucket shown on load: only high or low. */
  function InitialLevel(volume: real): (level: VolumeLevel)
    ensures level != Muted
    ensures level == High <==> volume >= 0.5
  {
    if volume >= 0.5 then High else Low
  }

  /** The volume bucket recomputed on every volume change. */
  function LevelOf(muted: bool, volume: real): (level: VolumeLevel)
    ensures level == Muted <==> muted || volume == 0.0
    ensures level == High <==> !muted && volume != 0.0 && volume >= 0.5
    ensures level == Low <==> !muted && volume != 0.0 && volume < 0.5
  {
    if muted || volume == 0.0 then Muted
    else if volume >= 0.5 then High
    else Low
  }

  /** `loadeddata`: the slider and the bucket follow the volume, and the volumechange listener is added. */
  function LoadedData(s: State): State
  {
    s.(sliderValue := s.volume, volumeLevel := Some(InitialLevel(s.volume)), volumeListener := true)
  }

  /** `volumechange`: only heard once `loadeddata` has added the listener. */
  function VolumeChange(s: State): State
  {
    if !s.volumeListener then s
    else
      var level := LevelOf(s.muted, s.volume);
      s.(sliderValue := if level == Muted then 0.0 else s.volume, volumeLevel := Some(level))
  }

  /**
   * Input on the volume slider. The user's drag has already moved the slider
   * to `value` when the handler runs. The slider's value is a string, so its
   * strict comparison with the number 0 never holds and the video is always
   * unmuted.
   */
  function SliderInput(s: State, value: real): (t: State)
    requires 0.0 <= value <= 1.0
    ensures t.sliderValue == value && t.volume == value && !t.muted
    ensures Inv(s) ==> Inv(t)
  {
    var valueIsNumberZero := false;
    s.(sliderValue := value, volume := value, muted := valueIsNumberZero)
  }

  // ---------------------------------------------------------------------------
  // Mirrors of the media element's events
  // ---------------------------------------------------------------------------

  function OnPlay(s: State): State
  {
    s.(pausedClass := false, playingClass := true)
  }

  function OnPause(s: State): State
  {
    s.(pausedClass := true, playingClass := false)
  }

  function OnEnterPictureInPicture(s: State): State
  {
    s.(miniPlayerClass := true)
  }

  function OnLeavePictureInPicture(s: State): State
  {
    s.(miniPlayerClass := false)
  }

  // ---------------------------------------------------------------------------
  // Scrubbing
  // ---------------------------------------------------------------------------

  /** Where on the timeline the pointer is, as a fraction of its width. */
  function TimelineFraction(x: real, left: real, width: real): (fraction: real)
    requires width > 0.0
    ensures 0.0 <= fraction <= 1.0
    ensures x <= left ==> fraction == 0.0
    ensures x >= left + width ==> fraction == 1.0
    ensures left <= x <= left + width ==> fraction * width == x - left
  {
    var offset := if 0.0 >= x - left then 0.0 else x - left;
    var clamped := if offset <= width then offset else width;
    clamped / width
  }

  /** How the player reads a variable as a condition: `undefined` is false. */
  function Truthy(b: Option<bool>): bool
  {
    match b
    case None => false
    case Some(v) => v
  }

  /** `mousedown` on the timeline starts a scrub and pauses a playing video. */
  function MouseDown(s: State): (t: State)
    ensures t.isScrubbing && t.paused
    ensures Inv(s) ==> Inv(t)
  {
    // `pause()` is called only when playing; either way the video ends up paused
    s.(isScrubbing := true, scrubbingClass := true, paused := true)
  }

  /** `mousemove`: the position is computed and dropped, so nothing changes. */
  function MouseMove(s: State): State
  {
    s
  }

  /**
   * The release half of `toggleScrubbing`: seek once to the pointer's place
   * and resume unless `wasPaused` holds, which it never does. On a timeline
   * of width 0 the seek target is 0/0, and assigning that NaN to
   * `currentTime` throws: the scrub has ended by then, but there is neither
   * a seek nor a `play()`.
   */
  function Release(s: State, x: real, left: real, width: real): (t: State)
    requires width >= 0.0
    ensures !t.isScrubbing && !t.scrubbingClass
    ensures width > 0.0 ==> t.currentTime == TimelineFraction(x, left, width) * s.duration
    ensures width > 0.0 && Inv(s) ==> !t.paused
    ensures width == 0.0 ==> t.currentTime == s.currentTime && t.paused == s.paused
    ensures Inv(s) ==> Inv(t)
  {
    if width == 0.0 then
      s.(isScrubbing := false, scrubbingClass := false)
    else
      var fraction := TimelineFraction(x, left, width);
      s.(isScrubbing := false, scrubbingClass := false,
         currentTime := fraction * s.duration,
         paused := if !Truthy(s.wasPaused) then false else s.paused)
  }

  /** `mouseup` anywhere releases a scrub in progress and is ignored otherwise. */
  function MouseUp(s: State, x: real, left: real, width: real): (t: State)
    requires width >= 0.0
    ensures !t.isScrubbing
    ensures Inv(s) ==> Inv(t)
  {
    if s.isScrubbing then Release(s, x, left, width) else s
  }

  // ---------------------------------------------------------------------------
  // Keyboard
  // ---------------------------------------------------------------------------

  /**
   * A shortcut's effect. Full screen and picture-in-picture are requests to
   * the platform; their outcome arrives later as events.
   */
  function Apply(s: State, command: Keyboard.Command): State
  {
    match command
    case TogglePlay => TogglePlay(s)
    case ToggleFullScreen => s
    case ToggleTheater => ToggleTheater(s)
    case ToggleMiniPlayer => s
    case ToggleMute => ToggleMute(s)
    case Skip(seconds) => Skip(s, seconds)
    case ToggleCaptions => ToggleCaptions(s)
  }

  function KeyDown(s: State, tag: string, key: string): State
  {
    match Keyboard.Dispatch(tag, key)
    case None => s
    case Some(command) => Apply(s, command)
  }

  // ---------------------------------------------------------------------------
  // Events
  // ---------------------------------------------------------------------------

  /** The mouse on the timeline (press) and on the document (move, release). */
  datatype PointerEvent =
    | TimelineMouseDown
    | PointerMove
    | PointerUp(x: real, left: real, width: real)

  /** The clickable controls. */
  datatype Button = SpeedButton | CaptionsButton | MuteButton | TheaterButton | VideoSurface

  /** The media element's events modelled here; `timeupdate` and `canplaythrough` are not. */
  datatype MediaEvent =
    | LoadedDataEvent
    | VolumeChangeEvent
    | PlayEvent
    | PauseEvent
    | EnterPictureInPictureEvent
    | LeavePictureInPictureEvent

  /** Every modelled event the controller listens to. */
  datatype Event =
    | KeyPress(tag: string, key: string)
    | Pointer(pointer: PointerEvent)
    | Click(button: Button)
    | SliderChange(value: real)
    | Media(media: MediaEvent)

  /** What the platform guarantees of an event: a rectangle of non-negative width, a slider value in range. */
  predicate WellFormed(e: Event)
  {
    match e
    case Pointer(PointerUp(_, _, width)) => width >= 0.0
    case SliderChange(value) => 0.0 <= value <= 1.0
    case _ => true
  }

  predicate AllWellFormed(events: seq<Event>)
  {
    forall i :: 0 <= i < |events| ==> WellFormed(events[i])
  }

  function PointerStep(s: State, p: PointerEvent): State
    requires p.PointerUp? ==> p.width >= 0.0
  {
    match p
    case TimelineMouseDown => MouseDown(s)
    case PointerMove => MouseMove(s)
    case PointerUp(x, left, width) => MouseUp(s, x, left, width)
  }

  function ClickStep(s: State, b: Button): State
  {
    match b
    case SpeedButton => ChangePlaybackSpeed(s)
    case CaptionsButton => ToggleCaptions(s)
    case MuteButton => ToggleMute(s)
    case TheaterButton => ToggleTheater(s)
    case VideoSurface => TogglePlay(s)
  }

  function MediaStep(s: State, m: MediaEvent): State
  {
    match m
    case LoadedDataEvent => LoadedData(s)
    case VolumeChangeEvent => VolumeChange(s)
    case PlayEvent => OnPlay(s)
    case PauseEvent => OnPause(s)
    case EnterPictureInPictureEvent => OnEnterPictureInPicture(s)
    case LeavePictureInPictureEvent => OnLeavePictureInPicture(s)
  }

  /** The handler an event runs. */
  function Step(s: State, e: Event): State
    requires WellFormed(e)
  {
    match e
    case KeyPress(tag, key) => KeyDown(s, tag, key)
    case Pointer(p) => PointerStep(s, p)
    case Click(b) => ClickStep(s, b)
    case SliderChange(value) => SliderInput(s, value)
    case Media(m) => MediaStep(s, m)
  }

  /** Handlers run one after another, each to completion. */
  function Run(s: State, events: seq<Event>): State
    requires AllWellFormed(events)
    decreases |events|
  {
    if |events| == 0 then s else Run(Step(s, events[0]), events[1..])
  }

  // ---------------------------------------------------------------------------
  // Properties
  // ---------------------------------------------------------------------------

  lemma ApplyKeepsInv(s: State, command: Keyboard.Command)
    requires Inv(s)
    ensures Inv(Apply(s, command))
  {
  }

  lemma KeyDownKeepsInv(s: State, tag: string, key: string)
    requires Inv(s)
    ensures Inv(KeyDown(s, tag, key))
  {
    var command := Keyboard.Dispatch(tag, key);
    if command.Some? {
      ApplyKeepsInv(s, command.value);
    }
  }

  lemma PointerKeepsInv(s: State, p: PointerEvent)
    requires Inv(s) && (p.PointerUp? ==> p.width >= 0.0)
    ensures Inv(PointerStep(s, p))
  {
  }

  lemma ClickKeepsInv(s: State, b: Button)
    requires Inv(s)
    ensures Inv(ClickStep(s, b))
  {
  }

  lemma MediaKeepsInv(s: State, m: MediaEvent)
    requires Inv(s)
    ensures Inv(MediaStep(s, m))
  {
  }

  /** Every handler keeps the invariant. */
  lemma StepKeepsInv(s: State, e: Event)
    requires Inv(s) && WellFormed(e)
    ensures Inv(Step(s, e))
  {
    match e
    case KeyPress(tag, key) => KeyDownKeepsInv(s, tag, key);
    case Pointer(p) => PointerKeepsInv(s, p);
    case Click(b) => ClickKeepsInv(s, b);
    case SliderChange(value) =>
    case Media(m) => MediaKeepsInv(s, m);
  }

  /** So does every sequence of handlers, from the initial state on. */
  lemma {:induction false} RunKeepsInv(s: State, events: seq<Event>)
    requires Inv(s) && AllWellFormed(events)
    ensures Inv(Run(s, events))
    decreases |events|
  {
    if |events| > 0 {
      StepKeepsInv(s, events[0]);
      RunKeepsInv(Step(s, events[0]), events[1..]);
    }
  }

  lemma {:induction false} RunAppend(s: State, first: seq<Event>, second: seq<Event>)
    requires AllWellFormed(first) && AllWellFormed(second)
    ensures AllWellFormed(first + second)
    ensures Run(s, first + second) == Run(Run(s, first), second)
    decreases |first|
  {
    if |first| == 0 {
      assert first + second == second;
    } else {
      assert (first + second)[0] == first[0];
      assert (first + second)[1..] == first[1..] + second;
      RunAppend(Step(s, first[0]), first[1..], second);
    }
  }

  /** No number of pointer moves changes anything: there is no seek before release. */
  lemma {:induction false} MovesChangeNothing(s: State, moves: seq<Event>)
    requires forall i :: 0 <= i < |moves| ==> moves[i] == Pointer(PointerMove)
    ensures AllWellFormed(moves)
    ensures Run(s, moves) == s
    decreases |moves|
  {
    if |moves| > 0 {
      MovesChangeNothing(s, moves[1..]);
    }
  }

  lemma RunOne(s: State, e: Event)
    requires WellFormed(e)
    ensures AllWellFormed([e]) && Run(s, [e]) == Step(s, e)
  {
    assert [e][1..] == [];
  }

  /**
   * A whole scrub gesture (press on the timeline, any moves, release) seeks
   * exactly once, to the release point, and always leaves the video playing,
   * whether or not it was paused before; nothing else changes.
   */
  lemma ScrubGesture(s: State, moves: seq<Event>, x: real, left: real, width: real)
    requires Inv(s) && !s.isScrubbing && width > 0.0
    requires forall i :: 0 <= i < |moves| ==> moves[i] == Pointer(PointerMove)
    ensures var events := [Pointer(TimelineMouseDown)] + moves + [Pointer(PointerUp(x, left, width))];
      AllWellFormed(events) &&
      Run(s, events) == s.(paused := false, currentTime := TimelineFraction(x, left, width) * s.duration)
  {
    var down, up := [Pointer(TimelineMouseDown)], [Pointer(PointerUp(x, left, width))];
    var pressed := MouseDown(s);
    RunOne(s, Pointer(TimelineMouseDown));
    RunOne(pressed, Pointer(PointerUp(x, left, width)));
    MovesChangeNothing(pressed, moves);
    RunAppend(s, down, moves);
    RunAppend(s, down + moves, up);
    assert Run(s, down + moves) == pressed;
    assert pressed.isScrubbing && pressed.wasPaused == None;
  }

  /** A release with no scrub in progress does nothing. */
  lemma ReleaseWithoutScrub(s: State, x: real, left: real, width: real)
    requires width >= 0.0 && !s.isScrubbing
    ensures MouseUp(s, x, left, width) == s
  {
  }

  /**
   * A release over a collapsed timeline ends the scrub but neither seeks nor
   * resumes: a scrub begun on a playing video leaves it paused.
   */
  lemma CollapsedRelease(s: State, x: real, left: real)
    requires Inv(s) && !s.isScrubbing
    ensures var t := MouseUp(MouseDown(s), x, left, 0.0);
      !t.isScrubbing && !t.scrubbingClass && t.paused && t.currentTime == s.currentTime
  {
  }

  /** Muting is its own inverse. */
  lemma MuteTwice(s: State)
    ensures ToggleMute(s).muted == !s.muted
    ensures ToggleMute(ToggleMute(s)) == s
  {
  }

  /** Theater mode is its own inverse. */
  lemma TheaterTwice(s: State)
    ensures ToggleTheater(s).theaterClass == !s.theaterClass
    ensures ToggleTheater(ToggleTheater(s)) == s
  {
  }

  /** Playing when paused and pausing otherwise; twice restores the state. */
  lemma PlayTwice(s: State)
    ensures TogglePlay(s) == s.(paused := !s.paused)
    ensures TogglePlay(TogglePlay(s)) == s
  {
  }

  /** With a track, toggling captions twice restores the state; the class follows the mode. */
  lemma CaptionsToggleTwice(s: State)
    requires Inv(s) && s.captions.Some?
    ensures ToggleCaptions(s).captionsClass == (ToggleCaptions(s).captions == Some(Showing))
    ensures ToggleCaptions(s).captions != s.captions
    ensures ToggleCaptions(ToggleCaptions(s)) == s
  {
  }

  /** The speed button cycles through the eight rates 0.25, 0.5, ..., 2.0. */
  lemma {:induction false} RateAfterClicks(quarters: int, n: nat)
    requires 1 <= quarters <= 8
    ensures RateAfter(quarters, n) == (quarters - 1 + n) % 8 + 1
    decreases n
  {
    if n > 0 {
      var next := NextRate(quarters);
      RateAfterClicks(next, n - 1);
      assert next - 1 == quarters % 8;
      assert (quarters % 8 + (n - 1)) % 8 == (quarters - 1 + n) % 8 by {
        if quarters == 8 {
          assert quarters % 8 + (n - 1) == (quarters - 1 + n) - 8;
        }
      }
    }
  }

  /** After eight clicks the rate is back where it started. */
  lemma RateCycle(quarters: int)
    requires 1 <= quarters <= 8
    ensures RateAfter(quarters, 8) == quarters
    ensures forall n: nat :: 0 < n < 8 ==> RateAfter(quarters, n) != quarters
  {
    RateAfterClicks(quarters, 8);
    forall n: nat | 0 < n < 8
      ensures RateAfter(quarters, n) != quarters
    {
      RateAfterClicks(quarters, n);
    }
  }

  /** Changing the speed always leaves the video playing. */
  lemma SpeedChangePlays(s: State)
    requires Inv(s)
    ensures !ChangePlaybackSpeed(s).paused
    ensures s.paused ==> !ChangePlaybackSpeed(s).pausedClass
    ensures Inv(ChangePlaybackSpeed(s))
    ensures s.rateQuarters == 8 ==> ChangePlaybackSpeed(s).rateQuarters == 1
  {
  }

  /** The slider never mutes, yet dragging it to zero still shows the muted bucket and an empty slider. */
  lemma SliderToZero(s: State)
    requires s.volumeListener
    ensures !SliderInput(s, 0.0).muted
    ensures VolumeChange(SliderInput(s, 0.0)).volumeLevel == Some(Muted)
    ensures VolumeChange(SliderInput(s, 0.0)).sliderValue == 0.0
  {
  }

  /**
   * The slider stays where it was dragged, whether or not the `volumechange`
   * that follows is heard: its bucket is "muted" only at 0, where the slider
   * already stands.
   */
  lemma SliderStaysPut(s: State, value: real)
    requires 0.0 <= value <= 1.0
    ensures VolumeChange(SliderInput(s, value)).sliderValue == value
    ensures VolumeChange(SliderInput(s, value)).volume == value
  {
  }

  /** After a volume change is heard, a muted bucket always shows an empty slider. */
  lemma VolumeChangeBucket(s: State)
    requires s.volumeListener
    ensures var t := VolumeChange(s);
      t.volumeLevel == Some(LevelOf(s.muted, s.volume)) &&
      (t.volumeLevel == Some(Muted) <==> t.sliderValue == 0.0 || s.muted) &&
      t.volume == s.volume && t.muted == s.muted
  {
  }

  /** No key does anything while an `input` has focus. */
  lemma KeysIgnoredWhileTyping(s: State, tag: string, key: string)
    requires Keyboard.Lower(tag) == "input"
    ensures KeyDown(s, tag, key) == s
  {
  }
}
