# Video player controller, modelled in Dafny

A model of the controller of a browser video player (`script.js`). The
controller binds the player's widgets to the page's media element. Every event
handler runs to completion on one thread. The model keeps the parts that carry
logic:

- the time label formatter `formatDuration`;
- the document-wide keyboard shortcuts;
- the scrub gesture on the timeline;
- the speed button, the captions, mute, theater and play toggles;
- the volume bucket set on `loadeddata` and on `volumechange`;
- the volume slider;
- the mirrors of the media element's `play`, `pause` and picture-in-picture events.

Files:

- `options.dfy`: the `Option` type. `None` stands for JavaScript's `undefined`.
- `duration.dfy` (module `Duration`): the formatter on whole seconds
  (`FormatDuration`) and on non-negative reals (`FormatSeconds`). It also has a
  reader for `M:SS` and `H:MM:SS` labels (`ParseDuration`) and the set of labels
  the formatter produces (`Canonical`). The formatter is proved to be a
  bijection between whole seconds and canonical labels.
- `keyboard.dfy` (module `Keyboard`): the `keydown` listener's decision. It
  maps the focused element's tag and the key to at most one command.
- `player_model.dfy` (module `PlayerModel`): the player's state as one value.
  Each handler is a transition function on it. Events are dispatched to
  handlers and run in sequence. The file also holds the invariant every
  handler keeps, and the properties of the scrub gesture, the speed cycle,
  the toggles and the volume bucket.
- `player.dfy` (module `Controller`): the class `Player`. Its fields are the
  media element's properties, the script's two module-level variables and the
  presentational flags. Its methods update those fields in place. Each method
  is proved to leave the fields exactly as the matching transition of
  `PlayerModel` says, and to keep the invariant.

Modelling choices:

- The playback rate is counted in quarter steps: a rate of `k / 4` is stored
  as `k`. Every rate the speed button produces is a multiple of 0.25, so this
  is exact.
- `play()` and `pause()` set `paused` at once. The `play`, `pause` and
  `volumechange` events that the media element fires afterwards are separate
  events, delivered whenever the platform delivers them.
- `wasPaused` is declared at `script.js:19` and never assigned. It stays
  `undefined`, so a release always resumes playback.
- The slider's value is a string. Its strict comparison with the number `0` is
  never true, so the slider always unmutes.
- Without a text track, `toggleCaptions` fails on its first read, before it
  writes anything. The transition leaves the state unchanged. The method
  returns `ok == false`.
- The `volumechange` listener exists only once `loadeddata` has run. The
  `volumeListener` flag records whether it is registered.
- The page's markup is not part of the model, so the start state assumes it:
  the container has no "paused" class and no volume-level attribute, and the
  slider stands at 1, the media element's default volume.
- Only the controller's handlers are transitions of `Step` and `Run`. The
  media element's own changes are not: playback advancing `currentTime`, and
  `paused` becoming true at the end of the media, from the picture-in-picture
  window or from media keys. Such changes reach the model only through the
  `play` and `pause` events they fire.
- `Controller.ScrubThenToggles` is a usage check. It drives a `Player` through
  a scrub, two mutes and a captions toggle, and asserts what the methods'
  contracts alone promise.

Where the code does something other than what a reader of its names and
comments would expect, the model follows the code:

- One would expect the slider to mute at value 0. The code compares a string
  with the number `0`, so it always unmutes.
- One would expect a scrub to resume playback only if the video was playing
  when it started, which is what a variable named `wasPaused` suggests. The
  code never assigns it, so every scrub ends by playing.
- One would expect a captions toggle without a track to do nothing. The code
  throws before changing anything. The model's state is unchanged either way,
  and the method reports the failure through its `ok` result.

## Model

| member | source | states |
|---|---|---|
| `Duration.Decimal` | script.js:181-184 | A whole number is written as a numeral without a superfluous leading zero that denotes the number. It is a single digit exactly when the number is below 10, and it contains no colon. |
| `Duration.DecimalOfValue` | script.js:181-184 | Conversely, writing out the value of any numeral without a leading zero gives that numeral back. |
| `Duration.TwoDigitsShape` | script.js:183-184 | A padded field below 60 is exactly two digits, denotes the field and has no colon. |
| `Duration.TwoDigitsOfValue` | script.js:184 | Every two-digit numeral is the padded writing of its own value, so a zero is added only below 10. |
| `Duration.FormatBelowHour` | script.js:176-187 | Below 3600 seconds the label is the unpadded minutes, a colon, then the seconds padded to two digits. |
| `Duration.FormatFromHour` | script.js:176-187 | From 3600 seconds on, the label is the hours, a colon, the minutes padded to two digits, a colon, then the padded seconds. |
| `Duration.FormatShape` | script.js:176-187 | Split at its colons, the label is `[t/60, t%60 padded]` below an hour and `[hours, minutes padded, seconds padded]` from an hour on. |
| `Duration.FieldsAddUp` | script.js:177-179 | The minutes field is below 60, and hours·3600 + minutes·60 + seconds gives back the number of seconds. |
| `Duration.FormatRoundTrip` | script.js:176-187 | Every label is canonical, has two fields below an hour and three from an hour on, and reads back to the seconds it was made from. |
| `Duration.CanonicalMinutes` | script.js:181-186 | A canonical `M:SS` label is what the formatter writes for the seconds it denotes. |
| `Duration.CanonicalHours` | script.js:181-186 | A canonical `H:MM:SS` label is what the formatter writes for the seconds it denotes. |
| `Duration.CanonicalIsFormatted` | script.js:176-187 | Every canonical label reads back to some number, and formatting that number gives the label. So the formatter maps onto exactly the canonical labels. |
| `Duration.Examples` | script.js:176-187 | 0 gives `0:00`, 59 gives `0:59`, 60 gives `1:00` and 3661 gives `1:01:01`. |
| `Duration.FloorOfQuotient` | script.js:177 | Flooring `time / d` for a non-negative real equals dividing the floor of `time` by `d`. |
| `Duration.RemainderOfFloor` | script.js:178-179 | `time % d` keeps the fractional part of `time`, and its floor is the floor of `time` modulo `d`. |
| `Duration.FlooredFields` | script.js:177-179 | The three floored fields of a non-negative real time are the fields of its floor. |
| `Duration.FormatSeconds` | script.js:176-187 | The formatter on a non-negative real time gives the label of its floor. |
| `Keyboard.LowerChar` | script.js:48 | The result is never a capital letter. A capital letter becomes a small letter, and every other character stays. |
| `Keyboard.LowerCharPairsLetters` | script.js:48 | Checked against the alphabet written out in both cases, each capital letter lower-cases to the small letter at the same place. |
| `Keyboard.Lower` | script.js:44-48 | Lower-casing keeps the length and lower-cases each character in place. |
| `Keyboard.LowerIdempotent` | script.js:44-48 | Lower-casing twice is lower-casing once. |
| `Keyboard.DispatchMatchesBindings` | script.js:43-78 | No command while an `input` has focus, or for a space on a focused `button`. Otherwise a bound key gives the command the shortcut table binds it to (space and `k` play or pause, `j`/`arrowleft` skip −5, `l`/`arrowright` skip +5, and so on), and every other key gives none. |
| `Keyboard.KeyCaseIgnored` | script.js:48 | The decision does not depend on the key's case. |
| `Keyboard.TagCaseIgnored` | script.js:44 | The decision does not depend on the tag's case. |
| `Keyboard.TypingInInputIgnored` | script.js:46 | Typing `k` into an `INPUT` gives no command. |
| `Keyboard.UpperCaseShortcut` | script.js:48-53 | `K` plays or pauses like `k`. |
| `Keyboard.SpaceOnButtonIgnored` | script.js:49-53 | A space gives no command on a focused `BUTTON` and plays or pauses on a focused `DIV`. |
| `Keyboard.SpaceFallsThrough` | script.js:49-53 | On any focused element other than an `input` or a `button`, whatever its case, a space falls through to play or pause. |
| `PlayerModel.Initial` | script.js:132-136 | The start state satisfies the invariant. It is paused and not scrubbing, at rate 1.0, with an existing track set to hidden. |
| `PlayerModel.ToggleCaptions` | script.js:141-145 | The captions toggle keeps the invariant. The "captions" class stays true exactly when the track is showing. |
| `PlayerModel.CaptionsToggleTwice` | script.js:141-145 | With a track, the mode swaps and the "captions" class follows the new mode. Toggling twice restores the state. |
| `PlayerModel.NextRate` | script.js:119-121 | The next rate is the old rate plus 0.25, or 0.25 when that sum exceeds 2.0. It stays within 0.25 to 2.0. |
| `PlayerModel.RateAfterClicks` | script.js:118-121 | After `n` clicks a rate of `k` quarters becomes `(k − 1 + n) mod 8 + 1` quarters. |
| `PlayerModel.RateCycle` | script.js:118-121 | Eight clicks bring the rate back, and no smaller positive number of clicks does. |
| `PlayerModel.ChangePlaybackSpeed` | script.js:118-129 | After a speed change the video is playing, and the invariant is kept. |
| `PlayerModel.SpeedChangePlays` | script.js:118-129 | A speed change plays a paused video and clears the "paused" class, and wraps 2.0 to 0.25. |
| `PlayerModel.InitialLevel` | script.js:151-152 | The bucket on load is never "muted". It is "high" exactly when the volume is at least 0.5. |
| `PlayerModel.LevelOf` | script.js:156-164 | The bucket is "muted" exactly when muted or at volume 0. It is "high" exactly when unmuted and at volume 0.5 or more. It is "low" exactly when unmuted and at a volume above 0 and below 0.5. |
| `PlayerModel.VolumeChangeBucket` | script.js:154-167 | Once the listener is registered, a volume change sets the bucket from the muted flag and the volume. A "muted" bucket shows an empty slider. Volume and muted flag are untouched. |
| `PlayerModel.SliderInput` | script.js:195-198 | After the user drags the slider to a value, the slider stands there, the volume equals it, and the video is always unmuted, keeping the invariant. |
| `PlayerModel.SliderStaysPut` | script.js:195-198 | A slider drag followed by the `volumechange` it causes (heard by the handler at lines 157-168 or not) leaves the slider where it was dragged and the volume equal to it. |
| `PlayerModel.SliderToZero` | script.js:195-198 | Dragging the slider to 0 leaves the video unmuted. The next volume change still shows the "muted" bucket and an empty slider. |
| `PlayerModel.TimelineFraction` | script.js:92 | The clamped position lies in [0, 1]. It is 0 left of the timeline and 1 right of it. In between, fraction × width is the offset from the left edge. |
| `PlayerModel.MouseDown` | script.js:93-99 | A press on the timeline starts a scrub and leaves the video paused, keeping the invariant. |
| `PlayerModel.Release` | script.js:90-105 | A release ends the scrub. On a timeline of positive width it seeks to the release point times the duration and always leaves the video playing, because `wasPaused` is never set. On a timeline of width 0 the seek target is NaN, the assignment throws, and neither the time nor `paused` changes. It keeps the invariant. |
| `PlayerModel.MouseUp` | script.js:83-85 | A `mouseup` anywhere leaves no scrub in progress and keeps the invariant. |
| `PlayerModel.ReleaseWithoutScrub` | script.js:83-85 | A `mouseup` with no scrub in progress changes nothing, whatever the timeline's width. |
| `PlayerModel.CollapsedRelease` | script.js:90-105 | A press and a release over a timeline of width 0 end the scrub and clear its class, but leave the video paused at the time it had. |
| `PlayerModel.MovesChangeNothing` | script.js:110-113 | Any number of pointer moves leaves the state unchanged: nothing is seeked before the release. |
| `PlayerModel.ScrubGesture` | script.js:82-108 | A press, any moves and a release seek exactly once, to the release point times the duration. They leave the video playing whether or not it was paused before. Nothing else changes. |
| `PlayerModel.MuteTwice` | script.js:200-202 | Muting flips `muted` and is its own inverse. |
| `PlayerModel.TheaterTwice` | script.js:209-211 | Theater mode flips its class and is its own inverse. |
| `PlayerModel.PlayTwice` | script.js:244-251 | The toggle plays when paused and pauses otherwise, changes nothing else, and is its own inverse. |
| `PlayerModel.KeysIgnoredWhileTyping` | script.js:43-46 | No key changes the state while an `input` has focus. |
| `PlayerModel.ApplyKeepsInv` | script.js:48-77 | Every shortcut command keeps the invariant. |
| `PlayerModel.KeyDownKeepsInv` | script.js:43-78 | Every key press keeps the invariant. |
| `PlayerModel.PointerKeepsInv` | script.js:81-88 | Every mouse event keeps the invariant. |
| `PlayerModel.ClickKeepsInv` | script.js:116-251 | Every click on the speed, captions, mute and theater buttons and on the video keeps the invariant. |
| `PlayerModel.MediaKeepsInv` | script.js:148-261 | Every modelled media event keeps the invariant. |
| `PlayerModel.StepKeepsInv` | script.js:43-261 | Every handler keeps the invariant. |
| `PlayerModel.RunKeepsInv` | script.js:43-261 | Every sequence of handlers, each run to completion, keeps the invariant. |
| `Controller.Player.constructor` | script.js:132-136 | The fields start as the model's initial state, with an existing track set to hidden. |
| `Controller.Player.TogglePlay` | script.js:244-251 | Updates `paused` as the play toggle of the model does. |
| `Controller.Player.Skip` | script.js:189-191 | Moves `currentTime` by the given seconds. |
| `Controller.Player.ToggleMute` | script.js:200-202 | Flips `muted`, as the model's mute toggle. |
| `Controller.Player.ToggleTheaterMode` | script.js:209-211 | Flips the theater class. |
| `Controller.Player.ToggleCaptions` | script.js:141-145 | Reports whether a track exists. If one does, it swaps the mode and sets the class as the model does; if not, it changes nothing. |
| `Controller.Player.ChangePlaybackSpeed` | script.js:118-129 | Steps the rate and resumes a paused video, as the model does. |
| `Controller.Player.OnLoadedData` | script.js:148-153 | Sets the slider and the bucket from the volume and registers the volume listener. |
| `Controller.Player.OnVolumeChange` | script.js:154-167 | Updates the slider and the bucket as the model does, and only once the listener is registered. |
| `Controller.Player.OnSliderInput` | script.js:195-198 | Records the dragged slider position, sets the volume to it and unmutes. |
| `Controller.Player.OnPlay` | script.js:253-256 | Clears the "paused" class and sets the "playing" class. |
| `Controller.Player.OnPause` | script.js:258-261 | Sets the "paused" class and clears the "playing" class. |
| `Controller.Player.OnEnterPictureInPicture` | script.js:233-235 | Sets the mini-player class. |
| `Controller.Player.OnLeavePictureInPicture` | script.js:237-239 | Clears the mini-player class. |
| `Controller.Player.HandleTimelineUpdate` | script.js:110-113 | On a timeline of positive width it computes the clamped position, equal to the model's `TimelineFraction`. On a timeline of width 0 it gives no number, as JavaScript's 0 / 0 is NaN. It changes no field. |
| `Controller.Player.ToggleScrubbing` | script.js:90-108 | A press starts a scrub and pauses. A release seeks and plays, or on a timeline of width 0 stops at the throwing seek. The fields end exactly as the model's `MouseDown` or `Release` leaves them. |
| `Controller.Player.OnTimelineMouseDown` | script.js:82 | A press on the timeline starts a scrub, as the model's `MouseDown`. |
| `Controller.Player.OnDocumentMouseUp` | script.js:83-85 | A `mouseup` releases a scrub in progress and is ignored otherwise. |
| `Controller.Player.OnMouseMove` | script.js:81-88 | A move over the timeline, or anywhere while a scrub is in progress, leaves the state as the model's `MouseMove` does: unchanged. |
| `Controller.Player.OnKeyDown` | script.js:43-78 | Runs the handler of the command the keyboard dispatch chooses, keeping the invariant. |

## Left out

- File loading (`script.js:23-41`): object URLs, `load()` and autoplay are I/O against the browser, and `loadVideo` is never called.
- Full screen and picture-in-picture requests and exits (`script.js:213-227`) and the `fullscreenchange` listener (`script.js:229-231`). These are platform calls whose outcome arrives later. The keyboard model dispatches these commands. Full-screen state is not modelled at all; picture-in-picture state arrives through the enter and leave events.
- The `canplaythrough` autoplay (`script.js:263-265`), rejected `play()` promises and `console.log`.
- DOM lookups, `getBoundingClientRect` (the timeline's left edge and width are parameters), the `timeupdate` progress property (`script.js:170-174`), and the text written into the time labels and the speed button, including the `${rate}x` label. The labels' content is `FormatDuration` and `FormatSeconds`.
- `Controller.Player.Skip`: does not model the clamping of `currentTime` to the media's bounds, because the media element does that out of sight.
- `PlayerModel.NextRate`: models only rates that are a whole number of quarters, the only rates this script sets. A rate set by other means, such as 1.1, is not represented.
- `Duration.FormatSeconds`: requires a non-negative time. NaN and infinite durations before load, and IEEE-754 rounding of `percent * duration`, are replaced by exact reals.
- `Duration.Decimal`: writes every whole number in plain digits. JavaScript writes numbers of 1e21 or more in exponent form (`1e+21`), and above 2^53 seconds the fields lose precision. No real duration comes near either bound.
- `Keyboard.Lower`: lower-cases ASCII letters only, not the full Unicode case mapping of `toLowerCase`.
- `Keyboard.LowerChar`: maps ASCII capitals only. Under `toLowerCase` some other characters become ASCII letters too, such as the Kelvin sign U+212A becoming `k`, so that key toggles play in the script but is ignored by the model.
- `PlayerModel.TimelineFraction`: requires a timeline of positive width. With width 0 the script divides 0 by 0. A press or a move then drops the NaN. A release assigns NaN to `currentTime`, which throws a TypeError after the scrub has ended, so there is no seek and no `play()`; `Release` models that case.
- A second `loadeddata` adds a second `volumechange` listener. Both do the same thing, so the model keeps a single flag.
