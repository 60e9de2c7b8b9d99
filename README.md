# RIVL overlay timeline, letterboxing and playback bookkeeping in Dafny

RIVL.py is a PyQt6 tool for previewing a TVC (television commercial) video
with a logo overlay on top. It plays the video letterboxed in a graphics
view. A 16 ms timer runs `update_ui`, which animates the logo with four
phases:

- for the first two seconds it grows from 0.8 to full size while blending
  towards white;
- it holds at full size until four seconds;
- it fades out by a cubic curve until five seconds;
- it is hidden after that.

The player callbacks keep a 0..1000 position slider and an `HH:MM:SS` label
in step with the media position.

This project models that arithmetic and that state, and proves:

- the animation's phases, bounds, endpoints and "unchanged field" facts;
- that the logo stays centred;
- the letterbox geometry;
- the unit conversions of the playback widgets.

The model has six modules:

- `Wrappers`: `Option`, and a `Result` that is either a value or a raised
  Python exception (only `ZeroDivisionError` occurs).
- `Easing`: the three curves, as functions on `real`:
  - the quadratic ease-in-out of the scale-in phase;
  - the smoothstep inside `set_scale_progress`;
  - the cubic ease-out of the fade.
- `Geometry`: the letterbox fit of `fit_video_view`. It also has Qt's
  `qRound` and the rounding of `QSize * qreal`, which
  `update_overlay_position` uses, and the corner that centres a scaled
  pixmap.
- `Playback`: integer and real versions of the millisecond arithmetic. This
  covers the slider value, the slider's seek target, whole seconds, the
  clock decomposition and Python's `f"{n:02}"`.
- `Overlay`: the state of an `AnimatedOverlayItem` as a datatype, one
  animation step of `update_ui` on it as pure functions (one per phase),
  and the class `AnimatedOverlayItem` whose methods are proved against
  those functions.
- `App`: the state of the window as a `Scene` datatype:
  - the view size;
  - the video item;
  - the stored `overlay_center`, absent until `center_overlay_item` first
    runs, which models the source's `hasattr` test;
  - the overlay.

  Its pure functions are `fit_video_view`, `center_overlay_item`,
  `update_overlay_position` and `update_ui`. It also has the class
  `AudiTvcApp`, whose callbacks each ensure that the new state is the pure
  function of the old state.

Each Qt setter the callbacks call (`setScale`, `setOpacity`, `setVisible`,
`setPos`, `setSize`, `setValue`, `setText`, `setPosition`) is a write to a
field. The player's position and duration are fields the environment sets.

Behaviour of the code that the model keeps:

- **The scale-in progress is eased twice.** `update_ui` passes the
  quadratic ease-in-out of `t` to `set_scale_progress`, which applies
  smoothstep again. The scale is therefore `0.8 + 0.2 * S(Q(t))`. In the
  model, `ScaleInStep` composes the two curves in the same way.
- **Centring uses rounded sizes.** `update_overlay_position` centres the
  logo using `pixmap().size() * scale()`, and a QSize times a real rounds
  each side with `qRound`. The logo is therefore centred exactly with
  respect to the rounded size, and within a quarter pixel of the exact
  scaled size (`Geometry.CenteredNearExact`).
- **The first centring happens before the logo has a pixmap.**
  `AnimatedOverlayItem.__init__` calls the base constructor without a
  pixmap, so the item shows an empty pixmap until `set_mask_pixmap` gives
  it one. `load_png_overlay` centres the item before it masks it.
  - Right after loading, the logo's top-left corner is what sits on the
    video centre (`App.AttachedCornerAtCentre`).
  - Once the video's native size is known and the view has a positive
    height, the next `update_ui` tick centres the logo itself, in every
    phase (`App.UiTickCentres`). While the native size is still empty,
    `fit_video_view` does nothing, so a tick in the fade-out or hidden
    phase leaves the corner where it was; only the scale-in and hold
    phases recentre the logo.
- **The centre is stored on every call, not once.** A comment in
  `center_overlay_item` (RIVL.py:679) says the centre is stored "only
  once". The code at RIVL.py:680-683 stores it on every call, and
  `fit_video_view` calls it on every 16 ms tick (RIVL.py:316-317, 715).
  `App.Recentred` follows the code.
- **A view of height 0 makes `fit_video_view` raise.** The view-ratio
  division then raises `ZeroDivisionError`, and `update_ui` raises with it.

The arithmetic of letterboxing, easing and the slider is done on exact
`real`s, which idealises Python's IEEE-754 floats. Over the exact reals,
the slider value `int(position / duration * 1000)` equals the
integer-division form the model uses (`Playback.SliderValueIsTruncatedFraction`),
and so does the seek target `int((val / 1000) * duration)`
(`Playback.SliderTargetIsTrunc`).

## Model

| member | source | states |
|---|---|---|
| Easing.QuadEaseInOut | RIVL.py:724-725 | maps [0,1] into [0,1]; sends 0 to 0, 1/2 to 1/2 and 1 to 1 |
| Easing.QuadEasePiecesAgree | RIVL.py:725 | the `2t²` piece and the `1 - (2-2t)²/2` piece meet at t = 1/2 |
| Easing.QuadEaseMonotone | RIVL.py:725 | the ease never decreases on [0,1] |
| Easing.SmoothStep | RIVL.py:74 | `p²(3-2p)` maps [0,1] into [0,1] |
| Easing.SmoothStepEnds | RIVL.py:74 | smoothstep fixes 0 and 1 |
| Easing.SmoothStepMonotone | RIVL.py:74 | smoothstep never decreases on [0,1] |
| Easing.CubicEaseOut | RIVL.py:742-743 | `1-(1-t)³` maps [0,1] into [0,1]; sends 0 to 0 and 1 to 1 |
| Easing.CubicEaseOutStrict | RIVL.py:743 | the cubic ease-out strictly increases on [0,1] |
| Geometry.LetterBox | RIVL.py:288-313 | no change while the native size is empty; raises ZeroDivisionError exactly when the native size is non-empty and the view height is 0 |
| Geometry.LetterBoxFits | RIVL.py:295-313 | for a non-empty video in a view of positive height: the aspect ratio is kept, the video fits inside the view and fills one side, the offsets are non-negative, and the video centre is the view centre |
| Geometry.QRound | RIVL.py:693 | Qt's qRound, half away from zero; its contract is QRoundNear |
| Geometry.QRoundNear | RIVL.py:693 | qRound is within 1/2 of its argument and keeps non-negative values non-negative |
| Geometry.TimesIsProduct | RIVL.py:693 | the repeated-addition scaled side equals pixels × scale |
| Geometry.ScaledExtent | RIVL.py:693 | one side of `pixmap().size() * scale()`, rounded by qRound; its contract is ScaledExtentNear |
| Geometry.ScaledExtentNear | RIVL.py:693 | a side of `size() * scale()` is within 1/2 pixel of the exact product |
| Geometry.CenterOf | RIVL.py:680-683 | the centre point center_overlay_item stores; its contract is App.Recentred and App.RefitCentres |
| Geometry.CenteredTopLeft | RIVL.py:693-696 | the corner plus half the rounded scaled size is the given centre, on both axes |
| Geometry.CenteredNearExact | RIVL.py:693-696 | against the exact scaled size, that corner centres the pixmap to within 1/4 pixel |
| Playback.DurationSeconds | RIVL.py:592-593 | `duration // 1000` is the whole number of seconds: s·1000 ≤ ms < s·1000 + 1000 |
| Playback.Trunc | RIVL.py:599 | Python `int()` on a float truncates toward zero |
| Playback.TruncDiv | RIVL.py:599 | integer division truncated toward zero, bracketed from both sides for either sign |
| Playback.SliderValue | RIVL.py:597-599 | the slider value as truncating integer division; its contract is SliderValueIsTruncatedFraction, SliderValueInRange and the two round trips |
| Playback.SliderValueIsTruncatedFraction | RIVL.py:597-599 | the slider value equals `int(position / duration * 1000)` computed over the reals |
| Playback.SliderValueInRange | RIVL.py:597-599 | a position within the media gives a slider value in 0..1000, and 1000 exactly at the end |
| Playback.SliderTarget | RIVL.py:610 | the position set_position requests, as truncating integer division; its contract is SliderTargetIsTrunc, SliderTargetInRange and the two round trips |
| Playback.SliderTargetIsTrunc | RIVL.py:610 | the seek target equals `int((val / 1000) * duration)` computed over the reals |
| Playback.SliderTargetInRange | RIVL.py:608-611 | a slider value in 0..1000 requests a position within the media; 0 gives 0 and 1000 gives the duration |
| Playback.PositionRoundTrip | RIVL.py:595-611 | position to slider to position never moves later, and moves earlier by less than duration/1000 + 1 ms |
| Playback.SliderRoundTrip | RIVL.py:595-611 | slider to position to slider never grows, and shrinks by less than 1 + 1000/duration |
| Playback.ClockOf | RIVL.py:602-605 | hh·3600 + mm·60 + ss == position div 1000, 0 ≤ mm, ss < 60, and hh ≥ 0 for a non-negative position |
| Playback.Decimal | RIVL.py:606 | decimal digits: at least one, a single one exactly below 10, no leading zero |
| Playback.DecimalValue | RIVL.py:606 | reading the printed digits back gives the number |
| Playback.LeadingZeroValue | RIVL.py:606 | a leading zero pad does not change the value read back |
| Playback.ZeroPad2 | RIVL.py:606 | `f"{n:02}"`: at least two digits that read back as n; exactly two below 100; a negative number is the sign followed by its unpadded digits |
| Playback.TimeLabelReadsBack | RIVL.py:602-606 | the label is `<hours>:MM:SS`; each field reads back as the clock's hours, minutes and seconds, minutes and seconds below 60; together they give position div 1000; the label has exactly 8 characters below 100 hours |
| Playback.TimeLabel | RIVL.py:602-606 | the label text update_position sets; its contract is TimeLabelReadsBack |
| Overlay.Initial | RIVL.py:18-24 | a freshly built item; its contract is InitialInRange and App.AttachedCornerAtCentre |
| Overlay.ScaleForProgress | RIVL.py:73-76 | by definition scale_min + (scale_max − scale_min)·p²(3−2p) with the bounds 0.8 and 1.0 written in; its ensures: progress in [0,1] gives a scale in [0.8, 1.0]; its endpoints and monotonicity are ScaleForProgressEnds and ScaleForProgressMonotone |
| Overlay.ScaleForProgressEnds | RIVL.py:73-76 | progress 0 gives 0.8 and progress 1 gives 1.0 |
| Overlay.ScaleForProgressMonotone | RIVL.py:73-76 | more progress never shrinks the logo |
| Overlay.WithScaleProgress | RIVL.py:73-76 | set_scale_progress on the item state: only the scale changes, to ScaleForProgress |
| Overlay.WithBlend | RIVL.py:44-59 | update_blend_to_white on the item state; its contract is ScaleInEffect and HoldEffect |
| Overlay.WithMask | RIVL.py:26-42 | set_mask_pixmap on the item state: by definition the mask flag, then update_blend_to_white(0.0); AnimatedOverlayItem.SetMaskPixmap is proved against it, and InitialInRange and App.AttachedCornerAtCentre state its effect on a new item |
| Overlay.CenteredOn | RIVL.py:688-696 | without a stored centre nothing changes; with one only the position changes, and the scaled pixmap is centred on it |
| Overlay.PhaseOf | RIVL.py:722-748 | each branch is taken exactly on its interval: ≤ 2, (2,4], (4,5], > 5 |
| Overlay.Animate | RIVL.py:722-748 | one animation step of update_ui; its contract is AnimateByPhase, AnimateKeepsInRange, AnimateKeepsCentering and App.AnimateVisibility |
| Overlay.ScaleInStep | RIVL.py:722-730 | the scale-in branch; its contract is ScaleInEffect, ScaleInMonotone and PhasesJoin |
| Overlay.HoldStep | RIVL.py:732-738 | the hold branch; its contract is HoldEffect and PhasesJoin |
| Overlay.FadeOpacity | RIVL.py:742-744 | the fade branch's opacity; its contract is FadeEffect, FadeStrictlyDecreasing and PhasesJoin |
| Overlay.FadeStep | RIVL.py:740-745 | the fade-out branch; its contract is FadeEffect and FadeStrictlyDecreasing |
| Overlay.HiddenStep | RIVL.py:747-748 | the final branch: by definition only the visibility changes, to hidden; AnimateByPhase selects it after 5 s, and App.AudiTvcApp.AnimateOverlay is proved against it |
| Overlay.AnimateByPhase | RIVL.py:722-748 | the animation step acts as the branch of its interval |
| Overlay.ScaleInEffect | RIVL.py:722-730 | scale in [0.8,1] and white in [0,1]; 0 s gives 0.8 and no white; 2 s gives 1.0 and full white; opaque, visible, original pixmap size, centred |
| Overlay.HoldEffect | RIVL.py:732-738 | scale 1.0, white 1, opacity 1, visible, original pixmap size, and centred on the stored centre |
| Overlay.FadeEffect | RIVL.py:740-745 | only opacity and visibility change; opacity is (1 − (pos − 4))³, in [0,1) |
| Overlay.ScaleInMonotone | RIVL.py:722-730 | during scale-in, later means larger and whiter |
| Overlay.FadeStrictlyDecreasing | RIVL.py:740-745 | during fade-out, later means strictly more transparent |
| Overlay.PhasesJoin | RIVL.py:722-745 | scale-in at 2 s equals the hold state; the fade curve starts at opacity 1 and ends at 0 |
| Overlay.InitialInRange | RIVL.py:18-24 | a new item, and a newly masked one, has scale, white fraction and opacity in range |
| Overlay.AnimateKeepsInRange | RIVL.py:722-748 | every step at a non-negative time keeps scale in [0.8,1] and white and opacity in [0,1] |
| Overlay.AnimateKeepsCentering | RIVL.py:722-748 | an item centred on the stored centre stays centred through every phase |
| Overlay.AnimatedOverlayItem.constructor | RIVL.py:18-24 | the new item: no pixmap shown yet, unmasked, scale 1, opaque, visible, at the origin |
| Overlay.AnimatedOverlayItem.SetMaskPixmap | RIVL.py:26-42 | marks the item masked and shows the unwhitened blend |
| Overlay.AnimatedOverlayItem.UpdateBlendToWhite | RIVL.py:44-59 | records the white fraction and shows a pixmap of the logo's size |
| Overlay.AnimatedOverlayItem.SetScaleProgress | RIVL.py:73-76 | sets the scale to ScaleForProgress(progress) and nothing else |
| Overlay.AnimatedOverlayItem.SetOpacity | RIVL.py:744 | setOpacity: only the opacity changes |
| Overlay.AnimatedOverlayItem.SetVisible | RIVL.py:748 | setVisible: only the visibility changes |
| Overlay.AnimatedOverlayItem.SetPos | RIVL.py:696 | setPos: only the position changes |
| App.OverlayRepositioned | RIVL.py:688-696 | with an overlay and a stored centre, only the overlay's position changes and the overlay ends centred on that centre |
| App.Recentred | RIVL.py:672-686 | with an overlay, the centre of the video item is stored and the overlay is centred on it; otherwise nothing changes |
| App.Refit | RIVL.py:288-317 | raises exactly for a non-empty video in a view of height 0; does nothing while the native size is empty; otherwise keeps the view, the native size and every overlay field but the position; with an overlay it stores the new video centre and centres the overlay on it, and without one it keeps the stored centre |
| App.RefitCentres | RIVL.py:288-317 | the refitted video is letterboxed in the view, and the stored centre and the overlay's centre are the view's centre |
| App.SecondsOf | RIVL.py:717 | the playback time in seconds update_ui branches on; its contract is App.AnimateVisibility |
| App.UiTick | RIVL.py:711-748 | nothing happens without a video; with one, it raises exactly when the refit raises; the overlay stays present and masked |
| App.UiTickCentres | RIVL.py:711-748 | after every tick, in every phase, the overlay is centred on the view's centre, and it is visible exactly up to 5000 ms |
| App.AnimateVisibility | RIVL.py:722-748 | the overlay is visible exactly when the position is at most 5000 ms |
| App.UiTickKeepsInRange | RIVL.py:711-748 | ticks at non-negative positions keep the overlay's values in range |
| App.Attached | RIVL.py:647-667 | the overlay bookkeeping of load_png_overlay; its contract is AttachedCornerAtCentre |
| App.AttachedCornerAtCentre | RIVL.py:647-667 | right after loading, the overlay's top-left corner is at the video's centre; it shows the logo at its own size, unscaled, unwhitened, opaque and visible |
| App.AudiTvcApp.constructor | RIVL.py:82-126 | nothing loaded, no overlay, no stored centre; the video item has its default 320×240 size and no native size |
| App.AudiTvcApp.UpdateOverlayPosition | RIVL.py:688-696 | the new scene is OverlayRepositioned of the old one |
| App.AudiTvcApp.CenterOverlayItem | RIVL.py:672-686 | the new scene is Recentred of the old one |
| App.AudiTvcApp.FitVideoView | RIVL.py:288-317 | the new scene is Refit of the old one, or the scene is unchanged and the exception is returned |
| App.AudiTvcApp.UpdateUi | RIVL.py:711-748 | the new scene is UiTick of the old one at the player's position, or the exception is returned |
| App.AudiTvcApp.AnimateOverlay | RIVL.py:720-748 | the overlay becomes Animate of its old state, and the rest of the scene is unchanged |
| App.AudiTvcApp.UpdateDuration | RIVL.py:592-593 | the stored duration in seconds is DurationSeconds of the new duration |
| App.AudiTvcApp.UpdatePosition | RIVL.py:595-606 | with a positive duration, sets the slider value and the time label; otherwise changes nothing |
| App.AudiTvcApp.SetPosition | RIVL.py:608-611 | with a positive duration, requests SliderTarget of the value; otherwise changes nothing |
| App.AudiTvcApp.SeekBackward | RIVL.py:588-589 | requests the position 5000 ms earlier |
| App.AudiTvcApp.LoadPngOverlay | RIVL.py:614-667 | without a video nothing changes; with one, a fresh overlay is attached, centred while still empty, and then masked |

## Left out

- Widget construction and styling, the drop screen, button texts, and the
  controls with no handlers (Render, Confirm, Help, Audio, and the ring and
  background controls): these are layout without behaviour.
- The media player, the timer, file dialogs, drag and drop, message boxes,
  `load_video`, `toggle_play`, `toggle_mute`, `set_volume`,
  `update_play_button` and `handle_player_error`: these are I/O and the
  event loop. The player's position, duration and `video_loaded` are
  fields the environment sets.
- `resizeEvent` and `resize_video_and_overlay`: each only calls
  `fit_video_view` when a video is loaded, and that call is modelled.
- Pixmap compositing in `set_mask_pixmap`, `update_blend_to_white` and
  `_white_version`, and the scene render in `load_png_overlay`: these are
  painter calls. Only the white fraction, the mask flag and the displayed
  pixmap size are kept.
- `setTransformationMode` in `update_ui`: it only affects rendering
  quality.
- In `load_png_overlay`, image loading, its null check, the
  `KeepAspectRatio` downscaling to half the video size, and `print`:
  `App.AudiTvcApp.LoadPngOverlay` takes the logo size as it is after that
  scaling.
- `get_background_color_at_overlay`: it reads pixels through toolkit code.
- IEEE-754 rounding: the arithmetic is on exact reals and unbounded
  integers.
- Overlay.AnimatedOverlayItem.UpdateBlendToWhite: requires a mask. Without
  one the source passes `None` to `drawPixmap`, and the model does not
  cover that failure. `load_png_overlay` always masks a new item before
  any tick can reach it.
- App.AudiTvcApp.SeekBackward: records the requested position
  unclamped. The player's own clamping to the media is toolkit behaviour.
- App.AudiTvcApp.SetPosition: records the requested position unclamped,
  for the same reason.
- App.AudiTvcApp.UpdatePosition: stores the computed slider value without
  QSlider's clamping to 0..1000. `Playback.SliderValueInRange` shows that
  clamping has no effect for positions within the media.
