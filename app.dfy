/** The AudiTVCApp window of RIVL.py as far as the video geometry, the
    overlay animation and the playback bookkeeping go. The scene is described
    by the Scene datatype; the class AudiTvcApp holds the same state in
    fields and its methods are proved against the functions on Scene. */
module App {
  import opened Wrappers
  import opened Geometry
  import opened Overlay
  import opened Playback

  /** The QGraphicsVideoItem: the frame size the decoder reports
      (`nativeSize`), and the size and position the window gives it. */
  datatype Video = Video(nativeWidth: real, nativeHeight: real, width: real, height: real, pos: Point)

  /** The part of the window the modelled callbacks read and write: the
      size of the graphics view, the video item, the stored overlay centre
      (absent until center_overlay_item first runs) and the overlay item
      (absent until a logo is loaded). */
  datatype Scene = Scene(viewWidth: nat, viewHeight: nat, video: Video,
                         center: Option<Point>, overlay: Option<OverlayState>)

  /** An overlay, when present, has been masked: load_png_overlay masks it
      right after creating it (RIVL.py:665-667). */
  predicate OverlayMasked(s: Scene)
  {
    s.overlay.Some? ==> s.overlay.value.masked
  }

  /** update_overlay_position (RIVL.py:688-696): without an overlay or a
      stored centre nothing happens; otherwise the overlay alone moves, so
      that it is centred on the stored centre. */
  function OverlayRepositioned(s: Scene): (r: Scene)
    ensures s.overlay.None? || s.center.None? ==> r == s
    ensures s.overlay.Some? && s.center.Some? ==>
      && r == s.(overlay := r.overlay) && r.overlay.Some?
      && r.overlay.value == s.overlay.value.(pos := r.overlay.value.pos)
      && CenteredAt(r.overlay.value, s.center.value)
  {
    if s.overlay.Some? && s.center.Some? then s.(overlay := Some(CenteredOn(s.overlay.value, s.center)))
    else s
  }

  /** center_overlay_item (RIVL.py:672-686): with an overlay, store the
      centre of the video item and centre the overlay on it. */
  function Recentred(s: Scene): (r: Scene)
    ensures s.overlay.None? ==> r == s
    ensures s.overlay.Some? ==>
      && r.viewWidth == s.viewWidth && r.viewHeight == s.viewHeight && r.video == s.video
      && r.center == Some(CenterOf(s.video.pos, s.video.width, s.video.height))
      && r.overlay.Some? && r.overlay.value == s.overlay.value.(pos := r.overlay.value.pos)
      && CenteredAt(r.overlay.value, r.center.value)
  {
    if s.overlay.None? then s
    else OverlayRepositioned(s.(center := Some(CenterOf(s.video.pos, s.video.width, s.video.height))))
  }

  /** fit_video_view (RIVL.py:288-317): letterbox the video into the view
      and, with an overlay, store the new video centre and recentre the
      overlay on it. Nothing happens while the frame size is unknown; a view
      of height 0 raises. */
  function Refit(s: Scene): (r: Result<Scene>)
    ensures r.Raised? <==> s.video.nativeWidth > 0.0 && s.video.nativeHeight > 0.0 && s.viewHeight == 0
    ensures r.Raised? ==> r.error == ZeroDivisionError
    ensures s.video.nativeWidth <= 0.0 || s.video.nativeHeight <= 0.0 ==> r == Ok(s)
    ensures r.Ok? ==> && r.value.viewWidth == s.viewWidth && r.value.viewHeight == s.viewHeight
                      && r.value.video.nativeWidth == s.video.nativeWidth
                      && r.value.video.nativeHeight == s.video.nativeHeight
                      && (r.value.overlay.Some? <==> s.overlay.Some?)
                      && (s.overlay.Some? ==>
                            r.value.overlay.value == s.overlay.value.(pos := r.value.overlay.value.pos))
    ensures r.Ok? && s.overlay.None? ==> r.value.center == s.center
    ensures r.Ok? && s.overlay.Some? && s.video.nativeWidth > 0.0 && s.video.nativeHeight > 0.0 ==>
      && r.value.center == Some(CenterOf(r.value.video.pos, r.value.video.width, r.value.video.height))
      && CenteredAt(r.value.overlay.value, r.value.center.value)
  {
    match LetterBox(s.video.nativeWidth, s.video.nativeHeight, s.viewWidth, s.viewHeight)
    case Raised(e) => Raised(e)
    case Ok(NoVideo) => Ok(s)
    case Ok(Fitted(w, h, x, y)) => Ok(Recentred(s.(video := s.video.(width := w, height := h, pos := Point(x, y)))))
  }

  /** Once the frame size is known and the view has a height, refitting
      letterboxes the video (aspect ratio kept, inside the view, filling it
      in one direction, centred in it), stores the view's centre and centres
      the overlay on it. */
  lemma RefitCentres(s: Scene)
    requires s.video.nativeWidth > 0.0 && s.video.nativeHeight > 0.0 && s.viewHeight > 0
    ensures Refit(s).Ok?
    ensures var v := Refit(s).value.video;
      && v.width == v.height * (s.video.nativeWidth / s.video.nativeHeight)
      && 0.0 <= v.height <= s.viewHeight as real && 0.0 <= v.width <= s.viewWidth as real
      && (v.width == s.viewWidth as real || v.height == s.viewHeight as real)
      && 0.0 <= v.pos.x && 0.0 <= v.pos.y
      && v.pos.x + v.width / 2.0 == s.viewWidth as real / 2.0
      && v.pos.y + v.height / 2.0 == s.viewHeight as real / 2.0
    ensures s.overlay.Some? ==>
      var r := Refit(s).value;
      var mid := Point(s.viewWidth as real / 2.0, s.viewHeight as real / 2.0);
      r.center == Some(mid) && CenteredAt(r.overlay.value, mid)
  {
    LetterBoxFits(s.video.nativeWidth, s.video.nativeHeight, s.viewWidth, s.viewHeight);
  }

  /** The time in seconds update_ui derives from the player position
      (RIVL.py:717). */
  function SecondsOf(positionMs: int): real
  {
    positionMs as real / 1000.0
  }

  /** update_ui (RIVL.py:711-748): with a video loaded, refit, then run one
      animation step on the overlay at the player's position. */
  function UiTick(s: Scene, loaded: bool, positionMs: int): (r: Result<Scene>)
    requires OverlayMasked(s)
    ensures !loaded ==> r == Ok(s)
    ensures loaded ==> (r.Raised? <==> Refit(s).Raised?)
    ensures r.Raised? ==> r.error == ZeroDivisionError
    ensures r.Ok? ==> OverlayMasked(r.value) && (r.value.overlay.Some? <==> s.overlay.Some?)
  {
    if !loaded then Ok(s)
    else
      match Refit(s)
      case Raised(e) => Raised(e)
      case Ok(f) =>
        if f.overlay.None? then Ok(f)
        else Ok(f.(overlay := Some(Animate(f.overlay.value, SecondsOf(positionMs), f.center))))
  }

  /** After every tick with a known frame size and a view with a height,
      the overlay is centred on the centre of the view, whatever the phase,
      and it is visible exactly up to the five-second mark. */
  lemma UiTickCentres(s: Scene, positionMs: int)
    requires OverlayMasked(s) && s.overlay.Some?
    requires s.video.nativeWidth > 0.0 && s.video.nativeHeight > 0.0 && s.viewHeight > 0
    ensures UiTick(s, true, positionMs).Ok?
    ensures var o := UiTick(s, true, positionMs).value.overlay.value;
      && CenteredAt(o, Point(s.viewWidth as real / 2.0, s.viewHeight as real / 2.0))
      && (o.visible <==> positionMs <= 5000)
  {
    RefitCentres(s);
    var f := Refit(s).value;
    var mid := Point(s.viewWidth as real / 2.0, s.viewHeight as real / 2.0);
    AnimateKeepsCentering(f.overlay.value, SecondsOf(positionMs), mid);
    AnimateVisibility(f.overlay.value, positionMs, f.center);
  }

  /** The overlay is shown up to and including 5000 ms, hidden after. */
  lemma AnimateVisibility(o: OverlayState, positionMs: int, center: Option<Point>)
    requires o.masked
    ensures Animate(o, SecondsOf(positionMs), center).visible <==> positionMs <= 5000
  {
    var t := SecondsOf(positionMs);
    AnimateByPhase(o, t, center);
    assert t <= 5.0 <==> positionMs <= 5000;
    if t <= 2.0 {
      assert ScaleInStep(o, t, center).visible;
    } else if t <= 4.0 {
      HoldEffect(o, center);
    }
  }

  /** Ticks from a non-negative position keep the overlay's scale, white
      blend and opacity in range. */
  lemma UiTickKeepsInRange(s: Scene, loaded: bool, positionMs: int)
    requires OverlayMasked(s) && s.overlay.Some? && InRange(s.overlay.value) && 0 <= positionMs
    requires UiTick(s, loaded, positionMs).Ok?
    ensures InRange(UiTick(s, loaded, positionMs).value.overlay.value)
  {
    if loaded {
      var f := Refit(s).value;
      AnimateKeepsInRange(f.overlay.value, SecondsOf(positionMs), f.center);
    }
  }

  /** The bookkeeping part of load_png_overlay (RIVL.py:647-667): a new item
      for a logo of the given size replaces the old one, is centred while it
      still shows no pixmap, and is then masked. */
  function Attached(s: Scene, width: nat, height: nat): Scene
  {
    var placed := Recentred(s.(overlay := Some(Initial(width, height))));
    placed.(overlay := Some(WithMask(placed.overlay.value)))
  }

  /** Right after loading, the logo's top-left corner, not its centre, sits
      on the video's centre: it was centred while its pixmap was still
      empty. The masked logo shows its own size, unscaled and unwhitened. */
  lemma AttachedCornerAtCentre(s: Scene, width: nat, height: nat)
    ensures var r := Attached(s, width, height);
      && r.center == Some(CenterOf(s.video.pos, s.video.width, s.video.height))
      && OverlayMasked(r) && r.overlay.Some?
      && r.overlay.value.pos == r.center.value
      && r.overlay.value.pixmapWidth == width && r.overlay.value.pixmapHeight == height
      && r.overlay.value.scale == 1.0 && r.overlay.value.whiteFraction == 0.0
      && r.overlay.value.opacity == 1.0 && r.overlay.value.visible
  {
    var placed := Recentred(s.(overlay := Some(Initial(width, height))));
    assert ScaledExtent(0, 1.0) == 0;
    assert CenteredAt(placed.overlay.value, placed.center.value);
  }

  /** The application window. Its fields hold what Scene describes, the
      player's position and duration, and the playback widgets' values. */
  class AudiTvcApp {
    var videoLoaded: bool
    var viewWidth: nat
    var viewHeight: nat
    var nativeWidth: real
    var nativeHeight: real
    var videoWidth: real
    var videoHeight: real
    var videoPos: Point
    var overlayCenter: Option<Point>
    var overlay: AnimatedOverlayItem?
    var playerPositionMs: int
    var playerDurationMs: int
    var sliderValue: int
    var timeLabel: string
    var videoDurationS: int

    ghost function SceneOf(): Scene
      reads this, overlay
    {
      Scene(viewWidth, viewHeight, Video(nativeWidth, nativeHeight, videoWidth, videoHeight, videoPos),
            overlayCenter, if overlay == null then None else Some(overlay.State()))
    }

    /** The state after __init__ (RIVL.py:82-126) for a view of the given
        size: nothing loaded, a video item of Qt's default 320 x 240 with no
        frame size yet, the slider at 0 and the label at "00:00:00". */
    constructor (viewW: nat, viewH: nat)
      ensures !videoLoaded && overlay == null && overlayCenter.None?
      ensures SceneOf() == Scene(viewW, viewH, Video(0.0, 0.0, 320.0, 240.0, Point(0.0, 0.0)), None, None)
      ensures playerPositionMs == 0 && playerDurationMs == 0
      ensures sliderValue == 0 && timeLabel == "00:00:00" && videoDurationS == 0
    {
      videoLoaded := false;
      viewWidth, viewHeight := viewW, viewH;
      nativeWidth, nativeHeight := 0.0, 0.0;
      videoWidth, videoHeight := 320.0, 240.0;
      videoPos := Point(0.0, 0.0);
      overlayCenter := None;
      overlay := null;
      playerPositionMs, playerDurationMs := 0, 0;
      sliderValue := 0;
      timeLabel := "00:00:00";
      videoDurationS := 0;
    }

    method UpdateOverlayPosition()
      modifies overlay
      ensures SceneOf() == OverlayRepositioned(old(SceneOf()))
    {
      if overlay == null || overlayCenter.None? {
        return;
      }
      var w := ScaledExtent(overlay.pixmapWidth, overlay.scale);
      var h := ScaledExtent(overlay.pixmapHeight, overlay.scale);
      var x := overlayCenter.value.x - w as real / 2.0;
      var y := overlayCenter.value.y - h as real / 2.0;
      overlay.SetPos(Point(x, y));
    }

    method CenterOverlayItem()
      modifies this`overlayCenter, overlay
      ensures SceneOf() == Recentred(old(SceneOf()))
    {
      if overlay == null {
        return;
      }
      overlayCenter := Some(Point(videoPos.x + videoWidth / 2.0, videoPos.y + videoHeight / 2.0));
      UpdateOverlayPosition();
    }

    /** fit_video_view; `raised` is the exception it ends with, if any. */
    method FitVideoView() returns (raised: Option<Exception>)
      modifies this`videoWidth, this`videoHeight, this`videoPos, this`overlayCenter, overlay
      ensures raised.Some? <==> Refit(old(SceneOf())).Raised?
      ensures raised.Some? ==> raised.value == Refit(old(SceneOf())).error && SceneOf() == old(SceneOf())
      ensures raised.None? ==> SceneOf() == Refit(old(SceneOf())).value
    {
      if nativeWidth <= 0.0 || nativeHeight <= 0.0 {
        return None;
      }
      if viewHeight == 0 {
        return Some(ZeroDivisionError);
      }
      var videoRatio := nativeWidth / nativeHeight;
      var viewRatio := viewWidth as real / viewHeight as real;
      var newWidth, newHeight;
      if viewRatio > videoRatio {
        newHeight := viewHeight as real;
        newWidth := newHeight * videoRatio;
      } else {
        newWidth := viewWidth as real;
        newHeight := newWidth / videoRatio;
      }
      videoWidth, videoHeight := newWidth, newHeight;
      videoPos := Point((viewWidth as real - newWidth) / 2.0, (viewHeight as real - newHeight) / 2.0);
      if overlay != null {
        CenterOverlayItem();
      }
      return None;
    }

    /** update_ui at the player's current position. */
    method UpdateUi() returns (raised: Option<Exception>)
      requires OverlayMasked(SceneOf())
      modifies this`videoWidth, this`videoHeight, this`videoPos, this`overlayCenter, overlay
      ensures var r := UiTick(old(SceneOf()), videoLoaded, playerPositionMs);
        && (raised.Some? <==> r.Raised?)
        && (raised.Some? ==> raised.value == r.error)
        && (raised.None? ==> SceneOf() == r.value)
    {
      if !videoLoaded {
        return None;
      }
      raised := FitVideoView();
      if raised.Some? {
        return;
      }
      if overlay == null {
        return;
      }
      assert SecondsOf(playerPositionMs) == playerPositionMs as real / 1000.0;
      AnimateOverlay(playerPositionMs as real / 1000.0);
    }

    /** The overlay part of update_ui (RIVL.py:720-748) at a time in seconds. */
    method AnimateOverlay(seconds: real)
      requires overlay != null && overlay.masked
      modifies overlay
      ensures SceneOf() == old(SceneOf()).(overlay := Some(Animate(old(overlay.State()), seconds, overlayCenter)))
    {
      ghost var item := overlay.State();
      AnimateByPhase(item, seconds, overlayCenter);
      var o := overlay;
      if seconds <= 2.0 {
        var t := seconds / 2.0;
        var eased := if t < 0.5 then 2.0 * t * t else 1.0 - (-2.0 * t + 2.0) * (-2.0 * t + 2.0) / 2.0;
        o.SetScaleProgress(eased);
        o.UpdateBlendToWhite(eased);
        o.SetOpacity(1.0);
        o.SetVisible(true);
        UpdateOverlayPosition();
        assert o.State() == ScaleInStep(item, seconds, overlayCenter);
      } else if 2.0 < seconds && seconds <= 4.0 {
        o.SetScaleProgress(1.0);
        o.UpdateBlendToWhite(1.0);
        o.SetOpacity(1.0);
        o.SetVisible(true);
        UpdateOverlayPosition();
        assert o.State() == HoldStep(item, overlayCenter);
      } else if 4.0 < seconds && seconds <= 5.0 {
        var t := (seconds - 4.0) / 1.0;
        var eased := 1.0 - (1.0 - t) * (1.0 - t) * (1.0 - t);
        o.SetOpacity(1.0 - eased);
        o.SetVisible(true);
        assert o.State() == FadeStep(item, seconds);
      } else {
        o.SetVisible(false);
        assert o.State() == HiddenStep(item);
      }
    }

    /** update_duration (RIVL.py:592-593). */
    method UpdateDuration(duration: int)
      modifies this`videoDurationS
      ensures videoDurationS == DurationSeconds(duration)
    {
      videoDurationS := duration / 1000;
    }

    /** update_position (RIVL.py:595-606): with a known duration, move the
        slider and rewrite the label; otherwise change nothing. */
    method UpdatePosition(position: int)
      modifies this`sliderValue, this`timeLabel
      ensures playerDurationMs > 0 ==>
        sliderValue == SliderValue(position, playerDurationMs) && timeLabel == TimeLabel(position)
      ensures playerDurationMs <= 0 ==> sliderValue == old(sliderValue) && timeLabel == old(timeLabel)
    {
      if playerDurationMs > 0 {
        sliderValue := TruncDiv(position * 1000, playerDurationMs);
        var posS := position / 1000;
        var hh, mm, ss := posS / 3600, (posS % 3600) / 60, posS % 60;
        timeLabel := ZeroPad2(hh) + ":" + ZeroPad2(mm) + ":" + ZeroPad2(ss);
      }
    }

    /** set_position (RIVL.py:608-611): with a known duration, ask the
        player for the position the slider value stands for. */
    method SetPosition(val: int)
      modifies this`playerPositionMs
      ensures playerDurationMs > 0 ==> playerPositionMs == SliderTarget(val, playerDurationMs)
      ensures playerDurationMs <= 0 ==> playerPositionMs == old(playerPositionMs)
    {
      if playerDurationMs > 0 {
        playerPositionMs := TruncDiv(val * playerDurationMs, 1000);
      }
    }

    /** seek_backward (RIVL.py:588-589). */
    method SeekBackward()
      modifies this`playerPositionMs
      ensures playerPositionMs == old(playerPositionMs) - SeekStepMs
    {
      playerPositionMs := playerPositionMs - 5000;
    }

    /** load_png_overlay (RIVL.py:614-667) for a logo of the given size,
        already read and scaled: without a video it only warns. */
    method LoadPngOverlay(width: nat, height: nat)
      modifies this`overlay, this`overlayCenter
      ensures !videoLoaded ==> SceneOf() == old(SceneOf())
      ensures videoLoaded ==> fresh(overlay) && SceneOf() == Attached(old(SceneOf()), width, height)
    {
      if !videoLoaded {
        return;
      }
      ghost var before := SceneOf();
      overlay := new AnimatedOverlayItem(width, height);
      overlay.SetVisible(true);
      CenterOverlayItem();
      overlay.SetMaskPixmap();
    }
  }
}
