/** Scene geometry of RIVL.py: letterboxing the video into its view and
    keeping the overlay centred on the video. Coordinates are exact reals. */
module Geometry {
  import opened Wrappers

  datatype Point = Point(x: real, y: real)

  /** The outcome of fit_video_view (RIVL.py:288-313) when it does not raise. */
  datatype Fit =
    | NoVideo                                             // native size empty: nothing is done
    | Fitted(width: real, height: real, x: real, y: real) // new video size and position

  /** fit_video_view's arithmetic. `videoW` x `videoH` is the video's native
      size (a QSizeF, empty when a side is not positive); `viewW` x `viewH`
      is the view's integer size. A view of height 0 makes the view ratio a
      division by zero, as in the source. */
  function LetterBox(videoW: real, videoH: real, viewW: nat, viewH: nat): (r: Result<Fit>)
    ensures r == Ok(NoVideo) <==> videoW <= 0.0 || videoH <= 0.0
    ensures r.Raised? <==> videoW > 0.0 && videoH > 0.0 && viewH == 0
    ensures r.Raised? ==> r.error == ZeroDivisionError
  {
    if videoW <= 0.0 || videoH <= 0.0 then Ok(NoVideo)
    else if viewH == 0 then Raised(ZeroDivisionError)
    else
      var videoRatio := videoW / videoH;
      var viewRatio := viewW as real / viewH as real;
      // wider view: full height; otherwise full width
      var width := if viewRatio > videoRatio then viewH as real * videoRatio else viewW as real;
      var height := if viewRatio > videoRatio then viewH as real else viewW as real / videoRatio;
      Ok(Fitted(width, height, (viewW as real - width) / 2.0, (viewH as real - height) / 2.0))
  }

  /** Whenever fit_video_view resizes the video, the new size keeps the
      native aspect ratio, fits inside the view and fills it along one side,
      and the video is centred in the view. */
  lemma LetterBoxFits(videoW: real, videoH: real, viewW: nat, viewH: nat)
    requires videoW > 0.0 && videoH > 0.0 && viewH > 0
    ensures LetterBox(videoW, videoH, viewW, viewH).Ok?
    ensures var f := LetterBox(videoW, videoH, viewW, viewH).value;
      && f.Fitted?
      && f.width == f.height * (videoW / videoH)
      && (f.height > 0.0 ==> f.width / f.height == videoW / videoH)
      && 0.0 <= f.width <= viewW as real && 0.0 <= f.height <= viewH as real
      && (f.width == viewW as real || f.height == viewH as real)
      && 0.0 <= f.x && 0.0 <= f.y
      && f.x + f.width / 2.0 == viewW as real / 2.0
      && f.y + f.height / 2.0 == viewH as real / 2.0
  {
    var videoRatio := videoW / videoH;
    var viewRatio := viewW as real / viewH as real;
    var vw, vh := viewW as real, viewH as real;
    assert videoRatio > 0.0;
    if viewRatio > videoRatio {
      // the view is wider than the video: full height, narrower width
      RatioBelow(vh, videoRatio, vw);
    } else {
      // the view is taller than the video: full width, lower height
      DivBelow(vw, videoRatio, vh);
      DivTimes(vw, videoRatio);
    }
    var f := LetterBox(videoW, videoH, viewW, viewH).value;
    if f.height > 0.0 {
      QuotientOf(f.width, f.height, videoRatio);
    }
  }

  /** h * r <= w when w / h > r. */
  lemma RatioBelow(h: real, r: real, w: real)
    requires h > 0.0 && r > 0.0 && w >= 0.0 && w / h > r
    ensures 0.0 <= h * r < w
  {
    assert w / h * h == w;
  }

  /** w / r <= h when w / h <= r. */
  lemma DivBelow(w: real, r: real, h: real)
    requires h > 0.0 && r > 0.0 && w >= 0.0 && w / h <= r
    ensures 0.0 <= w / r <= h
  {
    assert w / h * h == w;
    assert w <= r * h;
    assert w / r * r == w;
  }

  lemma DivTimes(w: real, r: real)
    requires r != 0.0
    ensures w == w / r * r
  {
  }

  lemma QuotientOf(w: real, h: real, r: real)
    requires h > 0.0 && w == h * r
    ensures w / h == r
  {
  }

  /** Qt's qRound: rounds half away from zero. */
  function QRound(d: real): int
  {
    if d >= 0.0 then (d + 0.5).Floor else -((-d + 0.5).Floor)
  }

  /** qRound is off by at most one half, and keeps the sign. */
  lemma QRoundNear(d: real)
    ensures d - 0.5 <= QRound(d) as real <= d + 0.5
    ensures d >= 0.0 ==> QRound(d) >= 0
  {
  }

  /** `pixels` copies of `scale` added up: the exact scaled side. It is
      written as repeated addition so that the verifier meets the product of
      a pixel count and an eased scale only through TimesIsProduct. */
  function Times(pixels: nat, scale: real): real
  {
    if pixels == 0 then 0.0 else Times(pixels - 1, scale) + scale
  }

  lemma {:induction false} TimesIsProduct(pixels: nat, scale: real)
    ensures Times(pixels, scale) == pixels as real * scale
  {
    if pixels > 0 {
      TimesIsProduct(pixels - 1, scale);
      assert (pixels - 1) as real * scale + scale == pixels as real * scale;
    }
  }

  /** One side of `pixmap().size() * scale` (RIVL.py:693): QSize times a
      real rounds each side to an integer. */
  function ScaledExtent(pixels: nat, scale: real): int
  {
    QRound(Times(pixels, scale))
  }

  /** The rounded side is within half a pixel of the exact scaled side. */
  lemma ScaledExtentNear(pixels: nat, scale: real)
    ensures pixels as real * scale - 0.5 <= ScaledExtent(pixels, scale) as real <= pixels as real * scale + 0.5
  {
    QRoundNear(Times(pixels, scale));
    TimesIsProduct(pixels, scale);
  }

  /** The centre of a rectangle given by its top-left corner and size
      (the overlay_center of RIVL.py:680-683). */
  function CenterOf(topLeft: Point, width: real, height: real): Point
  {
    Point(topLeft.x + width / 2.0, topLeft.y + height / 2.0)
  }

  /** The top-left corner update_overlay_position gives the overlay
      (RIVL.py:693-696): its scaled size, as rounded by Qt, is centred on
      `center`. */
  function CenteredTopLeft(center: Point, pixWidth: nat, pixHeight: nat, scale: real): (p: Point)
    ensures p.x + ScaledExtent(pixWidth, scale) as real / 2.0 == center.x
    ensures p.y + ScaledExtent(pixHeight, scale) as real / 2.0 == center.y
  {
    Point(center.x - ScaledExtent(pixWidth, scale) as real / 2.0,
          center.y - ScaledExtent(pixHeight, scale) as real / 2.0)
  }

  /** Against the exact scaled size, that corner centres the overlay to
      within a quarter of a pixel on each axis. */
  lemma CenteredNearExact(center: Point, pixWidth: nat, pixHeight: nat, scale: real)
    ensures var p := CenteredTopLeft(center, pixWidth, pixHeight, scale);
      && -0.25 <= p.x + pixWidth as real * scale / 2.0 - center.x <= 0.25
      && -0.25 <= p.y + pixHeight as real * scale / 2.0 - center.y <= 0.25
  {
    ScaledExtentNear(pixWidth, scale);
    ScaledExtentNear(pixHeight, scale);
  }
}
