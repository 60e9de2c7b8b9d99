/** The animated logo overlay of RIVL.py: the AnimatedOverlayItem class and
    the per-tick animation update_ui applies to it. */
module Overlay {
  import opened Wrappers
  import opened Easing
  import opened Geometry

  /** The scale bounds every AnimatedOverlayItem is built with (RIVL.py:23-24). */
  const ScaleMin: real := 0.8
  const ScaleMax: real := 1.0

  /** What the item shows and where. The pixmap blending itself is not
      modelled: `whiteFraction` is the last fraction passed to
      update_blend_to_white and `pixmapWidth`/`pixmapHeight` the size of the
      pixmap the item displays. */
  datatype OverlayState = OverlayState(
    originalWidth: nat, originalHeight: nat,  // the logo as loaded
    masked: bool,                             // set_mask_pixmap has run
    pixmapWidth: nat, pixmapHeight: nat,      // the displayed pixmap
    whiteFraction: real,
    scale: real,
    opacity: real,
    visible: bool,
    pos: Point)

  /** A freshly constructed item (RIVL.py:18-24). The base class is built
      without a pixmap, so nothing is displayed yet; Qt's defaults give
      scale 1, visibility and the origin as position. */
  function Initial(width: nat, height: nat): OverlayState
  {
    OverlayState(width, height, false, 0, 0, 0.0, 1.0, 1.0, true, Point(0.0, 0.0))
  }

  /** set_scale_progress (RIVL.py:73-76), with the item's bounds 0.8 and 1.0
      written in. */
  function ScaleForProgress(progress: real): (s: real)
    ensures 0.0 <= progress <= 1.0 ==> ScaleMin <= s <= ScaleMax
  {
    SmoothStepBounds(progress);
    0.8 + (1.0 - 0.8) * (progress * progress * (3.0 - 2.0 * progress))
  }

  /** No progress gives the smallest scale, full progress the largest. */
  lemma ScaleForProgressEnds()
    ensures ScaleForProgress(0.0) == ScaleMin && ScaleForProgress(1.0) == ScaleMax
  {
    SmoothStepEnds();
  }

  /** More progress never shrinks the logo. */
  lemma ScaleForProgressMonotone(a: real, b: real)
    requires 0.0 <= a <= b <= 1.0
    ensures ScaleForProgress(a) <= ScaleForProgress(b)
  {
    SmoothStepMonotone(a, b);
  }

  function WithScaleProgress(o: OverlayState, progress: real): OverlayState
  {
    o.(scale := ScaleForProgress(progress))
  }

  /** update_blend_to_white (RIVL.py:44-59): a new pixmap the size of the
      original logo replaces the displayed one. It draws the mask, so it
      needs set_mask_pixmap to have run. */
  function WithBlend(o: OverlayState, fraction: real): OverlayState
    requires o.masked
  {
    o.(whiteFraction := fraction, pixmapWidth := o.originalWidth, pixmapHeight := o.originalHeight)
  }

  /** set_mask_pixmap (RIVL.py:26-42): records the mask, then shows the
      un-whitened blend. */
  function WithMask(o: OverlayState): OverlayState
  {
    WithBlend(o.(masked := true), 0.0)
  }

  /** The item's pixmap, scaled and rounded as Qt rounds a QSize, is centred
      on `c`. */
  predicate CenteredAt(o: OverlayState, c: Point)
  {
    && o.pos.x + ScaledExtent(o.pixmapWidth, o.scale) as real / 2.0 == c.x
    && o.pos.y + ScaledExtent(o.pixmapHeight, o.scale) as real / 2.0 == c.y
  }

  /** update_overlay_position (RIVL.py:688-696) as seen by the item: with a
      stored centre, the item moves so that its scaled pixmap is centred on
      it; without one, nothing happens. */
  function CenteredOn(o: OverlayState, center: Option<Point>): (r: OverlayState)
    ensures center.None? ==> r == o
    ensures center.Some? ==> r == o.(pos := r.pos) && CenteredAt(r, center.value)
  {
    match center
    case None => o
    case Some(c) => o.(pos := CenteredTopLeft(c, o.pixmapWidth, o.pixmapHeight, o.scale))
  }

  /** The four branches of update_ui's animation (RIVL.py:722-748). */
  datatype Phase = ScaleIn | Hold | FadeOut | Hidden

  /** The branch taken at a playback time in seconds, tested in the order
      the source tests it. */
  function PhaseOf(seconds: real): (p: Phase)
    ensures p == ScaleIn <==> seconds <= 2.0
    ensures p == Hold <==> 2.0 < seconds <= 4.0
    ensures p == FadeOut <==> 4.0 < seconds <= 5.0
    ensures p == Hidden <==> 5.0 < seconds
  {
    if seconds <= 2.0 then ScaleIn
    else if 2.0 < seconds && seconds <= 4.0 then Hold
    else if 4.0 < seconds && seconds <= 5.0 then FadeOut
    else Hidden
  }

  /** The opacity of the fade-out branch (RIVL.py:742-744). */
  function FadeOpacity(seconds: real): (a: real)
  {
    1.0 - CubicEaseOut((seconds - 4.0) / 1.0)
  }

  /** The scale-in branch (RIVL.py:722-730): scale and whiten by the eased
      progress, show fully opaque, and recentre. */
  function ScaleInStep(o: OverlayState, seconds: real, center: Option<Point>): OverlayState
    requires o.masked
  {
    var eased := QuadEaseInOut(seconds / 2.0);
    CenteredOn(WithBlend(WithScaleProgress(o, eased), eased).(opacity := 1.0, visible := true), center)
  }

  /** The hold branch (RIVL.py:732-738). */
  function HoldStep(o: OverlayState, center: Option<Point>): OverlayState
    requires o.masked
  {
    CenteredOn(WithBlend(WithScaleProgress(o, 1.0), 1.0).(opacity := 1.0, visible := true), center)
  }

  /** The fade-out branch (RIVL.py:740-745). */
  function FadeStep(o: OverlayState, seconds: real): OverlayState
  {
    o.(opacity := FadeOpacity(seconds), visible := true)
  }

  /** The final branch (RIVL.py:747-748). */
  function HiddenStep(o: OverlayState): OverlayState
  {
    o.(visible := false)
  }

  /** One animation step of update_ui on the item (RIVL.py:722-748), given
      the time in seconds and the centre the application has stored. */
  function Animate(o: OverlayState, seconds: real, center: Option<Point>): OverlayState
    requires o.masked
  {
    match PhaseOf(seconds)
    case ScaleIn => ScaleInStep(o, seconds, center)
    case Hold => HoldStep(o, center)
    case FadeOut => FadeStep(o, seconds)
    case Hidden => HiddenStep(o)
  }

  /** Which branch a step takes, by the time. */
  lemma AnimateByPhase(o: OverlayState, seconds: real, center: Option<Point>)
    requires o.masked
    ensures seconds <= 2.0 ==> Animate(o, seconds, center) == ScaleInStep(o, seconds, center)
    ensures 2.0 < seconds <= 4.0 ==> Animate(o, seconds, center) == HoldStep(o, center)
    ensures 4.0 < seconds <= 5.0 ==> Animate(o, seconds, center) == FadeStep(o, seconds)
    ensures 5.0 < seconds ==> Animate(o, seconds, center) == HiddenStep(o)
  {
  }

  /** Scale-in: the logo grows from ScaleMin to ScaleMax and whitens from 0
      to 1, fully opaque, visible, with the original pixmap size, and is
      centred on the stored centre. */
  lemma ScaleInEffect(o: OverlayState, seconds: real, center: Option<Point>)
    requires o.masked && 0.0 <= seconds <= 2.0
    ensures var r := ScaleInStep(o, seconds, center);
      && ScaleMin <= r.scale <= ScaleMax && 0.0 <= r.whiteFraction <= 1.0
      && r.opacity == 1.0 && r.visible
      && r.pixmapWidth == o.originalWidth && r.pixmapHeight == o.originalHeight
      && (seconds == 0.0 ==> r.scale == ScaleMin && r.whiteFraction == 0.0)
      && (seconds == 2.0 ==> r.scale == ScaleMax && r.whiteFraction == 1.0)
      && (center.Some? ==> CenteredAt(r, center.value))
  {
    ScaleForProgressEnds();
  }

  /** Hold: full size, fully white, opaque, visible, the original pixmap
      size, and centred on the stored centre. */
  lemma HoldEffect(o: OverlayState, center: Option<Point>)
    requires o.masked
    ensures var r := HoldStep(o, center);
      && r.scale == ScaleMax && r.whiteFraction == 1.0 && r.opacity == 1.0 && r.visible
      && r.pixmapWidth == o.originalWidth && r.pixmapHeight == o.originalHeight
      && (center.None? ==> r.pos == o.pos)
      && (center.Some? ==> CenteredAt(r, center.value))
  {
    ScaleForProgressEnds();
  }

  /** Fade-out: only the opacity, which is (1 - t)^3 for t the time since
      4 s, and the visibility change; scale, blend and position stay. */
  lemma FadeEffect(o: OverlayState, seconds: real)
    requires 4.0 < seconds <= 5.0
    ensures FadeStep(o, seconds) == o.(opacity := Cube(1.0 - (seconds - 4.0)), visible := true)
    ensures 0.0 <= FadeStep(o, seconds).opacity < 1.0
  {
    var t := seconds - 4.0;
    assert (seconds - 4.0) / 1.0 == t;
    PowersShrink(1.0 - t);
    CubeStrict(1.0 - t, 1.0);
    assert Cube(1.0) == 1.0;
  }

  /** During scale-in, later means larger and whiter. */
  lemma ScaleInMonotone(o: OverlayState, s1: real, s2: real, center: Option<Point>)
    requires o.masked && 0.0 <= s1 <= s2 <= 2.0
    ensures ScaleInStep(o, s1, center).scale <= ScaleInStep(o, s2, center).scale
    ensures ScaleInStep(o, s1, center).whiteFraction <= ScaleInStep(o, s2, center).whiteFraction
  {
    QuadEaseMonotone(s1 / 2.0, s2 / 2.0);
    ScaleForProgressMonotone(QuadEaseInOut(s1 / 2.0), QuadEaseInOut(s2 / 2.0));
  }

  /** During fade-out, later means strictly more transparent. */
  lemma FadeStrictlyDecreasing(o: OverlayState, s1: real, s2: real)
    requires 4.0 < s1 < s2 <= 5.0
    ensures FadeStep(o, s2).opacity < FadeStep(o, s1).opacity
  {
    assert (s1 - 4.0) / 1.0 == s1 - 4.0;
    assert (s2 - 4.0) / 1.0 == s2 - 4.0;
    CubicEaseOutStrict(s1 - 4.0, s2 - 4.0);
  }

  /** The branches meet without a jump: scale-in ends on the hold values,
      and the fade formula starts at full opacity and ends at zero. */
  lemma PhasesJoin(o: OverlayState, center: Option<Point>)
    requires o.masked
    ensures ScaleInStep(o, 2.0, center) == HoldStep(o, center)
    ensures FadeOpacity(4.0) == 1.0 && FadeOpacity(5.0) == 0.0
  {
    assert (4.0 - 4.0) / 1.0 == 0.0;
    assert (5.0 - 4.0) / 1.0 == 1.0;
  }

  /** An item centred on the stored centre stays centred through every
      step: the scale-in and hold branches recentre it, and the fade-out and
      final branches change neither its position, nor its pixmap, nor its
      scale. */
  lemma AnimateKeepsCentering(o: OverlayState, seconds: real, c: Point)
    requires o.masked && CenteredAt(o, c)
    ensures CenteredAt(Animate(o, seconds, Some(c)), c)
  {
    AnimateByPhase(o, seconds, Some(c));
    if seconds <= 2.0 {
      assert CenteredAt(ScaleInStep(o, seconds, Some(c)), c);
    } else if seconds <= 4.0 {
      assert CenteredAt(HoldStep(o, Some(c)), c);
    } else if seconds <= 5.0 {
      assert CenteredAt(FadeStep(o, seconds), c);
    } else {
      assert CenteredAt(HiddenStep(o), c);
    }
  }

  /** The ranges the animation keeps the item's values in. */
  predicate InRange(o: OverlayState)
  {
    ScaleMin <= o.scale <= ScaleMax && 0.0 <= o.whiteFraction <= 1.0 && 0.0 <= o.opacity <= 1.0
  }

  /** A new item starts in range, and so does one just masked. */
  lemma InitialInRange(width: nat, height: nat)
    ensures InRange(Initial(width, height)) && InRange(WithMask(Initial(width, height)))
  {
  }

  /** Every animation step at a non-negative time keeps the item in range. */
  lemma AnimateKeepsInRange(o: OverlayState, seconds: real, center: Option<Point>)
    requires o.masked && InRange(o) && 0.0 <= seconds
    ensures InRange(Animate(o, seconds, center))
  {
    AnimateByPhase(o, seconds, center);
    if seconds <= 2.0 {
      ScaleInEffect(o, seconds, center);
      assert InRange(ScaleInStep(o, seconds, center));
    } else if seconds <= 4.0 {
      HoldEffect(o, center);
      assert InRange(HoldStep(o, center));
    } else if seconds <= 5.0 {
      FadeEffect(o, seconds);
      assert InRange(FadeStep(o, seconds));
    } else {
      assert InRange(HiddenStep(o));
    }
  }

  /** The graphics item. Its fields are the state OverlayState describes. */
  class AnimatedOverlayItem {
    const originalWidth: nat
    const originalHeight: nat
    var masked: bool
    var pixmapWidth: nat
    var pixmapHeight: nat
    var whiteFraction: real
    var scale: real
    var opacity: real
    var visible: bool
    var pos: Point

    ghost function State(): OverlayState
      reads this
    {
      OverlayState(originalWidth, originalHeight, masked, pixmapWidth, pixmapHeight,
                   whiteFraction, scale, opacity, visible, pos)
    }

    /** AnimatedOverlayItem(pixmap) for a logo of the given size. */
    constructor (width: nat, height: nat)
      ensures State() == Initial(width, height)
    {
      originalWidth, originalHeight := width, height;
      masked := false;
      pixmapWidth, pixmapHeight := 0, 0;
      whiteFraction := 0.0;
      scale := 1.0;
      opacity := 1.0;
      visible := true;
      pos := Point(0.0, 0.0);
    }

    method SetMaskPixmap()
      modifies this
      ensures State() == WithMask(old(State()))
    {
      masked := true;
      UpdateBlendToWhite(0.0);
    }

    method UpdateBlendToWhite(fraction: real)
      requires masked
      modifies this
      ensures State() == WithBlend(old(State()), fraction)
    {
      whiteFraction := fraction;
      pixmapWidth, pixmapHeight := originalWidth, originalHeight;
    }

    method SetScaleProgress(progress: real)
      modifies this
      ensures State() == WithScaleProgress(old(State()), progress)
    {
      var eased := progress * progress * (3.0 - 2.0 * progress);
      scale := ScaleMin + (ScaleMax - ScaleMin) * eased;
    }

    /** QGraphicsItem.setOpacity. */
    method SetOpacity(value: real)
      modifies this
      ensures State() == old(State()).(opacity := value)
    {
      opacity := value;
    }

    /** QGraphicsItem.setVisible. */
    method SetVisible(value: bool)
      modifies this
      ensures State() == old(State()).(visible := value)
    {
      visible := value;
    }

    /** QGraphicsItem.setPos. */
    method SetPos(p: Point)
      modifies this
      ensures State() == old(State()).(pos := p)
    {
      pos := p;
    }
  }
}
