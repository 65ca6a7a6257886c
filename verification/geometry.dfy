/**
 Closed-form geometry of one image-to-image transition: the border lines that
 close in on the destination region during the two reveal phases, and the
 rectangle and opacity of the destination image during the crossfade.
 Coordinates are canvas pixels over `real`.
 */
module Geometry {

  datatype Point = Point(x: real, y: real)

  /** An axis-aligned rectangle given by its top-left and bottom-right corners. */
  datatype Rect = Rect(x1: real, y1: real, x2: real, y2: real)

  /** Inset of the initial border lines from the canvas edges. */
  const Margin: real := 1.0
  /** Fixed size of the destination region; only its top-left corner varies per animation. */
  const DestWidth: real := 80.0
  const DestHeight: real := 60.0
  /** Full opacity of the destination image. */
  const OpaqueAlpha: real := 255.0

  /** `v` lies on the closed segment between `a` and `b`, in either order. */
  predicate Between(v: real, a: real, b: real)
  {
    (a <= v <= b) || (b <= v <= a)
  }

  /** `v` lies strictly inside the segment between `a` and `b` (or on it when it is a point). */
  predicate StrictlyBetween(v: real, a: real, b: real)
  {
    (a < v < b) || (b < v < a) || (a == v == b)
  }

  /** The destination region of an animation whose region starts at `dest`. */
  function DestRegion(dest: Point): (r: Rect)
    ensures r.x1 == dest.x && r.y1 == dest.y
    ensures r.x2 - r.x1 == DestWidth && r.y2 - r.y1 == DestHeight
  {
    Rect(dest.x, dest.y, dest.x + DestWidth, dest.y + DestHeight)
  }

  /** The whole canvas. */
  function CanvasRect(w: real, h: real): (r: Rect)
    ensures r.x1 == 0.0 && r.y1 == 0.0
    ensures r.x2 - r.x1 == w && r.y2 - r.y1 == h
  {
    Rect(0.0, 0.0, w, h)
  }

  /** `inner` lies inside `outer` (borders included). */
  predicate Contains(outer: Rect, inner: Rect)
  {
    outer.x1 <= inner.x1 && outer.y1 <= inner.y1 && inner.x2 <= outer.x2 && inner.y2 <= outer.y2
  }

  /** Position at progress `kappa` of a border line that starts at the near inset `Margin`
      and ends at the region edge `target` (top line, left line). */
  function RevealNear(kappa: real, target: real): (y: real)
    ensures kappa == 0.0 ==> y == Margin
    ensures kappa == 1.0 ==> y == target
  {
    Margin + kappa * (target - Margin)
  }

  /** Position at progress `kappa` of a border line that starts at the far inset
      `extent - Margin` and ends at the region edge `target` (bottom line, right line). */
  function RevealFar(kappa: real, extent: real, target: real): (y: real)
    ensures kappa == 0.0 ==> y == extent - Margin
    ensures kappa == 1.0 ==> y == target
  {
    (extent - Margin) * (1.0 - kappa) + kappa * target
  }

  /** The box the four border lines enclose while the animation holds: the canvas, inset by
      the margin on every side. */
  function InsetBox(w: real, h: real): (b: Rect)
    ensures b.x1 - CanvasRect(w, h).x1 == Margin && CanvasRect(w, h).x2 - b.x2 == Margin
    ensures b.y1 - CanvasRect(w, h).y1 == Margin && CanvasRect(w, h).y2 - b.y2 == Margin
  {
    Rect(Margin, Margin, w - Margin, h - Margin)
  }

  /** The box the border lines enclose during the vertical reveal at progress `kappa`: the
      sides stay at the inset while the top and bottom close in on the region. */
  function VerticalRevealBox(dest: Point, kappa: real, w: real, h: real): (b: Rect)
    ensures kappa == 0.0 ==> b == InsetBox(w, h)
    ensures kappa == 1.0 ==> b.y1 == dest.y && b.y2 == dest.y + DestHeight
    ensures b.x1 == Margin && b.x2 == w - Margin
  {
    Rect(Margin, RevealNear(kappa, dest.y), w - Margin, RevealFar(kappa, h, dest.y + DestHeight))
  }

  /** The box the border lines enclose during the horizontal reveal at progress `kappa`: it
      starts where the vertical reveal ended and closes in on the destination region. */
  function HorizontalRevealBox(dest: Point, kappa: real, w: real, h: real): (b: Rect)
    ensures kappa == 0.0 ==> b == VerticalRevealBox(dest, 1.0, w, h)
    ensures kappa == 1.0 ==> b == DestRegion(dest)
  {
    Rect(RevealNear(kappa, dest.x), dest.y, RevealFar(kappa, w, dest.x + DestWidth), dest.y + DestHeight)
  }

  /** The destination image's rectangle at crossfade progress `kappa`: each edge moves
      linearly from the destination region towards the matching canvas edge. */
  function ExpandRect(dest: Point, kappa: real, w: real, h: real): (r: Rect)
    ensures kappa == 0.0 ==> r == DestRegion(dest)
    ensures kappa == 1.0 ==> r == CanvasRect(w, h)
  {
    Rect(ShrinkEdge(dest.x, kappa),
         ShrinkEdge(dest.y, kappa),
         GrowEdge(dest.x + DestWidth, w, kappa),
         GrowEdge(dest.y + DestHeight, h, kappa))
  }

  /** A near edge at `e` moving linearly towards the canvas origin. */
  function ShrinkEdge(e: real, kappa: real): real
  {
    e * (1.0 - kappa)
  }

  /** A far edge at `e` moving linearly towards the canvas extent. */
  function GrowEdge(e: real, extent: real, kappa: real): real
  {
    e + (extent - e) * kappa
  }

  /** Opacity of the destination image at crossfade progress `kappa`. */
  function Opacity(kappa: real): (o: real)
    ensures kappa == 0.0 ==> o == 0.0
    ensures kappa == 1.0 ==> o == OpaqueAlpha
    ensures 0.0 < kappa < 1.0 ==> 0.0 < o < OpaqueAlpha
  {
    OpaqueAlpha * kappa
  }

  /** Products of non-negative (positive) factors are non-negative (positive). */
  lemma MulSign(a: real, b: real)
    requires 0.0 <= a && 0.0 <= b
    ensures 0.0 <= a * b
    ensures 0.0 < a && 0.0 < b ==> 0.0 < a * b
  {
  }

  /** Linear interpolation is a convex combination of its endpoints for progress in [0,1]
      and lies strictly inside them for progress in (0,1). */
  lemma LerpBetween(a: real, b: real, kappa: real)
    requires 0.0 <= kappa <= 1.0
    ensures Between(a + kappa * (b - a), a, b)
    ensures 0.0 < kappa < 1.0 ==> StrictlyBetween(a + kappa * (b - a), a, b)
  {
    var d := kappa * (b - a);
    var rest := (1.0 - kappa) * (b - a);
    assert d + rest == b - a;
    if a <= b {
      MulSign(kappa, b - a);
      MulSign(1.0 - kappa, b - a);
    } else {
      MulSign(kappa, a - b);
      MulSign(1.0 - kappa, a - b);
      assert kappa * (a - b) == -d;
      assert (1.0 - kappa) * (a - b) == -rest;
    }
  }

  /** The near line starts at the inset, ends on the region edge, and in between stays on
      the segment joining them. */
  lemma RevealNearPath(kappa: real, target: real)
    ensures RevealNear(0.0, target) == Margin
    ensures RevealNear(1.0, target) == target
    ensures 0.0 <= kappa <= 1.0 ==> Between(RevealNear(kappa, target), Margin, target)
    ensures 0.0 < kappa < 1.0 ==> StrictlyBetween(RevealNear(kappa, target), Margin, target)
  {
    if 0.0 <= kappa <= 1.0 {
      LerpBetween(Margin, target, kappa);
    }
  }

  /** The far line starts at the far inset, ends on the region edge, and in between stays
      on the segment joining them. */
  lemma RevealFarPath(kappa: real, extent: real, target: real)
    ensures RevealFar(0.0, extent, target) == extent - Margin
    ensures RevealFar(1.0, extent, target) == target
    ensures 0.0 <= kappa <= 1.0 ==> Between(RevealFar(kappa, extent, target), extent - Margin, target)
    ensures 0.0 < kappa < 1.0 ==> StrictlyBetween(RevealFar(kappa, extent, target), extent - Margin, target)
  {
    var a := extent - Margin;
    assert RevealFar(kappa, extent, target) == a + kappa * (target - a);
    if 0.0 <= kappa <= 1.0 {
      LerpBetween(a, target, kappa);
    }
  }

  /** The crossfade rectangle is the destination region at progress 0 and the whole canvas
      at progress 1. */
  lemma ExpandRectEndpoints(dest: Point, w: real, h: real)
    ensures ExpandRect(dest, 0.0, w, h) == DestRegion(dest)
    ensures ExpandRect(dest, 1.0, w, h) == CanvasRect(w, h)
  {
  }

  /** One axis of the crossfade rectangle: the near edge moves from `lo` down to 0 and the
      far edge from `hi` up to `extent`, both monotonically in the progress. */
  lemma ExpandAxis(lo: real, hi: real, extent: real, k1: real, k2: real)
    requires 0.0 <= lo && hi <= extent
    requires 0.0 <= k1 <= k2 <= 1.0
    ensures 0.0 <= ShrinkEdge(lo, k2) <= ShrinkEdge(lo, k1) <= lo
    ensures hi <= GrowEdge(hi, extent, k1) <= GrowEdge(hi, extent, k2) <= extent
  {
    MulSign(lo, k2 - k1);
    MulSign(lo, k1);
    MulSign(lo, 1.0 - k2);
    assert lo * (1.0 - k2) == lo * (1.0 - k1) - lo * (k2 - k1);
    assert lo * (1.0 - k1) == lo - lo * k1;
    var g := extent - hi;
    MulSign(g, k2 - k1);
    MulSign(g, k1);
    MulSign(g, 1.0 - k2);
    assert g * k2 == g * k1 + g * (k2 - k1);
    assert g * k2 == g - g * (1.0 - k2);
  }

  /** When the destination region lies on the canvas, the crossfade rectangle only grows:
      a later rectangle contains an earlier one, and every one of them lies between the
      destination region and the canvas. */
  lemma ExpandRectGrows(dest: Point, k1: real, k2: real, w: real, h: real)
    requires Contains(CanvasRect(w, h), DestRegion(dest))
    requires 0.0 <= k1 <= k2 <= 1.0
    ensures Contains(ExpandRect(dest, k2, w, h), ExpandRect(dest, k1, w, h))
    ensures Contains(ExpandRect(dest, k1, w, h), DestRegion(dest))
    ensures Contains(CanvasRect(w, h), ExpandRect(dest, k2, w, h))
  {
    ExpandAxis(dest.x, dest.x + DestWidth, w, k1, k2);
    ExpandAxis(dest.y, dest.y + DestHeight, h, k1, k2);
  }

  /** Opacity rises linearly from fully transparent to fully opaque, and stays strictly
      between the two inside the phase. */
  lemma OpacityRange(kappa: real)
    ensures Opacity(0.0) == 0.0 && Opacity(1.0) == OpaqueAlpha
    ensures 0.0 < kappa < 1.0 ==> 0.0 < Opacity(kappa) < OpaqueAlpha
  {
  }
}
