/**
 * Plane geometry shared by the editor: Compose's `Offset` and `DpOffset` both
 * become `Offset` over reals, and the dp -> px conversion is multiplication by
 * a fixed positive screen density.
 */
module Geometry {

  /** A point or a displacement in the plane. */
  datatype Offset = Offset(x: real, y: real)

  const Zero: Offset := Offset(0.0, 0.0)

  /** Pixels per dp of the screen; always positive. */
  type Density = d: real | d > 0.0 witness 1.0

  function Add(a: Offset, b: Offset): Offset
  {
    Offset(a.x + b.x, a.y + b.y)
  }

  function Sub(a: Offset, b: Offset): Offset
  {
    Offset(a.x - b.x, a.y - b.y)
  }

  function Times(a: Offset, k: real): Offset
  {
    Offset(a.x * k, a.y * k)
  }

  function Div(a: Offset, k: real): Offset
    requires k != 0.0
  {
    Offset(a.x / k, a.y / k)
  }

  /** `Offset.getDistanceSquared()`: the squared length of a displacement. */
  function DistanceSquared(a: Offset): (r: real)
    ensures r >= 0.0
  {
    a.x * a.x + a.y * a.y
  }

  /** `with(density) { p.toPx() }` for a dp position. */
  function ToPx(p: Offset, d: Density): Offset
  {
    Times(p, d)
  }

  /** `with(density) { delta.toDp() }` for a px displacement. */
  function ToDp(delta: Offset, d: Density): Offset
  {
    Div(delta, d)
  }

  /** Converting a px displacement to dp and back to px gives it back. */
  lemma ToPxToDp(delta: Offset, d: Density)
    ensures ToPx(ToDp(delta, d), d) == delta
  {
  }

  /**
   * The squared snapping radius used when a dragged connection is dropped:
   * the squared length of the px vector (5dp, 5dp).
   */
  function SnapRadiusSquared(d: Density): (r: real)
    ensures r == 50.0 * d * d
  {
    DistanceSquared(Offset(5.0 * d, 5.0 * d))
  }

  /**
   * A socket's stored anchor: its measured root position minus the node's
   * measured root position, divided by the zoom scale, so that it is in the
   * node's unscaled units.
   */
  function AnchorFromMeasurement(measured: Offset, nodeRoot: Offset, scale: real): Offset
    requires scale > 0.0
  {
    Div(Sub(measured, nodeRoot), scale)
  }

  /** Re-applying the scale and the node origin to a stored anchor gives back the measurement. */
  lemma AnchorFromMeasurementInverse(measured: Offset, nodeRoot: Offset, scale: real)
    requires scale > 0.0
    ensures Add(Times(AnchorFromMeasurement(measured, nodeRoot, scale), scale), nodeRoot) == measured
  {
    var a := AnchorFromMeasurement(measured, nodeRoot, scale);
    assert a.x * scale == measured.x - nodeRoot.x;
    assert a.y * scale == measured.y - nodeRoot.y;
  }

  /** The anchor is the unique offset that, scaled and moved to the node origin, is the measurement. */
  lemma AnchorFromMeasurementUnique(measured: Offset, nodeRoot: Offset, scale: real, a: Offset)
    requires scale > 0.0
    requires Add(Times(a, scale), nodeRoot) == measured
    ensures a == AnchorFromMeasurement(measured, nodeRoot, scale)
  {
    assert a.x == (measured.x - nodeRoot.x) / scale;
    assert a.y == (measured.y - nodeRoot.y) / scale;
  }
}
