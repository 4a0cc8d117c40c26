/**
 * The CoreGraphics value types the core works with, with `CGFloat` modelled
 * as `real`.
 *
 * A `CGAffineTransform` is only ever built by `CGAffineTransform(rotationAngle:)`
 * and changed by `rotated(by:)` and uniform `scaledBy(x: s, y: s)`, so it is
 * always a rotation times a uniform scale. It is modelled by that pair; the
 * matrix arithmetic and the `atan2` that recovers the angle are left out.
 */
module CoreGraphics {

  datatype Point = Point(x: real, y: real)
  datatype Size = Size(width: real, height: real)
  datatype Rect = Rect(origin: Point, size: Size)

  const PointZero := Point(0.0, 0.0)
  const SizeZero := Size(0.0, 0.0)
  const RectZero := Rect(PointZero, SizeZero)

  /** `CGPoint(x: p.x + d.x, y: p.y + d.y)`, as a pan step moves a label. */
  function Translated(p: Point, d: Point): Point {
    Point(p.x + d.x, p.y + d.y)
  }

  /** A rotation by `angle` radians composed with a uniform scale. */
  datatype AffineTransform = AffineTransform(angle: real, scale: real)

  /** `CGAffineTransform(rotationAngle:)`: a pure rotation. */
  function RotationAngle(angle: real): (t: AffineTransform)
    ensures t.angle == angle && t.scale == 1.0
  {
    AffineTransform(angle, 1.0)
  }

  /** `CGAffineTransform.identity`, also `CGAffineTransform(scaleX: 1, y: 1)`. */
  const Identity := RotationAngle(0.0)

  /** `t.rotated(by: delta)`. */
  function Rotated(t: AffineTransform, delta: real): (r: AffineTransform)
    ensures r.angle == t.angle + delta && r.scale == t.scale
  {
    t.(angle := t.angle + delta)
  }

  /**
   * `t.scaledBy(x: k, y: k)`. A uniform scale commutes with a rotation, so
   * only the scale factor changes.
   */
  function ScaledBy(t: AffineTransform, k: real): (r: AffineTransform)
    ensures r.scale == t.scale * k && r.angle == t.angle
  {
    t.(scale := t.scale * k)
  }

  /** Rotating by `delta` and then by `-delta` gives back the transform. */
  lemma RotatedRoundTrip(t: AffineTransform, delta: real)
    ensures Rotated(Rotated(t, delta), -delta) == t
  {
  }

  /** Scaling never touches the rotation, and rotating never touches the scale. */
  lemma RotationAndScaleIndependent(t: AffineTransform, delta: real, k: real)
    ensures ScaledBy(Rotated(t, delta), k) == Rotated(ScaledBy(t, k), delta)
    ensures ScaledBy(t, k).angle == t.angle && Rotated(t, delta).scale == t.scale
  {
  }
}
