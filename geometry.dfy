/**
  The Core Graphics and simd values the frame handler computes with: CGRect,
  CGPoint, CGAffineTransform, and the simd vectors and 4x4 matrices that ARKit
  and RealityKit use for positions and world transforms.  All coordinates are
  `real`: the model says nothing about CGFloat or Float rounding.
*/
module Geometry {

  function Min(a: real, b: real): real { if a <= b then a else b }
  function Max(a: real, b: real): real { if a <= b then b else a }
  function Abs(a: real): real { if a < 0.0 then -a else a }

  /** A CGPoint. */
  datatype Point = Point(x: real, y: real)

  /** A CGRect: an origin and a size; either size component may be negative. */
  datatype Rect = Rect(x: real, y: real, width: real, height: real)

  /** A CGAffineTransform: the point (x, y) goes to (a*x + c*y + tx, b*x + d*y + ty). */
  datatype AffineTransform = AffineTransform(a: real, b: real, c: real, d: real, tx: real, ty: real)

  /** CGAffineTransform(scaleX:y:). */
  function ScaleTransform(sx: real, sy: real): AffineTransform {
    AffineTransform(sx, 0.0, 0.0, sy, 0.0, 0.0)
  }

  /** CGAffineTransform(translationX:y:). */
  function TranslationTransform(tx: real, ty: real): AffineTransform {
    AffineTransform(1.0, 0.0, 0.0, 1.0, tx, ty)
  }

  /** CGPoint.applying(_:). */
  function ApplyToPoint(p: Point, t: AffineTransform): Point {
    Point(t.a * p.x + t.c * p.y + t.tx, t.b * p.x + t.d * p.y + t.ty)
  }

  predicate IsStandardized(r: Rect) {
    r.width >= 0.0 && r.height >= 0.0
  }

  /** CGRect.standardized: the same rectangle, described with a non-negative size. */
  function Standardized(r: Rect): (s: Rect)
    ensures IsStandardized(s)
    ensures IsStandardized(r) ==> s == r
    ensures {s.x, s.x + s.width} == {r.x, r.x + r.width}
    ensures {s.y, s.y + s.height} == {r.y, r.y + r.height}
  {
    Rect(if r.width < 0.0 then r.x + r.width else r.x,
         if r.height < 0.0 then r.y + r.height else r.y,
         Abs(r.width), Abs(r.height))
  }

  /** The four corners of the standardized rectangle. */
  function Corners(r: Rect): seq<Point> {
    var s := Standardized(r);
    [Point(s.x, s.y), Point(s.x + s.width, s.y),
     Point(s.x, s.y + s.height), Point(s.x + s.width, s.y + s.height)]
  }

  predicate Contains(r: Rect, p: Point) {
    r.x <= p.x <= r.x + r.width && r.y <= p.y <= r.y + r.height
  }

  /**
    CGRect.applying(_:): a transform need not keep a rectangle a rectangle,
    so the result is the smallest standardized rectangle that holds the four
    transformed corners.
  */
  function Applying(r: Rect, t: AffineTransform): (q: Rect)
    ensures IsStandardized(q)
    ensures forall c | c in Corners(r) :: Contains(q, ApplyToPoint(c, t))
    ensures exists c | c in Corners(r) :: ApplyToPoint(c, t).x == q.x
    ensures exists c | c in Corners(r) :: ApplyToPoint(c, t).y == q.y
    ensures exists c | c in Corners(r) :: ApplyToPoint(c, t).x == q.x + q.width
    ensures exists c | c in Corners(r) :: ApplyToPoint(c, t).y == q.y + q.height
  {
    var cs := Corners(r);
    var p0, p1, p2, p3 := ApplyToPoint(cs[0], t), ApplyToPoint(cs[1], t),
                          ApplyToPoint(cs[2], t), ApplyToPoint(cs[3], t);
    var minX := Min(Min(p0.x, p1.x), Min(p2.x, p3.x));
    var maxX := Max(Max(p0.x, p1.x), Max(p2.x, p3.x));
    var minY := Min(Min(p0.y, p1.y), Min(p2.y, p3.y));
    var maxY := Max(Max(p0.y, p1.y), Max(p2.y, p3.y));
    Rect(minX, minY, maxX - minX, maxY - minY)
  }

  /**
    CGRect.flippedCoordinates (ViewController.swift): mirror y by a scale of
    -1, then translate y by +1, taking a Vision box (origin bottom left) to
    one with its origin top left.  The y-interval [y, y + h] becomes
    [1 - y - h, 1 - y]; x, width and height are those of the standardized rect.
  */
  function FlippedCoordinates(r: Rect): (f: Rect)
    ensures var s := Standardized(r);
      f == Rect(s.x, 1.0 - s.y - s.height, s.width, s.height)
  {
    var flipped := Applying(r, ScaleTransform(1.0, -1.0));
    Applying(flipped, TranslationTransform(0.0, 1.0))
  }

  /** CGRect.midX and CGRect.midY, both measured on the standardized rect. */
  function MidX(r: Rect): (m: real)
    ensures Standardized(r).x <= m <= Standardized(r).x + Standardized(r).width
    ensures m - Standardized(r).x == Standardized(r).x + Standardized(r).width - m
  {
    Standardized(r).x + Standardized(r).width / 2.0
  }

  function MidY(r: Rect): (m: real)
    ensures Standardized(r).y <= m <= Standardized(r).y + Standardized(r).height
    ensures m - Standardized(r).y == Standardized(r).y + Standardized(r).height - m
  {
    Standardized(r).y + Standardized(r).height / 2.0
  }

  /** The point the raycast is aimed through: the centre of the rect. */
  function CenterPoint(r: Rect): (p: Point)
    ensures Contains(Standardized(r), p)
    ensures p.x - Standardized(r).x == Standardized(r).x + Standardized(r).width - p.x
    ensures p.y - Standardized(r).y == Standardized(r).y + Standardized(r).height - p.y
  {
    Point(MidX(r), MidY(r))
  }

  /** Flipping twice gives back the rectangle (standardized). */
  lemma FlippedCoordinatesInvolution(r: Rect)
    ensures FlippedCoordinates(FlippedCoordinates(r)) == Standardized(r)
    ensures IsStandardized(r) ==> FlippedCoordinates(FlippedCoordinates(r)) == r
  {
    var s, f := Standardized(r), FlippedCoordinates(r);
    assert f == Rect(s.x, 1.0 - s.y - s.height, s.width, s.height);
    assert Standardized(f) == f;
  }

  /** The flip keeps the horizontal centre and mirrors the vertical one about 1/2. */
  lemma FlippedCenter(r: Rect)
    ensures CenterPoint(FlippedCoordinates(r)) == Point(MidX(r), 1.0 - MidY(r))
  {
  }

  /** SIMD3<Float>: a position in world space. */
  datatype Vec3 = Vec3(x: real, y: real, z: real)

  /** SIMD4<Float>: one column of a 4x4 matrix. */
  datatype Vec4 = Vec4(x: real, y: real, z: real, w: real)

  /** simd_float4x4, by columns; column 3 holds the translation of a world transform. */
  datatype Float4x4 = Float4x4(column0: Vec4, column1: Vec4, column2: Vec4, column3: Vec4)

  /** `[m.columns.3.x, m.columns.3.y, m.columns.3.z]`: where a transform puts the origin. */
  function TranslationOf(m: Float4x4): (v: Vec3)
    ensures var o := ApplyToOrigin(m); v == Vec3(o.x, o.y, o.z)
  {
    Vec3(m.column3.x, m.column3.y, m.column3.z)
  }

  /** m * (0, 0, 0, 1): the image of the origin as a homogeneous point. */
  function ApplyToOrigin(m: Float4x4): Vec4 {
    var p := Vec4(0.0, 0.0, 0.0, 1.0);
    Vec4(m.column0.x * p.x + m.column1.x * p.y + m.column2.x * p.z + m.column3.x * p.w,
         m.column0.y * p.x + m.column1.y * p.y + m.column2.y * p.z + m.column3.y * p.w,
         m.column0.z * p.x + m.column1.z * p.y + m.column2.z * p.z + m.column3.z * p.w,
         m.column0.w * p.x + m.column1.w * p.y + m.column2.w * p.z + m.column3.w * p.w)
  }
}
