/** The 3-D to 2-D projection of the knowledge graph (`project3DTo2D`): rotate about
    the Y axis, then about the X axis, then divide by depth at a camera distance of 300. */
module Projection {

  datatype Vec3 = Vec3(x: real, y: real, z: real)
  datatype Point = Point(x: real, y: real)

  /** `rotation.x` / `rotation.y` of the view, in radians. */
  datatype Rotation = Rotation(x: real, y: real)

  /** The host's `Math.cos` and `Math.sin`. The model only relies on their values at 0
      and on the unit-circle identity. */
  datatype Trig = Trig(cos: real -> real, sin: real -> real) {
    /** cos² + sin² at an angle. */
    function Circle(a: real): real {
      cos(a) * cos(a) + sin(a) * sin(a)
    }

    ghost predicate Valid() {
      && cos(0.0) == 1.0
      && sin(0.0) == 0.0
      && forall a :: Circle(a) == 1.0
    }
  }

  /** Where and how the graph is looked at: canvas centre, zoom factor and rotation. */
  datatype View = View(centerX: real, centerY: real, zoom: real, rotation: Rotation, trig: Trig)

  const CameraDistance: real := 300.0

  function Norm2(v: Vec3): real {
    v.x * v.x + v.y * v.y + v.z * v.z
  }

  /** The point lies strictly inside the sphere of radius `CameraDistance` about the origin,
      so no rotation can bring it to or behind the camera plane. */
  predicate InsideCamera(v: Vec3) {
    Norm2(v) < CameraDistance * CameraDistance
  }

  /** A rotation in a coordinate plane keeps the squared length of the pair. */
  lemma PlaneRotationKeepsLength(a: real, b: real, c: real, s: real)
    ensures c * c + s * s == 1.0 ==>
              (a * c - b * s) * (a * c - b * s) + (a * s + b * c) * (a * s + b * c) == a * a + b * b
  {
    calc {
      (a * c - b * s) * (a * c - b * s) + (a * s + b * c) * (a * s + b * c);
      a * a * (c * c) - 2.0 * a * b * c * s + b * b * (s * s) + a * a * (s * s) + 2.0 * a * b * s * c + b * b * (c * c);
      a * a * (c * c + s * s) + b * b * (c * c + s * s);
    }
  }

  /** Valid trigonometry puts every angle on the unit circle. */
  lemma OnUnitCircle(trig: Trig, a: real)
    ensures trig.Valid() ==> trig.cos(a) * trig.cos(a) + trig.sin(a) * trig.sin(a) == 1.0
  {
    if trig.Valid() {
      assert trig.Circle(a) == 1.0;
    }
  }

  /** Turns `v` about the Y axis by the angle with cosine `cy` and sine `sy`, then about the
      X axis by the angle with cosine `cx` and sine `sx`. */
  function Turn(v: Vec3, cx: real, sx: real, cy: real, sy: real): (r: Vec3)
    ensures cx == 1.0 && sx == 0.0 && cy == 1.0 && sy == 0.0 ==> r == v
    ensures v == Vec3(0.0, 0.0, 0.0) ==> r == v
  {
    var x := v.x * cy - v.z * sy;
    var z := v.x * sy + v.z * cy;
    Vec3(x, v.y * cx - z * sx, v.y * sx + z * cx)
  }

  /** Two plane rotations keep the squared length. */
  lemma TurnKeepsLength(v: Vec3, cx: real, sx: real, cy: real, sy: real)
    ensures cx * cx + sx * sx == 1.0 && cy * cy + sy * sy == 1.0 ==> Norm2(Turn(v, cx, sx, cy, sy)) == Norm2(v)
  {
    var z := v.x * sy + v.z * cy;
    PlaneRotationKeepsLength(v.x, v.z, cy, sy);
    PlaneRotationKeepsLength(v.y, z, cx, sx);
  }

  /** The rotation part of `project3DTo2D`: first about the Y axis by `rot.y`, then about the
      X axis by `rot.x`. It is a rigid motion (lengths are kept), the zero rotation moves
      nothing, and the origin never moves. */
  function Rotate(v: Vec3, rot: Rotation, trig: Trig): (r: Vec3)
    ensures trig.Valid() ==> Norm2(r) == Norm2(v)
    ensures trig.Valid() && rot == Rotation(0.0, 0.0) ==> r == v
    ensures v == Vec3(0.0, 0.0, 0.0) ==> r == v
  {
    OnUnitCircle(trig, rot.x);
    OnUnitCircle(trig, rot.y);
    TurnKeepsLength(v, trig.cos(rot.x), trig.sin(rot.x), trig.cos(rot.y), trig.sin(rot.y));
    Turn(v, trig.cos(rot.x), trig.sin(rot.x), trig.cos(rot.y), trig.sin(rot.y))
  }

  /** A point inside the camera sphere is in front of the camera plane. */
  lemma InFrontOfCamera(v: Vec3)
    requires InsideCamera(v)
    ensures CameraDistance + v.z > 0.0
  {
    assert v.x * v.x >= 0.0 && v.y * v.y >= 0.0;
    assert (CameraDistance + v.z) * (CameraDistance - v.z) > 0.0;
  }

  /** The perspective factor `(distance / (distance + z)) * zoom` of a rotated point in front
      of the camera: positive whenever the zoom is. */
  function Perspective(p: Vec3, zoom: real): (r: real)
    requires CameraDistance + p.z > 0.0
    ensures zoom > 0.0 ==> r > 0.0
  {
    (CameraDistance / (CameraDistance + p.z)) * zoom
  }

  /** The rotated point's x and y, scaled and offset from the canvas centre. */
  function Place(p: Vec3, scale: real, view: View): Point {
    Point(view.centerX + p.x * scale, view.centerY + p.y * scale)
  }

  /** `project3DTo2D(pos3D, centerX, centerY, zoom, rotation)`. The centre of the graph always
      lands on the centre of the canvas; without rotation the projection is the plain
      perspective divide `centerX + x * (300 / (300 + z)) * zoom`, and likewise for y. */
  function Project(v: Vec3, view: View): (r: Point)
    requires view.trig.Valid() && InsideCamera(v)
    ensures v == Vec3(0.0, 0.0, 0.0) ==> r == Point(view.centerX, view.centerY)
    ensures view.rotation == Rotation(0.0, 0.0) ==>
              r == Point(view.centerX + v.x * ((CameraDistance / (CameraDistance + v.z)) * view.zoom),
                         view.centerY + v.y * ((CameraDistance / (CameraDistance + v.z)) * view.zoom))
  {
    var p := Rotate(v, view.rotation, view.trig);
    InFrontOfCamera(p);
    Place(p, Perspective(p, view.zoom), view)
  }
}
