/** The camera: an eye position, a zoom factor and the accumulated rotation
    that is applied to world points before they are projected. */
module Cameras {
  import opened Wrappers
  import opened Points
  import opened Matrices
  import opened MatrixLaws

  /** The focal constant of the perspective divide. */
  const FocalLength: real := 500.0

  /** The record `project` returns; `isBehind` means "do not draw". */
  datatype Projection = Projection(x: real, y: real, isBehind: bool)

  /** A snapshot of the camera's three public fields. */
  datatype View = View(position: Point3D, zoom: real, transform: Matrix4x4)

  class Camera {
    var position: Point3D
    var zoom: real
    var transformMatrix: Matrix4x4

    /** The transform has the shape every `Matrix4x4` has, and it is a pure
        rotation: it never gains a translation or perspective part, so the
        dropped fourth coordinate of a transformed point stays 1. */
    predicate Valid()
      reads this
    {
      transformMatrix.Valid() && IsAffine(transformMatrix)
    }

    function State(): View
      reads this
    {
      View(position, zoom, transformMatrix)
    }

    /** `new Camera(position, zoom)`: the rotation starts as `new Matrix4x4()`. */
    constructor (position: Point3D, zoom: real)
      ensures Valid()
      ensures this.position == position && this.zoom == zoom
      ensures transformMatrix == Identity()
    {
      this.position := position;
      this.zoom := zoom;
      transformMatrix := New(None);
      IdentityAffine();
    }

    /** Depth of a point in front of the eye: its rotated z minus the eye's z. */
    function Depth(point: Point3D): real
      reads this
      requires Valid()
    {
      Transform(transformMatrix, point).z - position.z
    }

    /** `camera.project(point, canvasSize)`: rotate the point, test its depth
        against the eye, then divide by depth. The point is at or behind the
        eye exactly when the depth is not positive; then the sentinel
        (-1, -1) comes back. Otherwise the offset from the canvas centre times
        the depth is the rotated offset from the eye times zoom times the
        focal constant, with the screen y axis pointing down. */
    function Project(point: Point3D, canvasSize: real): (r: Projection)
      reads this
      requires Valid()
      ensures r.isBehind <==> Depth(point) <= 0.0
      ensures r.isBehind ==> r.x == -1.0 && r.y == -1.0
      ensures !r.isBehind ==>
        (r.x - canvasSize / 2.0) * Depth(point) ==
          (Transform(transformMatrix, point).x - position.x) * zoom * FocalLength
      ensures !r.isBehind ==>
        (r.y - canvasSize / 2.0) * Depth(point) ==
          -(Transform(transformMatrix, point).y - position.y) * zoom * FocalLength
    {
      var t := Transform(transformMatrix, point);
      var dz := t.z - position.z;
      if dz <= 0.0 then
        Projection(-1.0, -1.0, true)
      else
        var scale := zoom * FocalLength / dz;
        ScaledByDepth(t.x - position.x, zoom * FocalLength, dz);
        ScaledByDepth(-(t.y - position.y), zoom * FocalLength, dz);
        Projection((t.x - position.x) * scale + canvasSize / 2.0,
                   -(t.y - position.y) * scale + canvasSize / 2.0,
                   false)
    }
  }

  /** Multiplying back by the depth undoes the perspective divide. */
  lemma ScaledByDepth(offset: real, k: real, dz: real)
    requires dz > 0.0
    ensures offset * (k / dz) * dz == offset * k
  {
    assert (k / dz) * dz == k;
    calc {
      offset * (k / dz) * dz;
      offset * ((k / dz) * dz);
      offset * k;
    }
  }

  /** A point straight ahead of the eye, after rotation, lands on the centre
      of the canvas. */
  lemma ProjectCentre(cam: Camera, p: Point3D, canvasSize: real)
    requires cam.Valid()
    requires cam.Depth(p) > 0.0
    requires Transform(cam.transformMatrix, p).x == cam.position.x
    requires Transform(cam.transformMatrix, p).y == cam.position.y
    ensures cam.Project(p, canvasSize) == Projection(canvasSize / 2.0, canvasSize / 2.0, false)
  {
  }

  /** With the camera at the origin, unrotated and at zoom 1, the point
      (0, 0, 500) projects to the centre of the canvas. */
  lemma ProjectDeadCentre(cam: Camera, canvasSize: real)
    requires cam.Valid()
    requires cam.position == Point3D(0.0, 0.0, 0.0) && cam.zoom == 1.0
    requires cam.transformMatrix == Identity()
    ensures cam.Project(Point3D(0.0, 0.0, 500.0), canvasSize) == Projection(canvasSize / 2.0, canvasSize / 2.0, false)
  {
    TransformIdentity(Point3D(0.0, 0.0, 500.0));
    ProjectCentre(cam, Point3D(0.0, 0.0, 500.0), canvasSize);
  }

  /** Scaling the zoom by k scales the projected offset from the canvas centre
      by k, in both axes, and does not change what is behind. With k = 2:
      doubling the zoom doubles the offset. */
  lemma ProjectZoomScales(a: Camera, b: Camera, p: Point3D, canvasSize: real, k: real)
    requires a.Valid() && b.Valid()
    requires b.position == a.position && b.transformMatrix == a.transformMatrix
    requires b.zoom == k * a.zoom
    ensures b.Project(p, canvasSize).isBehind == a.Project(p, canvasSize).isBehind
    ensures !a.Project(p, canvasSize).isBehind ==>
      b.Project(p, canvasSize).x - canvasSize / 2.0 == k * (a.Project(p, canvasSize).x - canvasSize / 2.0) &&
      b.Project(p, canvasSize).y - canvasSize / 2.0 == k * (a.Project(p, canvasSize).y - canvasSize / 2.0)
  {
    var t := Transform(a.transformMatrix, p);
    var dz := t.z - a.position.z;
    if dz > 0.0 {
      var sa := a.zoom * FocalLength / dz;
      var sb := b.zoom * FocalLength / dz;
      assert sb == k * sa;
      assert (t.x - a.position.x) * sb == k * ((t.x - a.position.x) * sa);
      assert -(t.y - a.position.y) * sb == k * (-(t.y - a.position.y) * sa);
    }
  }

  /** With a positive zoom, of two points at the same depth, the one higher
      in world y is drawn higher on the canvas, that is with a smaller screen
      y: the y axis is inverted. */
  lemma ProjectInvertsY(cam: Camera, p: Point3D, q: Point3D, canvasSize: real)
    requires cam.Valid() && cam.zoom > 0.0
    requires cam.Depth(p) > 0.0 && cam.Depth(q) == cam.Depth(p)
    requires Transform(cam.transformMatrix, p).y < Transform(cam.transformMatrix, q).y
    ensures cam.Project(q, canvasSize).y < cam.Project(p, canvasSize).y
  {
    var dz := cam.Depth(p);
    var scale := cam.zoom * FocalLength / dz;
    assert cam.zoom * FocalLength > 0.0;
    assert scale > 0.0;
    var tp, tq := Transform(cam.transformMatrix, p), Transform(cam.transformMatrix, q);
    assert (tq.y - tp.y) * scale > 0.0;
  }

  /** With a positive zoom, of two points at the same depth, the one further
      along world x is further right on the canvas. */
  lemma ProjectKeepsXOrder(cam: Camera, p: Point3D, q: Point3D, canvasSize: real)
    requires cam.Valid() && cam.zoom > 0.0
    requires cam.Depth(p) > 0.0 && cam.Depth(q) == cam.Depth(p)
    requires Transform(cam.transformMatrix, p).x < Transform(cam.transformMatrix, q).x
    ensures cam.Project(p, canvasSize).x < cam.Project(q, canvasSize).x
  {
    var dz := cam.Depth(p);
    var scale := cam.zoom * FocalLength / dz;
    assert cam.zoom * FocalLength > 0.0;
    assert scale > 0.0;
    var tp, tq := Transform(cam.transformMatrix, p), Transform(cam.transformMatrix, q);
    assert (tq.x - tp.x) * scale > 0.0;
  }
}
