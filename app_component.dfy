/** The viewer component: it builds the static scene (a row of cube
    "buildings" and a floor grid), draws one frame as buildings then floor, and
    turns key presses into camera moves, rotations and zooms.

    The angle step of the rotation keys enters as the pair (c, s) =
    (cos 0.05, sin 0.05); a key that turns by −0.05 uses (c, −s), since cosine
    is even and sine is odd. */
module Viewer {
  import opened Wrappers
  import opened Points
  import opened Matrices
  import opened MatrixLaws
  import opened Cameras
  import opened Lines

  const CanvasSize: real := 600.0

  // Key handling.
  const TranslationStep: real := 20.0
  const ZoomStep: real := 0.1

  // Scene layout.
  const HouseSize: real := 100.0
  const HouseHeight: real := 150.0
  const Spacing: real := 150.0
  const SideOffset: real := 250.0
  const BuildingZOffset: real := -350.0
  const BuildingColor: string := "black"
  const FloorRange: int := 800
  const FloorDepth: int := 800
  const FloorSpacing: int := 50
  const FloorColor: string := "#b5d5aaff"
  const FloorZStart: int := 100

  /** The keys the controller reacts to. */
  const Keys: set<string> :=
    {"ArrowLeft", "ArrowRight", "ArrowUp", "ArrowDown", "PageUp", "PageDown",
     "w", "s", "a", "d", "q", "e", "x", "z"}

  // ---------------------------------------------------------------------------
  // Key handling, as functions of the camera's state

  /** What `rotateCamera(axis, angle)` does to the accumulated transform, with
      (c, s) = (cos angle, sin angle): the rotation about the axis is
      left-multiplied; any other axis leaves the transform as it is. */
  function Rotated(axis: char, c: real, s: real, m: Matrix4x4): (r: Matrix4x4)
    requires m.Valid()
    ensures r.Valid()
  {
    if axis == 'x' then Product(RotationX(c, s), m)
    else if axis == 'y' then Product(RotationY(c, s), m)
    else if axis == 'z' then Product(RotationZ(c, s), m)
    else m
  }

  /** What `handleKey` does to the camera's state. */
  function KeyStep(key: string, c: real, s: real, v: View): (w: View)
    requires v.transform.Valid()
    ensures w.transform.Valid()
  {
    var p := v.position;
    if key == "ArrowLeft" then v.(position := p.(x := p.x - TranslationStep))
    else if key == "ArrowRight" then v.(position := p.(x := p.x + TranslationStep))
    else if key == "ArrowUp" then v.(position := p.(y := p.y + TranslationStep))
    else if key == "ArrowDown" then v.(position := p.(y := p.y - TranslationStep))
    else if key == "PageUp" then v.(position := p.(z := p.z + TranslationStep))
    else if key == "PageDown" then v.(position := p.(z := p.z - TranslationStep))
    else if key == "w" then v.(transform := Rotated('x', c, -s, v.transform))
    else if key == "s" then v.(transform := Rotated('x', c, s, v.transform))
    else if key == "a" then v.(transform := Rotated('y', c, -s, v.transform))
    else if key == "d" then v.(transform := Rotated('y', c, s, v.transform))
    else if key == "q" then v.(transform := Rotated('z', c, -s, v.transform))
    else if key == "e" then v.(transform := Rotated('z', c, s, v.transform))
    else if key == "x" then v.(zoom := v.zoom * (1.0 - ZoomStep))
    else if key == "z" then v.(zoom := v.zoom * (1.0 + ZoomStep))
    else v
  }

  /** The arrow and page keys move the eye by 20 along one axis and change
      nothing else. */
  lemma TranslationKeysMoveOneAxis(c: real, s: real, v: View)
    requires v.transform.Valid()
    ensures KeyStep("ArrowLeft", c, s, v) == v.(position := Point3D(v.position.x - 20.0, v.position.y, v.position.z))
    ensures KeyStep("ArrowRight", c, s, v) == v.(position := Point3D(v.position.x + 20.0, v.position.y, v.position.z))
    ensures KeyStep("ArrowUp", c, s, v) == v.(position := Point3D(v.position.x, v.position.y + 20.0, v.position.z))
    ensures KeyStep("ArrowDown", c, s, v) == v.(position := Point3D(v.position.x, v.position.y - 20.0, v.position.z))
    ensures KeyStep("PageUp", c, s, v) == v.(position := Point3D(v.position.x, v.position.y, v.position.z + 20.0))
    ensures KeyStep("PageDown", c, s, v) == v.(position := Point3D(v.position.x, v.position.y, v.position.z - 20.0))
  {
  }

  /** The rotation keys leave position and zoom alone and left-multiply the
      transform by the rotation about their axis (w/s about x, a/d about y,
      q/e about z; the first of each pair by the negative step). */
  lemma RotationKeysLeftMultiply(key: string, c: real, s: real, v: View)
    requires v.transform.Valid()
    requires key in {"w", "s", "a", "d", "q", "e"}
    ensures KeyStep(key, c, s, v).position == v.position
    ensures KeyStep(key, c, s, v).zoom == v.zoom
    ensures KeyStep(key, c, s, v).transform == Product(RotationStep(key, c, s), v.transform)
  {
  }

  /** The rotation about the axis of a rotation key, by the key's signed step. */
  function RotationStep(key: string, c: real, s: real): (r: Matrix4x4)
    requires key in {"w", "s", "a", "d", "q", "e"}
    ensures r.Valid() && IsAffine(r)
  {
    if key == "w" then RotationX(c, -s) else if key == "s" then RotationX(c, s)
    else if key == "a" then RotationY(c, -s) else if key == "d" then RotationY(c, s)
    else if key == "q" then RotationZ(c, -s) else RotationZ(c, s)
  }

  /** On an affine transform (every camera's), after a rotation key every
      point is rotated by the old transform first and by the key's rotation
      after, about the world axes. */
  lemma RotationKeysRotatePoints(key: string, c: real, s: real, v: View, p: Point3D)
    requires v.transform.Valid() && IsAffine(v.transform)
    requires key in {"w", "s", "a", "d", "q", "e"}
    ensures Transform(KeyStep(key, c, s, v).transform, p) ==
      Transform(RotationStep(key, c, s), Transform(v.transform, p))
  {
    RotationKeysLeftMultiply(key, c, s, v);
    TransformProduct(RotationStep(key, c, s), v.transform, p);
  }

  /** 'x' zooms out by 10 % and 'z' zooms in by 10 %; every other key keeps the
      zoom, so a positive zoom stays positive whatever is pressed. */
  lemma ZoomKeysScale(key: string, c: real, s: real, v: View)
    requires v.transform.Valid()
    ensures KeyStep("x", c, s, v) == v.(zoom := v.zoom * 0.9)
    ensures KeyStep("z", c, s, v) == v.(zoom := v.zoom * 1.1)
    ensures v.zoom > 0.0 ==> KeyStep(key, c, s, v).zoom > 0.0
  {
  }

  /** Zooming out then in does not restore the zoom: it leaves 99 % of it. */
  lemma ZoomOutInLosesOnePercent(c: real, s: real, v: View)
    requires v.transform.Valid()
    ensures KeyStep("z", c, s, KeyStep("x", c, s, v)).zoom == v.zoom * 0.99
    ensures KeyStep("x", c, s, KeyStep("z", c, s, v)).zoom == v.zoom * 0.99
  {
  }

  /** A key outside the switch leaves the camera exactly as it was. */
  lemma UnknownKeyIgnored(key: string, c: real, s: real, v: View)
    requires v.transform.Valid()
    requires key !in Keys
    ensures KeyStep(key, c, s, v) == v
  {
  }

  /** No key introduces translation or perspective into the transform. */
  lemma KeyStepKeepsAffine(key: string, c: real, s: real, v: View)
    requires v.transform.Valid() && IsAffine(v.transform)
    ensures IsAffine(KeyStep(key, c, s, v).transform)
  {
    if key in {"w", "s"} {
      ProductAffine(RotationX(c, if key == "w" then -s else s), v.transform);
    } else if key in {"a", "d"} {
      ProductAffine(RotationY(c, if key == "a" then -s else s), v.transform);
    } else if key in {"q", "e"} {
      ProductAffine(RotationZ(c, if key == "q" then -s else s), v.transform);
    }
  }

  /** Turning by −θ and then by θ (or the other way round) about one axis
      restores the transform, given c² + s² = 1. */
  lemma TurnBackRestores(r: Matrix4x4, back: Matrix4x4, m: Matrix4x4)
    requires r.Valid() && back.Valid() && m.Valid()
    requires Product(back, r) == Identity()
    ensures Product(back, Product(r, m)) == m
  {
    ProductAssociative(back, r, m);
    IdentityLeftUnit(m);
  }

  /** Each arrow key undoes the opposite one, and each page key the other. */
  lemma TranslationKeysUndo(c: real, s: real, v: View)
    requires v.transform.Valid()
    ensures KeyStep("ArrowRight", c, s, KeyStep("ArrowLeft", c, s, v)) == v
    ensures KeyStep("ArrowLeft", c, s, KeyStep("ArrowRight", c, s, v)) == v
    ensures KeyStep("ArrowDown", c, s, KeyStep("ArrowUp", c, s, v)) == v
    ensures KeyStep("ArrowUp", c, s, KeyStep("ArrowDown", c, s, v)) == v
    ensures KeyStep("PageDown", c, s, KeyStep("PageUp", c, s, v)) == v
    ensures KeyStep("PageUp", c, s, KeyStep("PageDown", c, s, v)) == v
  {
  }

  /** 'w' and 's' undo each other, in either order, given c² + s² = 1. */
  lemma PitchKeysUndo(c: real, s: real, v: View)
    requires c * c + s * s == 1.0
    requires v.transform.Valid()
    ensures KeyStep("s", c, s, KeyStep("w", c, s, v)) == v
    ensures KeyStep("w", c, s, KeyStep("s", c, s, v)) == v
  {
    assert -(-s) == s && c * c + (-s) * (-s) == 1.0;
    RotationXUndo(c, s);
    RotationXUndo(c, -s);
    TurnBackRestores(RotationX(c, -s), RotationX(c, s), v.transform);
    TurnBackRestores(RotationX(c, s), RotationX(c, -s), v.transform);
  }

  /** 'a' and 'd' undo each other, in either order, given c² + s² = 1. */
  lemma YawKeysUndo(c: real, s: real, v: View)
    requires c * c + s * s == 1.0
    requires v.transform.Valid()
    ensures KeyStep("d", c, s, KeyStep("a", c, s, v)) == v
    ensures KeyStep("a", c, s, KeyStep("d", c, s, v)) == v
  {
    assert -(-s) == s && c * c + (-s) * (-s) == 1.0;
    RotationYUndo(c, s);
    RotationYUndo(c, -s);
    TurnBackRestores(RotationY(c, -s), RotationY(c, s), v.transform);
    TurnBackRestores(RotationY(c, s), RotationY(c, -s), v.transform);
  }

  /** 'q' and 'e' undo each other, in either order, given c² + s² = 1. */
  lemma RollKeysUndo(c: real, s: real, v: View)
    requires c * c + s * s == 1.0
    requires v.transform.Valid()
    ensures KeyStep("e", c, s, KeyStep("q", c, s, v)) == v
    ensures KeyStep("q", c, s, KeyStep("e", c, s, v)) == v
  {
    assert -(-s) == s && c * c + (-s) * (-s) == 1.0;
    RotationZUndo(c, s);
    RotationZUndo(c, -s);
    TurnBackRestores(RotationZ(c, -s), RotationZ(c, s), v.transform);
    TurnBackRestores(RotationZ(c, s), RotationZ(c, -s), v.transform);
  }

  /** The view after pressing `key` n times. */
  function Presses(key: string, n: nat, c: real, s: real, v: View): (w: View)
    requires v.transform.Valid()
    ensures w.transform.Valid()
  {
    if n == 0 then v else KeyStep(key, c, s, Presses(key, n - 1, c, s, v))
  }

  /** m multiplied by itself n times. */
  function Power(m: Matrix4x4, n: nat): (p: Matrix4x4)
    requires m.Valid()
    ensures p.Valid()
  {
    if n == 0 then Identity() else Product(m, Power(m, n - 1))
  }

  /** Pressing 'd' n times left-multiplies the n-th power of the one-step
      rotation about y onto the transform: the presses accumulate, in order,
      on the left. */
  lemma {:induction false} RepeatedTurnAccumulates(n: nat, c: real, s: real, v: View)
    requires v.transform.Valid()
    ensures Presses("d", n, c, s, v).transform == Product(Power(RotationY(c, s), n), v.transform)
    ensures Presses("d", n, c, s, v).position == v.position
    ensures Presses("d", n, c, s, v).zoom == v.zoom
  {
    if n == 0 {
      IdentityLeftUnit(v.transform);
    } else {
      RepeatedTurnAccumulates(n - 1, c, s, v);
      ProductAssociative(RotationY(c, s), Power(RotationY(c, s), n - 1), v.transform);
    }
  }

  // ---------------------------------------------------------------------------
  // The scene

  /** The eight corners `createCube` computes, p0..p7. */
  function CubeCorners(center: Point3D, size: real, height: real): (p: seq<Point3D>)
    ensures |p| == 8
  {
    var halfSize := size / 2.0;
    var xBase := center.x - halfSize;
    var zBase := center.z - halfSize;
    var yBase := 0.0;
    [Point3D(xBase, yBase, zBase),
     Point3D(xBase + size, yBase, zBase),
     Point3D(xBase + size, yBase, zBase + size),
     Point3D(xBase, yBase, zBase + size),
     Point3D(xBase, yBase + height, zBase),
     Point3D(xBase + size, yBase + height, zBase),
     Point3D(xBase + size, yBase + height, zBase + size),
     Point3D(xBase, yBase + height, zBase + size)]
  }

  /** q is a corner of the box of side `size` centred on (center.x, center.z),
      from y = 0 up to y = height. */
  predicate OnBox(q: Point3D, center: Point3D, size: real, height: real) {
    (q.x == center.x - size / 2.0 || q.x == center.x + size / 2.0) &&
    (q.z == center.z - size / 2.0 || q.z == center.z + size / 2.0) &&
    (q.y == 0.0 || q.y == height)
  }

  /** p0..p3 go round the base at y = 0, whatever the centre's y; p4..p7 are
      the same corners raised by `height`. */
  lemma CubeCornersLayers(center: Point3D, size: real, height: real)
    ensures var p := CubeCorners(center, size, height);
      forall k :: 0 <= k < 4 ==> p[k].y == 0.0 && p[k + 4] == Point3D(p[k].x, height, p[k].z)
  {
  }

  /** The eight corners are the eight corners of the box. */
  lemma CubeCornersOnBox(center: Point3D, size: real, height: real)
    ensures forall k :: 0 <= k < 8 ==> OnBox(CubeCorners(center, size, height)[k], center, size, height)
  {
    var p := CubeCorners(center, size, height);
    assert center.x - size / 2.0 + size == center.x + size / 2.0;
    assert center.z - size / 2.0 + size == center.z + size / 2.0;
    assert OnBox(p[0], center, size, height) && OnBox(p[1], center, size, height);
    assert OnBox(p[2], center, size, height) && OnBox(p[3], center, size, height);
  }

  /** The 12 edges `createCube` pushes, in its order: the top square, the four
      uprights, the bottom square. */
  function CubeEdges(center: Point3D, size: real, height: real, color: string): (lines: seq<Line3D>)
    ensures |lines| == 12
  {
    var p := CubeCorners(center, size, height);
    [Line3D(p[4], p[5], color), Line3D(p[5], p[6], color), Line3D(p[6], p[7], color), Line3D(p[7], p[4], color),
     Line3D(p[0], p[4], color), Line3D(p[1], p[5], color), Line3D(p[2], p[6], color), Line3D(p[3], p[7], color),
     Line3D(p[0], p[1], color), Line3D(p[1], p[2], color), Line3D(p[2], p[3], color), Line3D(p[3], p[0], color)]
  }

  /** Every cube edge has the given colour, and both its ends are corners of
      the box. */
  lemma CubeEdgesOnBox(center: Point3D, size: real, height: real, color: string)
    ensures forall l :: l in CubeEdges(center, size, height, color) ==>
      l.color == color && OnBox(l.start, center, size, height) && OnBox(l.end, center, size, height)
  {
    CubeCornersOnBox(center, size, height);
  }

  /** The first four edges form the closed top square at y = height, the next
      four are uprights from the ground to the top, the last four form the
      closed bottom square at y = 0. */
  lemma CubeRings(center: Point3D, size: real, height: real, color: string)
    ensures var lines := CubeEdges(center, size, height, color);
      (forall k :: 0 <= k < 4 ==> lines[k].start.y == height && lines[k].end.y == height) &&
      (forall k :: 4 <= k < 8 ==>
         lines[k].start.y == 0.0 && lines[k].end.y == height &&
         lines[k].start.x == lines[k].end.x && lines[k].start.z == lines[k].end.z) &&
      (forall k :: 8 <= k < 12 ==> lines[k].start.y == 0.0 && lines[k].end.y == 0.0)
    ensures var lines := CubeEdges(center, size, height, color);
      lines[0].end == lines[1].start && lines[1].end == lines[2].start &&
      lines[2].end == lines[3].start && lines[3].end == lines[0].start &&
      lines[8].end == lines[9].start && lines[9].end == lines[10].start &&
      lines[10].end == lines[11].start && lines[11].end == lines[8].start
  {
    var p := CubeCorners(center, size, height);
    CubeCornersLayers(center, size, height);
    assert p[4].y == height && p[5].y == height && p[6].y == height && p[7].y == height;
  }

  /** The two cubes of row i, left then right of the street. */
  function CubePair(i: int): seq<Line3D> {
    var zBase := (i as real) * Spacing + BuildingZOffset;
    CubeEdges(Point3D(-SideOffset, 0.0, zBase), HouseSize, HouseHeight, BuildingColor) +
    CubeEdges(Point3D(SideOffset, 0.0, zBase), HouseSize, HouseHeight, BuildingColor)
  }

  /** The building lines after the rows -1 .. last have been built. */
  function CubeRows(last: int): (lines: seq<Line3D>)
    decreases last + 1
  {
    if last < -1 then [] else CubeRows(last - 1) + CubePair(last)
  }

  lemma CubeRowsStep(i: int)
    requires i >= -1
    ensures CubeRows(i) == CubeRows(i - 1) + CubePair(i)
  {
  }

  lemma AppendTwice(s: seq<Line3D>, a: seq<Line3D>, b: seq<Line3D>)
    ensures s + a + b == s + (a + b)
  {
  }

  function SceneBuildings(): seq<Line3D> {
    CubeRows(1)
  }

  /** A black line between floor and roof, at least 200 from the middle of
      the street (x = 0) at both ends. */
  predicate BuildingEdge(l: Line3D) {
    l.color == BuildingColor &&
    (l.start.y == 0.0 || l.start.y == HouseHeight) && (l.end.y == 0.0 || l.end.y == HouseHeight) &&
    (l.start.x <= -200.0 || l.start.x >= 200.0) && (l.end.x <= -200.0 || l.end.x >= 200.0)
  }

  /** A house on either side of the street is made of building edges. */
  lemma HouseEdges(center: Point3D)
    requires center.x == -SideOffset || center.x == SideOffset
    ensures forall l :: l in CubeEdges(center, HouseSize, HouseHeight, BuildingColor) ==> BuildingEdge(l)
  {
    CubeEdgesOnBox(center, HouseSize, HouseHeight, BuildingColor);
  }

  /** Six black cubes, 72 building lines, all between the floor and the roof
      and clear of the street between x = -200 and x = 200. */
  lemma BuildingsShape()
    ensures |SceneBuildings()| == 72
    ensures forall l :: l in SceneBuildings() ==> BuildingEdge(l)
  {
    var rows := [-1, 0, 1];
    forall i | i in rows
      ensures forall l :: l in CubePair(i) ==> BuildingEdge(l)
    {
      var zBase := (i as real) * Spacing + BuildingZOffset;
      HouseEdges(Point3D(-SideOffset, 0.0, zBase));
      HouseEdges(Point3D(SideOffset, 0.0, zBase));
    }
    assert SceneBuildings() == CubePair(-1) + CubePair(0) + CubePair(1);
  }

  /** A floor line along z, at x = xPos. */
  function ZGridLine(xPos: int): Line3D {
    Line3D(Point3D(xPos as real, 0.0, FloorZStart as real),
           Point3D(xPos as real, 0.0, (FloorZStart - FloorDepth) as real),
           FloorColor)
  }

  /** A floor line along x, `offset` behind the front edge of the floor. */
  function XGridLine(offset: int): Line3D {
    var currentZ := (FloorZStart - offset) as real;
    Line3D(Point3D((-FloorRange / 2) as real, 0.0, currentZ),
           Point3D((FloorRange / 2) as real, 0.0, currentZ),
           FloorColor)
  }

  /** The first n lines along z, from x = -400 rightwards, 50 apart. */
  function ZGrid(n: nat): (lines: seq<Line3D>) {
    seq(n, k requires 0 <= k < n => ZGridLine(-FloorRange / 2 + k * FloorSpacing))
  }

  /** The first n lines along x, from the front edge backwards, 50 apart. */
  function XGrid(n: nat): (lines: seq<Line3D>) {
    seq(n, k requires 0 <= k < n => XGridLine(k * FloorSpacing))
  }

  lemma ZGridSnoc(n: nat)
    ensures ZGrid(n + 1) == ZGrid(n) + [ZGridLine(-400 + 50 * n)]
  {
    assert ZGrid(n + 1)[n] == ZGridLine(-400 + 50 * n);
  }

  lemma XGridSnoc(front: seq<Line3D>, n: nat)
    ensures front + XGrid(n + 1) == front + XGrid(n) + [XGridLine(50 * n)]
  {
    assert XGrid(n + 1) == XGrid(n) + [XGridLine(50 * n)] by {
      assert XGrid(n + 1)[n] == XGridLine(50 * n);
    }
  }

  function SceneFloor(): seq<Line3D> {
    ZGrid(17) + XGrid(17)
  }

  /** The floor has floorRange / floorSpacing + 1 = 17 lines along each axis,
      those along z first; every line lies on the ground and has the floor
      colour; the grid spans x from -400 to 400 and z from 100 to -700. */
  lemma FloorShape()
    ensures |SceneFloor()| == 2 * (FloorRange / FloorSpacing + 1) == 34
    ensures forall l :: l in SceneFloor() ==> l.start.y == 0.0 && l.end.y == 0.0 && l.color == FloorColor
    ensures forall k :: 0 <= k < 17 ==>
      SceneFloor()[k].start.x == SceneFloor()[k].end.x == (-400 + 50 * k) as real &&
      SceneFloor()[k].start.z == 100.0 && SceneFloor()[k].end.z == -700.0
    ensures forall k :: 17 <= k < 34 ==>
      SceneFloor()[k].start.z == SceneFloor()[k].end.z == (100 - 50 * (k - 17)) as real &&
      SceneFloor()[k].start.x == -400.0 && SceneFloor()[k].end.x == 400.0
  {
    var f := SceneFloor();
    forall l | l in f
      ensures l.start.y == 0.0 && l.end.y == 0.0 && l.color == FloorColor
    {
      var k :| 0 <= k < |f| && f[k] == l;
    }
  }

  // ---------------------------------------------------------------------------
  // One frame

  /** The strokes drawn for one line: none when it is culled, else one. */
  function Drawn(line: Line3D, camera: Camera, canvasSize: real): seq<Stroke>
    reads camera
    requires camera.Valid()
  {
    match Render(line, camera, canvasSize)
    case None => []
    case Some(stroke) => [stroke]
  }

  /** The strokes drawn for `lines`, in list order; culled lines draw nothing. */
  function Draws(lines: seq<Line3D>, camera: Camera, canvasSize: real): (d: seq<Stroke>)
    reads camera
    requires camera.Valid()
    ensures |d| <= |lines|
    decreases |lines|
  {
    if lines == [] then [] else Drawn(lines[0], camera, canvasSize) + Draws(lines[1..], camera, canvasSize)
  }

  /** Drawing two lists one after the other draws their strokes one after the other. */
  lemma {:induction false} DrawsAppend(a: seq<Line3D>, b: seq<Line3D>, camera: Camera, canvasSize: real)
    requires camera.Valid()
    ensures Draws(a + b, camera, canvasSize) == Draws(a, camera, canvasSize) + Draws(b, camera, canvasSize)
    decreases |a|
  {
    if a == [] {
      assert a + b == b;
    } else {
      assert (a + b)[0] == a[0];
      assert (a + b)[1..] == a[1..] + b;
      DrawsAppend(a[1..], b, camera, canvasSize);
    }
  }

  /** One more line of the list draws what that line draws, after the rest. */
  lemma DrawsSnoc(lines: seq<Line3D>, n: nat, camera: Camera, canvasSize: real)
    requires camera.Valid() && n < |lines|
    ensures Draws(lines[..n + 1], camera, canvasSize) ==
      Draws(lines[..n], camera, canvasSize) + Drawn(lines[n], camera, canvasSize)
  {
    assert lines[..n + 1] == lines[..n] + [lines[n]];
    DrawsAppend(lines[..n], [lines[n]], camera, canvasSize);
    assert [lines[n]][1..] == [];
  }

  /** When no line has an end at or behind the eye, every line is drawn: one
      stroke per line, in order, in the line's colour. */
  lemma {:induction false} DrawsAllInFront(lines: seq<Line3D>, camera: Camera, canvasSize: real)
    requires camera.Valid()
    requires forall l :: l in lines ==> camera.Depth(l.start) > 0.0 && camera.Depth(l.end) > 0.0
    ensures |Draws(lines, camera, canvasSize)| == |lines|
    ensures forall k :: 0 <= k < |lines| ==>
      Draws(lines, camera, canvasSize)[k] == Render(lines[k], camera, canvasSize).value &&
      Draws(lines, camera, canvasSize)[k].color == lines[k].color
    decreases |lines|
  {
    if lines != [] {
      assert lines[0] in lines;
      forall l | l in lines[1..] ensures l in lines { }
      DrawsAllInFront(lines[1..], camera, canvasSize);
      var d := Draws(lines, camera, canvasSize);
      forall k | 0 <= k < |lines|
        ensures d[k] == Render(lines[k], camera, canvasSize).value
      {
        if k > 0 {
          assert lines[k] == lines[1..][k - 1];
        }
      }
    }
  }

  /** When every line starts at or behind the eye's depth, nothing is drawn. */
  lemma {:induction false} DrawsNoneBehind(lines: seq<Line3D>, camera: Camera, canvasSize: real)
    requires camera.Valid()
    requires forall l :: l in lines ==> camera.Depth(l.start) <= 0.0
    ensures Draws(lines, camera, canvasSize) == []
    decreases |lines|
  {
    if lines != [] {
      assert lines[0] in lines;
      forall l | l in lines[1..] ensures l in lines { }
      DrawsNoneBehind(lines[1..], camera, canvasSize);
    }
  }

  // ---------------------------------------------------------------------------
  // The component

  class AppComponent {
    var camera: Camera
    var floorLines: seq<Line3D>
    var buildingLines: seq<Line3D>

    predicate Valid()
      reads this, camera
    {
      camera.Valid()
    }

    /** The field initialisers and `ngAfterViewInit`, without the canvas:
        the camera at (0, 300, -1200) with zoom 1, then the scene. */
    constructor ()
      ensures Valid() && fresh(camera)
      ensures camera.State() == View(Point3D(0.0, 300.0, -1200.0), 1.0, Identity())
      ensures buildingLines == SceneBuildings() && floorLines == SceneFloor()
    {
      floorLines := [];
      buildingLines := [];
      camera := new Camera(Point3D(0.0, 300.0, -1200.0), 1.0);
      new;
      CreateScene();
    }

    /** One tick of `loop`: every building line, then every floor line, is
        rendered; the result is the canvas's draw log for the frame. */
    method Loop() returns (draws: seq<Stroke>)
      requires Valid()
      ensures draws == Draws(buildingLines, camera, CanvasSize) + Draws(floorLines, camera, CanvasSize)
    {
      draws := [];
      for n := 0 to |buildingLines|
        invariant draws == Draws(buildingLines[..n], camera, CanvasSize)
      {
        DrawsSnoc(buildingLines, n, camera, CanvasSize);
        var d := Render(buildingLines[n], camera, CanvasSize);
        if d.Some? {
          draws := draws + [d.value];
        }
      }
      assert buildingLines[..|buildingLines|] == buildingLines;
      ghost var buildingDraws := draws;
      for n := 0 to |floorLines|
        invariant draws == buildingDraws + Draws(floorLines[..n], camera, CanvasSize)
      {
        DrawsSnoc(floorLines, n, camera, CanvasSize);
        var d := Render(floorLines[n], camera, CanvasSize);
        if d.Some? {
          draws := draws + [d.value];
        }
      }
      assert floorLines[..|floorLines|] == floorLines;
    }

    /** `handleKey(event)`: one camera mutation per recognised key. */
    method HandleKey(key: string, c: real, s: real)
      requires Valid()
      modifies camera
      ensures Valid()
      ensures camera.State() == KeyStep(key, c, s, old(camera.State()))
    {
      var step := TranslationStep;
      var zoomStep := ZoomStep;
      if key == "ArrowLeft" {
        camera.position := camera.position.(x := camera.position.x - step);
      } else if key == "ArrowRight" {
        camera.position := camera.position.(x := camera.position.x + step);
      } else if key == "ArrowUp" {
        camera.position := camera.position.(y := camera.position.y + step);
      } else if key == "ArrowDown" {
        camera.position := camera.position.(y := camera.position.y - step);
      } else if key == "PageUp" {
        camera.position := camera.position.(z := camera.position.z + step);
      } else if key == "PageDown" {
        camera.position := camera.position.(z := camera.position.z - step);
      } else if key == "w" {
        RotateCamera('x', c, -s);
      } else if key == "s" {
        RotateCamera('x', c, s);
      } else if key == "a" {
        RotateCamera('y', c, -s);
      } else if key == "d" {
        RotateCamera('y', c, s);
      } else if key == "q" {
        RotateCamera('z', c, -s);
      } else if key == "e" {
        RotateCamera('z', c, s);
      } else if key == "x" {
        camera.zoom := camera.zoom * (1.0 - zoomStep);
      } else if key == "z" {
        camera.zoom := camera.zoom * (1.0 + zoomStep);
      }
    }

    /** `rotateCamera(axis, angle)` with (c, s) = (cos angle, sin angle). */
    method RotateCamera(axis: char, c: real, s: real)
      requires Valid()
      modifies camera
      ensures Valid()
      ensures camera.position == old(camera.position) && camera.zoom == old(camera.zoom)
      ensures camera.transformMatrix == Rotated(axis, c, s, old(camera.transformMatrix))
    {
      var rotationMatrix: Matrix4x4;
      if axis == 'x' {
        rotationMatrix := RotationX(c, s);
      } else if axis == 'y' {
        rotationMatrix := RotationY(c, s);
      } else if axis == 'z' {
        rotationMatrix := RotationZ(c, s);
      } else {
        return;
      }
      ProductAffine(rotationMatrix, camera.transformMatrix);
      camera.transformMatrix := MultiplyMatrix(rotationMatrix, camera.transformMatrix);
    }

    /** `createScene()`: empty both lists, push three rows of two cubes, then
        the floor lines along z and the floor lines along x. The result does
        not depend on the lists' old contents, so building twice gives the
        same scene. Each of the three loops is a helper method below. */
    method CreateScene()
      modifies this`floorLines, this`buildingLines
      ensures buildingLines == SceneBuildings() && floorLines == SceneFloor()
    {
      floorLines := [];
      buildingLines := [];
      CreateBuildings();
      CreateFloorAlongZ();
      CreateFloorAlongX();
    }

    /** The cube loop of `createScene`: rows -1, 0 and 1, left cube then right. */
    method CreateBuildings()
      requires buildingLines == []
      modifies this`buildingLines
      ensures buildingLines == SceneBuildings()
    {
      var i := -1;
      while i <= 1
        invariant -1 <= i <= 2
        invariant buildingLines == CubeRows(i - 1)
      {
        ghost var before := buildingLines;
        var zBase := (i as real) * Spacing + BuildingZOffset;
        var left := Point3D(-SideOffset, 0.0, zBase);
        var right := Point3D(SideOffset, 0.0, zBase);
        CreateCube(left, HouseSize, HouseHeight, BuildingColor);
        CreateCube(right, HouseSize, HouseHeight, BuildingColor);
        AppendTwice(before, CubeEdges(left, HouseSize, HouseHeight, BuildingColor),
                    CubeEdges(right, HouseSize, HouseHeight, BuildingColor));
        CubeRowsStep(i);
        i := i + 1;
      }
      assert i == 2;
    }

    /** The first floor loop of `createScene`: lines along z, x from -400 to 400. */
    method CreateFloorAlongZ()
      requires floorLines == []
      modifies this`floorLines
      ensures floorLines == ZGrid(17)
    {
      var floorRange := FloorRange;
      var floorDepth := FloorDepth;
      var floorSpacing := FloorSpacing;
      var floorZStart := FloorZStart;

      var x := -floorRange / 2;
      ghost var n: nat := 0;
      while x <= floorRange / 2
        invariant n <= 17 && x == -400 + 50 * n
        invariant floorLines == ZGrid(n)
      {
        ZGridSnoc(n);
        floorLines := floorLines + [Line3D(Point3D(x as real, 0.0, floorZStart as real),
                                           Point3D(x as real, 0.0, (floorZStart - floorDepth) as real),
                                           FloorColor)];
        x := x + floorSpacing;
        n := n + 1;
      }
    }

    /** The second floor loop of `createScene`: lines along x, z from 100 to -700. */
    method CreateFloorAlongX()
      requires floorLines == ZGrid(17)
      modifies this`floorLines
      ensures floorLines == SceneFloor()
    {
      var floorRange := FloorRange;
      var floorDepth := FloorDepth;
      var floorSpacing := FloorSpacing;
      var floorZStart := FloorZStart;

      var offset := 0;
      ghost var n: nat := 0;
      while offset <= floorDepth
        invariant n <= 17 && offset == 50 * n
        invariant floorLines == ZGrid(17) + XGrid(n)
      {
        XGridSnoc(ZGrid(17), n);
        var currentZ := floorZStart - offset;
        floorLines := floorLines + [Line3D(Point3D((-floorRange / 2) as real, 0.0, currentZ as real),
                                           Point3D((floorRange / 2) as real, 0.0, currentZ as real),
                                           FloorColor)];
        offset := offset + floorSpacing;
        n := n + 1;
      }
    }

    /** `createCube(center, size, height, color)`: pushes the cube's 12 edges
        onto the building lines; the floor lines are not touched. */
    method CreateCube(center: Point3D, size: real, height: real, color: string)
      modifies this`buildingLines
      ensures buildingLines == old(buildingLines) + CubeEdges(center, size, height, color)
      ensures floorLines == old(floorLines)
    {
      var halfSize := size / 2.0;
      var xBase := center.x - halfSize;
      var zBase := center.z - halfSize;
      var yBase := 0.0;

      var p0 := Point3D(xBase, yBase, zBase);
      var p1 := Point3D(xBase + size, yBase, zBase);
      var p2 := Point3D(xBase + size, yBase, zBase + size);
      var p3 := Point3D(xBase, yBase, zBase + size);

      var p4 := Point3D(xBase, yBase + height, zBase);
      var p5 := Point3D(xBase + size, yBase + height, zBase);
      var p6 := Point3D(xBase + size, yBase + height, zBase + size);
      var p7 := Point3D(xBase, yBase + height, zBase + size);

      buildingLines := buildingLines + [Line3D(p4, p5, color), Line3D(p5, p6, color), Line3D(p6, p7, color), Line3D(p7, p4, color)];

      buildingLines := buildingLines + [Line3D(p0, p4, color)];
      buildingLines := buildingLines + [Line3D(p1, p5, color)];
      buildingLines := buildingLines + [Line3D(p2, p6, color)];
      buildingLines := buildingLines + [Line3D(p3, p7, color)];

      buildingLines := buildingLines + [Line3D(p0, p1, color), Line3D(p1, p2, color), Line3D(p2, p3, color), Line3D(p3, p0, color)];
    }
  }
}
