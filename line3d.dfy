/** A drawable edge between two world points, and the decision to draw it or
    cull it. The canvas calls (`beginPath`, `moveTo`, `lineTo`, `strokeStyle`,
    `stroke`) are modelled by the stroke that `Render` returns. */
module Lines {
  import opened Wrappers
  import opened Points
  import opened Matrices
  import opened Cameras

  const DefaultColor: string := "black"

  datatype Line3D = Line3D(start: Point3D, end: Point3D, color: string)

  /** One straight canvas segment, from (fromX, fromY) to (toX, toY). */
  datatype Stroke = Stroke(fromX: real, fromY: real, toX: real, toY: real, color: string)

  /** `new Line3D(start, end, color?)`; `None` is a colour left out. */
  function NewLine(start: Point3D, end: Point3D, color: Option<string>): (l: Line3D)
    ensures l.start == start && l.end == end
    ensures color.Some? ==> l.color == color.value
    ensures color.None? ==> l.color == "black"
  {
    Line3D(start, end, if color.Some? then color.value else DefaultColor)
  }

  /** `line.render(ctx, camera, canvasSize)`: project both ends; if either is
      behind, draw nothing (the whole segment is culled, never clipped);
      otherwise draw one segment between the projections in the line's colour. */
  function Render(line: Line3D, camera: Camera, canvasSize: real): (d: Option<Stroke>)
    reads camera
    requires camera.Valid()
    ensures d.None? <==> camera.Depth(line.start) <= 0.0 || camera.Depth(line.end) <= 0.0
    ensures d.Some? ==> d.value.color == line.color
  {
    var s := camera.Project(line.start, canvasSize);
    var e := camera.Project(line.end, canvasSize);
    if s.isBehind || e.isBehind then
      None
    else
      Some(Stroke(s.x, s.y, e.x, e.y, line.color))
  }

  /** A start at or behind the eye culls the line. */
  lemma RenderCullsBehindStart(line: Line3D, camera: Camera, canvasSize: real)
    requires camera.Valid()
    requires camera.Project(line.start, canvasSize).isBehind
    ensures Render(line, camera, canvasSize) == None
  {
  }

  /** An end at or behind the eye culls the line, even when the start is in front. */
  lemma RenderCullsBehindEnd(line: Line3D, camera: Camera, canvasSize: real)
    requires camera.Valid()
    requires camera.Project(line.end, canvasSize).isBehind
    ensures Render(line, camera, canvasSize) == None
  {
  }

  /** With both ends in front, exactly one segment is drawn, from the projected
      start to the projected end, in the line's colour. */
  lemma RenderDrawsInFront(line: Line3D, camera: Camera, canvasSize: real)
    requires camera.Valid()
    requires camera.Depth(line.start) > 0.0 && camera.Depth(line.end) > 0.0
    ensures Render(line, camera, canvasSize).Some?
    ensures var s, e := camera.Project(line.start, canvasSize), camera.Project(line.end, canvasSize);
      Render(line, camera, canvasSize).value == Stroke(s.x, s.y, e.x, e.y, line.color)
  {
  }

  /** Drawing a line backwards draws the same segment reversed: the cull test
      does not depend on the direction of the line. */
  lemma RenderReversed(line: Line3D, camera: Camera, canvasSize: real)
    requires camera.Valid()
    ensures var d, r := Render(line, camera, canvasSize), Render(Line3D(line.end, line.start, line.color), camera, canvasSize);
      d.None? == r.None? &&
      (d.Some? ==> r.value == Stroke(d.value.toX, d.value.toY, d.value.fromX, d.value.fromY, line.color))
  {
  }
}
