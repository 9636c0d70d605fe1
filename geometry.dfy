/**
 * The pure geometry of the horizontal flowchart: where a connection attaches
 * to its two nodes, which route shape joins the two anchors, where the
 * connection's label sits, and the box a node is drawn in.
 * All coordinates are container-relative pixels, with y growing downwards.
 */
module Geometry {
  import opened Wrappers

  datatype Point = Point(x: real, y: real)

  /** A declared flowchart node: its centre, its size and its three colours. */
  datatype Node = Node(id: string, text: string, x: real, y: real, width: real, height: real,
                       fill: string, border: string, textColor: string)

  /** The two boundary points a connection resolves to. */
  datatype Anchors = Anchors(from: Point, to: Point)

  /** A connector: a straight segment or a cubic Bezier curve. */
  datatype Route =
    | Straight(start: Point, end: Point)
    | Cubic(start: Point, c1: Point, c2: Point, end: Point)

  /** A label placed by its top-left corner. */
  datatype Label = Label(text: string, left: real, top: real)

  /** The absolutely positioned box a node is drawn in. */
  datatype Box = Box(id: string, text: string, left: real, top: real, width: real, height: real,
                     fill: string, border: string, textColor: string)

  const Origin := Point(0.0, 0.0)

  /** Anchors whose heights differ by less than this are joined by a straight segment. */
  const StraightThreshold := 20.0

  /** A label's top-left corner sits this far left of and above the anchors' midpoint. */
  const LabelDx := 20.0
  const LabelDy := 8.0

  function Abs(r: real): real {
    if r < 0.0 then -r else r
  }

  /** Anchors on the left/right edges that face each other, at the centres' heights. */
  ghost predicate FacingSides(f: Node, t: Node, a: Anchors) {
    && a.from.y == f.y && a.to.y == t.y
    && (f.x < t.x ==> a.from.x == f.x + f.width / 2.0 && a.to.x == t.x - t.width / 2.0)
    && (f.x > t.x ==> a.from.x == f.x - f.width / 2.0 && a.to.x == t.x + t.width / 2.0)
  }

  /** Anchors on the bottom/top edges that face each other, at the centres' x. */
  ghost predicate FacingEnds(f: Node, t: Node, a: Anchors) {
    && a.from.x == f.x && a.to.x == t.x
    && (f.y < t.y ==> a.from.y == f.y + f.height / 2.0 && a.to.y == t.y - t.height / 2.0)
    && (f.y > t.y ==> a.from.y == f.y - f.height / 2.0 && a.to.y == t.y + t.height / 2.0)
  }

  /** p is the midpoint of one of n's four edges. */
  ghost predicate OnBoundary(p: Point, n: Node) {
    || (p.y == n.y && Abs(p.x - n.x) == n.width / 2.0)
    || (p.x == n.x && Abs(p.y - n.y) == n.height / 2.0)
  }

  /**
   * The anchors of a connection from f to t. A first pass attaches to the
   * left/right edges when the centres' x differ; then, when the vertical
   * distance is strictly the larger, the top/bottom edges override it.
   * When the centres coincide neither pass fires and both anchors stay at
   * the origin.
   */
  function ConnectionPoints(f: Node, t: Node): (a: Anchors)
    ensures f.x != t.x && Abs(t.y - f.y) <= Abs(t.x - f.x) ==> FacingSides(f, t, a)
    ensures Abs(t.x - f.x) < Abs(t.y - f.y) ==> FacingEnds(f, t, a)
    ensures f.x == t.x && f.y == t.y ==> a == Anchors(Origin, Origin)
  {
    var horizontal :=
      if f.x < t.x then Anchors(Point(f.x + f.width / 2.0, f.y), Point(t.x - t.width / 2.0, t.y))
      else if f.x > t.x then Anchors(Point(f.x - f.width / 2.0, f.y), Point(t.x + t.width / 2.0, t.y))
      else Anchors(Origin, Origin);
    if Abs(f.x - t.x) < Abs(f.y - t.y) then
      if f.y < t.y then Anchors(Point(f.x, f.y + f.height / 2.0), Point(t.x, t.y - t.height / 2.0))
      else Anchors(Point(f.x, f.y - f.height / 2.0), Point(t.x, t.y + t.height / 2.0))
    else
      horizontal
  }

  /** Both anchors lie exactly on their own node's boundary unless the centres coincide. */
  lemma AnchorsOnBoundary(f: Node, t: Node)
    requires f.width >= 0.0 && f.height >= 0.0 && t.width >= 0.0 && t.height >= 0.0
    requires f.x != t.x || f.y != t.y
    ensures OnBoundary(ConnectionPoints(f, t).from, f)
    ensures OnBoundary(ConnectionPoints(f, t).to, t)
  {
    var a := ConnectionPoints(f, t);
    if Abs(t.x - f.x) < Abs(t.y - f.y) {
      assert FacingEnds(f, t, a);
      if t.y > f.y {
        assert a.from.y - f.y == f.height / 2.0 && a.to.y - t.y == -(t.height / 2.0);
      } else {
        assert a.from.y - f.y == -(f.height / 2.0) && a.to.y - t.y == t.height / 2.0;
      }
    } else {
      assert FacingSides(f, t, a);
      if t.x > f.x {
        assert a.from.x - f.x == f.width / 2.0 && a.to.x - t.x == -(t.width / 2.0);
      } else {
        assert a.from.x - f.x == -(f.width / 2.0) && a.to.x - t.x == t.width / 2.0;
      }
    }
  }

  /** Reversing a connection swaps its anchors. */
  lemma ConnectionPointsSwap(f: Node, t: Node)
    ensures ConnectionPoints(t, f) == Anchors(ConnectionPoints(f, t).to, ConnectionPoints(f, t).from)
  {
  }

  /** A connection from a node to itself degenerates to the origin. */
  lemma SelfLoopAtOrigin(n: Node)
    ensures ConnectionPoints(n, n) == Anchors(Origin, Origin)
    ensures RouteFor(ConnectionPoints(n, n)) == Straight(Origin, Origin)
  {
  }

  /**
   * The route joining two anchors: straight when they are nearly level,
   * otherwise a cubic whose two control points lie on the vertical midline
   * between the anchors, at the from and the to anchor's height. When the
   * anchors' x differ both end tangents are horizontal; when they are equal
   * the cubic degenerates to a vertical segment.
   */
  function RouteFor(a: Anchors): (r: Route)
    ensures r.start == a.from && r.end == a.to
    ensures r.Straight? <==> Abs(a.from.y - a.to.y) < StraightThreshold
    ensures r.Cubic? ==> r.c1.y == a.from.y && r.c2.y == a.to.y
    ensures r.Cubic? ==> r.c1.x == r.c2.x && r.c1.x - a.from.x == a.to.x - r.c2.x
  {
    if Abs(a.from.y - a.to.y) < StraightThreshold then
      Straight(a.from, a.to)
    else
      var midX := (a.from.x + a.to.x) / 2.0;
      Cubic(a.from, Point(midX, a.from.y), Point(midX, a.to.y), a.to)
  }

  /**
   * The label of a connection, present exactly when its text is non-empty,
   * with its corner offset by (LabelDx, LabelDy) from the anchors' midpoint.
   */
  function LabelFor(a: Anchors, text: string): (l: Option<Label>)
    ensures l.Some? <==> text != ""
    ensures l.Some? ==> l.value.text == text
    ensures l.Some? ==> 2.0 * (l.value.left + LabelDx) == a.from.x + a.to.x
    ensures l.Some? ==> 2.0 * (l.value.top + LabelDy) == a.from.y + a.to.y
  {
    if text == "" then None
    else
      var midX := (a.from.x + a.to.x) / 2.0;
      var midY := (a.from.y + a.to.y) / 2.0;
      Some(Label(text, midX - LabelDx, midY - LabelDy))
  }

  /** The box of a node: its declared size, centred on its declared position. */
  function BoxOf(n: Node): (b: Box)
    ensures b.id == n.id && b.text == n.text
    ensures b.width == n.width && b.height == n.height
    ensures b.left + b.width / 2.0 == n.x && b.top + b.height / 2.0 == n.y
    ensures b.fill == n.fill && b.border == n.border && b.textColor == n.textColor
  {
    Box(n.id, n.text, n.x - n.width / 2.0, n.y - n.height / 2.0, n.width, n.height,
        n.fill, n.border, n.textColor)
  }

  /** Two level nodes 200 px apart: facing side anchors and a straight route. */
  lemma LevelNodesExample()
    ensures var a := Node("A", "", 60.0, 100.0, 100.0, 40.0, "", "", "");
            var b := Node("B", "", 260.0, 100.0, 100.0, 40.0, "", "", "");
            ConnectionPoints(a, b) == Anchors(Point(110.0, 100.0), Point(210.0, 100.0))
            && RouteFor(ConnectionPoints(a, b)).Straight?
  {
  }

  /** Two stacked nodes: bottom/top anchors, a curve, and a label at the midpoint. */
  lemma StackedNodesExample()
    ensures var a := Node("A", "", 150.0, 30.0, 120.0, 40.0, "", "", "");
            var b := Node("B", "", 150.0, 460.0, 120.0, 40.0, "", "", "");
            var p := ConnectionPoints(a, b);
            p == Anchors(Point(150.0, 50.0), Point(150.0, 440.0))
            && RouteFor(p) == Cubic(p.from, Point(150.0, 50.0), Point(150.0, 440.0), p.to)
            && LabelFor(p, "Option 1") == Some(Label("Option 1", 130.0, 237.0))
  {
  }
}
