/**
 * One render pass of the horizontal flowchart: the static node and
 * connection table scaled to the container, the node boxes, and the
 * connector overlay with its labels. Every pass empties the container and
 * rebuilds it from the table.
 */
module Flowchart {
  import opened Wrappers
  import opened Geometry

  /** A directed connection between two node ids, with an optional label ("" for none). */
  datatype Connection = Connection(from: string, to: string, caption: string)

  /** A child of the container: a node box, the connector overlay with its paths, or a label. */
  datatype Element =
    | NodeBox(box: Box)
    | Overlay(paths: seq<Route>)
    | LabelBox(tag: Label)

  /** The five nodes, placed relative to the container's width w and height h. */
  function FlowchartNodes(w: real, h: real): seq<Node> {
    [ Node("start", "Start Process", 60.0, h / 2.0, 100.0, 40.0, "#e8f5e9", "#2e7d32", "#1b5e20"),
      Node("process1", "Processing Step", w * 0.33, h * 0.3, 110.0, 40.0, "#e3f2fd", "#1565c0", "#0d47a1"),
      Node("process2", "Alternative Step", w * 0.33, h * 0.7, 110.0, 40.0, "#e3f2fd", "#1565c0", "#0d47a1"),
      Node("analysis", "Data Analysis", w * 0.66, h / 2.0, 100.0, 40.0, "#fff3e0", "#e65100", "#bf360c"),
      Node("presentation", "Data Presentation", w - 80.0, h / 2.0, 110.0, 40.0, "#f3e5f5", "#6a1b9a", "#4a148c") ]
  }

  const FlowchartConnections: seq<Connection> :=
    [ Connection("start", "process1", "Path A"),
      Connection("start", "process2", "Path B"),
      Connection("process1", "analysis", ""),
      Connection("process2", "analysis", ""),
      Connection("analysis", "presentation", "Results") ]

  ghost predicate DistinctIds(nodes: seq<Node>) {
    forall i, j :: 0 <= i < j < |nodes| ==> nodes[i].id != nodes[j].id
  }

  ghost predicate Names(nodes: seq<Node>, id: string) {
    exists k :: 0 <= k < |nodes| && nodes[k].id == id
  }

  /** The first node with the given id, if any. */
  function Find(nodes: seq<Node>, id: string): (r: Option<Node>)
    ensures r.Some? <==> Names(nodes, id)
    ensures r.Some? ==> r.value.id == id && r.value in nodes
  {
    if nodes == [] then None
    else if nodes[0].id == id then Some(nodes[0])
    else
      var r := Find(nodes[1..], id);
      assert Names(nodes, id) ==> Names(nodes[1..], id) by {
        if Names(nodes, id) {
          var k :| 0 <= k < |nodes| && nodes[k].id == id;
          assert nodes[1..][k - 1].id == id;
        }
      }
      assert forall k :: 0 < k < |nodes| ==> nodes[k] == nodes[1..][k - 1];
      r
  }

  /** Find returns the earliest node carrying the id. */
  lemma {:induction false} FindFirst(nodes: seq<Node>, id: string, k: nat)
    requires k < |nodes| && nodes[k].id == id
    requires forall j :: 0 <= j < k ==> nodes[j].id != id
    ensures Find(nodes, id) == Some(nodes[k])
  {
    if k > 0 {
      FindFirst(nodes[1..], id, k - 1);
    }
  }

  /** The id-to-box dictionary: one entry per id, the last node with an id wins. */
  function ElementMap(nodes: seq<Node>): (m: map<string, Box>)
    ensures m.Keys == set n | n in nodes :: n.id
  {
    if nodes == [] then map[]
    else
      var last := nodes[|nodes| - 1];
      var m := ElementMap(nodes[..|nodes| - 1]);
      assert nodes == nodes[..|nodes| - 1] + [last];
      m[last.id := BoxOf(last)]
  }

  /** A node that no later node shares an id with owns its id's entry. */
  lemma {:induction false} ElementMapLastWins(nodes: seq<Node>, k: nat)
    requires k < |nodes|
    requires forall j :: k < j < |nodes| ==> nodes[j].id != nodes[k].id
    ensures nodes[k].id in ElementMap(nodes) && ElementMap(nodes)[nodes[k].id] == BoxOf(nodes[k])
  {
    if k < |nodes| - 1 {
      var init := nodes[..|nodes| - 1];
      ElementMapLastWins(init, k);
    }
  }

  /** With distinct ids every node owns its entry. */
  lemma ElementMapOfDistinct(nodes: seq<Node>)
    requires DistinctIds(nodes)
    ensures forall k :: 0 <= k < |nodes| ==> ElementMap(nodes)[nodes[k].id] == BoxOf(nodes[k])
  {
    forall k | 0 <= k < |nodes| ensures ElementMap(nodes)[nodes[k].id] == BoxOf(nodes[k]) {
      ElementMapLastWins(nodes, k);
    }
  }

  /** The boxes of the nodes, in declaration order. */
  function BoxElements(nodes: seq<Node>): seq<Element> {
    seq(|nodes|, k requires 0 <= k < |nodes| => NodeBox(BoxOf(nodes[k])))
  }

  /**
   * The anchors of a connection, or None when an endpoint id names no node
   * or has no entry in the element dictionary (the connection is skipped).
   */
  function Resolve(nodes: seq<Node>, elements: map<string, Box>, c: Connection): (r: Option<Anchors>)
    ensures r.Some? <==> Names(nodes, c.from) && Names(nodes, c.to) && c.from in elements && c.to in elements
  {
    match Find(nodes, c.from)
    case None => None
    case Some(f) =>
      match Find(nodes, c.to)
      case None => None
      case Some(t) =>
        if f.id in elements && t.id in elements then Some(ConnectionPoints(f, t)) else None
  }

  /** A connection resolves exactly when both its endpoint ids name a node of the table it was built from. */
  lemma ResolveAgainstOwnMap(nodes: seq<Node>, c: Connection)
    ensures Resolve(nodes, ElementMap(nodes), c).Some? <==> Names(nodes, c.from) && Names(nodes, c.to)
    ensures Resolve(nodes, ElementMap(nodes), c).Some? ==>
              Resolve(nodes, ElementMap(nodes), c).value
              == ConnectionPoints(Find(nodes, c.from).value, Find(nodes, c.to).value)
  {
  }

  function PathOf(nodes: seq<Node>, elements: map<string, Box>, c: Connection): seq<Route> {
    match Resolve(nodes, elements, c)
    case None => []
    case Some(a) => [RouteFor(a)]
  }

  function LabelOf(nodes: seq<Node>, elements: map<string, Box>, c: Connection): seq<Element> {
    match Resolve(nodes, elements, c)
    case None => []
    case Some(a) =>
      match LabelFor(a, c.caption)
      case None => []
      case Some(l) => [LabelBox(l)]
  }

  /** What a `forEach` that appends f(x) for each x of xs leaves behind: the outputs, in order. */
  function FlatMap<T, U>(f: T -> seq<U>, xs: seq<T>): seq<U>
    decreases |xs|
  {
    if xs == [] then []
    else FlatMap(f, xs[..|xs| - 1]) + f(xs[|xs| - 1])
  }

  lemma {:induction false} FlatMapAppend<T, U>(f: T -> seq<U>, xs: seq<T>, ys: seq<T>)
    ensures FlatMap(f, xs + ys) == FlatMap(f, xs) + FlatMap(f, ys)
    decreases |ys|
  {
    if ys == [] {
      assert xs + ys == xs;
    } else {
      var init := ys[..|ys| - 1];
      assert (xs + ys)[..|xs + ys| - 1] == xs + init;
      assert (xs + ys)[|xs + ys| - 1] == ys[|ys| - 1];
      FlatMapAppend(f, xs, init);
    }
  }

  /** When every x yields exactly one output, output k is the one of xs[k]. */
  lemma {:induction false} FlatMapSingletons<T, U>(f: T -> seq<U>, xs: seq<T>)
    requires forall k :: 0 <= k < |xs| ==> |f(xs[k])| == 1
    ensures |FlatMap(f, xs)| == |xs|
    ensures forall k :: 0 <= k < |xs| ==> FlatMap(f, xs)[k] == f(xs[k])[0]
    decreases |xs|
  {
    if xs != [] {
      var n := |xs| - 1;
      var init := xs[..n];
      assert forall k :: 0 <= k < n ==> init[k] == xs[k];
      FlatMapSingletons(f, init);
    }
  }

  /** The paths the overlay receives, one per resolvable connection, in order. */
  function Paths(nodes: seq<Node>, elements: map<string, Box>, cs: seq<Connection>): seq<Route> {
    FlatMap(c => PathOf(nodes, elements, c), cs)
  }

  /** The labels appended to the container, in connection order. */
  function Labels(nodes: seq<Node>, elements: map<string, Box>, cs: seq<Connection>): seq<Element> {
    FlatMap(c => LabelOf(nodes, elements, c), cs)
  }

  /** Processing a list of connections is processing its two halves one after the other. */
  lemma PathsAndLabelsAppend(nodes: seq<Node>, elements: map<string, Box>,
                                                xs: seq<Connection>, ys: seq<Connection>)
    ensures Paths(nodes, elements, xs + ys) == Paths(nodes, elements, xs) + Paths(nodes, elements, ys)
    ensures Labels(nodes, elements, xs + ys) == Labels(nodes, elements, xs) + Labels(nodes, elements, ys)
  {
    FlatMapAppend(c => PathOf(nodes, elements, c), xs, ys);
    FlatMapAppend(c => LabelOf(nodes, elements, c), xs, ys);
  }

  /** A connection that does not resolve is skipped and the ones after it are still drawn. */
  lemma DanglingConnectionSkipped(nodes: seq<Node>, elements: map<string, Box>,
                                  xs: seq<Connection>, c: Connection, ys: seq<Connection>)
    requires Resolve(nodes, elements, c).None?
    ensures Paths(nodes, elements, xs + [c] + ys) == Paths(nodes, elements, xs + ys)
    ensures Labels(nodes, elements, xs + [c] + ys) == Labels(nodes, elements, xs + ys)
  {
    var skipped := xs + [c];
    assert skipped[..|skipped| - 1] == xs;
    PathsAndLabelsAppend(nodes, elements, skipped, ys);
    PathsAndLabelsAppend(nodes, elements, xs, ys);
    assert Paths(nodes, elements, skipped) == Paths(nodes, elements, xs);
    assert Labels(nodes, elements, skipped) == Labels(nodes, elements, xs);
  }

  ghost predicate AllResolve(nodes: seq<Node>, elements: map<string, Box>, cs: seq<Connection>) {
    forall k :: 0 <= k < |cs| ==> Resolve(nodes, elements, cs[k]).Some?
  }

  /** When every connection resolves, path k is the route of connection k. */
  lemma PathsWhenAllResolve(nodes: seq<Node>, elements: map<string, Box>, cs: seq<Connection>)
    requires AllResolve(nodes, elements, cs)
    ensures |Paths(nodes, elements, cs)| == |cs|
    ensures forall k :: 0 <= k < |cs| ==>
              Paths(nodes, elements, cs)[k] == RouteFor(Resolve(nodes, elements, cs[k]).value)
  {
    var f := c => PathOf(nodes, elements, c);
    forall k | 0 <= k < |cs|
      ensures f(cs[k]) == [RouteFor(Resolve(nodes, elements, cs[k]).value)]
    {
    }
    FlatMapSingletons(f, cs);
  }

  /** The number of connections that carry a non-empty label. */
  function CountLabelled(cs: seq<Connection>): nat
    decreases |cs|
  {
    if cs == [] then 0
    else CountLabelled(cs[..|cs| - 1]) + (if cs[|cs| - 1].caption != "" then 1 else 0)
  }

  /** When every connection resolves, there is one label per labelled connection, each a label element. */
  lemma {:induction false} LabelsWhenAllResolve(nodes: seq<Node>, elements: map<string, Box>, cs: seq<Connection>)
    requires AllResolve(nodes, elements, cs)
    ensures |Labels(nodes, elements, cs)| == CountLabelled(cs)
    ensures forall k :: 0 <= k < |Labels(nodes, elements, cs)| ==> Labels(nodes, elements, cs)[k].LabelBox?
    decreases |cs|
  {
    if cs != [] {
      var init := cs[..|cs| - 1];
      assert forall k :: 0 <= k < |init| ==> init[k] == cs[k];
      LabelsWhenAllResolve(nodes, elements, init);
    }
  }

  /** The container's children after a full render pass for a w by h container. */
  function RenderPass(w: real, h: real): seq<Element> {
    var nodes := FlowchartNodes(w, h);
    var elements := ElementMap(nodes);
    BoxElements(nodes) + [Overlay(Paths(nodes, elements, FlowchartConnections))]
      + Labels(nodes, elements, FlowchartConnections)
  }

  /** In the static table ids are distinct, sizes positive, and every endpoint names a node. */
  lemma StaticTableWellFormed(w: real, h: real)
    ensures |FlowchartNodes(w, h)| == 5 && DistinctIds(FlowchartNodes(w, h))
    ensures forall k :: 0 <= k < 5 ==> FlowchartNodes(w, h)[k].width > 0.0 && FlowchartNodes(w, h)[k].height > 0.0
    ensures forall k :: 0 <= k < |FlowchartConnections| ==>
              Names(FlowchartNodes(w, h), FlowchartConnections[k].from)
              && Names(FlowchartNodes(w, h), FlowchartConnections[k].to)
  {
    var nodes := FlowchartNodes(w, h);
    assert nodes[0].id == "start" && nodes[1].id == "process1" && nodes[2].id == "process2";
    assert nodes[3].id == "analysis" && nodes[4].id == "presentation";
  }

  /** Three of the five static connections carry a label. */
  lemma StaticLabelCount()
    ensures CountLabelled(FlowchartConnections) == 3
  {
    var cs := FlowchartConnections;
    assert cs[..1][..0] == [];
    assert CountLabelled(cs[..1]) == 1;
    assert cs[..2][..1] == cs[..1];
    assert CountLabelled(cs[..2]) == 2;
    assert cs[..3][..2] == cs[..2];
    assert CountLabelled(cs[..3]) == 2;
    assert cs[..4][..3] == cs[..3];
    assert CountLabelled(cs[..4]) == 2;
    assert cs[..4] == cs[..|cs| - 1];
  }

  /** Every static connection resolves against the table it is drawn with. */
  lemma StaticConnectionsResolve(w: real, h: real)
    ensures AllResolve(FlowchartNodes(w, h), ElementMap(FlowchartNodes(w, h)), FlowchartConnections)
  {
    var nodes := FlowchartNodes(w, h);
    StaticTableWellFormed(w, h);
    forall k | 0 <= k < |FlowchartConnections|
      ensures Resolve(nodes, ElementMap(nodes), FlowchartConnections[k]).Some?
    {
      ResolveAgainstOwnMap(nodes, FlowchartConnections[k]);
    }
  }

  /** A pass over the static table draws five connectors and three labels. */
  lemma StaticPassCounts(w: real, h: real)
    ensures |Paths(FlowchartNodes(w, h), ElementMap(FlowchartNodes(w, h)), FlowchartConnections)| == 5
    ensures |Labels(FlowchartNodes(w, h), ElementMap(FlowchartNodes(w, h)), FlowchartConnections)| == 3
    ensures forall k :: 0 <= k < 3 ==>
              Labels(FlowchartNodes(w, h), ElementMap(FlowchartNodes(w, h)), FlowchartConnections)[k].LabelBox?
  {
    var nodes := FlowchartNodes(w, h);
    var elements := ElementMap(nodes);
    StaticConnectionsResolve(w, h);
    PathsWhenAllResolve(nodes, elements, FlowchartConnections);
    LabelsWhenAllResolve(nodes, elements, FlowchartConnections);
    StaticLabelCount();
  }

  /**
   * Whatever the container size, a pass draws the five boxes first, then one
   * overlay holding the five connectors, then the three labels.
   */
  lemma RenderPassLayout(w: real, h: real)
    ensures |RenderPass(w, h)| == 9
    ensures forall k :: 0 <= k < 5 ==> RenderPass(w, h)[k] == NodeBox(BoxOf(FlowchartNodes(w, h)[k]))
    ensures RenderPass(w, h)[5].Overlay? && |RenderPass(w, h)[5].paths| == 5
    ensures forall k :: 6 <= k < 9 ==> RenderPass(w, h)[k].LabelBox?
  {
    var nodes := FlowchartNodes(w, h);
    var elements := ElementMap(nodes);
    var paths := Paths(nodes, elements, FlowchartConnections);
    var labels := Labels(nodes, elements, FlowchartConnections);
    StaticPassCounts(w, h);
    var pass := BoxElements(nodes) + [Overlay(paths)] + labels;
    assert RenderPass(w, h) == pass;
    assert forall k :: 6 <= k < 9 ==> pass[k] == labels[k - 6];
  }

  /** The flowchart container element: its measured size and its children. */
  class Container {
    var width: real
    var height: real
    var children: seq<Element>

    constructor (width: real, height: real)
      ensures this.width == width && this.height == height && children == []
    {
      this.width := width;
      this.height := height;
      children := [];
    }
  }

  /** Appends one box per node and returns the id-to-box dictionary. */
  method CreateNodes(container: Container, nodes: seq<Node>) returns (elements: map<string, Box>)
    modifies container`children
    ensures container.children == old(container.children) + BoxElements(nodes)
    ensures elements == ElementMap(nodes)
  {
    elements := map[];
    for i := 0 to |nodes|
      invariant container.children == old(container.children) + BoxElements(nodes[..i])
      invariant elements == ElementMap(nodes[..i])
    {
      container.children := container.children + [NodeBox(BoxOf(nodes[i]))];
      elements := elements[nodes[i].id := BoxOf(nodes[i])];
      assert nodes[..i + 1][..i] == nodes[..i];
    }
    assert nodes[..|nodes|] == nodes;
  }

  lemma ReplaceMiddle<T>(xs: seq<T>, x: T, y: T, ys: seq<T>)
    ensures (xs + [x] + ys)[|xs| := y] == xs + [y] + ys
  {
  }

  /** Drawing one more connection extends the paths and the labels by that connection's. */
  lemma PrefixStep(nodes: seq<Node>, elements: map<string, Box>, cs: seq<Connection>, i: nat)
    requires i < |cs|
    ensures Paths(nodes, elements, cs[..i + 1]) == Paths(nodes, elements, cs[..i]) + PathOf(nodes, elements, cs[i])
    ensures Labels(nodes, elements, cs[..i + 1]) == Labels(nodes, elements, cs[..i]) + LabelOf(nodes, elements, cs[i])
  {
    assert cs[..i + 1][..i] == cs[..i];
  }

  /**
   * Draws one connection: skipped when an endpoint is not found, otherwise
   * its route is added to the overlay at position k and its label, if any,
   * is appended to the container.
   */
  method DrawConnection(container: Container, k: nat, nodes: seq<Node>, elements: map<string, Box>,
                        conn: Connection, paths: seq<Route>) returns (paths': seq<Route>)
    requires k < |container.children| && container.children[k] == Overlay(paths)
    modifies container`children
    ensures paths' == paths + PathOf(nodes, elements, conn)
    ensures container.children == old(container.children)[k := Overlay(paths')] + LabelOf(nodes, elements, conn)
  {
    paths' := paths;
    var fromNode := Find(nodes, conn.from);
    var toNode := Find(nodes, conn.to);
    if fromNode.None? || toNode.None? {
      return;
    }
    if fromNode.value.id !in elements || toNode.value.id !in elements {
      return;
    }
    var points := ConnectionPoints(fromNode.value, toNode.value);
    paths' := paths + [RouteFor(points)];
    container.children := container.children[k := Overlay(paths')];
    var tag := LabelFor(points, conn.caption);
    if tag.Some? {
      container.children := container.children + [LabelBox(tag.value)];
    }
  }

  /**
   * Appends the connector overlay, then draws each connection in order: its
   * path goes into the overlay and its label, if any, after the overlay.
   */
  method CreateConnections(container: Container, nodes: seq<Node>, elements: map<string, Box>,
                           connections: seq<Connection>)
    modifies container`children
    ensures container.children == old(container.children) + [Overlay(Paths(nodes, elements, connections))]
                                  + Labels(nodes, elements, connections)
  {
    var k := |container.children|;
    var paths: seq<Route> := [];
    container.children := container.children + [Overlay(paths)];
    for i := 0 to |connections|
      invariant paths == Paths(nodes, elements, connections[..i])
      invariant container.children == old(container.children) + [Overlay(paths)]
                                      + Labels(nodes, elements, connections[..i])
    {
      ghost var before := container.children;
      ghost var labels := Labels(nodes, elements, connections[..i]);
      PrefixStep(nodes, elements, connections, i);
      paths := DrawConnection(container, k, nodes, elements, connections[i], paths);
      ReplaceMiddle(old(container.children), Overlay(before[k].paths), Overlay(paths), labels);
    }
    assert connections[..|connections|] == connections;
  }

  /**
   * A full render pass: nothing happens without a container; otherwise it is
   * emptied and rebuilt from the table at its current size, whatever it held.
   */
  method InitFlowchart(container: Container?)
    modifies container
    ensures container != null ==> container.width == old(container.width) && container.height == old(container.height)
    ensures container != null ==> container.children == RenderPass(container.width, container.height)
  {
    if container == null {
      return;
    }
    container.children := [];
    var nodes := FlowchartNodes(container.width, container.height);
    var elements := CreateNodes(container, nodes);
    assert container.children == BoxElements(nodes);
    CreateConnections(container, nodes, elements, FlowchartConnections);
  }
}
