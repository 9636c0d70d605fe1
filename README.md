# Slide flowchart engine and highlight cycler, in Dafny

This project models the two parts of the slide framework that hold real logic.

**The horizontal flowchart slide** (`js/slides/slide6.js`). A static table of five
nodes and five connections is scaled to the container's measured size. Each node is
drawn as a box centred on its declared position. Each connection gets two anchor
points on the facing edges of its nodes and a route between them. The route is a
straight segment when the anchors are nearly level and a cubic curve otherwise,
with both control points on the vertical midline between the anchors. A label sits
at the anchors' midpoint. Every render pass empties the container and rebuilds it. A debounced resize listener triggers the redraw.

**The highlight cycler** (`js/slides/slide2.js`). Each button click restores the
previously highlighted list item to the default colour and highlights the next one,
wrapping around. Cleanup restores every item and resets the index.

Modules:

- `Geometry` (geometry.dfy) holds the pure functions: anchors, routes, labels and node boxes. Coordinates are `real`.
- `Flowchart` (flowchart.dfy) holds the static table and the node lookup. It also holds the render pass as a
  `Container` class whose `children` sequence holds node boxes, then the connector overlay, then the labels.
  `CreateNodes`, `CreateConnections` and `InitFlowchart` are methods, each proved against the specification
  functions `BoxElements`, `ElementMap`, `Paths`, `Labels` and `RenderPass`.
- `Debounce` (debounce.dfy) holds the `Debouncer` class, with a `pending` run that `Call` replaces and
  `Fire` consumes. It also holds a pure trace model, `Replay`, over call and timer-expiry events, and
  proves the burst properties on that model.
- `FlowchartSlide` (flowchart_slide.dfy) holds the slide lifecycle. A `Window` registry identifies
  listeners by object identity. Also here: `Initialize`, the redraw when the resize timer expires,
  and `Cleanup`.
- `Highlight` (highlight.dfy) holds the `HighlightSlide` class. It keeps the item colours in an `array`,
  the index, and the invariant that any highlighted item is the one at the index. Clicks are also
  specified by the pure function `ClickColors`.

Where the code and the system's design specification disagree, the model follows the code:

- The specification describes orthogonal three-segment routes and decision-diamond shapes. The code
  has neither; its routes are straight or cubic. For two stacked nodes (`StackedNodesExample`) the
  code draws a cubic curve, not an orthogonal or straight one.
- The specification asks for a self-loop fallback. In the code, a connection from a node to itself
  puts both anchors at the origin and draws a zero-length straight path there (`SelfLoopAtOrigin`).
- The specification says cleanup deregisters the registered listener and empties the container. The
  code's cleanup does neither (see Findings).

## Model

| member | source | states |
|---|---|---|
| `Geometry.ConnectionPoints` | js/slides/slide6.js:222-270 | If the centres' x differ and \|dx\| >= \|dy\| (a tie included), the anchors are on the left/right edges that face each other, at each centre's y. If \|dx\| < \|dy\|, they are on the facing bottom/top edges, at each centre's x. If the centres coincide, both anchors are the origin. |
| `Geometry.AnchorsOnBoundary` | js/slides/slide6.js:228-266 | For non-negative sizes and distinct centres, each anchor is the midpoint of one of its own node's edges. Its distance from the centre along the chosen axis is exactly half the width or half the height. |
| `Geometry.ConnectionPointsSwap` | js/slides/slide6.js:222-270 | Swapping the two nodes swaps the two anchors. |
| `Geometry.SelfLoopAtOrigin` | js/slides/slide6.js:228-251 | A connection from a node to itself gets both anchors at the origin and a zero-length straight route. |
| `Geometry.RouteFor` | js/slides/slide6.js:180-190 | Every route starts at the from anchor and ends at the to anchor. It is straight iff the anchors' heights differ by less than 20. Otherwise it is a cubic whose control points share the anchors' midline x and take the from and to heights. When the anchors' x differ, both end tangents are horizontal. When they are equal, the cubic is a vertical segment. |
| `Geometry.LabelFor` | js/slides/slide6.js:199-209 | A label exists iff its text is non-empty. It carries that text, and its corner plus (20, 8) is the midpoint of the two anchors. |
| `Geometry.BoxOf` | js/slides/slide6.js:102-111 | A node's box keeps the node's id, text, size and colours, and is centred on the node's declared (x, y). |
| `Geometry.LevelNodesExample` | js/slides/slide6.js:234-240 | Nodes at (60,100) and (260,100), 100 by 40: anchors (110,100) and (210,100), with a straight route. |
| `Geometry.StackedNodesExample` | js/slides/slide6.js:251-258 | Nodes at (150,30) and (150,460), 120 by 40: anchors (150,50) and (150,440), a cubic route, and the label "Option 1" at (130,237). |
| `Flowchart.FlowchartNodes` | js/slides/slide6.js:65-71 | Defines the five nodes of the table, with the source's ids, texts, sizes and colours, placed relative to the container's width and height. The connection table is the constant `FlowchartConnections` (js/slides/slide6.js:74-80). |
| `Flowchart.Find` | js/slides/slide6.js:138-139 | The lookup finds a node iff some node carries the id; a node it finds carries that id and belongs to the table. |
| `Flowchart.FindFirst` | js/slides/slide6.js:138-139 | The lookup returns the earliest node with the id. |
| `Flowchart.ElementMap` | js/slides/slide6.js:93-117 | The id-to-element dictionary has exactly one key per node id. |
| `Flowchart.ElementMapLastWins` | js/slides/slide6.js:117 | An id's entry is the box of the last node carrying it. |
| `Flowchart.ElementMapOfDistinct` | js/slides/slide6.js:95-118 | With distinct ids, each node's entry is its own box. |
| `Flowchart.Resolve` | js/slides/slide6.js:138-153 | Defines the anchors of one connection: both endpoint lookups, then both element checks. It yields anchors iff both ids name a node and both have an entry in the element dictionary. |
| `Flowchart.PathOf` | js/slides/slide6.js:172-197 | Defines what one connection adds to the overlay: the route of its anchors, or nothing when it is skipped. |
| `Flowchart.LabelOf` | js/slides/slide6.js:199-217 | Defines what one connection appends to the container: a label element when it resolves and its label is non-empty, otherwise nothing. |
| `Flowchart.Paths` | js/slides/slide6.js:137-197 | Defines the overlay's path list for a list of connections: each connection's paths, in order. |
| `Flowchart.Labels` | js/slides/slide6.js:137-218 | Defines the label elements for a list of connections: each connection's label, in order. |
| `Flowchart.RenderPass` | js/slides/slide6.js:57-88 | Defines the container's children after one pass: the node boxes in table order, then the overlay with `Paths`, then `Labels`. |
| `Flowchart.ResolveAgainstOwnMap` | js/slides/slide6.js:137-153 | Against a dictionary built from the same nodes, a connection is drawn iff both endpoint ids name a node. The second "elements not found" check then never fires. The anchors come from the first nodes found. |
| `Flowchart.PathsAndLabelsAppend` | js/slides/slide6.js:137-218 | Connections are processed independently and in order: the output for a concatenation is the concatenation of the outputs. |
| `Flowchart.DanglingConnectionSkipped` | js/slides/slide6.js:141-144 | A connection with an unknown endpoint adds no path and no label, and the connections after it are still drawn. |
| `Flowchart.PathsWhenAllResolve` | js/slides/slide6.js:172-197 | When every connection resolves, there is exactly one path per connection, and path k is the route of connection k's anchors. |
| `Flowchart.LabelsWhenAllResolve` | js/slides/slide6.js:199-217 | When every connection resolves, there is one label element per connection with non-empty label text. |
| `Flowchart.StaticTableWellFormed` | js/slides/slide6.js:65-80 | The five node ids are distinct and all sizes are positive. Every connection endpoint names one of the five nodes. |
| `Flowchart.StaticLabelCount` | js/slides/slide6.js:74-80 | Three of the five connections carry a label. |
| `Flowchart.StaticConnectionsResolve` | js/slides/slide6.js:65-83 | At any container size, every static connection resolves against the dictionary built from the static nodes. |
| `Flowchart.StaticPassCounts` | js/slides/slide6.js:65-87 | At any container size, a pass over the static table draws five connectors and three labels. |
| `Flowchart.RenderPassLayout` | js/slides/slide6.js:57-88 | At any container size, a pass yields nine children. The five node boxes come first, in table order, then one overlay holding five connectors, then three labels. |
| `Flowchart.CreateNodes` | js/slides/slide6.js:92-121 | Appends exactly the nodes' boxes to the container, in order, and returns the id-to-box dictionary. |
| `Flowchart.DrawConnection` | js/slides/slide6.js:137-217 | One connection: skipped when an endpoint or its element is missing. Otherwise its route is added to the overlay and its label, if any, is appended after everything else. |
| `Flowchart.CreateConnections` | js/slides/slide6.js:124-219 | Appends one overlay holding the paths of all resolvable connections in order, followed by their labels in order. |
| `Flowchart.InitFlowchart` | js/slides/slide6.js:50-89 | Without a container nothing happens. Otherwise the container's children become the full render pass for its current size, whatever it held before, so repeating it is idempotent. |
| `Debounce.Step` | js/slides/slide6.js:39-45 | Defines one event. A call replaces the pending run with its own arguments and runs nothing. An expiry runs the pending arguments and leaves nothing pending. |
| `Debounce.Replay` | js/slides/slide6.js:37-47 | Defines a sequence of events as `Step` applied left to right, collecting the runs in order. |
| `Debounce.ReplayAppend` | js/slides/slide6.js:37-47 | Replaying two runs of events is replaying the second from the pending state the first leaves. |
| `Debounce.BurstCollapses` | js/slides/slide6.js:44-45 | A burst of one or more calls runs nothing. It leaves exactly one run pending, with the last call's arguments, whatever was pending before. |
| `Debounce.ElapseRunsPending` | js/slides/slide6.js:40-43 | When the timer expires, the pending run (if any) executes once, and nothing is pending afterwards. |
| `Debounce.BurstThenElapseRunsOnce` | js/slides/slide6.js:37-47 | A burst of calls followed by the quiet period runs the function exactly once, with the last call's arguments. |
| `Debounce.RunsBoundedByElapses` | js/slides/slide6.js:37-47 | No sequence of events runs the function more times than the timer expires. |
| `Debounce.Debouncer.constructor` | js/slides/slide6.js:38 | A new debounced function has nothing pending. |
| `Debounce.Debouncer.Call` | js/slides/slide6.js:39-46 | A call cancels the pending run and schedules one with its own arguments. |
| `Debounce.Debouncer.Fire` | js/slides/slide6.js:40-43 | Timer expiry returns the pending arguments and leaves nothing pending. |
| `FlowchartSlide.Without` | js/slides/slide6.js:277 | Removing a listener removes every copy of it and keeps the others. Removing a listener that was never registered leaves the list unchanged. |
| `FlowchartSlide.Window.AddEventListener` | js/slides/slide6.js:31 | Registers the listener unless that same listener is already registered. |
| `FlowchartSlide.Window.RemoveEventListener` | js/slides/slide6.js:277 | The registry loses exactly that listener. |
| `FlowchartSlide.Initialize` | js/slides/slide6.js:26-34 | Draws the chart for the container's size. Then it registers one newly built debounced listener with nothing pending. |
| `FlowchartSlide.OnResizeTimer` | js/slides/slide6.js:31-33 | When the debounce timer expires with a run pending, the chart is redrawn at the container's current size. With nothing pending the container is untouched. Either way nothing stays pending. |
| `FlowchartSlide.Cleanup` | js/slides/slide6.js:273-278 | Cleanup as written leaves the listener registry exactly as it was. |
| `FlowchartSlide.CleanupRetained` | js/slides/slide6.js:273-278 | Corrected cleanup: the listener that initialize registered is no longer registered. |
| `FlowchartSlide.ListenersAfterTwoVisits` | js/slides/slide6.js:273-278 | Initialize then cleanup as written, twice, leaves two resize listeners registered. |
| `FlowchartSlide.ListenersAfterTwoVisitsRetained` | js/slides/slide6.js:273-278 | With the corrected cleanup, the same two visits leave none. |
| `Highlight.JsRemainder` | js/slides/slide2.js:56 | JavaScript's truncating remainder: it lies strictly between -n and n, takes the dividend's sign, and equals Dafny's `%` for a non-negative dividend. |
| `Highlight.JsRemainderOdd` | js/slides/slide2.js:56 | The remainder of a negated dividend is the negated remainder. Together with the non-negative case of `JsRemainder`, this fixes its value for every dividend, e.g. -3 for -3 and 4, as JavaScript gives. |
| `Highlight.NextIndex` | js/slides/slide2.js:56 | With n > 0 items, a click moves the index into [0, n). It goes from -1 to 0 on the first click, advances by one, and wraps from n-1 to 0. With no items it becomes NaN, and NaN stays NaN. |
| `Highlight.ClickColors` | js/slides/slide2.js:51-61 | Defines the item colours after a click from an index, keeping the item count. The index addresses an item only when it is in range, and then that item is restored. The new index's item is highlighted only when it is a number in range. |
| `Highlight.ClickHighlightsExactlyOne` | js/slides/slide2.js:51-61 | If every highlighted item was the one at the index, then after a click exactly one item is highlighted: the one at the new index. |
| `Highlight.ClickTouchesOnlyTwo` | js/slides/slide2.js:51-61 | A click highlights the new item and restores the previous one (when the two differ). Every other item keeps its colour. |
| `Highlight.StaleIndexNoReset` | js/slides/slide2.js:51-53 | An index not below the item count restores nothing; the only write is the highlight of the new item. |
| `Highlight.NaNIsSticky` | js/slides/slide2.js:56-61 | A NaN index writes no colour and stays NaN; a click with no items makes the index NaN. |
| `Highlight.ClickPreservesConsistent` | js/slides/slide2.js:46-62 | A click keeps the invariant that any highlighted item is the one at the index. |
| `Highlight.HighlightSlide.constructor` | js/slides/slide2.js:28 | The slide starts with every item in the default colour, the index at -1 and no listener. |
| `Highlight.HighlightSlide.Initialize` | js/slides/slide2.js:35-43 | The click listener is registered exactly when the button is present. |
| `Highlight.HighlightSlide.HighlightNextItem` | js/slides/slide2.js:46-62 | The index becomes its successor modulo the item count, and the colours become `ClickColors` of the old ones. The invariant is kept. |
| `Highlight.HighlightSlide.Cleanup` | js/slides/slide2.js:65-82 | Every item gets the default colour and the index returns to -1. The listener is removed when the button is present. |

## Findings

| source | as written | input that shows it | evidently intended | confidence | as-written member | corrected member |
|---|---|---|---|---|---|---|
| js/slides/slide6.js:277 | Cleanup passes a debounced closure built on the spot to `removeEventListener`, and that closure was never registered. | Show the slide, leave it, show it and leave it again: two resize listeners remain registered. | Remove the listener that initialize registered at line 31, which must be kept for that purpose. | high; not executed | `FlowchartSlide.ListenersAfterTwoVisits` | `FlowchartSlide.ListenersAfterTwoVisitsRetained` |

## Left out

- Real timing is not modelled: neither the 250 ms debounce delay nor the 50 ms deferral of `createConnections`. `InitFlowchart` appends the nodes and then the connections in sequence. Only the order matters: nodes come before the overlay and labels. So the case where a redraw starts inside the 50 ms gap of an earlier one is not modelled.
- The window dispatching a resize event to each registered listener is not a member. It is what `Debouncer.Call` does for each listener.
- The bounding rectangles measured at js/slides/slide6.js:156-158 and the unused centre records at lines 161-169 are left out. Anchors come only from the declared geometry.
- SVG path strings, number formatting, the arrowhead marker, class names, element ids, the fixed font sizes, padding and z-index values, and all console logging are left out. Routes are a datatype and labels are a corner plus text.
- Coordinates are exact reals, so IEEE double rounding is not modelled. The container's measured width and height are plain `real` fields.
- A connection whose label is missing counts as the empty string. Both are falsy in the source.
- The SVG overlay is modelled by value, as one child element whose path list is replaced whenever a path is appended.
- The DOM queries (`getElementById`, `querySelectorAll`) are represented by given objects. The container may be null. The slide 2 items are the fixed array the slide's markup creates, so a stale index and NaN arise only in the pure lemmas about `ClickColors` and `NextIndex`, not through the class.
- Highlight.ClickHighlightsExactlyOne: assumes that any highlighted item is the one at the index, rather than only that at most one item is highlighted. The weaker premise does not suffice: with index -1 and the second of two items highlighted, a click leaves both highlighted. The class keeps the stronger premise as its invariant.
- Slides 1, 3, 4 and 5 and the development server are not part of this model. They are style injection, logging, a chart wrapper with random data, a WebGL scene and HTTP I/O.
