/**
 * The flowchart slide's lifecycle: initialize draws the chart and registers
 * a debounced resize listener that redraws it; cleanup tries to remove that
 * listener. The window's listener registry identifies listeners by object
 * identity, as the DOM does for function references.
 */
module FlowchartSlide {
  import opened Wrappers
  import opened Flowchart
  import opened Debounce

  /** The arguments a resize listener receives; the redraw ignores them. */
  datatype ResizeEvent = ResizeEvent

  type Handler = Debouncer<ResizeEvent>

  /** The listeners with h removed; removing a listener that is not registered changes nothing. */
  function Without(listeners: seq<Handler>, h: Handler): (r: seq<Handler>)
    ensures h !in r
    ensures forall k :: 0 <= k < |r| ==> r[k] in listeners
    ensures forall k :: 0 <= k < |listeners| && listeners[k] != h ==> listeners[k] in r
    ensures h !in listeners ==> r == listeners
    decreases |listeners|
  {
    if listeners == [] then []
    else (if listeners[0] == h then [] else [listeners[0]]) + Without(listeners[1..], h)
  }

  /** The window's registry of resize listeners. */
  class Window {
    var resizeListeners: seq<Handler>

    constructor ()
      ensures resizeListeners == []
    {
      resizeListeners := [];
    }

    /** Registers h, unless that very listener is already registered. */
    method AddEventListener(h: Handler)
      modifies this
      ensures resizeListeners == if h in old(resizeListeners) then old(resizeListeners)
                                 else old(resizeListeners) + [h]
    {
      if h !in resizeListeners {
        resizeListeners := resizeListeners + [h];
      }
    }

    /** Deregisters h; a listener that was never registered is ignored. */
    method RemoveEventListener(h: Handler)
      modifies this
      ensures resizeListeners == Without(old(resizeListeners), h)
    {
      resizeListeners := Without(resizeListeners, h);
    }
  }

  /**
   * Draws the chart, then registers a newly built debounced listener that
   * redraws it; the listener is returned so that callers can observe it.
   */
  method Initialize(window: Window, container: Container?) returns (handler: Handler)
    modifies window, container
    ensures fresh(handler) && handler.pending == None
    ensures window.resizeListeners == old(window.resizeListeners) + [handler]
    ensures container != null ==> container.width == old(container.width) && container.height == old(container.height)
    ensures container != null ==> container.children == RenderPass(container.width, container.height)
  {
    InitFlowchart(container);
    handler := new Debouncer<ResizeEvent>();
    window.AddEventListener(handler);
  }

  /** The debounced resize timer elapses: a pending run redraws the chart at the container's current size. */
  method OnResizeTimer(handler: Handler, container: Container?)
    modifies handler, container
    ensures handler.pending == None
    ensures container != null && old(handler.pending).Some? ==>
              container.children == RenderPass(container.width, container.height)
    ensures container != null && old(handler.pending).None? ==> container.children == old(container.children)
    ensures container != null ==> container.width == old(container.width) && container.height == old(container.height)
  {
    var ran := handler.Fire();
    if ran.Some? {
      InitFlowchart(container);
    }
  }

  /**
   * Cleanup as written: it builds a new debounced closure and asks the
   * window to remove that one, which was never registered, so every
   * registered listener stays.
   */
  method Cleanup(window: Window)
    modifies window
    ensures window.resizeListeners == old(window.resizeListeners)
  {
    var stale := new Debouncer<ResizeEvent>();
    window.RemoveEventListener(stale);
  }

  /** Cleanup as intended: the listener that initialize registered is removed. */
  method CleanupRetained(window: Window, handler: Handler)
    modifies window
    ensures window.resizeListeners == Without(old(window.resizeListeners), handler)
    ensures handler !in window.resizeListeners
  {
    window.RemoveEventListener(handler);
  }

  /** Two visits to the slide with the cleanup as written leave two resize listeners behind. */
  method ListenersAfterTwoVisits(width: real, height: real) returns (remaining: nat)
    ensures remaining == 2
  {
    var window := new Window();
    var container := new Container(width, height);
    var first := Initialize(window, container);
    Cleanup(window);
    var second := Initialize(window, container);
    Cleanup(window);
    remaining := |window.resizeListeners|;
  }

  /** Two visits with the listener retained and removed leave none. */
  method ListenersAfterTwoVisitsRetained(width: real, height: real) returns (remaining: nat)
    ensures remaining == 0
  {
    var window := new Window();
    var container := new Container(width, height);
    var first := Initialize(window, container);
    CleanupRetained(window, first);
    assert window.resizeListeners == [];
    var second := Initialize(window, container);
    CleanupRetained(window, second);
    assert window.resizeListeners == [];
    remaining := |window.resizeListeners|;
  }
}
