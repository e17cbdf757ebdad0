/**
 * The overview's open-DRG-element behaviour (OpenDrgElement.js): it marks the diagram
 * elements that can be opened, highlights the one open in the editor, asks the editor
 * to open an element on click, and centres the overview's viewport on the open element.
 *
 * The element registry, the canvas markers and the overview's open flag are the state
 * the handlers change; the canvas itself is the diagram engine's and appears only
 * through the calls the behaviour makes on it.
 */
module OpenDrgElementFeature {
  import opened Wrappers
  import OverviewContainer

  const CAN_OPEN_DRG_ELEMENT_MARKER := "can-open"
  const CURRENT_OPEN_DRG_ELEMENT_MARKER := "open"

  const DECISION := "dmn:Decision"
  const LITERAL_EXPRESSION := "dmn:LiteralExpression"

  /** An element's bounding box in diagram coordinates. */
  datatype Bounds = Bounds(x: real, y: real, width: real, height: real)

  /** A diagram element: its id, the type of its business object (`kind`), whether that object has decision logic, its box. */
  datatype Element = Element(id: string, kind: string, hasDecisionLogic: bool, bbox: Bounds)

  /** The size of the canvas's container, in screen pixels. */
  datatype Dimensions = Dimensions(width: real, height: real)

  /** A viewbox rectangle in diagram coordinates. */
  datatype Rect = Rect(x: real, y: real, width: real, height: real)

  /** A call the behaviour makes on the canvas. */
  datatype CanvasCall = SetViewbox(rect: Rect) | Zoom(scale: real)

  /** Markers per element id, as the canvas keeps them. */
  type Markers = map<string, set<string>>

  /** Element ids are non-empty and distinct: the element registry refuses anything else. */
  predicate WellFormedRegistry(registry: seq<Element>)
  {
    && (forall i :: 0 <= i < |registry| ==> registry[i].id != "")
    && (forall i, j :: 0 <= i < j < |registry| ==> registry[i].id != registry[j].id)
  }

  /** An id counts as set when it is present and non-empty, as in a JavaScript truth test. */
  predicate IsSet(id: Option<string>)
  {
    id.Some? && id.value != ""
  }

  /** `elementRegistry.get`: the element with the given id, if there is one. */
  function Lookup(registry: seq<Element>, id: string): (r: Option<Element>)
    ensures r.Some? ==> r.value in registry && r.value.id == id
    ensures r.None? <==> forall e :: e in registry ==> e.id != id
  {
    if registry == [] then None
    else if registry[0].id == id then Some(registry[0])
    else Lookup(registry[1..], id)
  }

  /** `isAny` on the business object's type; DMN has no subtypes of the two types asked about. */
  predicate IsAny(element: Element, types: seq<string>)
  {
    element.kind in types
  }

  /** `canOpenDrgElement`. */
  function CanOpenDrgElement(element: Element): (r: bool)
    ensures r <==> (element.kind == DECISION || element.kind == LITERAL_EXPRESSION) && element.hasDecisionLogic
  {
    IsAny(element, [DECISION, LITERAL_EXPRESSION]) && element.hasDecisionLogic
  }

  predicate HasMarker(markers: Markers, id: string, marker: string)
  {
    id in markers && marker in markers[id]
  }

  /** `canvas.addMarker`. */
  function AddMarker(markers: Markers, id: string, marker: string): (r: Markers)
    ensures forall k, mk :: HasMarker(r, k, mk) <==> HasMarker(markers, k, mk) || (k == id && mk == marker)
  {
    markers[id := (if id in markers then markers[id] else {}) + {marker}]
  }

  /** `canvas.removeMarker`. */
  function RemoveMarker(markers: Markers, id: string, marker: string): (r: Markers)
    ensures forall k, mk :: HasMarker(r, k, mk) <==> HasMarker(markers, k, mk) && !(k == id && mk == marker)
  {
    if id in markers then markers[id := markers[id] - {marker}] else markers
  }

  /** The markers after the `import.done` loop has visited `elements` in order. */
  function MarkOpenable(markers: Markers, elements: seq<Element>): Markers
  {
    if elements == [] then markers
    else
      var before := MarkOpenable(markers, elements[..|elements| - 1]);
      var e := elements[|elements| - 1];
      if CanOpenDrgElement(e) then AddMarker(before, e.id, CAN_OPEN_DRG_ELEMENT_MARKER) else before
  }

  /** The loop adds `can-open` to exactly the elements that can be opened, and nothing else. */
  lemma {:induction false} MarkOpenableSpec(markers: Markers, elements: seq<Element>, id: string, marker: string)
    ensures HasMarker(MarkOpenable(markers, elements), id, marker) <==>
      || HasMarker(markers, id, marker)
      || (marker == CAN_OPEN_DRG_ELEMENT_MARKER && exists e :: e in elements && e.id == id && CanOpenDrgElement(e))
  {
    if elements != [] {
      var prefix := elements[..|elements| - 1];
      var last := elements[|elements| - 1];
      MarkOpenableSpec(markers, prefix, id, marker);
      assert elements == prefix + [last];
      assert forall e :: e in elements <==> e in prefix || e == last;
    }
  }

  /** The markers the `import.done` handler leaves on the freshly imported `registry`. */
  function ImportMarkers(markers: Markers, registry: seq<Element>, current: Option<string>): Markers
  {
    var marked := MarkOpenable(markers, registry);
    if IsSet(current) then
      match Lookup(registry, current.value)
      case Some(e) => AddMarker(marked, e.id, CURRENT_OPEN_DRG_ELEMENT_MARKER)
      case None => marked
    else marked
  }

  /**
   * After `import.done` every element that can be opened carries `can-open`, the
   * element of the recorded open id (when it is set and resolves) carries `open`,
   * and no other marker is added.
   */
  lemma ImportMarkersSpec(markers: Markers, registry: seq<Element>, current: Option<string>, id: string, marker: string)
    ensures HasMarker(ImportMarkers(markers, registry, current), id, marker) <==>
      || HasMarker(markers, id, marker)
      || (marker == CAN_OPEN_DRG_ELEMENT_MARKER && exists e :: e in registry && e.id == id && CanOpenDrgElement(e))
      || (marker == CURRENT_OPEN_DRG_ELEMENT_MARKER && IsSet(current) && current.value == id && Lookup(registry, id).Some?)
  {
    MarkOpenableSpec(markers, registry, id, marker);
  }

  /** The `open` marker sits at most on the element of the recorded id, and only if that id resolves. */
  ghost predicate OpenOnlyAt(markers: Markers, registry: seq<Element>, current: Option<string>)
  {
    forall k :: HasMarker(markers, k, CURRENT_OPEN_DRG_ELEMENT_MARKER) ==> current == Some(k) && Lookup(registry, k).Some?
  }

  /** The markers after `drgElementOpened` moves the highlight from `previous` to `id`. */
  function OpenedMarkers(markers: Markers, registry: seq<Element>, previous: Option<string>, id: string): Markers
  {
    var cleared :=
      if IsSet(previous) then
        match Lookup(registry, previous.value)
        case Some(p) => RemoveMarker(markers, p.id, CURRENT_OPEN_DRG_ELEMENT_MARKER)
        case None => markers
      else markers;
    match Lookup(registry, id)
    case Some(e) => AddMarker(cleared, e.id, CURRENT_OPEN_DRG_ELEMENT_MARKER)
    case None => cleared
  }

  /**
   * When only the previously open element was highlighted, `drgElementOpened{id}`
   * leaves exactly the element `id` highlighted if it resolves and none otherwise,
   * and touches no other marker.
   */
  lemma OpenedMarkersSpec(markers: Markers, registry: seq<Element>, previous: Option<string>, id: string)
    requires WellFormedRegistry(registry)
    requires OpenOnlyAt(markers, registry, previous)
    ensures forall k :: HasMarker(OpenedMarkers(markers, registry, previous, id), k, CURRENT_OPEN_DRG_ELEMENT_MARKER) <==>
      k == id && Lookup(registry, id).Some?
    ensures forall k, mk :: mk != CURRENT_OPEN_DRG_ELEMENT_MARKER ==>
      (HasMarker(OpenedMarkers(markers, registry, previous, id), k, mk) <==> HasMarker(markers, k, mk))
    ensures OpenOnlyAt(OpenedMarkers(markers, registry, previous, id), registry, Some(id))
  {
  }

  /**
   * `centerViewbox`: the calls that put the box's centre in the middle of a viewport
   * `outer` wide and high, then restore the zoom `scale` the canvas had before.
   */
  function CenterViewbox(outer: Dimensions, scale: real, box: Bounds): (calls: seq<CanvasCall>)
    ensures |calls| == 2 && calls[0].SetViewbox? && calls[1] == Zoom(scale)
    ensures calls[0].rect.width == outer.width && calls[0].rect.height == outer.height
    ensures calls[0].rect.x + calls[0].rect.width / 2.0 == box.x + box.width / 2.0
    ensures calls[0].rect.y + calls[0].rect.height / 2.0 == box.y + box.height / 2.0
  {
    var rect := Rect(
      (box.x + box.width / 2.0) - outer.width / 2.0,
      (box.y + box.height / 2.0) - outer.height / 2.0,
      outer.width,
      outer.height);
    [SetViewbox(rect), Zoom(scale)]
  }

  /** The canvas calls the pending `attachOverview` listeners make, in order. */
  function Recentres(pending: seq<Element>, open: bool, outer: Dimensions, scale: real): seq<CanvasCall>
  {
    if pending == [] then []
    else
      Recentres(pending[..|pending| - 1], open, outer, scale) +
      (if open then CenterViewbox(outer, scale, pending[|pending| - 1].bbox) else [])
  }

  /** With the overview closed the pending recentres do nothing; with it open each one centres on its element, in order. */
  lemma {:induction false} RecentresSpec(pending: seq<Element>, open: bool, outer: Dimensions, scale: real)
    ensures |Recentres(pending, open, outer, scale)| == if open then 2 * |pending| else 0
    ensures open ==> forall i :: 0 <= i < |pending| ==>
      Recentres(pending, open, outer, scale)[2 * i..2 * i + 2] == CenterViewbox(outer, scale, pending[i].bbox)
  {
    if pending != [] {
      var prefix := pending[..|pending| - 1];
      RecentresSpec(prefix, open, outer, scale);
      if open {
        var r := Recentres(pending, open, outer, scale);
        assert r == Recentres(prefix, open, outer, scale) + CenterViewbox(outer, scale, pending[|pending| - 1].bbox);
        forall i | 0 <= i < |pending|
          ensures r[2 * i..2 * i + 2] == CenterViewbox(outer, scale, pending[i].bbox)
        {
          if i < |prefix| {
            assert r[2 * i..2 * i + 2] == Recentres(prefix, open, outer, scale)[2 * i..2 * i + 2];
          }
        }
      }
    }
  }

  /** The overview's open flag after `layoutChanged`: the layout's when it has an overview entry, the old one otherwise. */
  function NextOverviewOpen(wasOpen: bool, dmnOverview: Option<OverviewContainer.DmnOverview>): bool
  {
    if dmnOverview.Some? then dmnOverview.value.open else wasOpen
  }

  /** The element a `layoutChanged` recentres on, if any. */
  function LayoutRecentre(wasOpen: bool, dmnOverview: Option<OverviewContainer.DmnOverview>,
                          current: Option<string>, registry: seq<Element>): (r: Option<Element>)
    ensures r.Some? ==>
      NextOverviewOpen(wasOpen, dmnOverview) && IsSet(current) && Lookup(registry, current.value) == r
    ensures r.Some? && dmnOverview.Some? ==> !wasOpen && dmnOverview.value.open
    ensures r.None? && IsSet(current) && Lookup(registry, current.value).Some? && NextOverviewOpen(wasOpen, dmnOverview) ==>
      dmnOverview.Some? && wasOpen
  {
    var attempt := dmnOverview.None? || wasOpen != dmnOverview.value.open;
    if attempt && NextOverviewOpen(wasOpen, dmnOverview) && IsSet(current) then Lookup(registry, current.value)
    else None
  }

  /**
   * The behaviour registered in the overview viewer. `pendingRecentres` holds the
   * element each one-shot `attachOverview` listener waits to centre on; `canvasCalls`
   * lists the viewport calls made so far; `outer` and `scale` are the canvas's
   * container size and zoom, which centring preserves.
   */
  class OpenDrgElement {
    var registry: seq<Element>
    var markers: Markers
    var currentOpenId: Option<string>
    var overviewOpen: bool
    var pendingRecentres: seq<Element>
    var outer: Dimensions
    var scale: real
    var canvasCalls: seq<CanvasCall>

    ghost predicate Valid()
      reads this
    {
      WellFormedRegistry(registry) && OpenOnlyAt(markers, registry, currentOpenId)
    }

    /** The constructor: the open flag starts as the layout's, or closed when the layout has no overview entry. */
    constructor (layout: OverviewContainer.Layout, outer: Dimensions, scale: real)
      ensures Valid()
      ensures overviewOpen == (layout.dmnOverview.Some? && layout.dmnOverview.value.open)
      ensures registry == [] && markers == map[] && currentOpenId == None
      ensures pendingRecentres == [] && canvasCalls == []
      ensures this.outer == outer && this.scale == scale
    {
      registry := [];
      markers := map[];
      currentOpenId := None;
      overviewOpen := if layout.dmnOverview.Some? then layout.dmnOverview.value.open else false;
      pendingRecentres := [];
      this.outer := outer;
      this.scale := scale;
      canvasCalls := [];
    }

    /**
     * `import.done`: the engine has replaced the diagram by `elements` (the old
     * diagram's markers went with it); the handler then marks what can be opened
     * and highlights the recorded open element.
     */
    method ImportDone(elements: seq<Element>)
      requires WellFormedRegistry(elements)
      modifies this`registry, this`markers
      ensures Valid()
      ensures registry == elements
      ensures markers == ImportMarkers(map[], elements, currentOpenId)
    {
      registry := elements;
      markers := map[];
      var i := 0;
      while i < |registry|
        invariant 0 <= i <= |registry|
        invariant registry == elements
        invariant markers == MarkOpenable(map[], registry[..i])
      {
        var element := registry[i];
        if CanOpenDrgElement(element) {
          markers := AddMarker(markers, element.id, CAN_OPEN_DRG_ELEMENT_MARKER);
        }
        assert registry[..i + 1][..i] == registry[..i];
        i := i + 1;
      }
      assert registry[..i] == registry;
      if IsSet(currentOpenId) {
        var current := Lookup(registry, currentOpenId.value);
        if current.Some? {
          markers := AddMarker(markers, current.value.id, CURRENT_OPEN_DRG_ELEMENT_MARKER);
        }
      }
      forall k | HasMarker(markers, k, CURRENT_OPEN_DRG_ELEMENT_MARKER)
        ensures currentOpenId == Some(k) && Lookup(registry, k).Some?
      {
        ImportMarkersSpec(map[], registry, currentOpenId, k, CURRENT_OPEN_DRG_ELEMENT_MARKER);
      }
    }

    /** `layoutChanged`: follows the layout's open flag and recentres when the panel has just opened. */
    method LayoutChanged(layout: OverviewContainer.Layout)
      requires Valid()
      modifies this`overviewOpen, this`canvasCalls
      ensures Valid()
      ensures overviewOpen == NextOverviewOpen(old(overviewOpen), layout.dmnOverview)
      ensures canvasCalls == old(canvasCalls) +
        match LayoutRecentre(old(overviewOpen), layout.dmnOverview, currentOpenId, registry)
        case Some(e) => CenterViewbox(outer, scale, e.bbox)
        case None => []
    {
      if layout.dmnOverview.Some? {
        var isOverviewOpenChange := overviewOpen != layout.dmnOverview.value.open;
        overviewOpen := layout.dmnOverview.value.open;
        if !isOverviewOpenChange {
          return;
        }
      }
      if overviewOpen && IsSet(currentOpenId) {
        var current := Lookup(registry, currentOpenId.value);
        if current.Some? {
          canvasCalls := canvasCalls + CenterViewbox(outer, scale, current.value.bbox);
        }
      }
    }

    /**
     * `drgElementOpened{id, centerViewbox}`: moves the highlight to `id`, records `id`
     * even when it does not resolve, and, when asked to and `id` resolves, arms a
     * one-shot recentre for the next `attachOverview`.
     */
    method DrgElementOpened(id: string, centerViewbox: bool)
      requires Valid()
      modifies this`markers, this`currentOpenId, this`pendingRecentres
      ensures Valid()
      ensures currentOpenId == Some(id)
      ensures markers == OpenedMarkers(old(markers), registry, old(currentOpenId), id)
      ensures forall k :: HasMarker(markers, k, CURRENT_OPEN_DRG_ELEMENT_MARKER) <==> k == id && Lookup(registry, id).Some?
      ensures pendingRecentres == old(pendingRecentres) +
        (if centerViewbox && Lookup(registry, id).Some? then [Lookup(registry, id).value] else [])
    {
      OpenedMarkersSpec(markers, registry, currentOpenId, id);
      if IsSet(currentOpenId) {
        var previous := Lookup(registry, currentOpenId.value);
        if previous.Some? {
          markers := RemoveMarker(markers, previous.value.id, CURRENT_OPEN_DRG_ELEMENT_MARKER);
        }
      }
      currentOpenId := Some(id);
      var current := Lookup(registry, id);
      if current.Some? {
        markers := AddMarker(markers, current.value.id, CURRENT_OPEN_DRG_ELEMENT_MARKER);
        if centerViewbox {
          pendingRecentres := pendingRecentres + [current.value];
        }
      }
    }

    /** `attachOverview`: each pending one-shot listener runs once, centring only if the overview is open. */
    method AttachOverview()
      requires Valid()
      modifies this`pendingRecentres, this`canvasCalls
      ensures Valid()
      ensures pendingRecentres == []
      ensures canvasCalls == old(canvasCalls) + Recentres(old(pendingRecentres), overviewOpen, outer, scale)
    {
      var listeners := pendingRecentres;
      pendingRecentres := [];
      var i := 0;
      while i < |listeners|
        invariant 0 <= i <= |listeners|
        invariant pendingRecentres == []
        invariant canvasCalls == old(canvasCalls) + Recentres(listeners[..i], overviewOpen, outer, scale)
      {
        if overviewOpen {
          canvasCalls := canvasCalls + CenterViewbox(outer, scale, listeners[i].bbox);
        }
        assert listeners[..i + 1][..i] == listeners[..i];
        i := i + 1;
      }
      assert listeners[..i] == listeners;
    }

    /** `element.click`: the id of the `openDrgElement` event fired, if one is. */
    method ElementClick(element: Element) returns (fired: Option<string>)
      ensures fired.Some? <==> CanOpenDrgElement(element)
      ensures fired.Some? ==> fired.value == element.id
    {
      if !CanOpenDrgElement(element) {
        return None;
      }
      fired := Some(element.id);
    }
  }
}
