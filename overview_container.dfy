/**
 * The resizable side panel that hosts the DRD overview (OverviewContainer.js).
 *
 * The panel reads the `dmnOverview` entry of the shell's layout record, renders at
 * the stored width when open and at zero when closed, and reports every change of
 * size or visibility through the shell's `onLayoutChanged` callback; it never
 * writes the layout itself.
 */
module OverviewContainer {
  import opened Wrappers

  /** The `dmnOverview` entry of the layout; `extra` holds any further keys the entry carries. */
  datatype DmnOverview = DmnOverview(open: bool, width: int, extra: map<string, string>)

  /** The part of the shell's layout record that the overview components read. */
  datatype Layout = Layout(dmnOverview: Option<DmnOverview>)

  /** What `render` produces: visibility, the style width, and which controls exist. */
  datatype Rendered = Rendered(open: bool, width: int, resizeHandle: bool, toggle: bool)

  const DEFAULT_LAYOUT := DmnOverview(true, 350, map[])
  const MIN_WIDTH := 150
  const MAX_WIDTH := 650

  function Min(a: int, b: int): int
  {
    if a <= b then a else b
  }

  /** The overview entry in force: the layout's own, or the default layout when it has none. */
  function CurrentOverview(layout: Layout): (o: DmnOverview)
    ensures layout.dmnOverview.Some? ==> o == layout.dmnOverview.value
    ensures layout.dmnOverview.None? ==> o.open && o.width == 350 && o.extra == map[]
  {
    layout.dmnOverview.GetOr(DEFAULT_LAYOUT)
  }

  /**
   * The overview entry a drag by `dx` reports, starting from a panel `originalWidth`
   * wide; None when the drag is ignored. The width is capped at MAX_WIDTH but has no
   * lower bound, and the panel counts as open exactly from MIN_WIDTH on.
   */
  function Resize(originalWidth: int, dx: int): (r: Option<DmnOverview>)
    ensures r.None? <==> dx == 0
    ensures r.Some? ==> r.value.width <= MAX_WIDTH && r.value.width <= originalWidth + dx
    ensures r.Some? ==> r.value.width == originalWidth + dx || r.value.width == MAX_WIDTH
    ensures r.Some? ==> (r.value.open <==> r.value.width >= MIN_WIDTH)
    ensures r.Some? ==> r.value.extra == map[]
  {
    if dx == 0 then None
    else
      var width := Min(originalWidth + dx, MAX_WIDTH);
      Some(DmnOverview(width >= MIN_WIDTH, width, map[]))
  }

  /** The overview entry the toggle control reports: the one in force, closed, all else kept. */
  function Toggle(layout: Layout): (o: DmnOverview)
    ensures !o.open
    ensures o.width == CurrentOverview(layout).width && o.extra == CurrentOverview(layout).extra
    ensures layout.dmnOverview.None? ==> o.width == DEFAULT_LAYOUT.width
  {
    CurrentOverview(layout).(open := false)
  }

  /** What the panel renders for a layout. */
  function View(layout: Layout): (v: Rendered)
    ensures v.open == CurrentOverview(layout).open
    ensures v.open ==> v.width == CurrentOverview(layout).width
    ensures !v.open ==> v.width == 0
    ensures v.resizeHandle <==> v.open
    ensures v.toggle <==> v.open
  {
    var o := CurrentOverview(layout);
    Rendered(o.open, if o.open then o.width else 0, o.open, o.open)
  }

  /** The pairs the component's tests pin down, starting from the default width. */
  lemma ResizeExamples()
    ensures Resize(350, -10) == Some(DmnOverview(true, 340, map[]))
    ensures Resize(350, -300) == Some(DmnOverview(false, 50, map[]))
    ensures Resize(350, 0) == None
  {
  }

  /** Once the shell stores what a drag reported, the panel renders it: at the width when open, hidden below MIN_WIDTH, never wider than MAX_WIDTH. */
  lemma ResizeThenRender(originalWidth: int, dx: int)
    requires dx != 0
    ensures Resize(originalWidth, dx).Some?
    ensures var v := View(Layout(Resize(originalWidth, dx)));
      v.width <= MAX_WIDTH &&
      (v.open <==> Resize(originalWidth, dx).value.width >= MIN_WIDTH) &&
      (v.open ==> v.width == Resize(originalWidth, dx).value.width) &&
      (!v.open ==> v.width == 0 && !v.resizeHandle && !v.toggle)
  {
  }

  /** Toggling twice reports the same entry as toggling once. */
  lemma ToggleIdempotent(layout: Layout)
    ensures Toggle(Layout(Some(Toggle(layout)))) == Toggle(layout)
  {
  }

  /** A toggled panel renders hidden, and reopening the stored entry brings back the width it had. */
  lemma ToggleKeepsWidth(layout: Layout)
    ensures View(Layout(Some(Toggle(layout)))).width == 0
    ensures View(Layout(Some(Toggle(layout).(open := true)))).width == CurrentOverview(layout).width
  {
  }

  /**
   * The mounted component. `currentWidth` and `originalWidth` are the instance fields
   * that `render` and `handleResizeStart` write; `layoutChanges` lists, in order, the
   * arguments `onLayoutChanged` has received.
   */
  class OverviewContainerWrapped {
    var layout: Layout
    const hasLayoutCallback: bool
    var currentWidth: int
    var originalWidth: Option<int>
    var layoutChanges: seq<Layout>

    /** Construction followed by React's first render. */
    constructor (layout: Layout, hasLayoutCallback: bool)
      ensures this.layout == layout && this.hasLayoutCallback == hasLayoutCallback
      ensures currentWidth == View(layout).width
      ensures originalWidth == None && layoutChanges == []
    {
      this.layout := layout;
      this.hasLayoutCallback := hasLayoutCallback;
      currentWidth := View(layout).width;
      originalWidth := None;
      layoutChanges := [];
    }

    /** `changeLayout`: passes the layout to the callback exactly once, if there is a callback. */
    method ChangeLayout(newLayout: Layout)
      modifies this`layoutChanges
      ensures layoutChanges == old(layoutChanges) + (if hasLayoutCallback then [newLayout] else [])
    {
      if hasLayoutCallback {
        layoutChanges := layoutChanges + [newLayout];
      }
    }

    /** `handleResizeStart`: the rendered width becomes the baseline of the drag. */
    method HandleResizeStart()
      modifies this`originalWidth
      ensures originalWidth == Some(currentWidth)
    {
      originalWidth := Some(currentWidth);
    }

    /** `handleResize`: reports the resized entry unless the horizontal delta is zero. */
    method HandleResize(dx: int)
      requires originalWidth.Some?
      modifies this`layoutChanges
      ensures dx == 0 ==> layoutChanges == old(layoutChanges)
      ensures dx != 0 ==>
        layoutChanges == old(layoutChanges) + (if hasLayoutCallback then [Layout(Resize(originalWidth.value, dx))] else [])
    {
      if dx == 0 {
        return;
      }
      var width := Min(originalWidth.value + dx, MAX_WIDTH);
      var open := width >= MIN_WIDTH;
      ChangeLayout(Layout(Some(DmnOverview(open, width, map[]))));
    }

    /** `handleToggle`: reports the entry in force, closed. */
    method HandleToggle()
      modifies this`layoutChanges
      ensures layoutChanges == old(layoutChanges) +
        (if hasLayoutCallback then [Layout(Some(Toggle(layout)))] else [])
    {
      var dmnOverview := layout.dmnOverview.GetOr(DEFAULT_LAYOUT);
      ChangeLayout(Layout(Some(dmnOverview.(open := false))));
    }

    /** `render`: computes the view and records its width in `currentWidth`. */
    method Render() returns (v: Rendered)
      modifies this`currentWidth
      ensures v == View(layout) && currentWidth == v.width
    {
      var dmnOverview := layout.dmnOverview.GetOr(DEFAULT_LAYOUT);
      var open := dmnOverview.open;
      var width := if open then dmnOverview.width else 0;
      currentWidth := width;
      v := Rendered(open, width, open, open);
    }

    /** New props from the shell, followed by the render React schedules for them. */
    method ReceiveLayout(newLayout: Layout) returns (v: Rendered)
      modifies this`layout, this`currentWidth
      ensures layout == newLayout
      ensures v == View(newLayout) && currentWidth == v.width
    {
      layout := newLayout;
      v := Render();
    }
  }
}
