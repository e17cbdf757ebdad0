# DMN tab overview: a Dafny model

This project models the DMN tab's own logic in the desktop modeler. The tab embeds the
dmn-js editor, shows a second, read-only DRD (decision requirements diagram) "overview"
next to it, and keeps the two in step. The model covers three pieces:

- **The overview panel** (`OverviewContainer.js`, module `OverviewContainer`). Its
  resize and toggle rules are pure functions on the layout record (`Resize`, `Toggle`,
  `View`). The mounted component is the class `OverviewContainerWrapped`. It holds the
  instance fields `currentWidth` and `originalWidth`, plus the list of layouts passed
  to the shell's `onLayoutChanged` callback.
- **The open-DRG-element behaviour** (`OpenDrgElement.js`, module
  `OpenDrgElementFeature`). The class `OpenDrgElement` holds:
  - the element registry and the canvas markers (element id → set of `can-open`/`open`);
  - the open element's id and the overview's open flag;
  - the one-shot recentres waiting for `attachOverview`;
  - the viewport calls made so far.

  Every event handler is a method. `canOpenDrgElement` and the centring arithmetic of
  `centerViewbox` (on `real`s) are pure functions.
- **The modeler's overview coordination** (`DmnModeler.js`, module `DmnModeler`). The
  class `CamundaDmnModeler` holds:
  - the single `subscription` slot and the live `commandStack.changed` listeners;
  - the one-shot `saveXML.done` re-subscribes and the deferred overview updates;
  - the overview container's parent, and `previousActiveViewType`;
  - the events fired on the overview and the imports started on it.

  Each listener is named by the `views.changed` call whose closures it belongs to and by
  the viewer bus it sits on. The engine keeps one viewer per view type. `mergeModules`,
  the `moddleExtensions` merge, the constructor's option rewriting and `getStackIdx`
  are pure functions.

Each event handler is one atomic step of a method. Events the code fires and callbacks
it invokes are appended to log fields. The diagram engine (import and export, canvas,
element registry, view switching) appears only as the parameters and logs of these
methods.

Proved properties, besides each method's exact new state:
- `Resize` caps the width at 650 and has no lower clamp. The panel is open exactly from
  150 on, and a delta of zero reports nothing.
- Toggling closes the panel, keeps the width, and is idempotent.
- After `import.done`, the markers are exactly `can-open` on the elements that can be
  opened plus `open` on the recorded element.
- After `drgElementOpened{id}`, exactly the element `id` carries `open`, if it resolves.
- `centerViewbox` puts the box centre at the viewport centre, keeps the outer size and
  restores the zoom.
- The subscription slot always tracks every live command-stack listener, so at most one
  is live.
- `saveXML.done` leaves the last armed re-subscribe live, whatever view is on screen.
  With the corrected `views.changed`, that listener is on the viewer last shown.
- With the corrected `attachOverviewTo`, detaching, one edit and re-attaching reload the
  overview exactly once; as written they never do.
- `openDrgElement` opens the first view showing the element, unless that view is the DRD.

Two behaviours of the code are deliberate and modelled as they are:
- The width has no lower clamp (`OverviewContainer.js:66`). A drag can report a width
  below 150, or below 0; the panel is then closed.
- `layoutChanged` without a `dmnOverview` entry still attempts a recentre
  (`OpenDrgElement.js:46-64`). A recentre does not need a change of the open flag.

Two behaviours of `DmnModeler.js` contradict what the code around them sets out to do.
Both are modelled as written and, beside that, as corrected; see "## Findings".

## Model

| member | source | states |
|---|---|---|
| `OverviewContainer.CurrentOverview` | client/src/app/tabs/dmn/OverviewContainer.js:25-28 | the layout's overview entry, or `{open: true, width: 350}` when it has none |
| `OverviewContainer.Resize` | client/src/app/tabs/dmn/OverviewContainer.js:57-76 | nothing is reported iff dx is 0; otherwise the width is at most 650 and at most original+dx, equal to one of them, with no lower bound; open iff width ≥ 150 |
| `OverviewContainer.Toggle` | client/src/app/tabs/dmn/OverviewContainer.js:78-89 | the reported entry is closed and keeps the width and every other key of the entry in force; width 350 when the layout has none |
| `OverviewContainer.View` | client/src/app/tabs/dmn/OverviewContainer.js:98-131 | renders the stored width when open and 0 when closed; the resize handle and toggle exist iff open |
| `OverviewContainer.ResizeExamples` | client/src/app/tabs/dmn/__tests__/OverviewContainerSpec.js:38-131 | 350 with −10 gives `{open: true, width: 340}`, with −300 gives `{open: false, width: 50}`, with 0 nothing |
| `OverviewContainer.ResizeThenRender` | client/src/app/tabs/dmn/OverviewContainer.js:66-102 | a stored resize renders at its width when open, hidden with no controls below 150, never wider than 650 |
| `OverviewContainer.ToggleIdempotent` | client/src/app/tabs/dmn/OverviewContainer.js:78-89 | toggling a toggled layout reports the same entry |
| `OverviewContainer.ToggleKeepsWidth` | client/src/app/tabs/dmn/OverviewContainer.js:78-102 | a toggled panel renders at width 0, and reopening it renders the width it had |
| `OverviewContainer.OverviewContainerWrapped.constructor` | client/src/app/tabs/dmn/OverviewContainer.js:34-39 | mounting records the rendered width; no drag baseline yet; nothing reported |
| `OverviewContainer.OverviewContainerWrapped.ChangeLayout` | client/src/app/tabs/dmn/OverviewContainer.js:41-47 | the callback gets the new layout exactly once when it is a function, and nothing otherwise |
| `OverviewContainer.OverviewContainerWrapped.HandleResizeStart` | client/src/app/tabs/dmn/OverviewContainer.js:49-55 | the drag baseline becomes the rendered width |
| `OverviewContainer.OverviewContainerWrapped.HandleResize` | client/src/app/tabs/dmn/OverviewContainer.js:57-76 | dx = 0 reports nothing; otherwise reports `Resize(baseline, dx)` through `changeLayout` |
| `OverviewContainer.OverviewContainerWrapped.HandleToggle` | client/src/app/tabs/dmn/OverviewContainer.js:78-89 | reports `Toggle(layout)` through `changeLayout` |
| `OverviewContainer.OverviewContainerWrapped.Render` | client/src/app/tabs/dmn/OverviewContainer.js:91-108 | returns `View(layout)` and sets `currentWidth` to its width |
| `OverviewContainer.OverviewContainerWrapped.ReceiveLayout` | client/src/app/tabs/dmn/OverviewContainer.js:91-108 | a new layout prop is stored and rendered |
| `OpenDrgElementFeature.Lookup` | client/src/app/tabs/dmn/modeler/features/overview/open-drg-element/OpenDrgElement.js:81 | a found element is in the registry with that id; nothing is found iff no element has the id |
| `OpenDrgElementFeature.CanOpenDrgElement` | client/src/app/tabs/dmn/modeler/features/overview/open-drg-element/OpenDrgElement.js:113-119 | holds iff the element is a `dmn:Decision` or `dmn:LiteralExpression` and has decision logic |
| `OpenDrgElementFeature.AddMarker` | client/src/app/tabs/dmn/modeler/features/overview/open-drg-element/OpenDrgElement.js:28 | the marker is added to that element and nothing else changes |
| `OpenDrgElementFeature.RemoveMarker` | client/src/app/tabs/dmn/modeler/features/overview/open-drg-element/OpenDrgElement.js:75 | the marker is removed from that element and nothing else changes |
| `OpenDrgElementFeature.MarkOpenableSpec` | client/src/app/tabs/dmn/modeler/features/overview/open-drg-element/OpenDrgElement.js:26-30 | the `forEach` loop adds `can-open` to exactly the elements that can be opened |
| `OpenDrgElementFeature.ImportMarkersSpec` | client/src/app/tabs/dmn/modeler/features/overview/open-drg-element/OpenDrgElement.js:25-39 | after import: `can-open` on every openable element, `open` on the recorded element if its id is set and resolves, no other marker |
| `OpenDrgElementFeature.OpenedMarkersSpec` | client/src/app/tabs/dmn/modeler/features/overview/open-drg-element/OpenDrgElement.js:67-85 | if only the previous element was highlighted, afterwards exactly `id` is highlighted (if it resolves) and other markers are untouched |
| `OpenDrgElementFeature.CenterViewbox` | client/src/app/tabs/dmn/modeler/features/overview/open-drg-element/OpenDrgElement.js:121-136 | sets a viewbox centred on the box centre with the viewport's outer width and height, then zooms back to the prior scale |
| `OpenDrgElementFeature.RecentresSpec` | client/src/app/tabs/dmn/modeler/features/overview/open-drg-element/OpenDrgElement.js:89-95 | pending recentres do nothing when the overview is closed; when it is open each one centres on its element, in order |
| `OpenDrgElementFeature.LayoutRecentre` | client/src/app/tabs/dmn/modeler/features/overview/open-drg-element/OpenDrgElement.js:46-64 | a recentre needs the panel open and the id set and resolving; with an overview entry it needs the flag to go from closed to open; with no entry any resolvable open element is recentred |
| `OpenDrgElementFeature.OpenDrgElement.constructor` | client/src/app/tabs/dmn/modeler/features/overview/open-drg-element/OpenDrgElement.js:20-44 | the open flag starts as the layout's own, or false; no open id, no markers |
| `OpenDrgElementFeature.OpenDrgElement.ImportDone` | client/src/app/tabs/dmn/modeler/features/overview/open-drg-element/OpenDrgElement.js:25-39 | the markers become `ImportMarkers` of the new registry, keeping the highlight invariant |
| `OpenDrgElementFeature.OpenDrgElement.LayoutChanged` | client/src/app/tabs/dmn/modeler/features/overview/open-drg-element/OpenDrgElement.js:46-64 | the open flag follows the layout's entry or is kept; a centring on `LayoutRecentre`'s element is made, if there is one |
| `OpenDrgElementFeature.OpenDrgElement.DrgElementOpened` | client/src/app/tabs/dmn/modeler/features/overview/open-drg-element/OpenDrgElement.js:67-97 | records `id` even if it does not resolve; exactly `id` holds `open` iff it resolves; a recentre is armed iff requested and `id` resolves |
| `OpenDrgElementFeature.OpenDrgElement.AttachOverview` | client/src/app/tabs/dmn/modeler/features/overview/open-drg-element/OpenDrgElement.js:89-95 | every armed recentre runs once, and centres only if the overview is open then |
| `OpenDrgElementFeature.OpenDrgElement.ElementClick` | client/src/app/tabs/dmn/modeler/features/overview/open-drg-element/OpenDrgElement.js:100-110 | fires `openDrgElement` with the element's id iff it can be opened |
| `DmnModeler.TrackedAtMostOne` | client/src/app/tabs/dmn/modeler/DmnModeler.js:187-213 | while the slot tracks the live listeners, at most one is live |
| `DmnModeler.Subscribe` | client/src/app/tabs/dmn/modeler/DmnModeler.js:199-209 | from a tracked state, the new listener is the only live one and fills the slot |
| `DmnModeler.ResubscribedSpec` | client/src/app/tabs/dmn/modeler/DmnModeler.js:199-221 | re-subscribes keep the slot tracking; the last one armed becomes the only live listener |
| `DmnModeler.CountOn` | client/src/app/tabs/dmn/modeler/DmnModeler.js:226 | the number of deferred updates waiting on that bus, as a multiplicity; zero iff none waits there |
| `DmnModeler.DropOn` | client/src/app/tabs/dmn/modeler/DmnModeler.js:226 | removes every deferred update of that bus and keeps each other one with its multiplicity |
| `DmnModeler.FindView` | client/src/app/tabs/dmn/modeler/DmnModeler.js:258-260 | the first view whose element has the id; none iff no view has it |
| `DmnModeler.GetStackIdx` | client/src/app/tabs/dmn/modeler/DmnModeler.js:129-143 | null iff there is no active viewer or command stack, else its `_stackIdx` |
| `DmnModeler.MergeModules` | client/src/app/tabs/dmn/modeler/DmnModeler.js:305-317 | keeps every other key; the module list is complete-direct-editing, the editor's own modules, then the additional ones |
| `DmnModeler.ModdleExtensions` | client/src/app/tabs/dmn/modeler/DmnModeler.js:90-93 | the Camunda descriptor plus the caller's extensions; the caller's entries win |
| `DmnModeler.EngineOptionsFor` | client/src/app/tabs/dmn/modeler/DmnModeler.js:59-94 | other options pass through; `exporter` is dropped; each editor's modules are merged with the tab's list; extensions merged |
| `DmnModeler.EngineModulesPlaced` | client/src/app/tabs/dmn/modeler/DmnModeler.js:70-89 | the DRD editor gets the origin module the flag selects; decision table and literal expression end with the no-op `viewDrd` |
| `DmnModeler.CamundaDmnModeler.constructor` | client/src/app/tabs/dmn/modeler/DmnModeler.js:145-153 | no subscription, no listener, nothing pending, overview neither imported nor attached |
| `DmnModeler.CamundaDmnModeler.ImportParseStart` | client/src/app/tabs/dmn/modeler/DmnModeler.js:175-178 | the overview imports the source being parsed |
| `DmnModeler.CamundaDmnModeler.OverviewImportDone` | client/src/app/tabs/dmn/modeler/DmnModeler.js:253-266 | after the first overview import `openDrgElement` is listened to |
| `DmnModeler.CamundaDmnModeler.DetachOverview` | client/src/app/tabs/dmn/modeler/DmnModeler.js:281-291 | ends detached; fires `detachOverview` only if it was attached, so twice is once |
| `DmnModeler.CamundaDmnModeler.AttachOverviewTo` | client/src/app/tabs/dmn/modeler/DmnModeler.js:269-279 | detaches first, ends attached to the given node, fires `attachOverview` exactly once |
| `DmnModeler.CamundaDmnModeler.IsOverviewAttached` | client/src/app/tabs/dmn/modeler/DmnModeler.js:293-299 | holds iff the container has a parent |
| `DmnModeler.CamundaDmnModeler.ViewsChanged` | client/src/app/tabs/dmn/modeler/DmnModeler.js:180-251 | the DRD leaves the overview detached; every change replaces the listener by one on the new viewer; non-DRD views relay `drgElementOpened` with `centerViewbox` iff the previous view was the DRD |
| `DmnModeler.CamundaDmnModeler.CommandStackChanged` | client/src/app/tabs/dmn/modeler/DmnModeler.js:215-229 | the live listener of that bus unregisters, arms its re-subscribe, and updates now if attached or defers on that bus |
| `DmnModeler.CamundaDmnModeler.SaveXmlDone` | client/src/app/tabs/dmn/modeler/DmnModeler.js:199-221 | all armed re-subscribes run once in order; the last armed is the only live listener; when every armed one belongs to the current closures, the listener stays on the viewer last shown |
| `DmnModeler.CamundaDmnModeler.ViewerAttachOverview` | client/src/app/tabs/dmn/modeler/DmnModeler.js:226 | the updates deferred on that editing viewer's bus run, once each |
| `DmnModeler.CamundaDmnModeler.ViewsChangedCorrected` | client/src/app/tabs/dmn/modeler/DmnModeler.js:189-233 | as `ViewsChanged`, and the old closures' armed re-subscribe is removed, so every armed re-subscribe belongs to the view now shown |
| `DmnModeler.CamundaDmnModeler.AttachOverviewToCorrected` | client/src/app/tabs/dmn/modeler/DmnModeler.js:223-227 | as `AttachOverviewTo`, and every deferred update runs once on the `attachOverview` it fires; none stays waiting |
| `DmnModeler.StaleResubscribe` | client/src/app/tabs/dmn/modeler/DmnModeler.js:189-233 | as written: a DRD edit while detached, a switch to a decision table, an attach and a save end with the only listener `Handler(0, Drd)` on the DRD viewer, the decision table shown, and no reload |
| `DmnModeler.CurrentResubscribe` | client/src/app/tabs/dmn/modeler/DmnModeler.js:189-233 | corrected: the same steps end with the only listener `Handler(1, DecisionTable)`, the decision table shown, and one reload on attach |
| `DmnModeler.ReattachSkipsUpdate` | client/src/app/tabs/dmn/modeler/DmnModeler.js:223-227 | as written: detach, one edit, re-attach reload nothing, and the update stays deferred on the editing viewer's bus |
| `DmnModeler.ReattachRunsUpdate` | client/src/app/tabs/dmn/modeler/DmnModeler.js:223-227 | corrected: detach, one edit, re-attach reload the overview exactly once and leave nothing deferred |
| `DmnModeler.CamundaDmnModeler.OpenDrgElement` | client/src/app/tabs/dmn/modeler/DmnModeler.js:257-265 | opens the first view showing the id, only if it exists and is not the DRD; before the first overview import, nothing |

## Left out

- React rendering, JSX, `classNames`, the CSS imports, `dragger` (DOM drag events) and
  `throttle` (timing): the model sees a drag only as its horizontal delta.
- OverviewContainer.OverviewContainerWrapped.HandleResize: requires a drag baseline.
  The dragger only delivers moves after `handleResizeStart` has set it; with no
  baseline JavaScript would compute `NaN`.
- Widths and deltas are integers. Fractional pixel deltas are not modelled.
- The diagram engine: XML import and export, the element registry's internals,
  `getBBox` and `isAny`. `isAny` is type equality, since DMN has no subtypes of the two
  types. The canvas's reaction to the viewbox and zoom calls is also not modelled.
  `outer` and `scale` are held fixed; centring only reads those two, and
  leaves both as they were.
- `handleImport` and `updateOverview` error logging (`console.log`). The zoom to
  `OVERVIEW_ZOOM_SCALE` after a successful overview import is a canvas call and is not
  modelled either.
- `updateOverview` is one entry in `overviewImports`. Its save-then-import runs inside
  the engine. `saveXML.done` is a separate event, `SaveXmlDone`.
- Asynchronous ordering: each handler runs atomically. Events between a save starting
  and `saveXML.done` are free to interleave.
- The `viewer.created` relays (`view.contentChanged`, `view.selectionChanged`,
  `view.directEditingChanged`, `error`) and `addExporter`: these forward events or
  configure the engine and hold no state.
- `this.open(view)`: `OpenDrgElement` returns the view to open. The switch itself
  happens in the engine and comes back as `views.changed`.
- DmnModeler.CamundaDmnModeler.DetachOverview, AttachOverviewTo, IsOverviewAttached,
  and ViewsChanged for a DRD view: each requires the overview's first import to be
  done. The code dereferences the overview's active viewer without a check, so it
  would throw before that import.
- DmnModeler.CamundaDmnModeler.CommandStackChanged: requires the overview's first
  import only when a live listener sits on that bus. A firing listener asks
  `isOverviewAttached`, which would throw before that import; with no live listener
  the event does nothing.
- `getStackIdx` returning −1 right after an import: −1 is the engine's fresh
  command-stack state, which this model does not produce; `GetStackIdx` only reads the
  stack index it is given.
- OpenDrgElementFeature.OpenDrgElement.ImportDone: starts from no markers. The
  handler itself clears nothing; the engine's re-import removes the old diagram's
  graphics and their markers, and the highlight invariant after an import relies on
  that.
- DOM nodes are numbers; `canvas.resized()` is not modelled.
- The test-runner configuration and the test mocks hold no product logic.

## Findings

| source | as written | input that shows it | evidently intended | confidence | as-written member | corrected member |
|---|---|---|---|---|---|---|
| client/src/app/tabs/dmn/modeler/DmnModeler.js:226 | the deferred `updateOverview` waits for `attachOverview` on the editing viewer's bus, while `attachOverviewTo` fires `attachOverview` only on the overview's bus (line 278, where `OpenDrgElement.js:90` also listens) | an edit while the overview is detached, then `attachOverviewTo`: the overview is not reloaded | attaching the overview runs the deferred update once | not executed | `DmnModeler.ReattachSkipsUpdate` | `DmnModeler.ReattachRunsUpdate`, via `DmnModeler.CamundaDmnModeler.AttachOverviewToCorrected` |
| client/src/app/tabs/dmn/modeler/DmnModeler.js:221 | the one-shot `saveXML.done` re-subscribe of an earlier `views.changed` survives the next `views.changed` and re-registers on its own, older viewer | an edit in the DRD while detached, a switch to a decision table, then a save: the listener is back on the DRD viewer | "(3) start listening again when save XML done" (line 220): after a save the modeler listens to the viewer on screen | not executed | `DmnModeler.StaleResubscribe` | `DmnModeler.CurrentResubscribe`, via `DmnModeler.CamundaDmnModeler.ViewsChangedCorrected` and `SaveXmlDone` |
