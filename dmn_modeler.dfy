/**
 * The DMN modeler's own coordination of the DRD overview (DmnModeler.js): which
 * command stack it listens to, when it refreshes the overview, where the overview
 * is attached, and which signals it relays between the editor and the overview.
 *
 * The editor engine's viewers exist one per view type, so a view type also names
 * the event bus of its viewer. Every `views.changed` builds a fresh set of closures
 * (`onCommandStackChanged`, `handleCommandStackChanged`, `offCommandStackChanged`);
 * a Handler names the `handleCommandStackChanged` of one such set by the number of
 * the `views.changed` that built it and the bus it registers on.
 */
module DmnModeler {
  import opened Wrappers

  datatype ViewType = Drd | DecisionTable | LiteralExpression

  /** A view of the editor: its type (`kind`) and the id of the model element it shows. */
  datatype View = View(kind: ViewType, elementId: string)

  datatype Handler = Handler(scope: nat, bus: ViewType)

  /** Events the modeler fires on the overview viewer's event bus. */
  datatype OverviewEvent =
    | DrgElementOpened(id: string, centerViewbox: bool)
    | AttachOverviewEvent
    | DetachOverviewEvent

  /** Imports the modeler starts on the overview. */
  datatype OverviewImport =
    | ImportParsedSource   // `import.parse.start`: the source being imported into the editor
    | UpdateOverview       // `updateOverview`: the editor saved and its result re-imported

  /** The handlers a subscription slot and the live `commandStack.changed` listeners stand for. */
  datatype Subscriptions = Subscriptions(subscription: Option<Handler>, live: set<Handler>)

  function Slot(subscription: Option<Handler>): set<Handler>
  {
    if subscription.Some? then {subscription.value} else {}
  }

  /** Every live listener is the one the subscription slot cancels. */
  predicate Tracked(s: Subscriptions)
  {
    s.live <= Slot(s.subscription)
  }

  /** While the slot tracks every live listener, at most one is live. */
  lemma TrackedAtMostOne(s: Subscriptions)
    requires Tracked(s)
    ensures |s.live| <= 1
  {
    if s.subscription.Some? {
      if s.live != {} {
        assert s.live == {s.subscription.value};
      }
    }
  }

  /** `onCommandStackChanged` of the closures of `h`: cancel the slot, register `h`, fill the slot. */
  function Subscribe(s: Subscriptions, h: Handler): (r: Subscriptions)
    ensures Tracked(s) ==> r == Subscriptions(Some(h), {h})
  {
    Subscriptions(Some(h), (s.live - Slot(s.subscription)) + {h})
  }

  /** The one-shot `saveXML.done` re-subscribes run in the order they were armed. */
  function Resubscribed(s: Subscriptions, pending: seq<Handler>): Subscriptions
  {
    if pending == [] then s
    else Subscribe(Resubscribed(s, pending[..|pending| - 1]), pending[|pending| - 1])
  }

  /**
   * The re-subscribes keep the slot tracking the live listener, and the last one
   * armed wins, whichever viewer it belongs to.
   */
  lemma {:induction false} ResubscribedSpec(s: Subscriptions, pending: seq<Handler>)
    requires Tracked(s)
    ensures Tracked(Resubscribed(s, pending))
    ensures pending == [] ==> Resubscribed(s, pending) == s
    ensures pending != [] ==>
      Resubscribed(s, pending) == Subscriptions(Some(pending[|pending| - 1]), {pending[|pending| - 1]})
  {
    if pending != [] {
      ResubscribedSpec(s, pending[..|pending| - 1]);
    }
  }

  /** How many deferred updates wait on the given viewer's bus. */
  function CountOn(pending: seq<ViewType>, bus: ViewType): (n: nat)
    ensures n <= |pending|
    ensures n == 0 <==> bus !in pending
    ensures n == multiset(pending)[bus]
  {
    if pending == [] then 0
    else
      assert pending == [pending[0]] + pending[1..];
      (if pending[0] == bus then 1 else 0) + CountOn(pending[1..], bus)
  }

  /** The deferred updates left once those on the given bus have run. */
  function DropOn(pending: seq<ViewType>, bus: ViewType): (r: seq<ViewType>)
    ensures |r| + CountOn(pending, bus) == |pending|
    ensures bus !in r
    ensures forall t :: t in r <==> t in pending && t != bus
    ensures multiset(r) == multiset(pending)[bus := 0]
  {
    if pending == [] then []
    else
      assert pending == [pending[0]] + pending[1..];
      (if pending[0] == bus then [] else [pending[0]]) + DropOn(pending[1..], bus)
  }

  /** `n` runs of `updateOverview`. */
  function Updates(n: nat): (r: seq<OverviewImport>)
    ensures |r| == n && forall i :: 0 <= i < n ==> r[i] == UpdateOverview
  {
    if n == 0 then [] else [UpdateOverview] + Updates(n - 1)
  }

  /** The first view showing the element `id`, as `Array.prototype.find` returns it. */
  function FindView(views: seq<View>, id: string): (r: Option<View>)
    ensures r.Some? ==> r.value in views && r.value.elementId == id
    ensures r.Some? ==>
      exists i :: 0 <= i < |views| && views[i] == r.value && forall j :: 0 <= j < i ==> views[j].elementId != id
    ensures r.None? <==> forall v :: v in views ==> v.elementId != id
  {
    if views == [] then None
    else if views[0].elementId == id then Some(views[0])
    else
      var r := FindView(views[1..], id);
      assert r.Some? ==> views[1..][0] == views[1];
      r
  }

  // ---- getStackIdx -------------------------------------------------------

  datatype CommandStack = CommandStack(stackIdx: int)
  datatype Viewer = Viewer(commandStack: Option<CommandStack>)

  /** `getStackIdx`: the active viewer's stack index, or null without a viewer or a command stack. */
  function GetStackIdx(activeViewer: Option<Viewer>): (r: Option<int>)
    ensures r.None? <==> activeViewer.None? || activeViewer.value.commandStack.None?
    ensures r.Some? ==> r.value == activeViewer.value.commandStack.value.stackIdx
  {
    match activeViewer
    case None => None
    case Some(viewer) =>
      match viewer.commandStack
      case None => None
      case Some(commandStack) => Some(commandStack.stackIdx)
  }

  // ---- editor options ----------------------------------------------------

  /** The editor modules the modeler names; `Custom` stands for one a caller passes in. */
  datatype Module =
    | CompleteDirectEditing
    | DiagramOrigin
    | AlignToOrigin
    | PropertiesPanel
    | PropertiesProvider
    | DrdAdapter
    | PropertiesPanelKeyboardBindings
    | DecisionTableKeyboard
    | ViewDrdNoop          // the module `{ viewDrd: NOOP_MODULE }`
    | Custom(name: string)

  /** One editor's configuration: its `additionalModules`, if given, and every other key. */
  datatype EditorConfig = EditorConfig(additionalModules: Option<seq<Module>>, other: map<string, string>)

  function EditorModules(editorConfig: Option<EditorConfig>): seq<Module>
  {
    if editorConfig.Some? && editorConfig.value.additionalModules.Some?
    then editorConfig.value.additionalModules.value else []
  }

  /**
   * `mergeModules`: the editor's configuration with every other key kept and the
   * module list complete-direct-editing, then the editor's own, then `additionalModules`.
   */
  function MergeModules(editorConfig: Option<EditorConfig>, additionalModules: seq<Module>): (r: EditorConfig)
    ensures r.other == (if editorConfig.Some? then editorConfig.value.other else map[])
    ensures r.additionalModules.Some?
    ensures var ms := r.additionalModules.value; var own := EditorModules(editorConfig);
      && |ms| == 1 + |own| + |additionalModules|
      && ms[0] == CompleteDirectEditing
      && ms[1..1 + |own|] == own
      && ms[1 + |own|..] == additionalModules
  {
    var base := editorConfig.GetOr(EditorConfig(None, map[]));
    var ms := [CompleteDirectEditing] + EditorModules(editorConfig) + additionalModules;
    assert ms[1..1 + |EditorModules(editorConfig)|] == EditorModules(editorConfig);
    base.(additionalModules := Some(ms))
  }

  /** The name the Camunda moddle descriptor is registered under, and the descriptor. */
  const CAMUNDA := "camunda"
  const CAMUNDA_MODDLE_DESCRIPTOR := "camunda-dmn-moddle/resources/camunda"

  /** The `moddleExtensions` passed to the engine: the Camunda descriptor, overridden by the caller's. */
  function ModdleExtensions(extensions: Option<map<string, string>>): (r: map<string, string>)
    ensures r.Keys == {CAMUNDA} + (if extensions.Some? then extensions.value.Keys else {})
    ensures extensions.Some? ==> forall k :: k in extensions.value ==> r[k] == extensions.value[k]
    ensures (extensions.None? || CAMUNDA !in extensions.value) ==> r[CAMUNDA] == CAMUNDA_MODDLE_DESCRIPTOR
  {
    map[CAMUNDA := CAMUNDA_MODDLE_DESCRIPTOR] + extensions.GetOr(map[])
  }

  /** The options a caller hands to the constructor; `other` holds the keys it passes through. */
  datatype Options = Options(
    moddleExtensions: Option<map<string, string>>,
    drd: Option<EditorConfig>,
    decisionTable: Option<EditorConfig>,
    literalExpression: Option<EditorConfig>,
    exporter: Option<string>,
    other: map<string, string>)

  /** The options the constructor hands to the engine. */
  datatype EngineOptions = EngineOptions(
    drd: EditorConfig,
    decisionTable: EditorConfig,
    literalExpression: EditorConfig,
    moddleExtensions: map<string, string>,
    other: map<string, string>)

  function DrdModules(disableAdjustOrigin: bool): seq<Module>
  {
    [if disableAdjustOrigin then DiagramOrigin else AlignToOrigin,
     PropertiesPanel, PropertiesProvider, DrdAdapter, PropertiesPanelKeyboardBindings]
  }

  const DECISION_TABLE_MODULES := [DecisionTableKeyboard, ViewDrdNoop]
  const LITERAL_EXPRESSION_MODULES := [ViewDrdNoop]

  /** The constructor's option rewriting, `disableAdjustOrigin` being the DISABLE_ADJUST_ORIGIN flag. */
  function EngineOptionsFor(options: Options, disableAdjustOrigin: bool): (r: EngineOptions)
    ensures r.other == options.other
    ensures r.moddleExtensions == ModdleExtensions(options.moddleExtensions)
    ensures r.drd == MergeModules(options.drd, DrdModules(disableAdjustOrigin))
    ensures r.decisionTable == MergeModules(options.decisionTable, DECISION_TABLE_MODULES)
    ensures r.literalExpression == MergeModules(options.literalExpression, LITERAL_EXPRESSION_MODULES)
  {
    EngineOptions(
      MergeModules(options.drd, DrdModules(disableAdjustOrigin)),
      MergeModules(options.decisionTable, DECISION_TABLE_MODULES),
      MergeModules(options.literalExpression, LITERAL_EXPRESSION_MODULES),
      ModdleExtensions(options.moddleExtensions),
      options.other)
  }

  /**
   * In the engine's options the DRD editor gets exactly the origin module the flag
   * selects, right after the caller's modules, and the decision-table and
   * literal-expression editors end with the module that disables their DRD button.
   */
  lemma EngineModulesPlaced(options: Options, disableAdjustOrigin: bool)
    ensures var r := EngineOptionsFor(options, disableAdjustOrigin);
      var drd := r.drd.additionalModules.value;
      var dt := r.decisionTable.additionalModules.value;
      var le := r.literalExpression.additionalModules.value;
      && drd[1 + |EditorModules(options.drd)|] == (if disableAdjustOrigin then DiagramOrigin else AlignToOrigin)
      && dt[|dt| - 1] == ViewDrdNoop && le[|le| - 1] == ViewDrdNoop
      && drd[0] == dt[0] == le[0] == CompleteDirectEditing
  {
  }

  // ---- the overview coordination -----------------------------------------

  /**
   * The modeler's overview state. `parent` is the DOM node the overview's container
   * hangs under, if any; `pendingResubscribes` are the one-shot `saveXML.done`
   * listeners (by the closures they belong to), `pendingUpdates` the one-shot
   * `attachOverview` listeners that run `updateOverview` (by the viewer bus they
   * wait on). `overviewEvents` and `overviewImports` list what the modeler has
   * fired on, and started on, the overview.
   */
  class CamundaDmnModeler {
    var overviewImported: bool
    var parent: Option<nat>
    var scopes: nat
    var subscription: Option<Handler>
    var live: set<Handler>
    var pendingResubscribes: seq<Handler>
    var pendingUpdates: seq<ViewType>
    var previousActiveViewType: Option<ViewType>
    var overviewEvents: seq<OverviewEvent>
    var overviewImports: seq<OverviewImport>

    ghost predicate Valid()
      reads this
    {
      Tracked(Subscriptions(subscription, live))
    }

    /**
     * Every armed `saveXML.done` re-subscribe belongs to the closures now in the slot,
     * and those closures were built for the view last shown: the state that
     * "(3) start listening again when save XML done" asks for.
     */
    ghost predicate ResubscribesCurrent()
      reads this
    {
      && (subscription.Some? ==> previousActiveViewType == Some(subscription.value.bus))
      && (forall h :: h in pendingResubscribes ==> subscription == Some(h))
    }

    /** `_addOverview` as the constructor runs it: nothing subscribed, the overview not yet imported nor attached. */
    constructor ()
      ensures Valid() && ResubscribesCurrent()
      ensures !overviewImported && parent == None && scopes == 0
      ensures subscription == None && live == {} && pendingResubscribes == [] && pendingUpdates == []
      ensures previousActiveViewType == None && overviewEvents == [] && overviewImports == []
    {
      overviewImported := false;
      parent := None;
      scopes := 0;
      subscription := None;
      live := {};
      pendingResubscribes := [];
      pendingUpdates := [];
      previousActiveViewType := None;
      overviewEvents := [];
      overviewImports := [];
    }

    /** `import.parse.start`: the overview imports the source the editor is parsing. */
    method ImportParseStart()
      requires Valid()
      modifies this`overviewImports
      ensures Valid()
      ensures overviewImports == old(overviewImports) + [ImportParsedSource]
    {
      overviewImports := overviewImports + [ImportParsedSource];
    }

    /**
     * The overview's first `import.done`: from now on the overview has an active
     * viewer, and the `openDrgElement` listener is registered (once only).
     */
    method OverviewImportDone()
      requires Valid()
      modifies this`overviewImported
      ensures Valid()
      ensures overviewImported
    {
      overviewImported := true;
    }

    /** `detachOverview`: removes the container from its parent and says so, if it had one. */
    method DetachOverview()
      requires Valid()
      requires overviewImported
      modifies this`parent, this`overviewEvents
      ensures Valid()
      ensures parent == None
      ensures overviewEvents == old(overviewEvents) + (if old(parent).Some? then [DetachOverviewEvent] else [])
    {
      if parent.Some? {
        parent := None;
        overviewEvents := overviewEvents + [DetachOverviewEvent];
      }
    }

    /** `attachOverviewTo`: detach, hang the container under `parentNode`, fire `attachOverview` once. */
    method AttachOverviewTo(parentNode: nat)
      requires Valid()
      requires overviewImported
      modifies this`parent, this`overviewEvents
      ensures Valid()
      ensures parent == Some(parentNode)
      ensures overviewEvents == old(overviewEvents) + (if old(parent).Some? then [DetachOverviewEvent] else []) + [AttachOverviewEvent]
    {
      DetachOverview();
      parent := Some(parentNode);
      overviewEvents := overviewEvents + [AttachOverviewEvent];
    }

    /** `isOverviewAttached`: the container has a parent. */
    method IsOverviewAttached() returns (attached: bool)
      requires Valid()
      requires overviewImported
      ensures attached <==> parent.Some?
    {
      attached := parent.Some?;
    }

    /**
     * `views.changed`, its three handlers in priority order: detach on the DRD;
     * cancel the old subscription and subscribe to the new viewer's command stack;
     * relay the open element to the overview unless the view is the DRD.
     */
    method ViewsChanged(activeView: View)
      requires Valid()
      requires activeView.kind == Drd ==> overviewImported
      modifies this
      ensures Valid()
      ensures scopes == old(scopes) + 1
      ensures subscription == Some(Handler(old(scopes), activeView.kind))
      ensures live == {Handler(old(scopes), activeView.kind)}
      ensures parent == if activeView.kind == Drd then None else old(parent)
      ensures overviewEvents == old(overviewEvents)
        + (if activeView.kind == Drd && old(parent).Some? then [DetachOverviewEvent] else [])
        + (if activeView.kind != Drd && overviewImported
           then [DrgElementOpened(activeView.elementId, old(previousActiveViewType) == Some(Drd))] else [])
      ensures previousActiveViewType == Some(activeView.kind)
      ensures overviewImported == old(overviewImported) && overviewImports == old(overviewImports)
      ensures pendingResubscribes == old(pendingResubscribes) && pendingUpdates == old(pendingUpdates)
    {
      // (2) the DRD is on screen: the overview is not needed
      if activeView.kind == Drd {
        DetachOverview();
      }

      // (3) listen to the new viewer's command stack
      if subscription.Some? {
        live := live - {subscription.value};
      }
      var handler := Handler(scopes, activeView.kind);
      scopes := scopes + 1;
      if subscription.Some? {
        live := live - {subscription.value};
      }
      live := live + {handler};
      subscription := Some(handler);

      // (4) highlight the open element in the overview
      if activeView.kind != Drd && overviewImported {
        overviewEvents := overviewEvents + [DrgElementOpened(activeView.elementId, previousActiveViewType == Some(Drd))];
      }
      previousActiveViewType := Some(activeView.kind);
    }

    /**
     * `commandStack.changed` on the bus of viewer `bus`: a live listener there stops
     * listening, arms its re-subscribe for the next `saveXML.done`, and updates the
     * overview now if it is attached, or else waits for `attachOverview` on that
     * same viewer's bus.
     */
    method CommandStackChanged(bus: ViewType)
      requires Valid()
      requires overviewImported || !(subscription.Some? && subscription.value in live && subscription.value.bus == bus)
      modifies this`live, this`pendingResubscribes, this`pendingUpdates, this`overviewImports
      ensures Valid()
      ensures old(ResubscribesCurrent()) ==> ResubscribesCurrent()
      ensures var fires := old(subscription).Some? && old(subscription).value in old(live) && old(subscription).value.bus == bus;
        && (fires ==> live == {} && pendingResubscribes == old(pendingResubscribes) + [old(subscription).value])
        && (fires && old(parent).Some? ==> overviewImports == old(overviewImports) + [UpdateOverview] && pendingUpdates == old(pendingUpdates))
        && (fires && old(parent).None? ==> overviewImports == old(overviewImports) && pendingUpdates == old(pendingUpdates) + [bus])
        && (!fires ==> live == old(live) && pendingResubscribes == old(pendingResubscribes)
                       && pendingUpdates == old(pendingUpdates) && overviewImports == old(overviewImports))
    {
      if subscription.Some? && subscription.value in live && subscription.value.bus == bus {
        var handler := subscription.value;
        live := live - {handler};
        pendingResubscribes := pendingResubscribes + [handler];
        var attached := IsOverviewAttached();
        if attached {
          overviewImports := overviewImports + [UpdateOverview];
        } else {
          pendingUpdates := pendingUpdates + [bus];
        }
      }
    }

    /** `saveXML.done`: every armed re-subscribe runs once, in the order armed. */
    method SaveXmlDone()
      requires Valid()
      modifies this`subscription, this`live, this`pendingResubscribes
      ensures Valid()
      ensures pendingResubscribes == []
      ensures Subscriptions(subscription, live) == Resubscribed(old(Subscriptions(subscription, live)), old(pendingResubscribes))
      ensures old(pendingResubscribes) != [] ==>
        var last := old(pendingResubscribes)[|old(pendingResubscribes)| - 1];
        subscription == Some(last) && live == {last}
      ensures old(pendingResubscribes) == [] ==> subscription == old(subscription) && live == old(live)
      ensures old(ResubscribesCurrent()) ==> ResubscribesCurrent()
      ensures old(ResubscribesCurrent()) && old(pendingResubscribes) != [] ==>
        subscription == old(subscription) && live == {subscription.value}
        && previousActiveViewType == Some(subscription.value.bus)
    {
      var listeners := pendingResubscribes;
      pendingResubscribes := [];
      ghost var start := Subscriptions(subscription, live);
      var i := 0;
      while i < |listeners|
        invariant 0 <= i <= |listeners|
        invariant pendingResubscribes == []
        invariant Subscriptions(subscription, live) == Resubscribed(start, listeners[..i])
      {
        var handler := listeners[i];
        if subscription.Some? {
          live := live - {subscription.value};
        }
        live := live + {handler};
        subscription := Some(handler);
        assert listeners[..i + 1][..i] == listeners[..i];
        i := i + 1;
      }
      assert listeners[..i] == listeners;
      ResubscribedSpec(start, listeners);
    }

    /** `attachOverview` fired on the bus of editor viewer `bus`: the updates waiting there run. */
    method ViewerAttachOverview(bus: ViewType)
      requires Valid()
      modifies this`pendingUpdates, this`overviewImports
      ensures Valid()
      ensures pendingUpdates == DropOn(old(pendingUpdates), bus)
      ensures overviewImports == old(overviewImports) + Updates(CountOn(old(pendingUpdates), bus))
    {
      overviewImports := overviewImports + Updates(CountOn(pendingUpdates, bus));
      pendingUpdates := DropOn(pendingUpdates, bus);
    }

    /**
     * `views.changed` as its comment (3) intends: cancelling the old subscription
     * also removes the `saveXML.done` re-subscribe it armed, so only the closures of
     * the view now shown can subscribe again.
     */
    method ViewsChangedCorrected(activeView: View)
      requires Valid()
      requires activeView.kind == Drd ==> overviewImported
      modifies this
      ensures Valid() && ResubscribesCurrent()
      ensures scopes == old(scopes) + 1
      ensures subscription == Some(Handler(old(scopes), activeView.kind))
      ensures live == {Handler(old(scopes), activeView.kind)}
      ensures parent == if activeView.kind == Drd then None else old(parent)
      ensures overviewEvents == old(overviewEvents)
        + (if activeView.kind == Drd && old(parent).Some? then [DetachOverviewEvent] else [])
        + (if activeView.kind != Drd && overviewImported
           then [DrgElementOpened(activeView.elementId, old(previousActiveViewType) == Some(Drd))] else [])
      ensures previousActiveViewType == Some(activeView.kind)
      ensures overviewImported == old(overviewImported) && overviewImports == old(overviewImports)
      ensures pendingResubscribes == [] && pendingUpdates == old(pendingUpdates)
    {
      ViewsChanged(activeView);
      pendingResubscribes := [];
    }

    /**
     * `attachOverviewTo` with the deferred `updateOverview` listening on the bus that
     * `attachOverview` is fired on, the overview's: attaching runs every deferred
     * update once and leaves none waiting.
     */
    method AttachOverviewToCorrected(parentNode: nat)
      requires Valid()
      requires overviewImported
      modifies this`parent, this`overviewEvents, this`pendingUpdates, this`overviewImports
      ensures Valid()
      ensures parent == Some(parentNode)
      ensures overviewEvents == old(overviewEvents) + (if old(parent).Some? then [DetachOverviewEvent] else []) + [AttachOverviewEvent]
      ensures pendingUpdates == []
      ensures overviewImports == old(overviewImports) + Updates(|old(pendingUpdates)|)
    {
      AttachOverviewTo(parentNode);
      overviewImports := overviewImports + Updates(|pendingUpdates|);
      pendingUpdates := [];
    }

    /** `openDrgElement{id}` on the overview: the view the modeler opens, if any. */
    method OpenDrgElement(views: seq<View>, id: string) returns (target: Option<View>)
      ensures target.Some? ==>
        overviewImported && target == FindView(views, id) && target.value.elementId == id && target.value.kind != Drd
      ensures target.None? ==>
        !overviewImported || FindView(views, id).None? || FindView(views, id).value.kind == Drd
    {
      if !overviewImported {
        return None;
      }
      var view := FindView(views, id);
      if view.Some? && view.value.kind != Drd {
        target := view;
      } else {
        target := None;
      }
    }
  }

  /**
   * An edit in the DRD while the overview is detached, then a switch to a decision
   * table and the next save: the stale re-subscribe moves the one listener back to
   * the DRD viewer, away from the view on screen.
   */
  method StaleResubscribe() returns (listeners: set<Handler>, shown: Option<ViewType>, reloads: seq<OverviewImport>)
    ensures listeners == {Handler(0, Drd)} && shown == Some(DecisionTable) && reloads == []
  {
    var modeler := new CamundaDmnModeler();
    modeler.OverviewImportDone();
    modeler.ViewsChanged(View(Drd, "Definitions_1"));
    modeler.CommandStackChanged(Drd);
    assert modeler.pendingUpdates == [Drd];
    modeler.ViewsChanged(View(DecisionTable, "Decision_1"));
    assert modeler.live == {Handler(1, DecisionTable)};
    assert !modeler.ResubscribesCurrent();
    modeler.AttachOverviewTo(7);
    assert modeler.pendingUpdates == [Drd];
    modeler.SaveXmlDone();
    assert modeler.live == {Handler(0, Drd)};
    assert modeler.previousActiveViewType == Some(DecisionTable);
    assert modeler.overviewImports == [];
    listeners, shown, reloads := modeler.live, modeler.previousActiveViewType, modeler.overviewImports;
  }

  /**
   * The same steps with the corrected handlers: the save leaves the listener on the
   * decision table's viewer, and attaching reloads the overview once.
   */
  method CurrentResubscribe() returns (listeners: set<Handler>, shown: Option<ViewType>, reloads: seq<OverviewImport>)
    ensures listeners == {Handler(1, DecisionTable)} && shown == Some(DecisionTable) && reloads == [UpdateOverview]
  {
    var modeler := new CamundaDmnModeler();
    modeler.OverviewImportDone();
    modeler.ViewsChangedCorrected(View(Drd, "Definitions_1"));
    modeler.CommandStackChanged(Drd);
    modeler.ViewsChangedCorrected(View(DecisionTable, "Decision_1"));
    assert modeler.pendingResubscribes == [];
    modeler.AttachOverviewToCorrected(7);
    assert modeler.overviewImports == [UpdateOverview] && modeler.pendingUpdates == [];
    modeler.SaveXmlDone();
    assert modeler.live == {Handler(1, DecisionTable)};
    listeners, shown, reloads := modeler.live, modeler.previousActiveViewType, modeler.overviewImports;
  }

  /**
   * As written: detaching, one edit, and re-attaching never reload the overview;
   * the update stays deferred on the editing viewer's bus.
   */
  method ReattachSkipsUpdate(modeler: CamundaDmnModeler, node: nat)
    requires modeler.Valid() && modeler.overviewImported
    requires modeler.subscription.Some? && modeler.subscription.value in modeler.live
    modifies modeler
    ensures modeler.overviewImports == old(modeler.overviewImports)
    ensures modeler.pendingUpdates == old(modeler.pendingUpdates) + [old(modeler.subscription).value.bus]
    ensures modeler.parent == Some(node)
  {
    modeler.DetachOverview();
    modeler.CommandStackChanged(modeler.subscription.value.bus);
    modeler.AttachOverviewTo(node);
  }

  /** Corrected: detaching, one edit, and re-attaching reload the overview exactly once. */
  method ReattachRunsUpdate(modeler: CamundaDmnModeler, node: nat)
    requires modeler.Valid() && modeler.overviewImported && modeler.pendingUpdates == []
    requires modeler.subscription.Some? && modeler.subscription.value in modeler.live
    modifies modeler
    ensures modeler.overviewImports == old(modeler.overviewImports) + [UpdateOverview]
    ensures modeler.pendingUpdates == []
    ensures modeler.parent == Some(node)
  {
    modeler.DetachOverview();
    modeler.CommandStackChanged(modeler.subscription.value.bus);
    modeler.AttachOverviewToCorrected(node);
  }
}
