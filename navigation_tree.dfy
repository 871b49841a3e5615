/** The decisions the sidebar's connections navigation tree makes about its
    items: which action a click runs, which actions an item offers and how
    many of them are shown inline, and which item is highlighted for the
    active workspace tab. */
module NavigationTree {
  import opened Base

  /** A connection's status; `OtherStatus` stands for every status the
      click handler has no branch for (such as connecting). */
  datatype ConnectionStatus = Connected | Disconnected | Failed | OtherStatus

  /** The kind of a collection-like item; it selects the collection actions. */
  datatype CollectionKind = Collection | View | Timeseries

  /** An item the user can act on. */
  datatype ActionableItem =
    | ConnectionItem(status: ConnectionStatus)
    | DatabaseItem
    | CollectionItem(kind: CollectionKind)

  /** A row of the tree: an actionable item or a loading placeholder. */
  datatype TreeItem = Placeholder | Item(item: ActionableItem)

  /** An entry of an item's action menu: an action or a separator. */
  datatype ItemAction = Action(name: string) | Separator

  /** The action factory an item's menu comes from. */
  datatype ActionFactory =
    | NoFactory
    | ConnectedConnectionActions
    | NotConnectedConnectionActions
    | DatabaseActions
    | CollectionActions(kind: CollectionKind)

  /** An item's actions and, for connections, how many of them are shown
      inline before the rest collapse into a menu. */
  datatype ActionsAndConfig = ActionsAndConfig(
    factory: ActionFactory,
    actions: seq<ItemAction>,
    collapseAfter: Option<nat>)

  /** A workspace tab, reduced to what the highlight depends on. */
  datatype WorkspaceTab =
    | CollectionTab(connectionId: string, namespace: string)
    | CollectionsTab(connectionId: string, namespace: string)
    | DatabasesTab(connectionId: string)
    | OtherTab

  /** `onDefaultAction`: the action a click (with the meta or ctrl key
      down or not) runs on an item, if any. */
  function DefaultAction(item: ActionableItem, metaKey: bool, ctrlKey: bool): (r: Option<string>)
    ensures item.ConnectionItem? ==>
      (item.status == Connected ==> r == Some("select-connection")) &&
      (item.status in {Disconnected, Failed} ==> r == Some("connection-connect")) &&
      (item.status == OtherStatus ==> r.None?)
    ensures item.DatabaseItem? ==> r == Some("select-database")
    ensures item.CollectionItem? ==>
      r == Some(if metaKey || ctrlKey then "open-in-new-tab" else "select-collection")
    ensures r.None? <==> item == ConnectionItem(OtherStatus)
  {
    match item
    case ConnectionItem(status) =>
      if status == Connected then Some("select-connection")
      else if status == Disconnected || status == Failed then Some("connection-connect")
      else assert status == OtherStatus; None
    case DatabaseItem => Some("select-database")
    case CollectionItem(_) =>
      if metaKey || ctrlKey then Some("open-in-new-tab") else Some("select-collection")
  }

  /** An action can be shown inline when it is not a separator and it is
      "create-database" or "open-shell". */
  function CanBeShownInline(a: ItemAction): (inline: bool)
    ensures inline ==> a.Action?
    ensures inline <==> a == Action("create-database") || a == Action("open-shell")
  {
    if a.Separator? then false
    else a.name in ["create-database", "open-shell"]
  }

  /** How many actions of a list can be shown inline (a reference count). */
  function InlineCount(actions: seq<ItemAction>): (n: nat)
    ensures n <= |actions|
    decreases |actions|
  {
    if |actions| == 0 then 0
    else (if CanBeShownInline(actions[0]) then 1 else 0) + InlineCount(actions[1..])
  }

  /** `getCollapseAfterForConnectedItem`: 2 when both of the first two
      actions can be shown inline, 1 when one of them can, else 0. The
      source reads the first two actions, so there must be two. */
  function CollapseAfterForConnectedItem(actions: seq<ItemAction>): (r: nat)
    requires |actions| >= 2
    ensures r <= 2
    ensures r == 2 <==> CanBeShownInline(actions[0]) && CanBeShownInline(actions[1])
    ensures r == 0 <==> !CanBeShownInline(actions[0]) && !CanBeShownInline(actions[1])
  {
    if CanBeShownInline(actions[0]) && CanBeShownInline(actions[1]) then 2
    else if CanBeShownInline(actions[0]) || CanBeShownInline(actions[1]) then 1
    else 0
  }

  /** The number of inline actions equals the count of inline-able actions
      among the first two, whatever follows them. */
  lemma {:induction false} CollapseAfterCountsInline(actions: seq<ItemAction>)
    requires |actions| >= 2
    ensures CollapseAfterForConnectedItem(actions) == InlineCount(actions[..2])
  {
    var first2 := actions[..2];
    assert first2[1..][1..] == [];
    assert InlineCount(first2[1..][1..]) == 0;
    assert InlineCount(first2[1..]) == (if CanBeShownInline(actions[1]) then 1 else 0);
  }

  /** `getItemActionsAndConfig`, given the list the item's factory returns:
      placeholders get no actions; connected connections get their actions
      with the inline count; other connections collapse everything;
      databases and collections get their actions without a config. */
  function ItemActionsAndConfig(item: TreeItem, factoryActions: seq<ItemAction>): (r: ActionsAndConfig)
    requires item == Item(ConnectionItem(Connected)) ==> |factoryActions| >= 2
    ensures item.Placeholder? ==> r.factory == NoFactory && r.actions == [] && r.collapseAfter.None?
    ensures !item.Placeholder? ==> r.actions == factoryActions
    ensures r.collapseAfter.Some? <==> item.Item? && item.item.ConnectionItem?
    ensures item == Item(ConnectionItem(Connected)) ==>
      r.factory == ConnectedConnectionActions && r.collapseAfter == Some(CollapseAfterForConnectedItem(factoryActions))
    ensures item.Item? && item.item.ConnectionItem? && item.item.status != Connected ==>
      r.factory == NotConnectedConnectionActions && r.collapseAfter == Some(0)
    ensures item == Item(DatabaseItem) ==> r.factory == DatabaseActions
    ensures item.Item? && item.item.CollectionItem? ==> r.factory == CollectionActions(item.item.kind)
  {
    match item
    case Placeholder => ActionsAndConfig(NoFactory, [], None)
    case Item(ConnectionItem(status)) =>
      if status == Connected then
        ActionsAndConfig(ConnectedConnectionActions, factoryActions, Some(CollapseAfterForConnectedItem(factoryActions)))
      else
        ActionsAndConfig(NotConnectedConnectionActions, factoryActions, Some(0))
    case Item(DatabaseItem) => ActionsAndConfig(DatabaseActions, factoryActions, None)
    case Item(CollectionItem(kind)) => ActionsAndConfig(CollectionActions(kind), factoryActions, None)
  }

  /** `activeItemId`: the tree id highlighted for the active tab. */
  function ActiveItemId(activeWorkspace: Option<WorkspaceTab>, isSingleConnection: bool): (r: Option<string>)
    ensures r.Some? <==>
      activeWorkspace.Some? &&
      (activeWorkspace.value.CollectionTab? || activeWorkspace.value.CollectionsTab? ||
       (activeWorkspace.value.DatabasesTab? && !isSingleConnection))
    ensures r.Some? && (activeWorkspace.value.CollectionTab? || activeWorkspace.value.CollectionsTab?) ==>
      r.value == activeWorkspace.value.connectionId + "." + activeWorkspace.value.namespace
    ensures r.Some? && activeWorkspace.value.DatabasesTab? ==> r.value == activeWorkspace.value.connectionId
  {
    match activeWorkspace
    case None => None
    case Some(tab) =>
      match tab
      case CollectionTab(connectionId, namespace) => Some(connectionId + "." + namespace)
      case CollectionsTab(connectionId, namespace) => Some(connectionId + "." + namespace)
      case DatabasesTab(connectionId) => if !isSingleConnection then Some(connectionId) else None
      case OtherTab => None
  }

  /** The highlighted id always lies under the active tab's connection: it
      is the connection id or starts with it followed by a dot. */
  lemma HighlightUnderConnection(activeWorkspace: Option<WorkspaceTab>, isSingleConnection: bool)
    ensures var r := ActiveItemId(activeWorkspace, isSingleConnection);
      r.Some? ==>
        StartsWith(r.value, activeWorkspace.value.connectionId) &&
        (r.value == activeWorkspace.value.connectionId ||
         r.value[|activeWorkspace.value.connectionId|] == '.')
  {
    var r := ActiveItemId(activeWorkspace, isSingleConnection);
    if r.Some? {
      var id := activeWorkspace.value.connectionId;
      assert r.value[..|id|] == id;
    }
  }
}
