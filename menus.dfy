/**
 * Extension menus: normalisation to the general form (`_prepareMenuInfo`) and
 * the bound item generator of dynamic menus (`_getExtensionMenuItems`).
 */
module Menus {
  import opened Wrappers
  import opened JsValues
  import opened Dispatch
  import opened Errors

  /** One element of a menu's item array, as an extension supplies it. */
  datatype RawItem =
    | ObjectItem(text: Js, value: Js)
    | StringItem(s: string)
    | NullItem
    | NumberItem(n: int)

  /** The value of a menu's `items` property. */
  datatype Items =
    /** absent, `null` or another falsy non-string value */
    | NoItems
    /** an array of items (an array is truthy even when empty) */
    | ItemList(list: seq<RawItem>)
    /** a string: the name of a method of the extension that produces the items */
    | ItemsFunction(name: string)
    /** `_getExtensionMenuItems` bound to the provider found at preparation time and a function name */
    | BoundItems(provider: Option<Binding>, functionName: string)
    /** any other object, kept as it is */
    | ItemsObject(menu: Menu)

  /** A menu as an extension declares it: the short form (the items alone) or the general form. */
  datatype Menu =
    | ShortList(list: seq<RawItem>)
    | ShortFunction(name: string)
    | Full(items: Items, acceptReporters: bool)

  /** `menuInfo.items` is truthy (an array and a string have no `items` property). */
  predicate HasItems(m: Menu) {
    match m
    case ShortList(_) => false
    case ShortFunction(_) => false
    case Full(items, _) =>
      match items
      case NoItems => false
      case ItemsFunction(name) => name != ""
      case _ => true
  }

  /** The menu value itself, as the `items` property of a wrapper object. */
  function AsItems(m: Menu): Items {
    match m
    case ShortList(list) => ItemList(list)
    case ShortFunction(name) => ItemsFunction(name)
    case Full(_, _) => ItemsObject(m)
  }

  /** One iteration of `_prepareMenuInfo`: wrap a menu without items, then bind a string `items`. */
  function NormalizeMenu(provider: Option<Binding>, m: Menu): (r: Menu)
    ensures r.Full? && HasItems(r) && !r.items.ItemsFunction?
    ensures m.ShortList? ==> r == Full(ItemList(m.list), false)
    ensures m.ShortFunction? ==> r == Full(BoundItems(provider, m.name), false)
    ensures m.Full? && !HasItems(m) ==> r == Full(ItemsObject(m), false)
    ensures HasItems(m) && m.items.ItemsFunction? ==> r == m.(items := BoundItems(provider, m.items.name))
    ensures HasItems(m) && !m.items.ItemsFunction? ==> r == m
  {
    var general := if HasItems(m) then m else Full(AsItems(m), false);
    match general.items
    case ItemsFunction(name) => general.(items := BoundItems(provider, name))
    case _ => general
  }

  /** A normalised menu is left alone by a second normalisation. */
  lemma NormalizeMenuIdempotent(provider: Option<Binding>, m: Menu)
    ensures NormalizeMenu(provider, NormalizeMenu(provider, m)) == NormalizeMenu(provider, m)
  {
  }

  /** The menus object after `_prepareMenuInfo`: every menu normalised, no menu added or removed. */
  function PreparedMenus(provider: Option<Binding>, menus: map<string, Menu>): (r: map<string, Menu>)
    ensures r.Keys == menus.Keys
  {
    map k | k in menus :: NormalizeMenu(provider, menus[k])
  }

  /**
   * `_prepareMenuInfo`: visits the menu names one at a time (in an order the
   * model leaves open) and rewrites each entry of the menus object.
   */
  method PrepareMenuInfo(serviceName: string, services: Services, menus: map<string, Menu>)
    returns (r: map<string, Menu>)
    ensures r == PreparedMenus(Lookup(services, serviceName), menus)
    ensures forall k :: k in r ==> r[k].Full? && HasItems(r[k]) && !r[k].items.ItemsFunction?
  {
    r := menus;
    var remaining := menus.Keys;
    while remaining != {}
      invariant remaining <= menus.Keys
      invariant r.Keys == menus.Keys
      invariant forall k :: k in r ==>
        r[k] == if k in remaining then menus[k] else NormalizeMenu(Lookup(services, serviceName), menus[k])
      decreases remaining
    {
      var menuName :| menuName in remaining;
      var menuInfo := r[menuName];
      if !HasItems(menuInfo) {
        menuInfo := Full(AsItems(menuInfo), false);
        r := r[menuName := menuInfo];
      }
      if menuInfo.items.ItemsFunction? {
        var serviceObject := Lookup(services, serviceName);
        menuInfo := menuInfo.(items := BoundItems(serviceObject, menuInfo.items.name));
        r := r[menuName := menuInfo];
      }
      remaining := remaining - {menuName};
    }
  }

  /** A menu entry ready for the block editor. */
  datatype MenuEntry = Pair(text: Js, value: Js) | Passthrough(item: RawItem)

  /** The `map` callback applied to an already formatted item; `None` when it throws. */
  function ToEntry(item: RawItem, formatText: Js -> Js): Option<MenuEntry> {
    match item
    case ObjectItem(text, value) => Some(Pair(formatText(text), value))
    case StringItem(s) => Some(Pair(Str(s), Str(s)))
    case NullItem => None
    case NumberItem(_) => Some(Passthrough(item))
  }

  /** `items.map(...)` in `_getExtensionMenuItems`; `None` when some formatted item is `null`. */
  function MapItems(items: seq<RawItem>, formatItem: RawItem -> RawItem, formatText: Js -> Js)
    : (r: Option<seq<MenuEntry>>)
    ensures r.Some? <==> forall i :: 0 <= i < |items| ==> formatItem(items[i]) != NullItem
    ensures r.Some? ==> |r.value| == |items|
    ensures r.Some? ==> forall i :: 0 <= i < |items| ==>
      Some(r.value[i]) == ToEntry(formatItem(items[i]), formatText)
    decreases |items|
  {
    if items == [] then Some([])
    else
      match ToEntry(formatItem(items[0]), formatText)
      case None => None
      case Some(e) =>
        match MapItems(items[1..], formatItem, formatText)
        case None => None
        case Some(rest) => Some([e] + rest)
  }

  /** The target whose id is passed to a menu function: the editing target, else the stage. */
  function MenuTarget(editingTarget: Option<string>, stageTarget: Option<string>): Option<string> {
    if editingTarget.Some? then editingTarget else stageTarget
  }

  /**
   * `_getExtensionMenuItems(extensionObject, menuItemFunctionName)`.
   * `menuFunction` stands for the extension's method (given the target id or
   * `None` for `null`); `formatItem` and `formatText` stand for
   * `maybeFormatMessage` in the target's message context.
   */
  function GetExtensionMenuItems(
    provider: Option<Binding>, functionName: string,
    editingTarget: Option<string>, stageTarget: Option<string>,
    menuFunction: Option<string> -> seq<RawItem>,
    formatItem: RawItem -> RawItem, formatText: Js -> Js): (r: Result<seq<MenuEntry>, Error>)
    ensures provider.None? ==> r == Failure(NoMenuProvider(functionName))
    ensures provider.Some? && !(provider.value.Local? && functionName in provider.value.methods) ==>
      r == Failure(NotAFunction(functionName))
    ensures r.Success? ==> provider.Some? && provider.value.Local? && functionName in provider.value.methods
    ensures r.Success? ==>
      var items := menuFunction(MenuTarget(editingTarget, stageTarget));
      && |r.value| == |items| > 0
      && forall i :: 0 <= i < |items| ==>
           match formatItem(items[i])
           case ObjectItem(text, value) => r.value[i] == Pair(formatText(text), value)
           case StringItem(s) => r.value[i] == Pair(Str(s), Str(s))
           case NumberItem(_) => r.value[i] == Passthrough(formatItem(items[i]))
           case NullItem => false
    ensures (&& provider.Some? && provider.value.Local? && functionName in provider.value.methods
             && menuFunction(MenuTarget(editingTarget, stageTarget)) == []) ==>
      r == Failure(NoMenuItems(functionName))
    ensures
      var items := menuFunction(MenuTarget(editingTarget, stageTarget));
      r.Success? <==>
        && provider.Some? && provider.value.Local? && functionName in provider.value.methods
        && |items| > 0 && forall i :: 0 <= i < |items| ==> formatItem(items[i]) != NullItem
    ensures
      var items := menuFunction(MenuTarget(editingTarget, stageTarget));
      r == Failure(NullMenuItem) <==>
        && provider.Some? && provider.value.Local? && functionName in provider.value.methods
        && exists i :: 0 <= i < |items| && formatItem(items[i]) == NullItem
  {
    var editingTargetId := MenuTarget(editingTarget, stageTarget);
    if provider.None? then Failure(NoMenuProvider(functionName))
    else if !(provider.value.Local? && functionName in provider.value.methods) then
      Failure(NotAFunction(functionName))
    else
      match MapItems(menuFunction(editingTargetId), formatItem, formatText)
      case None => Failure(NullMenuItem)
      case Some(menuItems) =>
        if |menuItems| < 1 then Failure(NoMenuItems(functionName)) else Success(menuItems)
  }

  /** With formatting that changes nothing, a menu function returning one `{text: "x", value: 1}`
   *  item yields the single pair `["x", 1]`, and one returning no items fails. */
  lemma MenuItemsExample(
    methods: set<string>, name: string, editing: Option<string>, stage: Option<string>,
    one: Option<string> -> seq<RawItem>, none: Option<string> -> seq<RawItem>,
    formatItem: RawItem -> RawItem, formatText: Js -> Js)
    requires name in methods
    requires one(MenuTarget(editing, stage)) == [ObjectItem(Str("x"), Num(1))]
    requires none(MenuTarget(editing, stage)) == []
    requires forall i :: formatItem(i) == i
    requires forall t :: formatText(t) == t
    ensures GetExtensionMenuItems(Some(Local(methods)), name, editing, stage, one, formatItem, formatText)
      == Success([Pair(Str("x"), Num(1))])
    ensures GetExtensionMenuItems(Some(Local(methods)), name, editing, stage, none, formatItem, formatText)
      == Failure(NoMenuItems(name))
  {
    var r := GetExtensionMenuItems(Some(Local(methods)), name, editing, stage, one, formatItem, formatText);
    assert formatItem(ObjectItem(Str("x"), Num(1))) == ObjectItem(Str("x"), Num(1));
    assert formatText(Str("x")) == Str("x");
    assert r.Success? && |r.value| == 1;
    assert r.value[0] == Pair(Str("x"), Num(1));
    assert r.value == [r.value[0]];
  }
}
