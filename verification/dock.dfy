/** The dock window: its view state (expanded or not, which category is open,
    whether the icon is being dragged), the window size it asks for, and what
    a click on a shortcut tile dispatches. */
module Dock {
  import opened Wrappers
  import opened ConfigStore
  import Launcher

  const CollapsedSize: int := 48
  const CellSize: int := 48
  const ItemSize: int := 40
  const Gap: int := 2
  const ItemGap: int := 4

  /** Mouse travel, in pixels along either axis, that turns a press into a drag. */
  const DragThreshold: int := 3

  datatype Size = Size(width: int, height: int)

  function Abs(n: int): int {
    if n < 0 then -n else n
  }

  function Max(a: int, b: int): int {
    if a >= b then a else b
  }

  /** The open category, if any, is one of the categories shown. */
  predicate ActiveIsValid(cats: seq<Category>, active: Option<nat>) {
    active.Some? ==> active.value < |cats|
  }

  /** `recalcWindowSize`: collapsed, the dock is one 48-pixel cell; expanded,
      it is one cell taller per category, and as wide as the open category's
      row of tiles. The `Math.max` never binds once a category is open, so
      the width is the collapsed width exactly when none is. */
  function WindowSize(expanded: bool, cats: seq<Category>, active: Option<nat>): (s: Size)
    requires ActiveIsValid(cats, active)
    ensures s.width >= CollapsedSize && s.height >= CollapsedSize
    ensures !expanded ==> s == Size(CollapsedSize, CollapsedSize)
    ensures expanded ==> s.height == CollapsedSize + Gap + |cats| * (CellSize + Gap)
    ensures expanded && active.Some? ==>
      s.width == CellSize + Gap + |cats[active.value].items| * (ItemSize + ItemGap)
    ensures expanded ==> (s.width == CollapsedSize <==> active.None?)
  {
    if !expanded then Size(CollapsedSize, CollapsedSize)
    else
      var height := CollapsedSize + Gap + |cats| * (CellSize + Gap);
      var maxWidth :=
        if active.Some? then CellSize + Gap + |cats[active.value].items| * (ItemSize + ItemGap)
        else CollapsedSize;
      Size(Max(CollapsedSize, maxWidth), height)
  }

  /** Each further category makes the expanded dock one cell and one gap
      taller, whatever is open. */
  lemma HeightPerCategory(cats: seq<Category>, cat: Category, active: Option<nat>)
    requires ActiveIsValid(cats, active)
    ensures ActiveIsValid(cats + [cat], active)
    ensures WindowSize(true, cats + [cat], active).height == WindowSize(true, cats, active).height + CellSize + Gap
  {
  }

  // ---------------------------------------------------------------------
  // Property lookup on a JavaScript object literal. `obj[key]` finds the
  // object's own properties and, failing those, the members every object
  // inherits from `Object.prototype`; all of those are truthy.

  /** The names an object literal inherits from `Object.prototype`. */
  const ObjectPrototypeMembers: set<string> := {
    "constructor", "hasOwnProperty", "isPrototypeOf", "propertyIsEnumerable",
    "toLocaleString", "toString", "valueOf", "__proto__",
    "__defineGetter__", "__defineSetter__", "__lookupGetter__", "__lookupSetter__"
  }

  /** What `obj[key]` yields: an own value, an inherited member, or `undefined`. */
  datatype JsValue<V> = Present(value: V) | ProtoMember(name: string) | Absent

  /** `obj[key]` for an object literal whose own properties are `own`. */
  function PropertyGet<V>(own: map<string, V>, key: string): (v: JsValue<V>)
    ensures v.Absent? <==> key !in own && key !in ObjectPrototypeMembers
    ensures key !in own && key in ObjectPrototypeMembers ==> v == ProtoMember(key)
    ensures key in own ==> v == Present(own[key])
  {
    if key in own then Present(own[key])
    else if key in ObjectPrototypeMembers then ProtoMember(key)
    else Absent
  }

  // ---------------------------------------------------------------------
  // getFallbackIcon

  /** The `icons` table of `getFallbackIcon`. */
  const FallbackGlyphs: map<string, string> := map[
    "exe" := "\U{2699}", "url" := "\U{1F310}", "folder" := "\U{1F4C1}",
    "shell" := "\U{2B1B}", "lnk" := "\U{1F517}"]

  /** The glyph for any other type. */
  const GenericGlyph: string := "\U{1F4C4}"

  /** `getFallbackIcon` as written: `icons[type] || '📄'`, where the lookup
      also finds inherited members, which are truthy and so are returned. */
  function FallbackIconAsWritten(kind: string): (v: JsValue<string>)
    ensures kind in ObjectPrototypeMembers ==> v == ProtoMember(kind)
    ensures kind !in ObjectPrototypeMembers ==> v.Present?
  {
    match PropertyGet(FallbackGlyphs, kind)
    case Present(g) => Present(if g != "" then g else GenericGlyph)
    case ProtoMember(m) => ProtoMember(m)
    case Absent => Present(GenericGlyph)
  }

  /** `getFallbackIcon` as intended: the table's glyph for the five types the
      resolver knows, the generic page glyph for every other type. */
  function FallbackIcon(kind: string): (g: string)
    ensures kind in FallbackGlyphs ==> g == FallbackGlyphs[kind]
    ensures g == GenericGlyph <==> kind !in Launcher.KnownTypes
  {
    if kind in FallbackGlyphs then FallbackGlyphs[kind] else GenericGlyph
  }

  /** For a type named like an inherited member, the code as written shows
      that member instead of the generic glyph. */
  lemma FallbackIconAsWrittenShowsPrototypeMember()
    ensures FallbackIconAsWritten("toString") == ProtoMember("toString")
    ensures FallbackIcon("toString") == GenericGlyph
  {
  }

  /** Away from the inherited names, the code as written is the intended one. */
  lemma FallbackIconAsWrittenAgreesElsewhere(kind: string)
    requires kind !in ObjectPrototypeMembers
    ensures FallbackIconAsWritten(kind) == Present(FallbackIcon(kind))
  {
  }

  // ---------------------------------------------------------------------
  // launchItem

  /** The `commandMap` of `launchItem`. */
  const CommandMap: map<string, Launcher.Action> := map[
    "exe" := Launcher.OpenPath, "lnk" := Launcher.OpenPath, "folder" := Launcher.OpenPath,
    "url" := Launcher.OpenExternal, "shell" := Launcher.Exec]

  /** The `{action, target}` handed to `window.dock.launch`. */
  datatype Dispatch = Dispatch(action: JsValue<Launcher.Action>, target: string)

  /** `launchItem` as written: it dispatches whenever `commandMap[item.type]`
      is truthy, which includes every inherited member. */
  function LaunchItemAsWritten(item: Item): (d: Option<Dispatch>)
    ensures d.None? <==> item.kind !in CommandMap && item.kind !in ObjectPrototypeMembers
    ensures d.Some? ==> d.value.target == item.path
    ensures item.kind in ObjectPrototypeMembers ==> d == Some(Dispatch(ProtoMember(item.kind), item.path))
  {
    match PropertyGet(CommandMap, item.kind)
    case Present(a) => Some(Dispatch(Present(a), item.path))
    case ProtoMember(m) => Some(Dispatch(ProtoMember(m), item.path))
    case Absent => None
  }

  /** `launchItem` as intended: it dispatches exactly what the resolver
      returns for the five known types, and nothing, without failing, for
      any other type. */
  function LaunchItem(item: Item): (d: Option<Launcher.Command>)
    ensures d.Some? <==> Launcher.BuildLaunchCommand(item).Ok?
    ensures d.Some? ==> d.value == Launcher.BuildLaunchCommand(item).value
  {
    if item.kind in CommandMap then Some(Launcher.Command(CommandMap[item.kind], item.path)) else None
  }

  /** An item whose type is `constructor` is rejected by the resolver, yet
      the code as written dispatches it, with an inherited member as action. */
  lemma LaunchItemAsWrittenDispatchesPrototypeMember()
    ensures LaunchItemAsWritten(Item("x", "constructor", "p", "auto")) == Some(Dispatch(ProtoMember("constructor"), "p"))
    ensures Launcher.BuildLaunchCommand(Item("x", "constructor", "p", "auto")).Err?
    ensures LaunchItem(Item("x", "constructor", "p", "auto")).None?
  {
  }

  /** Away from the inherited names, the code as written is the intended one. */
  lemma LaunchItemAsWrittenAgreesElsewhere(item: Item)
    requires item.kind !in ObjectPrototypeMembers
    ensures LaunchItemAsWritten(item) ==
      match LaunchItem(item)
      case Some(cmd) => Some(Dispatch(Present(cmd.action), cmd.target))
      case None => None
  {
  }

  // ---------------------------------------------------------------------
  // The view state machine

  /** The module-level state of the dock script. `pressed` records that a
      left-button press has installed the move and release listeners. */
  class DockView {
    var config: Config
    var expanded: bool
    var activeCategory: Option<nat>
    var isDragging: bool
    var pressed: bool
    var startX: int
    var startY: int

    /** The open category exists, and a drag only happens during a press. */
    ghost predicate Valid()
      reads this
    {
      ActiveIsValid(config.categories, activeCategory) && (!pressed ==> !isDragging)
    }

    /** A collapsed dock has no category open. */
    ghost predicate Tidy()
      reads this
    {
      !expanded ==> activeCategory.None?
    }

    /** `init`: the loaded configuration, collapsed, nothing open. */
    constructor (loaded: Config)
      ensures Valid() && Tidy()
      ensures config == loaded && !expanded && activeCategory == None
      ensures !isDragging && !pressed
    {
      config := loaded;
      expanded, activeCategory := false, None;
      isDragging, pressed := false, false;
      startX, startY := 0, 0;
    }

    /** The size `recalcWindowSize` requests in the current state. */
    function RequestedSize(): Size
      reads this
      requires Valid()
    {
      WindowSize(expanded, config.categories, activeCategory)
    }

    /** `toggleExpand`: flips `expanded`; collapsing also closes the open
        category, so afterwards a collapsed dock asks for one cell. */
    method ToggleExpand()
      requires Valid()
      modifies `expanded, `activeCategory
      ensures Valid() && Tidy()
      ensures expanded == !old(expanded)
      ensures activeCategory == if expanded then old(activeCategory) else None
      ensures !expanded ==> RequestedSize() == Size(CollapsedSize, CollapsedSize)
    {
      expanded := !expanded;
      if !expanded {
        activeCategory := None;
      }
    }

    /** `toggleCategory(index)`: closes `index` if it is the open one,
        otherwise opens it in place of whichever was open. */
    method ToggleCategory(index: nat)
      requires Valid() && index < |config.categories|
      modifies `activeCategory
      ensures Valid()
      ensures activeCategory == if old(activeCategory) == Some(index) then None else Some(index)
    {
      if activeCategory == Some(index) {
        activeCategory := None;
      } else {
        activeCategory := Some(index);
      }
    }

    /** The `onConfigUpdated` callback: the reloaded configuration, collapsed,
        nothing open, which keeps the open category valid for any reload. */
    method ConfigUpdated(reloaded: Config)
      requires Valid()
      modifies `config, `expanded, `activeCategory
      ensures Valid() && Tidy()
      ensures config == reloaded && !expanded && activeCategory == None
      ensures RequestedSize() == Size(CollapsedSize, CollapsedSize)
    {
      config := reloaded;
      expanded := false;
      activeCategory := None;
    }

    /** `mousedown` on the dock icon: a left press starts tracking; any other
        button is ignored. */
    method MouseDown(button: int, x: int, y: int)
      requires Valid()
      modifies `isDragging, `pressed, `startX, `startY
      ensures Valid()
      ensures button != 0 ==>
        isDragging == old(isDragging) && pressed == old(pressed) && startX == old(startX) && startY == old(startY)
      ensures button == 0 ==> !isDragging && pressed && startX == x && startY == y
    {
      if button != 0 {
        return;
      }
      isDragging := false;
      startX, startY := x, y;
      pressed := true;
    }

    /** `mousemove` during a press: becomes a drag once the pointer has moved
        more than the threshold along either axis, and while dragging a
        collapsed dock returns the offset to move the window by. */
    method MouseMove(x: int, y: int) returns (move: Option<(int, int)>)
      requires Valid()
      modifies `isDragging
      ensures Valid()
      ensures !pressed ==> isDragging == old(isDragging) && move == None
      ensures pressed ==> isDragging == (old(isDragging) || Abs(x - startX) > DragThreshold || Abs(y - startY) > DragThreshold)
      ensures move == if pressed && isDragging && !expanded then Some((x - startX, y - startY)) else None
    {
      move := None;
      if !pressed {
        return;
      }
      var dx, dy := x - startX, y - startY;
      if !isDragging && (Abs(dx) > DragThreshold || Abs(dy) > DragThreshold) {
        isDragging := true;
      }
      if isDragging && !expanded {
        move := Some((dx, dy));
      }
    }

    /** `mouseup` after a press: a press that never became a drag is a
        click and toggles expansion; either way the press ends. */
    method MouseUp()
      requires Valid()
      modifies `expanded, `activeCategory, `isDragging, `pressed
      ensures Valid()
      ensures !old(pressed) ==>
        expanded == old(expanded) && activeCategory == old(activeCategory) && isDragging == old(isDragging) && !pressed
      ensures old(pressed) ==> !pressed && !isDragging
      ensures old(pressed) && old(isDragging) ==> expanded == old(expanded) && activeCategory == old(activeCategory)
      ensures old(pressed) && !old(isDragging) ==>
        expanded == !old(expanded) && activeCategory == (if expanded then old(activeCategory) else None)
    {
      if !pressed {
        return;
      }
      if !isDragging {
        ToggleExpand();
      }
      isDragging := false;
      pressed := false;
    }

    /** The window's `blur` listener: an expanded dock collapses. */
    method Blur()
      requires Valid()
      modifies `expanded, `activeCategory
      ensures Valid()
      ensures old(expanded) ==> !expanded && activeCategory == None
      ensures !old(expanded) ==> expanded == old(expanded) && activeCategory == old(activeCategory)
    {
      if expanded {
        ToggleExpand();
      }
    }

    /** A click on a shortcut tile: dispatches `launchItem` of its item. */
    method ClickTile(catIndex: nat, itemIndex: nat) returns (d: Option<Launcher.Command>)
      requires catIndex < |config.categories| && itemIndex < |config.categories[catIndex].items|
      ensures d.Some? <==> Launcher.BuildLaunchCommand(config.categories[catIndex].items[itemIndex]).Ok?
      ensures d.Some? ==> d.value.target == config.categories[catIndex].items[itemIndex].path
      ensures d.Some? ==> d.value == Launcher.BuildLaunchCommand(config.categories[catIndex].items[itemIndex]).value
    {
      d := LaunchItem(config.categories[catIndex].items[itemIndex]);
    }
  }
}
