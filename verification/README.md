# Dock launcher: configuration model, launch resolver and UI state

A model in Dafny of the core of a desktop "dock" launcher. The dock is a small always-on-top widget. It expands into categories of shortcuts (executables, `.lnk` links, folders, URLs and shell commands). A companion settings page edits the same configuration. Four parts are modelled:

- **Config store** (`config.dfy`, module `ConfigStore`, from `lib/config.js`). The configuration is modelled as values: `Config`, `Category`, `Item` and `Position`. Four pure edit functions return a new configuration:
  - `AddCategory` and `AddItem` append;
  - `RemoveItem` and `RemoveCategory` have filter semantics and remove every match.

  `loadConfig`'s fallback is modelled too: the parsed value when parsing succeeds, otherwise a fresh default.
- **Launch resolver** (`launcher.dfy`, module `Launcher`, from `lib/launcher.js`). `BuildLaunchCommand` sorts an item's `type` string into `{action, target}` or fails with an `UnknownShortcutType` error.
- **Settings editor** (`settings.dfy`, module `Settings`, from `settings/settings.js`). Its handlers edit the loaded configuration in place and by position: `push`, `splice(i, 1)` and assignment to one field. Each edit is a function on the category list (`PushItem`, `SpliceCategory`, …), and class `SettingsPage` applies it to its `config` field. Lemmas compare these position-based edits with the store's name-based ones.
- **Dock view** (`dock.dfy`, module `Dock`, from `renderer/app.js`). Class `DockView` holds the script's state: `expanded`, `activeCategory`, `isDragging` and the press in progress. Its methods are the state transitions: toggle expand, toggle category, config reload, mouse down/move/up and window blur. Three pure functions sit beside the class:
  - `WindowSize` is the window-size arithmetic;
  - `LaunchItem` is the tile-click dispatch table;
  - `FallbackIcon` is the fallback glyph table.

`seqs.dfy` (module `Seqs`) holds the JavaScript array operations these are built from: `map`, `filter` and `splice(i, 1)`. `wrappers.dfy` holds `Option` and `Result`.

Item `type` is the field `kind` (`type` is a Dafny keyword). It is a plain string, so unknown types can be expressed. `Config.others` stands for any further top-level fields, which the object spread carries through every edit. Names are compared by string equality, as `===` does.

Two points of the code that are easy to misread:
- `addItem` maps over all categories, so every category with the given name gets the item, not only the first. `AddItem` states this.
- An item's `type` is any string; each place that reads it handles unknown types on its own. The model keeps `kind` open.

## Model

| member | source | states |
|---|---|---|
| Seqs.Map | lib/config.js:32-36 | `map` keeps the length and puts `f` of each element at the same position |
| Seqs.Filter | lib/config.js:45 | `filter` keeps an element exactly when it passes, drops the rest, and keeps the survivors in their order (a subsequence) |
| Seqs.FilterCounts | lib/config.js:54 | every kept value occurs as often as in the input; every dropped value does not occur at all |
| Seqs.FilterKeepsAll | lib/config.js:45 | a filter that rejects nothing returns its input unchanged |
| Seqs.FilterIdempotent | lib/config.js:54 | filtering twice with the same test equals filtering once |
| Seqs.FilterConcat | lib/config.js:54 | filtering a concatenation is the concatenation of the filtered parts, so relative order survives |
| Seqs.FilterDrops | lib/config.js:54 | if some element is rejected, the result is strictly shorter |
| Seqs.FilterRejectsOnly | lib/config.js:45 | when exactly one position is rejected, filtering equals splicing out that position |
| Seqs.RemoveAt | settings/settings.js:40 | `splice(i, 1)` removes position `i`: entries before it stay, later entries move down one |
| Seqs.RemoveAtMultiset | settings/settings.js:121 | splicing removes exactly one occurrence of the spliced value |
| ConfigStore.LoadConfig | lib/config.js:9-16 | a parsed value is returned as is; on a read or parse failure the result is the default: icon `assets/dock-icon.png`, position (100, 300), no categories, no other fields |
| ConfigStore.AddCategory | lib/config.js:22-27 | exactly one new `{name, icon, items: []}` at the end; length grows by one; earlier categories unchanged; header fields unchanged |
| ConfigStore.AddItem | lib/config.js:29-38 | category count, order, names and icons kept; every category with the matching name gets `item` at the end of its items; the others are identical; header unchanged |
| ConfigStore.ItemsWithout | lib/config.js:45 | the new items are exactly the old items with another name, in order, with multiplicities kept; no item with that name remains |
| ConfigStore.RemoveItem | lib/config.js:40-49 | in every category with the matching name, all items with `itemName` go; other categories are identical; names, icons, count and header are kept |
| ConfigStore.RemoveCategory | lib/config.js:51-56 | exactly the categories with another name remain, in order (a subsequence), with multiplicities kept; length does not grow; header unchanged |
| ConfigStore.AddItemNoMatch | lib/config.js:32-36 | `addItem` with a name no category has returns the input |
| ConfigStore.RemoveItemNoMatch | lib/config.js:43-47 | `removeItem` with a name no category has returns the input |
| ConfigStore.RemoveItemNoItem | lib/config.js:40-49 | `removeItem` with an item name that no category of the given name holds returns the input |
| ConfigStore.RemoveCategoryNoMatch | lib/config.js:54 | `removeCategory` with a name no category has returns the input |
| ConfigStore.RemoveCategoryRemovesAll | lib/config.js:54 | afterwards no category has the name; if one had it, the list is strictly shorter |
| ConfigStore.RemoveItemIdempotent | lib/config.js:40-49 | `removeItem` applied twice equals applying it once |
| ConfigStore.RemoveCategoryIdempotent | lib/config.js:51-56 | `removeCategory` applied twice equals applying it once |
| ConfigStore.RemoveItemUndoesAddItem | lib/config.js:29-49 | removing an added item's name after `addItem` gives the same result as removing it without the add |
| ConfigStore.RemoveCategoryUndoesAddCategory | lib/config.js:22-56 | removing by name after `addCategory` with that name gives the same result as removing without the add |
| ConfigStore.SeedScenarios | tests/config.test.js:54-87 | the store's test scenarios on the seed configuration: add "Games", add "Node" to "Tools", remove "VS Code", remove "Tools" |
| Launcher.Action.WireName | lib/launcher.js:6-10 | each action is sent as its own string: `openPath` exactly for OpenPath, `openExternal` exactly for OpenExternal, `exec` exactly for Exec |
| Launcher.LaunchError.Message | lib/launcher.js:12 | the error message starts with "Unknown shortcut type" |
| Launcher.BuildLaunchCommand | lib/launcher.js:1-14 | succeeds iff the type is exe, lnk, folder, url or shell, and the target is always the item's path. exe/lnk/folder map to openPath, url to openExternal with no scheme check, shell to exec. Any other type gives `UnknownShortcutType(type)` |
| Launcher.ResolutionIgnoresNameAndIcon | lib/launcher.js:2-13 | the result depends only on the item's type and path |
| Launcher.ResolverTestTable | tests/launcher.test.js:5-37 | the resolver's test table: exe, lnk, url, a `steam://` url, folder, a quoted shell command line, and an unknown type; the action strings on the wire, and the error message prefix for the unknown type |
| Settings.WithItemField | settings/settings.js:81 | assigning one item field sets that field and leaves the other three as they were |
| Settings.WithCategoryField | settings/settings.js:24 | assigning a category's icon or name sets that field and leaves the other field and the items as they were |
| Settings.PushItem | settings/settings.js:57-64 | "+ Item" appends `{New Item, exe, "", auto}` to the items of category `catIndex`. Existing items, its name and icon, and all other categories are unchanged. Known types stay known |
| Settings.PushCategory | settings/settings.js:135-140 | appends `{New Category, 📁, []}` at the end; length grows by one; earlier entries unchanged; known types stay known |
| Settings.SpliceCategory | settings/settings.js:39-41 | removes exactly the entry at `catIndex`; later entries move down one, in order; known types stay known |
| Settings.SpliceItem | settings/settings.js:120-122 | removes exactly `items[itemIndex]` of category `catIndex`, keeping the order of the rest; every other category, and the category's name and icon, are unchanged |
| Settings.AssignCategoryField | settings/settings.js:23-33 | an icon or name edit changes only that field of that category; its items and all other categories are unchanged |
| Settings.AssignItemField | settings/settings.js:80-114 | a name, type, path or icon edit changes only that field of that item. Other items and other categories are unchanged. A type picked from the selector keeps every type known |
| Settings.TypeOptionsAreKnownTypes | settings/settings.js:87 | the selector offers exactly the five types the resolver accepts |
| Settings.TypeEditIsLaunchable | settings/settings.js:94-96 | after a type edit from the selector, the item resolves successfully |
| Settings.SpliceKeepsNamesakes | settings/settings.js:40 | a position-based delete keeps another category with the same name, which `removeCategory` would drop |
| Settings.PushItemMatchesAddItem | settings/settings.js:58-63 | when the category's name is unique, "+ Item" gives the same categories as the store's `addItem` |
| Settings.PushCategoryMatchesAddCategory | settings/settings.js:136-140 | "Add category" is the store's `addCategory` with the default name and icon |
| Settings.SpliceItemMatchesRemoveItem | settings/settings.js:121 | when the category name and the item name are both unique, a position-based item delete equals the store's `removeItem` |
| Settings.SettingsPage.constructor | settings/settings.js:3-5 | the page starts from the configuration the main process handed over |
| Settings.SettingsPage.AddItem | settings/settings.js:57-64 | the page's configuration becomes `PushItem` of the old one; the header is unchanged |
| Settings.SettingsPage.AddCategory | settings/settings.js:135-140 | the page's configuration becomes `PushCategory` of the old one |
| Settings.SettingsPage.DeleteCategory | settings/settings.js:39-41 | the page's configuration becomes `SpliceCategory` of the old one |
| Settings.SettingsPage.DeleteItem | settings/settings.js:120-122 | the page's configuration becomes `SpliceItem` of the old one |
| Settings.SettingsPage.EditCategory | settings/settings.js:23-33 | the page's configuration becomes `AssignCategoryField` of the old one |
| Settings.SettingsPage.EditItem | settings/settings.js:80-114 | the page's configuration becomes `AssignItemField` of the old one, and a configuration whose types were all known keeps them known |
| Dock.WindowSize | renderer/app.js:168-186 | collapsed: 48×48. Expanded with n categories: height 48 + 2 + n·50. With an open category of k items: width 50 + 44k; with none: width 48. Width is always ≥ 48, and expanded width is 48 exactly when no category is open |
| Dock.HeightPerCategory | renderer/app.js:174-175 | each further category makes the expanded dock exactly 50 pixels taller |
| Dock.PropertyGet | renderer/app.js:109 | `obj[key]` yields the own value when there is one, otherwise the inherited `Object.prototype` member of that name when there is one, and `undefined` otherwise |
| Dock.FallbackIconAsWritten | renderer/app.js:107-110 | as written, an inherited name such as `toString` yields that member rather than 📄 |
| Dock.FallbackIcon | renderer/app.js:107-110 | exe, url, folder, shell and lnk get their table glyph. The result is 📄 exactly for the types the resolver rejects |
| Dock.FallbackIconAsWrittenShowsPrototypeMember | renderer/app.js:109 | type `toString` shows an inherited member as written, and 📄 as intended |
| Dock.FallbackIconAsWrittenAgreesElsewhere | renderer/app.js:107-110 | for every type that is not an inherited name, the code as written gives the intended glyph |
| Dock.LaunchItemAsWritten | renderer/app.js:112-124 | as written, it dispatches for the five mapped types and for every inherited name, the latter with that inherited member as the action; it dispatches nothing only for other types; the target is always the path |
| Dock.LaunchItem | renderer/app.js:112-124 | dispatches iff `buildLaunchCommand` succeeds, and then exactly its `{action, target}`. For any other type it dispatches nothing and does not fail |
| Dock.LaunchItemAsWrittenDispatchesPrototypeMember | renderer/app.js:120-123 | an item of type `constructor` is rejected by the resolver, yet as written it is dispatched with an inherited member as action |
| Dock.LaunchItemAsWrittenAgreesElsewhere | renderer/app.js:112-124 | for every type that is not an inherited name, the code as written dispatches what `LaunchItem` returns |
| Dock.DockView.constructor | renderer/app.js:7-16 | starts from the loaded configuration: collapsed, no category open, no press or drag in progress |
| Dock.DockView.ToggleExpand | renderer/app.js:126-141 | flips `expanded`. Collapsing also clears `activeCategory`, so afterwards collapsed ⇒ none open and the requested size is 48×48 |
| Dock.DockView.ToggleCategory | renderer/app.js:143-161 | if `index` is open it closes; otherwise it becomes the only open category. At most one is open, and it stays a valid index |
| Dock.DockView.ConfigUpdated | renderer/app.js:18-24 | takes the reloaded configuration, collapsed with nothing open. So `activeCategory` stays null or a valid index for any reload |
| Dock.DockView.MouseDown | renderer/app.js:192-200 | a left-button press records the start point and clears `isDragging`; any other button changes nothing |
| Dock.DockView.MouseMove | renderer/app.js:202-211 | during a press, dragging starts once \|dx\| > 3 or \|dy\| > 3. While dragging a collapsed dock it returns the offset to move by; otherwise it returns nothing |
| Dock.DockView.MouseUp | renderer/app.js:213-220 | a press that never became a drag toggles expansion; a drag does not; either way the press and drag end |
| Dock.DockView.Blur | renderer/app.js:235-239 | losing focus collapses an expanded dock and closes its category; a collapsed dock is unchanged |
| Dock.DockView.ClickTile | renderer/app.js:99-102 | clicking a tile dispatches exactly when the resolver accepts the item's type, and then exactly the resolver's `{action, target}`, the target being the item's path |

## Findings

| source | as written | input that shows it | evidently intended | confidence | as-written member | corrected member |
|---|---|---|---|---|---|---|
| renderer/app.js:120-123 | `commandMap[item.type]` is a plain object lookup, so inherited `Object.prototype` members are truthy and get dispatched | an item with type `constructor` (or `toString`, `__proto__`, …) | unknown types dispatch nothing, as the five-key table and `buildLaunchCommand` say | not executed; medium | Dock.LaunchItemAsWritten, Dock.LaunchItemAsWrittenDispatchesPrototypeMember | Dock.LaunchItem |
| renderer/app.js:108-109 | `icons[type] \|\| '📄'` returns an inherited member for such types, so that function is shown as the glyph | an item with type `toString` | every type outside the table shows 📄 | not executed; medium | Dock.FallbackIconAsWritten, Dock.FallbackIconAsWrittenShowsPrototypeMember | Dock.FallbackIcon |

`DockView.ClickTile` uses the corrected `LaunchItem`. For a type such as `constructor`, the as-written click hands a command whose action is a function to the IPC bridge (renderer/app.js:122); preload.js:6 passes it to `ipcRenderer.send`, whose structured clone cannot carry a function, so the click most likely throws in the dock window and nothing reaches the main process (not executed). The model stops at the dispatch and does not model that throw.

## Left out

- File I/O and JSON in `loadConfig`/`saveConfig` (lib/config.js:11-12, 19). The parser and the formatter are library code. `LoadConfig` takes the parse outcome as a parameter, so no load/save round trip is stated. A parse that yields something that is not a configuration object is not modelled either.
- `saveConfig`, and the asynchronous `save()` after each settings edit. Persisting is an opaque step with no effect on the in-memory model.
- main.js, which is not part of this model. That covers window creation, the IPC handlers, the actual `shell.openPath`/`openExternal`/`exec` dispatch, and `Math.round` in resize. It also covers main.js's own `load-config` fallback `{categories: []}`, which differs from the store's default.
- preload.js: only an IPC bridge.
- All DOM work: element creation, class toggling on open/active rows, `innerHTML`, image `onerror` fallbacks, the `extractIcon` request and the context-menu "open settings". The model keeps only the state variables these handlers update.
- Timing: after `toggleExpand` and `toggleCategory` the resize is requested two animation frames later; the config reload requests it at once. `DockView.RequestedSize` gives the size for the current state, not when it is sent.
- Absolute window coordinates while dragging (`winStartX + dx`). `MouseMove` returns only the offset.
- Repeated left presses without a release. They would install a second set of listeners; the model keeps a single press.
- Extra fields on categories and items. The spreads would carry them, but the model's `Category` and `Item` have only the documented fields. Extra top-level fields are modelled (`Config.others`).
- Reordering of categories or items: no source file implements it.
- Dock.DockView.ToggleCategory: it does not promise "collapsed ⇒ no category open". The code does not check `expanded`, and category buttons are unreachable while collapsed only because of the stylesheet, which is not part of this model. The constructor, `ToggleExpand`, `ConfigUpdated`, a `MouseUp` that ends a click (it toggles through `ToggleExpand`, in either direction) and a `Blur` that collapses the dock establish that property (`Tidy`). `MouseDown`, `MouseMove`, a `MouseUp` with no press or after a drag, and a `Blur` on a collapsed dock leave it as it was.
- Indices in handlers. The settings and dock handlers are built per rendered entry, so their indices are valid when they fire; the methods require that. Out of range, the source would throw a `TypeError` (on `categories[i].items` or a field assignment) or, for a `splice` with an out-of-range index, do nothing.
- String encoding: strings are sequences of Unicode scalar values rather than UTF-16 code units, so 📁 is one character.
