/** The shortcut configuration and the pure edit functions of the config
    store: every edit builds a new configuration and leaves its input alone
    (in Dafny, values are immutable, so that part holds by construction). */
module ConfigStore {
  import opened Wrappers
  import Seqs

  /** One launchable shortcut. `kind` is the source's `type` field, kept as
      a plain string so that unknown types can be written down. */
  datatype Item = Item(name: string, kind: string, path: string, icon: string)

  /** A named, iconed group of shortcuts, in display order. */
  datatype Category = Category(name: string, icon: string, items: seq<Item>)

  datatype Position = Position(x: int, y: int)

  /** The persisted dock configuration. `others` stands for any further
      top-level fields of the stored object, each abstracted to its text;
      the spread `...config` carries them through every edit. */
  datatype Config = Config(
    dockIcon: string,
    position: Position,
    categories: seq<Category>,
    others: map<string, string>)

  /** `DEFAULT_CONFIG`. */
  const DefaultConfig: Config := Config("assets/dock-icon.png", Position(100, 300), [], map[])

  /** Everything but `categories` is the same in both configurations. */
  predicate SameHeader(a: Config, b: Config) {
    a.dockIcon == b.dockIcon && a.position == b.position && a.others == b.others
  }

  /** `loadConfig`, with the file read and the JSON parse abstracted to their
      outcome: `Some(v)` when both succeeded, `None` when either threw. */
  function LoadConfig(parsed: Option<Config>): (c: Config)
    ensures parsed.Some? ==> c == parsed.value
    ensures parsed.None? ==>
      && c.dockIcon == "assets/dock-icon.png"
      && c.position == Position(100, 300)
      && c.categories == []
      && c.others == map[]
  {
    match parsed
    case Some(v) => v
    case None => DefaultConfig
  }

  /** `addCategory`: one new, empty category at the end; nothing else moves. */
  function AddCategory(c: Config, name: string, icon: string): (r: Config)
    ensures SameHeader(r, c)
    ensures |r.categories| == |c.categories| + 1
    ensures r.categories[..|c.categories|] == c.categories
    ensures r.categories[|c.categories|] == Category(name, icon, [])
  {
    c.(categories := c.categories + [Category(name, icon, [])])
  }

  /** The callback `addItem` maps over the categories. */
  function AppendIfNamed(categoryName: string, item: Item): Category -> Category {
    (cat: Category) => if cat.name == categoryName then cat.(items := cat.items + [item]) else cat
  }

  /** `addItem`: every category named `categoryName` gets `item` at the end
      of its items; all other categories, and the order, stay as they were. */
  function AddItem(c: Config, categoryName: string, item: Item): (r: Config)
    ensures SameHeader(r, c)
    ensures |r.categories| == |c.categories|
    ensures forall i :: 0 <= i < |c.categories| ==>
      r.categories[i].name == c.categories[i].name && r.categories[i].icon == c.categories[i].icon
    ensures forall i :: 0 <= i < |c.categories| && c.categories[i].name == categoryName ==>
      r.categories[i].items == c.categories[i].items + [item]
    ensures forall i :: 0 <= i < |c.categories| && c.categories[i].name != categoryName ==>
      r.categories[i] == c.categories[i]
  {
    c.(categories := Seqs.Map(c.categories, AppendIfNamed(categoryName, item)))
  }

  /** The test `removeItem` filters a category's items with. */
  function NotNamedItem(itemName: string): Item -> bool {
    (it: Item) => it.name != itemName
  }

  /** `items.filter(i => i.name !== itemName)`: exactly the items with
      another name, in their original order, each as often as before. */
  function ItemsWithout(items: seq<Item>, itemName: string): (r: seq<Item>)
    ensures Seqs.Subsequence(r, items)
    ensures forall it :: it in r <==> it in items && it.name != itemName
    ensures forall it :: multiset(r)[it] == (if it.name != itemName then multiset(items)[it] else 0)
  {
    Seqs.FilterCounts(items, NotNamedItem(itemName));
    Seqs.Filter(items, NotNamedItem(itemName))
  }

  /** The callback `removeItem` maps over the categories. */
  function DropItemIfNamed(categoryName: string, itemName: string): Category -> Category {
    (cat: Category) => if cat.name == categoryName then cat.(items := ItemsWithout(cat.items, itemName)) else cat
  }

  /** `removeItem`: in every category named `categoryName`, all items named
      `itemName` go; other categories, and the order, stay as they were. */
  function RemoveItem(c: Config, categoryName: string, itemName: string): (r: Config)
    ensures SameHeader(r, c)
    ensures |r.categories| == |c.categories|
    ensures forall i :: 0 <= i < |c.categories| ==>
      r.categories[i].name == c.categories[i].name && r.categories[i].icon == c.categories[i].icon
    ensures forall i :: 0 <= i < |c.categories| && c.categories[i].name == categoryName ==>
      r.categories[i].items == ItemsWithout(c.categories[i].items, itemName)
    ensures forall i :: 0 <= i < |c.categories| && c.categories[i].name != categoryName ==>
      r.categories[i] == c.categories[i]
  {
    c.(categories := Seqs.Map(c.categories, DropItemIfNamed(categoryName, itemName)))
  }

  /** The test `removeCategory` filters the categories with. */
  function NotNamedCategory(categoryName: string): Category -> bool {
    (cat: Category) => cat.name != categoryName
  }

  /** `removeCategory`: exactly the categories with another name remain, in
      their original order, each as often as before. */
  function RemoveCategory(c: Config, categoryName: string): (r: Config)
    ensures SameHeader(r, c)
    ensures |r.categories| <= |c.categories|
    ensures Seqs.Subsequence(r.categories, c.categories)
    ensures forall cat :: cat in r.categories <==> cat in c.categories && cat.name != categoryName
    ensures forall cat :: multiset(r.categories)[cat]
                       == (if cat.name != categoryName then multiset(c.categories)[cat] else 0)
  {
    Seqs.FilterCounts(c.categories, NotNamedCategory(categoryName));
    c.(categories := Seqs.Filter(c.categories, NotNamedCategory(categoryName)))
  }

  /** No category has the given name. */
  predicate NoCategoryNamed(cats: seq<Category>, name: string) {
    forall i :: 0 <= i < |cats| ==> cats[i].name != name
  }

  /** `addItem` with a name no category has returns the input unchanged. */
  lemma AddItemNoMatch(c: Config, categoryName: string, item: Item)
    requires NoCategoryNamed(c.categories, categoryName)
    ensures AddItem(c, categoryName, item) == c
  {
    assert AddItem(c, categoryName, item).categories == c.categories;
  }

  /** `removeItem` with a name no category has returns the input unchanged. */
  lemma RemoveItemNoMatch(c: Config, categoryName: string, itemName: string)
    requires NoCategoryNamed(c.categories, categoryName)
    ensures RemoveItem(c, categoryName, itemName) == c
  {
    assert RemoveItem(c, categoryName, itemName).categories == c.categories;
  }

  /** `removeItem` with an item name that no category named `categoryName`
      holds returns the input unchanged. */
  lemma RemoveItemNoItem(c: Config, categoryName: string, itemName: string)
    requires forall i, k :: 0 <= i < |c.categories| && c.categories[i].name == categoryName && 0 <= k < |c.categories[i].items| ==>
      c.categories[i].items[k].name != itemName
    ensures RemoveItem(c, categoryName, itemName) == c
  {
    var r := RemoveItem(c, categoryName, itemName);
    forall i | 0 <= i < |c.categories| && c.categories[i].name == categoryName
      ensures r.categories[i] == c.categories[i]
    {
      Seqs.FilterKeepsAll(c.categories[i].items, NotNamedItem(itemName));
    }
    assert r.categories == c.categories;
  }

  /** `removeCategory` with a name no category has returns the input unchanged. */
  lemma RemoveCategoryNoMatch(c: Config, categoryName: string)
    requires NoCategoryNamed(c.categories, categoryName)
    ensures RemoveCategory(c, categoryName) == c
  {
    Seqs.FilterKeepsAll(c.categories, NotNamedCategory(categoryName));
  }

  /** After `removeCategory`, no category of that name is left, and when one
      was there the list got strictly shorter. */
  lemma {:induction false} RemoveCategoryRemovesAll(c: Config, categoryName: string)
    ensures NoCategoryNamed(RemoveCategory(c, categoryName).categories, categoryName)
    ensures !NoCategoryNamed(c.categories, categoryName) ==>
      |RemoveCategory(c, categoryName).categories| < |c.categories|
  {
    var r := RemoveCategory(c, categoryName).categories;
    forall i | 0 <= i < |r| ensures r[i].name != categoryName {
      assert r[i] in r;
    }
    if !NoCategoryNamed(c.categories, categoryName) {
      var k :| 0 <= k < |c.categories| && c.categories[k].name == categoryName;
      Seqs.FilterDrops(c.categories, NotNamedCategory(categoryName), k);
    }
  }

  /** Applying `removeItem` twice is applying it once. */
  lemma {:induction false} RemoveItemIdempotent(c: Config, categoryName: string, itemName: string)
    ensures RemoveItem(RemoveItem(c, categoryName, itemName), categoryName, itemName)
         == RemoveItem(c, categoryName, itemName)
  {
    var once := RemoveItem(c, categoryName, itemName);
    var twice := RemoveItem(once, categoryName, itemName);
    forall i | 0 <= i < |c.categories| ensures twice.categories[i] == once.categories[i] {
      if c.categories[i].name == categoryName {
        Seqs.FilterIdempotent(c.categories[i].items, NotNamedItem(itemName));
      }
    }
    assert twice.categories == once.categories;
  }

  /** Applying `removeCategory` twice is applying it once. */
  lemma RemoveCategoryIdempotent(c: Config, categoryName: string)
    ensures RemoveCategory(RemoveCategory(c, categoryName), categoryName) == RemoveCategory(c, categoryName)
  {
    Seqs.FilterIdempotent(c.categories, NotNamedCategory(categoryName));
  }

  /** Removing by name undoes an `addItem` of an item with that name, as far
      as the result of the removal goes: the added item leaves no trace. */
  lemma {:induction false} RemoveItemUndoesAddItem(c: Config, categoryName: string, item: Item)
    ensures RemoveItem(AddItem(c, categoryName, item), categoryName, item.name)
         == RemoveItem(c, categoryName, item.name)
  {
    var added := AddItem(c, categoryName, item);
    var lhs := RemoveItem(added, categoryName, item.name);
    var rhs := RemoveItem(c, categoryName, item.name);
    forall i | 0 <= i < |c.categories| ensures lhs.categories[i] == rhs.categories[i] {
      if c.categories[i].name == categoryName {
        var keep := NotNamedItem(item.name);
        Seqs.FilterConcat(c.categories[i].items, [item], keep);
        assert Seqs.Filter([item], keep) == [];
      }
    }
    assert lhs.categories == rhs.categories;
  }

  /** Removing by name undoes an `addCategory` with that name, as far as the
      result of the removal goes. */
  lemma RemoveCategoryUndoesAddCategory(c: Config, name: string, icon: string)
    ensures RemoveCategory(AddCategory(c, name, icon), name) == RemoveCategory(c, name)
  {
    var keep := NotNamedCategory(name);
    Seqs.FilterConcat(c.categories, [Category(name, icon, [])], keep);
    assert Seqs.Filter([Category(name, icon, [])], keep) == [];
  }

  /** The scenarios of the store's own tests, on the seed configuration. */
  lemma SeedScenarios()
    ensures var seed := Config("assets/dock-icon.png", Position(100, 300),
                               [Category("Tools", "\U{1F527}", [Item("VS Code", "exe", "C:\\code.exe", "auto")])], map[]);
      && |AddCategory(seed, "Games", "\U{1F3AE}").categories| == 2
      && AddCategory(seed, "Games", "\U{1F3AE}").categories[1] == Category("Games", "\U{1F3AE}", [])
      && |AddItem(seed, "Tools", Item("Node", "exe", "node.exe", "auto")).categories[0].items| == 2
      && AddItem(seed, "Tools", Item("Node", "exe", "node.exe", "auto")).categories[0].items[1].name == "Node"
      && RemoveItem(seed, "Tools", "VS Code").categories[0].items == []
      && RemoveCategory(seed, "Tools").categories == []
  {
    var seed := Config("assets/dock-icon.png", Position(100, 300),
                       [Category("Tools", "\U{1F527}", [Item("VS Code", "exe", "C:\\code.exe", "auto")])], map[]);
    var tools := seed.categories[0];
    assert ItemsWithout(tools.items, "VS Code") == Seqs.Filter(tools.items, NotNamedItem("VS Code"));
    RemoveCategoryRemovesAll(seed, "Tools");
  }
}
