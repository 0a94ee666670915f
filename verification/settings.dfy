/** The settings editor. Unlike the store's name-based functions, its click
    and change handlers edit the loaded configuration in place, by position:
    `push` appends, `splice(i, 1)` deletes exactly one entry, and a field
    assignment changes one field. Each edit is a function on the category
    list here; the page's methods apply them to its configuration. */
module Settings {
  import opened ConfigStore
  import Seqs
  import Launcher

  /** What "+ Item" appends. */
  const NewItem: Item := Item("New Item", "exe", "", "auto")

  /** What "Add category" appends. */
  const NewCategory: Category := Category("New Category", "\U{1F4C1}", [])

  /** The entries of the type selector, in display order. */
  const TypeOptions: seq<string> := ["exe", "lnk", "shell", "url", "folder"]

  /** The item inputs of one row. */
  datatype ItemField = ItemName | ItemType | ItemPath | ItemIcon

  /** The inputs of a category header. */
  datatype CategoryField = CategoryName | CategoryIcon

  function ItemFieldValue(it: Item, f: ItemField): string {
    match f
    case ItemName => it.name
    case ItemType => it.kind
    case ItemPath => it.path
    case ItemIcon => it.icon
  }

  /** `item.<field> = value`: that field becomes `value`, the others stay. */
  function WithItemField(it: Item, f: ItemField, v: string): (r: Item)
    ensures ItemFieldValue(r, f) == v
    ensures forall g :: g != f ==> ItemFieldValue(r, g) == ItemFieldValue(it, g)
  {
    match f
    case ItemName => it.(name := v)
    case ItemType => it.(kind := v)
    case ItemPath => it.(path := v)
    case ItemIcon => it.(icon := v)
  }

  function CategoryFieldValue(cat: Category, f: CategoryField): string {
    match f
    case CategoryName => cat.name
    case CategoryIcon => cat.icon
  }

  /** `category.<field> = value`: that field becomes `value`; the other
      field and the items stay. */
  function WithCategoryField(cat: Category, f: CategoryField, v: string): (r: Category)
    ensures CategoryFieldValue(r, f) == v
    ensures forall g :: g != f ==> CategoryFieldValue(r, g) == CategoryFieldValue(cat, g)
    ensures r.items == cat.items
  {
    match f
    case CategoryName => cat.(name := v)
    case CategoryIcon => cat.(icon := v)
  }

  /** Every item of every category has a type the resolver accepts. */
  predicate AllTypesKnown(cats: seq<Category>) {
    forall i, j :: 0 <= i < |cats| && 0 <= j < |cats[i].items| ==> cats[i].items[j].kind in Launcher.KnownTypes
  }

  /** "+ Item" on category `catIndex`. */
  function PushItem(cats: seq<Category>, catIndex: nat): (r: seq<Category>)
    requires catIndex < |cats|
    ensures |r| == |cats|
    ensures r[catIndex].name == cats[catIndex].name && r[catIndex].icon == cats[catIndex].icon
    ensures r[catIndex].items == cats[catIndex].items + [NewItem]
    ensures forall j :: 0 <= j < |cats| && j != catIndex ==> r[j] == cats[j]
    ensures AllTypesKnown(cats) ==> AllTypesKnown(r)
  {
    var cat := cats[catIndex];
    cats[catIndex := cat.(items := cat.items + [NewItem])]
  }

  /** "Add category". */
  function PushCategory(cats: seq<Category>): (r: seq<Category>)
    ensures |r| == |cats| + 1
    ensures r[..|cats|] == cats && r[|cats|] == NewCategory
    ensures AllTypesKnown(cats) ==> AllTypesKnown(r)
  {
    cats + [NewCategory]
  }

  /** The category delete button: `categories.splice(catIndex, 1)`. */
  function SpliceCategory(cats: seq<Category>, catIndex: nat): (r: seq<Category>)
    requires catIndex < |cats|
    ensures |r| == |cats| - 1
    ensures forall j :: 0 <= j < catIndex ==> r[j] == cats[j]
    ensures forall j :: catIndex <= j < |r| ==> r[j] == cats[j + 1]
    ensures AllTypesKnown(cats) ==> AllTypesKnown(r)
  {
    Seqs.RemoveAt(cats, catIndex)
  }

  /** The item delete button: `items.splice(itemIndex, 1)` in category `catIndex`. */
  function SpliceItem(cats: seq<Category>, catIndex: nat, itemIndex: nat): (r: seq<Category>)
    requires catIndex < |cats| && itemIndex < |cats[catIndex].items|
    ensures |r| == |cats|
    ensures r[catIndex].name == cats[catIndex].name && r[catIndex].icon == cats[catIndex].icon
    ensures |r[catIndex].items| == |cats[catIndex].items| - 1
    ensures forall k :: 0 <= k < itemIndex ==> r[catIndex].items[k] == cats[catIndex].items[k]
    ensures forall k :: itemIndex <= k < |r[catIndex].items| ==> r[catIndex].items[k] == cats[catIndex].items[k + 1]
    ensures forall j :: 0 <= j < |cats| && j != catIndex ==> r[j] == cats[j]
    ensures AllTypesKnown(cats) ==> AllTypesKnown(r)
  {
    var cat := cats[catIndex];
    cats[catIndex := cat.(items := Seqs.RemoveAt(cat.items, itemIndex))]
  }

  /** A change in a category header's icon or name input. */
  function AssignCategoryField(cats: seq<Category>, catIndex: nat, f: CategoryField, v: string): (r: seq<Category>)
    requires catIndex < |cats|
    ensures |r| == |cats|
    ensures CategoryFieldValue(r[catIndex], f) == v
    ensures forall g :: g != f ==> CategoryFieldValue(r[catIndex], g) == CategoryFieldValue(cats[catIndex], g)
    ensures r[catIndex].items == cats[catIndex].items
    ensures forall j :: 0 <= j < |cats| && j != catIndex ==> r[j] == cats[j]
    ensures AllTypesKnown(cats) ==> AllTypesKnown(r)
  {
    cats[catIndex := WithCategoryField(cats[catIndex], f, v)]
  }

  /** A change in one of an item row's inputs. */
  function AssignItemField(cats: seq<Category>, catIndex: nat, itemIndex: nat, f: ItemField, v: string): (r: seq<Category>)
    requires catIndex < |cats| && itemIndex < |cats[catIndex].items|
    ensures |r| == |cats|
    ensures r[catIndex].name == cats[catIndex].name && r[catIndex].icon == cats[catIndex].icon
    ensures |r[catIndex].items| == |cats[catIndex].items|
    ensures ItemFieldValue(r[catIndex].items[itemIndex], f) == v
    ensures forall g :: g != f ==>
      ItemFieldValue(r[catIndex].items[itemIndex], g) == ItemFieldValue(cats[catIndex].items[itemIndex], g)
    ensures forall k :: 0 <= k < |cats[catIndex].items| && k != itemIndex ==>
      r[catIndex].items[k] == cats[catIndex].items[k]
    ensures forall j :: 0 <= j < |cats| && j != catIndex ==> r[j] == cats[j]
    ensures AllTypesKnown(cats) && (f == ItemType ==> v in TypeOptions) ==> AllTypesKnown(r)
  {
    var cat := cats[catIndex];
    cats[catIndex := cat.(items := cat.items[itemIndex := WithItemField(cat.items[itemIndex], f, v)])]
  }

  /** The selector offers exactly the types the resolver accepts. */
  lemma TypeOptionsAreKnownTypes()
    ensures forall t :: t in TypeOptions <==> t in Launcher.KnownTypes
  {
  }

  /** A type picked in the selector always makes the item launchable. */
  lemma TypeEditIsLaunchable(cats: seq<Category>, catIndex: nat, itemIndex: nat, v: string)
    requires catIndex < |cats| && itemIndex < |cats[catIndex].items|
    requires v in TypeOptions
    ensures Launcher.BuildLaunchCommand(AssignItemField(cats, catIndex, itemIndex, ItemType, v)[catIndex].items[itemIndex]).Ok?
  {
  }

  /** Deleting by position keeps every other entry, including one with the
      same name, whereas the store's `removeCategory` drops every namesake. */
  lemma SpliceKeepsNamesakes(c: Config, catIndex: nat, j: nat)
    requires catIndex < |c.categories| && j < |c.categories| && j != catIndex
    requires c.categories[j].name == c.categories[catIndex].name
    ensures c.categories[j] in SpliceCategory(c.categories, catIndex)
    ensures c.categories[j] !in RemoveCategory(c, c.categories[catIndex].name).categories
  {
    var r := SpliceCategory(c.categories, catIndex);
    if j < catIndex {
      assert r[j] == c.categories[j];
    } else {
      assert r[j - 1] == c.categories[j];
    }
  }

  /** The category at `catIndex` is the only one with its name. */
  predicate UniqueCategoryName(cats: seq<Category>, catIndex: nat)
    requires catIndex < |cats|
  {
    forall j :: 0 <= j < |cats| && j != catIndex ==> cats[j].name != cats[catIndex].name
  }

  /** When names are unique, "+ Item" does what the store's `addItem` does. */
  lemma PushItemMatchesAddItem(c: Config, catIndex: nat)
    requires catIndex < |c.categories| && UniqueCategoryName(c.categories, catIndex)
    ensures AddItem(c, c.categories[catIndex].name, NewItem).categories == PushItem(c.categories, catIndex)
  {
    var a := AddItem(c, c.categories[catIndex].name, NewItem).categories;
    var p := PushItem(c.categories, catIndex);
    assert forall j :: 0 <= j < |a| ==> a[j] == p[j];
  }

  /** "Add category" is the store's `addCategory` with the default name and icon. */
  lemma PushCategoryMatchesAddCategory(c: Config)
    ensures AddCategory(c, "New Category", "\U{1F4C1}").categories == PushCategory(c.categories)
  {
  }

  /** When the category name and the item name are both unique, deleting the
      item by position does what the store's `removeItem` does by name. */
  lemma SpliceItemMatchesRemoveItem(c: Config, catIndex: nat, itemIndex: nat)
    requires catIndex < |c.categories| && UniqueCategoryName(c.categories, catIndex)
    requires itemIndex < |c.categories[catIndex].items|
    requires forall k :: 0 <= k < |c.categories[catIndex].items| && k != itemIndex ==>
      c.categories[catIndex].items[k].name != c.categories[catIndex].items[itemIndex].name
    ensures RemoveItem(c, c.categories[catIndex].name, c.categories[catIndex].items[itemIndex].name).categories
         == SpliceItem(c.categories, catIndex, itemIndex)
  {
    var items := c.categories[catIndex].items;
    Seqs.FilterRejectsOnly(items, NotNamedItem(items[itemIndex].name), itemIndex);
    var lhs := RemoveItem(c, c.categories[catIndex].name, items[itemIndex].name).categories;
    var rhs := SpliceItem(c.categories, catIndex, itemIndex);
    assert forall j :: 0 <= j < |lhs| ==> lhs[j] == rhs[j];
  }

  /** The settings page: the configuration it loaded, edited in place by its
      handlers. Saving after each edit is not modelled. */
  class SettingsPage {
    var config: Config

    /** `init`: the configuration handed over by the main process. */
    constructor (loaded: Config)
      ensures config == loaded
    {
      config := loaded;
    }

    /** "+ Item" of category `catIndex`. */
    method AddItem(catIndex: nat)
      requires catIndex < |config.categories|
      modifies this
      ensures config == old(config).(categories := PushItem(old(config.categories), catIndex))
    {
      config := config.(categories := PushItem(config.categories, catIndex));
    }

    /** `addCategory`. */
    method AddCategory()
      modifies this
      ensures config == old(config).(categories := PushCategory(old(config.categories)))
    {
      config := config.(categories := PushCategory(config.categories));
    }

    /** The delete button of category `catIndex`. */
    method DeleteCategory(catIndex: nat)
      requires catIndex < |config.categories|
      modifies this
      ensures config == old(config).(categories := SpliceCategory(old(config.categories), catIndex))
    {
      config := config.(categories := SpliceCategory(config.categories, catIndex));
    }

    /** The delete button of item `itemIndex` of category `catIndex`. */
    method DeleteItem(catIndex: nat, itemIndex: nat)
      requires catIndex < |config.categories| && itemIndex < |config.categories[catIndex].items|
      modifies this
      ensures config == old(config).(categories := SpliceItem(old(config.categories), catIndex, itemIndex))
    {
      config := config.(categories := SpliceItem(config.categories, catIndex, itemIndex));
    }

    /** A change event on a category's icon or name input. */
    method EditCategory(catIndex: nat, f: CategoryField, v: string)
      requires catIndex < |config.categories|
      modifies this
      ensures config == old(config).(categories := AssignCategoryField(old(config.categories), catIndex, f, v))
    {
      config := config.(categories := AssignCategoryField(config.categories, catIndex, f, v));
    }

    /** A change event on an item's name, type, path or icon input; the type
        comes from the selector, so it is one of its options. */
    method EditItem(catIndex: nat, itemIndex: nat, f: ItemField, v: string)
      requires catIndex < |config.categories| && itemIndex < |config.categories[catIndex].items|
      requires f == ItemType ==> v in TypeOptions
      modifies this
      ensures config == old(config).(categories := AssignItemField(old(config.categories), catIndex, itemIndex, f, v))
      ensures AllTypesKnown(old(config.categories)) ==> AllTypesKnown(config.categories)
    {
      config := config.(categories := AssignItemField(config.categories, catIndex, itemIndex, f, v));
    }
  }
}
