/**
 * The two linked drop-downs of `SchemaTypeSelector.tsx`: a category list and
 * the list of types in the chosen category. Choosing a category selects its
 * first type; a change of the selected type moves the category list to the
 * category that lists it. Selections are reported through the
 * `onTypeSelect` callback, modelled as the value a handler returns.
 */
module SchemaTypeSelector {
  import opened Wrappers
  import opened SchemaTypes

  const DefaultCategory: string := "Business & Organizations"
  const DefaultType: string := "LocalBusiness"

  /** The first index from `from` on whose category lists the type name `s`. */
  function TypeIndexFrom(cats: seq<Category>, s: string, from: nat): (r: Option<nat>)
    requires from <= |cats|
    ensures r.Some? ==> from <= r.value < |cats| && s in cats[r.value].types
    ensures r.Some? ==> forall j :: from <= j < r.value ==> s !in cats[j].types
    ensures r.None? ==> forall j :: from <= j < |cats| ==> s !in cats[j].types
    decreases |cats| - from
  {
    if from == |cats| then None
    else if s in cats[from].types then Some(from)
    else TypeIndexFrom(cats, s, from + 1)
  }

  /** The first index from `from` on whose category is called `name`. */
  function NameIndexFrom(cats: seq<Category>, name: string, from: nat): (r: Option<nat>)
    requires from <= |cats|
    ensures r.Some? ==> from <= r.value < |cats| && cats[r.value].name == name
    ensures r.Some? ==> forall j :: from <= j < r.value ==> cats[j].name != name
    ensures r.None? ==> forall j :: from <= j < |cats| ==> cats[j].name != name
    decreases |cats| - from
  {
    if from == |cats| then None
    else if cats[from].name == name then Some(from)
    else NameIndexFrom(cats, name, from + 1)
  }

  /** `schemaTypeCategories.find(cat => cat.types.includes(s))` */
  function CategoryOfType(s: string): Option<Category>
  {
    match TypeIndexFrom(SchemaTypeCategories, s, 0)
    case Some(i) => Some(SchemaTypeCategories[i])
    case None => None
  }

  /** `schemaTypeCategories.find(cat => cat.name === name)` */
  function CategoryNamed(name: string): Option<Category>
  {
    match NameIndexFrom(SchemaTypeCategories, name, 0)
    case Some(i) => Some(SchemaTypeCategories[i])
    case None => None
  }

  /** `currentCategoryTypes`: the types offered for the selected category, none for an unknown name. */
  function CurrentCategoryTypes(selectedCategory: string): seq<string>
  {
    match CategoryNamed(selectedCategory)
    case Some(c) => c.types
    case None => []
  }

  /** The type `handleCategoryChange` selects: the category's first type, if it has a non-empty one. */
  function FirstTypeIn(name: string): Option<string>
  {
    match CategoryNamed(name)
    case Some(c) => if c.types != [] && c.types[0] != "" then Some(c.types[0]) else None
    case None => None
  }

  /** The category names are pairwise distinct. */
  lemma CategoryNamesDistinct()
    ensures forall i, j :: 0 <= i < j < |SchemaTypeCategories| ==> SchemaTypeCategories[i].name != SchemaTypeCategories[j].name
  {
  }

  /** A type's category is found, and it is the one the type is listed under. */
  lemma TypeFindsHome(t: SchemaType)
    ensures CategoryOfType(TypeName(t)) == Some(SchemaTypeCategories[Home(t)])
  {
    CategoriesPartition();
  }

  /** Every category is found by its own name. */
  lemma NameFindsCategory(c: nat)
    requires c < |SchemaTypeCategories|
    ensures CategoryNamed(SchemaTypeCategories[c].name) == Some(SchemaTypeCategories[c])
  {
    CategoryNamesDistinct();
  }

  /** A name that no category has offers no type and selects none. */
  lemma UnknownCategoryOffersNothing(name: string)
    requires forall c :: 0 <= c < |SchemaTypeCategories| ==> SchemaTypeCategories[c].name != name
    ensures CurrentCategoryTypes(name) == []
    ensures FirstTypeIn(name) == None
  {
  }

  /** Every offered type names a schema type, so the type list's cast to a type always succeeds. */
  lemma OfferedTypesAreTypes(name: string)
    ensures forall s :: s in CurrentCategoryTypes(name) ==> ParseType(s).Some?
  {
    CategoriesPartition();
    var r := NameIndexFrom(SchemaTypeCategories, name, 0);
    if r.Some? {
      assert CurrentCategoryTypes(name) == SchemaTypeCategories[r.value].types;
    }
  }

  /**
   * Choosing a known category selects its first type, which names a schema
   * type, and the category sync that the selection triggers lands on the
   * chosen category again.
   */
  lemma ChangeThenSync(c: nat)
    requires c < |SchemaTypeCategories|
    ensures FirstTypeIn(SchemaTypeCategories[c].name).Some?
    ensures ParseType(FirstTypeIn(SchemaTypeCategories[c].name).value).Some?
    ensures CategoryOfType(FirstTypeIn(SchemaTypeCategories[c].name).value) == Some(SchemaTypeCategories[c])
  {
    NameFindsCategory(c);
    assert SchemaTypeCategories[c].types != [];
    CategoryMembersListed(c, 0);
    var t := CategoryMembers[c][0];
    ParseTypeName(t);
    TypeFindsHome(t);
  }

  /** Once synced to a type, the type list offers that type and the first selection stays on the list. */
  lemma SelectedTypeIsOffered(t: SchemaType)
    ensures TypeName(t) in CurrentCategoryTypes(CategoryOfType(TypeName(t)).value.name)
  {
    TypeFindsHome(t);
    HomeListsType(t);
    NameFindsCategory(Home(t));
  }

  /** The selector's own state: the category drop-down's value. */
  class Selector {
    var selectedCategory: string

    /** `useState(defaultCategory)` */
    constructor()
      ensures selectedCategory == DefaultCategory
    {
      selectedCategory := DefaultCategory;
    }

    /** The types the second drop-down offers. */
    function Offered(): seq<string>
      reads this
    {
      CurrentCategoryTypes(selectedCategory)
    }

    /** The mount effect: with no type selected, select the default category and type. */
    method Mount(selectedType: string) returns (select: Option<string>)
      modifies this
      ensures selectedType == "" ==> selectedCategory == DefaultCategory && select == Some(DefaultType)
      ensures selectedType != "" ==> selectedCategory == old(selectedCategory) && select == None
    {
      select := None;
      if selectedType == "" {
        selectedCategory := DefaultCategory;
        select := Some(DefaultType);
      }
    }

    /** The effect on a new `selectedType`: move to the first category listing it, if any. */
    method SyncCategory(selectedType: string)
      modifies this
      ensures selectedCategory == match CategoryOfType(selectedType)
                                  case Some(c) => c.name
                                  case None => old(selectedCategory)
    {
      match CategoryOfType(selectedType)
      case Some(c) => selectedCategory := c.name;
      case None =>
    }

    /** `handleCategoryChange`: take the new category and report its first type, if any. */
    method HandleCategoryChange(newCategory: string) returns (select: Option<string>)
      modifies this
      ensures selectedCategory == newCategory
      ensures select == FirstTypeIn(newCategory)
    {
      selectedCategory := newCategory;
      match CategoryNamed(newCategory)
      case Some(c) =>
        select := if c.types != [] && c.types[0] != "" then Some(c.types[0]) else None;
      case None =>
        select := None;
    }

    /** `handleTypeChange`: the chosen option is reported as it is. */
    method HandleTypeChange(value: string) returns (select: string)
      ensures value in Offered() ==> ParseType(select).Some?
      ensures select == value
    {
      OfferedTypesAreTypes(selectedCategory);
      select := value;
    }
  }
}
