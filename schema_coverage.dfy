/**
 * What is true of the seventeen tables: every field tree is well formed, and
 * the field tree and the zod rule tree of a type describe the same data
 * (the same keys in the same order, `required` exactly where the rule is not
 * `.optional()`, and a rule of the kind the input produces), so the values
 * the form collects are exactly the values the rule checks.
 */
module SchemaCoverage {
  import opened Wrappers
  import opened Values
  import opened Zod
  import opened SchemaTypes

  predicate IsGroup(k: FieldType)
  {
    k == Object || k == Array
  }

  predicate DistinctNames(fs: seq<SchemaField>)
  {
    forall i, j :: 0 <= i < j < |fs| ==> fs[i].name != fs[j].name
  }

  /**
   * A field has a name, it has subfields exactly when it is an object or an
   * array, a group is never empty, sibling names are distinct, and nothing
   * nests deeper than `depth` levels (a plain input being one level).
   */
  predicate WellFormedField(f: SchemaField, depth: nat)
    decreases f
  {
    depth >= 1 && f.name != "" &&
    (f.subfields.Present? <==> IsGroup(f.kind)) &&
    (f.subfields.Present? ==>
      f.subfields.fields != [] && DistinctNames(f.subfields.fields) &&
      forall i :: 0 <= i < |f.subfields.fields| ==> WellFormedField(f.subfields.fields[i], depth - 1))
  }

  /** A type's field list: distinct names, and at most three levels deep. */
  predicate WellFormedFields(fs: seq<SchemaField>)
  {
    DistinctNames(fs) && forall i :: 0 <= i < |fs| ==> WellFormedField(fs[i], 3)
  }

  /**
   * The paths of the values a field tree describes: an object field
   * contributes the paths of its subfields under its own name; any other
   * field, an array included, is one value at its own path.
   */
  function FieldLeafPaths(fs: seq<SchemaField>, at: Path): seq<Path>
    decreases fs, 0
  {
    if fs == [] then [] else FieldLeaves(fs[0], at) + FieldLeafPaths(fs[1..], at)
  }

  function FieldLeaves(f: SchemaField, at: Path): seq<Path>
    decreases f, 1
  {
    if f.kind == Object && f.subfields.Present? then FieldLeafPaths(f.subfields.fields, at + [Key(f.name)])
    else [at + [Key(f.name)]]
  }

  /** The paths of the values a rule tree checks: object rules are entered, anything else is one value. */
  function RuleLeafPaths(r: Rule, at: Path): seq<Path>
    decreases r, 1
  {
    match r
    case ZOptional(inner) => RuleLeafPaths(inner, at)
    case ZObject(shape) => ShapeLeafPaths(shape, at)
    case _ => [at]
  }

  function ShapeLeafPaths(shape: seq<Prop>, at: Path): seq<Path>
    decreases shape, 0
  {
    if shape == [] then []
    else RuleLeafPaths(shape[0].rule, at + [Key(shape[0].key)]) + ShapeLeafPaths(shape[1..], at)
  }

  /** A rule with one `.optional()` taken off. */
  function Unwrap(r: Rule): Rule
  {
    if r.ZOptional? then r.inner else r
  }

  /** The field list and the object shape name the same keys in the same order, and each pair agrees. */
  predicate FieldsAgree(fs: seq<SchemaField>, shape: seq<Prop>)
    decreases fs, 0
  {
    |fs| == |shape| && forall i :: 0 <= i < |fs| ==> FieldAgrees(fs[i], shape[i])
  }

  /** Same key; `required` exactly when the rule is not `.optional()`; a rule of the field's kind. */
  predicate FieldAgrees(f: SchemaField, p: Prop)
    decreases f, 2
  {
    f.name == p.key &&
    (f.required <==> !p.rule.ZOptional?) &&
    KindAgrees(f, Unwrap(p.rule))
  }

  /**
   * The rule checks what the input produces: a text input is at most required
   * to be non-empty or an e-mail address, a url input has exactly one URL
   * check, a date input is at most required to be non-empty or to match the
   * date pattern, a number input is a number, an object is an object of
   * agreeing fields and an array an array of such objects.
   */
  predicate KindAgrees(f: SchemaField, r: Rule)
    decreases f, 1
  {
    match f.kind
    case Text =>
      r.ZString? && forall i :: 0 <= i < |r.stringChecks| ==> r.stringChecks[i].NonEmpty? || r.stringChecks[i].Email?
    case Url =>
      r.ZString? && |r.stringChecks| == 1 && r.stringChecks[0].Url?
    case Date =>
      r.ZString? && forall i :: 0 <= i < |r.stringChecks| ==> r.stringChecks[i].NonEmpty? || r.stringChecks[i].DateFormat?
    case DateTimeLocal =>
      r.ZString? && forall i :: 0 <= i < |r.stringChecks| ==> r.stringChecks[i].NonEmpty? || r.stringChecks[i].DateFormat?
    case Number => r.ZNumber?
    case Object =>
      r.ZObject? && f.subfields.Present? && FieldsAgree(f.subfields.fields, r.shape)
    case Array =>
      r.ZArray? && r.element.ZObject? && f.subfields.Present? && FieldsAgree(f.subfields.fields, r.element.shape)
  }

  /** Agreeing trees describe the same values: the field tree's paths are the rule tree's, in order. */
  lemma {:induction false} LeafPathsAgree(fs: seq<SchemaField>, shape: seq<Prop>, at: Path)
    requires FieldsAgree(fs, shape)
    ensures FieldLeafPaths(fs, at) == ShapeLeafPaths(shape, at)
    decreases fs, 0
  {
    if fs != [] {
      FieldLeavesAgree(fs[0], shape[0], at);
      assert forall i :: 0 <= i < |fs[1..]| ==> fs[1..][i] == fs[i + 1] && shape[1..][i] == shape[i + 1];
      LeafPathsAgree(fs[1..], shape[1..], at);
    }
  }

  lemma {:induction false} FieldLeavesAgree(f: SchemaField, p: Prop, at: Path)
    requires FieldAgrees(f, p)
    ensures FieldLeaves(f, at) == RuleLeafPaths(p.rule, at + [Key(p.key)])
    decreases f, 1
  {
    var here := at + [Key(p.key)];
    var r := Unwrap(p.rule);
    assert RuleLeafPaths(p.rule, here) == RuleLeafPaths(r, here);
    if f.kind == Object {
      LeafPathsAgree(f.subfields.fields, r.shape, here);
    }
  }

  /**
   * A well-formed field tree makes the rule tree that agrees with it well
   * formed too: every `z.object` names each key once.
   */
  lemma {:induction false} AgreeingShapeWellFormed(fs: seq<SchemaField>, shape: seq<Prop>, depth: nat)
    requires FieldsAgree(fs, shape)
    requires DistinctNames(fs)
    requires forall i :: 0 <= i < |fs| ==> WellFormedField(fs[i], depth)
    ensures WellFormedRule(ZObject(shape))
    decreases fs, 0
  {
    forall i | 0 <= i < |shape| ensures WellFormedRule(shape[i].rule) {
      FieldRuleWellFormed(fs[i], shape[i], depth);
    }
  }

  lemma {:induction false} FieldRuleWellFormed(f: SchemaField, p: Prop, depth: nat)
    requires FieldAgrees(f, p)
    requires WellFormedField(f, depth)
    ensures WellFormedRule(p.rule)
    decreases f, 1
  {
    var r := Unwrap(p.rule);
    if f.kind == Object {
      AgreeingShapeWellFormed(f.subfields.fields, r.shape, depth - 1);
    } else if f.kind == Array {
      AgreeingShapeWellFormed(f.subfields.fields, r.element.shape, depth - 1);
    }
  }

  /**
   * What a type's two tables give together: the form's value paths are the
   * rule's, in order, and the rule names each key once.
   */
  lemma {:induction false} TablesConsistent(c: SchemaTypeConfig)
    requires c.zodSchema.ZObject?
    requires WellFormedFields(c.fields)
    requires FieldsAgree(c.fields, c.zodSchema.shape)
    ensures FieldLeafPaths(c.fields, []) == RuleLeafPaths(c.zodSchema, [])
    ensures WellFormedRule(c.zodSchema)
  {
    LeafPathsAgree(c.fields, c.zodSchema.shape, []);
    AgreeingShapeWellFormed(c.fields, c.zodSchema.shape, 3);
  }

  /** The depth bound is tight: Article's `publisher.logo.url` is three levels deep. */
  lemma ArticleIsThreeDeep()
    ensures !WellFormedField(ArticleConfig.fields[6], 2)
  {
    var logo := ArticleConfig.fields[6].subfields.fields[1];
    assert !WellFormedField(logo.subfields.fields[0], 0);
    assert !WellFormedField(logo, 1);
  }

  /** The postal address group, shared by four types, agrees with its rule. */
  lemma AddressGroupAgrees()
    ensures FieldAgrees(Nested("address", Object, true, AddressFields), Prop("address", AddressRule))
  {
  }

  lemma AddressGroupWellFormed()
    ensures WellFormedField(Nested("address", Object, true, AddressFields), 3)
  {
  }

  // The tables, type by type: `<Type>Agrees` checks the two trees against
  // each other (one top-level field at a time), `<Type>Nesting` the shape and
  // depth of every field, `<Type>Names` that sibling names are distinct.

  lemma LocalBusinessAgrees()
    ensures LocalBusinessConfig.zodSchema.ZObject?
    ensures FieldsAgree(LocalBusinessConfig.fields, LocalBusinessConfig.zodSchema.shape)
  {
    AddressGroupAgrees();
    var fs, sh := LocalBusinessConfig.fields, LocalBusinessConfig.zodSchema.shape;
    forall i | 0 <= i < |fs| ensures FieldAgrees(fs[i], sh[i]) {
      if i == 0 {} else if i == 1 {} else if i == 2 {} else {}
    }
  }

  lemma LocalBusinessNesting()
    ensures forall i :: 0 <= i < |LocalBusinessConfig.fields| ==> WellFormedField(LocalBusinessConfig.fields[i], 3)
  {
    AddressGroupWellFormed();
  }

  lemma LocalBusinessNames()
    ensures DistinctNames(LocalBusinessConfig.fields)
  {
  }

  lemma ProductAgrees()
    ensures ProductConfig.zodSchema.ZObject?
    ensures FieldsAgree(ProductConfig.fields, ProductConfig.zodSchema.shape)
  {
    var fs, sh := ProductConfig.fields, ProductConfig.zodSchema.shape;
    forall i | 0 <= i < |fs| ensures FieldAgrees(fs[i], sh[i]) {
      if i == 0 {} else if i == 1 {} else if i == 2 {} else if i == 3 {} else if i == 4 {} else {}
    }
  }

  lemma ProductNesting()
    ensures forall i :: 0 <= i < |ProductConfig.fields| ==> WellFormedField(ProductConfig.fields[i], 3)
  {
  }

  lemma ProductNames()
    ensures DistinctNames(ProductConfig.fields)
  {
  }

  lemma ArticleAgrees()
    ensures ArticleConfig.zodSchema.ZObject?
    ensures FieldsAgree(ArticleConfig.fields, ArticleConfig.zodSchema.shape)
  {
    var fs, sh := ArticleConfig.fields, ArticleConfig.zodSchema.shape;
    forall i | 0 <= i < |fs| ensures FieldAgrees(fs[i], sh[i]) {
      if i == 0 {} else if i == 1 {} else if i == 2 {} else if i == 3 {} else if i == 4 {} else if i == 5 {} else if i == 6 {} else {}
    }
  }

  lemma ArticleNesting()
    ensures forall i :: 0 <= i < |ArticleConfig.fields| ==> WellFormedField(ArticleConfig.fields[i], 3)
  {
  }

  lemma ArticleNames()
    ensures DistinctNames(ArticleConfig.fields)
  {
  }

  lemma EventAgrees()
    ensures EventConfig.zodSchema.ZObject?
    ensures FieldsAgree(EventConfig.fields, EventConfig.zodSchema.shape)
  {
    var fs, sh := EventConfig.fields, EventConfig.zodSchema.shape;
    forall i | 0 <= i < |fs| ensures FieldAgrees(fs[i], sh[i]) {
      if i == 0 {} else if i == 1 {} else if i == 2 {} else if i == 3 {} else if i == 4 {} else if i == 5 {} else {}
    }
  }

  lemma EventNesting()
    ensures forall i :: 0 <= i < |EventConfig.fields| ==> WellFormedField(EventConfig.fields[i], 3)
  {
  }

  lemma EventNames()
    ensures DistinctNames(EventConfig.fields)
  {
  }

  lemma RecipeAgrees()
    ensures RecipeConfig.zodSchema.ZObject?
    ensures FieldsAgree(RecipeConfig.fields, RecipeConfig.zodSchema.shape)
  {
    var fs, sh := RecipeConfig.fields, RecipeConfig.zodSchema.shape;
    forall i | 0 <= i < |fs| ensures FieldAgrees(fs[i], sh[i]) {
      if i == 0 {} else if i == 1 {} else if i == 2 {} else if i == 3 {} else if i == 4 {} else if i == 5 {} else if i == 6 {} else if i == 7 {} else {}
    }
  }

  lemma RecipeNesting()
    ensures forall i :: 0 <= i < |RecipeConfig.fields| ==> WellFormedField(RecipeConfig.fields[i], 3)
  {
  }

  lemma RecipeNames()
    ensures DistinctNames(RecipeConfig.fields)
  {
  }

  lemma FAQPageAgrees()
    ensures FAQPageConfig.zodSchema.ZObject?
    ensures FieldsAgree(FAQPageConfig.fields, FAQPageConfig.zodSchema.shape)
  {
    var fs, sh := FAQPageConfig.fields, FAQPageConfig.zodSchema.shape;
    forall i | 0 <= i < |fs| ensures FieldAgrees(fs[i], sh[i]) {
      {}
    }
  }

  lemma FAQPageNesting()
    ensures forall i :: 0 <= i < |FAQPageConfig.fields| ==> WellFormedField(FAQPageConfig.fields[i], 3)
  {
  }

  lemma FAQPageNames()
    ensures DistinctNames(FAQPageConfig.fields)
  {
  }

  lemma RestaurantAgrees()
    ensures RestaurantConfig.zodSchema.ZObject?
    ensures FieldsAgree(RestaurantConfig.fields, RestaurantConfig.zodSchema.shape)
  {
    AddressGroupAgrees();
    var fs, sh := RestaurantConfig.fields, RestaurantConfig.zodSchema.shape;
    forall i | 0 <= i < |fs| ensures FieldAgrees(fs[i], sh[i]) {
      if i == 0 {} else if i == 1 {} else if i == 2 {} else if i == 3 {} else {}
    }
  }

  lemma RestaurantNesting()
    ensures forall i :: 0 <= i < |RestaurantConfig.fields| ==> WellFormedField(RestaurantConfig.fields[i], 3)
  {
    AddressGroupWellFormed();
  }

  lemma RestaurantNames()
    ensures DistinctNames(RestaurantConfig.fields)
  {
  }

  lemma HotelAgrees()
    ensures HotelConfig.zodSchema.ZObject?
    ensures FieldsAgree(HotelConfig.fields, HotelConfig.zodSchema.shape)
  {
    AddressGroupAgrees();
    var fs, sh := HotelConfig.fields, HotelConfig.zodSchema.shape;
    forall i | 0 <= i < |fs| ensures FieldAgrees(fs[i], sh[i]) {
      if i == 0 {} else if i == 1 {} else if i == 2 {} else if i == 3 {} else {}
    }
  }

  lemma HotelNesting()
    ensures forall i :: 0 <= i < |HotelConfig.fields| ==> WellFormedField(HotelConfig.fields[i], 3)
  {
    AddressGroupWellFormed();
  }

  lemma HotelNames()
    ensures DistinctNames(HotelConfig.fields)
  {
  }

  lemma WebSiteAgrees()
    ensures WebSiteConfig.zodSchema.ZObject?
    ensures FieldsAgree(WebSiteConfig.fields, WebSiteConfig.zodSchema.shape)
  {
    var fs, sh := WebSiteConfig.fields, WebSiteConfig.zodSchema.shape;
    forall i | 0 <= i < |fs| ensures FieldAgrees(fs[i], sh[i]) {
      if i == 0 {} else if i == 1 {} else {}
    }
  }

  lemma WebSiteNesting()
    ensures forall i :: 0 <= i < |WebSiteConfig.fields| ==> WellFormedField(WebSiteConfig.fields[i], 3)
  {
  }

  lemma WebSiteNames()
    ensures DistinctNames(WebSiteConfig.fields)
  {
  }

  lemma ReviewAgrees()
    ensures ReviewConfig.zodSchema.ZObject?
    ensures FieldsAgree(ReviewConfig.fields, ReviewConfig.zodSchema.shape)
  {
    var fs, sh := ReviewConfig.fields, ReviewConfig.zodSchema.shape;
    forall i | 0 <= i < |fs| ensures FieldAgrees(fs[i], sh[i]) {
      if i == 0 {} else if i == 1 {} else if i == 2 {} else {}
    }
  }

  lemma ReviewNesting()
    ensures forall i :: 0 <= i < |ReviewConfig.fields| ==> WellFormedField(ReviewConfig.fields[i], 3)
  {
  }

  lemma ReviewNames()
    ensures DistinctNames(ReviewConfig.fields)
  {
  }

  lemma BlogPostingAgrees()
    ensures BlogPostingConfig.zodSchema.ZObject?
    ensures FieldsAgree(BlogPostingConfig.fields, BlogPostingConfig.zodSchema.shape)
  {
    var fs, sh := BlogPostingConfig.fields, BlogPostingConfig.zodSchema.shape;
    forall i | 0 <= i < |fs| ensures FieldAgrees(fs[i], sh[i]) {
      if i == 0 {} else if i == 1 {} else if i == 2 {} else if i == 3 {} else {}
    }
  }

  lemma BlogPostingNesting()
    ensures forall i :: 0 <= i < |BlogPostingConfig.fields| ==> WellFormedField(BlogPostingConfig.fields[i], 3)
  {
  }

  lemma BlogPostingNames()
    ensures DistinctNames(BlogPostingConfig.fields)
  {
  }

  lemma NewsArticleAgrees()
    ensures NewsArticleConfig.zodSchema.ZObject?
    ensures FieldsAgree(NewsArticleConfig.fields, NewsArticleConfig.zodSchema.shape)
  {
    var fs, sh := NewsArticleConfig.fields, NewsArticleConfig.zodSchema.shape;
    forall i | 0 <= i < |fs| ensures FieldAgrees(fs[i], sh[i]) {
      if i == 0 {} else if i == 1 {} else if i == 2 {} else if i == 3 {} else if i == 4 {} else {}
    }
  }

  lemma NewsArticleNesting()
    ensures forall i :: 0 <= i < |NewsArticleConfig.fields| ==> WellFormedField(NewsArticleConfig.fields[i], 3)
  {
  }

  lemma NewsArticleNames()
    ensures DistinctNames(NewsArticleConfig.fields)
  {
  }

  lemma MovieAgrees()
    ensures MovieConfig.zodSchema.ZObject?
    ensures FieldsAgree(MovieConfig.fields, MovieConfig.zodSchema.shape)
  {
    var fs, sh := MovieConfig.fields, MovieConfig.zodSchema.shape;
    forall i | 0 <= i < |fs| ensures FieldAgrees(fs[i], sh[i]) {
      if i == 0 {} else if i == 1 {} else if i == 2 {} else if i == 3 {} else if i == 4 {} else {}
    }
  }

  lemma MovieNesting()
    ensures forall i :: 0 <= i < |MovieConfig.fields| ==> WellFormedField(MovieConfig.fields[i], 3)
  {
  }

  lemma MovieNames()
    ensures DistinctNames(MovieConfig.fields)
  {
  }

  lemma BookAgrees()
    ensures BookConfig.zodSchema.ZObject?
    ensures FieldsAgree(BookConfig.fields, BookConfig.zodSchema.shape)
  {
    var fs, sh := BookConfig.fields, BookConfig.zodSchema.shape;
    forall i | 0 <= i < |fs| ensures FieldAgrees(fs[i], sh[i]) {
      if i == 0 {} else if i == 1 {} else if i == 2 {} else if i == 3 {} else if i == 4 {} else {}
    }
  }

  lemma BookNesting()
    ensures forall i :: 0 <= i < |BookConfig.fields| ==> WellFormedField(BookConfig.fields[i], 3)
  {
  }

  lemma BookNames()
    ensures DistinctNames(BookConfig.fields)
  {
  }

  lemma JobPostingAgrees()
    ensures JobPostingConfig.zodSchema.ZObject?
    ensures FieldsAgree(JobPostingConfig.fields, JobPostingConfig.zodSchema.shape)
  {
    var fs, sh := JobPostingConfig.fields, JobPostingConfig.zodSchema.shape;
    forall i | 0 <= i < |fs| ensures FieldAgrees(fs[i], sh[i]) {
      if i == 0 {} else if i == 1 {} else if i == 2 {} else if i == 3 {} else if i == 4 {} else if i == 5 {} else {}
    }
  }

  lemma JobPostingNesting()
    ensures forall i :: 0 <= i < |JobPostingConfig.fields| ==> WellFormedField(JobPostingConfig.fields[i], 3)
  {
  }

  lemma JobPostingNames()
    ensures DistinctNames(JobPostingConfig.fields)
  {
  }

  lemma PersonAgrees()
    ensures PersonConfig.zodSchema.ZObject?
    ensures FieldsAgree(PersonConfig.fields, PersonConfig.zodSchema.shape)
  {
    var fs, sh := PersonConfig.fields, PersonConfig.zodSchema.shape;
    forall i | 0 <= i < |fs| ensures FieldAgrees(fs[i], sh[i]) {
      if i == 0 {} else if i == 1 {} else if i == 2 {} else if i == 3 {} else if i == 4 {} else if i == 5 {} else if i == 6 {} else {}
    }
  }

  lemma PersonNesting()
    ensures forall i :: 0 <= i < |PersonConfig.fields| ==> WellFormedField(PersonConfig.fields[i], 3)
  {
  }

  lemma PersonNames()
    ensures DistinctNames(PersonConfig.fields)
  {
  }

  lemma OrganizationAgrees()
    ensures OrganizationConfig.zodSchema.ZObject?
    ensures FieldsAgree(OrganizationConfig.fields, OrganizationConfig.zodSchema.shape)
  {
    AddressGroupAgrees();
    var fs, sh := OrganizationConfig.fields, OrganizationConfig.zodSchema.shape;
    forall i | 0 <= i < |fs| ensures FieldAgrees(fs[i], sh[i]) {
      if i == 0 {} else if i == 1 {} else if i == 2 {} else if i == 3 {} else {}
    }
  }

  lemma OrganizationNesting()
    ensures forall i :: 0 <= i < |OrganizationConfig.fields| ==> WellFormedField(OrganizationConfig.fields[i], 3)
  {
    AddressGroupWellFormed();
  }

  lemma OrganizationNames()
    ensures DistinctNames(OrganizationConfig.fields)
  {
  }

  /** The form's value paths are the paths the rule checks, in the same order, and the rule is well formed. */
  predicate Consistent(c: SchemaTypeConfig)
  {
    FieldLeafPaths(c.fields, []) == RuleLeafPaths(c.zodSchema, []) && WellFormedRule(c.zodSchema)
  }

  // `<Type>Consistent`: the type's two tables describe the same data, by
  // `TablesConsistent` from the three facts above.

  lemma LocalBusinessConsistent()
    ensures Consistent(LocalBusinessConfig)
  {
    LocalBusinessAgrees(); LocalBusinessNesting(); LocalBusinessNames();
    TablesConsistent(LocalBusinessConfig);
  }

  lemma ProductConsistent()
    ensures Consistent(ProductConfig)
  {
    ProductAgrees(); ProductNesting(); ProductNames();
    TablesConsistent(ProductConfig);
  }

  lemma ArticleConsistent()
    ensures Consistent(ArticleConfig)
  {
    ArticleAgrees(); ArticleNesting(); ArticleNames();
    TablesConsistent(ArticleConfig);
  }

  lemma EventConsistent()
    ensures Consistent(EventConfig)
  {
    EventAgrees(); EventNesting(); EventNames();
    TablesConsistent(EventConfig);
  }

  lemma RecipeConsistent()
    ensures Consistent(RecipeConfig)
  {
    RecipeAgrees(); RecipeNesting(); RecipeNames();
    TablesConsistent(RecipeConfig);
  }

  lemma FAQPageConsistent()
    ensures Consistent(FAQPageConfig)
  {
    FAQPageAgrees(); FAQPageNesting(); FAQPageNames();
    TablesConsistent(FAQPageConfig);
  }

  lemma RestaurantConsistent()
    ensures Consistent(RestaurantConfig)
  {
    RestaurantAgrees(); RestaurantNesting(); RestaurantNames();
    TablesConsistent(RestaurantConfig);
  }

  lemma HotelConsistent()
    ensures Consistent(HotelConfig)
  {
    HotelAgrees(); HotelNesting(); HotelNames();
    TablesConsistent(HotelConfig);
  }

  lemma WebSiteConsistent()
    ensures Consistent(WebSiteConfig)
  {
    WebSiteAgrees(); WebSiteNesting(); WebSiteNames();
    TablesConsistent(WebSiteConfig);
  }

  lemma ReviewConsistent()
    ensures Consistent(ReviewConfig)
  {
    ReviewAgrees(); ReviewNesting(); ReviewNames();
    TablesConsistent(ReviewConfig);
  }

  lemma BlogPostingConsistent()
    ensures Consistent(BlogPostingConfig)
  {
    BlogPostingAgrees(); BlogPostingNesting(); BlogPostingNames();
    TablesConsistent(BlogPostingConfig);
  }

  lemma NewsArticleConsistent()
    ensures Consistent(NewsArticleConfig)
  {
    NewsArticleAgrees(); NewsArticleNesting(); NewsArticleNames();
    TablesConsistent(NewsArticleConfig);
  }

  lemma MovieConsistent()
    ensures Consistent(MovieConfig)
  {
    MovieAgrees(); MovieNesting(); MovieNames();
    TablesConsistent(MovieConfig);
  }

  lemma BookConsistent()
    ensures Consistent(BookConfig)
  {
    BookAgrees(); BookNesting(); BookNames();
    TablesConsistent(BookConfig);
  }

  lemma JobPostingConsistent()
    ensures Consistent(JobPostingConfig)
  {
    JobPostingAgrees(); JobPostingNesting(); JobPostingNames();
    TablesConsistent(JobPostingConfig);
  }

  lemma PersonConsistent()
    ensures Consistent(PersonConfig)
  {
    PersonAgrees(); PersonNesting(); PersonNames();
    TablesConsistent(PersonConfig);
  }

  lemma OrganizationConsistent()
    ensures Consistent(OrganizationConfig)
  {
    OrganizationAgrees(); OrganizationNesting(); OrganizationNames();
    TablesConsistent(OrganizationConfig);
  }
}
