/**
 * The declarative description of the seventeen schema.org document types:
 * the closed set of type names, their descriptions, the categories the
 * selector groups them into, and for every type a field tree (what the form
 * shows) and a zod rule tree (what submission checks). There is no logic
 * here, only data; what is true of the data is stated and proved in module
 * SchemaCoverage.
 */
module SchemaTypes {
  import opened Wrappers
  import opened Zod

  datatype SchemaType =
    | LocalBusiness | Restaurant | Hotel | Product | Review | Article | BlogPosting
    | NewsArticle | Recipe | Movie | Book | Event | JobPosting | Person | Organization
    | FAQPage | WebSite

  /** The string a type is known by (the members of the `SchemaType` union). */
  function TypeName(t: SchemaType): string
  {
    match t
    case LocalBusiness => "LocalBusiness"
    case Restaurant => "Restaurant"
    case Hotel => "Hotel"
    case Product => "Product"
    case Review => "Review"
    case Article => "Article"
    case BlogPosting => "BlogPosting"
    case NewsArticle => "NewsArticle"
    case Recipe => "Recipe"
    case Movie => "Movie"
    case Book => "Book"
    case Event => "Event"
    case JobPosting => "JobPosting"
    case Person => "Person"
    case Organization => "Organization"
    case FAQPage => "FAQPage"
    case WebSite => "WebSite"
  }

  /** `schemaTypeDescriptions`; being a total function of the type, it has an entry for every type. */
  function Description(t: SchemaType): string
  {
    match t
    case LocalBusiness => "For businesses with a physical location"
    case Restaurant => "For food service establishments"
    case Hotel => "For lodging businesses"
    case Product => "For individual products or services"
    case Review => "For critiques or evaluations of items"
    case Article => "For general articles or reports"
    case BlogPosting => "For blog posts or entries"
    case NewsArticle => "For news articles"
    case Recipe => "For cooking or food preparation instructions"
    case Movie => "For film or motion picture content"
    case Book => "For written works or publications"
    case Event => "For events or happenings"
    case JobPosting => "For job listings or openings"
    case Person => "For information about individuals"
    case Organization => "For details about companies or institutions"
    case FAQPage => "For frequently asked questions pages"
    case WebSite => "For overall website information"
  }

  /** `schemaTypes`: the list the application offers. */
  const SchemaTypeList: seq<SchemaType> := [
    LocalBusiness, Restaurant, Hotel, Product, Review, Article, BlogPosting, NewsArticle,
    Recipe, Movie, Book, Event, JobPosting, Person, Organization, FAQPage, WebSite
  ]

  /**
   * The type a string names, if any. Type names reach the program as plain
   * strings (a saved entry's `type`, a category's `types`) and are cast to
   * `SchemaType`; this is the check that such a cast is sound, and the lookup
   * `schemaConfigs[s]` succeeds exactly when it finds a type.
   */
  function ParseType(s: string): (r: Option<SchemaType>)
    ensures r.Some? ==> TypeName(r.value) == s
    ensures r.None? ==> forall t :: TypeName(t) != s
  {
    RegistryComplete();
    FindType(SchemaTypeList, s)
  }

  function FindType(ts: seq<SchemaType>, s: string): (r: Option<SchemaType>)
    ensures r.Some? ==> r.value in ts && TypeName(r.value) == s
    ensures r.None? ==> forall t :: t in ts ==> TypeName(t) != s
  {
    if ts == [] then None
    else if TypeName(ts[0]) == s then Some(ts[0])
    else FindType(ts[1..], s)
  }

  /** `schemaTypes` lists every type exactly once. */
  lemma RegistryComplete()
    ensures |SchemaTypeList| == 17
    ensures forall t :: t in SchemaTypeList
    ensures forall i, j :: 0 <= i < j < |SchemaTypeList| ==> SchemaTypeList[i] != SchemaTypeList[j]
  {
    forall t ensures t in SchemaTypeList {
      match t
      case LocalBusiness => assert SchemaTypeList[0] == t;
      case Restaurant => assert SchemaTypeList[1] == t;
      case Hotel => assert SchemaTypeList[2] == t;
      case Product => assert SchemaTypeList[3] == t;
      case Review => assert SchemaTypeList[4] == t;
      case Article => assert SchemaTypeList[5] == t;
      case BlogPosting => assert SchemaTypeList[6] == t;
      case NewsArticle => assert SchemaTypeList[7] == t;
      case Recipe => assert SchemaTypeList[8] == t;
      case Movie => assert SchemaTypeList[9] == t;
      case Book => assert SchemaTypeList[10] == t;
      case Event => assert SchemaTypeList[11] == t;
      case JobPosting => assert SchemaTypeList[12] == t;
      case Person => assert SchemaTypeList[13] == t;
      case Organization => assert SchemaTypeList[14] == t;
      case FAQPage => assert SchemaTypeList[15] == t;
      case WebSite => assert SchemaTypeList[16] == t;
    }
  }

  /** Distinct types have distinct names. */
  lemma TypeNamesDistinct(a: SchemaType, b: SchemaType)
    ensures TypeName(a) == TypeName(b) ==> a == b
  {
  }

  /** A type's name parses back to the type. */
  lemma ParseTypeName(t: SchemaType)
    ensures ParseType(TypeName(t)) == Some(t)
  {
    var r := ParseType(TypeName(t));
    TypeNamesDistinct(r.value, t);
  }

  /** A category of the selector; its types are plain strings, as in the source. */
  datatype Category = Category(name: string, types: seq<string>)

  /** `schemaTypeCategories` */
  const SchemaTypeCategories: seq<Category> := [
    Category("Business & Organizations", ["LocalBusiness", "Restaurant", "Hotel", "Organization"]),
    Category("Products & Commerce", ["Product", "Review"]),
    Category("Creative Works", ["Article", "BlogPosting", "NewsArticle", "Book", "Movie"]),
    Category("Food & Recipes", ["Recipe"]),
    Category("Events & Activities", ["Event", "JobPosting"]),
    Category("People", ["Person"]),
    Category("Web Content", ["FAQPage", "WebSite"])
  ]

  /** The index of the category a type is listed under. */
  function Home(t: SchemaType): nat
  {
    match t
    case LocalBusiness | Restaurant | Hotel | Organization => 0
    case Product | Review => 1
    case Article | BlogPosting | NewsArticle | Book | Movie => 2
    case Recipe => 3
    case Event | JobPosting => 4
    case Person => 5
    case FAQPage | WebSite => 6
  }

  /** The category table with its strings read as types. */
  const CategoryMembers: seq<seq<SchemaType>> := [
    [LocalBusiness, Restaurant, Hotel, Organization],
    [Product, Review],
    [Article, BlogPosting, NewsArticle, Book, Movie],
    [Recipe],
    [Event, JobPosting],
    [Person],
    [FAQPage, WebSite]
  ]

  lemma CategoryMembersListed(c: nat, k: nat)
    requires c < |SchemaTypeCategories| && k < |SchemaTypeCategories[c].types|
    ensures k < |CategoryMembers[c]|
    ensures SchemaTypeCategories[c].types[k] == TypeName(CategoryMembers[c][k])
    ensures Home(CategoryMembers[c][k]) == c
  {
  }

  lemma HomeListsType(t: SchemaType)
    ensures Home(t) < |SchemaTypeCategories|
    ensures TypeName(t) in SchemaTypeCategories[Home(t)].types
  {
  }

  /**
   * The categories partition the types: each type lies in exactly one
   * category, a category lists only known types, and none is empty.
   */
  lemma CategoriesPartition()
    ensures forall t :: Home(t) < |SchemaTypeCategories| && TypeName(t) in SchemaTypeCategories[Home(t)].types
    ensures forall c1, c2, s ::
              (0 <= c1 < |SchemaTypeCategories| && 0 <= c2 < |SchemaTypeCategories| &&
               s in SchemaTypeCategories[c1].types && s in SchemaTypeCategories[c2].types) ==> c1 == c2
    ensures forall c, s :: 0 <= c < |SchemaTypeCategories| && s in SchemaTypeCategories[c].types ==> ParseType(s).Some?
    ensures forall c :: 0 <= c < |SchemaTypeCategories| ==> SchemaTypeCategories[c].types != []
  {
    forall t ensures Home(t) < |SchemaTypeCategories| && TypeName(t) in SchemaTypeCategories[Home(t)].types {
      HomeListsType(t);
    }
    forall c1, c2, s | 0 <= c1 < |SchemaTypeCategories| && 0 <= c2 < |SchemaTypeCategories| &&
                       s in SchemaTypeCategories[c1].types && s in SchemaTypeCategories[c2].types
      ensures c1 == c2
    {
      var k1 :| 0 <= k1 < |SchemaTypeCategories[c1].types| && SchemaTypeCategories[c1].types[k1] == s;
      var k2 :| 0 <= k2 < |SchemaTypeCategories[c2].types| && SchemaTypeCategories[c2].types[k2] == s;
      CategoryMembersListed(c1, k1);
      CategoryMembersListed(c2, k2);
      TypeNamesDistinct(CategoryMembers[c1][k1], CategoryMembers[c2][k2]);
    }
    forall c, s | 0 <= c < |SchemaTypeCategories| && s in SchemaTypeCategories[c].types
      ensures ParseType(s).Some?
    {
      var k :| 0 <= k < |SchemaTypeCategories[c].types| && SchemaTypeCategories[c].types[k] == s;
      CategoryMembersListed(c, k);
    }
  }

  /** `FieldType`: how an input is rendered (`Date`/`DateTimeLocal` are `date`/`datetime-local`). */
  datatype FieldType = Text | Number | Url | Array | Object | Date | DateTimeLocal

  /** `SchemaField`; labels are left out. `subfields` is absent for plain inputs. */
  datatype SchemaField = SchemaField(name: string, kind: FieldType, required: bool, subfields: Subfields)

  /** The optional `subfields` member of a field. */
  datatype Subfields = Absent | Present(fields: seq<SchemaField>)

  /** `SchemaTypeConfig`: the form's field tree and the zod object that validates it. */
  datatype SchemaTypeConfig = SchemaTypeConfig(fields: seq<SchemaField>, zodSchema: Rule)

  function Input(name: string, kind: FieldType, required: bool): SchemaField
  {
    SchemaField(name, kind, required, Absent)
  }

  function Nested(name: string, kind: FieldType, required: bool, subfields: seq<SchemaField>): SchemaField
  {
    SchemaField(name, kind, required, Present(subfields))
  }

  /** `z.string().min(1, msg)` */
  function NonEmptyString(msg: string): Rule
  {
    ZString([NonEmpty(msg)])
  }

  /** `z.string().url(msg)` */
  function UrlString(msg: string): Rule
  {
    ZString([StringCheck.Url(msg)])
  }

  /** `z.string().regex(/^\d{4}-\d{2}-\d{2}$/, msg)` */
  function DateString(msg: string): Rule
  {
    ZString([DateFormat(msg)])
  }

  /** `z.string()` */
  const AnyString: Rule := ZString([])

  const AddressFields: seq<SchemaField> := [
    Input("streetAddress", Text, true),
    Input("addressLocality", Text, true),
    Input("addressRegion", Text, true),
    Input("postalCode", Text, true),
    Input("addressCountry", Text, true)
  ]

  const AddressRule: Rule := ZObject([
    Prop("streetAddress", NonEmptyString("Street address is required")),
    Prop("addressLocality", NonEmptyString("City is required")),
    Prop("addressRegion", NonEmptyString("State is required")),
    Prop("postalCode", NonEmptyString("Postal code is required")),
    Prop("addressCountry", NonEmptyString("Country is required"))
  ])

  const LocalBusinessConfig := SchemaTypeConfig(
    [
      Input("name", Text, true),
      Nested("address", Object, true, AddressFields),
      Input("telephone", Text, false),
      Nested("openingHours", Array, false, [
        Input("dayOfWeek", Text, true),
        Input("opens", Text, true),
        Input("closes", Text, true)
      ])
    ],
    ZObject([
      Prop("name", NonEmptyString("Business name is required")),
      Prop("address", AddressRule),
      Prop("telephone", ZOptional(AnyString)),
      Prop("openingHours", ZOptional(ZArray(ZObject([
        Prop("dayOfWeek", NonEmptyString("Day of week is required")),
        Prop("opens", NonEmptyString("Opening time is required")),
        Prop("closes", NonEmptyString("Closing time is required"))
      ]), None)))
    ]))

  const ProductConfig := SchemaTypeConfig(
    [
      Input("name", Text, true),
      Input("description", Text, true),
      Input("image", FieldType.Url, true),
      Nested("brand", Object, true, [Input("name", Text, true)]),
      Nested("offers", Object, true, [
        Input("price", Number, true),
        Input("priceCurrency", Text, true),
        Input("availability", Text, true)
      ]),
      Nested("aggregateRating", Object, false, [
        Input("ratingValue", Number, true),
        Input("reviewCount", Number, true)
      ])
    ],
    ZObject([
      Prop("name", NonEmptyString("Product name is required")),
      Prop("description", NonEmptyString("Description is required")),
      Prop("image", UrlString("Invalid image URL")),
      Prop("brand", ZObject([Prop("name", NonEmptyString("Brand name is required"))])),
      Prop("offers", ZObject([
        Prop("price", ZNumber([Positive(Some("Price must be positive"))])),
        Prop("priceCurrency", NonEmptyString("Price currency is required")),
        Prop("availability", NonEmptyString("Availability is required"))
      ])),
      Prop("aggregateRating", ZOptional(ZObject([
        Prop("ratingValue", ZNumber([Min(0.0, None), Max(5.0, Some("Rating must be between 0 and 5"))])),
        Prop("reviewCount", ZNumber([Int(None), Positive(Some("Review count must be a positive integer"))]))
      ])))
    ]))

  const ArticleConfig := SchemaTypeConfig(
    [
      Input("headline", Text, true),
      Input("description", Text, true),
      Input("image", FieldType.Url, true),
      Input("datePublished", Date, true),
      Input("dateModified", Date, true),
      Nested("author", Object, true, [Input("name", Text, true)]),
      Nested("publisher", Object, true, [
        Input("name", Text, true),
        Nested("logo", Object, true, [Input("url", FieldType.Url, true)])
      ]),
      Nested("mainEntityOfPage", Object, true, [Input("url", FieldType.Url, true)])
    ],
    ZObject([
      Prop("headline", NonEmptyString("Headline is required")),
      Prop("description", NonEmptyString("Description is required")),
      Prop("image", UrlString("Invalid image URL")),
      Prop("datePublished", DateString("Invalid date format. Use YYYY-MM-DD")),
      Prop("dateModified", DateString("Invalid date format. Use YYYY-MM-DD")),
      Prop("author", ZObject([Prop("name", NonEmptyString("Author name is required"))])),
      Prop("publisher", ZObject([
        Prop("name", NonEmptyString("Publisher name is required")),
        Prop("logo", ZObject([Prop("url", UrlString("Invalid logo URL"))]))
      ])),
      Prop("mainEntityOfPage", ZObject([Prop("url", UrlString("Invalid page URL"))]))
    ]))

  const EventConfig := SchemaTypeConfig(
    [
      Input("name", Text, true),
      Input("startDate", DateTimeLocal, true),
      Input("endDate", DateTimeLocal, true),
      Nested("location", Object, true, [
        Input("name", Text, true),
        Input("address", Text, true)
      ]),
      Input("description", Text, true),
      Input("image", FieldType.Url, false),
      Nested("organizer", Object, false, [
        Input("name", Text, true),
        Input("url", FieldType.Url, false)
      ])
    ],
    ZObject([
      Prop("name", NonEmptyString("Event name is required")),
      Prop("startDate", NonEmptyString("Start date is required")),
      Prop("endDate", NonEmptyString("End date is required")),
      Prop("location", ZObject([
        Prop("name", NonEmptyString("Venue name is required")),
        Prop("address", NonEmptyString("Address is required"))
      ])),
      Prop("description", NonEmptyString("Description is required")),
      Prop("image", ZOptional(UrlString("Invalid image URL"))),
      Prop("organizer", ZOptional(ZObject([
        Prop("name", NonEmptyString("Organizer name is required")),
        Prop("url", ZOptional(UrlString("Invalid organizer website URL")))
      ])))
    ]))

  const RecipeConfig := SchemaTypeConfig(
    [
      Input("name", Text, true),
      Input("image", FieldType.Url, true),
      Input("description", Text, true),
      Input("prepTime", Text, true),
      Input("cookTime", Text, true),
      Input("totalTime", Text, true),
      Input("recipeYield", Text, true),
      Nested("ingredients", Array, true, [Input("item", Text, true)]),
      Nested("instructions", Array, true, [Input("step", Text, true)])
    ],
    ZObject([
      Prop("name", NonEmptyString("Recipe name is required")),
      Prop("image", UrlString("Invalid image URL")),
      Prop("description", NonEmptyString("Description is required")),
      Prop("prepTime", NonEmptyString("Prep time is required")),
      Prop("cookTime", NonEmptyString("Cook time is required")),
      Prop("totalTime", NonEmptyString("Total time is required")),
      Prop("recipeYield", NonEmptyString("Recipe yield is required")),
      Prop("ingredients", ZArray(
        ZObject([Prop("item", NonEmptyString("Ingredient is required"))]),
        Some((1, "At least one ingredient is required")))),
      Prop("instructions", ZArray(
        ZObject([Prop("step", NonEmptyString("Instruction step is required"))]),
        Some((1, "At least one instruction step is required"))))
    ]))

  const FAQPageConfig := SchemaTypeConfig(
    [
      Nested("mainEntity", Array, true, [
        Input("question", Text, true),
        Input("answer", Text, true)
      ])
    ],
    ZObject([
      Prop("mainEntity", ZArray(
        ZObject([
          Prop("question", NonEmptyString("Question is required")),
          Prop("answer", NonEmptyString("Answer is required"))
        ]),
        Some((1, "At least one FAQ item is required"))))
    ]))

  const RestaurantConfig := SchemaTypeConfig(
    [
      Input("name", Text, true),
      Input("description", Text, true),
      Nested("address", Object, true, AddressFields),
      Input("telephone", Text, true),
      Input("servesCuisine", Text, true)
    ],
    ZObject([
      Prop("name", NonEmptyString("Restaurant name is required")),
      Prop("description", NonEmptyString("Description is required")),
      Prop("address", AddressRule),
      Prop("telephone", NonEmptyString("Telephone is required")),
      Prop("servesCuisine", NonEmptyString("Cuisine is required"))
    ]))

  const HotelConfig := SchemaTypeConfig(
    [
      Input("name", Text, true),
      Input("description", Text, true),
      Nested("address", Object, true, AddressFields),
      Input("telephone", Text, true),
      Nested("starRating", Object, true, [Input("ratingValue", Number, true)])
    ],
    ZObject([
      Prop("name", NonEmptyString("Hotel name is required")),
      Prop("description", NonEmptyString("Description is required")),
      Prop("address", AddressRule),
      Prop("telephone", NonEmptyString("Telephone is required")),
      Prop("starRating", ZObject([
        Prop("ratingValue", ZNumber([Min(1.0, None), Max(5.0, Some("Rating must be between 1 and 5"))]))
      ]))
    ]))

  const WebSiteConfig := SchemaTypeConfig(
    [
      Input("name", Text, true),
      Input("url", FieldType.Url, true),
      Input("description", Text, true)
    ],
    ZObject([
      Prop("name", NonEmptyString("Website name is required")),
      Prop("url", UrlString("Invalid URL")),
      Prop("description", NonEmptyString("Description is required"))
    ]))

  const ReviewConfig := SchemaTypeConfig(
    [
      Nested("itemReviewed", Object, true, [
        Input("name", Text, true),
        Input("type", Text, true)
      ]),
      Nested("reviewRating", Object, true, [
        Input("ratingValue", Number, true),
        Input("bestRating", Number, true),
        Input("worstRating", Number, true)
      ]),
      Nested("author", Object, true, [Input("name", Text, true)]),
      Input("reviewBody", Text, true)
    ],
    ZObject([
      Prop("itemReviewed", ZObject([
        Prop("name", NonEmptyString("Item name is required")),
        Prop("type", NonEmptyString("Item type is required"))
      ])),
      Prop("reviewRating", ZObject([
        Prop("ratingValue", ZNumber([Min(0.0, Some("Rating value must be non-negative"))])),
        Prop("bestRating", ZNumber([Min(0.0, Some("Best rating must be non-negative"))])),
        Prop("worstRating", ZNumber([Min(0.0, Some("Worst rating must be non-negative"))]))
      ])),
      Prop("author", ZObject([Prop("name", NonEmptyString("Author name is required"))])),
      Prop("reviewBody", NonEmptyString("Review body is required"))
    ]))

  const BlogPostingConfig := SchemaTypeConfig(
    [
      Input("headline", Text, true),
      Nested("author", Object, true, [Input("name", Text, true)]),
      Input("datePublished", Date, true),
      Input("image", FieldType.Url, true),
      Input("articleBody", Text, true)
    ],
    ZObject([
      Prop("headline", NonEmptyString("Headline is required")),
      Prop("author", ZObject([Prop("name", NonEmptyString("Author name is required"))])),
      Prop("datePublished", NonEmptyString("Date published is required")),
      Prop("image", UrlString("Invalid image URL")),
      Prop("articleBody", NonEmptyString("Article body is required"))
    ]))

  const NewsArticleConfig := SchemaTypeConfig(
    [
      Input("headline", Text, true),
      Nested("author", Object, true, [Input("name", Text, true)]),
      Input("datePublished", Date, true),
      Input("image", FieldType.Url, true),
      Input("articleBody", Text, true),
      Input("dateline", Text, false)
    ],
    ZObject([
      Prop("headline", NonEmptyString("Headline is required")),
      Prop("author", ZObject([Prop("name", NonEmptyString("Author name is required"))])),
      Prop("datePublished", NonEmptyString("Date published is required")),
      Prop("image", UrlString("Invalid image URL")),
      Prop("articleBody", NonEmptyString("Article body is required")),
      Prop("dateline", ZOptional(AnyString))
    ]))

  const MovieConfig := SchemaTypeConfig(
    [
      Input("name", Text, true),
      Nested("director", Object, true, [Input("name", Text, true)]),
      Nested("actor", Array, true, [Input("name", Text, true)]),
      Input("datePublished", Date, true),
      Input("image", FieldType.Url, true),
      Input("description", Text, true)
    ],
    ZObject([
      Prop("name", NonEmptyString("Movie title is required")),
      Prop("director", ZObject([Prop("name", NonEmptyString("Director name is required"))])),
      Prop("actor", ZArray(
        ZObject([Prop("name", NonEmptyString("Actor name is required"))]),
        Some((1, "At least one actor is required")))),
      Prop("datePublished", NonEmptyString("Release date is required")),
      Prop("image", UrlString("Invalid image URL")),
      Prop("description", NonEmptyString("Description is required"))
    ]))

  const BookConfig := SchemaTypeConfig(
    [
      Input("name", Text, true),
      Nested("author", Object, true, [Input("name", Text, true)]),
      Input("isbn", Text, true),
      Input("datePublished", Date, true),
      Input("image", FieldType.Url, true),
      Input("description", Text, true)
    ],
    ZObject([
      Prop("name", NonEmptyString("Book title is required")),
      Prop("author", ZObject([Prop("name", NonEmptyString("Author name is required"))])),
      Prop("isbn", NonEmptyString("ISBN is required")),
      Prop("datePublished", NonEmptyString("Publication date is required")),
      Prop("image", UrlString("Invalid image URL")),
      Prop("description", NonEmptyString("Description is required"))
    ]))

  const JobPostingConfig := SchemaTypeConfig(
    [
      Input("title", Text, true),
      Input("description", Text, true),
      Input("datePosted", Date, true),
      Input("validThrough", Date, true),
      Input("employmentType", Text, true),
      Nested("hiringOrganization", Object, true, [Input("name", Text, true)]),
      Nested("jobLocation", Object, true, [
        Input("addressLocality", Text, true),
        Input("addressRegion", Text, true),
        Input("addressCountry", Text, true)
      ])
    ],
    ZObject([
      Prop("title", NonEmptyString("Job title is required")),
      Prop("description", NonEmptyString("Job description is required")),
      Prop("datePosted", NonEmptyString("Date posted is required")),
      Prop("validThrough", NonEmptyString("Valid through date is required")),
      Prop("employmentType", NonEmptyString("Employment type is required")),
      Prop("hiringOrganization", ZObject([Prop("name", NonEmptyString("Organization name is required"))])),
      Prop("jobLocation", ZObject([
        Prop("addressLocality", NonEmptyString("City is required")),
        Prop("addressRegion", NonEmptyString("State is required")),
        Prop("addressCountry", NonEmptyString("Country is required"))
      ]))
    ]))

  const PersonConfig := SchemaTypeConfig(
    [
      Input("name", Text, true),
      Input("givenName", Text, false),
      Input("familyName", Text, false),
      Input("birthDate", Date, false),
      Input("image", FieldType.Url, false),
      Input("jobTitle", Text, false),
      Input("email", Text, false),
      Input("telephone", Text, false)
    ],
    ZObject([
      Prop("name", NonEmptyString("Full name is required")),
      Prop("givenName", ZOptional(AnyString)),
      Prop("familyName", ZOptional(AnyString)),
      Prop("birthDate", ZOptional(AnyString)),
      Prop("image", ZOptional(UrlString("Invalid image URL"))),
      Prop("jobTitle", ZOptional(AnyString)),
      Prop("email", ZOptional(ZString([Email("Invalid email")]))),
      Prop("telephone", ZOptional(AnyString))
    ]))

  const OrganizationConfig := SchemaTypeConfig(
    [
      Input("name", Text, true),
      Input("description", Text, true),
      Input("url", FieldType.Url, true),
      Input("logo", FieldType.Url, true),
      Nested("address", Object, true, AddressFields)
    ],
    ZObject([
      Prop("name", NonEmptyString("Organization name is required")),
      Prop("description", NonEmptyString("Description is required")),
      Prop("url", UrlString("Invalid website URL")),
      Prop("logo", UrlString("Invalid logo URL")),
      Prop("address", AddressRule)
    ]))

  /** `schemaConfigs[t]`; being a total function of the type, every type has a configuration. */
  function Config(t: SchemaType): SchemaTypeConfig
  {
    match t
    case LocalBusiness => LocalBusinessConfig
    case Product => ProductConfig
    case Article => ArticleConfig
    case Event => EventConfig
    case Recipe => RecipeConfig
    case FAQPage => FAQPageConfig
    case Restaurant => RestaurantConfig
    case Hotel => HotelConfig
    case WebSite => WebSiteConfig
    case Review => ReviewConfig
    case BlogPosting => BlogPostingConfig
    case NewsArticle => NewsArticleConfig
    case Movie => MovieConfig
    case Book => BookConfig
    case JobPosting => JobPostingConfig
    case Person => PersonConfig
    case Organization => OrganizationConfig
  }
}
