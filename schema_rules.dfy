/**
 * What particular rules of the tables do to particular values: the number
 * ranges, the messages of required text, optional values, arrays that must
 * not be empty and the one date pattern. A rule is reached by its position
 * in the table (`Child`), and `FieldIssue` and `ElementIssue` carry an issue
 * found in a field or an element up to the parse of the whole document.
 */
module SchemaRules {
  import opened Wrappers
  import opened Values
  import opened Zod
  import opened SchemaTypes
  import opened SchemaCoverage

  /** Key `i` of an object rule (or of an optional object rule), with its rule. */
  function Child(r: Rule, i: nat): Prop
    requires Unwrap(r).ZObject? && i < |Unwrap(r).shape|
  {
    Unwrap(r).shape[i]
  }

  /** An issue found under key `i` of an object rule is an issue of the whole object. */
  lemma FieldIssue(entries: seq<(string, Value)>, shape: seq<Prop>, i: nat, at: Path, fm: Formats, iss: Issue)
    requires i < |shape|
    requires iss in Parse(Lookup(entries, shape[i].key), shape[i].rule, at + [Key(shape[i].key)], fm).issues
    ensures iss in Parse(Some(Obj(entries)), ZObject(shape), at, fm).issues
  {
    ShapeIssues(entries, shape, at, fm, iss);
  }

  /** An issue found in element `j` of an array is an issue of the whole array. */
  lemma ElementIssue(es: seq<Value>, elem: Rule, min: Option<(nat, string)>, j: nat, at: Path, fm: Formats, iss: Issue)
    requires j < |es|
    requires iss in Parse(Some(es[j]), elem, at + [Index(j)], fm).issues
    ensures iss in Parse(Some(Arr(es)), ZArray(elem, min), at, fm).issues
  {
    ElementsIssues(es, elem, at, 0, fm, iss);
  }

  /** `Parse` of a present number, NaN or nothing against a number rule. */
  predicate NumberOutcomes(r: Rule, x: real, at: Path, fm: Formats, ok: bool, m: Message)
  {
    Parse(Some(Num(x)), r, at, fm) == (if ok then Outcome([], Some(Num(x))) else Fail(at, m)) &&
    Parse(Some(NaN), r, at, fm) == Fail(at, InvalidType("number")) &&
    Parse(None, r, at, fm) == Fail(at, Required)
  }

  /** With two number checks, the first one that fails decides the message. */
  lemma TwoNumberChecks(c0: NumberCheck, c1: NumberCheck, x: real)
    ensures FirstNumberFailure([c0, c1], x) ==
            if !NumberCheckHolds(c0, x) then Some(NumberCheckMessage(c0))
            else if !NumberCheckHolds(c1, x) then Some(NumberCheckMessage(c1))
            else None
  {
    assert [c0, c1][1..] == [c1];
  }

  /** Product `offers.price` must be above zero. */
  lemma PriceIsPositive(x: real, at: Path, fm: Formats)
    ensures Child(ProductConfig.zodSchema, 4).key == "offers" && Child(Child(ProductConfig.zodSchema, 4).rule, 0).key == "price"
    ensures NumberOutcomes(Child(Child(ProductConfig.zodSchema, 4).rule, 0).rule, x, at, fm,
                           x > 0.0,
                           Custom("Price must be positive"))
  {
  }

  /** Product `aggregateRating.ratingValue` lies in [0, 5]; below zero zod's own text is reported. */
  lemma ProductRatingInRange(x: real, at: Path, fm: Formats)
    ensures Child(ProductConfig.zodSchema, 5).key == "aggregateRating" && Child(Child(ProductConfig.zodSchema, 5).rule, 0).key == "ratingValue"
    ensures NumberOutcomes(Child(Child(ProductConfig.zodSchema, 5).rule, 0).rule, x, at, fm,
                           0.0 <= x <= 5.0,
                           if x < 0.0 then Default else Custom("Rating must be between 0 and 5"))
  {
    var cs := Child(Child(ProductConfig.zodSchema, 5).rule, 0).rule.numberChecks;
    TwoNumberChecks(cs[0], cs[1], x);
  }

  /** Product `aggregateRating.reviewCount` is a positive integer; a fraction gets zod's own text. */
  lemma ReviewCountIsPositiveInteger(x: real, at: Path, fm: Formats)
    ensures Child(ProductConfig.zodSchema, 5).key == "aggregateRating" && Child(Child(ProductConfig.zodSchema, 5).rule, 1).key == "reviewCount"
    ensures NumberOutcomes(Child(Child(ProductConfig.zodSchema, 5).rule, 1).rule, x, at, fm,
                           x == x.Floor as real && x > 0.0,
                           if x != x.Floor as real then Default else Custom("Review count must be a positive integer"))
  {
    var cs := Child(Child(ProductConfig.zodSchema, 5).rule, 1).rule.numberChecks;
    TwoNumberChecks(cs[0], cs[1], x);
  }

  /** Hotel `starRating.ratingValue` lies in [1, 5]; below one zod's own text is reported. */
  lemma HotelStarsInRange(x: real, at: Path, fm: Formats)
    ensures Child(HotelConfig.zodSchema, 4).key == "starRating" && Child(Child(HotelConfig.zodSchema, 4).rule, 0).key == "ratingValue"
    ensures NumberOutcomes(Child(Child(HotelConfig.zodSchema, 4).rule, 0).rule, x, at, fm,
                           1.0 <= x <= 5.0,
                           if x < 1.0 then Default else Custom("Rating must be between 1 and 5"))
  {
    var cs := Child(Child(HotelConfig.zodSchema, 4).rule, 0).rule.numberChecks;
    TwoNumberChecks(cs[0], cs[1], x);
  }

  /** The three numbers of a Review's `reviewRating` must not be negative. */
  lemma ReviewRatingsNonNegative(x: real, at: Path, fm: Formats)
    ensures Child(ReviewConfig.zodSchema, 1).key == "reviewRating"
    ensures Child(Child(ReviewConfig.zodSchema, 1).rule, 0).key == "ratingValue"
    ensures Child(Child(ReviewConfig.zodSchema, 1).rule, 1).key == "bestRating"
    ensures Child(Child(ReviewConfig.zodSchema, 1).rule, 2).key == "worstRating"
    ensures NumberOutcomes(Child(Child(ReviewConfig.zodSchema, 1).rule, 0).rule, x, at, fm,
                           x >= 0.0, Custom("Rating value must be non-negative"))
    ensures NumberOutcomes(Child(Child(ReviewConfig.zodSchema, 1).rule, 1).rule, x, at, fm,
                           x >= 0.0, Custom("Best rating must be non-negative"))
    ensures NumberOutcomes(Child(Child(ReviewConfig.zodSchema, 1).rule, 2).rule, x, at, fm,
                           x >= 0.0, Custom("Worst rating must be non-negative"))
  {
  }

  /** A LocalBusiness whose `name` is empty is reported at `name` with the table's message. */
  lemma EmptyBusinessNameRejected(entries: seq<(string, Value)>, fm: Formats)
    requires Lookup(entries, "name") == Some(Str(""))
    ensures Issue([Key("name")], Custom("Business name is required")) in
            Parse(Some(Obj(entries)), LocalBusinessConfig.zodSchema, [], fm).issues
  {
    var name := LocalBusinessConfig.zodSchema.shape[0];
    assert name == Prop("name", NonEmptyString("Business name is required"));
    assert [] + [Key(name.key)] == [Key("name")];
    FieldIssue(entries, LocalBusinessConfig.zodSchema.shape, 0, [], fm,
               Issue([Key("name")], Custom("Business name is required")));
  }

  /** An absent Event `image` passes, and a present one must be a URL. */
  lemma EventImageOptional(s: string, at: Path, fm: Formats)
    ensures Child(EventConfig.zodSchema, 5).key == "image"
    ensures Parse(None, Child(EventConfig.zodSchema, 5).rule, at, fm) == Outcome([], None)
    ensures Parse(Some(Str(s)), Child(EventConfig.zodSchema, 5).rule, at, fm) ==
            if fm.isUrl(s) then Outcome([], Some(Str(s))) else Fail(at, Custom("Invalid image URL"))
  {
  }

  /** An absent Person `email` passes, and a present one must be an e-mail address. */
  lemma PersonEmailOptional(s: string, at: Path, fm: Formats)
    ensures Child(PersonConfig.zodSchema, 6).key == "email"
    ensures Parse(None, Child(PersonConfig.zodSchema, 6).rule, at, fm) == Outcome([], None)
    ensures Parse(Some(Str(s)), Child(PersonConfig.zodSchema, 6).rule, at, fm) ==
            if fm.isEmail(s) then Outcome([], Some(Str(s))) else Fail(at, Custom("Invalid email"))
  {
  }

  /**
   * The form never leaves these two values out: a blank text input holds the
   * empty text, which is present, so `.optional()` does not apply and the
   * format check rejects it. Leaving the Event image or the Person e-mail
   * blank fails submission.
   */
  lemma BlankOptionalInputsRejected(at: Path, fm: Formats)
    requires !fm.isUrl("") && !fm.isEmail("")
    ensures Child(EventConfig.zodSchema, 5).key == "image"
    ensures Parse(Some(Str("")), Child(EventConfig.zodSchema, 5).rule, at, fm) == Fail(at, Custom("Invalid image URL"))
    ensures Child(PersonConfig.zodSchema, 6).key == "email"
    ensures Parse(Some(Str("")), Child(PersonConfig.zodSchema, 6).rule, at, fm) == Fail(at, Custom("Invalid email"))
  {
    EventImageOptional("", at, fm);
    PersonEmailOptional("", at, fm);
  }

  /** Recipe `ingredients` and `instructions`, FAQPage `mainEntity` and Movie `actor` may not be empty: an empty list is reported at the list's own path. */
  lemma EmptyListsRejected(at: Path, fm: Formats)
    ensures Child(RecipeConfig.zodSchema, 7).key == "ingredients"
    ensures Parse(Some(Arr([])), Child(RecipeConfig.zodSchema, 7).rule, at, fm) ==
            Fail(at, Custom("At least one ingredient is required"))
    ensures Child(RecipeConfig.zodSchema, 8).key == "instructions"
    ensures Parse(Some(Arr([])), Child(RecipeConfig.zodSchema, 8).rule, at, fm) ==
            Fail(at, Custom("At least one instruction step is required"))
    ensures Child(FAQPageConfig.zodSchema, 0).key == "mainEntity"
    ensures Parse(Some(Arr([])), Child(FAQPageConfig.zodSchema, 0).rule, at, fm) ==
            Fail(at, Custom("At least one FAQ item is required"))
    ensures Child(MovieConfig.zodSchema, 2).key == "actor"
    ensures Parse(Some(Arr([])), Child(MovieConfig.zodSchema, 2).rule, at, fm) ==
            Fail(at, Custom("At least one actor is required"))
  {
  }

  /** Every element of a Recipe's `ingredients` is checked: an element with an empty `item` is reported at its index. */
  lemma IngredientElementChecked(es: seq<Value>, j: nat, at: Path, fm: Formats)
    requires j < |es| && es[j].Obj? && Lookup(es[j].entries, "item") == Some(Str(""))
    ensures Issue(at + [Index(j), Key("item")], Custom("Ingredient is required")) in
            Parse(Some(Arr(es)), Child(RecipeConfig.zodSchema, 7).rule, at, fm).issues
  {
    var a := Child(RecipeConfig.zodSchema, 7).rule;
    var item := a.element.shape[0];
    var iss := Issue(at + [Index(j), Key("item")], Custom("Ingredient is required"));
    assert item == Prop("item", NonEmptyString("Ingredient is required"));
    assert at + [Index(j)] + [Key(item.key)] == at + [Index(j), Key("item")];
    FieldIssue(es[j].entries, a.element.shape, 0, at + [Index(j)], fm, iss);
    ElementIssue(es, a.element, a.minLength, j, at, fm, iss);
  }

  /** Article's `datePublished` and `dateModified` must match `YYYY-MM-DD`. */
  lemma ArticleDatesMatchPattern(s: string, at: Path, fm: Formats)
    ensures Child(ArticleConfig.zodSchema, 3).key == "datePublished"
    ensures Child(ArticleConfig.zodSchema, 4).key == "dateModified"
    ensures Parse(Some(Str(s)), Child(ArticleConfig.zodSchema, 3).rule, at, fm) ==
            if MatchesDatePattern(s) then Outcome([], Some(Str(s))) else Fail(at, Custom("Invalid date format. Use YYYY-MM-DD"))
    ensures Parse(Some(Str(s)), Child(ArticleConfig.zodSchema, 4).rule, at, fm) ==
            if MatchesDatePattern(s) then Outcome([], Some(Str(s))) else Fail(at, Custom("Invalid date format. Use YYYY-MM-DD"))
  {
  }

  /** A string that the rule accepts exactly when it is not empty. */
  predicate OnlyNonEmpty(r: Rule, s: string, at: Path, fm: Formats)
  {
    Parse(Some(Str(s)), r, at, fm).issues == [] <==> |s| >= 1
  }

  /** Event's, BlogPosting's and NewsArticle's date fields take any non-empty text, whatever its format. */
  lemma EventAndPostDatesUnchecked(s: string, at: Path, fm: Formats)
    ensures Child(EventConfig.zodSchema, 1).key == "startDate" && OnlyNonEmpty(Child(EventConfig.zodSchema, 1).rule, s, at, fm)
    ensures Child(EventConfig.zodSchema, 2).key == "endDate" && OnlyNonEmpty(Child(EventConfig.zodSchema, 2).rule, s, at, fm)
    ensures Child(BlogPostingConfig.zodSchema, 2).key == "datePublished" && OnlyNonEmpty(Child(BlogPostingConfig.zodSchema, 2).rule, s, at, fm)
    ensures Child(NewsArticleConfig.zodSchema, 2).key == "datePublished" && OnlyNonEmpty(Child(NewsArticleConfig.zodSchema, 2).rule, s, at, fm)
  {
  }

  /** Movie's, Book's and JobPosting's date fields take any non-empty text; Person's optional `birthDate` any text. */
  lemma OtherDatesUnchecked(s: string, at: Path, fm: Formats)
    ensures Child(MovieConfig.zodSchema, 3).key == "datePublished" && OnlyNonEmpty(Child(MovieConfig.zodSchema, 3).rule, s, at, fm)
    ensures Child(BookConfig.zodSchema, 3).key == "datePublished" && OnlyNonEmpty(Child(BookConfig.zodSchema, 3).rule, s, at, fm)
    ensures Child(JobPostingConfig.zodSchema, 2).key == "datePosted" && OnlyNonEmpty(Child(JobPostingConfig.zodSchema, 2).rule, s, at, fm)
    ensures Child(JobPostingConfig.zodSchema, 3).key == "validThrough" && OnlyNonEmpty(Child(JobPostingConfig.zodSchema, 3).rule, s, at, fm)
    ensures Child(PersonConfig.zodSchema, 3).key == "birthDate" && Parse(Some(Str(s)), Child(PersonConfig.zodSchema, 3).rule, at, fm).issues == []
  {
  }
}
