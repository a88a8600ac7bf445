# MarkupGen in Dafny

MarkupGen builds schema.org JSON-LD markup in the browser. The user picks one of seventeen document types. The type's field tree is rendered as a form, and on submit the type's zod rule checks the form's values. The accepted data is wrapped with `@context` and `@type` to give the markup. Documents can be saved to and loaded from a list held in local storage.

This project models that core and proves what it promises:

- `Values` (values.dfy): the JSON-like values the program handles. Objects keep their keys in insertion order. The module also holds object spread (`{...a, ...b}`) and the reading and writing of the form's values at a dotted path.
- `Zod` (zod.dfy): the part of zod the tables use, as a rule tree. `Parse` reports issues by path and returns the parsed output. `Accepts` is an independent reference predicate, and the two are proved to agree.
- `SchemaTypes` (schema_types.dfy): the seventeen types, their descriptions, the seven categories, and each type's field tree and zod rule, transcribed from `src/types/schemaTypes.ts`.
- `SchemaCoverage` (schema_coverage.dfy): for every type, the field tree is well formed and agrees with the rule tree key by key.
- `SchemaRules` (schema_rules.dfy): what the individual rules accept and reject, and with which message.
- `SchemaForm` (schema_form.dfy): the control names `renderField` computes, the array rows, number-input reading, the submit gate, the message shown beside an input, and the form's value store as a class.
- `SchemaMarkupGenerator` (schema_markup_generator.dfy): document assembly, the three-variable session as transition functions, and the component's state as a class whose handlers follow those functions.
- `SchemaTypeSelector` (schema_type_selector.dfy): the category lookups and the `selectedCategory` state.
- `SchemaStorageUtils` (schema_storage_utils.dfy): the saved-document list in its one storage slot.
- `Wrappers` (wrappers.dfy): `Option`.

## Model

| member | source | states |
|---|---|---|
| Values.Keys | src/components/SchemaMarkupGenerator.tsx:48-52 | an object's keys are its entries' keys, position by position |
| Values.Lookup | src/components/SchemaMarkupGenerator.tsx:48-52 | a key is found exactly when the object has it, and the value found is an entry under that key |
| Values.Put | src/components/SchemaMarkupGenerator.tsx:48-52 | writing a key keeps the key order: an existing key stays where it was, and a new key goes to the end |
| Values.PutLookup | src/components/SchemaMarkupGenerator.tsx:48-52 | after writing `k := x`, `k` reads `x` and every other key reads what it read before |
| Values.PutFresh | src/components/SchemaMarkupGenerator.tsx:48-52 | writing a key the object lacks appends that one entry |
| Values.SpreadFresh | src/components/SchemaMarkupGenerator.tsx:48-52 | spreading entries whose keys are new (and distinct) is concatenation |
| Values.SpreadLookup | src/components/SchemaMarkupGenerator.tsx:48-52 | after `{...base, ...more}`, a key of `more` reads its value in `more` (later wins) and any other key reads its value in `base` |
| Values.SpreadUntouched | src/components/SchemaMarkupGenerator.tsx:48-52 | a key that `more` lacks reads in the spread what it read in `base` |
| Values.SpreadKeys | src/components/SchemaMarkupGenerator.tsx:48-52 | the spread's keys are `base`'s keys, then `more`'s new keys in first-seen order |
| Values.NewKeysSeen | src/components/SchemaMarkupGenerator.tsx:48-52 | a key already present adds no new key |
| Values.NewKeysAfter | src/components/SchemaMarkupGenerator.tsx:48-52 | a key not yet present is added once, in its place |
| Values.GetSet | src/components/SchemaForm.tsx:72-73 | writing `x` at a writable dotted path and reading that path back gives `x` |
| Values.GetSetApart | src/components/SchemaForm.tsx:72-73 | writing at one path leaves every value at a path apart from it as it was |
| Zod.FirstStringFailure | src/types/schemaTypes.ts:175-194 | no message exactly when every string check holds; otherwise the message of the first check that fails |
| Zod.FirstNumberFailure | src/types/schemaTypes.ts:264-280 | no message exactly when every number check holds; otherwise the message of the first check that fails |
| Zod.ParseAccepts | src/types/schemaTypes.ts:175-194 | a parse reports no issue exactly when the reference predicate accepts the value, and then it has an output exactly when a value was given |
| Zod.ShapeAccepts | src/types/schemaTypes.ts:175-194 | an object passes exactly when every key of the shape passes its rule |
| Zod.ElementsAccept | src/types/schemaTypes.ts:503-516 | an array's elements pass exactly when each one passes the element rule, and then every element is kept |
| Zod.OptionalParse | src/types/schemaTypes.ts:433-439 | `.optional()` passes a missing value with no output and parses a present value exactly as the inner rule does |
| Zod.EmptyArrayParse | src/types/schemaTypes.ts:503-516 | `.min(n, msg)` with `n >= 1` rejects `[]` with `msg` at the array's own path |
| Zod.ShapeKeys | src/types/schemaTypes.ts:175-194 | the keys a shape names, in order |
| Zod.ShapeIssues | src/types/schemaTypes.ts:175-194 | an object's issues are exactly the issues of its keys, each found under that key's path |
| Zod.ElementsIssues | src/types/schemaTypes.ts:503-516 | an array's issues are exactly the issues of its elements, each found under that element's index |
| Zod.IssuesBelow | src/types/schemaTypes.ts:175-194 | every issue is reported at or below the path of the value checked |
| Zod.ShapeIssuesBelow | src/types/schemaTypes.ts:175-194 | every issue of an object is reported at or below the object's path |
| Zod.ElementsIssuesBelow | src/types/schemaTypes.ts:503-516 | every issue of an array's elements is reported at or below the array's path |
| Zod.ShapeOutputKeys | src/components/SchemaForm.tsx:26 | a parsed object holds only keys the shape names, so unknown keys are stripped |
| Zod.OutputHasNoNaN | src/components/SchemaForm.tsx:26 | a parse output never holds NaN |
| Zod.ShapeOutputHasNoNaN | src/components/SchemaForm.tsx:26 | a parsed object never holds NaN |
| Zod.ElementsOutputHaveNoNaN | src/components/SchemaForm.tsx:26 | parsed elements never hold NaN |
| Zod.ShapeReadsOnlyItsKeys | src/components/SchemaForm.tsx:26 | an object's parse depends only on the keys its shape names |
| Zod.Reparse | src/components/SchemaForm.tsx:26 | parsing a parse output again under a well-formed rule passes and gives back the same output |
| Zod.ShapeReparse | src/components/SchemaForm.tsx:26 | reparsing a parsed object passes and gives back the same entries |
| Zod.ElementsReparse | src/components/SchemaForm.tsx:26 | reparsing parsed elements passes and gives back the same elements |
| SchemaTypes.ParseType | src/types/schemaTypes.ts:3-20 | a string is read as the type of that name, and as no type when no type has that name |
| SchemaTypes.FindType | src/types/schemaTypes.ts:42-60 | the search finds a listed type of the given name, and finds nothing only when no listed type has it |
| SchemaTypes.RegistryComplete | src/types/schemaTypes.ts:42-60 | the type list has seventeen entries, holds every type, and holds none twice |
| SchemaTypes.TypeNamesDistinct | src/types/schemaTypes.ts:3-20 | two types with the same name are the same type |
| SchemaTypes.ParseTypeName | src/types/schemaTypes.ts:3-20 | reading a type's name gives back that type |
| SchemaTypes.CategoryMembersListed | src/types/schemaTypes.ts:71-100 | each name a category lists is the name of a type whose home is that category |
| SchemaTypes.HomeListsType | src/types/schemaTypes.ts:71-100 | every type is listed in its home category |
| SchemaTypes.CategoriesPartition | src/types/schemaTypes.ts:71-100 | every type lies in its home category and in no other, categories list only type names, and no category is empty |
| SchemaCoverage.LeafPathsAgree | src/types/schemaTypes.ts:102-113 | agreeing field and rule trees have the same leaf paths in the same order |
| SchemaCoverage.FieldLeavesAgree | src/types/schemaTypes.ts:102-113 | an agreeing field and key have the same leaf paths |
| SchemaCoverage.AgreeingShapeWellFormed | src/types/schemaTypes.ts:102-113 | the rule of a well-formed field list it agrees with is well formed: distinct keys and object arrays |
| SchemaCoverage.FieldRuleWellFormed | src/types/schemaTypes.ts:102-113 | the rule of a well-formed field it agrees with is well formed |
| SchemaCoverage.TablesConsistent | src/types/schemaTypes.ts:110-113 | a type whose tables agree has the same leaf paths in its fields as in its rule, and a well-formed rule |
| SchemaCoverage.ArticleIsThreeDeep | src/types/schemaTypes.ts:314-335 | Article's `publisher` (holding `logo.url`) does not fit in two levels, so three is reached |
| SchemaCoverage.AddressGroupAgrees | src/types/schemaTypes.ts:116-195 | the shared address group agrees with the shared address rule |
| SchemaCoverage.AddressGroupWellFormed | src/types/schemaTypes.ts:116-195 | the shared address group is well formed within three levels |
| SchemaCoverage.LocalBusinessAgrees | src/types/schemaTypes.ts:116-195 | LocalBusiness's zod rule is an object rule whose keys follow its fields in order, with `.optional()` exactly on the fields not marked required and a rule of the input's kind at every leaf |
| SchemaCoverage.LocalBusinessNesting | src/types/schemaTypes.ts:116-195 | every field of LocalBusiness is well formed: subfields exactly on object and array fields, no empty group, at most three levels |
| SchemaCoverage.LocalBusinessNames | src/types/schemaTypes.ts:116-195 | LocalBusiness's top-level field names are pairwise distinct |
| SchemaCoverage.LocalBusinessConsistent | src/types/schemaTypes.ts:116-195 | LocalBusiness's form value paths are exactly the paths its zod rule checks, in the same order, and the rule is well formed |
| SchemaCoverage.ProductAgrees | src/types/schemaTypes.ts:196-282 | Product's zod rule is an object rule whose keys follow its fields in order, with `.optional()` exactly on the fields not marked required and a rule of the input's kind at every leaf |
| SchemaCoverage.ProductNesting | src/types/schemaTypes.ts:196-282 | every field of Product is well formed: subfields exactly on object and array fields, no empty group, at most three levels |
| SchemaCoverage.ProductNames | src/types/schemaTypes.ts:196-282 | Product's top-level field names are pairwise distinct |
| SchemaCoverage.ProductConsistent | src/types/schemaTypes.ts:196-282 | Product's form value paths are exactly the paths its zod rule checks, in the same order, and the rule is well formed |
| SchemaCoverage.ArticleAgrees | src/types/schemaTypes.ts:283-370 | Article's zod rule is an object rule whose keys follow its fields in order, with `.optional()` exactly on the fields not marked required and a rule of the input's kind at every leaf |
| SchemaCoverage.ArticleNesting | src/types/schemaTypes.ts:283-370 | every field of Article is well formed: subfields exactly on object and array fields, no empty group, at most three levels |
| SchemaCoverage.ArticleNames | src/types/schemaTypes.ts:283-370 | Article's top-level field names are pairwise distinct |
| SchemaCoverage.ArticleConsistent | src/types/schemaTypes.ts:283-370 | Article's form value paths are exactly the paths its zod rule checks, in the same order, and the rule is well formed |
| SchemaCoverage.EventAgrees | src/types/schemaTypes.ts:371-441 | Event's zod rule is an object rule whose keys follow its fields in order, with `.optional()` exactly on the fields not marked required and a rule of the input's kind at every leaf |
| SchemaCoverage.EventNesting | src/types/schemaTypes.ts:371-441 | every field of Event is well formed: subfields exactly on object and array fields, no empty group, at most three levels |
| SchemaCoverage.EventNames | src/types/schemaTypes.ts:371-441 | Event's top-level field names are pairwise distinct |
| SchemaCoverage.EventConsistent | src/types/schemaTypes.ts:371-441 | Event's form value paths are exactly the paths its zod rule checks, in the same order, and the rule is well formed |
| SchemaCoverage.RecipeAgrees | src/types/schemaTypes.ts:442-518 | Recipe's zod rule is an object rule whose keys follow its fields in order, with `.optional()` exactly on the fields not marked required and a rule of the input's kind at every leaf |
| SchemaCoverage.RecipeNesting | src/types/schemaTypes.ts:442-518 | every field of Recipe is well formed: subfields exactly on object and array fields, no empty group, at most three levels |
| SchemaCoverage.RecipeNames | src/types/schemaTypes.ts:442-518 | Recipe's top-level field names are pairwise distinct |
| SchemaCoverage.RecipeConsistent | src/types/schemaTypes.ts:442-518 | Recipe's form value paths are exactly the paths its zod rule checks, in the same order, and the rule is well formed |
| SchemaCoverage.FAQPageAgrees | src/types/schemaTypes.ts:519-542 | FAQPage's zod rule is an object rule whose keys follow its fields in order, with `.optional()` exactly on the fields not marked required and a rule of the input's kind at every leaf |
| SchemaCoverage.FAQPageNesting | src/types/schemaTypes.ts:519-542 | every field of FAQPage is well formed: subfields exactly on object and array fields, no empty group, at most three levels |
| SchemaCoverage.FAQPageNames | src/types/schemaTypes.ts:519-542 | FAQPage's top-level field names are pairwise distinct |
| SchemaCoverage.FAQPageConsistent | src/types/schemaTypes.ts:519-542 | FAQPage's form value paths are exactly the paths its zod rule checks, in the same order, and the rule is well formed |
| SchemaCoverage.RestaurantAgrees | src/types/schemaTypes.ts:543-606 | Restaurant's zod rule is an object rule whose keys follow its fields in order, with `.optional()` exactly on the fields not marked required and a rule of the input's kind at every leaf |
| SchemaCoverage.RestaurantNesting | src/types/schemaTypes.ts:543-606 | every field of Restaurant is well formed: subfields exactly on object and array fields, no empty group, at most three levels |
| SchemaCoverage.RestaurantNames | src/types/schemaTypes.ts:543-606 | Restaurant's top-level field names are pairwise distinct |
| SchemaCoverage.RestaurantConsistent | src/types/schemaTypes.ts:543-606 | Restaurant's form value paths are exactly the paths its zod rule checks, in the same order, and the rule is well formed |
| SchemaCoverage.HotelAgrees | src/types/schemaTypes.ts:607-686 | Hotel's zod rule is an object rule whose keys follow its fields in order, with `.optional()` exactly on the fields not marked required and a rule of the input's kind at every leaf |
| SchemaCoverage.HotelNesting | src/types/schemaTypes.ts:607-686 | every field of Hotel is well formed: subfields exactly on object and array fields, no empty group, at most three levels |
| SchemaCoverage.HotelNames | src/types/schemaTypes.ts:607-686 | Hotel's top-level field names are pairwise distinct |
| SchemaCoverage.HotelConsistent | src/types/schemaTypes.ts:607-686 | Hotel's form value paths are exactly the paths its zod rule checks, in the same order, and the rule is well formed |
| SchemaCoverage.WebSiteAgrees | src/types/schemaTypes.ts:687-703 | WebSite's zod rule is an object rule whose keys follow its fields in order, with `.optional()` exactly on the fields not marked required and a rule of the input's kind at every leaf |
| SchemaCoverage.WebSiteNesting | src/types/schemaTypes.ts:687-703 | every field of WebSite is well formed: subfields exactly on object and array fields, no empty group, at most three levels |
| SchemaCoverage.WebSiteNames | src/types/schemaTypes.ts:687-703 | WebSite's top-level field names are pairwise distinct |
| SchemaCoverage.WebSiteConsistent | src/types/schemaTypes.ts:687-703 | WebSite's form value paths are exactly the paths its zod rule checks, in the same order, and the rule is well formed |
| SchemaCoverage.ReviewAgrees | src/types/schemaTypes.ts:704-773 | Review's zod rule is an object rule whose keys follow its fields in order, with `.optional()` exactly on the fields not marked required and a rule of the input's kind at every leaf |
| SchemaCoverage.ReviewNesting | src/types/schemaTypes.ts:704-773 | every field of Review is well formed: subfields exactly on object and array fields, no empty group, at most three levels |
| SchemaCoverage.ReviewNames | src/types/schemaTypes.ts:704-773 | Review's top-level field names are pairwise distinct |
| SchemaCoverage.ReviewConsistent | src/types/schemaTypes.ts:704-773 | Review's form value paths are exactly the paths its zod rule checks, in the same order, and the rule is well formed |
| SchemaCoverage.BlogPostingAgrees | src/types/schemaTypes.ts:774-809 | BlogPosting's zod rule is an object rule whose keys follow its fields in order, with `.optional()` exactly on the fields not marked required and a rule of the input's kind at every leaf |
| SchemaCoverage.BlogPostingNesting | src/types/schemaTypes.ts:774-809 | every field of BlogPosting is well formed: subfields exactly on object and array fields, no empty group, at most three levels |
| SchemaCoverage.BlogPostingNames | src/types/schemaTypes.ts:774-809 | BlogPosting's top-level field names are pairwise distinct |
| SchemaCoverage.BlogPostingConsistent | src/types/schemaTypes.ts:774-809 | BlogPosting's form value paths are exactly the paths its zod rule checks, in the same order, and the rule is well formed |
| SchemaCoverage.NewsArticleAgrees | src/types/schemaTypes.ts:810-847 | NewsArticle's zod rule is an object rule whose keys follow its fields in order, with `.optional()` exactly on the fields not marked required and a rule of the input's kind at every leaf |
| SchemaCoverage.NewsArticleNesting | src/types/schemaTypes.ts:810-847 | every field of NewsArticle is well formed: subfields exactly on object and array fields, no empty group, at most three levels |
| SchemaCoverage.NewsArticleNames | src/types/schemaTypes.ts:810-847 | NewsArticle's top-level field names are pairwise distinct |
| SchemaCoverage.NewsArticleConsistent | src/types/schemaTypes.ts:810-847 | NewsArticle's form value paths are exactly the paths its zod rule checks, in the same order, and the rule is well formed |
| SchemaCoverage.MovieAgrees | src/types/schemaTypes.ts:848-904 | Movie's zod rule is an object rule whose keys follow its fields in order, with `.optional()` exactly on the fields not marked required and a rule of the input's kind at every leaf |
| SchemaCoverage.MovieNesting | src/types/schemaTypes.ts:848-904 | every field of Movie is well formed: subfields exactly on object and array fields, no empty group, at most three levels |
| SchemaCoverage.MovieNames | src/types/schemaTypes.ts:848-904 | Movie's top-level field names are pairwise distinct |
| SchemaCoverage.MovieConsistent | src/types/schemaTypes.ts:848-904 | Movie's form value paths are exactly the paths its zod rule checks, in the same order, and the rule is well formed |
| SchemaCoverage.BookAgrees | src/types/schemaTypes.ts:905-942 | Book's zod rule is an object rule whose keys follow its fields in order, with `.optional()` exactly on the fields not marked required and a rule of the input's kind at every leaf |
| SchemaCoverage.BookNesting | src/types/schemaTypes.ts:905-942 | every field of Book is well formed: subfields exactly on object and array fields, no empty group, at most three levels |
| SchemaCoverage.BookNames | src/types/schemaTypes.ts:905-942 | Book's top-level field names are pairwise distinct |
| SchemaCoverage.BookConsistent | src/types/schemaTypes.ts:905-942 | Book's form value paths are exactly the paths its zod rule checks, in the same order, and the rule is well formed |
| SchemaCoverage.JobPostingAgrees | src/types/schemaTypes.ts:943-1026 | JobPosting's zod rule is an object rule whose keys follow its fields in order, with `.optional()` exactly on the fields not marked required and a rule of the input's kind at every leaf |
| SchemaCoverage.JobPostingNesting | src/types/schemaTypes.ts:943-1026 | every field of JobPosting is well formed: subfields exactly on object and array fields, no empty group, at most three levels |
| SchemaCoverage.JobPostingNames | src/types/schemaTypes.ts:943-1026 | JobPosting's top-level field names are pairwise distinct |
| SchemaCoverage.JobPostingConsistent | src/types/schemaTypes.ts:943-1026 | JobPosting's form value paths are exactly the paths its zod rule checks, in the same order, and the rule is well formed |
| SchemaCoverage.PersonAgrees | src/types/schemaTypes.ts:1027-1053 | Person's zod rule is an object rule whose keys follow its fields in order, with `.optional()` exactly on the fields not marked required and a rule of the input's kind at every leaf |
| SchemaCoverage.PersonNesting | src/types/schemaTypes.ts:1027-1053 | every field of Person is well formed: subfields exactly on object and array fields, no empty group, at most three levels |
| SchemaCoverage.PersonNames | src/types/schemaTypes.ts:1027-1053 | Person's top-level field names are pairwise distinct |
| SchemaCoverage.PersonConsistent | src/types/schemaTypes.ts:1027-1053 | Person's form value paths are exactly the paths its zod rule checks, in the same order, and the rule is well formed |
| SchemaCoverage.OrganizationAgrees | src/types/schemaTypes.ts:1054-1123 | Organization's zod rule is an object rule whose keys follow its fields in order, with `.optional()` exactly on the fields not marked required and a rule of the input's kind at every leaf |
| SchemaCoverage.OrganizationNesting | src/types/schemaTypes.ts:1054-1123 | every field of Organization is well formed: subfields exactly on object and array fields, no empty group, at most three levels |
| SchemaCoverage.OrganizationNames | src/types/schemaTypes.ts:1054-1123 | Organization's top-level field names are pairwise distinct |
| SchemaCoverage.OrganizationConsistent | src/types/schemaTypes.ts:1054-1123 | Organization's form value paths are exactly the paths its zod rule checks, in the same order, and the rule is well formed |
| SchemaRules.PriceIsPositive | src/types/schemaTypes.ts:265 | Product `offers.price` passes exactly when it is above zero, with "Price must be positive" otherwise; NaN fails as not a number and a missing price as required |
| SchemaRules.ProductRatingInRange | src/types/schemaTypes.ts:271-278 | Product `aggregateRating.ratingValue` passes exactly in [0, 5]; below zero gives zod's default message and above five the custom one |
| SchemaRules.ReviewCountIsPositiveInteger | src/types/schemaTypes.ts:271-280 | Product `aggregateRating.reviewCount` passes exactly when it is a positive whole number, with the message of the first check that fails |
| SchemaRules.HotelStarsInRange | src/types/schemaTypes.ts:682 | Hotel `starRating.ratingValue` passes exactly in [1, 5] |
| SchemaRules.ReviewRatingsNonNegative | src/types/schemaTypes.ts:764-766 | Review `ratingValue`, `bestRating` and `worstRating` each pass exactly when non-negative |
| SchemaRules.EmptyBusinessNameRejected | src/types/schemaTypes.ts:176 | a LocalBusiness whose `name` is empty gets "Business name is required" at path `name` |
| SchemaRules.EventImageOptional | src/types/schemaTypes.ts:433 | Event `image` passes when absent and is checked as a URL when present |
| SchemaRules.PersonEmailOptional | src/types/schemaTypes.ts:1050 | Person `email` passes when absent and is checked as an e-mail address when present |
| SchemaRules.BlankOptionalInputsRejected | src/types/schemaTypes.ts:433 | a blank Event `image` input holds the empty text, which is present and not a URL, so it is rejected with "Invalid image URL"; a blank Person `email` likewise gets "Invalid email" |
| SchemaRules.EmptyListsRejected | src/types/schemaTypes.ts:503-540 | an empty Recipe `ingredients` or `instructions`, FAQPage `mainEntity` or Movie `actor` list is rejected at its own path with its own message |
| SchemaRules.IngredientElementChecked | src/types/schemaTypes.ts:503-509 | an ingredient element with an empty `item` gets "Ingredient is required" at that element's `item` path |
| SchemaRules.ArticleDatesMatchPattern | src/types/schemaTypes.ts:351-356 | Article `datePublished` and `dateModified` pass exactly when they match the `YYYY-MM-DD` pattern |
| SchemaRules.EventAndPostDatesUnchecked | src/types/schemaTypes.ts:805 | Event start and end dates and the BlogPosting and NewsArticle publication dates only need to be non-empty |
| SchemaRules.OtherDatesUnchecked | src/types/schemaTypes.ts:1014-1015 | the Movie, Book and JobPosting dates only need to be non-empty, and Person `birthDate` accepts any text |
| SchemaForm.Digit | src/components/SchemaForm.tsx:145-153 | a digit below ten is a decimal digit character |
| SchemaForm.NatString | src/components/SchemaForm.tsx:145-153 | an array index is written as a non-empty run of digits |
| SchemaForm.NatStringValue | src/components/SchemaForm.tsx:145-153 | the digits written for an index read back as that index |
| SchemaForm.FullNameIsDotted | src/components/SchemaForm.tsx:37 | the name built from a parent name and a field name is the dotted form of the child's path |
| SchemaForm.DottedAll | src/components/SchemaForm.tsx:36-62 | each path is written in its dotted form, position by position |
| SchemaForm.Names | src/components/SchemaForm.tsx:36-62 | the names of the controls, position by position |
| SchemaForm.RenderFollowsLeafPaths | src/components/SchemaForm.tsx:36-62 | the form's controls, depth first in declaration order, are named by the dotted leaf paths of the field tree |
| SchemaForm.RenderOneFollowsLeafPaths | src/components/SchemaForm.tsx:36-62 | the controls of one field are named by that field's dotted leaf paths |
| SchemaForm.ControlsAreLeaves | src/components/SchemaForm.tsx:36-107 | no input is rendered for an object or array field itself |
| SchemaForm.ControlIsLeaf | src/components/SchemaForm.tsx:36-107 | no input of one field is an object or array input |
| SchemaForm.RequiredIgnored | src/components/SchemaForm.tsx:36-107 | changing a field's `required` flag changes nothing rendered |
| SchemaForm.Row | src/components/SchemaForm.tsx:147-163 | one array element row has exactly one input per subfield |
| SchemaForm.Rows | src/components/SchemaForm.tsx:145-164 | an array of `n` elements has `n` rows of one input per subfield |
| SchemaForm.RowsFollowPaths | src/components/SchemaForm.tsx:145-164 | the input for element `i`, subfield `j` is named by the dotted path `array.i.sub` |
| SchemaForm.RowFollowsPaths | src/components/SchemaForm.tsx:147-163 | in one row, each subfield's input is named `array.i.sub` |
| SchemaForm.AppendEmpty | src/components/SchemaForm.tsx:176 | append adds one empty element at the end and keeps the others |
| SchemaForm.RemoveAt | src/components/SchemaForm.tsx:167 | remove(i) drops element i, keeps the earlier ones, moves the later ones down by one, and leaves the list as it is when i is past the end |
| SchemaForm.RemoveUndoesAppend | src/components/SchemaForm.tsx:167-176 | removing the element just appended gives back the list |
| SchemaForm.ElementsAfterWrite | src/components/SchemaForm.tsx:137-140 | a list written at a writable path reads back as that list |
| SchemaForm.LeadingDigits | src/components/SchemaForm.tsx:72-73 | the run of digits at the start of a text is all digits and ends where the digits end |
| SchemaForm.Pow10 | src/components/SchemaForm.tsx:72-73 | a power of ten is at least one |
| SchemaForm.ValueAsNumberReadsIntegers | src/components/SchemaForm.tsx:72-73 | a typed whole number, with or without a minus sign, reads as that number, and nothing typed reads as NaN |
| SchemaForm.AllDigitsLead | src/components/SchemaForm.tsx:72-73 | in a text of digits only, the digits run to its end |
| SchemaForm.NaNFailsNumberRule | src/components/SchemaForm.tsx:72-73 | a number input that reads NaN fails any number rule with zod's type message |
| SchemaForm.Submitted | src/components/SchemaForm.tsx:19-28 | data reaches the callback exactly when the type's rule accepts the form's values, and what reaches it is the rule's parsed output |
| SchemaForm.SubmittedIsClean | src/components/SchemaForm.tsx:26 | data that reaches the callback is an object holding only the rule's keys, so `@context` and any other extra key are stripped, and it holds no NaN |
| SchemaForm.ResubmitIsStable | src/components/SchemaForm.tsx:26 | submitting delivered data again delivers it unchanged |
| SchemaForm.FirstMessageAt | src/components/SchemaForm.tsx:79-83 | there is a message for a path exactly when some issue is at that path, and it is the message of an issue at that path |
| SchemaForm.ErrorBeside | src/components/SchemaForm.tsx:101-105 | corrected lookup: there is a message beside an input exactly when some issue is at that input's path, and it is that issue's message |
| SchemaForm.TopLevelErrorsAgree | src/components/SchemaForm.tsx:79-83 | for a top-level input the lookup as written and the corrected lookup show the same message |
| SchemaForm.NestedErrorHidden | src/components/SchemaForm.tsx:79-83 | as written, Product's `offers.price` input never shows the price error that the corrected lookup shows |
| SchemaForm.WrongErrorShown | src/components/SchemaForm.tsx:101-105 | as written, Product's `brand.name` input shows the product's own name error, and the corrected lookup shows none there |
| SchemaForm.FormStore.constructor | src/components/SchemaForm.tsx:25-28 | the store starts with the initial data (an empty object without any) and no errors |
| SchemaForm.FormStore.Reset | src/components/SchemaForm.tsx:30-34 | reset puts the given values in place and clears the errors |
| SchemaForm.FormStore.Register | src/components/SchemaForm.tsx:72-73 | registering an input with nothing at its path stores its empty reading there (NaN for a number input); a value already there is kept |
| SchemaForm.FormStore.Enter | src/components/SchemaForm.tsx:95-96 | typing into an input stores its reading at the input's path, and that path then reads it |
| SchemaForm.FormStore.Append | src/components/SchemaForm.tsx:176 | the array at the path becomes its old elements with one empty element appended |
| SchemaForm.FormStore.Remove | src/components/SchemaForm.tsx:167 | the array at the path becomes its old elements with element i removed |
| SchemaForm.FormStore.Submit | src/components/SchemaForm.tsx:111-112 | submit leaves the values alone, makes the rule's issues the errors, and delivers data exactly when there are none |
| SchemaMarkupGenerator.Assemble | src/components/SchemaMarkupGenerator.tsx:48-52 | the markup is always an object |
| SchemaMarkupGenerator.AssembleLookup | src/components/SchemaMarkupGenerator.tsx:48-52 | a key of the data reads the data's value, so a data key named `@context` or `@type` overrides the tag; any other key reads the tag |
| SchemaMarkupGenerator.AssembleKeys | src/components/SchemaMarkupGenerator.tsx:48-52 | the markup's keys are `@context`, `@type`, then the data's other keys in order |
| SchemaMarkupGenerator.AssembleTags | src/components/SchemaMarkupGenerator.tsx:48-52 | data without tag keys gets `@context` set to `https://schema.org` and `@type` set to the type |
| SchemaMarkupGenerator.SubmittedDocumentTagged | src/components/SchemaMarkupGenerator.tsx:47-54 | data that passed a rule not naming the tags is assembled with the schema.org context and the selected type |
| SchemaMarkupGenerator.InitialDocumentIsAssembled | src/components/SchemaMarkupGenerator.tsx:20-37 | the initial document already carries the tags that assembly would give it |
| SchemaMarkupGenerator.EntryToSave | src/components/SchemaMarkupGenerator.tsx:63-75 | an entry is written exactly when there is data and a selected type; it carries the type, the data and the name `<type> Schema <time>` |
| SchemaMarkupGenerator.InitialSessionSound | src/components/SchemaMarkupGenerator.tsx:16-37 | the initial session is coherent (markup present exactly with data) and its type is a known type |
| SchemaMarkupGenerator.TransitionsCoherent | src/components/SchemaMarkupGenerator.tsx:40-87 | selecting, submitting and loading each leave markup present exactly when data is, and markup assembled from the data and type |
| SchemaMarkupGenerator.TransitionsKeepKnownType | src/components/SchemaMarkupGenerator.tsx:40-87 | selecting a known type, submitting, and loading an entry of a known type each leave a known type selected |
| SchemaMarkupGenerator.SavedTypeKnown | src/components/SchemaMarkupGenerator.tsx:63-75 | an entry saved while a known type is selected has a known type |
| SchemaMarkupGenerator.SubmitEnablesSave | src/components/SchemaMarkupGenerator.tsx:40-75 | after a submit there is something to save; right after selecting a type there is nothing |
| SchemaMarkupGenerator.SaveLoadRoundTrip | src/components/SchemaMarkupGenerator.tsx:47-87 | loading the entry saved right after a submit gives back the session of that submit: type, data and markup |
| SchemaMarkupGenerator.Generator.constructor | src/components/SchemaMarkupGenerator.tsx:16-38 | after mounting, the state is the initial session |
| SchemaMarkupGenerator.Generator.HandleTypeSelect | src/components/SchemaMarkupGenerator.tsx:40-45 | the new state selects the type and clears data and markup |
| SchemaMarkupGenerator.Generator.HandleFormSubmit | src/components/SchemaMarkupGenerator.tsx:47-56 | the new state keeps the type, holds the data and the markup assembled from it |
| SchemaMarkupGenerator.Generator.HandleSaveSchema | src/components/SchemaMarkupGenerator.tsx:63-75 | the store gets the session's entry appended, or is left as it is when there is none |
| SchemaMarkupGenerator.Generator.HandleLoadSchema | src/components/SchemaMarkupGenerator.tsx:77-87 | the new state is the entry's type and data and the markup assembled from them |
| SchemaTypeSelector.TypeIndexFrom | src/components/SchemaTypeSelector.tsx:34-36 | the first category from a position on that lists the type, or none when no later category does |
| SchemaTypeSelector.NameIndexFrom | src/components/SchemaTypeSelector.tsx:47-49 | the first category from a position on with the given name, or none when no later category has it |
| SchemaTypeSelector.CategoryNamesDistinct | src/types/schemaTypes.ts:71-100 | no two categories share a name |
| SchemaTypeSelector.TypeFindsHome | src/components/SchemaTypeSelector.tsx:34-36 | the category found for a type is the one that lists it |
| SchemaTypeSelector.NameFindsCategory | src/components/SchemaTypeSelector.tsx:59-61 | every category is found by its own name |
| SchemaTypeSelector.UnknownCategoryOffersNothing | src/components/SchemaTypeSelector.tsx:47-61 | a category name nobody has offers no type and selects none |
| SchemaTypeSelector.OfferedTypesAreTypes | src/components/SchemaTypeSelector.tsx:55-61 | every type offered is the name of a schema type |
| SchemaTypeSelector.ChangeThenSync | src/components/SchemaTypeSelector.tsx:32-53 | choosing a category selects its first type, a schema type, and the sync that follows lands on the chosen category again |
| SchemaTypeSelector.SelectedTypeIsOffered | src/components/SchemaTypeSelector.tsx:32-40 | once synced to a type, the type list offers that type |
| SchemaTypeSelector.Selector.constructor | src/components/SchemaTypeSelector.tsx:18-22 | the category starts as 'Business & Organizations' |
| SchemaTypeSelector.Selector.Mount | src/components/SchemaTypeSelector.tsx:24-30 | with no type selected, the category becomes the default one and 'LocalBusiness' is selected; otherwise nothing happens |
| SchemaTypeSelector.Selector.SyncCategory | src/components/SchemaTypeSelector.tsx:32-40 | the category becomes the first one listing the selected type, and stays as it was when none does |
| SchemaTypeSelector.Selector.HandleCategoryChange | src/components/SchemaTypeSelector.tsx:42-53 | the category becomes the chosen one, and its first type is selected when it is known and has one |
| SchemaTypeSelector.Selector.HandleTypeChange | src/components/SchemaTypeSelector.tsx:55-57 | the chosen option is reported as it is, and an offered option is a schema type |
| SchemaStorageUtils.Without | src/lib/schemaStorageUtils.ts:20-24 | deleting keeps exactly the entries whose id differs |
| SchemaStorageUtils.WithoutAppend | src/lib/schemaStorageUtils.ts:20-24 | the entries kept stay in their original order |
| SchemaStorageUtils.WithoutAbsent | src/lib/schemaStorageUtils.ts:20-24 | deleting an id no entry has leaves the list unchanged |
| SchemaStorageUtils.WithoutTwice | src/lib/schemaStorageUtils.ts:20-24 | deleting the same id twice is deleting it once |
| SchemaStorageUtils.WithoutLength | src/lib/schemaStorageUtils.ts:20-24 | deleting removes exactly as many entries as carry the id |
| SchemaStorageUtils.DuplicateIds | src/lib/schemaStorageUtils.ts:9-13 | saving does not check ids: two entries with one id both get stored, and one delete removes both |
| SchemaStorageUtils.Store.constructor | src/lib/schemaStorageUtils.ts:15-18 | nothing is stored at first |
| SchemaStorageUtils.Store.GetSavedSchemas | src/lib/schemaStorageUtils.ts:15-18 | reading gives back the stored list, or no entry when nothing is stored |
| SchemaStorageUtils.Store.SaveSchema | src/lib/schemaStorageUtils.ts:9-13 | the stored list becomes the old list with the entry at its end: one longer, the old list as its prefix |
| SchemaStorageUtils.Store.DeleteSavedSchema | src/lib/schemaStorageUtils.ts:20-24 | the stored list becomes the old list without the entries carrying the id |

## Left out

- The URL and e-mail checks of zod are parameters of `Parse` (the two predicates of `Formats`), not definitions.
- zod can report several messages for one value; the model keeps the first failing check per value, which is the one react-hook-form shows.
- The JSON text of the markup (`JSON.stringify` with indentation 2) is not modelled: the markup is the assembled document value. Likewise, the JSON encoding in the storage slot is taken as the identity, so the slot holds the list itself.
- The browser's `localStorage` is reduced to the one `savedSchemas` slot.
- Clock values (`Date.now()` ids, local and ISO timestamps) are parameters of the save handler.
- Clipboard copying and toast notifications are not modelled.
- Labels and descriptions do not affect behaviour; `Description` is transcribed but nothing is proved about it beyond its being total.
- `SchemaPreview.tsx`, `GenerateMarkup.tsx`, `SavedSchemaManager.tsx` and `layout.tsx` are presentation and are not part of this model.
- react-hook-form's rendering, element keys and effect timing are not modelled. Only the value store, array append and remove, and the submit gate are modelled.
- SchemaForm.FormStore.Register: registers one input at a time. The form registering all of its inputs on first render is not modelled as a loop.
- SchemaForm.ValueAsNumber: numbers are exact reals in the model. The browser reads a number input as an IEEE double, so a numeral beyond a double's precision is rounded there (`1.0000000000000001` is exactly 1 and passes `.int()`, `5.0000000000000001` passes `.max(5)`), and one beyond its range becomes `Infinity` (which passes `.positive()` and is written as `null` in the markup). The model reads such numerals exactly, so its verdicts on them differ.
- SchemaForm.ValueAsNumberReadsIntegers: a number input's reading is defined for decimal numerals without an exponent. Exponent notation such as `1e3` reads NaN in the model, but the browser reads it as a number; only whole numbers are proved to read as themselves.
- SchemaMarkupGenerator.Members: spreading a non-object (a string or an array) into the markup contributes no entry here, where JavaScript would spread a string's characters or an array's indices. Submitted data is always an object, so this only matters for loaded entries.
- SchemaMarkupGenerator.EntryToSave: the save handler's guard is JavaScript truthiness (`schemaData && selectedType`), which also refuses falsy data such as `0`, `""` or `false`. The model saves any present data, and `Value` has no null or boolean. Only a tampered loaded entry can hold such data.
- Values.Set: the form library's `set` creates an array when the next step is a number and writes past an array's end. The model writes nothing in those cases, and a key step into an array writes nothing either. The form only writes at the paths of the inputs it renders, whose array steps name existing rows, so these cases are not reached.
- SchemaMarkupGenerator.Generator.HandleLoadSchema: the cast of a saved entry's type to a schema type is unchecked, as in the source; the model keeps the type as a string, and `TransitionsKeepKnownType` states when it is a known type.
- SchemaRules: facts are stated per field, for the numeric, list and date fields named in the rows above, not quantified over all seventeen tables.

## Findings

| source | as written | input that shows it | evidently intended | confidence | as-written member | corrected member |
|---|---|---|---|---|---|---|
| src/components/SchemaForm.tsx:79-83, src/components/SchemaForm.tsx:101-105 | the message beside an input is looked up as `errors[field.name]`, by the field's own name at the top level | Product with `offers.price = 0`: the issue is at `offers.price`, and nothing is shown beside the price input. Product with empty `name`: the `brand.name` input shows "Product name is required" | look the error up by the input's full path (`offers.price`) | not executed | SchemaForm.ShownAsWritten (exhibited by SchemaForm.NestedErrorHidden and SchemaForm.WrongErrorShown) | SchemaForm.ErrorBeside |
