/**
 * The page state of `SchemaMarkupGenerator.tsx`: the selected type, the
 * data last submitted or loaded, and the generated markup. The markup is
 * the JSON text of an assembled document; the model keeps the document
 * value itself (no markup is the empty string of the source).
 */
module SchemaMarkupGenerator {
  import opened Wrappers
  import opened Values
  import opened Zod
  import opened SchemaTypes
  import opened SchemaStorageUtils
  import opened SchemaForm

  const SchemaContext: string := "https://schema.org"

  /** The two tags every document starts with. */
  function Tags(typeName: string): seq<(string, Value)>
  {
    [("@context", Str(SchemaContext)), ("@type", Str(typeName))]
  }

  /** The members `...data` spreads: an object's own entries, nothing for anything else. */
  function Members(data: Value): seq<(string, Value)>
  {
    if data.Obj? then data.entries else []
  }

  /** `{'@context': 'https://schema.org', '@type': typeName, ...data}` */
  function Assemble(typeName: string, data: Value): (doc: Value)
    ensures doc.Obj?
  {
    Obj(Spread(Tags(typeName), Members(data)))
  }

  /** The document holds the data's members; the tags stay only where the data has no member of that name. */
  lemma AssembleLookup(typeName: string, data: Value, k: string)
    requires DistinctKeys(Members(data))
    ensures Lookup(Assemble(typeName, data).entries, k) ==
              if k in Keys(Members(data)) then Lookup(Members(data), k)
              else if k == "@context" then Some(Str(SchemaContext))
              else if k == "@type" then Some(Str(typeName))
              else None
  {
    SpreadLookup(Tags(typeName), Members(data), k);
  }

  /** The document's keys: the two tags first, then the data's other keys in their order. */
  lemma AssembleKeys(typeName: string, data: Value)
    ensures Keys(Assemble(typeName, data).entries) == ["@context", "@type"] + NewKeys(["@context", "@type"], Keys(Members(data)))
  {
    SpreadKeys(Tags(typeName), Members(data));
    assert Keys(Tags(typeName)) == ["@context", "@type"];
  }

  /** Data without tag keys yields a document tagged with the schema.org context and the given type. */
  lemma AssembleTags(typeName: string, data: Value)
    requires DistinctKeys(Members(data))
    requires "@context" !in Keys(Members(data)) && "@type" !in Keys(Members(data))
    ensures Lookup(Assemble(typeName, data).entries, "@context") == Some(Str(SchemaContext))
    ensures Lookup(Assemble(typeName, data).entries, "@type") == Some(Str(typeName))
  {
    AssembleLookup(typeName, data, "@context");
    AssembleLookup(typeName, data, "@type");
  }

  /**
   * Whatever the form delivers under an object rule that names neither tag
   * is tagged by the submit with the schema.org context and the selected
   * type: validation strips any tag the user's values carried.
   */
  lemma SubmittedDocumentTagged(s: Session, v: Value, shape: seq<Prop>, fm: Formats)
    requires "@context" !in ShapeKeys(shape) && "@type" !in ShapeKeys(shape)
    requires Submitted(v, ZObject(shape), fm).Some?
    ensures Lookup(SubmitData(s, Submitted(v, ZObject(shape), fm).value).generatedMarkup.value.entries, "@context") == Some(Str(SchemaContext))
    ensures Lookup(SubmitData(s, Submitted(v, ZObject(shape), fm).value).generatedMarkup.value.entries, "@type") == Some(Str(s.selectedType))
  {
    var data := Submitted(v, ZObject(shape), fm).value;
    ShapeOutputKeys(v.entries, shape, [], fm);
    assert Members(data) == ParseShape(v.entries, shape, [], fm).entries;
    SpreadUntouched(Tags(s.selectedType), Members(data), "@context");
    SpreadUntouched(Tags(s.selectedType), Members(data), "@type");
  }

  /** The default LocalBusiness document shown on first render, tags included. */
  const InitialDocument: Value := Obj([
    ("@context", Str(SchemaContext)),
    ("@type", Str("LocalBusiness")),
    ("name", Str("Your Business Name")),
    ("address", Obj([
      ("@type", Str("PostalAddress")),
      ("streetAddress", Str("123 Main St")),
      ("addressLocality", Str("Your City")),
      ("addressRegion", Str("Your State")),
      ("postalCode", Str("12345")),
      ("addressCountry", Str("Your Country"))
    ]))
  ])

  /** Assembling a document that already starts with the tags for its type, and has no other tag keys, leaves it as it is. */
  lemma AssembleTagged(typeName: string, rest: seq<(string, Value)>)
    requires DistinctKeys(rest)
    requires forall i :: 0 <= i < |rest| ==> rest[i].0 != "@context" && rest[i].0 != "@type"
    ensures Assemble(typeName, Obj(Tags(typeName) + rest)) == Obj(Tags(typeName) + rest)
  {
    SpreadPastTags(typeName, rest);
    var base := Tags(typeName);
    assert forall i, j :: 0 <= i < |rest| && 0 <= j < |base| ==> rest[i].0 != base[j].0;
    SpreadFresh(base, rest);
  }

  /** Spreading the tags over themselves changes nothing. */
  lemma SpreadPastTags(typeName: string, rest: seq<(string, Value)>)
    ensures Spread(Tags(typeName), Tags(typeName) + rest) == Spread(Tags(typeName), rest)
  {
    var base := Tags(typeName);
    var more := base + rest;
    assert more[0] == base[0] && more[1] == base[1] && more[1..][1..] == rest;
    TagsStable(typeName);
  }

  lemma TagsStable(typeName: string)
    ensures Put(Tags(typeName), "@context", Str(SchemaContext)) == Tags(typeName)
    ensures Put(Tags(typeName), "@type", Str(typeName)) == Tags(typeName)
  {
  }

  /** Assembling the initial document again under its own type leaves it as it is: its tags are the ones assembly adds. */
  lemma InitialDocumentIsAssembled()
    ensures Assemble("LocalBusiness", InitialDocument) == InitialDocument
  {
    var rest := InitialDocument.entries[2..];
    assert InitialDocument == Obj(Tags("LocalBusiness") + rest);
    AssembleTagged("LocalBusiness", rest);
  }

  /** The three state variables. */
  datatype Session = Session(selectedType: string, schemaData: Option<Value>, generatedMarkup: Option<Value>)

  /** The state after mounting: LocalBusiness, with the initial document as data and as markup. */
  const InitialSession: Session := Session("LocalBusiness", Some(InitialDocument), Some(InitialDocument))

  /** `handleTypeSelect(t)` */
  function SelectType(t: string): Session
  {
    Session(t, None, None)
  }

  /** `handleFormSubmit(data)` in state `s` */
  function SubmitData(s: Session, data: Value): Session
  {
    Session(s.selectedType, Some(data), Some(Assemble(s.selectedType, data)))
  }

  /** The entry `handleSaveSchema` writes in state `s`, given the clock's id, local time and ISO time; none without data. */
  function EntryToSave(s: Session, id: string, localTime: string, createdAt: string): (e: Option<SavedSchema>)
    ensures e.Some? <==> s.schemaData.Some? && s.selectedType != ""
    ensures e.Some? ==> e.value.schemaType == s.selectedType && e.value.data == s.schemaData.value
    ensures e.Some? ==> e.value.name == s.selectedType + " Schema " + localTime
  {
    if s.schemaData.Some? && s.selectedType != "" then
      Some(SavedSchema(id, s.selectedType + " Schema " + localTime, s.selectedType, s.schemaData.value, createdAt))
    else None
  }

  /** `handleLoadSchema(e)` */
  function LoadEntry(e: SavedSchema): Session
  {
    Session(e.schemaType, Some(e.data), Some(Assemble(e.schemaType, e.data)))
  }

  /** The markup always shows the current data assembled under the current type (or there is neither). */
  predicate Coherent(s: Session)
  {
    s.generatedMarkup == (match s.schemaData
                          case Some(d) => Some(Assemble(s.selectedType, d))
                          case None => None)
  }

  /** The selected type is a known schema type. */
  predicate KnownType(s: Session)
  {
    ParseType(s.selectedType).Some?
  }

  /** The initial state is coherent and its type is known. */
  lemma InitialSessionSound()
    ensures Coherent(InitialSession) && KnownType(InitialSession)
  {
    InitialDocumentIsAssembled();
    ParseTypeName(LocalBusiness);
  }

  /** Every transition keeps the markup coherent with the data and type. */
  lemma TransitionsCoherent(s: Session, t: string, data: Value, e: SavedSchema)
    ensures Coherent(SelectType(t))
    ensures Coherent(SubmitData(s, data))
    ensures Coherent(LoadEntry(e))
  {
  }

  /** Selecting a known type, submitting, and loading an entry of a known type keep the type known. */
  lemma TransitionsKeepKnownType(s: Session, t: string, data: Value, e: SavedSchema)
    ensures ParseType(t).Some? ==> KnownType(SelectType(t))
    ensures KnownType(s) ==> KnownType(SubmitData(s, data))
    ensures ParseType(e.schemaType).Some? ==> KnownType(LoadEntry(e))
  {
  }

  /** An entry saved from a state with a known type carries a known type, so loading it keeps the type known. */
  lemma SavedTypeKnown(s: Session, id: string, localTime: string, createdAt: string)
    requires KnownType(s)
    ensures EntryToSave(s, id, localTime, createdAt).Some? ==>
              KnownType(LoadEntry(EntryToSave(s, id, localTime, createdAt).value))
  {
  }

  /** Submitting data and then saving always writes an entry: only a type change clears the data. */
  lemma SubmitEnablesSave(s: Session, data: Value, id: string, localTime: string, createdAt: string)
    requires KnownType(s)
    ensures EntryToSave(SubmitData(s, data), id, localTime, createdAt).Some?
    ensures EntryToSave(SelectType(s.selectedType), id, localTime, createdAt).None?
  {
    var t := ParseType(s.selectedType).value;
    assert TypeName(t) != "" by {
      match t
      case LocalBusiness =>
      case Product =>
      case Article =>
      case Event =>
      case Recipe =>
      case FAQPage =>
      case Restaurant =>
      case Hotel =>
      case WebSite =>
      case Review =>
      case BlogPosting =>
      case NewsArticle =>
      case Movie =>
      case Book =>
      case JobPosting =>
      case Person =>
      case Organization =>
    }
  }

  /**
   * Saving right after a submit and loading that entry later, from any
   * state, restores the type, the data and the markup of the submit.
   */
  lemma SaveLoadRoundTrip(s: Session, data: Value, id: string, localTime: string, createdAt: string)
    requires s.selectedType != ""
    ensures EntryToSave(SubmitData(s, data), id, localTime, createdAt).Some?
    ensures LoadEntry(EntryToSave(SubmitData(s, data), id, localTime, createdAt).value) == SubmitData(s, data)
  {
  }

  /** The page component. */
  class Generator {
    var selectedType: string
    var schemaData: Option<Value>
    var generatedMarkup: Option<Value>

    function State(): Session
      reads this
    {
      Session(selectedType, schemaData, generatedMarkup)
    }

    /** The initial state followed by the mount effect. */
    constructor()
      ensures State() == InitialSession
    {
      selectedType := "LocalBusiness";
      schemaData := None;
      generatedMarkup := None;
      var initialSchema := InitialDocument;
      schemaData := Some(initialSchema);
      generatedMarkup := Some(initialSchema);
    }

    /** `handleTypeSelect` */
    method HandleTypeSelect(t: string)
      modifies this
      ensures State() == SelectType(t)
    {
      selectedType := t;
      schemaData := None;
      generatedMarkup := None;
    }

    /** `handleFormSubmit`: the markup gets the tagged document, the data is kept untagged. */
    method HandleFormSubmit(data: Value)
      modifies this
      ensures State() == SubmitData(old(State()), data)
    {
      var schema := Assemble(selectedType, data);
      generatedMarkup := Some(schema);
      schemaData := Some(data);
    }

    /** `handleSaveSchema`: store an entry when there is data; the page state is left alone. */
    method HandleSaveSchema(store: Store, id: string, localTime: string, createdAt: string)
      modifies store
      ensures store.slot == match EntryToSave(State(), id, localTime, createdAt)
                            case Some(e) => Some(old(store.Stored()) + [e])
                            case None => old(store.slot)
    {
      if schemaData.Some? && selectedType != "" {
        var schemaToSave := SavedSchema(id, selectedType + " Schema " + localTime, selectedType, schemaData.value, createdAt);
        store.SaveSchema(schemaToSave);
      }
    }

    /** `handleLoadSchema`: the entry's type is taken as it is, without a check. */
    method HandleLoadSchema(e: SavedSchema)
      modifies this
      ensures State() == LoadEntry(e)
    {
      selectedType := e.schemaType;
      schemaData := Some(e.data);
      generatedMarkup := Some(Assemble(e.schemaType, e.data));
    }
  }
}
