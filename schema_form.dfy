/**
 * The form of `SchemaForm.tsx`: the inputs `renderField` lays out for a
 * type's field tree and the names they are registered under, the repeated
 * rows of an `ArrayField`, the reading of a number input, the form's value
 * store with its `append`/`remove` edits, and the submit gate that hands
 * the callback only data the type's rule accepts.
 *
 * The form library addresses values by dotted names (`offers.price`,
 * `openingHours.0.opens`); `Dotted` writes a value path that way, and the
 * store itself is kept by path.
 */
module SchemaForm {
  import opened Wrappers
  import opened Values
  import opened Zod
  import opened SchemaTypes
  import opened SchemaCoverage

  // ---------------------------------------------------------------- names

  /** The name of a field under `parent`: the field's own name at the top, `parent.name` below it. */
  function FullName(parent: string, name: string): string
  {
    if parent == "" then name else parent + "." + name
  }

  predicate AllDigits(s: string)
  {
    forall i :: 0 <= i < |s| ==> IsDigit(s[i])
  }

  function Digit(d: nat): (c: char)
    requires d < 10
    ensures IsDigit(c)
  {
    ('0' as int + d) as char
  }

  /** An index as a template literal writes it: its decimal digits. */
  function NatString(n: nat): (s: string)
    ensures s != [] && AllDigits(s)
    decreases n
  {
    if n < 10 then [Digit(n)] else NatString(n / 10) + [Digit(n % 10)]
  }

  /** The number a string of decimal digits denotes. */
  function DigitsValue(s: string): nat
    requires AllDigits(s)
    decreases |s|
  {
    if s == [] then 0 else DigitsValue(s[..|s| - 1]) * 10 + (s[|s| - 1] as int - '0' as int)
  }

  /** Reading an index back from its digits gives the index. */
  lemma {:induction false} NatStringValue(n: nat)
    ensures DigitsValue(NatString(n)) == n
    decreases n
  {
    var s := NatString(n);
    if n >= 10 {
      NatStringValue(n / 10);
      assert s[..|s| - 1] == NatString(n / 10);
    }
  }

  function SegmentText(s: Segment): string
  {
    match s
    case Key(k) => k
    case Index(i) => NatString(i)
  }

  /** A value path as the form library names it: its steps joined by dots. */
  function Dotted(p: Path): string
    decreases |p|
  {
    if p == [] then ""
    else if |p| == 1 then SegmentText(p[0])
    else Dotted(p[..|p| - 1]) + "." + SegmentText(p[|p| - 1])
  }

  /** The name `renderField` builds for a field is the dotted form of the field's path. */
  lemma FullNameIsDotted(at: Path, name: string)
    requires at == [] || Dotted(at) != ""
    ensures FullName(Dotted(at), name) == Dotted(at + [Key(name)])
  {
    assert (at + [Key(name)])[..|at|] == at;
  }

  function DottedAll(ps: seq<Path>): (names: seq<string>)
    ensures |names| == |ps|
    ensures forall i :: 0 <= i < |ps| ==> names[i] == Dotted(ps[i])
  {
    if ps == [] then [] else [Dotted(ps[0])] + DottedAll(ps[1..])
  }

  // ------------------------------------------------------------ rendering

  /** What `renderField` puts on the page for a leaf: an input, or a repeatable group. */
  datatype Control =
    | Entry(name: string, fieldName: string, kind: FieldType)   // `<input {...register(name)}>`
    | Repeat(name: string, subfields: seq<SchemaField>)         // `<ArrayField name={name}>`

  /**
   * `renderField(field, parent)`: an object lays out its subfields under its
   * own name (nothing when it has none), an array becomes one repeatable
   * group, anything else one input. `required` is not consulted.
   */
  function Render(f: SchemaField, parent: string): seq<Control>
    decreases f, 1
  {
    var name := FullName(parent, f.name);
    match f.kind
    case Object => if f.subfields.Present? then RenderAll(f.subfields.fields, name) else []
    case Array => [Repeat(name, if f.subfields.Present? then f.subfields.fields else [])]
    case _ => [Entry(name, f.name, f.kind)]
  }

  /** `fields.map(field => renderField(field, parent))` */
  function RenderAll(fs: seq<SchemaField>, parent: string): seq<Control>
    decreases fs, 0
  {
    if fs == [] then [] else Render(fs[0], parent) + RenderAll(fs[1..], parent)
  }

  function Names(cs: seq<Control>): (names: seq<string>)
    ensures |names| == |cs|
    ensures forall i :: 0 <= i < |cs| ==> names[i] == cs[i].name
  {
    if cs == [] then [] else [cs[0].name] + Names(cs[1..])
  }

  lemma NamesAppend(a: seq<Control>, b: seq<Control>)
    ensures Names(a + b) == Names(a) + Names(b)
  {
  }

  lemma DottedAllAppend(a: seq<Path>, b: seq<Path>)
    ensures DottedAll(a + b) == DottedAll(a) + DottedAll(b)
  {
  }

  /**
   * The form lays out one control per value path of the field tree, depth
   * first in declaration order, named by that path: a top-level field by its
   * name, a child of an object by `parent.name`.
   */
  lemma {:induction false} RenderFollowsLeafPaths(fs: seq<SchemaField>, at: Path, depth: nat)
    requires forall i :: 0 <= i < |fs| ==> WellFormedField(fs[i], depth)
    requires at == [] || Dotted(at) != ""
    ensures Names(RenderAll(fs, Dotted(at))) == DottedAll(FieldLeafPaths(fs, at))
    decreases fs, 0
  {
    if fs != [] {
      RenderOneFollowsLeafPaths(fs[0], at, depth);
      RenderFollowsLeafPaths(fs[1..], at, depth);
      NamesAppend(Render(fs[0], Dotted(at)), RenderAll(fs[1..], Dotted(at)));
      DottedAllAppend(FieldLeaves(fs[0], at), FieldLeafPaths(fs[1..], at));
    }
  }

  lemma {:induction false} RenderOneFollowsLeafPaths(f: SchemaField, at: Path, depth: nat)
    requires WellFormedField(f, depth)
    requires at == [] || Dotted(at) != ""
    ensures Names(Render(f, Dotted(at))) == DottedAll(FieldLeaves(f, at))
    decreases f, 1
  {
    FullNameIsDotted(at, f.name);
    var at' := at + [Key(f.name)];
    if f.kind == Object {
      assert Dotted(at') != "" by {
        if at != [] { assert at'[..|at'| - 1] == at; }
      }
      RenderFollowsLeafPaths(f.subfields.fields, at', depth - 1);
    }
  }

  /** An input is never an object or an array; a repeatable group comes only from an array field. */
  lemma {:induction false} ControlsAreLeaves(fs: seq<SchemaField>, parent: string)
    ensures forall c :: c in RenderAll(fs, parent) && c.Entry? ==> !IsGroup(c.kind)
    decreases fs, 0
  {
    if fs != [] {
      ControlIsLeaf(fs[0], parent);
      ControlsAreLeaves(fs[1..], parent);
    }
  }

  lemma {:induction false} ControlIsLeaf(f: SchemaField, parent: string)
    ensures forall c :: c in Render(f, parent) && c.Entry? ==> !IsGroup(c.kind)
    decreases f, 1
  {
    if f.kind == Object && f.subfields.Present? {
      ControlsAreLeaves(f.subfields.fields, FullName(parent, f.name));
    }
  }

  /** Whether a field is marked required makes no difference to what is laid out. */
  lemma RequiredIgnored(f: SchemaField, parent: string, required: bool)
    ensures Render(f.(required := required), parent) == Render(f, parent)
  {
  }

  // ---------------------------------------------------------- array rows

  /** One input of an array row: its name, and whether it is shown as a number input. */
  datatype RowInput = RowInput(name: string, numberType: bool)

  /**
   * Row `i` of an `ArrayField` called `name`: one input per subfield, named
   * `name.i.sub`, whatever the subfield's type (subfields are not entered).
   */
  function Row(name: string, subs: seq<SchemaField>, i: nat): (row: seq<RowInput>)
    ensures |row| == |subs|
    decreases |subs|
  {
    if subs == [] then []
    else Row(name, subs[..|subs| - 1], i) +
         [RowInput(name + "." + NatString(i) + "." + subs[|subs| - 1].name, subs[|subs| - 1].kind == Number)]
  }

  /** The rows of an `ArrayField` holding `n` elements, one per element, in order. */
  function Rows(name: string, subs: seq<SchemaField>, n: nat): (rows: seq<seq<RowInput>>)
    ensures |rows| == n
    ensures forall i :: 0 <= i < n ==> |rows[i]| == |subs|
    decreases n
  {
    if n == 0 then [] else Rows(name, subs, n - 1) + [Row(name, subs, n - 1)]
  }

  /**
   * Every input of every row is named by the dotted path of its value,
   * `array.i.sub`, and only a number subfield gets a number input.
   */
  lemma {:induction false} RowsFollowPaths(p: Path, subs: seq<SchemaField>, n: nat)
    requires Dotted(p) != ""
    ensures forall i, j :: 0 <= i < n && 0 <= j < |subs| ==>
              Rows(Dotted(p), subs, n)[i][j] ==
              RowInput(Dotted(p + [Index(i), Key(subs[j].name)]), subs[j].kind == Number)
    decreases n
  {
    if n > 0 {
      RowsFollowPaths(p, subs, n - 1);
      RowFollowsPaths(p, subs, n - 1);
    }
  }

  lemma {:induction false} RowFollowsPaths(p: Path, subs: seq<SchemaField>, i: nat)
    requires Dotted(p) != ""
    ensures forall j :: 0 <= j < |subs| ==>
              Row(Dotted(p), subs, i)[j] == RowInput(Dotted(p + [Index(i), Key(subs[j].name)]), subs[j].kind == Number)
    decreases |subs|
  {
    if subs != [] {
      var last := subs[|subs| - 1];
      RowFollowsPaths(p, subs[..|subs| - 1], i);
      var q := p + [Index(i), Key(last.name)];
      assert q[..|q| - 1] == p + [Index(i)];
      assert (p + [Index(i)])[..|p|] == p;
      assert p != [];
    }
  }

  // ---------------------------------------------------------- array edits

  /** `append({})`: one empty element at the end. */
  function AppendEmpty(es: seq<Value>): (r: seq<Value>)
    ensures |r| == |es| + 1 && r[..|es|] == es && r[|es|] == Obj([])
  {
    es + [Obj([])]
  }

  /** `remove(i)`: element `i` taken out and the later ones moved down; an index past the end changes nothing. */
  function RemoveAt(es: seq<Value>, i: nat): (r: seq<Value>)
    ensures i < |es| ==> |r| == |es| - 1
    ensures i < |es| ==> forall k :: 0 <= k < i ==> r[k] == es[k]
    ensures i < |es| ==> forall k :: i <= k < |r| ==> r[k] == es[k + 1]
    ensures i >= |es| ==> r == es
  {
    if i < |es| then es[..i] + es[i + 1..] else es
  }

  /** Removing the element just appended gives back the list. */
  lemma RemoveUndoesAppend(es: seq<Value>)
    ensures RemoveAt(AppendEmpty(es), |es|) == es
  {
  }

  /** The elements held at `p`, none when there is no array there. */
  function Elements(v: Value, p: Path): seq<Value>
  {
    match Get(v, p)
    case Some(Arr(es)) => es
    case _ => []
  }

  /** Writing a list at a writable path and reading it back gives that list. */
  lemma ElementsAfterWrite(v: Value, p: Path, es: seq<Value>)
    requires Writable(v, p)
    ensures Elements(Set(v, p, Arr(es)), p) == es
  {
    GetSet(v, p, Arr(es));
  }

  // --------------------------------------------------------- input reading

  /** The length of the run of digits at the start of `s`. */
  function LeadingDigits(s: string): (k: nat)
    ensures k <= |s| && AllDigits(s[..k])
    ensures k < |s| ==> !IsDigit(s[k])
    decreases |s|
  {
    if s == [] || !IsDigit(s[0]) then 0
    else
      var k := LeadingDigits(s[1..]);
      assert s[..k + 1] == [s[0]] + s[1..][..k];
      k + 1
  }

  function Pow10(n: nat): (p: nat)
    ensures p >= 1
  {
    if n == 0 then 1 else 10 * Pow10(n - 1)
  }

  /**
   * `valueAsNumber` of a number input: the number a decimal numeral
   * (`-`, digits, `.` and digits, with digits on at least one side) denotes,
   * and NaN for any other text, the empty text included.
   */
  function ValueAsNumber(text: string): Value
  {
    var neg := |text| > 0 && text[0] == '-';
    var body := if neg then text[1..] else text;
    var k := LeadingDigits(body);
    var whole := DigitsValue(body[..k]) as real;
    var rest := body[k..];
    if rest == [] then
      if k == 0 then NaN else Num(if neg then -whole else whole)
    else if rest[0] == '.' && |rest| > 1 && AllDigits(rest[1..]) then
      var x := whole + DigitsValue(rest[1..]) as real / Pow10(|rest| - 1) as real;
      Num(if neg then -x else x)
    else NaN
  }

  /** A whole number typed in is read as that number, with or without a minus sign; nothing typed is NaN. */
  lemma {:induction false} ValueAsNumberReadsIntegers(n: nat)
    ensures ValueAsNumber(NatString(n)) == Num(n as real)
    ensures ValueAsNumber("-" + NatString(n)) == Num(-(n as real))
    ensures ValueAsNumber("") == NaN
  {
    var s := NatString(n);
    NatStringValue(n);
    AllDigitsLead(s);
    assert s[..|s|] == s && s[|s|..] == [];
    assert |s| > 0 && s[0] != '-' by { assert IsDigit(s[0]); }
    assert ("-" + s)[1..] == s;
  }

  lemma {:induction false} AllDigitsLead(s: string)
    requires AllDigits(s)
    ensures LeadingDigits(s) == |s|
    decreases |s|
  {
    if s != [] {
      AllDigitsLead(s[1..]);
    }
  }

  /** A number input that reads NaN fails any number rule, with zod's type message. */
  lemma NaNFailsNumberRule(text: string, cs: seq<NumberCheck>, at: Path, fm: Formats)
    requires ValueAsNumber(text) == NaN
    ensures Parse(Some(ValueAsNumber(text)), ZNumber(cs), at, fm) == Fail(at, InvalidType("number"))
  {
  }

  /** What an input holds before anything is typed into it: a number input reads NaN, any other the empty text. */
  function EmptyReading(readsNumber: bool): Value
  {
    if readsNumber then NaN else Str("")
  }

  /** What typing `text` into an input stores: array row inputs and text inputs keep the text; only a registered number input is read as a number. */
  function Reading(text: string, readsNumber: bool): Value
  {
    if readsNumber then ValueAsNumber(text) else Str(text)
  }

  // -------------------------------------------------------------- submit

  /** What `handleSubmit` passes to `onFormSubmit`: data reaches the callback exactly when the rule accepts the form's values, and it is the rule's parsed output. */
  function Submitted(v: Value, rule: Rule, fm: Formats): (r: Option<Value>)
    ensures r.Some? <==> Accepts(Some(v), rule, fm)
    ensures r.Some? ==> r == Parse(Some(v), rule, [], fm).output
  {
    ParseAccepts(Some(v), rule, [], fm);
    var o := Parse(Some(v), rule, [], fm);
    if o.issues == [] then o.output else None
  }

  /**
   * What reaches the callback holds only the keys the type's rule names
   * (anything else, `@context` included, is dropped) and no NaN.
   */
  lemma {:induction false} SubmittedIsClean(v: Value, shape: seq<Prop>, fm: Formats)
    requires Submitted(v, ZObject(shape), fm).Some?
    ensures Submitted(v, ZObject(shape), fm).value.Obj?
    ensures forall k :: k in Keys(Submitted(v, ZObject(shape), fm).value.entries) ==> k in ShapeKeys(shape)
    ensures NoNaN(Submitted(v, ZObject(shape), fm).value)
  {
    ShapeOutputKeys(v.entries, shape, [], fm);
    OutputHasNoNaN(Some(v), ZObject(shape), [], fm);
  }

  /** Submitting what was delivered delivers it again unchanged. */
  lemma {:induction false} ResubmitIsStable(v: Value, rule: Rule, fm: Formats)
    requires WellFormedRule(rule)
    requires Submitted(v, rule, fm).Some?
    ensures Submitted(Submitted(v, rule, fm).value, rule, fm) == Submitted(v, rule, fm)
  {
    Reparse(Some(v), rule, [], [], fm);
  }

  // ---------------------------------------------------- the error beside an input

  /** The message of the first issue at path `p`, if any. */
  function FirstMessageAt(issues: seq<Issue>, p: Path): (r: Option<Message>)
    ensures r.Some? <==> exists i :: 0 <= i < |issues| && issues[i].path == p
    ensures r.Some? ==> Issue(p, r.value) in issues
  {
    if issues == [] then None
    else if issues[0].path == p then Some(issues[0].message)
    else
      var r := FirstMessageAt(issues[1..], p);
      assert forall i :: 1 <= i < |issues| ==> issues[i] == issues[1..][i - 1];
      r
  }

  /**
   * The message shown beside an input as the form is written: the error
   * looked up under the input's own field name at the top level, whatever
   * object the input sits in.
   */
  function ShownAsWritten(issues: seq<Issue>, c: Control): Option<Message>
    requires c.Entry?
  {
    FirstMessageAt(issues, [Key(c.fieldName)])
  }

  /** The message evidently meant to be shown beside the input whose value is at `p`: the error at `p`. */
  function ErrorBeside(issues: seq<Issue>, p: Path): (r: Option<Message>)
    ensures r.Some? <==> exists i :: 0 <= i < |issues| && issues[i].path == p
    ensures r.Some? ==> Issue(p, r.value) in issues
  {
    FirstMessageAt(issues, p)
  }

  /** For a top-level input both readings show the same message. */
  lemma TopLevelErrorsAgree(issues: seq<Issue>, f: SchemaField)
    requires !IsGroup(f.kind)
    ensures Render(f, "") == [Entry(f.name, f.name, f.kind)]
    ensures ShownAsWritten(issues, Render(f, "")[0]) == ErrorBeside(issues, [Key(f.name)])
  {
  }

  /**
   * Product's `offers.price` input never shows the price error: it looks
   * for an error under `price`, and zod reports it under `offers.price`.
   */
  lemma NestedErrorHidden()
    ensures ProductConfig.fields[4].subfields.fields[0] == Input("price", Number, true)
    ensures Render(Input("price", Number, true), "offers") == [Entry("offers.price", "price", Number)]
    ensures Dotted([Key("offers"), Key("price")]) == "offers.price"
    ensures ShownAsWritten([Issue([Key("offers"), Key("price")], Custom("Price must be positive"))],
                           Entry("offers.price", "price", Number)) == None
    ensures ErrorBeside([Issue([Key("offers"), Key("price")], Custom("Price must be positive"))],
                        [Key("offers"), Key("price")]) == Some(Custom("Price must be positive"))
  {
    assert "offers" + "." + "price" == "offers.price";
    assert [Key("offers"), Key("price")][..1] == [Key("offers")];
  }

  /**
   * Product's `brand.name` input shows the error of the product's own
   * `name`, and the brand's own error is shown nowhere.
   */
  lemma WrongErrorShown()
    ensures ProductConfig.fields[3].subfields.fields[0] == Input("name", Text, true)
    ensures Render(Input("name", Text, true), "brand") == [Entry("brand.name", "name", Text)]
    ensures ShownAsWritten([Issue([Key("name")], Custom("Product name is required"))],
                           Entry("brand.name", "name", Text)) == Some(Custom("Product name is required"))
    ensures ErrorBeside([Issue([Key("name")], Custom("Product name is required"))],
                        [Key("brand"), Key("name")]) == None
  {
    assert "brand" + "." + "name" == "brand.name";
  }

  // ------------------------------------------------------------ the store

  /**
   * The form's value store (`useForm`): the values, kept by path, and the
   * issues of the last submit.
   */
  class FormStore {
    var values: Value
    var errors: seq<Issue>

    /** `useForm({defaultValues: initialData})` */
    constructor(initialData: Option<Value>)
      ensures values == initialData.GetOr(Obj([])) && errors == []
    {
      values := initialData.GetOr(Obj([]));
      errors := [];
    }

    /** `reset(initialData)`: the store takes the given values and forgets its errors. */
    method Reset(data: Value)
      modifies this
      ensures values == data && errors == []
    {
      values := data;
      errors := [];
    }

    /**
     * `register(name)` of an input at `p`: an input whose path holds nothing
     * yet contributes its empty reading; a value already there is kept.
     */
    method Register(p: Path, readsNumber: bool)
      modifies this
      ensures values == if Get(old(values), p).None? then Set(old(values), p, EmptyReading(readsNumber)) else old(values)
      ensures Writable(old(values), p) ==> Get(values, p).Some?
      ensures errors == old(errors)
    {
      if Get(values, p).None? {
        if Writable(values, p) {
          GetSet(values, p, EmptyReading(readsNumber));
        }
        values := Set(values, p, EmptyReading(readsNumber));
      }
    }

    /** Typing `text` into the input at `p`. */
    method Enter(p: Path, text: string, readsNumber: bool)
      modifies this
      ensures values == Set(old(values), p, Reading(text, readsNumber))
      ensures Writable(old(values), p) ==> Get(values, p) == Some(Reading(text, readsNumber))
      ensures errors == old(errors)
    {
      if Writable(values, p) {
        GetSet(values, p, Reading(text, readsNumber));
      }
      values := Set(values, p, Reading(text, readsNumber));
    }

    /** `append({})` of the `ArrayField` at `p`. */
    method Append(p: Path)
      modifies this
      ensures values == Set(old(values), p, Arr(AppendEmpty(Elements(old(values), p))))
      ensures Writable(old(values), p) ==> Elements(values, p) == AppendEmpty(Elements(old(values), p))
      ensures errors == old(errors)
    {
      var es := AppendEmpty(Elements(values, p));
      if Writable(values, p) {
        ElementsAfterWrite(values, p, es);
      }
      values := Set(values, p, Arr(es));
    }

    /** `remove(i)` of the `ArrayField` at `p`. */
    method Remove(p: Path, i: nat)
      modifies this
      ensures values == Set(old(values), p, Arr(RemoveAt(Elements(old(values), p), i)))
      ensures Writable(old(values), p) ==> Elements(values, p) == RemoveAt(Elements(old(values), p), i)
      ensures errors == old(errors)
    {
      var es := RemoveAt(Elements(values, p), i);
      if Writable(values, p) {
        ElementsAfterWrite(values, p, es);
      }
      values := Set(values, p, Arr(es));
    }

    /**
     * `handleSubmit(onFormSubmit)` under `zodResolver(rule)`: the issues
     * become the form's errors, and the callback gets the parsed data only
     * when there are none.
     */
    method Submit(rule: Rule, fm: Formats) returns (delivered: Option<Value>)
      modifies this
      ensures values == old(values)
      ensures errors == Parse(Some(values), rule, [], fm).issues
      ensures delivered == Submitted(values, rule, fm)
      ensures delivered.Some? <==> errors == []
    {
      var o := Parse(Some(values), rule, [], fm);
      errors := o.issues;
      if o.issues == [] {
        ParseAccepts(Some(values), rule, [], fm);
        delivered := o.output;
      } else {
        delivered := None;
      }
    }
  }
}
