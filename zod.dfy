/**
 * The part of the zod validation library that the schema tables use, and
 * the way `zodResolver` reports its findings to the form: a rule tree
 * (`z.string().min(1, msg)`, `z.number().positive(msg)`, `.optional()`,
 * `z.object({...})`, `z.array(...).min(1, msg)`), a parser that walks a
 * value and the rule tree together and collects path-addressed issues, and
 * the value the parser hands on when there are none (unknown keys
 * stripped).
 *
 * zod runs every check of a string or number and reports each failure;
 * `zodResolver` keeps the first issue per path, so a leaf here reports only
 * its first failing check.
 */
module Zod {
  import opened Wrappers
  import opened Values

  datatype StringCheck =
    | NonEmpty(msg: string)      // .min(1, msg)
    | Url(msg: string)           // .url(msg)
    | Email(msg: string)         // .email(msg)
    | DateFormat(msg: string)    // .regex(/^\d{4}-\d{2}-\d{2}$/, msg)

  /** A number check; `None` as message means zod's built-in text. */
  datatype NumberCheck =
    | Min(bound: real, msg: Option<string>)     // .min(bound, msg), inclusive
    | Max(bound: real, msg: Option<string>)     // .max(bound, msg), inclusive
    | Positive(msg: Option<string>)             // .positive(msg)
    | Int(msg: Option<string>)                  // .int(msg)

  datatype Rule =
    | ZString(stringChecks: seq<StringCheck>)
    | ZNumber(numberChecks: seq<NumberCheck>)
    | ZOptional(inner: Rule)
    | ZObject(shape: seq<Prop>)
    | ZArray(element: Rule, minLength: Option<(nat, string)>)

  /** One key of `z.object({...})` and its rule. */
  datatype Prop = Prop(key: string, rule: Rule)

  /** zod's URL and e-mail recognisers, which this model takes as given. */
  datatype Formats = Formats(isUrl: string -> bool, isEmail: string -> bool)

  datatype Message =
    | Custom(text: string)          // the message written in the schema
    | Required                      // zod's text for a missing value
    | InvalidType(expected: string) // zod's text for a value of the wrong type (NaN is not a number)
    | Default                       // zod's built-in text of a check written without a message

  datatype Issue = Issue(path: Path, message: Message)

  /** What parsing one value gives: the issues found, and the parsed value when there are none. */
  datatype Outcome = Outcome(issues: seq<Issue>, output: Option<Value>)

  datatype ShapeOutcome = ShapeOutcome(issues: seq<Issue>, entries: seq<(string, Value)>)

  datatype ElementsOutcome = ElementsOutcome(issues: seq<Issue>, elems: seq<Value>)

  predicate IsDigit(c: char)
  {
    '0' <= c <= '9'
  }

  /** `/^\d{4}-\d{2}-\d{2}$/` */
  predicate MatchesDatePattern(s: string)
  {
    |s| == 10 && s[4] == '-' && s[7] == '-' &&
    forall i :: 0 <= i < 10 && i != 4 && i != 7 ==> IsDigit(s[i])
  }

  predicate StringCheckHolds(c: StringCheck, s: string, fm: Formats)
  {
    match c
    case NonEmpty(_) => |s| >= 1
    case Url(_) => fm.isUrl(s)
    case Email(_) => fm.isEmail(s)
    case DateFormat(_) => MatchesDatePattern(s)
  }

  predicate NumberCheckHolds(c: NumberCheck, x: real)
  {
    match c
    case Min(b, _) => x >= b
    case Max(b, _) => x <= b
    case Positive(_) => x > 0.0
    case Int(_) => x == x.Floor as real
  }

  function NumberCheckMessage(c: NumberCheck): Message
  {
    match c.msg
    case Some(m) => Custom(m)
    case None => Default
  }

  /** The message of the first string check that `s` fails, if any. */
  function FirstStringFailure(cs: seq<StringCheck>, s: string, fm: Formats): (r: Option<Message>)
    ensures r.None? <==> forall i :: 0 <= i < |cs| ==> StringCheckHolds(cs[i], s, fm)
    ensures r.Some? ==>
      exists i :: 0 <= i < |cs| && !StringCheckHolds(cs[i], s, fm) &&
        r.value == Custom(cs[i].msg) && forall j :: 0 <= j < i ==> StringCheckHolds(cs[j], s, fm)
  {
    if cs == [] then None
    else if !StringCheckHolds(cs[0], s, fm) then Some(Custom(cs[0].msg))
    else
      var r := FirstStringFailure(cs[1..], s, fm);
      if r.Some? then
        ghost var i :| 0 <= i < |cs[1..]| && !StringCheckHolds(cs[1..][i], s, fm) &&
          r.value == Custom(cs[1..][i].msg) && forall j :: 0 <= j < i ==> StringCheckHolds(cs[1..][j], s, fm);
        assert forall j :: 0 <= j < i + 1 ==> StringCheckHolds(cs[j], s, fm) by {
          forall j | 0 <= j < i + 1 ensures StringCheckHolds(cs[j], s, fm) {
            if j > 0 { assert cs[j] == cs[1..][j - 1]; }
          }
        }
        r
      else
        r
  }

  /** The message of the first number check that `x` fails, if any. */
  function FirstNumberFailure(cs: seq<NumberCheck>, x: real): (r: Option<Message>)
    ensures r.None? <==> forall i :: 0 <= i < |cs| ==> NumberCheckHolds(cs[i], x)
    ensures r.Some? ==>
      exists i :: 0 <= i < |cs| && !NumberCheckHolds(cs[i], x) &&
        r.value == NumberCheckMessage(cs[i]) && forall j :: 0 <= j < i ==> NumberCheckHolds(cs[j], x)
  {
    if cs == [] then None
    else if !NumberCheckHolds(cs[0], x) then Some(NumberCheckMessage(cs[0]))
    else
      var r := FirstNumberFailure(cs[1..], x);
      if r.Some? then
        ghost var i :| 0 <= i < |cs[1..]| && !NumberCheckHolds(cs[1..][i], x) &&
          r.value == NumberCheckMessage(cs[1..][i]) && forall j :: 0 <= j < i ==> NumberCheckHolds(cs[1..][j], x);
        assert forall j :: 0 <= j < i + 1 ==> NumberCheckHolds(cs[j], x) by {
          forall j | 0 <= j < i + 1 ensures NumberCheckHolds(cs[j], x) {
            if j > 0 { assert cs[j] == cs[1..][j - 1]; }
          }
        }
        r
      else
        r
  }

  function Fail(at: Path, m: Message): Outcome
  {
    Outcome([Issue(at, m)], None)
  }

  /**
   * `rule.safeParse(v)` for the value `v` found at `at` (`None` when the key
   * is absent), with every issue addressed by its full path.
   */
  function Parse(v: Option<Value>, r: Rule, at: Path, fm: Formats): Outcome
    decreases r, 0
  {
    match r
    case ZOptional(inner) =>
      if v.None? then Outcome([], None) else Parse(v, inner, at, fm)
    case ZString(cs) =>
      if v.None? then Fail(at, Required)
      else if !v.value.Str? then Fail(at, InvalidType("string"))
      else
        (match FirstStringFailure(cs, v.value.s, fm)
         case Some(m) => Fail(at, m)
         case None => Outcome([], v))
    case ZNumber(cs) =>
      if v.None? then Fail(at, Required)
      else if !v.value.Num? then Fail(at, InvalidType("number"))
      else
        (match FirstNumberFailure(cs, v.value.x)
         case Some(m) => Fail(at, m)
         case None => Outcome([], v))
    case ZObject(shape) =>
      if v.None? then Fail(at, Required)
      else if !v.value.Obj? then Fail(at, InvalidType("object"))
      else
        var s := ParseShape(v.value.entries, shape, at, fm);
        Outcome(s.issues, if s.issues == [] then Some(Obj(s.entries)) else None)
    case ZArray(elem, min) =>
      if v.None? then Fail(at, Required)
      else if !v.value.Arr? then Fail(at, InvalidType("array"))
      else
        var short := if min.Some? && |v.value.elems| < min.value.0 then [Issue(at, Custom(min.value.1))] else [];
        var e := ParseElements(v.value.elems, elem, at, 0, fm);
        Outcome(short + e.issues, if short + e.issues == [] then Some(Arr(e.elems)) else None)
  }

  /** The keys of an object rule, in order; keys of `entries` that the shape does not name are dropped. */
  function ParseShape(entries: seq<(string, Value)>, shape: seq<Prop>, at: Path, fm: Formats): ShapeOutcome
    decreases shape, 0
  {
    if shape == [] then ShapeOutcome([], [])
    else
      var k := shape[0].key;
      var o := Parse(Lookup(entries, k), shape[0].rule, at + [Key(k)], fm);
      var rest := ParseShape(entries, shape[1..], at, fm);
      ShapeOutcome(o.issues + rest.issues,
                   (if o.output.Some? then [(k, o.output.value)] else []) + rest.entries)
  }

  /** Every element of an array rule, element `j` of `es` being at index `from + j`. */
  function ParseElements(es: seq<Value>, elem: Rule, at: Path, from: nat, fm: Formats): ElementsOutcome
    decreases elem, |es|
  {
    if es == [] then ElementsOutcome([], [])
    else
      var o := Parse(Some(es[0]), elem, at + [Index(from)], fm);
      var rest := ParseElements(es[1..], elem, at, from + 1, fm);
      ElementsOutcome(o.issues + rest.issues,
                      (if o.output.Some? then [o.output.value] else []) + rest.elems)
  }

  /**
   * The reference reading of a rule: what a value must be for the rule to
   * accept it, with no issues, paths or outputs involved.
   */
  predicate Accepts(v: Option<Value>, r: Rule, fm: Formats)
    decreases r
  {
    match r
    case ZOptional(inner) => v.None? || Accepts(v, inner, fm)
    case ZString(cs) =>
      v.Some? && v.value.Str? && forall i :: 0 <= i < |cs| ==> StringCheckHolds(cs[i], v.value.s, fm)
    case ZNumber(cs) =>
      v.Some? && v.value.Num? && forall i :: 0 <= i < |cs| ==> NumberCheckHolds(cs[i], v.value.x)
    case ZObject(shape) =>
      v.Some? && v.value.Obj? &&
      forall i :: 0 <= i < |shape| ==> Accepts(Lookup(v.value.entries, shape[i].key), shape[i].rule, fm)
    case ZArray(elem, min) =>
      v.Some? && v.value.Arr? &&
      (min.Some? ==> |v.value.elems| >= min.value.0) &&
      forall j :: 0 <= j < |v.value.elems| ==> Accepts(Some(v.value.elems[j]), elem, fm)
  }

  /** Parsing reports no issue exactly when the rule accepts the value; then a present value gives an output. */
  lemma {:induction false} ParseAccepts(v: Option<Value>, r: Rule, at: Path, fm: Formats)
    ensures Parse(v, r, at, fm).issues == [] <==> Accepts(v, r, fm)
    ensures Parse(v, r, at, fm).issues == [] ==> (Parse(v, r, at, fm).output.Some? <==> v.Some?)
    decreases r, 0
  {
    match r
    case ZOptional(inner) =>
      if v.Some? { ParseAccepts(v, inner, at, fm); }
    case ZString(_) =>
    case ZNumber(_) =>
    case ZObject(shape) =>
      if v.Some? && v.value.Obj? { ShapeAccepts(v.value.entries, shape, at, fm); }
    case ZArray(elem, min) =>
      if v.Some? && v.value.Arr? { ElementsAccept(v.value.elems, elem, at, 0, fm); }
  }

  lemma {:induction false} ShapeAccepts(entries: seq<(string, Value)>, shape: seq<Prop>, at: Path, fm: Formats)
    ensures ParseShape(entries, shape, at, fm).issues == [] <==>
      forall i :: 0 <= i < |shape| ==> Accepts(Lookup(entries, shape[i].key), shape[i].rule, fm)
    decreases shape, 0
  {
    if shape != [] {
      ParseAccepts(Lookup(entries, shape[0].key), shape[0].rule, at + [Key(shape[0].key)], fm);
      ShapeAccepts(entries, shape[1..], at, fm);
      assert forall i :: 1 <= i < |shape| ==> shape[i] == shape[1..][i - 1];
    }
  }

  lemma {:induction false} ElementsAccept(es: seq<Value>, elem: Rule, at: Path, from: nat, fm: Formats)
    ensures ParseElements(es, elem, at, from, fm).issues == [] <==>
      forall j :: 0 <= j < |es| ==> Accepts(Some(es[j]), elem, fm)
    ensures ParseElements(es, elem, at, from, fm).issues == [] ==>
      |ParseElements(es, elem, at, from, fm).elems| == |es|
    decreases elem, |es|
  {
    if es != [] {
      ParseAccepts(Some(es[0]), elem, at + [Index(from)], fm);
      ElementsAccept(es[1..], elem, at, from + 1, fm);
      assert forall j :: 1 <= j < |es| ==> es[j] == es[1..][j - 1];
    }
  }

  /** An absent value satisfies `.optional()`; a present one is checked by the inner rule. */
  lemma OptionalParse(v: Option<Value>, inner: Rule, at: Path, fm: Formats)
    ensures v.None? ==> Parse(v, ZOptional(inner), at, fm) == Outcome([], None)
    ensures v.Some? ==> Parse(v, ZOptional(inner), at, fm) == Parse(v, inner, at, fm)
  {
  }

  /**
   * An array shorter than its `.min(n, msg)` is reported once, at the
   * array's own path; an empty array has no element to report on.
   */
  lemma EmptyArrayParse(elem: Rule, n: nat, m: string, at: Path, fm: Formats)
    requires n >= 1
    ensures Parse(Some(Arr([])), ZArray(elem, Some((n, m))), at, fm) == Outcome([Issue(at, Custom(m))], None)
  {
  }

  function ShapeKeys(shape: seq<Prop>): (ks: seq<string>)
    ensures |ks| == |shape|
    ensures forall i :: 0 <= i < |shape| ==> ks[i] == shape[i].key
  {
    if shape == [] then [] else [shape[0].key] + ShapeKeys(shape[1..])
  }

  /** Every issue of an object is an issue of one of its keys, and every issue of every key is reported. */
  lemma {:induction false} ShapeIssues(entries: seq<(string, Value)>, shape: seq<Prop>, at: Path, fm: Formats, iss: Issue)
    ensures iss in ParseShape(entries, shape, at, fm).issues <==>
      exists i :: 0 <= i < |shape| && iss in Parse(Lookup(entries, shape[i].key), shape[i].rule, at + [Key(shape[i].key)], fm).issues
    decreases |shape|
  {
    if shape != [] {
      ShapeIssues(entries, shape[1..], at, fm, iss);
      assert forall i :: 1 <= i < |shape| ==> shape[i] == shape[1..][i - 1];
      if iss in ParseShape(entries, shape[1..], at, fm).issues {
        var i :| 0 <= i < |shape[1..]| && iss in Parse(Lookup(entries, shape[1..][i].key), shape[1..][i].rule, at + [Key(shape[1..][i].key)], fm).issues;
        assert shape[1..][i] == shape[i + 1];
      }
    }
  }

  /** Every issue of an array's elements is an issue of one element, at that element's index, and all are reported. */
  lemma {:induction false} ElementsIssues(es: seq<Value>, elem: Rule, at: Path, from: nat, fm: Formats, iss: Issue)
    ensures iss in ParseElements(es, elem, at, from, fm).issues <==>
      exists j :: 0 <= j < |es| && iss in Parse(Some(es[j]), elem, at + [Index(from + j)], fm).issues
    decreases |es|
  {
    if es != [] {
      var head := Parse(Some(es[0]), elem, at + [Index(from)], fm).issues;
      var rest := ParseElements(es[1..], elem, at, from + 1, fm).issues;
      assert ParseElements(es, elem, at, from, fm).issues == head + rest;
      ElementsIssues(es[1..], elem, at, from + 1, fm, iss);
      if iss in head {
        assert from + 0 == from;
      } else if iss in rest {
        var j :| 0 <= j < |es[1..]| && iss in Parse(Some(es[1..][j]), elem, at + [Index(from + 1 + j)], fm).issues;
        assert es[1..][j] == es[j + 1] && from + 1 + j == from + (j + 1);
      } else {
        forall j | 0 <= j < |es| ensures iss !in Parse(Some(es[j]), elem, at + [Index(from + j)], fm).issues {
          if j > 0 {
            assert es[j] == es[1..][j - 1] && from + j == from + 1 + (j - 1);
          }
        }
      }
    }
  }

  /** Every issue is addressed at or below the path of the value it was found in. */
  lemma {:induction false} IssuesBelow(v: Option<Value>, r: Rule, at: Path, fm: Formats)
    ensures forall iss :: iss in Parse(v, r, at, fm).issues ==> at <= iss.path
    decreases r, 0
  {
    match r
    case ZOptional(inner) =>
      if v.Some? { IssuesBelow(v, inner, at, fm); }
    case ZString(_) =>
    case ZNumber(_) =>
    case ZObject(shape) =>
      if v.Some? && v.value.Obj? { ShapeIssuesBelow(v.value.entries, shape, at, fm); }
    case ZArray(elem, _) =>
      if v.Some? && v.value.Arr? { ElementsIssuesBelow(v.value.elems, elem, at, 0, fm); }
  }

  lemma {:induction false} ShapeIssuesBelow(entries: seq<(string, Value)>, shape: seq<Prop>, at: Path, fm: Formats)
    ensures forall iss :: iss in ParseShape(entries, shape, at, fm).issues ==> at <= iss.path
    decreases shape, 0
  {
    if shape != [] {
      var k := shape[0].key;
      IssuesBelow(Lookup(entries, k), shape[0].rule, at + [Key(k)], fm);
      ShapeIssuesBelow(entries, shape[1..], at, fm);
      forall iss | iss in Parse(Lookup(entries, k), shape[0].rule, at + [Key(k)], fm).issues
        ensures at <= iss.path
      {
        assert at <= at + [Key(k)];
      }
    }
  }

  lemma {:induction false} ElementsIssuesBelow(es: seq<Value>, elem: Rule, at: Path, from: nat, fm: Formats)
    ensures forall iss :: iss in ParseElements(es, elem, at, from, fm).issues ==> at <= iss.path
    decreases elem, |es|
  {
    if es != [] {
      IssuesBelow(Some(es[0]), elem, at + [Index(from)], fm);
      ElementsIssuesBelow(es[1..], elem, at, from + 1, fm);
      forall iss | iss in Parse(Some(es[0]), elem, at + [Index(from)], fm).issues
        ensures at <= iss.path
      {
        assert at <= at + [Index(from)];
      }
    }
  }

  /** Each `z.object` names every key once, all the way down. */
  predicate WellFormedRule(r: Rule)
    decreases r
  {
    match r
    case ZOptional(inner) => WellFormedRule(inner)
    case ZObject(shape) =>
      (forall i, j :: 0 <= i < j < |shape| ==> shape[i].key != shape[j].key) &&
      forall i :: 0 <= i < |shape| ==> WellFormedRule(shape[i].rule)
    case ZArray(elem, _) => WellFormedRule(elem)
    case _ => true
  }

  /** No NaN anywhere in a value. */
  predicate NoNaN(v: Value)
    decreases v
  {
    match v
    case NaN => false
    case Obj(es) => forall i :: 0 <= i < |es| ==> NoNaN(es[i].1)
    case Arr(xs) => forall j :: 0 <= j < |xs| ==> NoNaN(xs[j])
    case _ => true
  }

  /** Parsing an object keeps only keys its shape names: `@context` and other extra keys are stripped. */
  lemma {:induction false} ShapeOutputKeys(entries: seq<(string, Value)>, shape: seq<Prop>, at: Path, fm: Formats)
    ensures forall k :: k in Keys(ParseShape(entries, shape, at, fm).entries) ==> k in ShapeKeys(shape)
    decreases |shape|
  {
    if shape != [] {
      ShapeOutputKeys(entries, shape[1..], at, fm);
      var o := Parse(Lookup(entries, shape[0].key), shape[0].rule, at + [Key(shape[0].key)], fm);
      var head: seq<(string, Value)> := if o.output.Some? then [(shape[0].key, o.output.value)] else [];
      var rest := ParseShape(entries, shape[1..], at, fm).entries;
      assert ParseShape(entries, shape, at, fm).entries == head + rest;
      assert ShapeKeys(shape) == [shape[0].key] + ShapeKeys(shape[1..]);
      forall k | k in Keys(head + rest) ensures k in ShapeKeys(shape) {
        var i :| 0 <= i < |head + rest| && (head + rest)[i].0 == k;
        if i >= |head| { assert (head + rest)[i] == rest[i - |head|]; assert k in Keys(rest); }
      }
    }
  }

  /** What a successful parse hands on never holds NaN: the number rules reject it. */
  lemma {:induction false} OutputHasNoNaN(v: Option<Value>, r: Rule, at: Path, fm: Formats)
    ensures Parse(v, r, at, fm).output.Some? ==> NoNaN(Parse(v, r, at, fm).output.value)
    decreases r, 0
  {
    match r
    case ZOptional(inner) =>
      if v.Some? { OutputHasNoNaN(v, inner, at, fm); }
    case ZString(_) =>
    case ZNumber(_) =>
    case ZObject(shape) =>
      if v.Some? && v.value.Obj? { ShapeOutputHasNoNaN(v.value.entries, shape, at, fm); }
    case ZArray(elem, _) =>
      if v.Some? && v.value.Arr? { ElementsOutputHaveNoNaN(v.value.elems, elem, at, 0, fm); }
  }

  lemma {:induction false} ShapeOutputHasNoNaN(entries: seq<(string, Value)>, shape: seq<Prop>, at: Path, fm: Formats)
    ensures NoNaN(Obj(ParseShape(entries, shape, at, fm).entries))
    decreases shape, 0
  {
    if shape != [] {
      var k := shape[0].key;
      OutputHasNoNaN(Lookup(entries, k), shape[0].rule, at + [Key(k)], fm);
      ShapeOutputHasNoNaN(entries, shape[1..], at, fm);
      var o := Parse(Lookup(entries, k), shape[0].rule, at + [Key(k)], fm);
      var head: seq<(string, Value)> := if o.output.Some? then [(k, o.output.value)] else [];
      var rest := ParseShape(entries, shape[1..], at, fm).entries;
      assert forall i :: |head| <= i < |head + rest| ==> (head + rest)[i] == rest[i - |head|];
    }
  }

  lemma {:induction false} ElementsOutputHaveNoNaN(es: seq<Value>, elem: Rule, at: Path, from: nat, fm: Formats)
    ensures NoNaN(Arr(ParseElements(es, elem, at, from, fm).elems))
    decreases elem, |es|
  {
    if es != [] {
      OutputHasNoNaN(Some(es[0]), elem, at + [Index(from)], fm);
      ElementsOutputHaveNoNaN(es[1..], elem, at, from + 1, fm);
      var o := Parse(Some(es[0]), elem, at + [Index(from)], fm);
      var head: seq<Value> := if o.output.Some? then [o.output.value] else [];
      var rest := ParseElements(es[1..], elem, at, from + 1, fm).elems;
      assert forall j :: |head| <= j < |head + rest| ==> (head + rest)[j] == rest[j - |head|];
    }
  }

  /** An object shape reads its value only through the keys it names. */
  lemma {:induction false} ShapeReadsOnlyItsKeys(e1: seq<(string, Value)>, e2: seq<(string, Value)>, shape: seq<Prop>, at: Path, fm: Formats)
    requires forall i :: 0 <= i < |shape| ==> Lookup(e1, shape[i].key) == Lookup(e2, shape[i].key)
    ensures ParseShape(e1, shape, at, fm) == ParseShape(e2, shape, at, fm)
    decreases |shape|
  {
    if shape != [] {
      assert forall i :: 1 <= i < |shape| ==> shape[i] == shape[1..][i - 1];
      ShapeReadsOnlyItsKeys(e1, e2, shape[1..], at, fm);
    }
  }

  /**
   * Parsing is idempotent on what it accepts: the value a successful parse
   * hands on parses again, at any path, with no issue and to itself. This is
   * what lets a saved document be loaded back into the form and submitted
   * again unchanged.
   */
  lemma {:induction false} Reparse(v: Option<Value>, r: Rule, at: Path, at2: Path, fm: Formats)
    requires WellFormedRule(r)
    requires Parse(v, r, at, fm).issues == []
    ensures Parse(Parse(v, r, at, fm).output, r, at2, fm) == Outcome([], Parse(v, r, at, fm).output)
    decreases r, 0
  {
    match r
    case ZOptional(inner) =>
      if v.Some? { Reparse(v, inner, at, at2, fm); }
    case ZString(_) =>
    case ZNumber(_) =>
    case ZObject(shape) =>
      ShapeReparse(v.value.entries, shape, at, at2, fm);
    case ZArray(elem, min) =>
      ElementsAccept(v.value.elems, elem, at, 0, fm);
      ElementsReparse(v.value.elems, elem, at, 0, at2, 0, fm);
  }

  lemma {:induction false} ShapeReparse(entries: seq<(string, Value)>, shape: seq<Prop>, at: Path, at2: Path, fm: Formats)
    requires forall i, j :: 0 <= i < j < |shape| ==> shape[i].key != shape[j].key
    requires forall i :: 0 <= i < |shape| ==> WellFormedRule(shape[i].rule)
    requires ParseShape(entries, shape, at, fm).issues == []
    ensures ParseShape(ParseShape(entries, shape, at, fm).entries, shape, at2, fm) ==
      ShapeOutcome([], ParseShape(entries, shape, at, fm).entries)
    decreases shape, 0
  {
    if shape != [] {
      var k := shape[0].key;
      var o := Parse(Lookup(entries, k), shape[0].rule, at + [Key(k)], fm);
      var head: seq<(string, Value)> := if o.output.Some? then [(k, o.output.value)] else [];
      var rest := ParseShape(entries, shape[1..], at, fm).entries;
      var out := head + rest;
      assert ParseShape(entries, shape, at, fm).entries == out;
      SplitShape(entries, shape, at, fm);
      // the first key reads back what it produced
      HeadLookup(entries, shape, at, fm);
      Reparse(Lookup(entries, k), shape[0].rule, at + [Key(k)], at2 + [Key(k)], fm);
      assert Parse(Lookup(out, k), shape[0].rule, at2 + [Key(k)], fm) == Outcome([], o.output);
      // the other keys read the rest as they would without the first
      ShapeReadsOnlyItsKeys(out, rest, shape[1..], at2, fm);
      ShapeReparse(entries, shape[1..], at, at2, fm);
      assert ParseShape(out, shape[1..], at2, fm) == ShapeOutcome([], rest);
    }
  }

  lemma SplitShape(entries: seq<(string, Value)>, shape: seq<Prop>, at: Path, fm: Formats)
    requires shape != []
    requires forall i, j :: 0 <= i < j < |shape| ==> shape[i].key != shape[j].key
    requires forall i :: 0 <= i < |shape| ==> WellFormedRule(shape[i].rule)
    ensures forall i, j :: 0 <= i < j < |shape[1..]| ==> shape[1..][i].key != shape[1..][j].key
    ensures forall i :: 0 <= i < |shape[1..]| ==> WellFormedRule(shape[1..][i].rule)
    ensures forall i :: 0 <= i < |shape[1..]| ==> shape[1..][i].key != shape[0].key
  {
    assert forall i :: 0 <= i < |shape[1..]| ==> shape[1..][i] == shape[i + 1];
  }

  /**
   * In the parsed object, the first key of the shape holds what parsing it
   * gave, and every later key reads the same as in the parse of the rest.
   */
  lemma HeadLookup(entries: seq<(string, Value)>, shape: seq<Prop>, at: Path, fm: Formats)
    requires shape != []
    requires forall i :: 0 <= i < |shape[1..]| ==> shape[1..][i].key != shape[0].key
    ensures Lookup(ParseShape(entries, shape, at, fm).entries, shape[0].key) ==
      Parse(Lookup(entries, shape[0].key), shape[0].rule, at + [Key(shape[0].key)], fm).output
    ensures forall i :: 0 <= i < |shape[1..]| ==>
      Lookup(ParseShape(entries, shape, at, fm).entries, shape[1..][i].key) ==
      Lookup(ParseShape(entries, shape[1..], at, fm).entries, shape[1..][i].key)
  {
    var k := shape[0].key;
    var o := Parse(Lookup(entries, k), shape[0].rule, at + [Key(k)], fm);
    var head: seq<(string, Value)> := if o.output.Some? then [(k, o.output.value)] else [];
    var rest := ParseShape(entries, shape[1..], at, fm).entries;
    assert ParseShape(entries, shape, at, fm).entries == head + rest;
    ShapeOutputKeys(entries, shape[1..], at, fm);
    assert k !in ShapeKeys(shape[1..]);
    assert k !in Keys(rest);
    if head == [] {
      assert head + rest == rest;
    } else {
      assert (head + rest)[0] == (k, o.output.value);
      assert (head + rest)[1..] == rest;
    }
  }

  lemma {:induction false} ElementsReparse(es: seq<Value>, elem: Rule, at: Path, from: nat, at2: Path, from2: nat, fm: Formats)
    requires WellFormedRule(elem)
    requires ParseElements(es, elem, at, from, fm).issues == []
    ensures ParseElements(ParseElements(es, elem, at, from, fm).elems, elem, at2, from2, fm) ==
      ElementsOutcome([], ParseElements(es, elem, at, from, fm).elems)
    decreases elem, |es|
  {
    if es != [] {
      var o := Parse(Some(es[0]), elem, at + [Index(from)], fm);
      ParseAccepts(Some(es[0]), elem, at + [Index(from)], fm);
      Reparse(Some(es[0]), elem, at + [Index(from)], at2 + [Index(from2)], fm);
      ElementsReparse(es[1..], elem, at, from + 1, at2, from2 + 1, fm);
      var out := ParseElements(es, elem, at, from, fm).elems;
      assert out == [o.output.value] + ParseElements(es[1..], elem, at, from + 1, fm).elems;
      assert out[1..] == ParseElements(es[1..], elem, at, from + 1, fm).elems;
    }
  }
}
