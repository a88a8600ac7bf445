/**
 * The JSON-like value trees that flow through the generator: the form's
 * value store, what validation returns, the assembled document and what is
 * saved. Objects keep their keys in insertion order, as JavaScript objects
 * do, which is the order `JSON.stringify` writes them in.
 *
 * `Get` and `Set` read and write the form's value store at a path
 * (`offers.price`), for the paths of inputs the form renders.
 */
module Values {
  import opened Wrappers

  datatype Value =
    | Str(s: string)
    | Num(x: real)
    | NaN                                  // `valueAsNumber` of an empty or non-numeric input
    | Obj(entries: seq<(string, Value)>)
    | Arr(elems: seq<Value>)

  /** One step of a field path: an object key or an array index. */
  datatype Segment = Key(name: string) | Index(i: nat)

  type Path = seq<Segment>

  function Keys(entries: seq<(string, Value)>): (ks: seq<string>)
    ensures |ks| == |entries|
    ensures forall i :: 0 <= i < |entries| ==> ks[i] == entries[i].0
  {
    if entries == [] then [] else [entries[0].0] + Keys(entries[1..])
  }

  predicate DistinctKeys(entries: seq<(string, Value)>)
  {
    forall i, j :: 0 <= i < j < |entries| ==> entries[i].0 != entries[j].0
  }

  /** `obj[k]`: the value under key `k`, if the object has one. */
  function Lookup(entries: seq<(string, Value)>, k: string): (r: Option<Value>)
    ensures r.Some? <==> k in Keys(entries)
    ensures r.Some? ==> (k, r.value) in entries
  {
    if entries == [] then None
    else if entries[0].0 == k then Some(entries[0].1)
    else Lookup(entries[1..], k)
  }

  /**
   * `obj[k] = x`: a key already present keeps its place and takes the new
   * value; a new key goes last.
   */
  function Put(entries: seq<(string, Value)>, k: string, x: Value): (r: seq<(string, Value)>)
    ensures Keys(r) == if k in Keys(entries) then Keys(entries) else Keys(entries) + [k]
  {
    if entries == [] then [(k, x)]
    else if entries[0].0 == k then [(k, x)] + entries[1..]
    else [entries[0]] + Put(entries[1..], k, x)
  }

  /** After `obj[k] = x`, `k` holds `x` and every other key holds what it held before. */
  lemma {:induction false} PutLookup(entries: seq<(string, Value)>, k: string, x: Value)
    ensures Lookup(Put(entries, k, x), k) == Some(x)
    ensures forall j :: j != k ==> Lookup(Put(entries, k, x), j) == Lookup(entries, j)
    decreases |entries|
  {
    if entries != [] && entries[0].0 != k {
      PutLookup(entries[1..], k, x);
    }
  }

  /** Object spread `{...base, ...more}`: the keys of `more` assigned one by one onto `base`. */
  function Spread(base: seq<(string, Value)>, more: seq<(string, Value)>): seq<(string, Value)>
    decreases |more|
  {
    if more == [] then base else Spread(Put(base, more[0].0, more[0].1), more[1..])
  }

  /** Assigning a key the object does not have yet appends it. */
  lemma {:induction false} PutFresh(entries: seq<(string, Value)>, k: string, x: Value)
    requires forall i :: 0 <= i < |entries| ==> entries[i].0 != k
    ensures Put(entries, k, x) == entries + [(k, x)]
    decreases |entries|
  {
    if entries != [] {
      TailLacksKey(entries, k);
      PutFresh(entries[1..], k, x);
      PutFreshStep(entries, k, x);
    }
  }

  lemma TailLacksKey(entries: seq<(string, Value)>, k: string)
    requires entries != [] && forall i :: 0 <= i < |entries| ==> entries[i].0 != k
    ensures forall i :: 0 <= i < |entries[1..]| ==> entries[1..][i].0 != k
  {
  }

  lemma PutFreshStep(entries: seq<(string, Value)>, k: string, x: Value)
    requires entries != [] && entries[0].0 != k
    requires Put(entries[1..], k, x) == entries[1..] + [(k, x)]
    ensures Put(entries, k, x) == entries + [(k, x)]
  {
    PutPastHead(entries, k, x);
    HeadTail(entries, [(k, x)]);
  }

  lemma HeadTail(s: seq<(string, Value)>, more: seq<(string, Value)>)
    requires s != []
    ensures [s[0]] + (s[1..] + more) == s + more
  {
    assert [s[0]] + s[1..] == s;
  }

  lemma PutPastHead(entries: seq<(string, Value)>, k: string, x: Value)
    requires entries != [] && entries[0].0 != k
    ensures Put(entries, k, x) == [entries[0]] + Put(entries[1..], k, x)
  {
  }

  /** Spreading members whose keys are new and distinct appends them in order. */
  lemma {:induction false} SpreadFresh(base: seq<(string, Value)>, more: seq<(string, Value)>)
    requires DistinctKeys(more)
    requires forall i, j :: 0 <= i < |more| && 0 <= j < |base| ==> more[i].0 != base[j].0
    ensures Spread(base, more) == base + more
    decreases |more|
  {
    if more != [] {
      FreshAfterStep(base, more);
      PutFresh(base, more[0].0, more[0].1);
      SpreadFresh(base + [more[0]], more[1..]);
      SpreadFreshStep(base, more);
    }
  }

  lemma SpreadFreshStep(base: seq<(string, Value)>, more: seq<(string, Value)>)
    requires more != []
    requires Put(base, more[0].0, more[0].1) == base + [more[0]]
    requires Spread(base + [more[0]], more[1..]) == base + [more[0]] + more[1..]
    ensures Spread(base, more) == base + more
  {
    Regroup(base, more);
  }

  lemma Regroup(base: seq<(string, Value)>, more: seq<(string, Value)>)
    requires more != []
    ensures base + [more[0]] + more[1..] == base + more
  {
    assert [more[0]] + more[1..] == more;
  }

  lemma FreshAfterStep(base: seq<(string, Value)>, more: seq<(string, Value)>)
    requires more != [] && DistinctKeys(more)
    requires forall i, j :: 0 <= i < |more| && 0 <= j < |base| ==> more[i].0 != base[j].0
    ensures DistinctKeys(more[1..])
    ensures forall i, j :: 0 <= i < |more[1..]| && 0 <= j < |base + [more[0]]| ==> more[1..][i].0 != (base + [more[0]])[j].0
    ensures forall j :: 0 <= j < |base| ==> base[j].0 != more[0].0
  {
    forall i, j | 0 <= i < |more[1..]| && 0 <= j < |base + [more[0]]|
      ensures more[1..][i].0 != (base + [more[0]])[j].0
    {
      assert more[1..][i] == more[i + 1];
      if j < |base| {
        assert (base + [more[0]])[j] == base[j];
      } else {
        assert (base + [more[0]])[j] == more[0];
      }
    }
  }

  /** What `{...base, ...more}` holds under `j`: `more` wins over `base`. */
  lemma {:induction false} SpreadLookup(base: seq<(string, Value)>, more: seq<(string, Value)>, j: string)
    requires DistinctKeys(more)
    ensures Lookup(Spread(base, more), j) == if j in Keys(more) then Lookup(more, j) else Lookup(base, j)
    decreases |more|
  {
    if more != [] {
      assert DistinctKeys(more[1..]);
      PutLookup(base, more[0].0, more[0].1);
      SpreadLookup(Put(base, more[0].0, more[0].1), more[1..], j);
      assert Keys(more) == [more[0].0] + Keys(more[1..]);
      if j == more[0].0 {
        assert j !in Keys(more[1..]) by {
          forall i | 0 <= i < |more[1..]| ensures Keys(more[1..])[i] != j {
            assert more[1..][i] == more[i + 1];
          }
        }
      }
    }
  }

  /** A key `more` does not have keeps its value from `base`, whatever else `more` repeats. */
  lemma {:induction false} SpreadUntouched(base: seq<(string, Value)>, more: seq<(string, Value)>, j: string)
    requires j !in Keys(more)
    ensures Lookup(Spread(base, more), j) == Lookup(base, j)
    decreases |more|
  {
    if more != [] {
      assert Keys(more) == [more[0].0] + Keys(more[1..]);
      PutLookup(base, more[0].0, more[0].1);
      SpreadUntouched(Put(base, more[0].0, more[0].1), more[1..], j);
    }
  }

  /** The keys of `{...base, ...more}`: those of `base`, then the new ones of `more` in order. */
  lemma {:induction false} SpreadKeys(base: seq<(string, Value)>, more: seq<(string, Value)>)
    ensures Keys(Spread(base, more)) == Keys(base) + NewKeys(Keys(base), Keys(more))
    decreases |more|
  {
    if more != [] {
      var k := more[0].0;
      var base' := Put(base, k, more[0].1);
      SpreadKeys(base', more[1..]);
      KeysCons(more);
      if k in Keys(base) {
        NewKeysSeen(Keys(base), k, Keys(more[1..]));
      } else {
        NewKeysAfter(Keys(base), k, Keys(more[1..]));
      }
    }
  }

  lemma KeysCons(entries: seq<(string, Value)>)
    requires entries != []
    ensures Keys(entries) == [entries[0].0] + Keys(entries[1..])
  {
  }

  lemma {:induction false} NewKeysSeen(seen: seq<string>, k: string, ks: seq<string>)
    requires k in seen
    ensures NewKeys(seen, [k] + ks) == NewKeys(seen, ks)
  {
    assert ([k] + ks)[1..] == ks;
  }

  /** The keys of `ks` that are not already in `seen`, first occurrence only, in order. */
  function NewKeys(seen: seq<string>, ks: seq<string>): seq<string>
    decreases |ks|
  {
    if ks == [] then []
    else if ks[0] in seen then NewKeys(seen, ks[1..])
    else [ks[0]] + NewKeys(seen + [ks[0]], ks[1..])
  }

  lemma {:induction false} NewKeysAfter(seen: seq<string>, k: string, ks: seq<string>)
    requires k !in seen
    ensures NewKeys(seen, [k] + ks) == [k] + NewKeys(seen + [k], ks)
  {
    assert ([k] + ks)[1..] == ks;
  }

  /** `get(v, path)` of the form library: the value at `path`, if every step exists. */
  function Get(v: Value, p: Path): Option<Value>
    decreases |p|
  {
    if p == [] then Some(v)
    else match p[0]
      case Key(k) =>
        if v.Obj? then
          match Lookup(v.entries, k)
          case Some(child) => Get(child, p[1..])
          case None => None
        else None
      case Index(i) =>
        if v.Arr? && i < |v.elems| then Get(v.elems[i], p[1..]) else None
  }

  /**
   * Writing `x` at a path, as the form writes an input's value: a missing
   * object on the way is created (a scalar in the way is replaced by an
   * object); a step into an array must name an existing element, and a key
   * step into an array writes nothing. The form only writes at paths of
   * inputs it renders, whose array steps name existing rows.
   */
  function Set(v: Value, p: Path, x: Value): Value
    decreases |p|
  {
    if p == [] then x
    else match p[0]
      case Key(k) =>
        if v.Arr? then v
        else
          var es := if v.Obj? then v.entries else [];
          var child := Lookup(es, k).GetOr(Obj([]));
          Obj(Put(es, k, Set(child, p[1..], x)))
      case Index(i) =>
        if v.Arr? && i < |v.elems| then Arr(v.elems[i := Set(v.elems[i], p[1..], x)]) else v
  }

  /** `path` can be written into `v`: every index step lands on an existing array element. */
  predicate Writable(v: Value, p: Path)
    decreases |p|
  {
    p == [] ||
    match p[0]
    case Key(k) =>
      !v.Arr? &&
      var es := if v.Obj? then v.entries else [];
      Writable(Lookup(es, k).GetOr(Obj([])), p[1..])
    case Index(i) =>
      v.Arr? && i < |v.elems| && Writable(v.elems[i], p[1..])
  }

  /** Two paths that part somewhere: neither is a prefix of the other. */
  predicate Apart(p: Path, q: Path)
    decreases |p|
  {
    p != [] && q != [] && (p[0] != q[0] || Apart(p[1..], q[1..]))
  }

  /** What is written can be read back at the same path. */
  lemma {:induction false} GetSet(v: Value, p: Path, x: Value)
    requires Writable(v, p)
    ensures Get(Set(v, p, x), p) == Some(x)
    decreases |p|
  {
    if p != [] {
      match p[0]
      case Key(k) =>
        var es := if v.Obj? then v.entries else [];
        var child := Lookup(es, k).GetOr(Obj([]));
        PutLookup(es, k, Set(child, p[1..], x));
        GetSet(child, p[1..], x);
      case Index(i) =>
        GetSet(v.elems[i], p[1..], x);
    }
  }

  /** A write leaves every path that parts from it unchanged. */
  lemma {:induction false} GetSetApart(v: Value, p: Path, x: Value, q: Path)
    requires Apart(p, q)
    ensures Get(Set(v, p, x), q) == Get(v, q)
    decreases |p|
  {
    match p[0]
    case Key(k) =>
      if !v.Arr? {
        var es := if v.Obj? then v.entries else [];
        var child := Lookup(es, k).GetOr(Obj([]));
        if q[0] == p[0] {
          GetSetApart(child, p[1..], x, q[1..]);
        }
        GetSetApartKey(v, k, p[1..], x, q, Set(child, p[1..], x));
      }
    case Index(i) =>
      if v.Arr? && i < |v.elems| && q[0] == p[0] {
        GetSetApart(v.elems[i], p[1..], x, q[1..]);
      }
  }

  /** The step of `GetSetApart` through an object key `k`, with `written` the child after the write. */
  lemma GetSetApartKey(v: Value, k: string, rest: Path, x: Value, q: Path, written: Value)
    requires !v.Arr? && q != []
    requires written == Set(Lookup(if v.Obj? then v.entries else [], k).GetOr(Obj([])), rest, x)
    requires q[0] == Key(k) ==>
               q[1..] != [] &&
               Get(written, q[1..]) == Get(Lookup(if v.Obj? then v.entries else [], k).GetOr(Obj([])), q[1..])
    ensures Get(Set(v, [Key(k)] + rest, x), q) == Get(v, q)
  {
    var es := if v.Obj? then v.entries else [];
    var p := [Key(k)] + rest;
    assert p[0] == Key(k) && p[1..] == rest;
    assert Set(v, p, x) == Obj(Put(es, k, written));
    PutLookup(es, k, written);
    match q[0]
    case Key(j) =>
      if j == k {
        match Lookup(es, k)
        case Some(c) =>
        case None =>
          var q' := q[1..];
          assert Get(Obj([]), q') == None by {
            match q'[0]
            case Key(_) =>
            case Index(_) =>
          }
      }
    case Index(_) =>
  }
}
