/**
 * The saved-document store of `schemaStorageUtils.ts`: one local-storage
 * slot, `savedSchemas`, holding the list of saved documents. Saving appends
 * to the list, deleting keeps every entry whose id differs. The JSON
 * encoding and decoding around the slot are taken as exact inverses, so the
 * slot holds the list itself.
 */
module SchemaStorageUtils {
  import opened Wrappers
  import opened Values

  /** `SavedSchema`; `schemaType` is the `type` member, a plain string. */
  datatype SavedSchema = SavedSchema(id: string, name: string, schemaType: string, data: Value, createdAt: string)

  /** `schemas.filter(schema => schema.id !== id)` */
  function Without(list: seq<SavedSchema>, id: string): (r: seq<SavedSchema>)
    ensures forall e :: e in r <==> e in list && e.id != id
    ensures |r| <= |list|
  {
    if list == [] then []
    else (if list[0].id != id then [list[0]] else []) + Without(list[1..], id)
  }

  /** Filtering a concatenation filters each part in place: the entries kept stay in their order. */
  lemma {:induction false} WithoutAppend(a: seq<SavedSchema>, b: seq<SavedSchema>, id: string)
    ensures Without(a + b, id) == Without(a, id) + Without(b, id)
    decreases |a|
  {
    if a == [] {
      assert a + b == b;
    } else {
      assert (a + b)[0] == a[0] && (a + b)[1..] == a[1..] + b;
      WithoutAppend(a[1..], b, id);
    }
  }

  /** An id no entry has leaves the list as it is. */
  lemma {:induction false} WithoutAbsent(list: seq<SavedSchema>, id: string)
    requires forall i :: 0 <= i < |list| ==> list[i].id != id
    ensures Without(list, id) == list
    decreases |list|
  {
    if list != [] {
      WithoutAbsent(list[1..], id);
    }
  }

  /** Deleting twice is deleting once. */
  lemma {:induction false} WithoutTwice(list: seq<SavedSchema>, id: string)
    ensures Without(Without(list, id), id) == Without(list, id)
  {
    var r := Without(list, id);
    assert forall i :: 0 <= i < |r| ==> r[i].id != id by {
      forall i | 0 <= i < |r| ensures r[i].id != id {
        assert r[i] in r;
      }
    }
    WithoutAbsent(r, id);
  }

  /** How many entries carry `id`. */
  function CountId(list: seq<SavedSchema>, id: string): nat
  {
    if list == [] then 0 else (if list[0].id == id then 1 else 0) + CountId(list[1..], id)
  }

  /** Deleting removes exactly the entries that carry the id, duplicates included. */
  lemma {:induction false} WithoutLength(list: seq<SavedSchema>, id: string)
    ensures |Without(list, id)| == |list| - CountId(list, id)
    decreases |list|
  {
    if list != [] {
      WithoutLength(list[1..], id);
    }
  }

  /** Saving never checks ids: two entries with the same id can both be stored, and one delete removes both. */
  lemma DuplicateIds(list: seq<SavedSchema>, e1: SavedSchema, e2: SavedSchema)
    requires e1.id == e2.id
    ensures CountId(list + [e1, e2], e1.id) == CountId(list, e1.id) + 2
    ensures Without(list + [e1, e2], e1.id) == Without(list, e1.id)
  {
    CountAppend(list, [e1, e2], e1.id);
    WithoutAppend(list, [e1, e2], e1.id);
    var pair := [e1, e2];
    assert pair[0] == e1 && pair[1..] == [e2] && [e2][0] == e2 && [e2][1..] == [];
    assert CountId([e2], e1.id) == 1 + CountId([], e1.id);
    assert CountId(pair, e1.id) == 1 + CountId([e2], e1.id);
  }

  lemma {:induction false} CountAppend(a: seq<SavedSchema>, b: seq<SavedSchema>, id: string)
    ensures CountId(a + b, id) == CountId(a, id) + CountId(b, id)
    decreases |a|
  {
    if a == [] {
      assert a + b == b;
    } else {
      assert (a + b)[0] == a[0] && (a + b)[1..] == a[1..] + b;
      CountAppend(a[1..], b, id);
    }
  }

  /** The browser's local storage, reduced to the one slot the program uses. */
  class Store {
    /** The `savedSchemas` slot: absent until the first write. */
    var slot: Option<seq<SavedSchema>>

    /** Nothing stored yet. */
    constructor()
      ensures slot == None
    {
      slot := None;
    }

    /** What `getSavedSchemas` reads: the stored list, or no entry when nothing is stored. */
    function Stored(): seq<SavedSchema>
      reads this
    {
      slot.GetOr([])
    }

    /** `getSavedSchemas()` */
    method GetSavedSchemas() returns (list: seq<SavedSchema>)
      ensures list == Stored()
      ensures slot.None? ==> list == []
    {
      match slot
      case Some(saved) => list := saved;
      case None => list := [];
    }

    /** `saveSchema(e)`: the stored list with `e` at its end. */
    method SaveSchema(e: SavedSchema)
      modifies this
      ensures slot == Some(old(Stored()) + [e])
      ensures Stored()[..|old(Stored())|] == old(Stored()) && Stored()[|old(Stored())|] == e
    {
      var saved := GetSavedSchemas();
      saved := saved + [e];
      slot := Some(saved);
    }

    /** `deleteSavedSchema(id)`: the stored list without the entries carrying `id`. */
    method DeleteSavedSchema(id: string)
      modifies this
      ensures slot == Some(Without(old(Stored()), id))
    {
      var saved := GetSavedSchemas();
      slot := Some(Without(saved, id));
    }
  }
}
