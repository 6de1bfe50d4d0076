/**
 * The field loop of `InputReceiver::to_tokens` (src/lib.rs): walk the struct's fields in
 * declaration order, dispatch each with its enumerate index as field id, and push the two
 * recipes into two parallel vectors. The first vector becomes the body of `schema()`, the
 * second the body of `Into<Document>`.
 */
module Assembly {
  import opened Wrappers
  import opened Recipes
  import opened TypeDispatch

  /** The two parallel vectors `field_entrys` and `field_values`. */
  datatype Derived = Derived(entries: seq<Entry>, values: seq<ValueSlot>)

  /** The fields before position `n` all dispatch successfully. */
  ghost predicate OkUpTo(specs: seq<FieldSpec>, n: nat)
    requires n <= |specs|
  {
    forall k :: 0 <= k < n ==> Dispatch(specs[k], AsU32(k)).Ok?
  }

  /**
   * What a derivation produces: position k of both vectors holds the recipes of field k
   * dispatched with id k, or, when some field fails, the error of the first failing field
   * and nothing else.
   */
  ghost predicate IsDerivation(specs: seq<FieldSpec>, r: Result<Derived, Error>) {
    match r
    case Ok(d) =>
      |d.entries| == |specs| && |d.values| == |specs| &&
      forall k :: 0 <= k < |specs| ==> Dispatch(specs[k], AsU32(k)) == Ok(Recipe(d.entries[k], d.values[k]))
    case Err(e) =>
      exists j :: 0 <= j < |specs| && OkUpTo(specs, j) && Dispatch(specs[j], AsU32(j)) == Err(e)
  }

  /** The loop of `to_tokens`; a panic in the dispatch aborts the whole derivation. */
  method Assemble(specs: seq<FieldSpec>) returns (r: Result<Derived, Error>)
    ensures IsDerivation(specs, r)
  {
    var entries: seq<Entry> := [];
    var values: seq<ValueSlot> := [];
    var id := 0;
    while id < |specs|
      invariant 0 <= id <= |specs|
      invariant |entries| == id && |values| == id
      invariant forall k :: 0 <= k < id ==> Dispatch(specs[k], AsU32(k)) == Ok(Recipe(entries[k], values[k]))
    {
      var recipe := Dispatch(specs[id], AsU32(id));
      if recipe.Err? {
        return Err(recipe.error);
      }
      entries := entries + [recipe.value.entry];
      values := values + [recipe.value.slot];
      id := id + 1;
    }
    return Ok(Derived(entries, values));
  }

  /** The ids `tantivy`'s schema builder hands out: one per added entry, in add order. */
  function SchemaIds(d: Derived): seq<u32> {
    seq(|d.entries|, k requires 0 <= k => AsU32(k))
  }

  /** The ids the generated `into()` attaches to the values, in order. */
  function DocumentIds(d: Derived): seq<u32> {
    seq(|d.values|, k requires 0 <= k < |d.values| => d.values[k].fieldId)
  }

  /** A derivation is determined by the fields: deriving twice gives the same result. */
  lemma DerivationDeterministic(specs: seq<FieldSpec>, r1: Result<Derived, Error>, r2: Result<Derived, Error>)
    requires IsDerivation(specs, r1) && IsDerivation(specs, r2)
    ensures r1 == r2
  {
    if r1.Ok? && r2.Ok? {
      var d1, d2 := r1.value, r2.value;
      forall k | 0 <= k < |specs| ensures d1.entries[k] == d2.entries[k] && d1.values[k] == d2.values[k] {
        assert Dispatch(specs[k], AsU32(k)) == Ok(Recipe(d1.entries[k], d1.values[k]));
      }
      assert d1.entries == d2.entries && d1.values == d2.values;
    }
  }

  /**
   * A derivation fails exactly when some field is unnamed or of an unrecognised type,
   * and a failed derivation yields no entries and no values at all.
   */
  lemma DerivationFails(specs: seq<FieldSpec>, r: Result<Derived, Error>)
    requires IsDerivation(specs, r)
    ensures r.Err? <==> exists k :: 0 <= k < |specs| && (specs[k].ident.None? || specs[k].ty.Unsupported?)
    ensures r.Err? ==> r.error == UnnamedField || r.error == UnsupportedType
  {
  }

  /**
   * The central invariant: value k carries field id k, as does entry k (the builder numbers
   * entries in add order), both name the same type arm, entry k is named by field k's
   * override or identifier, and value k reads field k.
   */
  lemma Lockstep(specs: seq<FieldSpec>, d: Derived)
    requires IsDerivation(specs, Ok(d)) && |specs| <= U32_LIMIT
    ensures |d.entries| == |d.values| == |specs|
    ensures SchemaIds(d) == DocumentIds(d)
    ensures forall k :: 0 <= k < |specs| ==>
      d.values[k].fieldId as int == k &&
      d.entries[k].fieldType == d.values[k].value &&
      d.values[k].source == specs[k].ident.value &&
      d.entries[k].name == (if specs[k].name.Some? then specs[k].name.value else specs[k].ident.value)
  {
  }

  /** Field ids are pairwise distinct: no gaps, no reuse, for any struct that fits in u32 ids. */
  lemma IdsDistinct(specs: seq<FieldSpec>, d: Derived)
    requires IsDerivation(specs, Ok(d)) && |specs| <= U32_LIMIT
    ensures forall i, j :: 0 <= i < j < |specs| ==> d.values[i].fieldId != d.values[j].fieldId
  {
    Lockstep(specs, d);
  }

  /**
   * Appending a field leaves every earlier recipe, id included, as it was; ids are
   * positional, so only reordering fields renumbers them.
   */
  lemma AppendField(specs: seq<FieldSpec>, d: Derived, s: FieldSpec)
    requires IsDerivation(specs, Ok(d))
    requires Dispatch(s, AsU32(|specs|)).Ok?
    ensures var rec := Dispatch(s, AsU32(|specs|)).value;
      IsDerivation(specs + [s], Ok(Derived(d.entries + [rec.entry], d.values + [rec.slot])))
  {
  }
}
