/**
 * FieldReceiver::get_field_type_and_value (src/lib.rs): the type-driven table that turns
 * one annotated field into its schema-entry recipe and its value recipe, and the
 * capability model that says which flags matter for which declared type.
 */
module TypeDispatch {
  import opened Wrappers
  import opened Recipes

  /** The pair of recipes the macro emits for one field. */
  datatype Recipe = Recipe(entry: Entry, slot: ValueSlot)

  /** `if flag { <setter line> } else { TokenStream::new() }`. */
  function When(flag: bool, s: Setter): seq<Setter> {
    if flag then [s] else []
  }

  /** The tokenizer policy shared by text and JSON fields. */
  function Indexing(spec: FieldSpec): TextIndexing {
    if spec.tokenized then TextIndexing(spec.norm, "default", WithFreqsAndPositions)
    else TextIndexing(spec.norm, "raw", Basic)
  }

  /**
   * The `FieldType` arm, and the `Value` arm of the same name, that each recognised
   * declared type is paired with.
   */
  function ArmOf(ty: TypeTag): Variant
    requires !ty.Unsupported?
  {
    match ty
    case Text => Str
    case Json => JsonObject
    case U64 => Variant.U64
    case I64 => Variant.I64
    case F64 => Variant.F64
    case Bool => Variant.Bool
    case Bytes => Variant.Bytes
    case Facet => Variant.Facet
    case Date => Variant.Date
    case IpAddr => Variant.IpAddr
  }

  /**
   * The options value each recognised declared type's entry starts from: text and JSON
   * carry the shared indexing sub-options, the four numeric types share NumericOptions,
   * and every other type has an options type of its own.
   */
  function OptionsOf(spec: FieldSpec): Options
    requires !spec.ty.Unsupported?
  {
    match spec.ty
    case Text => TextOptions(Indexing(spec))
    case Json => JsonObjectOptions(Indexing(spec))
    case U64 | I64 | F64 | Bool => NumericOptions
    case Bytes => BytesOptions
    case Facet => FacetOptions
    case Date => DateOptions
    case IpAddr => IpAddrOptions
  }

  /**
   * The dispatch itself. An unnamed field fails before the type is looked at (the name is
   * computed first); a type outside the recognised set fails after all the branches.
   * The field id is only ever put into the value recipe.
   */
  function Dispatch(spec: FieldSpec, id: u32): (r: Result<Recipe, Error>)
    ensures r.Err? <==> spec.ident.None? || spec.ty.Unsupported?
    ensures spec.ident.None? ==> r == Err(UnnamedField)
    ensures spec.ident.Some? && spec.ty.Unsupported? ==> r == Err(UnsupportedType)
    ensures r.Ok? ==> r.value.slot.fieldId == id && r.value.slot.source == spec.ident.value
    ensures r.Ok? ==> r.value.entry.fieldType == r.value.slot.value
    ensures r.Ok? ==> r.value.slot.value == ArmOf(spec.ty)
    ensures r.Ok? ==> r.value.entry.options == OptionsOf(spec)
  {
    match spec.ident
    case None => Err(UnnamedField)
    case Some(ident) =>
      var name := spec.name.GetOr(ident);
      var stored := When(spec.stored, SetStored);
      var fast := When(spec.fast, SetFast);
      var coerce := When(spec.coerce, SetCoerce);
      var indexed := When(spec.indexed, SetIndexed);
      var fieldnorm := When(spec.norm, SetFieldnorm);
      var textFast := When(spec.fast, SetFastNone);
      var numeric := stored + fast + coerce + indexed + fieldnorm;
      var plain := stored + fast + indexed + fieldnorm;
      match spec.ty
      case Text => Ok(Make(name, TextOptions(Indexing(spec)), stored + textFast + coerce, Str, id, ident))
      case Json => Ok(Make(name, JsonObjectOptions(Indexing(spec)), stored + textFast, JsonObject, id, ident))
      case U64 => Ok(Make(name, NumericOptions, numeric, Variant.U64, id, ident))
      // The emitted I64 code builds `FieldType::I64(options)` into `ty` and then passes
      // `options` to FieldEntry::new; the recipe records the intended arm, I64.
      case I64 => Ok(Make(name, NumericOptions, numeric, Variant.I64, id, ident))
      case F64 => Ok(Make(name, NumericOptions, numeric, Variant.F64, id, ident))
      case Bool => Ok(Make(name, NumericOptions, numeric, Variant.Bool, id, ident))
      case Bytes => Ok(Make(name, BytesOptions, plain, Variant.Bytes, id, ident))
      // The emitted Facet value reads the bare identifier rather than `self.<ident>`;
      // the recipe records the arm and the field it is meant to read.
      case Facet => Ok(Make(name, FacetOptions, stored, Variant.Facet, id, ident))
      case Date => Ok(Make(name, DateOptions, plain, Variant.Date, id, ident))
      case IpAddr => Ok(Make(name, IpAddrOptions, plain, Variant.IpAddr, id, ident))
      case Unsupported => Err(UnsupportedType)
  }

  /** Both recipes of a field whose entry and value use the arm `v`. */
  function Make(name: string, options: Options, setters: seq<Setter>, v: Variant, id: u32, ident: string): Recipe {
    Recipe(Entry(name, options, setters, v), ValueSlot(id, v, ident))
  }

  // ---------------------------------------------------------------------------------
  // Capability model: which requested flag becomes which setter, for which type.
  // ---------------------------------------------------------------------------------

  /** The flag a setter is emitted for. */
  function FlagOf(s: Setter): Flag {
    match s
    case SetStored => Stored
    case SetFast => Fast
    case SetFastNone => Fast
    case SetCoerce => Coerce
    case SetIndexed => Indexed
    case SetFieldnorm => Norm
  }

  /** The position of a setter in the one order every type emits them in. */
  function Rank(s: Setter): nat {
    match s
    case SetStored => 0
    case SetFast => 1
    case SetFastNone => 1
    case SetCoerce => 2
    case SetIndexed => 3
    case SetFieldnorm => 4
  }

  /** Does flag `f` produce an option setter on a field of type `ty`? */
  predicate SetterApplies(ty: TypeTag, f: Flag) {
    match ty
    case Text => f == Stored || f == Fast || f == Coerce
    case Json => f == Stored || f == Fast
    case U64 | I64 | F64 | Bool => f != Tokenized
    case Bytes | Date | IpAddr => f == Stored || f == Fast || f == Indexed || f == Norm
    case Facet => f == Stored
    case Unsupported => false
  }

  /** The fast setter of a type: text and JSON take an (absent) ordering key. */
  function FastSetter(ty: TypeTag): Setter {
    if ty == Text || ty == Json then SetFastNone else SetFast
  }

  /** Setters in strictly increasing rank: the fixed order, and no setter twice. */
  ghost predicate Ordered(setters: seq<Setter>) {
    forall i, j :: 0 <= i < j < |setters| ==> Rank(setters[i]) < Rank(setters[j])
  }

  /**
   * The setters a field of this spec should get: exactly those whose flag is set and
   * applies to the type (with the type's own fast variant), in the fixed order.
   */
  ghost predicate SettersMatch(spec: FieldSpec, setters: seq<Setter>) {
    Ordered(setters) &&
    forall s: Setter :: s in setters <==>
      (spec.Has(FlagOf(s)) && SetterApplies(spec.ty, FlagOf(s)) && (s.SetFast? || s.SetFastNone? ==> s == FastSetter(spec.ty)))
  }

  /** A flag the entry of a `ty` field never depends on. */
  predicate Ignored(ty: TypeTag, f: Flag) {
    !SetterApplies(ty, f) && !((ty == Text || ty == Json) && (f == Norm || f == Tokenized))
  }

  lemma OrderedTail(setters: seq<Setter>)
    requires Ordered(setters) && |setters| > 0
    ensures Ordered(setters[1..])
    ensures forall s :: s in setters[1..] ==> Rank(setters[0]) < Rank(s)
  {
  }

  /** Two ordered setter sequences with the same members are the same sequence. */
  lemma {:induction false} OrderedUnique(a: seq<Setter>, b: seq<Setter>)
    requires Ordered(a) && Ordered(b)
    requires forall s :: s in a <==> s in b
    ensures a == b
    decreases |a|
  {
    assert b != [] ==> b[0] in a;
    if a != [] {
      assert a[0] in b;
      OrderedTail(a);
      OrderedTail(b);
      forall s ensures s in a[1..] <==> s in b[1..] {
        if s in a[1..] { assert Rank(a[0]) < Rank(s); assert s in b; assert s != b[0]; }
        if s in b[1..] { assert Rank(b[0]) < Rank(s); assert s in a; assert s != a[0]; }
      }
      OrderedUnique(a[1..], b[1..]);
      assert a == [a[0]] + a[1..];
      assert b == [b[0]] + b[1..];
    }
  }

  // ---------------------------------------------------------------------------------
  // Properties of the dispatch.
  // ---------------------------------------------------------------------------------

  /** Does this field ask for setter `s`, and does its type take it? */
  predicate Wanted(spec: FieldSpec, s: Setter) {
    spec.Has(FlagOf(s)) && SetterApplies(spec.ty, FlagOf(s))
  }

  /** The candidates, in order, that satisfy `keep`. */
  function Filter(keep: Setter -> bool, cands: seq<Setter>): seq<Setter> {
    if cands == [] then []
    else When(keep(cands[0]), cands[0]) + Filter(keep, cands[1..])
  }

  /** Reference definition of a field's setters, read off the capability model. */
  function Expected(spec: FieldSpec): seq<Setter> {
    Filter(s => Wanted(spec, s), [SetStored, FastSetter(spec.ty), SetCoerce, SetIndexed, SetFieldnorm])
  }

  lemma {:induction false} FilterMembers(keep: Setter -> bool, cands: seq<Setter>)
    ensures forall s :: s in Filter(keep, cands) <==> s in cands && keep(s)
    decreases |cands|
  {
    if cands != [] {
      FilterMembers(keep, cands[1..]);
      assert cands == [cands[0]] + cands[1..];
    }
  }

  /** Putting a setter in front of setters of higher rank keeps the order. */
  lemma ConsOrdered(x: Setter, rest: seq<Setter>)
    requires Ordered(rest)
    requires forall s :: s in rest ==> Rank(x) < Rank(s)
    ensures Ordered([x] + rest)
  {
  }

  lemma {:induction false} FilterOrdered(keep: Setter -> bool, cands: seq<Setter>)
    requires Ordered(cands)
    ensures Ordered(Filter(keep, cands))
    decreases |cands|
  {
    if cands != [] {
      OrderedTail(cands);
      FilterOrdered(keep, cands[1..]);
      FilterMembers(keep, cands[1..]);
      if keep(cands[0]) {
        ConsOrdered(cands[0], Filter(keep, cands[1..]));
      }
    }
  }

  lemma FilterCons(keep: Setter -> bool, x: Setter, rest: seq<Setter>)
    ensures Filter(keep, [x] + rest) == When(keep(x), x) + Filter(keep, rest)
  {
  }

  lemma Regroup(a: seq<Setter>, b: seq<Setter>, c: seq<Setter>, d: seq<Setter>, e: seq<Setter>)
    ensures a + (b + (c + (d + (e + [])))) == a + b + c + d + e
  {
  }

  /** `Filter` over five candidates, written out. */
  lemma FilterFive(keep: Setter -> bool, a: Setter, b: Setter, c: Setter, d: Setter, e: Setter)
    ensures Filter(keep, [a, b, c, d, e])
         == When(keep(a), a) + When(keep(b), b) + When(keep(c), c) + When(keep(d), d) + When(keep(e), e)
  {
    var fe := Filter(keep, [e]);
    FilterCons(keep, e, []);
    assert [e] + [] == [e];
    assert fe == When(keep(e), e) + [];
    var fd := Filter(keep, [d, e]);
    FilterCons(keep, d, [e]);
    assert [d] + [e] == [d, e];
    assert fd == When(keep(d), d) + fe;
    var fc := Filter(keep, [c, d, e]);
    FilterCons(keep, c, [d, e]);
    assert [c] + [d, e] == [c, d, e];
    assert fc == When(keep(c), c) + fd;
    var fb := Filter(keep, [b, c, d, e]);
    FilterCons(keep, b, [c, d, e]);
    assert [b] + [c, d, e] == [b, c, d, e];
    assert fb == When(keep(b), b) + fc;
    FilterCons(keep, a, [b, c, d, e]);
    assert [a] + [b, c, d, e] == [a, b, c, d, e];
    assert Filter(keep, [a, b, c, d, e]) == When(keep(a), a) + fb;
    Regroup(When(keep(a), a), When(keep(b), b), When(keep(c), c), When(keep(d), d), When(keep(e), e));
  }

  /** The reference definition satisfies the capability model. */
  lemma ExpectedMatches(spec: FieldSpec)
    ensures SettersMatch(spec, Expected(spec))
  {
    var cands := [SetStored, FastSetter(spec.ty), SetCoerce, SetIndexed, SetFieldnorm];
    assert Ordered(cands);
    FilterOrdered(s => Wanted(spec, s), cands);
    FilterMembers(s => Wanted(spec, s), cands);
    forall s: Setter
      ensures s in Expected(spec) <==>
        (Wanted(spec, s) && (s.SetFast? || s.SetFastNone? ==> s == FastSetter(spec.ty)))
    {
      if Wanted(spec, s) && (s.SetFast? || s.SetFastNone? ==> s == FastSetter(spec.ty)) {
        assert s in cands;
      }
    }
  }

  /** The reference definition, written out over its five candidates. */
  lemma ExpectedFive(spec: FieldSpec)
    ensures var fs := FastSetter(spec.ty);
      Expected(spec) == When(Wanted(spec, SetStored), SetStored) + When(Wanted(spec, fs), fs)
        + When(Wanted(spec, SetCoerce), SetCoerce) + When(Wanted(spec, SetIndexed), SetIndexed)
        + When(Wanted(spec, SetFieldnorm), SetFieldnorm)
  {
    FilterFive(s => Wanted(spec, s), SetStored, FastSetter(spec.ty), SetCoerce, SetIndexed, SetFieldnorm);
  }

  /** The setters of a recognised field are those of the reference definition. */
  lemma DispatchSetters(spec: FieldSpec, id: u32)
    requires Dispatch(spec, id).Ok?
    ensures Dispatch(spec, id).value.entry.setters == Expected(spec)
  {
    ExpectedFive(spec);
    match spec.ty {
      case Text => TextSetters(spec, id);
      case Json => JsonSetters(spec, id);
      case Facet => FacetSetters(spec, id);
      case Bytes | Date | IpAddr => PlainSetters(spec, id);
      case U64 | I64 | F64 | Bool => NumericSetters(spec, id);
    }
  }

  // The per-family lemmas below pad their setter lists with `[]` so that each lines up,
  // piece by piece, with the five candidates of ExpectedFive.

  lemma TextSetters(spec: FieldSpec, id: u32)
    requires spec.ident.Some? && spec.ty.Text?
    ensures Dispatch(spec, id).value.entry.setters
         == When(spec.stored, SetStored) + When(spec.fast, SetFastNone) + When(spec.coerce, SetCoerce) + [] + []
  {
  }

  lemma JsonSetters(spec: FieldSpec, id: u32)
    requires spec.ident.Some? && spec.ty.Json?
    ensures Dispatch(spec, id).value.entry.setters
         == When(spec.stored, SetStored) + When(spec.fast, SetFastNone) + [] + [] + []
  {
  }

  lemma FacetSetters(spec: FieldSpec, id: u32)
    requires spec.ident.Some? && spec.ty.Facet?
    ensures Dispatch(spec, id).value.entry.setters == When(spec.stored, SetStored) + [] + [] + [] + []
  {
  }

  lemma PlainSetters(spec: FieldSpec, id: u32)
    requires spec.ident.Some? && (spec.ty.Bytes? || spec.ty.Date? || spec.ty.IpAddr?)
    ensures Dispatch(spec, id).value.entry.setters
         == When(spec.stored, SetStored) + When(spec.fast, SetFast) + []
          + When(spec.indexed, SetIndexed) + When(spec.norm, SetFieldnorm)
  {
  }

  lemma NumericSetters(spec: FieldSpec, id: u32)
    requires spec.ident.Some? && (spec.ty.U64? || spec.ty.I64? || spec.ty.F64? || spec.ty.Bool?)
    ensures Dispatch(spec, id).value.entry.setters
         == When(spec.stored, SetStored) + When(spec.fast, SetFast) + When(spec.coerce, SetCoerce)
          + When(spec.indexed, SetIndexed) + When(spec.norm, SetFieldnorm)
  {
  }

  /** ... and no other sequence is: the setter recipe is determined by the capability model. */
  lemma SettersDetermined(spec: FieldSpec, id: u32, setters: seq<Setter>)
    requires Dispatch(spec, id).Ok?
    requires SettersMatch(spec, setters)
    ensures setters == Dispatch(spec, id).value.entry.setters
  {
    DispatchSetters(spec, id);
    ExpectedMatches(spec);
    OrderedUnique(setters, Dispatch(spec, id).value.entry.setters);
  }

  /** The entry is named by the `name` override when there is one, else by the identifier. */
  lemma NameResolution(spec: FieldSpec, id: u32)
    requires spec.ident.Some? && !spec.ty.Unsupported?
    ensures spec.name.Some? ==> Dispatch(spec, id).value.entry.name == spec.name.value
    ensures spec.name.None? ==> Dispatch(spec, id).value.entry.name == spec.ident.value
  {
  }

  /** Renaming a field changes only its entry's name: the value recipe and its id stay put. */
  lemma RenameChangesOnlyName(spec: FieldSpec, x: string, id: u32)
    requires Dispatch(spec, id).Ok?
    ensures Dispatch(spec.(name := Some(x)), id).Ok?
    ensures Dispatch(spec.(name := Some(x)), id).value.entry == Dispatch(spec, id).value.entry.(name := x)
    ensures Dispatch(spec.(name := Some(x)), id).value.slot == Dispatch(spec, id).value.slot
  {
  }

  /** The id reaches only the value recipe: the schema entry is the same for every id. */
  lemma IdChangesOnlyFieldId(spec: FieldSpec, id1: u32, id2: u32)
    requires Dispatch(spec, id1).Ok?
    ensures Dispatch(spec, id2).Ok?
    ensures Dispatch(spec, id2).value.entry == Dispatch(spec, id1).value.entry
    ensures Dispatch(spec, id2).value.slot == Dispatch(spec, id1).value.slot.(fieldId := id2)
  {
  }

  /** Text and JSON fields: field norms follow `norm`, and `tokenized` picks the tokenizer. */
  lemma TextIndexingPolicy(spec: FieldSpec, id: u32)
    requires spec.ident.Some? && (spec.ty.Text? || spec.ty.Json?)
    ensures var o := Dispatch(spec, id).value.entry.options;
      (spec.ty.Text? ==> o.TextOptions?) && (spec.ty.Json? ==> o.JsonObjectOptions?) &&
      o.indexing.fieldnorms == spec.norm &&
      (spec.tokenized ==> o.indexing.tokenizer == "default" && o.indexing.record == WithFreqsAndPositions) &&
      (!spec.tokenized ==> o.indexing.tokenizer == "raw" && o.indexing.record == Basic)
  {
  }

  /** A text field and a JSON field with the same flags get the same indexing sub-options. */
  lemma TextJsonShareIndexing(spec: FieldSpec, id: u32)
    requires spec.ident.Some?
    ensures Dispatch(spec.(ty := Text), id).value.entry.options.indexing
         == Dispatch(spec.(ty := Json), id).value.entry.options.indexing
  {
  }

  /** u64, i64, f64 and bool fields get the same numeric options and differ only in the arm. */
  lemma NumericFamily(spec: FieldSpec, t: TypeTag, id: u32)
    requires spec.ident.Some? && (t.U64? || t.I64? || t.F64? || t.Bool?)
    ensures Dispatch(spec.(ty := t), id).value.entry.options == NumericOptions
    ensures Dispatch(spec.(ty := t), id).value.entry.setters == Dispatch(spec.(ty := TypeTag.U64), id).value.entry.setters
    ensures var u := Dispatch(spec.(ty := TypeTag.U64), id).value;
      Dispatch(spec.(ty := t), id).value == Recipe(u.entry.(fieldType := ArmOf(t)), u.slot.(value := ArmOf(t)))
  {
  }

  /** Changing a flag the type ignores leaves both recipes unchanged. */
  lemma IgnoredFlagChangesNothing(spec: FieldSpec, f: Flag, b: bool, id: u32)
    requires Ignored(spec.ty, f)
    ensures Dispatch(spec.With(f, b), id) == Dispatch(spec, id)
  {
  }

  /** Changing a flag the type does not ignore changes the schema entry. */
  lemma RelevantFlagChangesEntry(spec: FieldSpec, f: Flag, id: u32)
    requires spec.ident.Some? && !spec.ty.Unsupported? && !Ignored(spec.ty, f)
    ensures Dispatch(spec.With(f, true), id).value.entry != Dispatch(spec.With(f, false), id).value.entry
  {
    if SetterApplies(spec.ty, f) {
      SetterFlagChangesSetters(spec, f, id);
    } else {
      TextIndexingPolicy(spec.With(f, true), id);
      TextIndexingPolicy(spec.With(f, false), id);
    }
  }

  lemma SetterFlagChangesSetters(spec: FieldSpec, f: Flag, id: u32)
    requires spec.ident.Some? && SetterApplies(spec.ty, f)
    ensures Dispatch(spec.With(f, true), id).value.entry.setters != Dispatch(spec.With(f, false), id).value.entry.setters
  {
    var on, off := spec.With(f, true), spec.With(f, false);
    var s := SetterOf(spec.ty, f);
    SetterPresence(on, id, s);
    SetterPresence(off, id, s);
  }

  /** The setter a flag produces on a type that takes one for it. */
  function SetterOf(ty: TypeTag, f: Flag): (s: Setter)
    requires SetterApplies(ty, f)
    ensures FlagOf(s) == f && (s.SetFast? || s.SetFastNone? ==> s == FastSetter(ty))
  {
    match f
    case Stored => SetStored
    case Fast => FastSetter(ty)
    case Coerce => SetCoerce
    case Indexed => SetIndexed
    case Norm => SetFieldnorm
  }

  /** Whether a setter appears, read off the capability model. */
  lemma SetterPresence(spec: FieldSpec, id: u32, s: Setter)
    requires Dispatch(spec, id).Ok?
    ensures s in Dispatch(spec, id).value.entry.setters <==>
      spec.Has(FlagOf(s)) && SetterApplies(spec.ty, FlagOf(s)) && (s.SetFast? || s.SetFastNone? ==> s == FastSetter(spec.ty))
  {
    DispatchSetters(spec, id);
    ExpectedMatches(spec);
  }

  /** A facet field's entry depends only on its name and `stored`: it gets set_stored or nothing. */
  lemma FacetOnlyStored(s1: FieldSpec, s2: FieldSpec, id: u32)
    requires s1.ty.Facet? && s2.ty.Facet? && s1.ident.Some?
    requires s1.ident == s2.ident && s1.name == s2.name && s1.stored == s2.stored
    ensures Dispatch(s1, id) == Dispatch(s2, id)
    ensures Dispatch(s1, id).value.entry.setters == (if s1.stored then [SetStored] else [])
  {
  }

  /** The value arm names the declared type one to one. */
  lemma VariantOneToOne(s1: FieldSpec, s2: FieldSpec, id1: u32, id2: u32)
    requires Dispatch(s1, id1).Ok? && Dispatch(s2, id2).Ok?
    ensures Dispatch(s1, id1).value.slot.value == Dispatch(s2, id2).value.slot.value <==> s1.ty == s2.ty
  {
  }
}
