/**
 * The `should_work` test of src/lib.rs: the eight-field `Doc` struct, the expansion the
 * test expects, and what the derivation produces for it.
 */
module ShouldWork {
  import opened Wrappers
  import opened Recipes
  import opened TypeDispatch
  import opened Assembly

  function Field(ident: string, ty: TypeTag, flags: set<Flag>): FieldSpec {
    FieldSpec(Some(ident), ty, None, Fast in flags, Stored in flags, Indexed in flags,
              Coerce in flags, Norm in flags, Tokenized in flags)
  }

  /** `pub struct Doc { ... }` with its `#[field(...)]` attributes. */
  function Doc(): seq<FieldSpec> {
    [ Field("text", Text, {Stored, Tokenized}).(name := Some("str")),
      Field("id", Text, {Fast}),
      Field("num", TypeTag.U64, {Fast, Norm, Coerce}),
      Field("date", TypeTag.Date, {Stored, Fast}),
      Field("facet", TypeTag.Facet, {Stored, Indexed}),
      Field("bytes", TypeTag.Bytes, {Stored, Indexed}),
      Field("json", Json, {Stored, Indexed}),
      Field("ip", TypeTag.IpAddr, {Fast}) ]
  }

  const DefaultIndexing: TextIndexing := TextIndexing(false, "default", WithFreqsAndPositions)
  const RawIndexing: TextIndexing := TextIndexing(false, "raw", Basic)

  /** The schema entries, in order, as the test's expected expansion writes them. */
  function TestSchema(): seq<Entry> {
    [ Entry("str", TextOptions(DefaultIndexing), [SetStored], Str),
      Entry("id", TextOptions(RawIndexing), [SetFastNone], Str),
      Entry("num", NumericOptions, [SetFast, SetCoerce, SetFieldnorm], Variant.U64),
      Entry("date", DateOptions, [SetStored, SetFast], Variant.Date),
      Entry("facet", FacetOptions, [SetStored], Variant.Facet),
      Entry("bytes", BytesOptions, [SetStored, SetIndexed], Variant.Bytes),
      Entry("json", JsonObjectOptions(DefaultIndexing), [SetStored], JsonObject),
      Entry("ip", IpAddrOptions, [SetFast], Variant.IpAddr) ]
  }

  /** The document values, in order, as the test's expected expansion writes them. */
  function TestDocument(): seq<ValueSlot> {
    [ ValueSlot(0, Str, "text"),
      ValueSlot(1, Str, "id"),
      ValueSlot(2, Variant.U64, "num"),
      ValueSlot(3, Variant.Date, "date"),
      ValueSlot(4, Variant.Facet, "facet"),
      ValueSlot(5, Variant.Bytes, "bytes"),
      ValueSlot(6, JsonObject, "json"),
      ValueSlot(7, Variant.IpAddr, "ip") ]
  }

  /** The schema the code derives: the test's, except that the untokenized `json` field is raw. */
  function CodedSchema(): seq<Entry> {
    TestSchema()[6 := Entry("json", JsonObjectOptions(RawIndexing), [SetStored], JsonObject)]
  }

  /** Field k of `Doc` dispatches, with id k, to entry k of CodedSchema and value k of TestDocument. */
  ghost predicate DerivesAt(k: nat)
    requires k < 8
  {
    Dispatch(Doc()[k], AsU32(k)) == Ok(Recipe(CodedSchema()[k], TestDocument()[k]))
  }

  lemma DocField0()
    ensures DerivesAt(0)
  {
    TextSetters(Doc()[0], 0);
    assert [SetStored] + [] + [] + [] + [] == [SetStored];
  }

  lemma DocField1()
    ensures DerivesAt(1)
  {
    TextSetters(Doc()[1], 1);
    assert [] + [SetFastNone] + [] + [] + [] == [SetFastNone];
  }

  lemma DocField2()
    ensures DerivesAt(2)
  {
    NumericSetters(Doc()[2], 2);
    assert [] + [SetFast] + [SetCoerce] + [] + [SetFieldnorm] == [SetFast, SetCoerce, SetFieldnorm];
  }

  lemma DocField3()
    ensures DerivesAt(3)
  {
    PlainSetters(Doc()[3], 3);
    assert [SetStored] + [SetFast] + [] + [] + [] == [SetStored, SetFast];
  }

  lemma DocField4()
    ensures DerivesAt(4)
  {
  }

  lemma DocField5()
    ensures DerivesAt(5)
  {
    PlainSetters(Doc()[5], 5);
    assert [SetStored] + [] + [] + [SetIndexed] + [] == [SetStored, SetIndexed];
  }

  lemma DocField6()
    ensures DerivesAt(6)
  {
    JsonSetters(Doc()[6], 6);
    assert [SetStored] + [] + [] + [] + [] == [SetStored];
  }

  lemma DocField7()
    ensures DerivesAt(7)
  {
    PlainSetters(Doc()[7], 7);
    assert [] + [SetFast] + [] + [] + [] == [SetFast];
  }

  lemma AllFields()
    ensures forall k :: 0 <= k < 8 ==> DerivesAt(k)
  {
    DocField0(); DocField1(); DocField2(); DocField3();
    DocField4(); DocField5(); DocField6(); DocField7();
    forall k | 0 <= k < 8 ensures DerivesAt(k) {
      assert k == 0 || k == 1 || k == 2 || k == 3 || k == 4 || k == 5 || k == 6 || k == 7;
    }
  }

  lemma {:induction false} DocDerivation()
    ensures IsDerivation(Doc(), Ok(Derived(CodedSchema(), TestDocument())))
  {
    AllFields();
    var specs, d := Doc(), Derived(CodedSchema(), TestDocument());
    assert |specs| == 8 && |d.entries| == 8 && |d.values| == 8;
    forall k | 0 <= k < |specs| ensures Dispatch(specs[k], AsU32(k)) == Ok(Recipe(d.entries[k], d.values[k])) {
      assert DerivesAt(k);
    }
  }

  /**
   * Deriving `Doc`: eight entries and eight values with ids 0..7; the values and seven of
   * the entries are those the test expects, and the `json` entry, whose field is not
   * `tokenized`, gets the raw tokenizer where the test expects the default one.
   */
  method DeriveDoc() returns (r: Result<Derived, Error>)
    ensures r.Ok? && |r.value.entries| == 8
    ensures r.value.values == TestDocument()
    ensures forall k :: 0 <= k < 8 && k != 6 ==> r.value.entries[k] == TestSchema()[k]
    ensures r.value.entries[6] != TestSchema()[6]
    ensures r.value.entries[6].options == JsonObjectOptions(TextIndexing(false, "raw", Basic))
  {
    r := Assemble(Doc());
    DocDerivation();
    DerivationDeterministic(Doc(), r, Ok(Derived(CodedSchema(), TestDocument())));
  }

  /** A struct with a field of a type outside the recognised set (here `u32`) derives nothing. */
  lemma UnsupportedFieldAborts(r: Result<Derived, Error>)
    requires IsDerivation(Doc() + [Field("count", Unsupported, {Stored})], r)
    ensures r == Err(UnsupportedType)
  {
    var specs := Doc() + [Field("count", Unsupported, {Stored})];
    DerivationFails(specs, r);
    assert specs[8].ty.Unsupported?;
    DocDerivation();
    assert forall k :: 0 <= k < 8 ==> specs[k] == Doc()[k] && Dispatch(specs[k], AsU32(k)).Ok?;
    var j :| 0 <= j < |specs| && OkUpTo(specs, j) && Dispatch(specs[j], AsU32(j)) == Err(r.error);
  }
}
