/**
 * The data the derive macro works on: one parsed `#[field(...)]`-annotated struct field
 * (FieldReceiver in src/lib.rs), and the two recipes it turns each field into. The recipes
 * stand for the token streams the macro emits: the schema-entry recipe becomes the
 * statements inside `schema()`, the value recipe the statements inside `Into<Document>`.
 */
module Recipes {
  import opened Wrappers

  /** The width of the field id the macro writes (`id as u32`). */
  const U32_LIMIT: int := 0x1_0000_0000
  newtype u32 = x: int | 0 <= x < 0x1_0000_0000

  /** Rust's `k as u32` on a `usize`: keeps the low 32 bits. */
  function AsU32(k: nat): (r: u32)
    ensures r as int == k % U32_LIMIT
    ensures k < U32_LIMIT ==> r as int == k
  {
    (k % U32_LIMIT) as u32
  }

  /**
   * The declared Rust type of a field, as recognised by the macro: `String`,
   * `Map<String, Value>`, `u64`, `i64`, `f64`, `bool`, `Vec<u8>`, `Facet`, `DateTime`,
   * `Ipv6Addr`; any other spelling is `Unsupported`.
   */
  datatype TypeTag = Text | Json | U64 | I64 | F64 | Bool | Bytes | Facet | Date | IpAddr | Unsupported

  /** The six boolean switches of `#[field(...)]`; each defaults to false. */
  datatype Flag = Fast | Stored | Indexed | Coerce | Norm | Tokenized

  /** One struct field after attribute parsing (FieldReceiver). */
  datatype FieldSpec = FieldSpec(
    ident: Option<string>,   // the field identifier; None for a tuple-struct field
    ty: TypeTag,
    name: Option<string>,    // `name = "..."` override
    fast: bool,
    stored: bool,
    indexed: bool,
    coerce: bool,
    norm: bool,
    tokenized: bool)
  {
    /** Whether flag `f` is set on this field. */
    predicate Has(f: Flag) {
      match f
      case Fast => fast
      case Stored => stored
      case Indexed => indexed
      case Coerce => coerce
      case Norm => norm
      case Tokenized => tokenized
    }

    /** This field with flag `f` set to `b` and everything else unchanged. */
    function With(f: Flag, b: bool): (s: FieldSpec)
      ensures s.Has(f) == b
      ensures forall g: Flag :: g != f ==> s.Has(g) == Has(g)
      ensures s.ident == ident && s.ty == ty && s.name == name
    {
      match f
      case Fast => this.(fast := b)
      case Stored => this.(stored := b)
      case Indexed => this.(indexed := b)
      case Coerce => this.(coerce := b)
      case Norm => this.(norm := b)
      case Tokenized => this.(tokenized := b)
    }
  }

  /** One `let options = options.set_...();` line of an entry recipe. */
  datatype Setter =
    | SetStored     // set_stored()
    | SetFast       // set_fast(), the numeric/bytes/date/ip variant
    | SetFastNone   // set_fast(None), the text/json variant with an optional ordering key
    | SetCoerce     // set_coerce()
    | SetIndexed    // set_indexed()
    | SetFieldnorm  // set_fieldnorm()

  /** tantivy's IndexRecordOption, the two values the macro uses. */
  datatype IndexRecordOption = Basic | WithFreqsAndPositions

  /**
   * `TextFieldIndexing::default().set_fieldnorms(fieldnorms)` followed by
   * `.set_tokenizer(tokenizer).set_index_option(record)`.
   */
  datatype TextIndexing = TextIndexing(fieldnorms: bool, tokenizer: string, record: IndexRecordOption)

  /** The options value an entry recipe starts from, before its setters run. */
  datatype Options =
    | TextOptions(indexing: TextIndexing)        // TextOptions::default().set_indexing_options(..)
    | JsonObjectOptions(indexing: TextIndexing)  // JsonObjectOptions::default().set_indexing_options(..)
    | NumericOptions
    | BytesOptions
    | FacetOptions
    | DateOptions
    | IpAddrOptions

  /** The arms of tantivy's FieldType and of its Value, which the macro pairs one to one. */
  datatype Variant = Str | JsonObject | U64 | I64 | F64 | Bool | Bytes | Facet | Date | IpAddr

  /**
   * A schema-entry recipe:
   * `FieldEntry::new(String::from(name), FieldType::<fieldType>(options.<setters>...))`.
   */
  datatype Entry = Entry(name: string, options: Options, setters: seq<Setter>, fieldType: Variant)

  /**
   * A value recipe: `let field = Field::from_field_id(fieldId);`
   * `let value = Value::<value>(self.<source>);`.
   */
  datatype ValueSlot = ValueSlot(fieldId: u32, value: Variant, source: string)

  /** Why a derivation aborts (each is a panic in the macro). */
  datatype Error =
    | UnnamedField     // "only supported named struct"
    | UnsupportedType  // "unsupported field type"
}
