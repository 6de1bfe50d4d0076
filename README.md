# tantivy-macro, modelled in Dafny

`tantivy-macro` is a derive macro, `#[derive(Schema)]`. It reads a struct with named
fields, each marked `#[field(name = "...", fast, stored, indexed, coerce, norm, tokenized)]`.
From it the macro generates two things for the tantivy search engine:

- `schema()`, which adds one `FieldEntry` per field to a `SchemaBuilder`;
- `Into<Document>`, which adds one `(Field, Value)` pair per field to a `Document`.

This project models the two parts of the macro that decide what gets generated:

- **The type-driven dispatch**, `FieldReceiver::get_field_type_and_value`, is the function
  `TypeDispatch.Dispatch`. It maps one parsed field and its positional id to two recipes:
  - a schema-entry recipe: the entry name, the options value it starts from (with the text
    indexing sub-options for text and JSON fields), the option setters in emission order,
    and the `FieldType` arm;
  - a value recipe: the field id, the `Value` arm and the struct field it reads.
- **The field loop** of `InputReceiver::to_tokens` is the method `Assembly.Assemble`. It
  enumerates the fields in declaration order and appends each field's two recipes to two
  parallel sequences.

The model is plain data: recipes are datatypes, not token streams.

Files:

- `wrappers.dfy`: `Option` and `Result`.
- `recipes.dfy` (module `Recipes`): `TypeTag`, `Flag`, `FieldSpec`, `Setter`, `Options`,
  `TextIndexing`, `Variant` (the shared arm names of tantivy's `FieldType` and `Value`),
  `Entry`, `ValueSlot`, `Error`, and the `u32` cast of the field id.
- `dispatch.dfy` (module `TypeDispatch`): the dispatch, and the capability model that says
  which flag becomes which setter for which type (`SetterApplies`, `Rank`, `FastSetter`).
  It also has a reference definition of the setter list (`Expected`) and the lemmas that
  tie the dispatch to both.
- `assembly.dfy` (module `Assembly`): the loop, its specification `IsDerivation`, and the
  lockstep lemmas for the schema and the document.
- `example.dfy` (module `ShouldWork`): the eight-field struct of the crate's `should_work`
  test and what it derives to.

Each panic of the dispatch is an `Err` of `Result`. An unnamed field fails with `UnnamedField`
("only supported named struct"). The source computes the field name before it looks at the
type, so this check comes first. A type outside the recognised set fails with
`UnsupportedType` ("unsupported field type"). Either failure aborts the whole derivation,
so no entries and no values come out.

The enumerate index becomes the field id through `id as u32`. `Recipes.AsU32` models this
explicitly as the index modulo 2^32. The lockstep lemmas assume at most 2^32 fields.

Entries carry no id of their own: tantivy's `SchemaBuilder` numbers fields in the order
they are added. So entry k has id k, and the lockstep invariant compares these ids with the
ones the document values carry.

### The test's expected expansion and the code disagree on one field

In the test at `src/lib.rs:362-405`, the field `json: Map<String, Value>` is marked
`#[field(stored, indexed)]` and is not `tokenized`. The code at `src/lib.rs:152-156`
therefore gives it tokenizer `"raw"` with `IndexRecordOption::Basic`. The test's expected
string at `src/lib.rs:404` wants `"default"` with `WithFreqsAndPositions`. The model follows
the code. `ShouldWork.DeriveDoc` proves the result of the code: all eight values and seven
of the eight entries match the test's expected expansion, and the `json` entry differs in
exactly this tokenizer choice. The source does not show which of the two is intended, so
the model keeps the code as written and proposes no corrected dispatch.

## Model

| member | source | states |
|---|---|---|
| `TypeDispatch.Dispatch` | src/lib.rs:95-356 | Fails exactly when the field is unnamed (`UnnamedField`, checked first) or its type is unrecognised (`UnsupportedType`). On success, the value recipe carries the given id and reads the field's own identifier, and the entry's `FieldType` arm equals the value's `Value` arm, which is the declared type's own arm (`ArmOf`: text to `Str`, JSON to `JsonObject`, each other type to the arm of its name). The entry starts from the type's own options (`OptionsOf`): `TextOptions` or `JsonObjectOptions` with the shared indexing sub-options, `NumericOptions` for u64/i64/f64/bool, and `BytesOptions`, `FacetOptions`, `DateOptions` or `IpAddrOptions` for the other four types, whatever the flags. |
| `TypeDispatch.SetterPresence` | src/lib.rs:108-136 | A setter appears in an entry iff its flag is set and the field's type takes that setter. The fast setter is `set_fast(None)` for text and JSON and `set_fast()` for the other types. |
| `TypeDispatch.DispatchSetters` | src/lib.rs:157-340 | For every recognised type, the dispatch's setter list equals the reference definition `Expected`: the requested, applicable setters taken from the one fixed order stored, fast, coerce, indexed, fieldnorm. |
| `TypeDispatch.ExpectedMatches` | src/lib.rs:157-340 | The reference setter list is strictly ordered by that fixed order, so no setter appears twice, and it holds exactly the requested setters the type takes. |
| `TypeDispatch.SettersDetermined` | src/lib.rs:157-340 | Any setter list that is in the fixed order and holds exactly the requested, applicable setters is the dispatch's list. The capability model determines the recipe. |
| `TypeDispatch.NameResolution` | src/lib.rs:142-146 | The entry name is the `name` override when one is given, else the field identifier verbatim. |
| `TypeDispatch.RenameChangesOnlyName` | src/lib.rs:138-146 | Adding a `name` override changes only the entry's name. The value recipe, its field id included, stays the same. |
| `TypeDispatch.IdChangesOnlyFieldId` | src/lib.rs:138-140 | The id reaches only the value recipe. The schema entry is the same for every id. |
| `TypeDispatch.TextIndexingPolicy` | src/lib.rs:150-200 | Text fields start from `TextOptions` and JSON fields from `JsonObjectOptions`. In both, field norms equal `norm`. `tokenized` gives tokenizer "default" with `WithFreqsAndPositions`; otherwise the tokenizer is "raw" with `Basic`. |
| `TypeDispatch.TextJsonShareIndexing` | src/lib.rs:152-156 | A text field and a JSON field with the same flags get identical indexing sub-options. |
| `TypeDispatch.NumericFamily` | src/lib.rs:206-273 | u64, i64, f64 and bool fields all use `NumericOptions` with the same setter list. Their two recipes are those of the same field declared u64, with only the entry's and the value's arm replaced by the type's own. |
| `TypeDispatch.IgnoredFlagChangesNothing` | src/lib.rs:108-351 | Changing a flag that the type ignores leaves both recipes unchanged. Examples: `coerce` or `indexed` on JSON, `indexed` on text, `coerce` on bytes/date/ip, `tokenized` on non-text types, everything but `stored` on facets. |
| `TypeDispatch.RelevantFlagChangesEntry` | src/lib.rs:108-351 | Conversely, for a named field of a recognised type, toggling a flag the type does not ignore always changes its schema entry. |
| `TypeDispatch.FacetOnlyStored` | src/lib.rs:295-310 | Two facet fields with the same name and `stored` give identical recipes whatever their other flags. The entry's only possible setter is `set_stored`. |
| `TypeDispatch.VariantOneToOne` | src/lib.rs:162-350 | Two successfully dispatched fields get the same value arm iff they have the same declared type: the pairing of each type with its own arm is one to one. |
| `Assembly.Assemble` | src/lib.rs:30-36 | The loop's result meets `IsDerivation`. Either there are exactly n entries and n values, and position k holds field k's recipes dispatched with id `k as u32`; or the result is the error of the first failing field and nothing else. |
| `Assembly.DerivationDeterministic` | src/lib.rs:30-36 | `IsDerivation` admits one result per field list, so deriving twice gives identical schemas and documents. |
| `Assembly.DerivationFails` | src/lib.rs:142-355 | A derivation fails iff some field is unnamed or of an unrecognised type. The error is one of those two. |
| `Assembly.Lockstep` | src/lib.rs:30-59 | For at most 2^32 fields: the schema's ids (add order) equal the document's ids; value k has field id k; entry k and value k have the same arm; entry k is named by field k's override or identifier; value k reads field k. |
| `Assembly.IdsDistinct` | src/lib.rs:32-33 | For at most 2^32 fields, no two values share a field id. |
| `Assembly.AppendField` | src/lib.rs:32-36 | Appending a field to the struct leaves every earlier entry and value, ids included, unchanged. |
| `ShouldWork.DocDerivation` | src/lib.rs:362-380 | The test's `Doc` struct derives eight entries (`str`, `id`, `num`, `date`, `facet`, `bytes`, `json`, `ip`) and eight values with ids 0 to 7. |
| `ShouldWork.DeriveDoc` | src/lib.rs:361-405 | Running the loop on `Doc` gives exactly the values of the test's expected expansion, and seven of its entries. The `json` entry has the raw tokenizer where the expected string has the default one. |
| `ShouldWork.UnsupportedFieldAborts` | src/lib.rs:353-355 | Adding a field of an unrecognised type to `Doc` makes the whole derivation fail with `UnsupportedType`. |

## Left out

- Token-stream generation (`quote!`, `ToTokens`, `tokens.extend`) and the string comparison in the test: recipes are datatypes instead.
- The proc-macro entry point and the darling/syn parsing (`src/lib.rs:12-17`, `src/lib.rs:64-91`): the model takes the parsed field list as input. The flags' `#[darling(default)]` false defaults are simply the boolean fields of `FieldSpec`.
- The rejection of enums (`take_struct().expect("Should never be enum")`, `supports(struct_named)`): the model's input is already a field list.
- The struct name and generics (`split_for_impl`): they only surround the generated code.
- Type recognition compares `syn::Type` values by syntax against fixed spellings (`String`, `Map<String, Value>`, `u64`, `i64`, `f64`, `bool`, `Vec<u8>`, `Facet`, `DateTime`, `Ipv6Addr`). The model takes the declared type as a `TypeTag`, and any other spelling is `Unsupported`.
- What the generated code does at run time, and tantivy's `SchemaBuilder`, `Document` and `Value`, because they are a foreign library. That the builder numbers entries in add order is assumed, not modelled.
- Moving the field values out of `self` in `into()`: a value recipe names the field it reads, not a runtime value.
- Two defects in the generated code that would show only when the macro's user compiles it. The i64 entry builds `FieldType::I64(options)` into `ty`, then passes `options` to `FieldEntry::new`. The facet value reads the bare identifier rather than `self.<ident>`. The recipes record the intended arm (I64) and the field meant to be read. Rust compilation is not modelled.
- Floating point: F64 is only a tag here.

