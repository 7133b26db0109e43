# GraphQL type-schema generator (mongo-graphql-starter), modelled in Dafny

mongo-graphql-starter generates a GraphQL schema module for every entity of a
project. It takes the entity's name, its fields and their data types, its
relationships, resolved fields, manual query arguments, overrides and extra
schema sources. The generator in `src/codeGen/createTypeSchema.js` turns that
into:

- the entity's object type;
- for tables, five result-wrapper types;
- the `Input`, `MutationInput`, optional `ArrayMutationInput`, `Sort` and
  `Filters` input types;
- for tables, the root `Mutation` list (`create`, `update`, `updates`,
  `updatesBulk`, `delete`) and the root `Query` list (`all…s`, `get…`).

This project models that generator and proves what it produces. Each entry of a
type, input or argument list is a value `Arg(name, ty)` standing for the text
`name: ty`.

| file | module | models |
|---|---|---|
| `fragments.dfy` | `Fragments` | entries, JavaScript's rendering of `undefined`, facts about string concatenation |
| `descriptors.dfy` | `Descriptors` | a field's data type (the shared string constants and the flagged descriptor objects), relationships |
| `field_types.dfy` | `FieldTypes` | `fieldType`, `relationshipType`, `relationshipResolver` |
| `field_mutations.dfy` | `FieldMutations` | `fieldMutations` |
| `field_queries.dfy` | `FieldQueries` | `queriesForField`: a method with the code's two `switch` statements and the String-array fall-through, proved equal to a per-kind table of filter operators |
| `type_schema.dfy` | `TypeSchema` | `createGraphqlTypeSchema` with `createMutationType` and `createQueryType`: the `forEach` that collects filter arguments is a loop, and the assembly is a function of the entity |

Some behaviour of the code is easy to miss. The model follows the code in each case:

- A `Boolean` field's filters are `k: Boolean` twice, then `k_ne` and `k_in`.
  The first `switch` pushes `k: Boolean`, and the second pushes the equality
  set again.
- Identifier arrays get no `_count` and no text-search filters. Only the
  String-array case, which falls through into the identifier-array case, adds
  them.
- Literal descriptors, unknown type strings and descriptor objects carrying no
  flag get no filters at all.
- A field whose descriptor object carries none of `__isDate`, `__isArray`,
  `__isLiteral`, `__isObject` reads `k: undefined` in the object and `Input`
  types. `fieldType` falls off its end, and the template renders the result as
  `undefined`.
- `_INC`/`_DEC` are typed `Int` even for a `Float` field. The `_PULL` of an
  array of objects is typed by the target's `Filters` input.

## Model

The functions that build single parts of the module (`Blocks`,
`MutationFieldArgs`, `SortEntries`, `DateFormatArgs`, `IdType`,
`MutationSignatures`, `AllOp`, `GetOp`) are parts of
`TypeSchema.CreateGraphqlTypeSchema`. The lemmas in the rows citing the same
lines specify them.

| member | source | states |
|---|---|---|
| `FieldTypes.FieldType` | src/codeGen/createTypeSchema.js:129-154 | the read type is missing (renders `undefined`) exactly for a descriptor object with no flag; scalar arrays are bracketed; references contain their target's name, bracketed for arrays |
| `FieldTypes.DatesAndIdsReadAsString` | src/codeGen/createTypeSchema.js:129-143 | formatted dates, `DateType` and `MongoIdType` read as `String` in both variants |
| `FieldTypes.ScalarArraysReadBracketed` | src/codeGen/createTypeSchema.js:132-140 | String, Int, Float and identifier arrays read `[String]`, `[Int]`, `[Float]`, `[String]` |
| `FieldTypes.ReferencesReadAsTarget` | src/codeGen/createTypeSchema.js:144-152 | object and array references read as the target name, suffixed `Input` exactly in the input variant and bracketed only for arrays |
| `FieldTypes.InputVariantOnlyChangesReferences` | src/codeGen/createTypeSchema.js:129-154 | only references differ between the object and input variants; a literal reads as its payload in both |
| `FieldTypes.RelationshipType` | src/codeGen/createTypeSchema.js:161-167 | missing exactly when neither flag is set; otherwise contains the target, bracketed for arrays |
| `FieldTypes.RelationshipReadsLikeDescriptor` | src/codeGen/createTypeSchema.js:161-167 | a relationship reads exactly like the field descriptor of the same shape |
| `FieldTypes.RelationshipResolver` | src/codeGen/createTypeSchema.js:156-159 | array relationships carry the sort arguments in the entry name, singular ones none; the type is the non-input relationship type |
| `FieldTypes.ResolverSortArguments` | src/codeGen/createTypeSchema.js:156-159 | an array relationship's entry is `k(SORT: TSort, SORTS: [TSort]): [T]`, a singular one's `k: T` |
| `FieldMutations.FieldMutations` | src/codeGen/createTypeSchema.js:169-242 | missing exactly for a descriptor object with no flag; otherwise non-empty, starting with the plain assignment `k`, every entry named after `k` |
| `FieldMutations.NumericMutations` | src/codeGen/createTypeSchema.js:177-180 | Int and Float yield `k`, `k_INC: Int`, `k_DEC: Int` |
| `FieldMutations.SingleAssignmentMutations` | src/codeGen/createTypeSchema.js:172-225 | Bool yields only `k: Boolean`, JSON only `k: JSON`, dates and the other string kinds only `k: String` |
| `FieldMutations.ScalarArrayMutations` | src/codeGen/createTypeSchema.js:183-222 | String and identifier arrays yield the same seven entries; Int and Float arrays the same operators over their element and update types |
| `FieldMutations.ObjectArrayMutations` | src/codeGen/createTypeSchema.js:227-235 | an array of objects yields six entries, no `_ADDTOSET`, and `_PULL` typed `TFilters` |
| `FieldMutations.ObjectMutations` | src/codeGen/createTypeSchema.js:238-239 | a single object yields `k: TInput` and `k_UPDATE: TMutationInput` |
| `FieldMutations.AssignmentMatchesInputType` | src/codeGen/createTypeSchema.js:169-242 | the assignment entry is typed as the field's input read type, except for unknown type strings, which mutate as `String` |
| `FieldMutations.MutationsAndReadTypesAgreeOnCoverage` | src/codeGen/createTypeSchema.js:169-242 | `fieldMutations` and `fieldType` give up on exactly the same descriptors |
| `FieldQueries.QueriesForField` | src/codeGen/createTypeSchema.js:244-316 | the two `switch` statements, fall-through included, push exactly the tabled filter arguments |
| `FieldQueries.FilterArgsNamedAfterField` | src/codeGen/createTypeSchema.js:244-316 | every filter argument, and every fragment rendered from one, begins with the field name |
| `FieldQueries.BoolEqualityEmittedTwice` | src/codeGen/createTypeSchema.js:250-304 | a Bool field's filters are `k: Boolean`, `k: Boolean`, `k_ne: Boolean`, `k_in: [Boolean]` |
| `FieldQueries.FilterNamesDistinctUnlessBool` | src/codeGen/createTypeSchema.js:250-313 | a field's filter argument names are pairwise distinct exactly when it is not Boolean |
| `FieldQueries.CountOperator` | src/codeGen/createTypeSchema.js:262-313 | `k_count` is present exactly for String, Int and Float arrays and references, and is typed `Int` |
| `FieldQueries.CountOnlyFirst` | src/codeGen/createTypeSchema.js:262-313 | no filter argument after the first is named `k_count`, and the first one is exactly for String, Int and Float arrays and references |
| `FieldQueries.EqualityArgumentMatchesReadType` | src/codeGen/createTypeSchema.js:249-313 | the plain equality filter is typed as the field's read type; a reference filters by exactly `k_count: Int` and `k: TFilters` |
| `FieldQueries.FiltersEmptyExactly` | src/codeGen/createTypeSchema.js:250-313 | no filters exactly for literals, unknown type strings and unflagged objects |
| `FieldQueries.ScalarFilters` | src/codeGen/createTypeSchema.js:250-308 | String adds the four pattern filters before the equality set, Int, Float and dates the four comparisons; identifiers only the equality set over `String`; JSON `k` and `k_ne` only |
| `FieldQueries.EqualitySet` | src/codeGen/createTypeSchema.js:301-303 | the equality set is `k: T`, `k_ne: T`, `k_in: [T]` |
| `FieldQueries.NumericArrayFilters` | src/codeGen/createTypeSchema.js:262-275 | Int and Float arrays: `_count`, comparisons, element-match comparisons, then the whole-array operators over the element type |
| `FieldQueries.StringArrayFilters` | src/codeGen/createTypeSchema.js:276-291 | String arrays: `_count` and the text searches, then exactly the identifier-array filters |
| `FieldQueries.MongoIdArrayFilters` | src/codeGen/createTypeSchema.js:281-291 | identifier arrays: the five whole-array operators over `String`, nothing else |
| `TypeSchema.CreateGraphqlTypeSchema` | src/codeGen/createTypeSchema.js:21-127 | collecting the filter arguments field by field, then assembling, yields the module of the entity |
| `TypeSchema.CollectFilterArgs` | src/codeGen/createTypeSchema.js:36-39 | the loop's list is every field's filter arguments in field order |
| `TypeSchema.CreateOperation` | src/codeGen/createTypeSchema.js:34 | an operation is suppressed exactly when its name is overridden, and is otherwise built as given |
| `TypeSchema.AllFilterArgsConcat` | src/codeGen/createTypeSchema.js:36-39 | the collected filter arguments of consecutive field lists concatenate |
| `TypeSchema.AllFilterArgsCover` | src/codeGen/createTypeSchema.js:36-39 | every collected filter argument is named after some field, and every field contributes all its filters |
| `TypeSchema.BlockOrder` | src/codeGen/createTypeSchema.js:49-86 | the blocks start with the object type, end with `Filters` (all filter arguments, then `OR: [NFilters]`), and number 5, plus 5 for a table, plus 1 for an entity used in arrays |
| `TypeSchema.FiltersBlockLast` | src/codeGen/createTypeSchema.js:84 | the last block is `Filters`: the collected filter arguments, then `OR` |
| `TypeSchema.ResultTypesOnlyForTables` | src/codeGen/createTypeSchema.js:55-63 | each of the five wrappers is among the blocks exactly when the entity is a table |
| `TypeSchema.BulkResultHasOnlySuccess` | src/codeGen/createTypeSchema.js:61 | the `NBulkMutationResult` type holds only `success: Boolean` |
| `TypeSchema.ArrayMutationInputOnlyWhenUsedInArray` | src/codeGen/createTypeSchema.js:77 | `NArrayMutationInput` exists exactly when the entity is used in arrays, and holds `index: Int`, `Updates: NMutationInput` |
| `TypeSchema.ObjectAndInputAgreeExceptReferences` | src/codeGen/createTypeSchema.js:50-67 | object and `Input` types list the fields in the same order and names, and an entry differs exactly for references; an unflagged field reads `undefined` |
| `TypeSchema.MutationInputSkipsId` | src/codeGen/createTypeSchema.js:69 | a field named `_id` contributes nothing to `MutationInput`, wherever it stands |
| `TypeSchema.MutationFieldArgsConcat` | src/codeGen/createTypeSchema.js:69 | the `MutationInput` field entries of consecutive field lists concatenate |
| `TypeSchema.MutationFieldArgsCover` | src/codeGen/createTypeSchema.js:69 | every `MutationInput` field entry is named after a non-`_id` field, and every other handled field contributes all its entries |
| `TypeSchema.RelationshipMutationEntries` | src/codeGen/createTypeSchema.js:64-76 | each relationship contributes exactly one `MutationInput` entry, `_ADD` for arrays and `_SET` otherwise, typed like its entry in the `Input` type |
| `TypeSchema.SortEntriesExact` | src/codeGen/createTypeSchema.js:78-83 | `Sort` holds `k: Int` exactly for the non-JSON fields |
| `TypeSchema.DateFormatArgsExact` | src/codeGen/createTypeSchema.js:44 | the `_format` arguments are `k_format: String` exactly for the date fields |
| `TypeSchema.DateFormatForField` | src/codeGen/createTypeSchema.js:44 | field `k` has a `k_format` argument exactly when a field named `k` is a date |
| `TypeSchema.IdTypeOfFirstId` | src/codeGen/createTypeSchema.js:98 | `update`'s `_id` argument takes the read type of the `_id` field |
| `TypeSchema.IdTypeWithoutId` | src/codeGen/createTypeSchema.js:98 | without an `_id` field that argument reads `undefined` |
| `TypeSchema.MutationNamesDistinct` | src/codeGen/createTypeSchema.js:96-101 | the five mutation operations have distinct names |
| `TypeSchema.MutationOverrides` | src/codeGen/createTypeSchema.js:95-105 | a mutation operation is generated exactly when its name is not overridden, and no other operation is generated |
| `TypeSchema.BulkUpdateSignature` | src/codeGen/createTypeSchema.js:100 | `updateNsBulk` takes `Match: NFilters`, `Updates: NMutationInput` and returns `NBulkMutationResult` |
| `TypeSchema.UpdateTakesIdType` | src/codeGen/createTypeSchema.js:98 | `updateN` takes `_id` typed as the `_id` field and `Updates: NMutationInput`, and returns `NMutationResult` |
| `TypeSchema.MutationExtrasFollowImports` | src/codeGen/createTypeSchema.js:45-103 | the Mutation list ends with one placeholder per schema source, numbered from 1 like the imports, and has none elsewhere |
| `TypeSchema.MutationType` | src/codeGen/createTypeSchema.js:95-105 | the Mutation list holds at most the five operations, none of them overridden, and ends with one placeholder per schema source, numbered from 1 |
| `TypeSchema.QueryType` | src/codeGen/createTypeSchema.js:107-126 | the Query list holds at most three items; its operations are `allNs` or `getN` and not overridden; it ends with the one placeholder covering every schema source exactly when there are sources |
| `TypeSchema.QueryOverrides` | src/codeGen/createTypeSchema.js:107-126 | `allNs` and `getN` are present exactly when not overridden; the query placeholder is present exactly when there are schema sources, and covers all of them |
| `TypeSchema.AllQueryArguments` | src/codeGen/createTypeSchema.js:108-115 | `allNs` takes every `Filters` entry in order, `OR` included, then `SORT`, `SORTS`, `LIMIT`, `SKIP`, `PAGE`, `PAGE_SIZE`, then the date `_format` arguments, then the manual arguments, and returns `NQueryResults` |
| `TypeSchema.GetQueryArguments` | src/codeGen/createTypeSchema.js:117-121 | `getN` takes `_id: String`, the date `_format` arguments, then the manual arguments, and returns `NSingleQueryResult` |
| `TypeSchema.RootListsOnlyForTables` | src/codeGen/createTypeSchema.js:91 | the Mutation and Query lists exist exactly for tables; there is one import per schema source |

## Left out

- A field whose descriptor is `undefined` or `null` is outside `Descriptor`.
  On such a field the code throws a `TypeError` and generates nothing:
  `undefined` fails reading `__isObject` at src/codeGen/createTypeSchema.js:310,
  and `null` fails reading `__isDate` at :245. A number or a boolean is
  handled like `Unflagged`.
- The data-type constants live in `src/dataTypes.js`, which is not part of this
  model. Their texts are taken to be `String`, `Int`, `Float`, `Boolean` and
  `JSON`, as the comparisons with `"Int"` and `"Float"` in `fieldMutations`
  and the verbatim rendering in `fieldType` indicate. `OtherString` carries a
  text other than these five. The texts of the identifier, date and array
  constants are unknown, so an `OtherString` equal to one of them is not
  excluded.
- `createType`, `createInput`, `createOperation` and `TAB` (from
  `./gqlSchemaHelpers` and `./utilities`) are not part of this model. Blocks
  and operations are structured values rather than text.
- `CreateOperation`: that an overridden operation comes back falsy is an
  assumption. The code only suggests it, by filtering the operation lists with
  `filter(s => s)`.
- Text layout is not modelled: whitespace, back-ticks and `join` separators.
  The `import SchemaExtrasN` statements and the `${SchemaExtrasN.Mutation}`
  and `${SchemaExtrasN.Query}` placeholders are modelled only by their number
  and position.
- When `fieldMutations` returns `undefined` inside `flatMap`, the model has the
  field contribute nothing. The rendering of that value is decided by
  `createInput`, which is unseen.
- Fields, relationships and resolved fields are taken in the order they are
  given. JavaScript's `Object.keys` puts integer-like keys first, and that
  ordering is not modelled.
- A `manualQueryArgs` that is not an array is taken as the empty list. Manual
  arguments are given already rendered as entries.
- The `allFieldsMutation` accumulator is never read, so it is left out.
- A descriptor object carrying several flags is classified by the first flag
  `fieldType` tests. `queriesForField` tests `__isObject || __isArray` on its
  own, so an object that is both a literal and a reference would get reference
  filters in the code but none in the model.
- A JavaScript object cannot hold two `_id` keys. The model's field list can,
  and then `update`'s `_id` type comes from the first of them.
- `QueriesForField` collects operator suffixes and types and renders the
  `name: type` entries at the end. The code pushes rendered strings one at a
  time; the entries are the same.
- Writing the generated files, and the projects and tests that run the
  generated schema against a database, are not part of this model.
