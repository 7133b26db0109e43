/** The assembler: turns an entity description into its object type, the
    result wrappers, the input types and the root Mutation and Query lists. */
module TypeSchema {
  import opened Fragments
  import opened Descriptors
  import opened FieldTypes
  import opened FieldMutations
  import opened FieldQueries

  /** An entity description. Fields, relationships and resolved fields are
      listed in key order; `manualQueryArgs` holds the extra query arguments
      already rendered as `name: type` entries. */
  datatype Entity = Entity(
    name: string,
    fields: seq<(string, Descriptor)>,
    relationships: seq<(string, Relationship)>,
    resolvedFields: seq<(string, string)>,
    manualQueryArgs: seq<Arg>,
    overrides: set<string>,
    schemaSources: seq<string>,
    table: bool,
    usedInArray: bool)

  /** An object type or an input type, with its entries in order. */
  datatype Block =
    | TypeBlock(name: string, entries: seq<Arg>)
    | InputBlock(name: string, entries: seq<Arg>)

  /** A root operation: its name, its arguments and the type it returns. */
  datatype Operation = Operation(name: string, args: seq<Arg>, resultType: string)

  /** An entry of the root Mutation list: an operation, or the placeholder that
      splices in the mutations of the `index`-th schema source. */
  datatype MutationItem = MutationOp(op: Operation) | MutationExtras(index: nat)

  /** An entry of the root Query list: an operation, or the one placeholder that
      splices in the queries of the first `count` schema sources. */
  datatype QueryItem = QueryOp(op: Operation) | QueryExtras(count: nat)

  /** The import of the `index`-th schema source. */
  datatype Import = SchemaImport(index: nat, source: string)

  /** The generated module: the imports, the type and input blocks, and the
      root Mutation and Query lists, which only tables have. */
  datatype Schema = Schema(
    imports: seq<Import>,
    blocks: seq<Block>,
    mutation: Option<seq<MutationItem>>,
    query: Option<seq<QueryItem>>)

  /** An operation, or nothing when the entity overrides it by name. */
  function CreateOperation(overrides: set<string>, name: string, args: seq<Arg>, resultType: string): (r: Option<Operation>)
    ensures r.None? <==> name in overrides
    ensures r.Some? ==> r.value.name == name && r.value.args == args && r.value.resultType == resultType
  {
    if name in overrides then None else Some(Operation(name, args, resultType))
  }

  // ---------------------------------------------------------------------------
  // Entries of the blocks

  /** `k: <read type>` for every field, in the object type or in the input type. */
  function ReadEntries(fields: seq<(string, Descriptor)>, useInputs: bool): (r: seq<Arg>)
    ensures |r| == |fields|
    ensures forall i :: 0 <= i < |fields| ==> r[i] == Arg(fields[i].0, Interpolate(FieldType(fields[i].1, useInputs)))
  {
    seq(|fields|, i requires 0 <= i < |fields| => Arg(fields[i].0, Interpolate(FieldType(fields[i].1, useInputs))))
  }

  function ResolvedEntries(resolved: seq<(string, string)>): (r: seq<Arg>)
    ensures |r| == |resolved|
    ensures forall i :: 0 <= i < |resolved| ==> r[i] == Arg(resolved[i].0, resolved[i].1)
  {
    seq(|resolved|, i requires 0 <= i < |resolved| => Arg(resolved[i].0, resolved[i].1))
  }

  function Resolvers(rels: seq<(string, Relationship)>): (r: seq<Arg>)
    ensures |r| == |rels|
    ensures forall i :: 0 <= i < |rels| ==> r[i] == RelationshipResolver(rels[i].0, rels[i].1)
  {
    seq(|rels|, i requires 0 <= i < |rels| => RelationshipResolver(rels[i].0, rels[i].1))
  }

  function RelationshipInputs(rels: seq<(string, Relationship)>): (r: seq<Arg>)
    ensures |r| == |rels|
    ensures forall i :: 0 <= i < |rels| ==> r[i] == Arg(rels[i].0, Interpolate(RelationshipType(rels[i].1, true)))
  {
    seq(|rels|, i requires 0 <= i < |rels| => Arg(rels[i].0, Interpolate(RelationshipType(rels[i].1, true))))
  }

  /** The object type: fields, then resolved fields, then relationship resolvers. */
  function ObjectTypeEntries(e: Entity): seq<Arg>
  {
    ReadEntries(e.fields, false) + ResolvedEntries(e.resolvedFields) + Resolvers(e.relationships)
  }

  /** The `Input` type: fields, then relationships, all in their input variant. */
  function InputEntries(e: Entity): seq<Arg>
  {
    ReadEntries(e.fields, true) + RelationshipInputs(e.relationships)
  }

  /** The mutation arguments of every field but `_id`, field by field. */
  function MutationFieldArgs(fields: seq<(string, Descriptor)>): seq<Arg>
  {
    if fields == [] then []
    else
      var k := fields[0].0;
      var own := FieldMutations.FieldMutations(k, fields[0].1);
      (if k == "_id" || own.None? then [] else own.value) + MutationFieldArgs(fields[1..])
  }

  /** The entry through which a relationship is assigned in a mutation. */
  function RelationshipMutation(k: string, r: Relationship): Arg
  {
    Arg(k + (if r.isArray then "_ADD" else "_SET"), Interpolate(RelationshipType(r, true)))
  }

  function RelationshipMutations(rels: seq<(string, Relationship)>): (r: seq<Arg>)
    ensures |r| == |rels|
    ensures forall i :: 0 <= i < |rels| ==> r[i] == RelationshipMutation(rels[i].0, rels[i].1)
  {
    seq(|rels|, i requires 0 <= i < |rels| => RelationshipMutation(rels[i].0, rels[i].1))
  }

  /** The `MutationInput` type. */
  function MutationInputEntries(e: Entity): seq<Arg>
  {
    MutationFieldArgs(e.fields) + RelationshipMutations(e.relationships)
  }

  /** The `Sort` input: `k: Int` for every field that is not JSON. */
  function SortEntries(fields: seq<(string, Descriptor)>): seq<Arg>
  {
    if fields == [] then []
    else (if fields[0].1 == JsonType then [] else [Arg(fields[0].0, "Int")]) + SortEntries(fields[1..])
  }

  /** The entries of a list of entry lists, one list after the other. */
  function Flatten(lists: seq<seq<Arg>>): seq<Arg>
  {
    if lists == [] then []
    else Flatten(lists[..|lists| - 1]) + lists[|lists| - 1]
  }

  /** `f` applied to each field, field by field. */
  function PerField(f: (string, Descriptor) -> seq<Arg>, fields: seq<(string, Descriptor)>): (r: seq<seq<Arg>>)
    ensures |r| == |fields|
    ensures forall i :: 0 <= i < |fields| ==> r[i] == f(fields[i].0, fields[i].1)
  {
    seq(|fields|, i requires 0 <= i < |fields| => f(fields[i].0, fields[i].1))
  }

  /** Each field's filter arguments, field by field. */
  function FieldFilters(fields: seq<(string, Descriptor)>): seq<seq<Arg>>
  {
    PerField(FilterArgs, fields)
  }

  /** The filter arguments of all fields, in field order. */
  function AllFilterArgs(fields: seq<(string, Descriptor)>): seq<Arg>
  {
    Flatten(FieldFilters(fields))
  }

  /** `k_format: String` for every date field, in field order. */
  function DateFormatArgs(fields: seq<(string, Descriptor)>): seq<Arg>
  {
    if fields == [] then []
    else (if fields[0].1.IsDate() then [Arg(fields[0].0 + "_format", "String")] else []) + DateFormatArgs(fields[1..])
  }

  /** The disjunction argument of the `Filters` input and of the `all` query. */
  function OrArg(n: string): Arg
  {
    Arg("OR", "[" + n + "Filters]")
  }

  /** The five result-wrapper types of a table. */
  function ResultTypes(n: string): seq<Block>
  {
    [ TypeBlock(n + "QueryResults", [Arg(n + "s", "[" + n + "]"), Arg("Meta", "QueryResultsMetadata")]),
      TypeBlock(n + "SingleQueryResult", [Arg(n, n)]),
      TypeBlock(n + "MutationResult", [Arg("success", "Boolean"), Arg(n, n)]),
      TypeBlock(n + "MutationResultMulti", [Arg("success", "Boolean"), Arg(n + "s", "[" + n + "]")]),
      TypeBlock(n + "BulkMutationResult", [Arg("success", "Boolean")]) ]
  }

  /** Every type and input block, in output order. */
  function Blocks(e: Entity, allQueryFields: seq<Arg>): seq<Block>
  {
    var n := e.name;
    [TypeBlock(n, ObjectTypeEntries(e))]
    + (if e.table then ResultTypes(n) else [])
    + [InputBlock(n + "Input", InputEntries(e)), InputBlock(n + "MutationInput", MutationInputEntries(e))]
    + (if e.usedInArray then [InputBlock(n + "ArrayMutationInput", [Arg("index", "Int"), Arg("Updates", n + "MutationInput")])] else [])
    + [InputBlock(n + "Sort", SortEntries(e.fields)), InputBlock(n + "Filters", allQueryFields + [OrArg(n)])]
  }

  // ---------------------------------------------------------------------------
  // Root operations

  /** The read type of the `_id` field, `undefined` when there is none. */
  function IdType(fields: seq<(string, Descriptor)>): string
  {
    if fields == [] then Interpolate(None)
    else if fields[0].0 == "_id" then Interpolate(FieldType(fields[0].1, false))
    else IdType(fields[1..])
  }

  /** The operations of `sigs` that `createOperation` does not suppress, in order. */
  function PresentOps(overrides: set<string>, sigs: seq<Operation>): (r: seq<MutationItem>)
    ensures |r| <= |sigs|
    ensures forall m :: m in r ==> m.MutationOp? && m.op in sigs && m.op.name !in overrides
    ensures forall o :: o in sigs && o.name !in overrides ==> MutationOp(o) in r
  {
    if sigs == [] then []
    else
      var op := CreateOperation(overrides, sigs[0].name, sigs[0].args, sigs[0].resultType);
      (if op.Some? then [MutationOp(op.value)] else []) + PresentOps(overrides, sigs[1..])
  }

  /** One placeholder per schema source, numbered from 1. */
  function MutationExtrasList(count: nat): (r: seq<MutationItem>)
    ensures |r| == count
    ensures forall i :: 0 <= i < count ==> r[i] == MutationExtras(i + 1)
  {
    seq(count, i requires 0 <= i < count => MutationExtras(i + 1))
  }

  /** The five mutation operations, before overrides are applied. */
  function MutationSignatures(e: Entity): seq<Operation>
  {
    var n := e.name;
    [ Operation("create" + n, [Arg(n, n + "Input")], n + "MutationResult"),
      Operation("update" + n, [Arg("_id", IdType(e.fields)), Arg("Updates", n + "MutationInput")], n + "MutationResult"),
      Operation("update" + n + "s", [Arg("_ids", "[String]"), Arg("Updates", n + "MutationInput")], n + "MutationResultMulti"),
      Operation("update" + n + "sBulk", [Arg("Match", n + "Filters"), Arg("Updates", n + "MutationInput")], n + "BulkMutationResult"),
      Operation("delete" + n, [Arg("_id", "String")], "Boolean") ]
  }

  /** The root Mutation list: the operations that are not overridden, then one
      placeholder per schema source. */
  function MutationType(e: Entity): (r: seq<MutationItem>)
    ensures |e.schemaSources| <= |r| <= |e.schemaSources| + 5
    ensures forall m :: m in r && m.MutationOp? ==> m.op.name !in e.overrides
    ensures forall i :: |r| - |e.schemaSources| <= i < |r| ==> r[i] == MutationExtras(i - (|r| - |e.schemaSources|) + 1)
  {
    PresentOps(e.overrides, MutationSignatures(e)) + MutationExtrasList(|e.schemaSources|)
  }

  /** The fixed arguments of the `all` query, after the filters. */
  function PagingArgs(n: string): seq<Arg>
  {
    [ OrArg(n), Arg("SORT", n + "Sort"), Arg("SORTS", "[" + n + "Sort]"),
      Arg("LIMIT", "Int"), Arg("SKIP", "Int"), Arg("PAGE", "Int"), Arg("PAGE_SIZE", "Int") ]
  }

  function AllOp(e: Entity, allQueryFields: seq<Arg>): Option<Operation>
  {
    var n := e.name;
    CreateOperation(e.overrides, "all" + n + "s",
      allQueryFields + PagingArgs(n) + DateFormatArgs(e.fields) + e.manualQueryArgs, n + "QueryResults")
  }

  function GetOp(e: Entity): Option<Operation>
  {
    var n := e.name;
    CreateOperation(e.overrides, "get" + n,
      [Arg("_id", "String")] + DateFormatArgs(e.fields) + e.manualQueryArgs, n + "SingleQueryResult")
  }

  /** The root Query list: `all`, `get`, then one placeholder for every schema
      source's queries, each left out when absent. */
  function QueryType(e: Entity, allQueryFields: seq<Arg>): (r: seq<QueryItem>)
    ensures |r| <= 3
    ensures forall it :: it in r && it.QueryOp? ==>
      it.op.name !in e.overrides && (it.op.name == "all" + e.name + "s" || it.op.name == "get" + e.name)
    ensures |e.schemaSources| > 0 <==> |r| > 0 && r[|r| - 1] == QueryExtras(|e.schemaSources|)
  {
    var allOp := AllOp(e, allQueryFields);
    var getOp := GetOp(e);
    (if allOp.Some? then [QueryOp(allOp.value)] else [])
    + (if getOp.Some? then [QueryOp(getOp.value)] else [])
    + (if |e.schemaSources| > 0 then [QueryExtras(|e.schemaSources|)] else [])
  }

  function Imports(sources: seq<string>): (r: seq<Import>)
    ensures |r| == |sources|
    ensures forall i :: 0 <= i < |sources| ==> r[i] == SchemaImport(i + 1, sources[i])
  {
    seq(|sources|, i requires 0 <= i < |sources| => SchemaImport(i + 1, sources[i]))
  }

  /** The generated module, given the collected filter arguments. */
  function Assemble(e: Entity, allQueryFields: seq<Arg>): Schema
  {
    Schema(
      Imports(e.schemaSources),
      Blocks(e, allQueryFields),
      if e.table then Some(MutationType(e)) else None,
      if e.table then Some(QueryType(e, allQueryFields)) else None)
  }

  /** The generated module of an entity. */
  function TypeSchemaOf(e: Entity): Schema
  {
    Assemble(e, AllFilterArgs(e.fields))
  }

  /** Collects the filter arguments field by field, then assembles the module. */
  method CreateGraphqlTypeSchema(e: Entity) returns (s: Schema)
    ensures s == TypeSchemaOf(e)
  {
    var allQueryFields := CollectFilterArgs(e.fields);
    s := Assemble(e, allQueryFields);
  }

  /** The `forEach` over the fields that pushes each field's filter arguments. */
  method CollectFilterArgs(fields: seq<(string, Descriptor)>) returns (allQueryFields: seq<Arg>)
    ensures allQueryFields == AllFilterArgs(fields)
  {
    ghost var perField := FieldFilters(fields);
    allQueryFields := [];
    var i := 0;
    while i < |fields|
      invariant 0 <= i <= |fields|
      invariant allQueryFields == Flatten(perField[..i])
    {
      var q := QueriesForField(fields[i].0, fields[i].1);
      allQueryFields := allQueryFields + q;
      assert perField[..i + 1][..i] == perField[..i];
      i := i + 1;
    }
    assert perField[..i] == perField;
  }

  // ---------------------------------------------------------------------------
  // Properties of the generated module

  /** The five result wrappers are generated exactly for tables. */
  lemma ResultTypesOnlyForTables(e: Entity, q: seq<Arg>)
    ensures forall b :: b in ResultTypes(e.name) ==> (b in Blocks(e, q) <==> e.table)
  {
    var n := e.name;
    if !e.table {
      forall b | b in ResultTypes(n) ensures b !in Blocks(e, q) {
        assert |b.name| > |n|;
      }
    }
  }

  /** The only object type named `<Name>BulkMutationResult` has the single entry `success: Boolean`. */
  lemma BulkResultHasOnlySuccess(e: Entity, q: seq<Arg>)
    ensures forall b :: b in Blocks(e, q) && b.TypeBlock? && b.name == e.name + "BulkMutationResult" ==>
      b.entries == [Arg("success", "Boolean")]
  {
  }

  /** `ArrayMutationInput` is generated exactly for entities used in arrays, and
      then takes the element index and the element's `MutationInput`. */
  lemma ArrayMutationInputOnlyWhenUsedInArray(e: Entity, q: seq<Arg>)
    ensures (exists b :: b in Blocks(e, q) && b.InputBlock? && b.name == e.name + "ArrayMutationInput") <==> e.usedInArray
    ensures forall b :: b in Blocks(e, q) && b.InputBlock? && b.name == e.name + "ArrayMutationInput" ==>
      b == InputBlock(e.name + "ArrayMutationInput", [Arg("index", "Int"), Arg("Updates", e.name + "MutationInput")])
  {
    var n := e.name;
    var bs := Blocks(e, q);
    forall b | b in bs && b.InputBlock? && b.name == n + "ArrayMutationInput"
      ensures b == InputBlock(n + "ArrayMutationInput", [Arg("index", "Int"), Arg("Updates", n + "MutationInput")])
    {
      assert |b.name| == |n| + 18;
    }
    if e.usedInArray {
      assert InputBlock(n + "ArrayMutationInput", [Arg("index", "Int"), Arg("Updates", n + "MutationInput")]) in bs;
    }
  }

  /** The `MutationInput` field entries of a list of fields are those of its parts, in order. */
  lemma {:induction false} MutationFieldArgsConcat(a: seq<(string, Descriptor)>, b: seq<(string, Descriptor)>)
    ensures MutationFieldArgs(a + b) == MutationFieldArgs(a) + MutationFieldArgs(b)
  {
    if a == [] {
      assert a + b == b;
    } else {
      assert (a + b)[0] == a[0];
      assert (a + b)[1..] == a[1..] + b;
      MutationFieldArgsConcat(a[1..], b);
    }
  }

  /** An `_id` field contributes nothing to `MutationInput`, wherever it stands. */
  lemma MutationInputSkipsId(a: seq<(string, Descriptor)>, d: Descriptor, b: seq<(string, Descriptor)>)
    ensures MutationFieldArgs(a + [("_id", d)] + b) == MutationFieldArgs(a + b)
  {
    var id := [("_id", d)];
    MutationFieldArgsConcat(a + id, b);
    MutationFieldArgsConcat(a, id);
    MutationFieldArgsConcat(a, b);
    IdContributesNothing(d);
  }

  lemma IdContributesNothing(d: Descriptor)
    ensures MutationFieldArgs([("_id", d)]) == []
  {
    assert [("_id", d)][1..] == [];
  }

  /** Every `MutationInput` field entry is named after a field other than `_id`,
      and every other field that `fieldMutations` handles contributes all its entries. */
  lemma {:induction false} MutationFieldArgsCover(fields: seq<(string, Descriptor)>)
    ensures forall x :: x in MutationFieldArgs(fields) ==>
      exists i :: 0 <= i < |fields| && fields[i].0 != "_id" && fields[i].0 <= x.name
    ensures forall i, x ::
      (0 <= i < |fields| && fields[i].0 != "_id" && !fields[i].1.Unflagged? &&
       x in FieldMutations.FieldMutations(fields[i].0, fields[i].1).value) ==> x in MutationFieldArgs(fields)
  {
    if fields != [] {
      var k := fields[0].0;
      var own := FieldMutations.FieldMutations(k, fields[0].1);
      var head := if k == "_id" || own.None? then [] else own.value;
      var rest := fields[1..];
      assert MutationFieldArgs(fields) == head + MutationFieldArgs(rest);
      MutationFieldArgsCover(rest);
      forall x | x in MutationFieldArgs(fields)
        ensures exists i :: 0 <= i < |fields| && fields[i].0 != "_id" && fields[i].0 <= x.name
      {
        if x in head {
          assert fields[0].0 != "_id" && fields[0].0 <= x.name;
        } else {
          var i :| 0 <= i < |rest| && rest[i].0 != "_id" && rest[i].0 <= x.name;
          assert fields[i + 1] == rest[i];
        }
      }
      forall i, x | 0 <= i < |fields| && fields[i].0 != "_id" && !fields[i].1.Unflagged? &&
        x in FieldMutations.FieldMutations(fields[i].0, fields[i].1).value
        ensures x in MutationFieldArgs(fields)
      {
        if i > 0 {
          assert rest[i - 1] == fields[i];
        }
      }
    }
  }

  /** The `Sort` input holds `k: Int` exactly for the fields that are not JSON. */
  lemma {:induction false} SortEntriesExact(fields: seq<(string, Descriptor)>)
    ensures forall x :: x in SortEntries(fields) <==>
      x.ty == "Int" && exists i :: 0 <= i < |fields| && fields[i].0 == x.name && fields[i].1 != JsonType
  {
    if fields != [] {
      var rest := fields[1..];
      var head := if fields[0].1 == JsonType then [] else [Arg(fields[0].0, "Int")];
      assert SortEntries(fields) == head + SortEntries(rest);
      SortEntriesExact(rest);
      forall x: Arg | x.ty == "Int" && exists i :: 0 <= i < |fields| && fields[i].0 == x.name && fields[i].1 != JsonType
        ensures x in SortEntries(fields)
      {
        var i :| 0 <= i < |fields| && fields[i].0 == x.name && fields[i].1 != JsonType;
        if i == 0 {
          assert x == Arg(fields[0].0, "Int");
        } else {
          assert rest[i - 1] == fields[i];
        }
      }
      forall x | x in SortEntries(rest)
        ensures exists i :: 0 <= i < |fields| && fields[i].0 == x.name && fields[i].1 != JsonType
      {
        var i :| 0 <= i < |rest| && rest[i].0 == x.name && rest[i].1 != JsonType;
        assert fields[i + 1] == rest[i];
      }
    }
  }

  /** Flattening distributes over concatenation. */
  lemma {:induction false} FlattenConcat(x: seq<seq<Arg>>, y: seq<seq<Arg>>)
    ensures Flatten(x + y) == Flatten(x) + Flatten(y)
    decreases |y|
  {
    if y == [] {
      assert x + y == x;
    } else {
      var z := y[..|y| - 1];
      assert (x + y)[..|x + y| - 1] == x + z;
      assert (x + y)[|x + y| - 1] == y[|y| - 1];
      FlattenConcat(x, z);
    }
  }

  /** An entry is in the flattening exactly when it is in one of the lists. */
  lemma {:induction false} FlattenMembers(lists: seq<seq<Arg>>)
    ensures forall a :: a in Flatten(lists) <==> exists i :: 0 <= i < |lists| && a in lists[i]
  {
    if lists != [] {
      var init := lists[..|lists| - 1];
      FlattenMembers(init);
      forall a | a in Flatten(lists)
        ensures exists i :: 0 <= i < |lists| && a in lists[i]
      {
        if a in Flatten(init) {
          var i :| 0 <= i < |init| && a in init[i];
          assert lists[i] == init[i];
        }
      }
      forall a, i | 0 <= i < |lists| && a in lists[i]
        ensures a in Flatten(lists)
      {
        if i < |lists| - 1 {
          assert init[i] == lists[i];
        }
      }
    }
  }

  /** Applying `f` field by field distributes over concatenation. */
  lemma PerFieldConcat(f: (string, Descriptor) -> seq<Arg>, a: seq<(string, Descriptor)>, b: seq<(string, Descriptor)>)
    ensures PerField(f, a + b) == PerField(f, a) + PerField(f, b)
  {
    forall i | 0 <= i < |a + b|
      ensures PerField(f, a + b)[i] == (PerField(f, a) + PerField(f, b))[i]
    {
      if i >= |a| {
        assert (a + b)[i] == b[i - |a|];
      }
    }
  }

  /** The filter arguments of a list of fields are those of its parts, in order. */
  lemma AllFilterArgsConcat(a: seq<(string, Descriptor)>, b: seq<(string, Descriptor)>)
    ensures AllFilterArgs(a + b) == AllFilterArgs(a) + AllFilterArgs(b)
  {
    PerFieldConcat(FilterArgs, a, b);
    FlattenConcat(FieldFilters(a), FieldFilters(b));
  }

  /** Every filter argument is named after a field, and every field contributes
      all its filter arguments. */
  lemma AllFilterArgsCover(fields: seq<(string, Descriptor)>)
    ensures forall x :: x in AllFilterArgs(fields) ==> exists i :: 0 <= i < |fields| && fields[i].0 <= x.name
    ensures forall i, x :: 0 <= i < |fields| && x in FilterArgs(fields[i].0, fields[i].1) ==> x in AllFilterArgs(fields)
  {
    var perField := FieldFilters(fields);
    FlattenMembers(perField);
    forall x | x in AllFilterArgs(fields)
      ensures exists i :: 0 <= i < |fields| && fields[i].0 <= x.name
    {
      var i :| 0 <= i < |perField| && x in perField[i];
      FilterArgsNamedAfterField(fields[i].0, fields[i].1);
    }
  }

  /** The `_format` arguments: `k_format: String` exactly for the date fields. */
  lemma {:induction false} DateFormatArgsExact(fields: seq<(string, Descriptor)>)
    ensures forall x :: x in DateFormatArgs(fields) <==>
      x.ty == "String" && exists i :: 0 <= i < |fields| && x.name == fields[i].0 + "_format" && fields[i].1.IsDate()
  {
    if fields != [] {
      var rest := fields[1..];
      var head := if fields[0].1.IsDate() then [Arg(fields[0].0 + "_format", "String")] else [];
      assert DateFormatArgs(fields) == head + DateFormatArgs(rest);
      DateFormatArgsExact(rest);
      forall x: Arg | x.ty == "String" && exists i :: 0 <= i < |fields| && x.name == fields[i].0 + "_format" && fields[i].1.IsDate()
        ensures x in DateFormatArgs(fields)
      {
        var i :| 0 <= i < |fields| && x.name == fields[i].0 + "_format" && fields[i].1.IsDate();
        if i == 0 {
          assert x == Arg(fields[0].0 + "_format", "String");
        } else {
          assert rest[i - 1] == fields[i];
        }
      }
      forall x | x in DateFormatArgs(rest)
        ensures exists i :: 0 <= i < |fields| && x.name == fields[i].0 + "_format" && fields[i].1.IsDate()
      {
        var i :| 0 <= i < |rest| && x.name == rest[i].0 + "_format" && rest[i].1.IsDate();
        assert fields[i + 1] == rest[i];
      }
    }
  }

  /** Field `k` gets a `k_format: String` argument exactly when some field named `k` is a date. */
  lemma DateFormatForField(fields: seq<(string, Descriptor)>, k: string)
    ensures Arg(k + "_format", "String") in DateFormatArgs(fields) <==>
      exists i :: 0 <= i < |fields| && fields[i].0 == k && fields[i].1.IsDate()
  {
    DateFormatArgsExact(fields);
    if Arg(k + "_format", "String") in DateFormatArgs(fields) {
      var i :| 0 <= i < |fields| && k + "_format" == fields[i].0 + "_format" && fields[i].1.IsDate();
      PrefixInjective(k, fields[i].0, "_format");
    }
  }

  /** `update<Name>` takes the `_id` type of the first field named `_id`. */
  lemma {:induction false} IdTypeOfFirstId(fields: seq<(string, Descriptor)>, i: nat)
    requires i < |fields| && fields[i].0 == "_id"
    requires forall j :: 0 <= j < i ==> fields[j].0 != "_id"
    ensures IdType(fields) == Interpolate(FieldType(fields[i].1, false))
  {
    if i > 0 {
      IdTypeOfFirstId(fields[1..], i - 1);
    }
  }

  /** Without an `_id` field the `_id` argument reads `undefined`. */
  lemma {:induction false} IdTypeWithoutId(fields: seq<(string, Descriptor)>)
    requires forall j :: 0 <= j < |fields| ==> fields[j].0 != "_id"
    ensures IdType(fields) == "undefined"
  {
    if fields != [] {
      IdTypeWithoutId(fields[1..]);
    }
  }

  /** The five mutation operations have distinct names. */
  lemma MutationNamesDistinct(e: Entity)
    ensures forall i, j :: 0 <= i < j < |MutationSignatures(e)| ==> MutationSignatures(e)[i].name != MutationSignatures(e)[j].name
  {
    var n := e.name;
    assert ("create" + n)[0] == 'c' && ("update" + n)[0] == 'u' && ("delete" + n)[0] == 'd';
  }

  /** A mutation operation is generated exactly when its name is not overridden,
      and nothing else is generated but the schema-source placeholders. */
  lemma MutationOverrides(e: Entity)
    ensures forall o :: o in MutationSignatures(e) ==> (MutationOp(o) in MutationType(e) <==> o.name !in e.overrides)
    ensures forall m :: m in MutationType(e) && m.MutationOp? ==> m.op in MutationSignatures(e) && m.op.name !in e.overrides
  {
    var present := PresentOps(e.overrides, MutationSignatures(e));
    assert MutationType(e) == present + MutationExtrasList(|e.schemaSources|);
  }

  /** `update<Name>sBulk` selects through the `Filters` input and returns `<Name>BulkMutationResult`. */
  lemma BulkUpdateSignature(e: Entity)
    ensures forall m :: m in MutationType(e) && m.MutationOp? && m.op.name == "update" + e.name + "sBulk" ==>
      m.op.args == [Arg("Match", e.name + "Filters"), Arg("Updates", e.name + "MutationInput")] &&
      m.op.resultType == e.name + "BulkMutationResult"
  {
    var sigs := MutationSignatures(e);
    MutationOverrides(e);
    MutationNamesDistinct(e);
    forall m | m in MutationType(e) && m.MutationOp? && m.op.name == "update" + e.name + "sBulk"
      ensures m.op == sigs[3]
    {
      var i :| 0 <= i < |sigs| && sigs[i] == m.op;
    }
  }

  /** `update<Name>` identifies the document by the read type of the `_id` field. */
  lemma UpdateTakesIdType(e: Entity)
    ensures forall m :: m in MutationType(e) && m.MutationOp? && m.op.name == "update" + e.name ==>
      m.op.args == [Arg("_id", IdType(e.fields)), Arg("Updates", e.name + "MutationInput")] &&
      m.op.resultType == e.name + "MutationResult"
  {
    var sigs := MutationSignatures(e);
    MutationOverrides(e);
    MutationNamesDistinct(e);
    forall m | m in MutationType(e) && m.MutationOp? && m.op.name == "update" + e.name
      ensures m.op == sigs[1]
    {
      var i :| 0 <= i < |sigs| && sigs[i] == m.op;
    }
  }

  /** The Mutation list ends with one placeholder per schema source, numbered
      from 1 like the imports, and has none elsewhere. */
  lemma MutationExtrasFollowImports(e: Entity)
    ensures |MutationType(e)| >= |e.schemaSources|
    ensures forall i :: 0 <= i < |e.schemaSources| ==>
      MutationType(e)[|MutationType(e)| - |e.schemaSources| + i] == MutationExtras(Imports(e.schemaSources)[i].index)
    ensures forall i :: 0 <= i < |MutationType(e)| - |e.schemaSources| ==> MutationType(e)[i].MutationOp?
  {
    var present := PresentOps(e.overrides, MutationSignatures(e));
    assert MutationType(e) == present + MutationExtrasList(|e.schemaSources|);
    forall i | 0 <= i < |present|
      ensures present[i].MutationOp?
    {
      assert present[i] in present;
    }
  }

  /** The Query list holds `all<Name>s` and `get<Name>` unless overridden, then one
      placeholder covering every schema source when there are any. */
  lemma QueryOverrides(e: Entity, q: seq<Arg>)
    ensures "all" + e.name + "s" !in e.overrides <==>
      exists o :: QueryOp(o) in QueryType(e, q) && o.name == "all" + e.name + "s"
    ensures "get" + e.name !in e.overrides <==>
      exists o :: QueryOp(o) in QueryType(e, q) && o.name == "get" + e.name
    ensures (exists c :: QueryExtras(c) in QueryType(e, q)) <==> |e.schemaSources| > 0
    ensures forall c :: QueryExtras(c) in QueryType(e, q) ==> c == |Imports(e.schemaSources)|
  {
    var n := e.name;
    assert |"all" + n + "s"| != |"get" + n|;
    if "all" + n + "s" !in e.overrides {
      assert QueryOp(AllOp(e, q).value) in QueryType(e, q);
    }
    if "get" + n !in e.overrides {
      assert QueryOp(GetOp(e).value) in QueryType(e, q);
    }
    if |e.schemaSources| > 0 {
      assert QueryExtras(|e.schemaSources|) in QueryType(e, q);
    }
  }

  /** `all<Name>s` takes every entry of the `Filters` input, the final `OR`
      included and in the same order, then sorting and paging, then one
      `_format` argument per date field, then the manual arguments. */
  lemma AllQueryArguments(e: Entity, q: seq<Arg>)
    ensures forall o :: QueryOp(o) in QueryType(e, q) && o.name == "all" + e.name + "s" ==>
      o.args == FiltersEntries(Blocks(e, q))
        + [ Arg("SORT", e.name + "Sort"), Arg("SORTS", "[" + e.name + "Sort]"),
            Arg("LIMIT", "Int"), Arg("SKIP", "Int"), Arg("PAGE", "Int"), Arg("PAGE_SIZE", "Int") ]
        + DateFormatArgs(e.fields) + e.manualQueryArgs &&
      o.resultType == e.name + "QueryResults"
  {
    FiltersBlockLast(e, q);
    AllOpArguments(e, q);
    forall o | QueryOp(o) in QueryType(e, q) && o.name == "all" + e.name + "s"
      ensures AllOp(e, q) == Some(o)
    {
      QueryOpNamed(e, q, o);
    }
  }

  /** The only operation of the Query list named `all<Name>s` is `AllOp`. */
  lemma QueryOpNamed(e: Entity, q: seq<Arg>, o: Operation)
    requires QueryOp(o) in QueryType(e, q) && o.name == "all" + e.name + "s"
    ensures AllOp(e, q) == Some(o)
  {
    assert |"all" + e.name + "s"| != |"get" + e.name|;
  }

  lemma AllOpArguments(e: Entity, q: seq<Arg>)
    ensures AllOp(e, q).Some? ==>
      AllOp(e, q).value.args == q + [OrArg(e.name)]
        + [ Arg("SORT", e.name + "Sort"), Arg("SORTS", "[" + e.name + "Sort]"),
            Arg("LIMIT", "Int"), Arg("SKIP", "Int"), Arg("PAGE", "Int"), Arg("PAGE_SIZE", "Int") ]
        + DateFormatArgs(e.fields) + e.manualQueryArgs
  {
    var paging := PagingArgs(e.name);
    assert paging == [OrArg(e.name)] + paging[1..];
  }

  /** The entries of the last block. */
  function FiltersEntries(bs: seq<Block>): seq<Arg>
  {
    if bs == [] then [] else bs[|bs| - 1].entries
  }

  /** The last block is the `Filters` input: the collected filter arguments, then `OR`. */
  lemma FiltersBlockLast(e: Entity, q: seq<Arg>)
    ensures Blocks(e, q)[|Blocks(e, q)| - 1] == InputBlock(e.name + "Filters", q + [OrArg(e.name)])
  {
  }

  /** `get<Name>` takes `_id: String`, then the same `_format` and manual arguments as `all<Name>s`. */
  lemma GetQueryArguments(e: Entity, q: seq<Arg>)
    ensures forall o :: QueryOp(o) in QueryType(e, q) && o.name == "get" + e.name ==>
      o.args == [Arg("_id", "String")] + DateFormatArgs(e.fields) + e.manualQueryArgs &&
      o.resultType == e.name + "SingleQueryResult"
  {
    assert |"all" + e.name + "s"| != |"get" + e.name|;
  }

  /** Only tables get the root Mutation and Query lists; the imports and blocks
      do not depend on it. */
  lemma RootListsOnlyForTables(e: Entity)
    ensures TypeSchemaOf(e).mutation.Some? <==> e.table
    ensures TypeSchemaOf(e).query.Some? <==> e.table
    ensures |TypeSchemaOf(e).imports| == |e.schemaSources|
  {
  }

  /** The object type and the `Input` type list the fields in the same order and
      under the same names, and an entry differs between the two exactly when its
      field is a reference; a field without a flag reads `undefined` in both. */
  lemma ObjectAndInputAgreeExceptReferences(e: Entity)
    ensures |ObjectTypeEntries(e)| >= |e.fields| && |InputEntries(e)| >= |e.fields|
    ensures forall i :: 0 <= i < |e.fields| ==>
      ObjectTypeEntries(e)[i].name == e.fields[i].0 && InputEntries(e)[i].name == e.fields[i].0 &&
      (ObjectTypeEntries(e)[i] == InputEntries(e)[i] <==> !e.fields[i].1.IsReference())
    ensures forall i :: 0 <= i < |e.fields| && e.fields[i].1.Unflagged? ==>
      ObjectTypeEntries(e)[i].ty == "undefined"
  {
    forall i | 0 <= i < |e.fields|
      ensures ObjectTypeEntries(e)[i] == Arg(e.fields[i].0, Interpolate(FieldType(e.fields[i].1, false)))
      ensures InputEntries(e)[i] == Arg(e.fields[i].0, Interpolate(FieldType(e.fields[i].1, true)))
      ensures ObjectTypeEntries(e)[i] == InputEntries(e)[i] <==> !e.fields[i].1.IsReference()
    {
      InputVariantOnlyChangesReferences(e.fields[i].1);
    }
  }

  /** Each relationship contributes exactly one `MutationInput` entry, after the
      field entries: `_ADD` for an array relationship and `_SET` otherwise, typed
      like the relationship's entry in the `Input` type, which follows the fields there. */
  lemma RelationshipMutationEntries(rels: seq<(string, Relationship)>)
    ensures |RelationshipMutations(rels)| == |rels| && |RelationshipInputs(rels)| == |rels|
    ensures forall j :: 0 <= j < |rels| ==>
      RelationshipInputs(rels)[j].name == rels[j].0 &&
      RelationshipMutations(rels)[j].ty == RelationshipInputs(rels)[j].ty &&
      RelationshipMutations(rels)[j].name == rels[j].0 + (if rels[j].1.isArray then "_ADD" else "_SET")
  {
  }

  /** The blocks begin with the object type and end with the `Filters` input,
      which holds every filter argument followed by `OR`; wrappers add five
      blocks and an entity used in arrays one. */
  lemma BlockOrder(e: Entity)
    ensures TypeSchemaOf(e).blocks[0] == TypeBlock(e.name, ObjectTypeEntries(e))
    ensures |TypeSchemaOf(e).blocks| == 5 + (if e.table then 5 else 0) + (if e.usedInArray then 1 else 0)
    ensures TypeSchemaOf(e).blocks[|TypeSchemaOf(e).blocks| - 1] ==
      InputBlock(e.name + "Filters", AllFilterArgs(e.fields) + [Arg("OR", "[" + e.name + "Filters]")])
  {
  }
}
