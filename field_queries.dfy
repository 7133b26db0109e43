/** Filter arguments: the entries a field contributes to its entity's `Filters`
    input and to the argument list of the `all` query. */
module FieldQueries {
  import opened Fragments
  import opened Descriptors
  import opened FieldTypes

  /** One filter operator: the suffix appended to the field name, and its type. */
  datatype Op = Op(suffix: string, ty: string)

  /** The filter arguments a list of operators gives field `k`. */
  function Apply(k: string, ops: seq<Op>): (r: seq<Arg>)
    ensures |r| == |ops|
    ensures forall i :: 0 <= i < |ops| ==> r[i] == Arg(k + ops[i].suffix, ops[i].ty)
  {
    seq(|ops|, i requires 0 <= i < |ops| => Arg(k + ops[i].suffix, ops[i].ty))
  }

  function Suffixes(ops: seq<Op>): (r: seq<string>)
    ensures |r| == |ops|
    ensures forall i :: 0 <= i < |ops| ==> r[i] == ops[i].suffix
  {
    seq(|ops|, i requires 0 <= i < |ops| => ops[i].suffix)
  }

  /** Ordering comparisons against a value of type `t`. */
  function Comparisons(t: string): seq<Op>
  {
    [Op("_lt", t), Op("_lte", t), Op("_gt", t), Op("_gte", t)]
  }

  /** Element-match comparisons: some member of the array compares against the value. */
  function ElementMatches(t: string): seq<Op>
  {
    [Op("_emlt", t), Op("_emlte", t), Op("_emgt", t), Op("_emgte", t)]
  }

  /** Equality, inequality and membership for a scalar of type `t`. */
  function Equality(t: string): seq<Op>
  {
    [Op("", t), Op("_ne", t), Op("_in", "[" + t + "]")]
  }

  /** Whole-array equality, membership, containment and inequality for element type `e`. */
  function ArrayEquality(e: string): seq<Op>
  {
    [Op("", "[" + e + "]"), Op("_in", "[[" + e + "]]"), Op("_contains", e), Op("_containsAny", "[" + e + "]"), Op("_ne", "[" + e + "]")]
  }

  /** Pattern matches on a string. */
  function StringPatterns(): seq<Op>
  {
    [Op("_contains", "String"), Op("_startsWith", "String"), Op("_endsWith", "String"), Op("_regex", "String")]
  }

  /** Text search over the elements of a string array. */
  function TextSearch(): seq<Op>
  {
    [Op("_textContains", "String"), Op("_startsWith", "String"), Op("_endsWith", "String"), Op("_regex", "String")]
  }

  /** The filter grammar, one line per kind of descriptor. */
  function FilterOps(d: Descriptor): seq<Op>
  {
    match d
    case BoolType => [Op("", "Boolean")] + Equality("Boolean")
    case StringType => StringPatterns() + Equality("String")
    case IntType => Comparisons("Int") + Equality("Int")
    case FloatType => Comparisons("Float") + Equality("Float")
    case DateType => Comparisons("String") + Equality("String")
    case FormattedDate => Comparisons("String") + Equality("String")
    case MongoIdType => Equality("String")
    case JsonType => [Op("", "JSON"), Op("_ne", "JSON")]
    case IntArrayType => [Op("_count", "Int")] + Comparisons("Int") + ElementMatches("Int") + ArrayEquality("Int")
    case FloatArrayType => [Op("_count", "Int")] + Comparisons("Float") + ElementMatches("Float") + ArrayEquality("Float")
    case StringArrayType => [Op("_count", "Int")] + TextSearch() + ArrayEquality("String")
    case MongoIdArrayType => ArrayEquality("String")
    case ArrayOf(t) => [Op("_count", "Int"), Op("", t + "Filters")]
    case ObjectOf(t) => [Op("_count", "Int"), Op("", t + "Filters")]
    case OtherString(_) => []
    case Literal(_) => []
    case Unflagged => []
  }

  /** The filter arguments of field `k`. */
  function FilterArgs(k: string, d: Descriptor): seq<Arg>
  {
    Apply(k, FilterOps(d))
  }

  lemma ApplyConcat(k: string, a: seq<Op>, b: seq<Op>)
    ensures Apply(k, a + b) == Apply(k, a) + Apply(k, b)
  {
  }

  /** The filter arguments of a field, collected one group of operators at a
      time across two dispatches; the String-array case runs on into the
      identifier-array case. */
  method QueriesForField(fieldName: string, realFieldType: Descriptor) returns (result: seq<Arg>)
    ensures result == FilterArgs(fieldName, realFieldType)
  {
    var d := if realFieldType.FormattedDate? then DateType else realFieldType;
    var fieldType :=
      if d.DateType? || d.MongoIdType? then "String"
      else if d.StringType? || d.IntType? || d.FloatType? || d.BoolType? || d.JsonType? then ConstantText(d)
      else "";
    var ops: seq<Op> := [];
    ghost var rest: seq<Op>;  // what the second dispatch still adds
    match d {
      case BoolType =>
        ops := [Op("", "Boolean")];
        rest := Equality(fieldType);
      case StringType =>
        ops := StringPatterns();
        rest := Equality(fieldType);
      case IntType | FloatType | DateType =>
        ops := Comparisons(fieldType);
        rest := Equality(fieldType);
      case IntArrayType | FloatArrayType =>
        var singleType := if d == IntArrayType then "Int" else "Float";
        ops := [Op("_count", "Int")];
        ops := ops + Comparisons(singleType);
        ops := ops + ElementMatches(singleType);
        ops := ops + ArrayEquality(singleType);
        rest := [];
      case StringArrayType | MongoIdArrayType =>
        if d == StringArrayType {
          ops := [Op("_count", "Int")] + TextSearch();
        }
        // no break: the String-array case runs on into the identifier-array case
        ops := ops + ArrayEquality("String");
        rest := [];
      case _ =>
        rest := FilterOps(d);
    }
    assert FilterOps(realFieldType) == ops + rest;

    if d.IsEqualityScalar() {
      ops := ops + Equality(fieldType);
    } else if d == JsonType {
      ops := ops + [Op("", fieldType), Op("_ne", fieldType)];
    }

    if d.IsReference() {
      ops := ops + [Op("_count", "Int"), Op("", d.target + "Filters")];
    }
    result := Apply(fieldName, ops);
  }

  /** Every argument a list of operators gives field `k`, and every fragment
      rendered from one, begins with the field's name. */
  lemma ApplyNamedAfterField(k: string, ops: seq<Op>)
    ensures forall a :: a in Apply(k, ops) ==> k <= a.name && k <= Line(a)
  {
    var args := Apply(k, ops);
    forall i | 0 <= i < |args| ensures k <= args[i].name && k <= Line(args[i]) {
      var suffix := ops[i].suffix;
      PrefixOfConcat(k, suffix);
      PrefixOfConcat(k, suffix + ": " + args[i].ty);
      assert Line(args[i]) == k + (suffix + ": " + args[i].ty);
    }
  }

  /** Every filter argument, and so every fragment rendered from one, begins
      with the field's name. */
  lemma FilterArgsNamedAfterField(k: string, d: Descriptor)
    ensures forall a :: a in FilterArgs(k, d) ==> k <= a.name && k <= Line(a)
  {
    ApplyNamedAfterField(k, FilterOps(d));
  }

  /** A Bool field's equality argument is emitted twice: once by the first
      dispatch and once more with the universal equality set. */
  lemma BoolEqualityEmittedTwice(k: string)
    ensures FilterArgs(k, BoolType) ==
      [Arg(k, "Boolean"), Arg(k, "Boolean"), Arg(k + "_ne", "Boolean"), Arg(k + "_in", "[Boolean]")]
  {
    assert k + "" == k;
    assert "[" + "Boolean" + "]" == "[Boolean]";
  }

  /** No two filter arguments of a field share a name, except for the Bool
      field's repeated equality argument. */
  lemma {:induction false} FilterNamesDistinctUnlessBool(k: string, d: Descriptor)
    ensures Distinct(Names(FilterArgs(k, d))) <==> d != BoolType
  {
    var ops := FilterOps(d);
    assert Names(FilterArgs(k, d)) == Prefixed(k, Suffixes(ops));
    PrefixedDistinct(k, Suffixes(ops));
    SuffixesAsTabled(d);
    SuffixesDistinctUnlessBool(d);
  }

  /** The argument-name suffixes of each kind of descriptor, in order, written
      out as a name table independent of the filter grammar; `SuffixesAsTabled`
      proves the two agree. */
  function FilterSuffixes(d: Descriptor): seq<string>
  {
    match d
    case BoolType => ["", "", "_ne", "_in"]
    case StringType => ["_contains", "_startsWith", "_endsWith", "_regex", "", "_ne", "_in"]
    case IntType => OrderedSuffixes()
    case FloatType => OrderedSuffixes()
    case DateType => OrderedSuffixes()
    case FormattedDate => OrderedSuffixes()
    case MongoIdType => ["", "_ne", "_in"]
    case JsonType => ["", "_ne"]
    case IntArrayType => NumericArraySuffixes()
    case FloatArrayType => NumericArraySuffixes()
    case StringArrayType => ["_count", "_textContains", "_startsWith", "_endsWith", "_regex", "", "_in", "_contains", "_containsAny", "_ne"]
    case MongoIdArrayType => ["", "_in", "_contains", "_containsAny", "_ne"]
    case ArrayOf(_) => ["_count", ""]
    case ObjectOf(_) => ["_count", ""]
    case OtherString(_) => []
    case Literal(_) => []
    case Unflagged => []
  }

  function OrderedSuffixes(): seq<string>
  {
    ["_lt", "_lte", "_gt", "_gte", "", "_ne", "_in"]
  }

  function NumericArraySuffixes(): seq<string>
  {
    ["_count", "_lt", "_lte", "_gt", "_gte", "_emlt", "_emlte", "_emgt", "_emgte", "", "_in", "_contains", "_containsAny", "_ne"]
  }

  /** The filter grammar produces exactly the suffixes of the name table. */
  lemma SuffixesAsTabled(d: Descriptor)
    ensures Suffixes(FilterOps(d)) == FilterSuffixes(d)
  {
    if d.IsScalarArray() {
      ArraySuffixesAsTabled(d);
    } else {
      ScalarSuffixesAsTabled(d);
    }
  }

  lemma ArraySuffixesAsTabled(d: Descriptor)
    requires d.IsScalarArray()
    ensures Suffixes(FilterOps(d)) == FilterSuffixes(d)
  {
    if d.IntArrayType? {
      NumericArraySuffixesAre("Int");
    } else if d.FloatArrayType? {
      NumericArraySuffixesAre("Float");
    }
  }

  lemma ScalarSuffixesAsTabled(d: Descriptor)
    requires !d.IsScalarArray()
    ensures Suffixes(FilterOps(d)) == FilterSuffixes(d)
  {
  }

  lemma SuffixesDistinctUnlessBool(d: Descriptor)
    ensures Distinct(FilterSuffixes(d)) <==> d != BoolType
  {
    if d == BoolType {
      assert FilterSuffixes(d)[0] == FilterSuffixes(d)[1];
    } else if d.IsScalarArray() {
      ArraySuffixesDistinct();
    } else {
      ScalarSuffixesDistinct();
    }
  }

  lemma ArraySuffixesDistinct()
    ensures Distinct(NumericArraySuffixes())
    ensures Distinct(FilterSuffixes(StringArrayType))
    ensures Distinct(FilterSuffixes(MongoIdArrayType))
  {
  }

  lemma ScalarSuffixesDistinct()
    ensures Distinct(OrderedSuffixes())
    ensures Distinct(FilterSuffixes(StringType))
  {
  }

  lemma NumericArraySuffixesAre(e: string)
    ensures Suffixes([Op("_count", "Int")] + Comparisons(e) + ElementMatches(e) + ArrayEquality(e)) == NumericArraySuffixes()
  {
    var count := [Op("_count", "Int")];
    SuffixesConcat(count, Comparisons(e));
    SuffixesConcat(count + Comparisons(e), ElementMatches(e));
    SuffixesConcat(count + Comparisons(e) + ElementMatches(e), ArrayEquality(e));
    assert Suffixes(count) == ["_count"];
    assert Suffixes(Comparisons(e)) == ["_lt", "_lte", "_gt", "_gte"];
    assert Suffixes(ElementMatches(e)) == ["_emlt", "_emlte", "_emgt", "_emgte"];
    assert Suffixes(ArrayEquality(e)) == ["", "_in", "_contains", "_containsAny", "_ne"];
    assert ["_count"] + ["_lt", "_lte", "_gt", "_gte"] + ["_emlt", "_emlte", "_emgt", "_emgte"] + ["", "_in", "_contains", "_containsAny", "_ne"] ==
      NumericArraySuffixes();
  }

  lemma SuffixesConcat(a: seq<Op>, b: seq<Op>)
    ensures Suffixes(a + b) == Suffixes(a) + Suffixes(b)
  {
  }

  /** `_count` is typed `Int` and is offered exactly for String, Int and Float
      arrays and for references; identifier arrays have none. */
  lemma CountOperator(k: string, d: Descriptor)
    ensures forall a :: a in FilterArgs(k, d) && a.name == k + "_count" ==> a.ty == "Int"
    ensures (exists a :: a in FilterArgs(k, d) && a.name == k + "_count") <==>
      d.StringArrayType? || d.IntArrayType? || d.FloatArrayType? || d.IsReference()
  {
    var args := FilterArgs(k, d);
    CountOnlyFirst(k, d);
    if d.StringArrayType? || d.IntArrayType? || d.FloatArrayType? || d.IsReference() {
      assert args[0] == Arg(k + "_count", "Int");
    }
  }

  /** A field's `_count` filter, when it has one, is its first filter, and no
      later filter carries that name; it comes first exactly for String, Int
      and Float arrays and references. */
  lemma CountOnlyFirst(k: string, d: Descriptor)
    ensures forall i :: 0 < i < |FilterArgs(k, d)| ==> FilterArgs(k, d)[i].name != k + "_count"
    ensures |FilterArgs(k, d)| > 0 && FilterArgs(k, d)[0].name == k + "_count" <==>
      d.StringArrayType? || d.IntArrayType? || d.FloatArrayType? || d.IsReference()
  {
    var ops := FilterOps(d);
    var args := FilterArgs(k, d);
    SuffixesAsTabled(d);
    CountSuffixFirst(d);
    forall i | 0 <= i < |ops| ensures args[i].name == k + "_count" <==> ops[i].suffix == "_count" {
      SuffixInjective(k, ops[i].suffix, "_count");
    }
    forall i | 0 < i < |ops| ensures ops[i].suffix != "_count" {
      assert FilterSuffixes(d)[1..][i - 1] == ops[i].suffix;
    }
  }

  /** In the name table, `_count` can only come first, and it does exactly for
      String, Int and Float arrays and references. */
  lemma CountSuffixFirst(d: Descriptor)
    ensures |FilterSuffixes(d)| > 0 ==> "_count" !in FilterSuffixes(d)[1..]
    ensures |FilterSuffixes(d)| > 0 && FilterSuffixes(d)[0] == "_count" <==>
      d.StringArrayType? || d.IntArrayType? || d.FloatArrayType? || d.IsReference()
  {
    if d.IsScalarArray() {
      ArrayCountOnlyFirst(d);
    } else {
      ScalarCountOnlyFirst(d);
    }
  }

  lemma ArrayCountOnlyFirst(d: Descriptor)
    requires d.IsScalarArray()
    ensures "_count" !in FilterSuffixes(d)[1..]
    ensures FilterSuffixes(d)[0] == "_count" <==> !d.MongoIdArrayType?
  {
    if d.IntArrayType? || d.FloatArrayType? {
      NumericArrayCountOnlyFirst();
    }
  }

  lemma NumericArrayCountOnlyFirst()
    ensures "_count" !in NumericArraySuffixes()[1..]
  {
  }

  lemma ScalarCountOnlyFirst(d: Descriptor)
    requires !d.IsScalarArray()
    ensures |FilterSuffixes(d)| > 0 ==> "_count" !in FilterSuffixes(d)[1..]
    ensures |FilterSuffixes(d)| > 0 && FilterSuffixes(d)[0] == "_count" <==> d.IsReference()
  {
  }

  /** Every descriptor whose filters include a plain equality argument types it
      as the field's read type; a reference instead filters through its
      target's `Filters` input. */
  lemma EqualityArgumentMatchesReadType(k: string, d: Descriptor)
    ensures d.IsEqualityScalar() || d == JsonType || d.IsScalarArray() || d.FormattedDate? ==>
      Arg(k, FieldType(d, false).value) in FilterArgs(k, d)
    ensures d.IsReference() ==> FilterArgs(k, d) == [Arg(k + "_count", "Int"), Arg(k, d.target + "Filters")]
  {
    assert k + "" == k;
    if d.IsScalarArray() {
      ArrayEqualityArgument(k, d);
    } else if d.IsEqualityScalar() || d.FormattedDate? {
      ScalarEqualityArgument(k, d);
    } else if d == JsonType {
      assert FilterArgs(k, d)[0] == Arg(k, "JSON");
    } else if d.IsReference() {
      assert FilterOps(d) == [Op("_count", "Int"), Op("", d.target + "Filters")];
    }
  }

  /** `k: T` is among the equality operators over `T`. */
  lemma EqualityNamesField(k: string, pre: seq<Op>, t: string)
    ensures Arg(k, t) in Apply(k, pre + Equality(t))
  {
    assert k + "" == k;
    ApplyConcat(k, pre, Equality(t));
    assert Apply(k, Equality(t))[0] == Arg(k, t);
  }

  /** `k: [E]` is among the whole-array operators over `E`. */
  lemma ArrayEqualityNamesField(k: string, pre: seq<Op>, e: string)
    ensures Arg(k, "[" + e + "]") in Apply(k, pre + ArrayEquality(e))
  {
    assert k + "" == k;
    ApplyConcat(k, pre, ArrayEquality(e));
    assert Apply(k, ArrayEquality(e))[0] == Arg(k, "[" + e + "]");
  }

  lemma ScalarEqualityArgument(k: string, d: Descriptor)
    requires d.IsEqualityScalar() || d.FormattedDate?
    ensures Arg(k, FieldType(d, false).value) in FilterArgs(k, d)
  {
    match d {
      case BoolType => EqualityNamesField(k, [Op("", "Boolean")], "Boolean");
      case StringType => EqualityNamesField(k, StringPatterns(), "String");
      case IntType => EqualityNamesField(k, Comparisons("Int"), "Int");
      case FloatType => EqualityNamesField(k, Comparisons("Float"), "Float");
      case DateType => EqualityNamesField(k, Comparisons("String"), "String");
      case FormattedDate => EqualityNamesField(k, Comparisons("String"), "String");
      case MongoIdType => EqualityNamesField(k, [], "String"); assert [] + Equality("String") == Equality("String");
    }
  }

  lemma ArrayEqualityArgument(k: string, d: Descriptor)
    requires d.IsScalarArray()
    ensures Arg(k, FieldType(d, false).value) in FilterArgs(k, d)
  {
    var e := ArrayElement(d);
    var pre := ArrayPrefix(d);
    ArrayOpsEndInEquality(d);
    ArrayEqualityNamesField(k, pre, e);
  }

  /** The element type of a scalar array, as its filters name it. */
  function ArrayElement(d: Descriptor): string
    requires d.IsScalarArray()
  {
    if d.IntArrayType? then "Int" else if d.FloatArrayType? then "Float" else "String"
  }

  /** The filter operators of a scalar array that precede its whole-array operators. */
  function ArrayPrefix(d: Descriptor): seq<Op>
    requires d.IsScalarArray()
  {
    var e := ArrayElement(d);
    if d.IntArrayType? || d.FloatArrayType? then [Op("_count", "Int")] + Comparisons(e) + ElementMatches(e)
    else if d.StringArrayType? then [Op("_count", "Int")] + TextSearch()
    else []
  }

  lemma ArrayOpsEndInEquality(d: Descriptor)
    requires d.IsScalarArray()
    ensures FilterOps(d) == ArrayPrefix(d) + ArrayEquality(ArrayElement(d))
    ensures FieldType(d, false) == Some("[" + ArrayElement(d) + "]")
  {
    assert "[" + "Int" + "]" == "[Int]";
    assert "[" + "Float" + "]" == "[Float]";
    assert "[" + "String" + "]" == "[String]";
    assert [] + ArrayEquality("String") == ArrayEquality("String");
  }

  /** Literals, unrecognised strings and unflagged objects contribute no
      filters; every other descriptor contributes some. */
  lemma FiltersEmptyExactly(k: string, d: Descriptor)
    ensures FilterArgs(k, d) == [] <==> d.OtherString? || d.Literal? || d.Unflagged?
  {
  }

  /** Scalars: equality, `_ne` and `_in` come last, preceded by the four
      pattern operators for String and the four comparisons for Int, Float and
      dates, all typed by the field's read type; JSON has equality and `_ne`
      only. */
  lemma ScalarFilters(k: string)
    ensures FilterArgs(k, StringType) == Apply(k, StringPatterns()) + Apply(k, Equality("String"))
    ensures FilterArgs(k, IntType) == Apply(k, Comparisons("Int")) + Apply(k, Equality("Int"))
    ensures FilterArgs(k, FloatType) == Apply(k, Comparisons("Float")) + Apply(k, Equality("Float"))
    ensures FilterArgs(k, DateType) == Apply(k, Comparisons("String")) + Apply(k, Equality("String"))
    ensures FilterArgs(k, FormattedDate) == FilterArgs(k, DateType)
    ensures FilterArgs(k, MongoIdType) == Apply(k, Equality("String"))
    ensures FilterArgs(k, JsonType) == [Arg(k, "JSON"), Arg(k + "_ne", "JSON")]
  {
    assert k + "" == k;
    ApplyConcat(k, StringPatterns(), Equality("String"));
    ApplyConcat(k, Comparisons("Int"), Equality("Int"));
    ApplyConcat(k, Comparisons("Float"), Equality("Float"));
    ApplyConcat(k, Comparisons("String"), Equality("String"));
  }

  /** The universal equality set: the field's own type, `_ne`, and `_in` over a list. */
  lemma EqualitySet(k: string, t: string)
    ensures Apply(k, Equality(t)) == [Arg(k, t), Arg(k + "_ne", t), Arg(k + "_in", "[" + t + "]")]
  {
    assert k + "" == k;
  }

  /** Int and Float arrays: `_count`, the comparisons, the element-match
      comparisons, then whole-array equality, membership, containment and
      inequality, all typed by the element. */
  lemma NumericArrayFilters(k: string)
    ensures FilterArgs(k, IntArrayType) ==
      [Arg(k + "_count", "Int")] + Apply(k, Comparisons("Int")) + Apply(k, ElementMatches("Int")) + Apply(k, ArrayEquality("Int"))
    ensures FilterArgs(k, FloatArrayType) ==
      [Arg(k + "_count", "Int")] + Apply(k, Comparisons("Float")) + Apply(k, ElementMatches("Float")) + Apply(k, ArrayEquality("Float"))
  {
    NumericArrayApply(k, "Int");
    NumericArrayApply(k, "Float");
  }

  lemma NumericArrayApply(k: string, e: string)
    ensures Apply(k, [Op("_count", "Int")] + Comparisons(e) + ElementMatches(e) + ArrayEquality(e)) ==
      [Arg(k + "_count", "Int")] + Apply(k, Comparisons(e)) + Apply(k, ElementMatches(e)) + Apply(k, ArrayEquality(e))
  {
    ApplyConcat(k, [Op("_count", "Int")], Comparisons(e));
    ApplyConcat(k, [Op("_count", "Int")] + Comparisons(e), ElementMatches(e));
    ApplyConcat(k, [Op("_count", "Int")] + Comparisons(e) + ElementMatches(e), ArrayEquality(e));
  }

  /** String arrays: `_count` and the four text searches, then exactly the
      identifier-array block of whole-array operators over `String`. */
  lemma StringArrayFilters(k: string)
    ensures FilterArgs(k, StringArrayType) ==
      [Arg(k + "_count", "Int")] + Apply(k, TextSearch()) + FilterArgs(k, MongoIdArrayType)
  {
    var count := [Op("_count", "Int")];
    assert FilterOps(StringArrayType) == count + TextSearch() + FilterOps(MongoIdArrayType);
    ApplyConcat(k, count, TextSearch());
    ApplyConcat(k, count + TextSearch(), FilterOps(MongoIdArrayType));
  }

  /** Identifier arrays: the five whole-array operators over `String`, and nothing else. */
  lemma MongoIdArrayFilters(k: string)
    ensures FilterArgs(k, MongoIdArrayType) ==
      [Arg(k, "[String]"), Arg(k + "_in", "[[String]]"), Arg(k + "_contains", "String"),
       Arg(k + "_containsAny", "[String]"), Arg(k + "_ne", "[String]")]
  {
    assert k + "" == k;
    assert "[" + "String" + "]" == "[String]" && "[[" + "String" + "]]" == "[[String]]";
  }
}
