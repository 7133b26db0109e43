/** Mutation arguments: the entries a field contributes to its entity's
    `MutationInput`. */
module FieldMutations {
  import opened Fragments
  import opened Descriptors
  import opened FieldTypes

  /** The mutation arguments of field `k`; `None` stands for the `undefined` an
      object descriptor carrying none of the flags falls off the end with.
      Every entry is named after the field, the first being the plain assignment. */
  function FieldMutations(k: string, d: Descriptor): (r: Option<seq<Arg>>)
    ensures r.None? <==> d.Unflagged?
    ensures r.Some? ==> |r.value| > 0 && r.value[0].name == k
    ensures r.Some? ==> forall a :: a in r.value ==> k <= a.name
  {
    match d
    case FormattedDate => Some([Arg(k, "String")])
    case BoolType => Some([Arg(k, "Boolean")])
    case IntType => Some([Arg(k, "Int"), Arg(k + "_INC", "Int"), Arg(k + "_DEC", "Int")])
    case FloatType => Some([Arg(k, "Float"), Arg(k + "_INC", "Int"), Arg(k + "_DEC", "Int")])
    case JsonType => Some([Arg(k, "JSON")])
    case StringArrayType =>
      Some([ Arg(k, "[String]"), Arg(k + "_PUSH", "String"), Arg(k + "_CONCAT", "[String]"),
        Arg(k + "_UPDATE", "StringArrayUpdate"), Arg(k + "_UPDATES", "[StringArrayUpdate]"),
        Arg(k + "_PULL", "[String]"), Arg(k + "_ADDTOSET", "[String]") ])
    case IntArrayType =>
      Some([ Arg(k, "[Int]"), Arg(k + "_PUSH", "Int"), Arg(k + "_CONCAT", "[Int]"),
        Arg(k + "_UPDATE", "IntArrayUpdate"), Arg(k + "_UPDATES", "[IntArrayUpdate]"),
        Arg(k + "_PULL", "[Int]"), Arg(k + "_ADDTOSET", "[Int]") ])
    case FloatArrayType =>
      Some([ Arg(k, "[Float]"), Arg(k + "_PUSH", "Float"), Arg(k + "_CONCAT", "[Float]"),
        Arg(k + "_UPDATE", "FloatArrayUpdate"), Arg(k + "_UPDATES", "[FloatArrayUpdate]"),
        Arg(k + "_PULL", "[Float]"), Arg(k + "_ADDTOSET", "[Float]") ])
    case MongoIdArrayType =>
      Some([ Arg(k, "[String]"), Arg(k + "_PUSH", "String"), Arg(k + "_CONCAT", "[String]"),
        Arg(k + "_UPDATE", "StringArrayUpdate"), Arg(k + "_UPDATES", "[StringArrayUpdate]"),
        Arg(k + "_PULL", "[String]"), Arg(k + "_ADDTOSET", "[String]") ])
    // every other string descriptor
    case MongoIdType => Some([Arg(k, "String")])
    case StringType => Some([Arg(k, "String")])
    case DateType => Some([Arg(k, "String")])
    case OtherString(_) => Some([Arg(k, "String")])
    case ArrayOf(t) =>
      Some([ Arg(k, "[" + t + "Input]"), Arg(k + "_PUSH", t + "Input"), Arg(k + "_CONCAT", "[" + t + "Input]"),
        Arg(k + "_UPDATE", t + "ArrayMutationInput"), Arg(k + "_UPDATES", "[" + t + "ArrayMutationInput]"),
        Arg(k + "_PULL", t + "Filters") ])
    case Literal(t) => Some([Arg(k, t)])
    case ObjectOf(t) => Some([Arg(k, t + "Input"), Arg(k + "_UPDATE", t + "MutationInput")])
    case Unflagged => None
  }

  /** The seven array operators, for element type `e` and array-update type `u`. */
  function ScalarArrayOps(k: string, e: string, u: string): seq<Arg>
  {
    [ Arg(k, "[" + e + "]"), Arg(k + "_PUSH", e), Arg(k + "_CONCAT", "[" + e + "]"),
      Arg(k + "_UPDATE", u), Arg(k + "_UPDATES", "[" + u + "]"),
      Arg(k + "_PULL", "[" + e + "]"), Arg(k + "_ADDTOSET", "[" + e + "]") ]
  }

  /** Int and Float take the assignment plus `_INC`/`_DEC`, and the increments
      are typed `Int` even for a Float field. */
  lemma NumericMutations(k: string)
    ensures FieldMutations(k, IntType) == Some([Arg(k, "Int"), Arg(k + "_INC", "Int"), Arg(k + "_DEC", "Int")])
    ensures FieldMutations(k, FloatType) == Some([Arg(k, "Float"), Arg(k + "_INC", "Int"), Arg(k + "_DEC", "Int")])
  {
  }

  /** Booleans, JSON, dates and every remaining string descriptor take one assignment. */
  lemma SingleAssignmentMutations(k: string, d: Descriptor)
    ensures d == BoolType ==> FieldMutations(k, d) == Some([Arg(k, "Boolean")])
    ensures d == JsonType ==> FieldMutations(k, d) == Some([Arg(k, "JSON")])
    ensures d.IsDate() || d.MongoIdType? || d.StringType? || d.OtherString? ==>
      FieldMutations(k, d) == Some([Arg(k, "String")])
  {
  }

  /** String and identifier arrays yield one and the same seven-entry list;
      Int and Float arrays the same operators with the element and update
      types swapped. */
  lemma ScalarArrayMutations(k: string)
    ensures FieldMutations(k, StringArrayType) == FieldMutations(k, MongoIdArrayType)
    ensures FieldMutations(k, StringArrayType) == Some(ScalarArrayOps(k, "String", "StringArrayUpdate"))
    ensures FieldMutations(k, IntArrayType) == Some(ScalarArrayOps(k, "Int", "IntArrayUpdate"))
    ensures FieldMutations(k, FloatArrayType) == Some(ScalarArrayOps(k, "Float", "FloatArrayUpdate"))
  {
    assert "[" + "String" + "]" == "[String]";
    assert "[" + "StringArrayUpdate" + "]" == "[StringArrayUpdate]";
    assert "[" + "Int" + "]" == "[Int]";
    assert "[" + "IntArrayUpdate" + "]" == "[IntArrayUpdate]";
    assert "[" + "Float" + "]" == "[Float]";
    assert "[" + "FloatArrayUpdate" + "]" == "[FloatArrayUpdate]";
  }

  /** An array of objects yields six entries, none of them `_ADDTOSET`, and
      removes elements through the target's `Filters` input. */
  lemma ObjectArrayMutations(k: string, t: string)
    ensures FieldMutations(k, ArrayOf(t)).Some?
    ensures |FieldMutations(k, ArrayOf(t)).value| == 6
    ensures forall a :: a in FieldMutations(k, ArrayOf(t)).value ==> a.name != k + "_ADDTOSET"
    ensures Arg(k + "_PULL", t + "Filters") in FieldMutations(k, ArrayOf(t)).value
  {
    var ops := FieldMutations(k, ArrayOf(t)).value;
    forall a | a in ops ensures a.name != k + "_ADDTOSET" {
      var suffix := a.name[|k|..];
      assert a.name == k + suffix;
      SuffixInjective(k, suffix, "_ADDTOSET");
    }
  }

  /** A single object yields its assignment and a deep-merge `_UPDATE` through the
      target's `MutationInput`. */
  lemma ObjectMutations(k: string, t: string)
    ensures FieldMutations(k, ObjectOf(t)) == Some([Arg(k, t + "Input"), Arg(k + "_UPDATE", t + "MutationInput")])
  {
  }

  /** The assignment entry is typed as the field's input read type, for every
      descriptor except a string matching no constant (which `fieldType` renders
      verbatim and the mutation generator types as `String`). */
  lemma AssignmentMatchesInputType(k: string, d: Descriptor)
    requires !d.Unflagged?
    ensures !d.OtherString? ==> FieldMutations(k, d).value[0] == Arg(k, FieldType(d, true).value)
    ensures d.OtherString? ==> FieldMutations(k, d).value[0] == Arg(k, "String")
  {
  }

  /** The read-type and mutation generators give up on exactly the same descriptors. */
  lemma MutationsAndReadTypesAgreeOnCoverage(k: string, d: Descriptor, useInputs: bool)
    ensures FieldMutations(k, d).None? <==> FieldType(d, useInputs).None?
  {
  }
}
