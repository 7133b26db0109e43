/** Read types: the type text a field or relationship is declared with in the
    object type (`useInputs` false) and in the input types (`useInputs` true),
    and the resolver signature of a relationship field. */
module FieldTypes {
  import opened Fragments
  import opened Descriptors

  /** `Input` when the input variant of a referenced entity is wanted. */
  function InputSuffix(useInputs: bool): string
  {
    if useInputs then "Input" else ""
  }

  /** The read type of a field; `None` stands for the `undefined` that an object
      descriptor carrying none of the flags falls off the end with. */
  function FieldType(d: Descriptor, useInputs: bool): (r: Option<string>)
    ensures r.None? <==> d.Unflagged?
    ensures d.IsScalarArray() ==> r.Some? && |r.value| >= 2 && r.value[0] == '[' && r.value[|r.value| - 1] == ']'
    ensures d.ObjectOf? ==> r.Some? && d.target <= r.value
    ensures d.ArrayOf? ==> r.Some? && |r.value| >= 2 && r.value[0] == '[' && d.target <= r.value[1..]
  {
    match d
    case FormattedDate => Some("String")
    case StringArrayType => Some("[String]")
    case IntArrayType => Some("[Int]")
    case FloatArrayType => Some("[Float]")
    case MongoIdArrayType => Some("[String]")
    case MongoIdType => Some("String")
    case DateType => Some("String")
    case StringType => Some(ConstantText(d))
    case IntType => Some(ConstantText(d))
    case FloatType => Some(ConstantText(d))
    case BoolType => Some(ConstantText(d))
    case JsonType => Some(ConstantText(d))
    case OtherString(t) => Some(t)
    case ArrayOf(t) =>
      PrefixOfConcat(t, InputSuffix(useInputs) + "]");
      assert ("[" + t + InputSuffix(useInputs) + "]")[1..] == t + (InputSuffix(useInputs) + "]");
      Some("[" + t + InputSuffix(useInputs) + "]")
    case Literal(t) => Some(t)
    case ObjectOf(t) =>
      PrefixOfConcat(t, InputSuffix(useInputs));
      Some(t + InputSuffix(useInputs))
    case Unflagged => None
  }

  /** The read type of a relationship; `None` when it carries neither flag. */
  function RelationshipType(r: Relationship, useInputs: bool): (t: Option<string>)
    ensures t.None? <==> !r.isArray && !r.isObject
    ensures t.Some? && !r.isArray ==> r.target <= t.value
    ensures t.Some? && r.isArray ==> |t.value| >= 2 && t.value[0] == '[' && r.target <= t.value[1..]
  {
    if r.isArray then
      assert ("[" + r.target + InputSuffix(useInputs) + "]")[1..] == r.target + (InputSuffix(useInputs) + "]");
      PrefixOfConcat(r.target, InputSuffix(useInputs) + "]");
      Some("[" + r.target + InputSuffix(useInputs) + "]")
    else if r.isObject then
      PrefixOfConcat(r.target, InputSuffix(useInputs));
      Some(r.target + InputSuffix(useInputs))
    else None
  }

  /** The sort arguments an array relationship's resolver accepts. */
  function SortArgs(target: string): string
  {
    "(SORT: " + target + "Sort, SORTS: [" + target + "Sort])"
  }

  /** The object-type entry of relationship `k`: its name carries the resolver's
      arguments, its type is the non-input relationship type. */
  function RelationshipResolver(k: string, r: Relationship): (a: Arg)
    ensures r.isArray ==> a.name == k + SortArgs(r.target)
    ensures !r.isArray ==> a.name == k
    ensures a.ty == Interpolate(RelationshipType(r, false))
  {
    var resolverArgs := if r.isArray then SortArgs(r.target) else "";
    Arg(k + resolverArgs, Interpolate(RelationshipType(r, false)))
  }

  /** Dates and identifiers are read as `String`, in both variants. */
  lemma DatesAndIdsReadAsString(useInputs: bool)
    ensures FieldType(FormattedDate, useInputs) == Some("String")
    ensures FieldType(DateType, useInputs) == Some("String")
    ensures FieldType(MongoIdType, useInputs) == Some("String")
  {
  }

  /** The scalar arrays render as their bracketed element type; identifier arrays as `[String]`. */
  lemma ScalarArraysReadBracketed(useInputs: bool)
    ensures FieldType(StringArrayType, useInputs) == Some("[String]")
    ensures FieldType(IntArrayType, useInputs) == Some("[Int]")
    ensures FieldType(FloatArrayType, useInputs) == Some("[Float]")
    ensures FieldType(MongoIdArrayType, useInputs) == Some("[String]")
  {
  }

  /** A reference renders as its target, suffixed `Input` exactly in the input
      variant and bracketed exactly for arrays. */
  lemma ReferencesReadAsTarget(t: string)
    ensures FieldType(ObjectOf(t), false) == Some(t)
    ensures FieldType(ObjectOf(t), true) == Some(t + "Input")
    ensures FieldType(ArrayOf(t), false) == Some("[" + t + "]")
    ensures FieldType(ArrayOf(t), true) == Some("[" + t + "Input]")
  {
    assert t + "" == t;
    assert "[" + t + "" + "]" == "[" + t + "]";
    assert "[" + t + "Input" + "]" == "[" + t + "Input]";
  }

  /** Only references depend on the variant: every other descriptor, a literal
      included, reads the same in the object type and in the input types, and a
      literal reads as its payload. */
  lemma InputVariantOnlyChangesReferences(d: Descriptor)
    ensures !d.IsReference() ==> FieldType(d, true) == FieldType(d, false)
    ensures d.Literal? ==> FieldType(d, true) == Some(d.text)
    ensures d.IsReference() ==> FieldType(d, true) != FieldType(d, false)
  {
    if d.IsReference() {
      var t := d.target;
      if d.ArrayOf? {
        assert |"[" + t + "Input" + "]"| != |"[" + t + "" + "]"|;
      } else {
        assert |t + "Input"| != |t + ""|;
      }
    }
  }

  /** A relationship reads exactly like the field descriptor of the same shape. */
  lemma RelationshipReadsLikeDescriptor(r: Relationship, useInputs: bool)
    ensures RelationshipType(r, useInputs) == FieldType(AsDescriptor(r), useInputs)
  {
  }

  /** An array relationship's resolver takes exactly `SORT` and `SORTS` typed by
      the target's `Sort` input; a singular one takes no arguments. */
  lemma ResolverSortArguments(k: string, target: string, isObject: bool)
    ensures RelationshipResolver(k, Relationship(target, true, isObject)) ==
      Arg(k + "(SORT: " + target + "Sort, SORTS: [" + target + "Sort])", "[" + target + "]")
    ensures RelationshipResolver(k, Relationship(target, false, true)) == Arg(k, target)
  {
    assert "[" + target + "" + "]" == "[" + target + "]";
    assert target + "" == target;
  }
}
