/** The vocabulary every generator dispatches over: a field's declared type and
    a relationship's target. */
module Descriptors {

  /** A field's declared type. The first eleven variants are the shared string
      constants of the data-type vocabulary; `OtherString` is any other string
      (see `UnknownText`). The remaining variants are the descriptor objects, each
      classified by the first flag `fieldType` tests: `__isDate`, `__isArray`,
      `__isLiteral`, `__isObject`; `Unflagged` is an object carrying none. */
  datatype Descriptor =
    | MongoIdType
    | StringType
    | IntType
    | FloatType
    | BoolType
    | JsonType
    | DateType
    | StringArrayType
    | IntArrayType
    | FloatArrayType
    | MongoIdArrayType
    | OtherString(str: UnknownText)
    | FormattedDate
    | ArrayOf(target: string)
    | Literal(text: string)
    | ObjectOf(target: string)
    | Unflagged
  {
    /** The six string kinds matched by the equality/`_ne`/`_in` filter case. */
    predicate IsEqualityScalar()
    {
      MongoIdType? || StringType? || IntType? || FloatType? || DateType? || BoolType?
    }

    /** The four array-of-scalar string kinds. */
    predicate IsScalarArray()
    {
      StringArrayType? || IntArrayType? || FloatArrayType? || MongoIdArrayType?
    }

    /** An object descriptor that names another entity. */
    predicate IsReference()
    {
      ArrayOf? || ObjectOf?
    }

    /** The field holds a date: the `DateType` constant or a formatted-date object. */
    predicate IsDate()
    {
      DateType? || FormattedDate?
    }
  }

  /** A type string that is not one of the data-type constants. Only the five
      constants the generators render verbatim have a known text, so those are
      the texts excluded. */
  type UnknownText = t: string | t != "String" && t != "Int" && t != "Float" && t != "Boolean" && t != "JSON"
    witness ""

  /** The text of a scalar string constant that the generators render verbatim
      (`MongoIdType` and `DateType` are always rendered as `String` instead). */
  function ConstantText(d: Descriptor): (t: string)
    requires d.StringType? || d.IntType? || d.FloatType? || d.BoolType? || d.JsonType?
    ensures |t| > 0
  {
    match d
    case StringType => "String"
    case IntType => "Int"
    case FloatType => "Float"
    case BoolType => "Boolean"
    case JsonType => "JSON"
  }

  /** A relationship entry: the entity it points to and the two flags the
      generators test on it. */
  datatype Relationship = Relationship(target: string, isArray: bool, isObject: bool)

  /** The field descriptor a relationship entry has the same shape as. */
  function AsDescriptor(r: Relationship): (d: Descriptor)
    ensures d.IsReference() <==> r.isArray || r.isObject
    ensures d.IsReference() ==> d.target == r.target
    ensures d.ArrayOf? <==> r.isArray
  {
    if r.isArray then ArrayOf(r.target)
    else if r.isObject then ObjectOf(r.target)
    else Unflagged
  }
}
