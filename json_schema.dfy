/**
  The part of JSON Schema (draft 2020-12) that the configuration schema uses,
  and nothing more: the validation keywords `type`, `enum`, `const`, `minimum`
  and `required` (sections 6.1.1, 6.1.2, 6.1.3, 6.2.4 and 6.5.3 of JSON Schema
  Validation) and the applicators `oneOf`, `properties` and
  `additionalProperties` (sections 10.2.1.3, 10.3.2.1 and 10.3.2.3 of JSON
  Schema Core). All keywords of a schema apply together; the object keywords
  and `minimum` only constrain instances of their own kind.
*/
module JsonSchema {
  import opened Wrappers
  import opened Json

  /** The primitive types named by the `type` keyword. */
  datatype InstanceType =
    | NullType
    | BooleanType
    | ObjectType
    | ArrayType
    | NumberType
    | StringType
    | IntegerType

  /**
    A schema object restricted to the eight keywords. An absent keyword is
    `None`, the empty set, the empty map or the empty list. `additionalProperties`
    is only ever absent (the `true` schema) or `false` in this subset, so it is a
    flag: `false` closes the object to the names listed under `properties`.
    `oneOf` must be a non-empty list when present, so the empty list means absent.
  */
  datatype Schema = Schema(
    typ: Option<InstanceType>,
    enumValues: Option<seq<Value>>,
    constValue: Option<Value>,
    minimum: Option<int>,
    required: set<string>,
    properties: map<string, Schema>,
    additionalProperties: bool,
    oneOf: seq<Schema>)

  /** The schema with no keywords, which every instance satisfies. */
  const Empty := Schema(None, None, None, None, {}, map[], true, [])

  /** Section 6.1.1: the instance belongs to the named type. Integers are numbers. */
  predicate HasType(v: Value, t: InstanceType) {
    match t
    case NullType => v.JNull?
    case BooleanType => v.JBool?
    case ObjectType => v.JObj?
    case ArrayType => v.JArr?
    case NumberType => v.JInt?
    case StringType => v.JStr?
    case IntegerType => v.JInt?
  }

  /** The instance `v` is valid against the schema `s`. */
  predicate Validates(s: Schema, v: Value)
    decreases s
  {
    && (s.typ.Some? ==> HasType(v, s.typ.value))
    && (s.enumValues.Some? ==> v in s.enumValues.value)
    && (s.constValue.Some? ==> v == s.constValue.value)
    && (s.minimum.Some? && v.JInt? ==> s.minimum.value <= v.i)
    && (v.JObj? ==> ObjectValidates(s, v.fields))
    && (s.oneOf != [] ==> ExactlyOne(s.oneOf, v))
  }

  /** `required`, `properties` and `additionalProperties` on an object instance. */
  predicate ObjectValidates(s: Schema, fields: map<string, Value>)
    decreases s, 0
  {
    && s.required <= fields.Keys
    && (forall k | k in fields && k in s.properties :: Validates(s.properties[k], fields[k]))
    && (s.additionalProperties || fields.Keys <= s.properties.Keys)
  }

  /** Section 10.2.1.3: exactly one of the subschemas accepts the instance. */
  predicate ExactlyOne(schemas: seq<Schema>, v: Value)
    decreases schemas
  {
    exists i | 0 <= i < |schemas| ::
      && Validates(schemas[i], v)
      && forall m | 0 <= m < |schemas| && m != i :: !Validates(schemas[m], v)
  }

  /**
    With two alternatives, `oneOf` accepts exactly when the two alternatives
    disagree: one accepts and the other rejects.
  */
  lemma ExactlyOneOfTwo(a: Schema, b: Schema, v: Value)
    ensures ExactlyOne([a, b], v) <==> (Validates(a, v) != Validates(b, v))
  {
    var schemas := [a, b];
    assert schemas[0] == a && schemas[1] == b;
    if ExactlyOne(schemas, v) {
      var i :| 0 <= i < 2 && Validates(schemas[i], v)
        && forall m | 0 <= m < 2 && m != i :: !Validates(schemas[m], v);
      if i == 0 {
        assert !Validates(schemas[1], v);
      } else {
        assert !Validates(schemas[0], v);
      }
    }
    if Validates(a, v) && !Validates(b, v) {
      assert forall m | 0 <= m < 2 && m != 0 :: !Validates(schemas[m], v);
    }
    if !Validates(a, v) && Validates(b, v) {
      assert forall m | 0 <= m < 2 && m != 1 :: !Validates(schemas[m], v);
    }
  }
}
