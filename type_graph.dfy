/**
 * The type graph as the renderers see it: the eleven type variants, the
 * definitions of enums and classes, and the two union helpers every renderer
 * uses to recognise optional values.
 *
 * A class, enum or union node carries the identifier the naming engine resolved
 * for it (what `nameForNamedType` returns); the members of a class and the
 * cases of an enum are given by separate definitions, so a recursive class is
 * referred to by name and the datatype stays finite.
 */
module TypeGraph {
  import opened Wrappers

  /** The closed set of type variants; `match` on it is the exhaustive `matchType`. */
  datatype Type =
    | AnyType
    | NullType
    | BoolType
    | IntegerType
    | DoubleType
    | StringType
    | ArrayType(items: Type)
    | ClassType(className: string)
    | MapType(values: Type)
    | EnumType(enumName: string)
    | UnionType(unionName: string, members: seq<Type>)

  /** `t.kind`. */
  datatype TypeKind = KAny | KNull | KBool | KInteger | KDouble | KString | KArray | KClass | KMap | KEnum | KUnion

  function Kind(t: Type): (k: TypeKind)
    ensures k == KArray <==> t.ArrayType?
    ensures k == KMap <==> t.MapType?
    ensures k == KUnion <==> t.UnionType?
  {
    match t
    case AnyType => KAny
    case NullType => KNull
    case BoolType => KBool
    case IntegerType => KInteger
    case DoubleType => KDouble
    case StringType => KString
    case ArrayType(_) => KArray
    case ClassType(_) => KClass
    case MapType(_) => KMap
    case EnumType(_) => KEnum
    case UnionType(_, _) => KUnion
  }

  /** `isNamedType`: the variants that own a name. */
  predicate IsNamedType(t: Type) {
    t.ClassType? || t.EnumType? || t.UnionType?
  }

  /**
   * Returns `(hasNull, nonNulls)`: whether a union has a `null` member, and its
   * non-null members in iteration order (`removeNullFromUnion`). The members
   * of a union form a set: an entry repeated in `members` is the same member,
   * so each non-null member is kept once, where it was first inserted.
   */
  function RemoveNull(members: seq<Type>): (r: (bool, seq<Type>))
    ensures r.0 <==> NullType in members
    ensures forall m :: m in r.1 <==> m in members && m != NullType
    ensures forall i, j :: 0 <= i < j < |r.1| ==> r.1[i] != r.1[j]
    ensures |r.1| <= |members|
    decreases |members|
  {
    if |members| == 0 then (false, [])
    else
      var front := members[..|members| - 1];
      var last := members[|members| - 1];
      var rest := RemoveNull(front);
      assert members == front + [last];
      if last == NullType || last in rest.1 then (rest.0 || last == NullType, rest.1)
      else (rest.0, rest.1 + [last])
  }

  /**
   * `nullableFromUnion`: the single non-null member of a union whose member
   * set is exactly `{T, null}`, or `None` for any other union.
   */
  function NullableFromUnion(members: seq<Type>): (r: Option<Type>)
    ensures r.Some? <==> NullType in members && |RemoveNull(members).1| == 1
    ensures r.Some? ==> r.value in members && r.value != NullType
    ensures r.Some? ==> forall m :: m in members ==> m == NullType || m == r.value
  {
    var (hasNull, nonNulls) := RemoveNull(members);
    if hasNull && |nonNulls| == 1 then
      assert nonNulls[0] in nonNulls;
      Some(nonNulls[0])
    else None
  }

  /**
   * Inserting a member the union already has changes nothing: `{T, T, null}`
   * is the nullable union `{T, null}`.
   */
  lemma RepeatedMember(members: seq<Type>, t: Type)
    requires t in members
    ensures RemoveNull(members + [t]) == RemoveNull(members)
    ensures NullableFromUnion(members + [t]) == NullableFromUnion(members)
  {
    assert (members + [t])[..|members|] == members;
  }

  /** A number case value: its `String(value)` text and whether `Number.isInteger` holds. */
  datatype Number = Number(text: NonEmptyText, isInteger: bool)

  type NonEmptyText = s: string | |s| > 0 witness "0"

  /** The value of one enum case: a string, a number or a boolean. */
  datatype CaseValue = StrValue(s: string) | NumValue(n: Number) | BoolValue(b: bool)

  /** `String(value)`. */
  function ValueText(v: CaseValue): (r: string)
    ensures v.StrValue? ==> r == v.s
    ensures r != "" || v.StrValue?
  {
    match v
    case StrValue(s) => s
    case NumValue(n) => n.text
    case BoolValue(b) => if b then "true" else "false"
  }

  /** `e.valueType`: the tag for enums whose cases share one kind of value. */
  datatype EnumValueType = StringValues | NumberValues | BooleanValues | OtherValues

  /** One case as `forEachEnumCase` yields it: its resolved name and its value. */
  datatype EnumCase = EnumCase(name: string, value: CaseValue)

  /**
   * An enum: its cases in iteration order, the shared value type and
   * `isMixed`. The source keeps the case values in a set, so a well-formed
   * enum has `DistinctCaseValues(cases)` and `e.cases.size` is `|cases|`.
   */
  datatype EnumDef = EnumDef(cases: seq<EnumCase>, valueType: EnumValueType, isMixed: bool)

  /** No two cases carry the same value, as in the source's set of case values. */
  predicate DistinctCaseValues(cases: seq<EnumCase>) {
    forall i, j :: 0 <= i < j < |cases| ==> cases[i].value != cases[j].value
  }

  /** One class property as `forEachClassProperty` yields it. */
  datatype Property = Property(name: string, jsonName: string, propType: Type)

  predicate HasStringCase(cases: seq<EnumCase>) {
    exists i :: 0 <= i < |cases| && cases[i].value.StrValue?
  }

  predicate HasNumberCase(cases: seq<EnumCase>) {
    exists i :: 0 <= i < |cases| && cases[i].value.NumValue?
  }

  predicate HasBooleanCase(cases: seq<EnumCase>) {
    exists i :: 0 <= i < |cases| && cases[i].value.BoolValue?
  }
}
