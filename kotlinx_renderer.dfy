/**
 * The Kotlin target with kotlinx.serialization: JSON-tree types for arrays and
 * maps of untyped values, `@SerialName` annotations, and the two layouts of an
 * enum class (a value-carrying enum, or a plain enum with a hand-written
 * `KSerializer` for mixed enums).
 */
module KotlinXRenderer {
  import opened Wrappers
  import opened Text
  import opened TypeGraph
  import opened Output

  /**
   * The collaborators of the Kotlin base renderer, which are not part of this
   * model: `stringEscape`, `kotlinType(t, withIssues = false, noOptional)`,
   * the base renderer's `arrayType`, `mapType` and `emitTopLevelMap`, and
   * `camelCase`.
   */
  datatype KotlinEnv = KotlinEnv(
    escape: string -> string,
    kotlinType: (Type, bool) -> string,
    superArrayType: (Type, bool) -> string,
    superMapType: (Type, bool) -> string,
    camelCase: string -> string)

  // ---------------------------------------------------------------------------
  // Types
  // ---------------------------------------------------------------------------

  /** The kotlinx JSON-tree types that stand for an untyped value. */
  predicate IsJsonTree(name: string) {
    name == "JsonObject" || name == "JsonElement"
  }

  /** `anySourceType`: an untyped value is a `JsonElement`, with the optional marker. */
  function AnySourceType(optional: string): (r: string)
    ensures "JsonElement" <= r && r[|"JsonElement"|..] == optional
    ensures optional == "" ==> IsJsonTree(r)
  {
    "JsonElement" + optional
  }

  /**
   * `arrayType`: an array whose element renders (without the optional marker)
   * as a JSON tree is a `JsonArray`; any other array is left to the base renderer.
   */
  function ArrayTypeText(env: KotlinEnv, items: Type, noOptional: bool): string {
    if IsJsonTree(env.kotlinType(items, true)) then "JsonArray"
    else env.superArrayType(items, noOptional)
  }

  /** `mapType`: a map of JSON trees is a `JsonObject`; any other map is left to the base renderer. */
  function MapTypeText(env: KotlinEnv, values: Type, noOptional: bool): string {
    if IsJsonTree(env.kotlinType(values, true)) then "JsonObject"
    else env.superMapType(values, noOptional)
  }

  /**
   * An array of JSON trees is a `JsonArray`, which is not itself a JSON tree:
   * the base renderer decides an array of such arrays. A map of JSON trees
   * is the JSON tree `JsonObject`.
   */
  lemma CollectionsOfJsonTrees(env: KotlinEnv, x: Type, noOptional: bool)
    ensures IsJsonTree(env.kotlinType(x, true)) ==>
      ArrayTypeText(env, x, noOptional) == "JsonArray" && !IsJsonTree(ArrayTypeText(env, x, noOptional))
    ensures IsJsonTree(env.kotlinType(x, true)) ==> IsJsonTree(MapTypeText(env, x, noOptional))
    ensures !IsJsonTree(env.kotlinType(x, true)) ==>
      ArrayTypeText(env, x, noOptional) == env.superArrayType(x, noOptional)
      && MapTypeText(env, x, noOptional) == env.superMapType(x, noOptional)
  {
  }

  // ---------------------------------------------------------------------------
  // @SerialName
  // ---------------------------------------------------------------------------

  const SerialNameOpen := "@SerialName(\""
  const SerialNameClose := "\")"

  /** `_rename`: a `@SerialName` annotation exactly when the property name is not the escaped JSON name. */
  function Rename(env: KotlinEnv, propName: string, jsonName: string): (r: Option<string>)
    ensures r.Some? <==> propName != env.escape(jsonName)
  {
    var escapedName := env.escape(jsonName);
    if propName != escapedName then Some(SerialNameOpen + escapedName + SerialNameClose)
    else None
  }

  /**
   * The JSON key kotlinx uses for a property: the argument of its
   * `@SerialName` annotation, or the property name when there is none.
   */
  function SerializedKey(propName: string, annotation: Option<string>): string {
    match annotation
    case None => propName
    case Some(a) =>
      if |a| >= |SerialNameOpen| + |SerialNameClose| then a[|SerialNameOpen|..|a| - |SerialNameClose|]
      else propName
  }

  /** With or without the annotation, the property is read and written under its escaped JSON name. */
  lemma RenameKeepsJsonName(env: KotlinEnv, propName: string, jsonName: string)
    ensures SerializedKey(propName, Rename(env, propName, jsonName)) == env.escape(jsonName)
  {
    var escapedName := env.escape(jsonName);
    if propName != escapedName {
      var a := SerialNameOpen + escapedName + SerialNameClose;
      assert a[|SerialNameOpen|..|a| - |SerialNameClose|] == escapedName;
    }
  }

  // ---------------------------------------------------------------------------
  // Enums
  // ---------------------------------------------------------------------------

  /** The constructor parameter type of a value-carrying enum class. */
  function ValueTypeName(valueType: EnumValueType): (r: string)
    ensures valueType == NumberValues <==> r == "Int"
    ensures valueType == BooleanValues <==> r == "Boolean"
    ensures valueType == StringValues || valueType == OtherValues <==> r == "String"
  {
    match valueType
    case NumberValues => "Int"
    case BooleanValues => "Boolean"
    case _ => "String"
  }

  /** The line of one case of a value-carrying enum: serial name, case name, value and terminator. */
  function ValueCaseLine(env: KotlinEnv, valueType: EnumValueType, c: EnumCase, last: bool): string {
    var terminator := if last then ";" else ",";
    if valueType == StringValues then
      var escapedValue := env.escape(ValueText(c.value));
      SerialNameOpen + escapedValue + "\") " + c.name + "(\"" + escapedValue + "\")" + terminator
    else
      SerialNameOpen + ValueText(c.value) + "\") " + c.name + "(" + ValueText(c.value) + ")" + terminator
  }

  /**
   * The case lines of a value-carrying enum, one per case in order, or none
   * for a value type that is neither string, number nor boolean.
   */
  function ValueCaseLines(env: KotlinEnv, valueType: EnumValueType, cases: seq<EnumCase>): (r: seq<string>)
    ensures valueType != OtherValues ==> |r| == |cases|
    ensures valueType == OtherValues ==> r == []
  {
    if valueType == OtherValues then []
    else seq(|cases|, i requires 0 <= i < |cases| => ValueCaseLine(env, valueType, cases[i], i == |cases| - 1))
  }

  /** Every case line but the last ends with `,`; the last one ends with `;`. */
  lemma ValueCaseSeparators(env: KotlinEnv, valueType: EnumValueType, cases: seq<EnumCase>)
    requires valueType != OtherValues
    ensures var lines := ValueCaseLines(env, valueType, cases);
      forall i :: 0 <= i < |lines| ==>
        |lines[i]| > 0 && lines[i][|lines[i]| - 1] == (if i == |lines| - 1 then ';' else ',')
  {
    var lines := ValueCaseLines(env, valueType, cases);
    forall i | 0 <= i < |lines|
      ensures |lines[i]| > 0 && lines[i][|lines[i]| - 1] == (if i == |lines| - 1 then ';' else ',')
    {
      var c := cases[i];
      var terminator := if i == |cases| - 1 then ";" else ",";
      var body := if valueType == StringValues then
        var escapedValue := env.escape(ValueText(c.value));
        SerialNameOpen + escapedValue + "\") " + c.name + "(\"" + escapedValue + "\")"
      else
        SerialNameOpen + ValueText(c.value) + "\") " + c.name + "(" + ValueText(c.value) + ")";
      assert lines[i] == body + terminator;
    }
  }

  /** Every line of a value-carrying enum carries the case's value as its serial name. */
  lemma ValueCaseSerialNames(env: KotlinEnv, valueType: EnumValueType, cases: seq<EnumCase>)
    requires valueType != OtherValues
    ensures var lines := ValueCaseLines(env, valueType, cases);
      forall i :: 0 <= i < |lines| ==>
        var serialName := if valueType == StringValues then env.escape(ValueText(cases[i].value)) else ValueText(cases[i].value);
        SerialNameOpen + serialName + "\") " <= lines[i]
  {
  }

  /** The case lines of a mixed enum: the case names, separated by `,`, the last without terminator. */
  function MixedCaseLines(cases: seq<EnumCase>): (r: seq<string>)
    ensures |r| == |cases|
  {
    seq(|cases|, i requires 0 <= i < |cases| => cases[i].name + (if i == |cases| - 1 then "" else ","))
  }

  lemma MixedCaseSeparators(cases: seq<EnumCase>)
    ensures var lines := MixedCaseLines(cases);
      forall i :: 0 <= i < |lines| - 1 ==> lines[i] == cases[i].name + ","
    ensures |cases| > 0 ==> MixedCaseLines(cases)[|cases| - 1] == cases[|cases| - 1].name
  {
  }

  /**
   * The JSON primitive that stands for a case value in the custom serializer:
   * an escaped, quoted string, or `String(value)` for numbers and booleans.
   */
  function PrimitiveLiteral(env: KotlinEnv, v: CaseValue): string {
    match v
    case StrValue(s) => "\"" + env.escape(s) + "\""
    case _ => ValueText(v)
  }

  /** The `JsonPrimitive` accessor the deserializer compares for a case value. */
  function Accessor(v: CaseValue): string {
    match v
    case StrValue(_) => "contentOrNull"
    case NumValue(n) => if n.isInteger then "intOrNull" else "doubleOrNull"
    case BoolValue(_) => "booleanOrNull"
  }

  const EncodePrimitive := " -> jsonEncoder.encodeJsonElement(JsonPrimitive("

  /** The `when (value)` arm of `serialize` for one case. */
  function SerializeArm(env: KotlinEnv, enumName: string, c: EnumCase): string {
    match c.value
    case StrValue(s) => enumName + "." + c.name + EncodePrimitive + "\"" + env.escape(s) + "\"))"
    case NumValue(_) => enumName + "." + c.name + EncodePrimitive + ValueText(c.value) + "))"
    case BoolValue(_) => enumName + "." + c.name + EncodePrimitive + ValueText(c.value) + "))"
  }

  /** The `when` arm of `deserialize` for one case. */
  function DeserializeArm(env: KotlinEnv, enumName: string, c: EnumCase): string {
    match c.value
    case StrValue(s) => "element.contentOrNull == \"" + env.escape(s) + "\" -> " + enumName + "." + c.name
    case NumValue(n) =>
      if n.isInteger then "element.intOrNull == " + ValueText(c.value) + " -> " + enumName + "." + c.name
      else "element.doubleOrNull == " + ValueText(c.value) + " -> " + enumName + "." + c.name
    case BoolValue(_) => "element.booleanOrNull == " + ValueText(c.value) + " -> " + enumName + "." + c.name
  }

  /**
   * The serializer writes a case as the JSON primitive `PrimitiveLiteral`:
   * the escaped string in quotes, or the number or boolean text.
   */
  lemma SerializeArmLiteral(env: KotlinEnv, enumName: string, c: EnumCase)
    ensures SerializeArm(env, enumName, c)
      == enumName + "." + c.name + EncodePrimitive + PrimitiveLiteral(env, c.value) + "))"
  {
    if c.value.StrValue? {
      var head := enumName + "." + c.name + EncodePrimitive;
      var e := env.escape(c.value.s);
      AppendAssoc(head, "\"" + e, "\"");
      AppendAssoc(head + ("\"" + e), "\"", "))");
      AppendAssoc(head, "\"", e);
    }
  }

  /**
   * The deserializer compares the same `PrimitiveLiteral` the serializer
   * writes, through the accessor that fits the value's kind: `contentOrNull`
   * for strings, `intOrNull` for integers, `doubleOrNull` for other numbers and
   * `booleanOrNull` for booleans.
   */
  lemma DeserializeArmLiteral(env: KotlinEnv, enumName: string, c: EnumCase)
    ensures DeserializeArm(env, enumName, c)
      == "element." + Accessor(c.value) + " == " + PrimitiveLiteral(env, c.value) + " -> " + enumName + "." + c.name
  {
    match c.value {
      case StrValue(s) =>
        var e := env.escape(s);
        StringComparison(e);
        assert DeserializeArm(env, enumName, c) == "element.contentOrNull == \"" + e + "\" -> " + enumName + "." + c.name;
      case NumValue(n) =>
        var t := ValueText(c.value);
        if n.isInteger {
          assert "element.intOrNull == " == "element." + "intOrNull" + " == ";
          assert DeserializeArm(env, enumName, c) == "element.intOrNull == " + t + " -> " + enumName + "." + c.name;
        } else {
          assert "element.doubleOrNull == " == "element." + "doubleOrNull" + " == ";
          assert DeserializeArm(env, enumName, c) == "element.doubleOrNull == " + t + " -> " + enumName + "." + c.name;
        }
      case BoolValue(_) =>
        var t := ValueText(c.value);
        assert "element.booleanOrNull == " == "element." + "booleanOrNull" + " == ";
        assert DeserializeArm(env, enumName, c) == "element.booleanOrNull == " + t + " -> " + enumName + "." + c.name;
    }
  }

  /** The string comparison, regrouped around the quoted literal. */
  lemma StringComparison(e: string)
    ensures "element.contentOrNull == \"" + e + "\" -> "
      == "element." + "contentOrNull" + " == " + ("\"" + e + "\"") + " -> "
  {
    assert "element.contentOrNull == \"" == "element." + "contentOrNull" + " == " + "\"";
    assert "\" -> " == "\"" + " -> ";
    AppendAssoc("element.contentOrNull == \"" + e, "\"", " -> ");
    AppendAssoc("element.contentOrNull == ", "\"", e);
    AppendAssoc("element.contentOrNull == ", "\"" + e, "\"");
  }

  function SerializeArms(env: KotlinEnv, enumName: string, cases: seq<EnumCase>): (r: seq<string>)
    ensures |r| == |cases|
  {
    seq(|cases|, i requires 0 <= i < |cases| => SerializeArm(env, enumName, cases[i]))
  }

  function DeserializeArms(env: KotlinEnv, enumName: string, cases: seq<EnumCase>): (r: seq<string>)
    ensures |r| == |cases|
  {
    seq(|cases|, i requires 0 <= i < |cases| => DeserializeArm(env, enumName, cases[i]))
  }

  const DescriptorOpen := "override val descriptor: SerialDescriptor = PrimitiveSerialDescriptor(\""
  const DescriptorClose := "\", PrimitiveKind.STRING)"
  const SerializeOpen := "override fun serialize(encoder: Encoder, value: "
  const EncoderCast := "val jsonEncoder = encoder as JsonEncoder"
  const DeserializeOpen := "override fun deserialize(decoder: Decoder): "
  const DecoderCast := "val jsonDecoder = decoder as JsonDecoder"
  const DecodeElement := "return when (val element = jsonDecoder.decodeJsonElement()) {"
  const UnknownValue := "else -> throw SerializationException(\"Unknown value: $element\")"
  const NotPrimitive := "else -> throw SerializationException(\"Expected primitive value\")"

  /** The enum class of a mixed enum: the serializer annotation and the case names. */
  function MixedEnumClassLines(enumName: string, cases: seq<EnumCase>): seq<string> {
    ["@Serializable(with = " + enumName + "Serializer::class)", "enum class " + enumName + " {"]
      + MixedCaseLines(cases) + ["}"]
  }

  /** The `serialize` function of the custom serializer. */
  function SerializeFunLines(env: KotlinEnv, enumName: string, cases: seq<EnumCase>): seq<string> {
    [SerializeOpen + enumName + ") {", EncoderCast, "when (value) {"]
      + SerializeArms(env, enumName, cases) + ["}", "}"]
  }

  /** The `deserialize` function of the custom serializer. */
  function DeserializeFunLines(env: KotlinEnv, enumName: string, cases: seq<EnumCase>): seq<string> {
    [DeserializeOpen + enumName + " {", DecoderCast, DecodeElement, "is JsonPrimitive -> {", "when {"]
      + DeserializeArms(env, enumName, cases)
      + [UnknownValue, "}", "}", NotPrimitive, "}", "}"]
  }

  /** The object declaration and the primitive descriptor of the custom serializer. */
  function SerializerHeadLines(enumName: string): seq<string> {
    ["object " + enumName + "Serializer : KSerializer<" + enumName + ">", " {", DescriptorOpen + enumName + DescriptorClose]
  }

  /** The custom `KSerializer` object of a mixed enum. */
  function SerializerObjectLines(env: KotlinEnv, enumName: string, cases: seq<EnumCase>): seq<string> {
    SerializerHeadLines(enumName) + SerializeFunLines(env, enumName, cases) + DeserializeFunLines(env, enumName, cases) + ["}"]
  }

  /** A value-carrying enum class. */
  function ValueEnumLines(env: KotlinEnv, e: EnumDef, enumName: string): seq<string> {
    ["@Serializable", "enum class " + enumName + "(val value: " + ValueTypeName(e.valueType) + ") {"]
      + ValueCaseLines(env, e.valueType, e.cases) + ["}"]
  }

  /** Everything `emitEnumDefinition` emits, apart from the description. */
  function EnumLines(env: KotlinEnv, e: EnumDef, enumName: string): (r: seq<string>)
    ensures |r| >= 3
    ensures r[0] == (if e.isMixed then "@Serializable(with = " + enumName + "Serializer::class)" else "@Serializable")
  {
    if e.isMixed then MixedEnumClassLines(enumName, e.cases) + SerializerObjectLines(env, enumName, e.cases)
    else ValueEnumLines(env, e, enumName)
  }

  /**
   * Every case of a mixed enum gets exactly one serialize arm and one
   * deserialize arm, in case order, and the deserializer's last two arms
   * reject unknown primitives and non-primitives.
   */
  lemma MixedSerializerCoversCases(env: KotlinEnv, enumName: string, cases: seq<EnumCase>)
    ensures var lines := SerializeFunLines(env, enumName, cases);
      |lines| == |cases| + 5 && forall i :: 0 <= i < |cases| ==> lines[i + 3] == SerializeArm(env, enumName, cases[i])
    ensures var lines := DeserializeFunLines(env, enumName, cases);
      && |lines| == |cases| + 11
      && (forall i :: 0 <= i < |cases| ==> lines[i + 5] == DeserializeArm(env, enumName, cases[i]))
      && lines[|cases| + 5] == UnknownValue
      && lines[|cases| + 8] == NotPrimitive
  {
    var s := SerializeFunLines(env, enumName, cases);
    var sHead := [SerializeOpen + enumName + ") {", EncoderCast, "when (value) {"];
    assert s == sHead + SerializeArms(env, enumName, cases) + ["}", "}"];
    var d := DeserializeFunLines(env, enumName, cases);
    var dHead := [DeserializeOpen + enumName + " {", DecoderCast, DecodeElement, "is JsonPrimitive -> {", "when {"];
    var dTail := [UnknownValue, "}", "}", NotPrimitive, "}", "}"];
    assert d == dHead + DeserializeArms(env, enumName, cases) + dTail;
    assert d[|cases| + 5] == dTail[0];
    assert d[|cases| + 8] == dTail[3];
  }

  /** `emitUsageHeader`: the comment lines that show how to parse each top-level. */
  function UsageHeaderLines(env: KotlinEnv, topLevelNames: seq<string>): (r: seq<string>)
    ensures |r| == |topLevelNames| + 3
  {
    [UsageIntro, "//", "// val json = Json { allowStructuredMapKeys = true }"]
      + seq(|topLevelNames|, i requires 0 <= i < |topLevelNames| => UsageLine(env, topLevelNames[i]))
  }

  const UsageIntro := "// To parse the JSON, install kotlin's serialization plugin and do:"

  function UsageLine(env: KotlinEnv, name: string): string {
    "// val " + env.camelCase(name) + " = json.parse(" + name + ".serializer(), jsonString)"
  }

  const Imports: seq<string> := [
    "import kotlinx.serialization.*",
    "import kotlinx.serialization.json.*",
    "import kotlinx.serialization.descriptors.*",
    "import kotlinx.serialization.encoding.*"]

  // ---------------------------------------------------------------------------
  // The renderer
  // ---------------------------------------------------------------------------

  class KotlinXRenderer {
    const env: KotlinEnv
    const out: LineBuffer

    constructor (env: KotlinEnv, out: LineBuffer)
      ensures this.env == env && this.out == out
    {
      this.env := env;
      this.out := out;
    }

    /** `emitTopLevelMap`: a map of `JsonObject` values is an alias of `JsonObject`. */
    method EmitTopLevelMap(values: Type, name: string, superLines: seq<string>)
      modifies out
      ensures env.kotlinType(values, false) == "JsonObject" ==>
        out.lines == old(out.lines) + ["typealias " + name + " = JsonObject"]
      ensures env.kotlinType(values, false) != "JsonObject" ==>
        out.lines == old(out.lines) + superLines
    {
      var elementType := env.kotlinType(values, false);
      if elementType == "JsonObject" {
        out.EmitLine("typealias " + name + " = JsonObject");
      } else {
        EmitLines(superLines);
      }
    }

    /** The lines the base renderer emits, emitted unchanged. */
    method EmitLines(lines: seq<string>)
      modifies out
      ensures out.lines == old(out.lines) + lines
    {
      ghost var start := out.lines;
      var i := 0;
      while i < |lines|
        invariant 0 <= i <= |lines|
        invariant out.lines == start + lines[..i]
      {
        out.EmitLine(lines[i]);
        AppendAssoc(start, lines[..i], [lines[i]]);
        assert lines[..i + 1] == lines[..i] + [lines[i]];
        i := i + 1;
      }
      assert lines[..i] == lines;
    }

    /** `emitTopLevelArray`: every top-level array is an alias of a `JsonArray`. */
    method EmitTopLevelArray(items: Type, name: string)
      modifies out
      ensures out.lines == old(out.lines) + ["typealias " + name + " = JsonArray<" + env.kotlinType(items, false) + ">"]
    {
      var elementType := env.kotlinType(items, false);
      out.EmitLine("typealias " + name + " = JsonArray<" + elementType + ">");
    }

    /** `emitUsageHeader`, one line per top-level. */
    method EmitUsageHeader(topLevelNames: seq<string>)
      modifies out
      ensures out.lines == old(out.lines) + UsageHeaderLines(env, topLevelNames)
    {
      ghost var start := out.lines;
      out.EmitLine(UsageIntro);
      out.EmitLine("//");
      out.EmitLine("// val json = Json { allowStructuredMapKeys = true }");
      ghost var head := [UsageIntro, "//", "// val json = Json { allowStructuredMapKeys = true }"];
      ghost var rows := UsageHeaderLines(env, topLevelNames)[3..];
      assert UsageHeaderLines(env, topLevelNames) == head + rows;
      var i := 0;
      while i < |topLevelNames|
        invariant 0 <= i <= |topLevelNames|
        invariant out.lines == start + (head + rows[..i])
      {
        out.EmitLine(UsageLine(env, topLevelNames[i]));
        AppendAssoc(start, head + rows[..i], [rows[i]]);
        AppendAssoc(head, rows[..i], [rows[i]]);
        assert rows[..i + 1] == rows[..i] + [rows[i]];
        i := i + 1;
      }
      assert rows[..i] == rows;
    }

    /** `emitHeader`: the base renderer's header, then the kotlinx imports. */
    method EmitHeader(superLines: seq<string>)
      modifies out
      ensures out.lines == old(out.lines) + superLines + Imports
    {
      ghost var start := out.lines;
      EmitLines(superLines);
      out.EmitLine("import kotlinx.serialization.*");
      out.EmitLine("import kotlinx.serialization.json.*");
      out.EmitLine("import kotlinx.serialization.descriptors.*");
      out.EmitLine("import kotlinx.serialization.encoding.*");
      AppendAssoc(start, superLines, Imports);
    }

    /** `emitClassAnnotations`. */
    method EmitClassAnnotations()
      modifies out
      ensures out.lines == old(out.lines) + ["@Serializable"]
    {
      out.EmitLine("@Serializable");
    }

    /**
     * `renameAttribute`: defers at most one annotation line, the
     * `@SerialName` one, by pushing it onto `meta`.
     */
    method RenameAttribute(name: string, jsonName: string, meta: LineBuffer)
      modifies meta
      ensures |meta.lines| <= |old(meta.lines)| + 1
      ensures meta.lines == old(meta.lines) + (match Rename(env, name, jsonName) case Some(a) => [a] case None => [])
    {
      var rename := Rename(env, name, jsonName);
      if rename.Some? {
        meta.EmitLine(rename.value);
      }
    }

    method EmitEnumDefinition(e: EnumDef, enumName: string)
      modifies out
      ensures out.lines == old(out.lines) + EnumLines(env, e, enumName)
    {
      if e.isMixed {
        ghost var start := out.lines;
        EmitMixedEnumClass(e.cases, enumName);
        EmitSerializerObject(e.cases, enumName);
        AppendAssoc(start, MixedEnumClassLines(enumName, e.cases), SerializerObjectLines(env, enumName, e.cases));
        return;
      }
      EmitValueEnum(e, enumName);
    }

    /** The enum class of a mixed enum; `count` counts down the cases still to come. */
    method EmitMixedEnumClass(cases: seq<EnumCase>, enumName: string)
      modifies out
      ensures out.lines == old(out.lines) + MixedEnumClassLines(enumName, cases)
    {
      ghost var start := out.lines;
      out.EmitLine("@Serializable(with = " + enumName + "Serializer::class)");
      out.EmitLine("enum class " + enumName + " {");
      ghost var head := ["@Serializable(with = " + enumName + "Serializer::class)", "enum class " + enumName + " {"];
      ghost var lines := MixedCaseLines(cases);
      var count := |cases|;
      var i := 0;
      while i < |cases|
        invariant 0 <= i <= |cases|
        invariant count == |cases| - i
        invariant out.lines == start + (head + lines[..i])
      {
        count := count - 1;
        out.EmitLine(cases[i].name + (if count == 0 then "" else ","));
        AppendAssoc(start, head + lines[..i], [lines[i]]);
        AppendAssoc(head, lines[..i], [lines[i]]);
        assert lines[..i + 1] == lines[..i] + [lines[i]];
        i := i + 1;
      }
      assert lines[..i] == lines;
      out.EmitLine("}");
      AppendAssoc(start, head + lines, ["}"]);
    }

    /** The custom `KSerializer` object of a mixed enum. */
    method EmitSerializerObject(cases: seq<EnumCase>, enumName: string)
      modifies out
      ensures out.lines == old(out.lines) + SerializerObjectLines(env, enumName, cases)
    {
      ghost var start := out.lines;
      EmitSerializerHead(enumName);
      ghost var head := SerializerHeadLines(enumName);
      EmitSerializeFun(cases, enumName);
      AppendAssoc(start, head, SerializeFunLines(env, enumName, cases));
      head := head + SerializeFunLines(env, enumName, cases);
      EmitDeserializeFun(cases, enumName);
      AppendAssoc(start, head, DeserializeFunLines(env, enumName, cases));
      head := head + DeserializeFunLines(env, enumName, cases);
      out.EmitLine("}");
      AppendAssoc(start, head, ["}"]);
    }

    method EmitSerializerHead(enumName: string)
      modifies out
      ensures out.lines == old(out.lines) + SerializerHeadLines(enumName)
    {
      out.EmitLine("object " + enumName + "Serializer : KSerializer<" + enumName + ">");
      out.EmitLine(" {");
      out.EmitLine(DescriptorOpen + enumName + DescriptorClose);
    }

    method EmitSerializeFun(cases: seq<EnumCase>, enumName: string)
      modifies out
      ensures out.lines == old(out.lines) + SerializeFunLines(env, enumName, cases)
    {
      ghost var start := out.lines;
      out.EmitLine(SerializeOpen + enumName + ") {");
      out.EmitLine(EncoderCast);
      out.EmitLine("when (value) {");
      ghost var head := [SerializeOpen + enumName + ") {", EncoderCast, "when (value) {"];
      ghost var arms := SerializeArms(env, enumName, cases);
      var i := 0;
      while i < |cases|
        invariant 0 <= i <= |cases|
        invariant out.lines == start + (head + arms[..i])
      {
        var c := cases[i];
        match c.value {
          case StrValue(s) =>
            out.EmitLine(enumName + "." + c.name + EncodePrimitive + "\"" + env.escape(s) + "\"))");
          case NumValue(_) =>
            out.EmitLine(enumName + "." + c.name + EncodePrimitive + ValueText(c.value) + "))");
          case BoolValue(_) =>
            out.EmitLine(enumName + "." + c.name + EncodePrimitive + ValueText(c.value) + "))");
        }
        AppendAssoc(start, head + arms[..i], [arms[i]]);
        AppendAssoc(head, arms[..i], [arms[i]]);
        assert arms[..i + 1] == arms[..i] + [arms[i]];
        i := i + 1;
      }
      assert arms[..i] == arms;
      head := head + arms;
      out.EmitLine("}");
      AppendAssoc(start, head, ["}"]);
      head := head + ["}"];
      out.EmitLine("}");
      AppendAssoc(start, head, ["}"]);
    }

    method EmitDeserializeFun(cases: seq<EnumCase>, enumName: string)
      modifies out
      ensures out.lines == old(out.lines) + DeserializeFunLines(env, enumName, cases)
    {
      ghost var start := out.lines;
      out.EmitLine(DeserializeOpen + enumName + " {");
      out.EmitLine(DecoderCast);
      out.EmitLine(DecodeElement);
      out.EmitLine("is JsonPrimitive -> {");
      out.EmitLine("when {");
      ghost var head := [DeserializeOpen + enumName + " {", DecoderCast, DecodeElement, "is JsonPrimitive -> {", "when {"];
      ghost var arms := DeserializeArms(env, enumName, cases);
      var i := 0;
      while i < |cases|
        invariant 0 <= i <= |cases|
        invariant out.lines == start + (head + arms[..i])
      {
        var c := cases[i];
        match c.value {
          case StrValue(s) =>
            out.EmitLine("element.contentOrNull == \"" + env.escape(s) + "\" -> " + enumName + "." + c.name);
          case NumValue(n) =>
            if n.isInteger {
              out.EmitLine("element.intOrNull == " + ValueText(c.value) + " -> " + enumName + "." + c.name);
            } else {
              out.EmitLine("element.doubleOrNull == " + ValueText(c.value) + " -> " + enumName + "." + c.name);
            }
          case BoolValue(_) =>
            out.EmitLine("element.booleanOrNull == " + ValueText(c.value) + " -> " + enumName + "." + c.name);
        }
        AppendAssoc(start, head + arms[..i], [arms[i]]);
        AppendAssoc(head, arms[..i], [arms[i]]);
        assert arms[..i + 1] == arms[..i] + [arms[i]];
        i := i + 1;
      }
      assert arms[..i] == arms;
      head := head + arms;
      EmitDeserializeTail();
      AppendAssoc(start, head, [UnknownValue, "}", "}", NotPrimitive, "}", "}"]);
    }

    /** The closing arms and braces of `deserialize`. */
    method EmitDeserializeTail()
      modifies out
      ensures out.lines == old(out.lines) + [UnknownValue, "}", "}", NotPrimitive, "}", "}"]
    {
      out.EmitLine(UnknownValue);
      out.EmitLine("}");
      out.EmitLine("}");
      out.EmitLine(NotPrimitive);
      out.EmitLine("}");
      out.EmitLine("}");
    }

    /** A value-carrying enum class; `count` counts down the cases still to come. */
    method EmitValueEnum(e: EnumDef, enumName: string)
      requires !e.isMixed
      modifies out
      ensures out.lines == old(out.lines) + ValueEnumLines(env, e, enumName)
    {
      ghost var start := out.lines;
      var valueType := if e.valueType == NumberValues then "Int"
        else if e.valueType == BooleanValues then "Boolean" else "String";
      out.EmitLine("@Serializable");
      out.EmitLine("enum class " + enumName + "(val value: " + valueType + ") {");
      ghost var head := ["@Serializable", "enum class " + enumName + "(val value: " + valueType + ") {"];
      ghost var lines := ValueCaseLines(env, e.valueType, e.cases);
      var count := |e.cases|;
      var i := 0;
      while i < |e.cases|
        invariant 0 <= i <= |e.cases|
        invariant e.valueType != OtherValues ==> count == |e.cases| - i
        invariant e.valueType != OtherValues ==> out.lines == start + (head + lines[..i])
        invariant e.valueType == OtherValues ==> out.lines == start + head
      {
        var c := e.cases[i];
        if e.valueType == StringValues {
          var escapedValue := env.escape(ValueText(c.value));
          count := count - 1;
          out.EmitLine(SerialNameOpen + escapedValue + "\") " + c.name + "(\"" + escapedValue + "\")" + (if count == 0 then ";" else ","));
        } else if e.valueType == NumberValues {
          count := count - 1;
          out.EmitLine(SerialNameOpen + ValueText(c.value) + "\") " + c.name + "(" + ValueText(c.value) + ")" + (if count == 0 then ";" else ","));
        } else if e.valueType == BooleanValues {
          count := count - 1;
          out.EmitLine(SerialNameOpen + ValueText(c.value) + "\") " + c.name + "(" + ValueText(c.value) + ")" + (if count == 0 then ";" else ","));
        }
        if e.valueType != OtherValues {
          AppendAssoc(start, head + lines[..i], [lines[i]]);
          AppendAssoc(head, lines[..i], [lines[i]]);
          assert lines[..i + 1] == lines[..i] + [lines[i]];
        }
        i := i + 1;
      }
      if e.valueType != OtherValues {
        assert lines[..i] == lines;
      }
      head := head + lines;
      out.EmitLine("}");
      AppendAssoc(start, head, ["}"]);
    }
  }
}
