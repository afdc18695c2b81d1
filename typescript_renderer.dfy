/**
 * The TypeScript target: the `Convert` class's function signatures, the
 * import comment, enums as union types or TypeScript enums, and class blocks
 * as interfaces or type aliases.
 */
module TypeScriptRenderer {
  import opened Text
  import opened TypeGraph
  import opened Output
  import opened TsFlow

  /** `forbiddenNamesForGlobalNamespace`. */
  const ForbiddenNames: seq<string> := ["Array", "Date"]

  /** `moduleLine`: the converter functions live in one exported class. */
  const ModuleLine := "export class Convert"

  /** The type of the raw JSON side of the converters. */
  function RawTypeName(rawType: RawType): (r: string)
    ensures r == "string" <==> rawType == JsonRaw
    ensures rawType == AnyRaw ==> r == "any"
  {
    if rawType == JsonRaw then "string" else "any"
  }

  const ToOpen := "public static to"
  const JsonParam := "(json: "
  const ToJsonParam := "ToJson(value: "

  /** `deserializerFunctionLine`: `public static to<Name>(json: <raw>): <type>`. */
  function DeserializerFunctionLine(options: TsFlowOptions, name: string, source: string): string {
    ToOpen + name + JsonParam + RawTypeName(options.rawType) + "): " + source
  }

  /** `serializerFunctionLine`: `public static <name>ToJson(value: <type>): <raw>`. */
  function SerializerFunctionLine(env: TsFlowEnv, options: TsFlowOptions, name: string, source: string): string {
    "public static " + env.camelCase(name) + ToJsonParam + source + "): " + RawTypeName(options.rawType)
  }

  /**
   * The two converters of a top-level are inverse in their types: the
   * deserializer's parameter is the serializer's result, both are the raw
   * type (`string` exactly when the raw type is JSON), and the deserializer's
   * result is the serializer's parameter.
   */
  lemma ConvertersAreInverse(env: TsFlowEnv, options: TsFlowOptions, name: string, source: string)
    ensures var d := DeserializerFunctionLine(options, name, source);
      var s := SerializerFunctionLine(env, options, name, source);
      var raw := RawTypeName(options.rawType);
      var dHead := ToOpen + name + JsonParam;
      var sHead := "public static " + env.camelCase(name) + ToJsonParam;
      && d[|dHead|..|dHead| + |raw|] == s[|s| - |raw|..] == raw
      && d[|d| - |source|..] == s[|sHead|..|sHead| + |source|] == source
  {
    var raw := RawTypeName(options.rawType);
    var dHead := ToOpen + name + JsonParam;
    var sHead := "public static " + env.camelCase(name) + ToJsonParam;
    var d := DeserializerFunctionLine(options, name, source);
    var s := SerializerFunctionLine(env, options, name, source);
    assert d == dHead + raw + "): " + source;
    AppendAssoc(dHead + raw, "): ", source);
    InfixAt(dHead, raw, "): " + source);
    SuffixAt(dHead + raw + "): ", source);
    assert s == sHead + source + "): " + raw;
    AppendAssoc(sHead + source, "): ", raw);
    InfixAt(sHead, source, "): " + raw);
    SuffixAt(sHead + source + "): ", raw);
  }

  /** `typeAnnotations`: `never` is annotated `: never` unless the shared annotations say otherwise. */
  function TsTypeAnnotations(shared: map<string, string>): (r: map<string, string>)
    ensures "never" in r
    ensures "never" !in shared ==> r["never"] == ": never"
    ensures forall k :: k in shared ==> k in r && r[k] == shared[k]
  {
    TypeAnnotations(": never", shared)
  }

  /** The names of the top-levels whose type is a named type, in order. */
  function NamedTopLevels(topLevels: seq<(Type, string)>): (r: seq<string>)
    ensures |r| <= |topLevels|
    decreases |topLevels|
  {
    if |topLevels| == 0 then []
    else
      var rest := NamedTopLevels(topLevels[..|topLevels| - 1]);
      var last := topLevels[|topLevels| - 1];
      if IsNamedType(last.0) then rest + [last.1] else rest
  }

  /** A name is imported exactly when some top-level of a named type carries it. */
  lemma {:induction false} NamedTopLevelsMembers(topLevels: seq<(Type, string)>)
    ensures forall n :: n in NamedTopLevels(topLevels) <==>
      exists i :: 0 <= i < |topLevels| && IsNamedType(topLevels[i].0) && topLevels[i].1 == n
    decreases |topLevels|
  {
    if |topLevels| > 0 {
      var init := topLevels[..|topLevels| - 1];
      NamedTopLevelsMembers(init);
      forall n
        ensures n in NamedTopLevels(topLevels) <==>
          exists i :: 0 <= i < |topLevels| && IsNamedType(topLevels[i].0) && topLevels[i].1 == n
      {
        if exists i :: 0 <= i < |topLevels| && IsNamedType(topLevels[i].0) && topLevels[i].1 == n {
          var i :| 0 <= i < |topLevels| && IsNamedType(topLevels[i].0) && topLevels[i].1 == n;
          if i < |topLevels| - 1 {
            assert init[i] == topLevels[i];
          }
        }
        if n in NamedTopLevels(init) {
          var i :| 0 <= i < |init| && IsNamedType(init[i].0) && init[i].1 == n;
          assert topLevels[i] == init[i];
        }
      }
    }
  }

  /** The `topLevelNames` Sourcelike array: `, <name>` per named top-level. */
  function ImportList(names: seq<string>): string
    decreases |names|
  {
    if |names| == 0 then "" else ImportList(names[..|names| - 1]) + ", " + names[|names| - 1]
  }

  /** The import list is the names joined by commas, after one leading comma. */
  lemma {:induction false} ImportListJoin(names: seq<string>)
    ensures ImportList(names) == if |names| == 0 then "" else ", " + JoinWith(names, ", ")
    decreases |names|
  {
    if |names| > 0 {
      var init := names[..|names| - 1];
      var last := names[|names| - 1];
      assert ImportList(names) == ImportList(init) + ", " + last;
      SplitLast(names);
      JoinAppend(init, last, ", ");
      if |init| > 0 {
        ImportListJoin(init);
        var j := JoinWith(init, ", ");
        assert ImportList(names) == ", " + j + ", " + last;
        AppendAssoc(", ", j, ", ");
        AppendAssoc(", ", j + ", ", last);
      }
    }
  }

  lemma ImportListAppend(names: seq<string>, name: string)
    ensures ImportList(names + [name]) == ImportList(names) + ", " + name
  {
    assert (names + [name])[..|names|] == names;
  }

  /** One more top-level adds its name to the import list exactly when its type is named. */
  lemma NamedTopLevelsStep(topLevels: seq<(Type, string)>, i: nat)
    requires i < |topLevels|
    ensures NamedTopLevels(topLevels[..i + 1])
      == NamedTopLevels(topLevels[..i]) + (if IsNamedType(topLevels[i].0) then [topLevels[i].1] else [])
  {
    assert topLevels[..i + 1][..i] == topLevels[..i];
  }

  const ImportOpen := "//   import { Convert"
  const ImportClose := " } from \"./file\";"

  /**
   * The declaration of an enum; nothing for a single value when constants are
   * preferred. The case values are distinct, so `|e.cases|` is `e.cases.size`.
   */
  function EnumLines(env: TsFlowEnv, options: TsFlowOptions, e: EnumDef, enumName: string): seq<string>
    requires DistinctCaseValues(e.cases)
  {
    if options.preferConstValues && |e.cases| == 1 then []
    else if options.preferUnions || e.isMixed then
      ["export type " + enumName + " = " + UnionText(env.escape, e.cases) + ";"]
    else
      ["export enum " + enumName + " {"] + EnumMemberLines(env, e.cases) + ["}"]
  }

  /** The members of a TypeScript enum: `<name> = <literal>,`. */
  function EnumMemberLines(env: TsFlowEnv, cases: seq<EnumCase>): (r: seq<string>)
    ensures |r| == |cases|
  {
    seq(|cases|, i requires 0 <= i < |cases| => cases[i].name + " = " + Literal(env.escape, cases[i].value) + ",")
  }

  /**
   * The three shapes of an enum: nothing for one value under
   * `preferConstValues`; one `export type` line for a mixed enum or under
   * `preferUnions`; otherwise an enum block with one member per case that
   * names the case and carries its literal.
   */
  lemma EnumShapes(env: TsFlowEnv, options: TsFlowOptions, e: EnumDef, enumName: string)
    requires DistinctCaseValues(e.cases)
    ensures var lines := EnumLines(env, options, e, enumName);
      && (lines == [] <==> options.preferConstValues && |e.cases| == 1)
      && (!(options.preferConstValues && |e.cases| == 1) && (options.preferUnions || e.isMixed) ==>
            |lines| == 1 && "export type " + enumName + " = " <= lines[0])
      && (!(options.preferConstValues && |e.cases| == 1) && !(options.preferUnions || e.isMixed) ==>
            && |lines| == |e.cases| + 2
            && lines[0] == "export enum " + enumName + " {"
            && lines[|lines| - 1] == "}"
            && forall i :: 0 <= i < |e.cases| ==>
                 IsEnumMember(lines[i + 1], e.cases[i].name, Literal(env.escape, e.cases[i].value)))
  {
    if !(options.preferConstValues && |e.cases| == 1) && !(options.preferUnions || e.isMixed) {
      var lines := EnumLines(env, options, e, enumName);
      var members := EnumMemberLines(env, e.cases);
      assert lines == ["export enum " + enumName + " {"] + members + ["}"];
      forall i | 0 <= i < |e.cases|
        ensures IsEnumMember(lines[i + 1], e.cases[i].name, Literal(env.escape, e.cases[i].value))
      {
        assert lines[i + 1] == members[i];
        EnumMemberReadBack(e.cases[i].name, Literal(env.escape, e.cases[i].value));
      }
    }
  }

  /** `line` is the enum member `name = literal,`, read back by position. */
  predicate IsEnumMember(line: string, name: string, literal: string) {
    && |line| == |name| + 3 + |literal| + 1
    && line[..|name|] == name
    && line[|name|..|name| + 3] == " = "
    && line[|name| + 3..|line| - 1] == literal
    && line[|line| - 1] == ','
  }

  lemma EnumMemberReadBack(name: string, literal: string)
    ensures IsEnumMember(name + " = " + literal + ",", name, literal)
  {
    var line := name + " = " + literal + ",";
    assert line == name + (" = " + (literal + ","));
  }

  /** The block header of a class: a type alias under `preferTypes`, otherwise an interface. */
  function ClassHeader(options: TsFlowOptions, className: string): (r: string)
    ensures |r| > 0 && r[|r| - 1] == '{'
    ensures options.preferTypes <==> "export type " <= r
    ensures !options.preferTypes ==> "export interface " <= r
  {
    if options.preferTypes then "export type " + className + " = {"
    else
      var header := "export interface " + className + " {";
      assert header[7] == 'i';
      header
  }

  class TypeScriptRenderer {
    const env: TsFlowEnv
    const options: TsFlowOptions
    const out: LineBuffer

    constructor (env: TsFlowEnv, options: TsFlowOptions, out: LineBuffer)
      ensures this.env == env && this.options == options && this.out == out
    {
      this.env := env;
      this.options := options;
      this.out := out;
    }

    /** `emitUsageImportComment`: one line importing `Convert` and every named top-level. */
    method EmitUsageImportComment(topLevels: seq<(Type, string)>)
      modifies out
      ensures out.lines == old(out.lines) + [ImportOpen + ImportList(NamedTopLevels(topLevels)) + ImportClose]
    {
      ghost var start := out.lines;
      var topLevelNames := "";
      var i := 0;
      while i < |topLevels|
        invariant 0 <= i <= |topLevels|
        invariant out.lines == start
        invariant topLevelNames == ImportList(NamedTopLevels(topLevels[..i]))
      {
        var (t, name) := topLevels[i];
        NamedTopLevelsStep(topLevels, i);
        ghost var names := NamedTopLevels(topLevels[..i]);
        if IsNamedType(t) {
          ImportListAppend(names, name);
          topLevelNames := topLevelNames + ", " + name;
          assert topLevelNames == ImportList(names + [name]);
        } else {
          assert names + [] == names;
        }
        i := i + 1;
      }
      assert topLevels[..i] == topLevels;
      assert topLevelNames == ImportList(NamedTopLevels(topLevels));
      out.EmitLine(ImportOpen + topLevelNames + ImportClose);
    }

    /** `emitEnum`, apart from the description. */
    method EmitEnum(e: EnumDef, enumName: string)
      requires DistinctCaseValues(e.cases)
      modifies out
      ensures out.lines == old(out.lines) + EnumLines(env, options, e, enumName)
    {
      if options.preferConstValues && |e.cases| == 1 {
        return;
      }
      if options.preferUnions || e.isMixed {
        var items := UnionItems(e.cases);
        out.EmitLine("export type " + enumName + " = " + items + ";");
      } else {
        EmitEnumBlock(e.cases, enumName);
      }
    }

    /**
     * The union of the case literals, built by appending ` | <literal>` to
     * every literal but the first.
     */
    method UnionItems(cases: seq<EnumCase>) returns (items: string)
      ensures items == UnionText(env.escape, cases)
    {
      ghost var literals := Literals(env.escape, cases);
      items := "";
      var i := 0;
      while i < |cases|
        invariant 0 <= i <= |cases|
        invariant items == JoinWith(literals[..i], " | ")
        invariant items == "" <==> i == 0
      {
        var literal := Literal(env.escape, cases[i].value);
        assert literals[..i + 1] == literals[..i] + [literal];
        JoinAppend(literals[..i], literal, " | ");
        ghost var next := JoinWith(literals[..i + 1], " | ");
        assert |next| > 0 by { assert literals[..i + 1][0] <= next; }
        if items == "" {
          items := items + literal;
        } else {
          items := items + " | " + literal;
        }
        assert items == next;
        i := i + 1;
      }
      assert literals[..i] == literals;
    }

    /** A TypeScript enum block. */
    method EmitEnumBlock(cases: seq<EnumCase>, enumName: string)
      modifies out
      ensures out.lines == old(out.lines) + (["export enum " + enumName + " {"] + EnumMemberLines(env, cases) + ["}"])
    {
      ghost var start := out.lines;
      ghost var members := EnumMemberLines(env, cases);
      out.EmitLine("export enum " + enumName + " {");
      ghost var head := ["export enum " + enumName + " {"];
      var i := 0;
      while i < |cases|
        invariant 0 <= i <= |cases|
        invariant out.lines == start + (head + members[..i])
      {
        var literal := Literal(env.escape, cases[i].value);
        out.EmitLine(cases[i].name + " = " + literal + ",");
        AppendAssoc(start, head + members[..i], [members[i]]);
        AppendAssoc(head, members[..i], [members[i]]);
        assert members[..i + 1] == members[..i] + [members[i]];
        i := i + 1;
      }
      assert members[..i] == members;
      out.EmitLine("}");
      AppendAssoc(start, head + members, ["}"]);
    }

    /** `emitClassBlock`, with the body the base renderer emits given as lines. */
    method EmitClassBlock(className: string, body: seq<string>)
      modifies out
      ensures out.lines == old(out.lines) + ([ClassHeader(options, className)] + body + ["}"])
    {
      ghost var start := out.lines;
      if options.preferTypes {
        out.EmitLine("export type " + className + " = {");
      } else {
        out.EmitLine("export interface " + className + " {");
      }
      var i := 0;
      while i < |body|
        invariant 0 <= i <= |body|
        invariant out.lines == start + ([ClassHeader(options, className)] + body[..i])
      {
        out.EmitLine(body[i]);
        AppendAssoc(start, [ClassHeader(options, className)] + body[..i], [body[i]]);
        assert body[..i + 1] == body[..i] + [body[i]];
        i := i + 1;
      }
      assert body[..i] == body;
      out.EmitLine("}");
      AppendAssoc(start, [ClassHeader(options, className)] + body, ["}"]);
    }
  }
}
