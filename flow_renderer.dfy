/**
 * The Flow target: enums as union types laid out one case per line, class
 * blocks as exact object type aliases, and the `// @flow` pragma.
 */
module FlowRenderer {
  import opened Text
  import opened TypeGraph
  import opened Output
  import opened TsFlow
  import TypeScriptRenderer

  /** `forbiddenNamesForGlobalNamespace`: the Flow globals a generated type must not shadow. */
  const ForbiddenNames: seq<string> := ["Class", "Date", "Object", "String", "Array", "JSON", "Error"]

  /** Every name TypeScript keeps out of the global namespace, Flow keeps out too. */
  lemma ForbiddenNamesCoverTypeScript()
    ensures forall n :: n in TypeScriptRenderer.ForbiddenNames ==> n in ForbiddenNames
    ensures |TypeScriptRenderer.ForbiddenNames| < |ForbiddenNames|
  {
    assert ForbiddenNames[4] == "Array" && ForbiddenNames[1] == "Date";
  }

  /** `typeAnnotations`: `never` has no annotation unless the shared annotations give one. */
  function FlowTypeAnnotations(shared: map<string, string>): (r: map<string, string>)
    ensures "never" in r
    ensures "never" !in shared ==> r["never"] == ""
    ensures forall k :: k in shared ==> k in r && r[k] == shared[k]
  {
    TypeAnnotations("", shared)
  }

  /** A case line before the `;` is pushed: `  ` before the first literal, `| ` before the others. */
  function OpenCaseLine(escape: string -> string, v: CaseValue, first: bool): string {
    (if first then "  " else "| ") + Literal(escape, v)
  }

  /** A case line is its two-character prefix, then the case's literal. */
  lemma OpenCaseLineParts(escape: string -> string, v: CaseValue, first: bool)
    ensures var line := OpenCaseLine(escape, v, first);
      && |line| >= 2
      && (line[0] == ' ' <==> first)
      && line[..2] == (if first then "  " else "| ")
      && line[2..] == Literal(escape, v)
  {
  }

  /** The case lines before the `;` is pushed, one per case in order. */
  function OpenCaseLines(escape: string -> string, cases: seq<EnumCase>): (r: seq<string>)
    ensures |r| == |cases|
  {
    seq(|cases|, i requires 0 <= i < |cases| => OpenCaseLine(escape, cases[i].value, i == 0))
  }

  /** The case lines as emitted: `;` is pushed onto the last one. */
  function CaseLines(escape: string -> string, cases: seq<EnumCase>): (r: seq<string>)
    ensures |r| == |cases|
  {
    var open := OpenCaseLines(escape, cases);
    if |open| == 0 then [] else open[..|open| - 1] + [open[|open| - 1] + ";"]
  }

  lemma OpenCaseLinesPrefix(escape: string -> string, cases: seq<EnumCase>, k: nat)
    requires k <= |cases|
    ensures OpenCaseLines(escape, cases[..k]) == OpenCaseLines(escape, cases)[..k]
  {
  }

  /** Case line `j`: its prefix and literal, and `;` exactly on the last one. */
  lemma CaseLineAt(escape: string -> string, cases: seq<EnumCase>, j: nat)
    requires j < |cases|
    ensures j < |cases| - 1 ==> CaseLines(escape, cases)[j] == OpenCaseLine(escape, cases[j].value, j == 0)
    ensures j == |cases| - 1 ==> CaseLines(escape, cases)[j] == OpenCaseLine(escape, cases[j].value, j == 0) + ";"
  {
    var open := OpenCaseLines(escape, cases);
    if j < |cases| - 1 {
      assert CaseLines(escape, cases)[j] == open[..|open| - 1][j];
    }
  }

  /** Everything `emitEnum` emits for a non-empty enum, apart from the description. */
  function EnumLines(escape: string -> string, cases: seq<EnumCase>, enumName: string): seq<string> {
    ["export type " + enumName + " ="] + CaseLines(escape, cases)
  }

  lemma {:induction false} OpenLinesJoin(escape: string -> string, cases: seq<EnumCase>)
    requires |cases| >= 1
    ensures JoinWith(OpenCaseLines(escape, cases), " ") == "  " + UnionText(escape, cases)
    decreases |cases|
  {
    if |cases| == 1 {
      var lines := OpenCaseLines(escape, cases);
      var literals := Literals(escape, cases);
      assert lines == [OpenCaseLine(escape, cases[0].value, true)];
      assert literals == [literals[0]];
    } else {
      OpenLinesJoin(escape, cases[..|cases| - 1]);
      OpenLinesJoinStep(escape, cases);
    }
  }

  /** The inductive step of `OpenLinesJoin`: one more case on a new line. */
  lemma OpenLinesJoinStep(escape: string -> string, cases: seq<EnumCase>)
    requires |cases| >= 2
    requires JoinWith(OpenCaseLines(escape, cases[..|cases| - 1]), " ")
             == "  " + UnionText(escape, cases[..|cases| - 1])
    ensures JoinWith(OpenCaseLines(escape, cases), " ") == "  " + UnionText(escape, cases)
  {
    var n := |cases|;
    var lines := OpenCaseLines(escape, cases);
    var literals := Literals(escape, cases);
    var shorter := OpenCaseLines(escape, cases[..n - 1]);
    var last := lines[n - 1];
    var l := literals[n - 1];
    var j := JoinWith(literals[..n - 1], " | ");
    LiteralsPrefix(escape, cases, n - 1);
    OpenCaseLinesPrefix(escape, cases, n - 1);
    assert JoinWith(shorter, " ") == "  " + j;
    SplitLast(lines);
    JoinAppend(shorter, last, " ");
    SplitLast(literals);
    JoinAppend(literals[..n - 1], l, " | ");
    assert last == "| " + l;
    AppendJoinedCase(j, l);
  }

  /** Appending a case on a new line reads as appending ` | literal` to the union. */
  lemma AppendJoinedCase(j: string, l: string)
    ensures "  " + j + " " + ("| " + l) == "  " + (j + " | " + l)
  {
    AppendAssoc("  " + j, " ", "| " + l);
    AppendAssoc(" ", "| ", l);
    assert " " + "| " == " | ";
    AppendAssoc("  " + j, " | ", l);
    AppendAssoc("  ", j, " | ");
    AppendAssoc("  ", j + " | ", l);
  }

  /**
   * Read on one line, the Flow declaration's cases are exactly the union
   * TypeScript writes for the same enum, ended by `;`.
   */
  lemma CasesAreTheUnion(escape: string -> string, cases: seq<EnumCase>)
    requires |cases| > 0
    ensures JoinWith(CaseLines(escape, cases), " ") == "  " + UnionText(escape, cases) + ";"
  {
    var n := |cases|;
    var open := OpenCaseLines(escape, cases);
    var front := open[..n - 1];
    var lastOpen := open[n - 1];
    OpenLinesJoin(escape, cases);
    assert CaseLines(escape, cases) == front + [lastOpen + ";"];
    SplitLast(open);
    JoinAppend(front, lastOpen + ";", " ");
    JoinAppend(front, lastOpen, " ");
    if n > 1 {
      AppendAssoc(JoinWith(front, " ") + " ", lastOpen, ";");
    }
    assert JoinWith(CaseLines(escape, cases), " ") == JoinWith(open, " ") + ";";
  }

  class FlowRenderer {
    const env: TsFlowEnv
    const out: LineBuffer

    constructor (env: TsFlowEnv, out: LineBuffer)
      ensures this.env == env && this.out == out
    {
      this.env := env;
      this.out := out;
    }

    /**
     * `emitEnum`, apart from the description. An enum without cases has no
     * last line to end with `;`: the renderer fails before emitting anything.
     */
    method EmitEnum(e: EnumDef, enumName: string) returns (ok: bool)
      modifies out
      ensures ok <==> |e.cases| > 0
      ensures ok ==> out.lines == old(out.lines) + EnumLines(env.escape, e.cases, enumName)
      ensures !ok ==> out.lines == old(out.lines)
    {
      var lines := CollectCaseLines(e.cases);
      if |lines| == 0 {
        return false;
      }
      var sealed := lines[..|lines| - 1] + [lines[|lines| - 1] + ";"];
      EmitCaseLines(e.cases, enumName, sealed);
      return true;
    }

    /**
     * The case lines before the `;` is pushed: `  ` or `| `, then the literal.
     * Each line is kept as the text its parts render to.
     */
    method CollectCaseLines(cases: seq<EnumCase>) returns (lines: seq<string>)
      ensures lines == OpenCaseLines(env.escape, cases)
    {
      lines := [];
      var i := 0;
      while i < |cases|
        invariant 0 <= i <= |cases|
        invariant lines == OpenCaseLines(env.escape, cases[..i])
      {
        var maybeOr := if |lines| == 0 then "  " else "| ";
        var literal := Literal(env.escape, cases[i].value);
        assert cases[..i + 1][..i] == cases[..i];
        lines := lines + [maybeOr + literal];
        i := i + 1;
      }
      assert cases[..i] == cases;
    }

    /** The header, then each case line with its parts run together. */
    method EmitCaseLines(cases: seq<EnumCase>, enumName: string, lines: seq<string>)
      requires lines == CaseLines(env.escape, cases)
      modifies out
      ensures out.lines == old(out.lines) + EnumLines(env.escape, cases, enumName)
    {
      ghost var start := out.lines;
      out.EmitLine("export type " + enumName + " =");
      ghost var head := ["export type " + enumName + " ="];
      var i := 0;
      while i < |lines|
        invariant 0 <= i <= |lines|
        invariant out.lines == start + (head + lines[..i])
      {
        out.EmitLine(lines[i]);
        AppendAssoc(start, head + lines[..i], [lines[i]]);
        AppendAssoc(head, lines[..i], [lines[i]]);
        assert lines[..i + 1] == lines[..i] + [lines[i]];
        i := i + 1;
      }
      assert lines[..i] == lines;
    }

    /** `emitClassBlock`: an exact object type alias, closed by `};`. */
    method EmitClassBlock(className: string, body: seq<string>)
      modifies out
      ensures out.lines == old(out.lines) + (["export type " + className + " = {"] + body + ["};"])
    {
      ghost var start := out.lines;
      ghost var head := ["export type " + className + " = {"];
      out.EmitLine("export type " + className + " = {");
      var i := 0;
      while i < |body|
        invariant 0 <= i <= |body|
        invariant out.lines == start + (head + body[..i])
      {
        out.EmitLine(body[i]);
        AppendAssoc(start, head + body[..i], [body[i]]);
        assert body[..i + 1] == body[..i] + [body[i]];
        i := i + 1;
      }
      assert body[..i] == body;
      out.EmitLine("};");
      AppendAssoc(start, head + body, ["};"]);
    }

    /** `emitSourceStructure`: the `// @flow` pragma, then what the base renderer emits. */
    method EmitSourceStructure(baseLines: seq<string>)
      modifies out
      ensures out.lines == old(out.lines) + (["// @flow"] + baseLines)
    {
      ghost var start := out.lines;
      out.EmitLine("// @flow");
      var i := 0;
      while i < |baseLines|
        invariant 0 <= i <= |baseLines|
        invariant out.lines == start + (["// @flow"] + baseLines[..i])
      {
        out.EmitLine(baseLines[i]);
        AppendAssoc(start, ["// @flow"] + baseLines[..i], [baseLines[i]]);
        assert baseLines[..i + 1] == baseLines[..i] + [baseLines[i]];
        i := i + 1;
      }
      assert baseLines[..i] == baseLines;
    }
  }
}
