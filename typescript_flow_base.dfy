/**
 * What the TypeScript and Flow targets share: their options, the collaborators
 * of their common base renderer, and the literal text of an enum value.
 */
module TsFlow {
  import opened Text
  import opened TypeGraph

  /** The `raw-type` option: whether the converters work on JSON text or on parsed values. */
  datatype RawType = JsonRaw | AnyRaw

  /** The options of the TypeScript and Flow targets that the core reads. */
  datatype TsFlowOptions = TsFlowOptions(
    rawType: RawType,
    preferConstValues: bool,
    preferUnions: bool,
    preferTypes: bool)

  /**
   * The collaborators of the base renderer, which are not part of this model:
   * `utf16StringEscape`, `camelCase` and `sourceFor(t).source` rendered as text.
   */
  datatype TsFlowEnv = TsFlowEnv(
    escape: string -> string,
    camelCase: string -> string,
    sourceFor: Type -> string)

  /**
   * The literal type of an enum value: a string in double quotes after
   * escaping, and `String(value)` for numbers and booleans.
   */
  function Literal(escape: string -> string, v: CaseValue): (r: string)
    ensures |r| > 0
    ensures v.StrValue? ==> |r| >= 2 && r[0] == '"' && r[|r| - 1] == '"' && r[1..|r| - 1] == escape(v.s)
    ensures !v.StrValue? ==> r == ValueText(v)
  {
    match v
    case StrValue(s) => "\"" + escape(s) + "\""
    case _ => ValueText(v)
  }

  /** The literals of the cases, in iteration order. */
  function Literals(escape: string -> string, cases: seq<EnumCase>): (r: seq<string>)
    ensures |r| == |cases|
    ensures forall i :: 0 <= i < |r| ==> r[i] == Literal(escape, cases[i].value)
  {
    seq(|cases|, i requires 0 <= i < |cases| => Literal(escape, cases[i].value))
  }

  /** A union of the case literals, `a | b | c`, as both targets write it. */
  function UnionText(escape: string -> string, cases: seq<EnumCase>): string {
    JoinWith(Literals(escape, cases), " | ")
  }

  /** The literals of a prefix of the cases are a prefix of the literals. */
  lemma LiteralsPrefix(escape: string -> string, cases: seq<EnumCase>, k: nat)
    requires k <= |cases|
    ensures Literals(escape, cases[..k]) == Literals(escape, cases)[..k]
  {
  }

  /**
   * `Object.assign({ never: defaultNever }, shared)`: the shared annotations
   * win over the target's default for `never`.
   */
  function TypeAnnotations(defaultNever: string, shared: map<string, string>): (r: map<string, string>)
    ensures "never" in r
    ensures r["never"] == (if "never" in shared then shared["never"] else defaultNever)
    ensures forall k :: k in r <==> k == "never" || k in shared
    ensures forall k :: k in shared ==> r[k] == shared[k]
  {
    map["never" := defaultNever] + shared
  }
}
