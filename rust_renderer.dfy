/**
 * The Rust target: how a type becomes a Rust type expression (with `Option`
 * for nullable values and `Box` where the cycle analysis asks for indirection),
 * and the serde attributes and layouts of structs, untagged unions and enums.
 */
module RustRenderer {
  import opened Wrappers
  import opened Text
  import opened TypeGraph
  import opened Output

  /** The `visibility` renderer option. */
  datatype Visibility = Private | Crate | Public

  /** The renderer options that change what is emitted for one definition. */
  datatype RustOptions = RustOptions(
    deriveDebug: bool,
    deriveClone: bool,
    derivePartialEq: bool,
    skipSerializingNone: bool,
    visibility: Visibility)

  /**
   * The naming-style library the renderer calls (not part of this model):
   * `namingStyles[style].fromParts`, `nameWithNamingStyle`,
   * `listMatchingNamingStyles` and `getPreferredNamingStyle`. Styles are their
   * keys, such as "snake_case" or "PascalCase".
   */
  datatype NamingStyles = NamingStyles(
    fromParts: (string, seq<string>) -> string,
    withStyle: (string, string) -> string,
    matchingStyles: string -> seq<string>,
    preferredStyle: (seq<string>, string) -> string)

  /**
   * What one render call fixes before emitting: the options, the cycle
   * analysis' `isCycleBreakerType`, `rustStringEscape` and the naming styles.
   */
  datatype Env = Env(
    options: RustOptions,
    breaker: Type -> bool,
    escape: string -> string,
    naming: NamingStyles)

  const StructDefaultStyle := "snake_case"
  const EnumDefaultStyle := "PascalCase"

  // The fixed text of the serde attributes the renderer writes.
  const DeriveOpen := "#[derive("
  const SerdeTraits := "Serialize, Deserialize)]"
  const SerdeAttrOpen := "#[serde("
  const RenameOpen := SerdeAttrOpen + "rename = \""
  const RenameAllOpen := "#[serde(rename_all = \""
  const AttrClose := "\")]"
  const Untagged := "#[serde(untagged)]"
  const SkipIfNone := SerdeAttrOpen + "skip_serializing_if = \"Option::is_none\")]"

  // ---------------------------------------------------------------------------
  // Type expressions
  // ---------------------------------------------------------------------------

  /** `head<arg>`. */
  function Generic(head: string, arg: string): string {
    head + "<" + arg + ">"
  }

  /** Arrays and maps already give indirection, so they never need a `Box`. */
  function IsImplicitCycleBreaker(t: Type): (r: bool)
    ensures r <==> t.ArrayType? || t.MapType?
  {
    var kind := Kind(t);
    kind == KArray || kind == KMap
  }

  /** `rustType`: the Rust type expression for `t`. */
  function RustType(t: Type, breaker: Type -> bool): string
    decreases t, 0
  {
    match t
    case AnyType => Generic("Option", "serde_json::Value")
    case NullType => Generic("Option", "serde_json::Value")
    case BoolType => "bool"
    case IntegerType => "i64"
    case DoubleType => "f64"
    case StringType => "String"
    case ArrayType(items) => Generic("Vec", RustType(items, breaker))
    case ClassType(name) => name
    case MapType(values) => Generic("HashMap", "String, " + RustType(values, breaker))
    case EnumType(name) => name
    case UnionType(name, members) =>
      match NullableFromUnion(members)
      case Some(nullable) => NullableRustType(nullable, breaker)
      case None =>
        var boxed := if breaker(t) then Generic("Box", name) else name;
        if RemoveNull(members).0 then Generic("Option", boxed) else boxed
  }

  /** `breakCycle`: `rustType`, boxed once more when the cycle analysis marked `t`. */
  function BreakCycle(t: Type, breaker: Type -> bool): (r: string)
    ensures breaker(t) <==> r == Generic("Box", RustType(t, breaker))
    ensures !breaker(t) ==> r == RustType(t, breaker)
    decreases t, 1
  {
    var rustType := RustType(t, breaker);
    if breaker(t) then Generic("Box", rustType) else rustType
  }

  /** `nullableRustType`. */
  function NullableRustType(t: Type, breaker: Type -> bool): (r: string)
    ensures "Option<" <= r && r[|r| - 1] == '>'
    decreases t, 2
  {
    Generic("Option", BreakCycle(t, breaker))
  }

  /** The primitive variants render as fixed text. */
  lemma RustTypeOfPrimitives(breaker: Type -> bool)
    ensures RustType(BoolType, breaker) == "bool"
    ensures RustType(IntegerType, breaker) == "i64"
    ensures RustType(DoubleType, breaker) == "f64"
    ensures RustType(StringType, breaker) == "String"
    ensures RustType(AnyType, breaker) == RustType(NullType, breaker) == Generic("Option", "serde_json::Value")
  {
  }

  /** A union rendered as its own boxed name: not nullable, no `null` member, marked by the cycle analysis. */
  predicate IsBoxedUnion(t: Type, breaker: Type -> bool) {
    t.UnionType? && NullType !in t.members && breaker(t)
  }

  /** The name a class, enum or union carries is a plain identifier. */
  predicate OwnNameIsIdentifier(t: Type) {
    match t
    case ClassType(name) => NoBrackets(name)
    case EnumType(name) => NoBrackets(name)
    case UnionType(name, _) => NoBrackets(name)
    case _ => true
  }

  /** Every name inside `t` is a plain identifier, as the naming engine guarantees. */
  predicate IdentifierNames(t: Type) {
    match t
    case ArrayType(items) => IdentifierNames(items)
    case MapType(values) => IdentifierNames(values)
    case UnionType(name, members) =>
      NoBrackets(name) && forall m :: m in members ==> IdentifierNames(m)
    case _ => OwnNameIsIdentifier(t)
  }

  lemma NotBoxPrefix(s: string, c: char)
    requires |s| > 0 && s[0] == c && c != 'B'
    ensures !("Box<" <= s)
  {
  }

  lemma IdentifierNotBoxPrefix(name: string)
    requires NoBrackets(name)
    ensures !("Box<" <= name) && !("Option<" <= name)
  {
    if |name| >= 4 { assert name[3] in name; }
    if |name| >= 7 { assert name[6] in name; }
  }

  /**
   * The element of a `Vec` or `HashMap` goes through `rustType`, not
   * `breakCycle`: the container adds no `Box` itself, and the element text
   * starts with `Box<` exactly when the element is a boxed union.
   */
  lemma ContainerElementBoxing(x: Type, breaker: Type -> bool)
    requires OwnNameIsIdentifier(x)
    ensures RustType(ArrayType(x), breaker) == Generic("Vec", RustType(x, breaker))
    ensures RustType(MapType(x), breaker) == Generic("HashMap", "String, " + RustType(x, breaker))
    ensures "Box<" <= RustType(x, breaker) <==> IsBoxedUnion(x, breaker)
  {
    var r := RustType(x, breaker);
    match x
    case UnionType(name, members) =>
      IdentifierNotBoxPrefix(name);
      if NullableFromUnion(members).Some? {
        NotBoxPrefix(r, 'O');
      } else if RemoveNull(members).0 {
        NotBoxPrefix(r, 'O');
      } else if breaker(x) {
        assert r == Generic("Box", name);
      }
    case ClassType(name) => IdentifierNotBoxPrefix(name);
    case EnumType(name) => IdentifierNotBoxPrefix(name);
    case AnyType => NotBoxPrefix(r, 'O');
    case NullType => NotBoxPrefix(r, 'O');
    case BoolType => NotBoxPrefix(r, 'b');
    case IntegerType => NotBoxPrefix(r, 'i');
    case DoubleType => NotBoxPrefix(r, 'f');
    case StringType => NotBoxPrefix(r, 'S');
    case ArrayType(_) => NotBoxPrefix(r, 'V');
    case MapType(_) => NotBoxPrefix(r, 'H');
  }

  /**
   * A union renders with `Option<` outermost exactly when it has a `null`
   * member: `Option<breakCycle(T)>` for `{T, null}`, otherwise
   * `Option<name>` or `Option<Box<name>>`, and without `null` the (boxed) name.
   */
  lemma UnionRendering(u: Type, breaker: Type -> bool)
    requires u.UnionType? && NoBrackets(u.unionName)
    ensures "Option<" <= RustType(u, breaker) <==> NullType in u.members
    ensures NullableFromUnion(u.members).Some? ==>
      RustType(u, breaker) == Generic("Option", BreakCycle(NullableFromUnion(u.members).value, breaker))
    ensures NullableFromUnion(u.members).None? ==>
      var named := if breaker(u) then Generic("Box", u.unionName) else u.unionName;
      RustType(u, breaker) == if NullType in u.members then Generic("Option", named) else named
  {
    IdentifierNotBoxPrefix(u.unionName);
    var r := RustType(u, breaker);
    if NullType !in u.members && breaker(u) {
      assert r == Generic("Box", u.unionName);
      assert r[0] == 'B';
    }
  }

  /**
   * A union without `null` that the cycle analysis marked is boxed twice when
   * it goes through `breakCycle`: once by `rustType`, once by `breakCycle`.
   */
  lemma DoubleBoxing(u: Type, breaker: Type -> bool)
    requires u.UnionType? && NullType !in u.members && breaker(u)
    ensures BreakCycle(u, breaker) == "Box<Box<" + u.unionName + ">>"
  {
    assert RustType(u, breaker) == Generic("Box", u.unionName);
  }

  /** With identifier names, every rendered type has balanced angle brackets. */
  lemma {:induction false} RustTypeBalanced(t: Type, breaker: Type -> bool)
    requires IdentifierNames(t)
    ensures Balanced(RustType(t, breaker))
    ensures Balanced(BreakCycle(t, breaker))
    decreases t
  {
    match t {
      case ArrayType(items) =>
        RustTypeBalanced(items, breaker);
        GenericBalanced("Vec", RustType(items, breaker));
      case MapType(values) =>
        RustTypeBalanced(values, breaker);
        NoBracketsScan("String, ", 0);
        ConcatBalanced("String, ", RustType(values, breaker));
        GenericBalanced("HashMap", "String, " + RustType(values, breaker));
      case UnionType(name, members) =>
        var nullable := NullableFromUnion(members);
        if nullable.Some? {
          RustTypeBalanced(nullable.value, breaker);
        }
        UnionBalanced(t, breaker);
      case _ =>
        LeafBalanced(t, breaker);
    }
    if breaker(t) {
      GenericBalanced("Box", RustType(t, breaker));
    }
  }

  lemma LeafBalanced(t: Type, breaker: Type -> bool)
    requires !t.ArrayType? && !t.MapType? && !t.UnionType? && OwnNameIsIdentifier(t)
    ensures Balanced(RustType(t, breaker))
  {
    match t {
      case AnyType => JsonValueBalanced();
      case NullType => JsonValueBalanced();
      case BoolType => NoBracketsScan("bool", 0);
      case IntegerType => NoBracketsScan("i64", 0);
      case DoubleType => NoBracketsScan("f64", 0);
      case StringType => NoBracketsScan("String", 0);
      case ClassType(name) => NoBracketsScan(name, 0);
      case EnumType(name) => NoBracketsScan(name, 0);
    }
  }

  lemma JsonValueBalanced()
    ensures Balanced(Generic("Option", "serde_json::Value"))
  {
    assert NoBrackets("serde_json::Value");
    NoBracketsScan("serde_json::Value", 0);
    GenericBalanced("Option", "serde_json::Value");
  }

  lemma UnionBalanced(u: Type, breaker: Type -> bool)
    requires u.UnionType? && NoBrackets(u.unionName)
    requires NullableFromUnion(u.members).Some? ==> Balanced(BreakCycle(NullableFromUnion(u.members).value, breaker))
    ensures Balanced(RustType(u, breaker))
  {
    var nullable := NullableFromUnion(u.members);
    if nullable.Some? {
      GenericBalanced("Option", BreakCycle(nullable.value, breaker));
    } else {
      var name := u.unionName;
      NoBracketsScan(name, 0);
      var boxed := if breaker(u) then Generic("Box", name) else name;
      if breaker(u) {
        GenericBalanced("Box", name);
      }
      if RemoveNull(u.members).0 {
        GenericBalanced("Option", boxed);
      }
    }
  }

  // ---------------------------------------------------------------------------
  // Attributes
  // ---------------------------------------------------------------------------

  /** `visibility`: the prefix of every struct field. */
  function VisibilityPrefix(v: Visibility): (r: string)
    ensures r == "" <==> v == Private
    ensures r != "" ==> r[|r| - 1] == ' ' && "pub" <= r
  {
    match v
    case Crate => "pub(crate) "
    case Public => "pub "
    case Private => ""
  }

  /** The `#[derive(...)]` line; `serde` adds the derived `Serialize, Deserialize`. */
  function DeriveLine(options: RustOptions, serde: bool): string {
    DeriveOpen
      + (if options.deriveDebug then "Debug, " else "")
      + (if options.deriveClone then "Clone, " else "")
      + (if options.derivePartialEq then "PartialEq, " else "")
      + (if serde then SerdeTraits else ")]")
  }

  /**
   * Every derive line is an attribute; it ends in the serde traits exactly when
   * they are asked for, so the two forms for the same options differ.
   */
  lemma DeriveLineShape(options: RustOptions, serde: bool)
    ensures DeriveOpen <= DeriveLine(options, serde)
    ensures var r := DeriveLine(options, serde);
      serde ==> |r| >= 24 && r[|r| - 24..] == SerdeTraits
    ensures var r := DeriveLine(options, serde);
      !serde ==> r[|r| - 2..] == ")]" && r[|r| - 3] in {' ', '('}
    ensures DeriveLine(options, true) != DeriveLine(options, false)
  {
    var t := DeriveLine(options, true);
    assert t[|t| - 3] == 'e';
  }

  /** The property name re-styled: split on spaces, built in the default style, rendered in the preferred one. */
  function StyledName(naming: NamingStyles, propName: string, defaultStyle: string, preferredStyle: string): string {
    naming.withStyle(naming.fromParts(defaultStyle, Split(propName, ' ')), preferredStyle)
  }

  /**
   * `emitRenameAttribute`: one `#[serde(rename = "...")]` line exactly when
   * the escaped JSON name differs from the re-styled property name.
   */
  function RenameLines(env: Env, propName: string, jsonName: string, defaultStyle: string, preferredStyle: string): (r: seq<string>)
    ensures |r| <= 1
    ensures r != [] <==> env.escape(jsonName) != StyledName(env.naming, propName, defaultStyle, preferredStyle)
    ensures r != [] ==> r[0] == RenameOpen + env.escape(jsonName) + AttrClose
  {
    var escapedName := env.escape(jsonName);
    if escapedName != StyledName(env.naming, propName, defaultStyle, preferredStyle) then
      [RenameOpen + escapedName + AttrClose]
    else []
  }

  /**
   * The JSON key serde uses for a field or variant: the argument of its
   * `rename` attribute, or its re-styled name when it has none.
   */
  function SerdeKey(styledName: string, renameLines: seq<string>): string {
    if |renameLines| == 1 && |renameLines[0]| >= |RenameOpen| + |AttrClose| then
      renameLines[0][|RenameOpen|..|renameLines[0]| - |AttrClose|]
    else styledName
  }

  /** With or without the attribute, the field is read and written under its escaped JSON name. */
  lemma RenameKeepsJsonName(env: Env, propName: string, jsonName: string, defaultStyle: string, preferredStyle: string)
    ensures SerdeKey(StyledName(env.naming, propName, defaultStyle, preferredStyle),
                     RenameLines(env, propName, jsonName, defaultStyle, preferredStyle))
            == env.escape(jsonName)
  {
    var lines := RenameLines(env, propName, jsonName, defaultStyle, preferredStyle);
    if lines != [] {
      var a := RenameOpen + env.escape(jsonName) + AttrClose;
      assert a[|RenameOpen|..|a| - |AttrClose|] == env.escape(jsonName);
    }
  }

  /** One `#[serde(rename_all = "...")]` line exactly when the preferred style is not the default. */
  function RenameAllLines(preferredStyle: string, defaultStyle: string): (r: seq<string>)
    ensures |r| <= 1
    ensures r != [] <==> preferredStyle != defaultStyle
    ensures r != [] ==> r[0] == RenameAllOpen + preferredStyle + AttrClose
  {
    if preferredStyle != defaultStyle then [RenameAllOpen + preferredStyle + AttrClose] else []
  }

  /** `emitSkipSerializeNone`: the attribute for a union that is exactly `{T, null}`. */
  function SkipSerializeLines(t: Type): (r: seq<string>)
    ensures |r| <= 1
    ensures r != [] <==> t.UnionType? && NullableFromUnion(t.members).Some?
    ensures r != [] ==> r[0] == SkipIfNone
  {
    if t.UnionType? && NullableFromUnion(t.members).Some? then
      [SkipIfNone]
    else []
  }

  /**
   * `skip_serializing_if = "Option::is_none"` is put only on fields whose type
   * is an `Option`, unless the cycle analysis boxed the field.
   */
  lemma SkipOnlyOnOptionFields(t: Type, breaker: Type -> bool)
    requires SkipSerializeLines(t) != [] && !breaker(t)
    ensures "Option<" <= BreakCycle(t, breaker)
  {
    var nullable := NullableFromUnion(t.members).value;
    assert RustType(t, breaker) == Generic("Option", BreakCycle(nullable, breaker));
  }

  // ---------------------------------------------------------------------------
  // Naming styles of a struct's properties or a string enum's values
  // ---------------------------------------------------------------------------

  /** The matching styles of each key, in order. */
  function MatchingStylesOf(naming: NamingStyles, keys: seq<string>): (r: seq<seq<string>>)
    ensures |r| == |keys|
    ensures forall i :: 0 <= i < |keys| ==> r[i] == naming.matchingStyles(keys[i])
    decreases |keys|
  {
    if |keys| == 0 then []
    else MatchingStylesOf(naming, keys[..|keys| - 1]) + [naming.matchingStyles(keys[|keys| - 1])]
  }

  /**
   * `Object.values(table).flat()` for the table that maps each key to its
   * matching styles, with the keys in the order of their first occurrence
   * (JavaScript would put integer-like keys first).
   */
  function StylesFor(naming: NamingStyles, keys: seq<string>): seq<string> {
    Flatten(MatchingStylesOf(naming, Distinct(keys)))
  }

  lemma {:induction false} FlattenMember(xss: seq<seq<string>>, s: string)
    ensures s in Flatten(xss) <==> exists i :: 0 <= i < |xss| && s in xss[i]
    decreases |xss|
  {
    if |xss| > 0 {
      var init := xss[..|xss| - 1];
      FlattenMember(init, s);
      assert forall i :: 0 <= i < |init| ==> init[i] == xss[i];
    }
  }

  /** The collected styles are exactly those some key matches; repeated keys add nothing new. */
  lemma StylesForMembers(naming: NamingStyles, keys: seq<string>, s: string)
    ensures s in StylesFor(naming, keys) <==>
      exists i :: 0 <= i < |keys| && s in naming.matchingStyles(keys[i])
  {
    var d := Distinct(keys);
    var m := MatchingStylesOf(naming, d);
    FlattenMember(m, s);
    if s in StylesFor(naming, keys) {
      var i :| 0 <= i < |m| && s in m[i];
      assert d[i] in keys;
      var j :| 0 <= j < |keys| && keys[j] == d[i];
    }
    if exists i :: 0 <= i < |keys| && s in naming.matchingStyles(keys[i]) {
      var i :| 0 <= i < |keys| && s in naming.matchingStyles(keys[i]);
      assert keys[i] in d;
      var j :| 0 <= j < |d| && d[j] == keys[i];
      assert s in m[j];
    }
  }

  /**
   * The loop of `emitStructDefinition` (and of the string branch of
   * `emitEnumDefinition`) that fills a table from key to matching styles and
   * then flattens its values.
   */
  method CollectNamingStyles(naming: NamingStyles, keys: seq<string>) returns (styles: seq<string>)
    ensures styles == StylesFor(naming, keys)
  {
    var order: seq<string> := [];
    var table: map<string, seq<string>> := map[];
    var i := 0;
    while i < |keys|
      invariant 0 <= i <= |keys|
      invariant order == Distinct(keys[..i])
      invariant forall k :: k in table <==> k in order
      invariant forall k :: k in table ==> table[k] == naming.matchingStyles(k)
    {
      var key := keys[i];
      assert keys[..i + 1][..i] == keys[..i];
      if key !in table {
        order := order + [key];
      }
      table := table[key := naming.matchingStyles(key)];
      i := i + 1;
    }
    assert keys[..i] == keys;
    styles := [];
    var j := 0;
    while j < |order|
      invariant 0 <= j <= |order|
      invariant styles == Flatten(MatchingStylesOf(naming, order[..j]))
    {
      assert order[..j + 1][..j] == order[..j];
      assert order[j] in table;
      styles := styles + table[order[j]];
      j := j + 1;
    }
    assert order[..j] == order;
  }

  /** `getPreferredNamingStyle` over the styles of `keys`. */
  function PreferredStyle(naming: NamingStyles, keys: seq<string>, defaultStyle: string): string {
    naming.preferredStyle(StylesFor(naming, keys), defaultStyle)
  }

  // ---------------------------------------------------------------------------
  // Structs
  // ---------------------------------------------------------------------------

  function JsonNames(properties: seq<Property>): (r: seq<string>)
    ensures |r| == |properties|
    ensures forall i :: 0 <= i < |properties| ==> r[i] == properties[i].jsonName
    decreases |properties|
  {
    if |properties| == 0 then []
    else JsonNames(properties[..|properties| - 1]) + [properties[|properties| - 1].jsonName]
  }

  /** The field line: visibility, name, and the type through `breakCycle`. */
  function FieldLine(env: Env, p: Property): string {
    VisibilityPrefix(env.options.visibility) + p.name + ": " + BreakCycle(p.propType, env.breaker) + ","
  }

  /** The lines of one property: its rename attribute, its skip attribute, its field. */
  function PropertyLines(env: Env, preferredStyle: string, p: Property): (r: seq<string>)
    ensures 1 <= |r| <= 3 && r[|r| - 1] == FieldLine(env, p)
  {
    RenameLines(env, p.name, p.jsonName, StructDefaultStyle, preferredStyle)
      + (if env.options.skipSerializingNone then SkipSerializeLines(p.propType) else [])
      + [FieldLine(env, p)]
  }

  /** `PropertyLines` for a fixed environment and preferred style. */
  function PropertyLinesOf(env: Env, preferredStyle: string): Property -> seq<string> {
    p => PropertyLines(env, preferredStyle, p)
  }

  /** The lines of every property, in order. */
  function PropertiesLines(env: Env, preferredStyle: string, properties: seq<Property>): seq<string> {
    FlatMap(PropertyLinesOf(env, preferredStyle), properties)
  }

  lemma PropertiesLinesPrefix(env: Env, preferredStyle: string, properties: seq<Property>, i: nat)
    requires i < |properties|
    ensures PropertiesLines(env, preferredStyle, properties[..i + 1])
      == PropertiesLines(env, preferredStyle, properties[..i]) + PropertyLines(env, preferredStyle, properties[i])
  {
    FlatMapStep(PropertyLinesOf(env, preferredStyle), properties, i);
  }

  /** A property's lines before its field line are serde attributes. */
  lemma PropertyAttributes(env: Env, preferredStyle: string, p: Property)
    ensures var r := PropertyLines(env, preferredStyle, p);
      forall k :: 0 <= k < |r| - 1 ==> SerdeAttrOpen <= r[k]
  {
    var rename := RenameLines(env, p.name, p.jsonName, StructDefaultStyle, preferredStyle);
    var skip := if env.options.skipSerializingNone then SkipSerializeLines(p.propType) else [];
    var r := PropertyLines(env, preferredStyle, p);
    assert r == rename + skip + [FieldLine(env, p)];
    if rename != [] {
      assert rename[0] == SerdeAttrOpen + ("rename = \"" + env.escape(p.jsonName) + AttrClose);
    }
  }

  /** Where the lines of property `i` begin among the lines of all properties. */
  function PropertyStart(env: Env, preferredStyle: string, properties: seq<Property>, i: nat): nat
    requires i <= |properties|
  {
    |PropertiesLines(env, preferredStyle, properties[..i])|
  }

  /**
   * Property `i` owns the lines from its start to the next property's start:
   * exactly its own lines, which end with its field line (`PropertyLines`).
   */
  predicate PropertyBlock(env: Env, preferredStyle: string, properties: seq<Property>, i: nat)
    requires i < |properties|
  {
    var lines := PropertiesLines(env, preferredStyle, properties);
    var start := PropertyStart(env, preferredStyle, properties, i);
    var next := PropertyStart(env, preferredStyle, properties, i + 1);
    && start < next <= |lines|
    && lines[start..next] == PropertyLines(env, preferredStyle, properties[i])
  }

  /** The block of property `i`: its own lines, ending with its field line. */
  lemma PropertyBlockAt(env: Env, preferredStyle: string, properties: seq<Property>, i: nat)
    requires i < |properties|
    ensures PropertyBlock(env, preferredStyle, properties, i)
  {
    var f := PropertyLinesOf(env, preferredStyle);
    assert f(properties[i]) == PropertyLines(env, preferredStyle, properties[i]);
    FlatMapBlockAt(f, properties, i);
  }

  /** The lines of the properties end with the last property's field line. */
  lemma PropertiesLinesLast(env: Env, preferredStyle: string, properties: seq<Property>)
    requires |properties| > 0
    ensures var lines := PropertiesLines(env, preferredStyle, properties);
      |lines| > 0 && lines[|lines| - 1] == FieldLine(env, properties[|properties| - 1])
  {
    var f := PropertyLinesOf(env, preferredStyle);
    var own := PropertyLines(env, preferredStyle, properties[|properties| - 1]);
    assert f(properties[|properties| - 1]) == own;
    FlatMapLast(f, properties);
  }

  /**
   * The properties' lines split into consecutive, non-empty blocks, one per
   * property and in property order; each block is that property's attributes
   * followed by its own field line, so the struct has one field per property.
   */
  lemma PropertiesFieldCount(env: Env, preferredStyle: string, properties: seq<Property>)
    ensures |PropertiesLines(env, preferredStyle, properties)| >= |properties|
    ensures |properties| > 0 ==>
      var lines := PropertiesLines(env, preferredStyle, properties);
      lines[|lines| - 1] == FieldLine(env, properties[|properties| - 1])
    ensures PropertyStart(env, preferredStyle, properties, 0) == 0
    ensures PropertyStart(env, preferredStyle, properties, |properties|)
            == |PropertiesLines(env, preferredStyle, properties)|
    ensures forall i :: 0 <= i < |properties| ==> PropertyBlock(env, preferredStyle, properties, i)
  {
    var f := PropertyLinesOf(env, preferredStyle);
    forall i | 0 <= i < |properties|
      ensures |f(properties[i])| > 0
    {
      assert f(properties[i]) == PropertyLines(env, preferredStyle, properties[i]);
    }
    FlatMapLength(f, properties);
    if |properties| > 0 {
      PropertiesLinesLast(env, preferredStyle, properties);
    }
    assert properties[..0] == [];
    assert properties[..|properties|] == properties;
    forall i | 0 <= i < |properties|
      ensures PropertyBlock(env, preferredStyle, properties, i)
    {
      PropertyBlockAt(env, preferredStyle, properties, i);
    }
  }

  /** Everything `emitStructDefinition` emits for a class. */
  function StructLines(env: Env, properties: seq<Property>, className: string): (r: seq<string>)
    ensures |r| >= 3 + |properties|
    ensures r[0] == DeriveLine(env.options, true) && r[|r| - 1] == "}"
  {
    var preferred := PreferredStyle(env.naming, JsonNames(properties), StructDefaultStyle);
    PropertiesFieldCount(env, preferred, properties);
    [DeriveLine(env.options, true)] + RenameAllLines(preferred, StructDefaultStyle)
      + ["pub struct " + className + " {"] + PropertiesLines(env, preferred, properties) + ["}"]
  }

  /**
   * The second line of a struct is `rename_all` exactly when the properties'
   * JSON names prefer a style other than `snake_case`.
   */
  lemma StructRenameAll(env: Env, properties: seq<Property>, className: string)
    ensures var preferred := PreferredStyle(env.naming, JsonNames(properties), StructDefaultStyle);
      (StructLines(env, properties, className)[1] == RenameAllOpen + preferred + AttrClose)
        <==> preferred != StructDefaultStyle
  {
    var preferred := PreferredStyle(env.naming, JsonNames(properties), StructDefaultStyle);
    var r := StructLines(env, properties, className);
    if preferred == StructDefaultStyle {
      assert r[1] == "pub struct " + className + " {";
      assert r[1][0] == 'p';
    }
  }

  // ---------------------------------------------------------------------------
  // Untagged unions
  // ---------------------------------------------------------------------------

  function MemberLine(env: Env, fieldName: Type -> string, m: Type): string {
    fieldName(m) + "(" + BreakCycle(m, env.breaker) + "),"
  }

  function MemberLines(env: Env, fieldName: Type -> string, members: seq<Type>): (r: seq<string>)
    ensures |r| == |members|
    ensures forall i :: 0 <= i < |members| ==> r[i] == MemberLine(env, fieldName, members[i])
    decreases |members|
  {
    if |members| == 0 then []
    else MemberLines(env, fieldName, members[..|members| - 1]) + [MemberLine(env, fieldName, members[|members| - 1])]
  }

  /** Everything `emitUnion` emits: nothing for `{T, null}`, else an untagged enum. */
  function UnionLines(env: Env, u: Type, fieldName: Type -> string): seq<string>
    requires u.UnionType?
  {
    if NullableFromUnion(u.members).Some? then []
    else
      [DeriveLine(env.options, true), Untagged, "pub enum " + u.unionName + " {"]
        + MemberLines(env, fieldName, RemoveNull(u.members).1) + ["}"]
  }

  /**
   * A union emits nothing exactly when it collapses to a single nullable
   * member; otherwise one variant line per non-null member, in iteration order.
   */
  lemma UnionVariants(env: Env, u: Type, fieldName: Type -> string)
    requires u.UnionType?
    ensures UnionLines(env, u, fieldName) == [] <==> NullableFromUnion(u.members).Some?
    ensures NullableFromUnion(u.members).None? ==>
      var lines := UnionLines(env, u, fieldName);
      var nonNulls := RemoveNull(u.members).1;
      && |lines| == |nonNulls| + 4
      && lines[1] == Untagged
      && (forall i :: 0 <= i < |nonNulls| ==> lines[i + 3] == MemberLine(env, fieldName, nonNulls[i]))
      && (forall i :: 0 <= i < |nonNulls| ==> nonNulls[i] in u.members && nonNulls[i] != NullType)
  {
    if NullableFromUnion(u.members).None? {
      var nonNulls := RemoveNull(u.members).1;
      var head := [DeriveLine(env.options, true), Untagged, "pub enum " + u.unionName + " {"];
      var variants := MemberLines(env, fieldName, nonNulls);
      var lines := UnionLines(env, u, fieldName);
      assert lines == head + variants + ["}"];
      forall i | 0 <= i < |nonNulls|
        ensures lines[i + 3] == MemberLine(env, fieldName, nonNulls[i])
        ensures nonNulls[i] in u.members && nonNulls[i] != NullType
      {
        assert lines[i + 3] == variants[i];
        assert nonNulls[i] in nonNulls;
      }
    }
  }

  // ---------------------------------------------------------------------------
  // Enums
  // ---------------------------------------------------------------------------

  /** The three ways `emitEnumDefinition` renders an enum. */
  datatype EnumStrategy = CustomMixed | DerivedString | CustomScalar

  function Strategy(e: EnumDef): (s: EnumStrategy)
    ensures s == CustomMixed <==> e.isMixed
    ensures s == DerivedString <==> !e.isMixed && e.valueType == StringValues
  {
    if e.isMixed then CustomMixed
    else if e.valueType == StringValues then DerivedString
    else CustomScalar
  }

  /** The `visit_*` methods of the generated deserialization visitor. */
  datatype Visitor = VisitStr | VisitI64 | VisitF64 | VisitBool

  function VisitorSignature(v: Visitor, enumName: string): string {
    VisitorHead(v) + ") -> Result<" + enumName + ", E>"
  }

  /** The name and parameter of a `visit_*` method. */
  function VisitorHead(v: Visitor): string {
    match v
    case VisitStr => VisitStrHead
    case VisitI64 => VisitI64Head
    case VisitF64 => VisitF64Head
    case VisitBool => VisitBoolHead
  }

  const VisitStrHead := "fn visit_str<E>(self, value: &str"
  const VisitI64Head := "fn visit_i64<E>(self, value: i64"
  const VisitF64Head := "fn visit_f64<E>(self, value: f64"
  const VisitBoolHead := "fn visit_bool<E>(self, value: bool"

  /** Which visitor methods are emitted for an enum with a custom implementation. */
  function Visitors(e: EnumDef): (r: seq<Visitor>)
    ensures |r| <= 4
    ensures VisitStr in r ==> e.isMixed && HasStringCase(e.cases)
  {
    if e.isMixed then
      (if HasStringCase(e.cases) then [VisitStr] else [])
        + (if HasNumberCase(e.cases) then [VisitI64, VisitF64] else [])
        + (if HasBooleanCase(e.cases) then [VisitBool] else [])
    else if e.valueType == NumberValues then [VisitI64, VisitF64]
    else if e.valueType == BooleanValues then [VisitBool]
    else []
  }

  function VisitorLines(visitors: seq<Visitor>, enumName: string): seq<string> {
    seq(|visitors|, i requires 0 <= i < |visitors| => VisitorSignature(visitors[i], enumName))
  }

  /**
   * A mixed enum's visitor accepts exactly the kinds of value its cases hold;
   * a number enum's accepts integers and floats, a boolean enum's booleans,
   * and neither accepts strings.
   */
  lemma VisitorsMatchCases(e: EnumDef)
    ensures e.isMixed ==> (VisitStr in Visitors(e) <==> HasStringCase(e.cases))
    ensures e.isMixed ==> (VisitI64 in Visitors(e) <==> HasNumberCase(e.cases))
    ensures e.isMixed ==> (VisitF64 in Visitors(e) <==> HasNumberCase(e.cases))
    ensures e.isMixed ==> (VisitBool in Visitors(e) <==> HasBooleanCase(e.cases))
    ensures !e.isMixed ==> VisitStr !in Visitors(e)
    ensures !e.isMixed ==> (VisitI64 in Visitors(e) <==> e.valueType == NumberValues)
    ensures !e.isMixed ==> (VisitF64 in Visitors(e) <==> e.valueType == NumberValues)
    ensures !e.isMixed ==> (VisitBool in Visitors(e) <==> e.valueType == BooleanValues)
  {
  }

  lemma VisitorLinesAppend(a: seq<Visitor>, b: seq<Visitor>, enumName: string)
    ensures VisitorLines(a + b, enumName) == VisitorLines(a, enumName) + VisitorLines(b, enumName)
  {
    var whole := VisitorLines(a + b, enumName);
    var parts := VisitorLines(a, enumName) + VisitorLines(b, enumName);
    forall i | 0 <= i < |whole|
      ensures whole[i] == parts[i]
    {
      if i >= |a| {
        assert (a + b)[i] == b[i - |a|];
      }
    }
  }

  /** The final `deserializer.deserialize_*(...)` call of the custom `Deserialize`. */
  function DeserializeCall(e: EnumDef, enumName: string): (r: seq<string>)
    ensures |r| <= 1
    ensures r != [] <==> e.isMixed || e.valueType == NumberValues || e.valueType == BooleanValues
  {
    if e.isMixed then ["deserializer.deserialize_any(" + enumName + "Visitor)"]
    else if e.valueType == NumberValues then ["deserializer.deserialize_f64(" + enumName + "Visitor)"]
    else if e.valueType == BooleanValues then ["deserializer.deserialize_bool(" + enumName + "Visitor)"]
    else []
  }

  /**
   * The `deserialize_*` hint agrees with the visitor: `deserialize_f64` only
   * when the visitor takes integers and floats, `deserialize_bool` only when it
   * takes booleans, `deserialize_any` exactly for mixed enums; a non-mixed enum
   * has a hint exactly when it has visitor methods. For a custom
   * implementation the hint is the last line of `EnumLines`, the last line
   * this model emits for the enum (the closing braces are not modelled).
   */
  lemma DeserializeEntryPoint(env: Env, e: EnumDef, enumName: string)
    ensures DeserializeCall(e, enumName) == ["deserializer.deserialize_any(" + enumName + "Visitor)"] <==> e.isMixed
    ensures DeserializeCall(e, enumName) == ["deserializer.deserialize_f64(" + enumName + "Visitor)"] ==>
      VisitI64 in Visitors(e) && VisitF64 in Visitors(e)
    ensures DeserializeCall(e, enumName) == ["deserializer.deserialize_bool(" + enumName + "Visitor)"] ==>
      VisitBool in Visitors(e)
    ensures !e.isMixed ==> (DeserializeCall(e, enumName) == [] <==> Visitors(e) == [])
    ensures Strategy(e) != DerivedString && DeserializeCall(e, enumName) != [] ==>
      var lines := EnumLines(env, e, enumName);
      |lines| > 0 && lines[|lines| - 1] == DeserializeCall(e, enumName)[0]
  {
    var any := "deserializer.deserialize_any(" + enumName + "Visitor)";
    var f64 := "deserializer.deserialize_f64(" + enumName + "Visitor)";
    var boolCall := "deserializer.deserialize_bool(" + enumName + "Visitor)";
    assert any[25] == 'a' && f64[25] == 'f' && boolCall[25] == 'b';
    if !e.isMixed && e.valueType == NumberValues {
      assert Visitors(e)[1] == VisitF64;
    }
  }

  /**
   * The `match self` arm that serializes one case: integers with
   * `serialize_i64`, other numbers with `serialize_f64`; strings only in a
   * mixed enum.
   */
  function SerializeArm(env: Env, enumName: string, c: EnumCase, mixed: bool): (r: Option<string>)
    ensures r.None? <==> c.value.StrValue? && !mixed
    ensures c.value.NumValue? && c.value.n.isInteger ==>
      r == Some(enumName + "::" + c.name + " => serializer.serialize_i64(" + c.value.n.text + "),")
    ensures c.value.NumValue? && !c.value.n.isInteger ==>
      r == Some(enumName + "::" + c.name + " => serializer.serialize_f64(" + c.value.n.text + "),")
  {
    match c.value
    case StrValue(s) =>
      if mixed then Some(enumName + "::" + c.name + " => serializer.serialize_str(\"" + env.escape(s) + "\"),")
      else None
    case NumValue(n) =>
      if n.isInteger then Some(enumName + "::" + c.name + " => serializer.serialize_i64(" + n.text + "),")
      else Some(enumName + "::" + c.name + " => serializer.serialize_f64(" + n.text + "),")
    case BoolValue(_) =>
      Some(enumName + "::" + c.name + " => serializer.serialize_bool(" + ValueText(c.value) + "),")
  }

  function SerializeArms(env: Env, enumName: string, cases: seq<EnumCase>, mixed: bool): (r: seq<string>)
    ensures |r| <= |cases|
    ensures mixed ==> |r| == |cases|
    decreases |cases|
  {
    if |cases| == 0 then []
    else
      var init := SerializeArms(env, enumName, cases[..|cases| - 1], mixed);
      match SerializeArm(env, enumName, cases[|cases| - 1], mixed)
      case Some(arm) => init + [arm]
      case None => init
  }

  function CaseNameLines(cases: seq<EnumCase>): (r: seq<string>)
    ensures |r| == |cases|
    ensures forall i :: 0 <= i < |cases| ==> r[i] == cases[i].name + ","
    decreases |cases|
  {
    if |cases| == 0 then []
    else CaseNameLines(cases[..|cases| - 1]) + [cases[|cases| - 1].name + ","]
  }

  /** `String(value)` of every case, the keys of the string enum's style table. */
  function CaseTexts(cases: seq<EnumCase>): (r: seq<string>)
    ensures |r| == |cases|
    ensures forall i :: 0 <= i < |cases| ==> r[i] == ValueText(cases[i].value)
    decreases |cases|
  {
    if |cases| == 0 then []
    else CaseTexts(cases[..|cases| - 1]) + [ValueText(cases[|cases| - 1].value)]
  }

  /** One case of a string enum: its rename attribute and its name. */
  function StringCaseLines(env: Env, preferredStyle: string, c: EnumCase): seq<string> {
    RenameLines(env, c.name, ValueText(c.value), EnumDefaultStyle, preferredStyle) + [c.name + ","]
  }

  function StringCasesLines(env: Env, preferredStyle: string, cases: seq<EnumCase>): seq<string>
    decreases |cases|
  {
    if |cases| == 0 then []
    else StringCasesLines(env, preferredStyle, cases[..|cases| - 1]) + StringCaseLines(env, preferredStyle, cases[|cases| - 1])
  }

  /**
   * What `emitEnumDefinition` emits, as far as this model goes: the derive
   * line, `rename_all` and the enum block for string enums; for the others the
   * enum block, one serialize arm per case, the visitor method signatures and
   * the final `deserialize_*` call.
   */
  function EnumLines(env: Env, e: EnumDef, enumName: string): seq<string> {
    if Strategy(e) == DerivedString then StringEnumLines(env, e.cases, enumName)
    else CustomEnumLines(env, e, enumName)
  }

  /** A string enum: derived serde, `rename_all` when a style is preferred, one case per line. */
  function StringEnumLines(env: Env, cases: seq<EnumCase>, enumName: string): seq<string> {
    var preferred := PreferredStyle(env.naming, CaseTexts(cases), EnumDefaultStyle);
    [DeriveLine(env.options, true)] + RenameAllLines(preferred, EnumDefaultStyle)
      + ["pub enum " + enumName + " {"] + StringCasesLines(env, preferred, cases) + ["}"]
  }

  /** A mixed, number or boolean enum: plain cases and a hand-written serde implementation. */
  function CustomEnumLines(env: Env, e: EnumDef, enumName: string): seq<string> {
    CustomHeadLines(env, e, enumName) + VisitorLines(Visitors(e), enumName) + DeserializeCall(e, enumName)
  }

  /** The derive line, the enum block and the serialize arms of a custom implementation. */
  function CustomHeadLines(env: Env, e: EnumDef, enumName: string): seq<string> {
    [DeriveLine(env.options, false), "pub enum " + enumName + " {"] + CaseNameLines(e.cases) + ["}"]
      + SerializeArms(env, enumName, e.cases, e.isMixed)
  }

  /**
   * Only a non-mixed string enum derives `Serialize, Deserialize`; mixed,
   * number and boolean enums get a custom implementation instead.
   */
  lemma EnumDispatch(env: Env, e: EnumDef, enumName: string)
    ensures EnumLines(env, e, enumName)[0] == DeriveLine(env.options, !e.isMixed && e.valueType == StringValues)
    ensures Strategy(e) != DerivedString ==>
      var lines := EnumLines(env, e, enumName);
      |lines| >= |e.cases| + 3 && forall i :: 0 <= i < |e.cases| ==> lines[i + 2] == e.cases[i].name + ","
  {
  }

  // ---------------------------------------------------------------------------
  // The renderer
  // ---------------------------------------------------------------------------

  /**
   * The imports `emitSourceStructure` writes before the definitions: the serde
   * derive macros in the 2018-edition or the pre-2018 form, then `HashMap`
   * exactly when some generated type uses a map.
   */
  function SourceHeaderLines(edition2018: bool, haveMaps: bool): (r: seq<string>)
    ensures 1 <= |r| <= 2
    ensures r[0] == (if edition2018 then "use serde::{Serialize, Deserialize};" else "extern crate serde_derive;")
    ensures HashMapImport in r <==> haveMaps
  {
    [if edition2018 then "use serde::{Serialize, Deserialize};" else "extern crate serde_derive;"]
      + (if haveMaps then [HashMapImport] else [])
  }

  const HashMapImport := "use std::collections::HashMap;"

  class RustRenderer {
    const env: Env
    const out: LineBuffer

    constructor (env: Env, out: LineBuffer)
      ensures this.env == env && this.out == out
    {
      this.env := env;
      this.out := out;
    }

    method EmitRenameAttribute(propName: string, jsonName: string, defaultStyle: string, preferredStyle: string)
      modifies out
      ensures out.lines == old(out.lines) + RenameLines(env, propName, jsonName, defaultStyle, preferredStyle)
    {
      var escapedName := env.escape(jsonName);
      var name := env.naming.fromParts(defaultStyle, Split(propName, ' '));
      var styledName := env.naming.withStyle(name, preferredStyle);
      if escapedName != styledName {
        out.EmitLine(RenameOpen + escapedName + AttrClose);
      }
    }

    method EmitSkipSerializeNone(t: Type)
      modifies out
      ensures out.lines == old(out.lines) + SkipSerializeLines(t)
    {
      if t.UnionType? {
        var nullable := NullableFromUnion(t.members);
        if nullable.Some? {
          out.EmitLine(SkipIfNone);
        }
      }
    }

    method EmitStructDefinition(properties: seq<Property>, className: string)
      modifies out
      ensures out.lines == old(out.lines) + StructLines(env, properties, className)
    {
      ghost var start := out.lines;
      out.EmitLine(DeriveLine(env.options, true));
      var preferred := EmitRenameAll(JsonNames(properties), StructDefaultStyle);
      ghost var head := [DeriveLine(env.options, true)];
      AppendAssoc(start, head, RenameAllLines(preferred, StructDefaultStyle));
      head := head + RenameAllLines(preferred, StructDefaultStyle);
      out.EmitLine("pub struct " + className + " {");
      AppendAssoc(start, head, ["pub struct " + className + " {"]);
      head := head + ["pub struct " + className + " {"];
      EmitProperties(properties, preferred);
      AppendAssoc(start, head, PropertiesLines(env, preferred, properties));
      head := head + PropertiesLines(env, preferred, properties);
      out.EmitLine("}");
      AppendAssoc(start, head, ["}"]);
    }

    /**
     * Collects the naming styles of `keys`, asks for the preferred one and emits
     * `rename_all` when it is not the default; returns the preferred style.
     */
    method EmitRenameAll(keys: seq<string>, defaultStyle: string) returns (preferred: string)
      modifies out
      ensures preferred == PreferredStyle(env.naming, keys, defaultStyle)
      ensures out.lines == old(out.lines) + RenameAllLines(preferred, defaultStyle)
    {
      var styles := CollectNamingStyles(env.naming, keys);
      preferred := env.naming.preferredStyle(styles, defaultStyle);
      if preferred != defaultStyle {
        out.EmitLine(RenameAllOpen + preferred + AttrClose);
      }
    }

    /** The body of the struct: each property's attributes and field line. */
    method EmitProperties(properties: seq<Property>, preferred: string)
      modifies out
      ensures out.lines == old(out.lines) + PropertiesLines(env, preferred, properties)
    {
      ghost var start := out.lines;
      var i := 0;
      while i < |properties|
        invariant 0 <= i <= |properties|
        invariant out.lines == start + PropertiesLines(env, preferred, properties[..i])
      {
        PropertiesLinesPrefix(env, preferred, properties, i);
        EmitProperty(properties[i], preferred);
        AppendAssoc(start, PropertiesLines(env, preferred, properties[..i]), PropertyLines(env, preferred, properties[i]));
        i := i + 1;
      }
      assert properties[..i] == properties;
    }

    /** One property: its rename attribute, its skip attribute when enabled, its field. */
    method EmitProperty(p: Property, preferred: string)
      modifies out
      ensures out.lines == old(out.lines) + PropertyLines(env, preferred, p)
    {
      ghost var start := out.lines;
      EmitRenameAttribute(p.name, p.jsonName, StructDefaultStyle, preferred);
      ghost var head := RenameLines(env, p.name, p.jsonName, StructDefaultStyle, preferred);
      ghost var skip := if env.options.skipSerializingNone then SkipSerializeLines(p.propType) else [];
      if env.options.skipSerializingNone {
        EmitSkipSerializeNone(p.propType);
      }
      AppendAssoc(start, head, skip);
      head := head + skip;
      out.EmitLine(FieldLine(env, p));
      AppendAssoc(start, head, [FieldLine(env, p)]);
    }

    method EmitUnion(u: Type, fieldName: Type -> string)
      requires u.UnionType?
      modifies out
      ensures out.lines == old(out.lines) + UnionLines(env, u, fieldName)
    {
      var isMaybeWithSingleType := NullableFromUnion(u.members);
      if isMaybeWithSingleType.Some? {
        return;
      }
      ghost var start := out.lines;
      out.EmitLine(DeriveLine(env.options, true));
      out.EmitLine(Untagged);
      var nonNulls := RemoveNull(u.members).1;
      out.EmitLine("pub enum " + u.unionName + " {");
      ghost var head := [DeriveLine(env.options, true), Untagged, "pub enum " + u.unionName + " {"];
      assert out.lines == start + head;
      EmitMemberLines(nonNulls, fieldName);
      AppendAssoc(start, head, MemberLines(env, fieldName, nonNulls));
      head := head + MemberLines(env, fieldName, nonNulls);
      out.EmitLine("}");
      AppendAssoc(start, head, ["}"]);
    }

    /** The variant lines of `emitUnion`, one per non-null member. */
    method EmitMemberLines(nonNulls: seq<Type>, fieldName: Type -> string)
      modifies out
      ensures out.lines == old(out.lines) + MemberLines(env, fieldName, nonNulls)
    {
      ghost var start := out.lines;
      var i := 0;
      while i < |nonNulls|
        invariant 0 <= i <= |nonNulls|
        invariant out.lines == start + MemberLines(env, fieldName, nonNulls[..i])
      {
        assert nonNulls[..i + 1][..i] == nonNulls[..i];
        var rustType := BreakCycle(nonNulls[i], env.breaker);
        out.EmitLine(fieldName(nonNulls[i]) + "(" + rustType + "),");
        AppendAssoc(start, MemberLines(env, fieldName, nonNulls[..i]), [MemberLine(env, fieldName, nonNulls[i])]);
        i := i + 1;
      }
      assert nonNulls[..i] == nonNulls;
    }

    /** The `pub enum` block listing each case name. */
    method EmitCaseNameBlock(cases: seq<EnumCase>, enumName: string)
      modifies out
      ensures out.lines == old(out.lines) + (["pub enum " + enumName + " {"] + CaseNameLines(cases) + ["}"])
    {
      ghost var start := out.lines;
      out.EmitLine("pub enum " + enumName + " {");
      ghost var head := ["pub enum " + enumName + " {"];
      var i := 0;
      while i < |cases|
        invariant 0 <= i <= |cases|
        invariant out.lines == start + (head + CaseNameLines(cases[..i]))
      {
        assert cases[..i + 1][..i] == cases[..i];
        out.EmitLine(cases[i].name + ",");
        AppendAssoc(start, head + CaseNameLines(cases[..i]), [cases[i].name + ","]);
        AppendAssoc(head, CaseNameLines(cases[..i]), [cases[i].name + ","]);
        i := i + 1;
      }
      assert cases[..i] == cases;
      head := head + CaseNameLines(cases);
      out.EmitLine("}");
      AppendAssoc(start, head, ["}"]);
    }

    /** The arms of the custom `Serialize` implementation. */
    method EmitSerializeArms(cases: seq<EnumCase>, enumName: string, mixed: bool)
      modifies out
      ensures out.lines == old(out.lines) + SerializeArms(env, enumName, cases, mixed)
    {
      ghost var start := out.lines;
      var i := 0;
      while i < |cases|
        invariant 0 <= i <= |cases|
        invariant out.lines == start + SerializeArms(env, enumName, cases[..i], mixed)
      {
        assert cases[..i + 1][..i] == cases[..i];
        var c := cases[i];
        ghost var arm := SerializeArm(env, enumName, c, mixed);
        match c.value {
          case StrValue(s) =>
            if mixed {
              out.EmitLine(enumName + "::" + c.name + " => serializer.serialize_str(\"" + env.escape(s) + "\"),");
            }
          case NumValue(n) =>
            if n.isInteger {
              out.EmitLine(enumName + "::" + c.name + " => serializer.serialize_i64(" + n.text + "),");
            } else {
              out.EmitLine(enumName + "::" + c.name + " => serializer.serialize_f64(" + n.text + "),");
            }
          case BoolValue(_) =>
            out.EmitLine(enumName + "::" + c.name + " => serializer.serialize_bool(" + ValueText(c.value) + "),");
        }
        if arm.Some? {
          AppendAssoc(start, SerializeArms(env, enumName, cases[..i], mixed), [arm.value]);
        }
        i := i + 1;
      }
      assert cases[..i] == cases;
    }

    method EmitEnumDefinition(e: EnumDef, enumName: string)
      modifies out
      ensures out.lines == old(out.lines) + EnumLines(env, e, enumName)
    {
      if e.isMixed {
        EmitMixedEnum(e, enumName);
        return;
      }
      if e.valueType == StringValues {
        EmitStringEnum(e.cases, enumName);
        return;
      }
      EmitScalarEnum(e, enumName);
    }

    /** A mixed enum: plain cases, and visitors for exactly the kinds of value present. */
    method EmitMixedEnum(e: EnumDef, enumName: string)
      requires e.isMixed
      modifies out
      ensures out.lines == old(out.lines) + CustomEnumLines(env, e, enumName)
    {
      ghost var start := out.lines;
      EmitCustomHead(e, enumName);
      ghost var head := CustomHeadLines(env, e, enumName);
      EmitMixedVisitors(e, enumName);
      AppendAssoc(start, head, VisitorLines(Visitors(e), enumName));
      head := head + VisitorLines(Visitors(e), enumName);
      out.EmitLine("deserializer.deserialize_any(" + enumName + "Visitor)");
      AppendAssoc(start, head, DeserializeCall(e, enumName));
    }

    /** The `visit_*` methods of a mixed enum: one per kind of value its cases hold. */
    method EmitMixedVisitors(e: EnumDef, enumName: string)
      requires e.isMixed
      modifies out
      ensures out.lines == old(out.lines) + VisitorLines(Visitors(e), enumName)
    {
      var hasString := HasStringCase(e.cases);
      var hasNumber := HasNumberCase(e.cases);
      var hasBoolean := HasBooleanCase(e.cases);
      ghost var strings: seq<Visitor> := if hasString then [VisitStr] else [];
      ghost var numbers: seq<Visitor> := if hasNumber then [VisitI64, VisitF64] else [];
      ghost var booleans: seq<Visitor> := if hasBoolean then [VisitBool] else [];
      ghost var start := out.lines;
      if hasString {
        out.EmitLine(VisitorSignature(VisitStr, enumName));
      }
      assert out.lines == start + VisitorLines(strings, enumName);
      ghost var mid := out.lines;
      if hasNumber {
        out.EmitLine(VisitorSignature(VisitI64, enumName));
        out.EmitLine(VisitorSignature(VisitF64, enumName));
      }
      assert out.lines == mid + VisitorLines(numbers, enumName);
      VisitorLinesAppend(strings, numbers, enumName);
      AppendAssoc(start, VisitorLines(strings, enumName), VisitorLines(numbers, enumName));
      mid := out.lines;
      if hasBoolean {
        out.EmitLine(VisitorSignature(VisitBool, enumName));
      }
      assert out.lines == mid + VisitorLines(booleans, enumName);
      VisitorLinesAppend(strings + numbers, booleans, enumName);
      AppendAssoc(start, VisitorLines(strings + numbers, enumName), VisitorLines(booleans, enumName));
      assert Visitors(e) == strings + numbers + booleans;
    }

    /** The derive line, the enum block and the serialize arms of a custom implementation. */
    method EmitCustomHead(e: EnumDef, enumName: string)
      modifies out
      ensures out.lines == old(out.lines) + CustomHeadLines(env, e, enumName)
    {
      ghost var start := out.lines;
      out.EmitLine(DeriveLine(env.options, false));
      ghost var head := [DeriveLine(env.options, false)];
      EmitCaseNameBlock(e.cases, enumName);
      ghost var block := ["pub enum " + enumName + " {"] + CaseNameLines(e.cases) + ["}"];
      AppendAssoc(start, head, block);
      head := head + block;
      assert head == [DeriveLine(env.options, false), "pub enum " + enumName + " {"] + CaseNameLines(e.cases) + ["}"];
      EmitSerializeArms(e.cases, enumName, e.isMixed);
      AppendAssoc(start, head, SerializeArms(env, enumName, e.cases, e.isMixed));
    }

    /** A string enum: derived serde with `rename_all` and per-case `rename` attributes. */
    method EmitStringEnum(cases: seq<EnumCase>, enumName: string)
      modifies out
      ensures out.lines == old(out.lines) + StringEnumLines(env, cases, enumName)
    {
      ghost var start := out.lines;
      out.EmitLine(DeriveLine(env.options, true));
      var preferred := EmitRenameAll(CaseTexts(cases), EnumDefaultStyle);
      ghost var head := [DeriveLine(env.options, true)];
      AppendAssoc(start, head, RenameAllLines(preferred, EnumDefaultStyle));
      head := head + RenameAllLines(preferred, EnumDefaultStyle);
      out.EmitLine("pub enum " + enumName + " {");
      AppendAssoc(start, head, ["pub enum " + enumName + " {"]);
      head := head + ["pub enum " + enumName + " {"];
      EmitStringCases(cases, preferred);
      AppendAssoc(start, head, StringCasesLines(env, preferred, cases));
      head := head + StringCasesLines(env, preferred, cases);
      out.EmitLine("}");
      AppendAssoc(start, head, ["}"]);
    }

    method EmitStringCases(cases: seq<EnumCase>, preferred: string)
      modifies out
      ensures out.lines == old(out.lines) + StringCasesLines(env, preferred, cases)
    {
      ghost var start := out.lines;
      var i := 0;
      while i < |cases|
        invariant 0 <= i <= |cases|
        invariant out.lines == start + StringCasesLines(env, preferred, cases[..i])
      {
        assert cases[..i + 1][..i] == cases[..i];
        var c := cases[i];
        ghost var mid := out.lines;
        EmitRenameAttribute(c.name, ValueText(c.value), EnumDefaultStyle, preferred);
        out.EmitLine(c.name + ",");
        ghost var rename := RenameLines(env, c.name, ValueText(c.value), EnumDefaultStyle, preferred);
        AppendAssoc(mid, rename, [c.name + ","]);
        AppendAssoc(start, StringCasesLines(env, preferred, cases[..i]), StringCaseLines(env, preferred, c));
        i := i + 1;
      }
      assert cases[..i] == cases;
    }

    /** A number or boolean enum: plain cases and the visitors of its value type. */
    method EmitScalarEnum(e: EnumDef, enumName: string)
      requires !e.isMixed && e.valueType != StringValues
      modifies out
      ensures out.lines == old(out.lines) + CustomEnumLines(env, e, enumName)
    {
      ghost var start := out.lines;
      EmitCustomHead(e, enumName);
      ghost var head := CustomHeadLines(env, e, enumName);
      ghost var visitors := VisitorLines(Visitors(e), enumName);
      if e.valueType == NumberValues {
        out.EmitLine(VisitorSignature(VisitI64, enumName));
        out.EmitLine(VisitorSignature(VisitF64, enumName));
        assert visitors == [VisitorSignature(VisitI64, enumName), VisitorSignature(VisitF64, enumName)];
      } else if e.valueType == BooleanValues {
        out.EmitLine(VisitorSignature(VisitBool, enumName));
        assert visitors == [VisitorSignature(VisitBool, enumName)];
      }
      AppendAssoc(start, head, visitors);
      head := head + visitors;
      if e.valueType == NumberValues {
        out.EmitLine("deserializer.deserialize_f64(" + enumName + "Visitor)");
      } else if e.valueType == BooleanValues {
        out.EmitLine("deserializer.deserialize_bool(" + enumName + "Visitor)");
      }
      AppendAssoc(start, head, DeserializeCall(e, enumName));
    }

    /** `emitTopLevelAlias`. */
    method EmitTopLevelAlias(t: Type, name: string)
      modifies out
      ensures out.lines == old(out.lines) + ["pub type " + name + " = " + RustType(t, env.breaker) + ";"]
    {
      out.EmitLine("pub type " + name + " = " + RustType(t, env.breaker) + ";");
    }

    /** The import lines of `emitSourceStructure`, after any leading comments. */
    method EmitSourceHeader(edition2018: bool, haveMaps: bool)
      modifies out
      ensures out.lines == old(out.lines) + SourceHeaderLines(edition2018, haveMaps)
    {
      if edition2018 {
        out.EmitLine("use serde::{Serialize, Deserialize};");
      } else {
        out.EmitLine("extern crate serde_derive;");
      }
      if haveMaps {
        out.EmitLine(HashMapImport);
      }
    }
  }
}
