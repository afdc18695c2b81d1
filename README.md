# quicktype target renderers, modelled in Dafny

quicktype reads JSON samples or schemas, infers a type graph, and renders that
graph as source code for a target language. This project models four of its
target renderers: Rust (serde), Kotlin (kotlinx.serialization), TypeScript and
Flow. It covers the decisions each one makes when it turns a type or an enum
into lines of code.

- **Type graph** (`type_graph.dfy`): the eleven type kinds, unions with their
  null member, and enums with their cases and value type. A named type
  (class, enum, union) carries the name the naming engine gave it.
- **Output** (`output.dfy`): the renderer's line buffer. `LineBuffer.EmitLine`
  appends one line, and every `Emit*` method of a renderer class states its
  effect as `out.lines == old(out.lines) + <spec function>`.
- **Rust** (`rust_renderer.dfy`):
  - `rustType`, `breakCycle` and the `Box`/`Option` wrapping;
  - the `rename`, `rename_all` and `skip_serializing_if` attributes;
  - the struct and untagged-union layouts;
  - the three-way enum dispatch, with the visitor methods and the `deserialize_*` hint.
- **Kotlin** (`kotlinx_renderer.dfy`):
  - JSON-tree collapsing of arrays and maps;
  - `@SerialName` renames;
  - value enums with their `,`/`;` separators;
  - the custom `KSerializer` of mixed enums.
- **TypeScript** (`typescript_renderer.dfy`): the `Convert` signatures and
  their raw type, the usage import comment, enums as unions or `enum` blocks,
  and class headers.
- **Flow** (`flow_renderer.dfy`): enums as multi-line unions, exact object
  types, and the `// @flow` pragma.
- **Shared by TypeScript and Flow** (`typescript_flow_base.dfy`): their options
  and the literal text of an enum value.
- **Text helpers** (`text.dfy`): join and split, and a bracket-balance check
  for generated Rust types.

Collaborators that live outside these four files are parameters of the model,
kept in each renderer's environment datatype:

- the naming engine;
- the cycle analysis (`isCycleBreakerType`);
- the string escapes;
- `camelCase`;
- the Kotlin base renderer's `kotlinType`, `arrayType` and `mapType`;
- the TypeScript base renderer's `sourceFor`.

Sourcelike values are compared as the strings they render to.

## Model

| member | source | states |
|---|---|---|
| TypeGraph.Kind | packages/quicktype-core/src/language/Rust/RustRenderer.ts:103-106 | The kind is `array`, `map` or `union` exactly for the matching type variant. |
| TypeGraph.RemoveNull | packages/quicktype-core/src/language/Rust/RustRenderer.ts:145 | Reports whether null is a member; the rest are exactly the non-null members, each once (the members form a set), no more of them than in the union. |
| TypeGraph.NullableFromUnion | packages/quicktype-core/src/language/Rust/RustRenderer.ts:140-143 | Some exactly when the union's member set is `{T, null}`; the result is that `T`, a non-null member. |
| TypeGraph.RepeatedMember | packages/quicktype-core/src/language/Rust/RustRenderer.ts:140-145 | A member listed again is the same member of the set: neither the non-null members nor the nullable collapse change. |
| TypeGraph.ValueText | packages/quicktype-core/src/language/TypeScriptFlow/TypeScriptRenderer.ts:81-83 | `String(value)`: a string case is its own text; number and boolean texts are never empty. |
| Text.JoinWith | packages/quicktype-core/src/language/TypeScriptFlow/TypeScriptRenderer.ts:79-90 | Joining nothing gives the empty string; otherwise the result starts with the first part. |
| Text.JoinAppend | packages/quicktype-core/src/language/TypeScriptFlow/TypeScriptRenderer.ts:84-89 | Appending a part extends the joined text by the separator and the part, or is just the part when it is the first. |
| Text.Split | packages/quicktype-core/src/language/Rust/RustRenderer.ts:175 | `split(" ")` yields at least one part, and no part contains the separator. |
| Text.JoinSplit | packages/quicktype-core/src/language/Rust/RustRenderer.ts:175 | Joining the split parts with the separator gives back the original text. |
| Text.SplitJoin | packages/quicktype-core/src/language/Rust/RustRenderer.ts:175 | Splitting parts that are joined with a separator they do not contain gives back the parts. |
| Text.Distinct | packages/quicktype-core/src/language/Rust/RustRenderer.ts:216-220 | The object keyed by JSON name keeps every name once: same elements, no duplicates. |
| RustRenderer.IsImplicitCycleBreaker | packages/quicktype-core/src/language/Rust/RustRenderer.ts:103-106 | True exactly for arrays and maps. |
| RustRenderer.RustType | packages/quicktype-core/src/language/Rust/RustRenderer.ts:108-158 | `rustType`; its results are stated by `RustTypeOfPrimitives`, `ContainerElementBoxing`, `UnionRendering`, `DoubleBoxing` and `RustTypeBalanced`. |
| RustRenderer.NullableRustType | packages/quicktype-core/src/language/Rust/RustRenderer.ts:99-101 | Starts with `Option<` and ends with `>`; `UnionRendering` states that the argument is `breakCycle` of the member. |
| RustRenderer.BreakCycle | packages/quicktype-core/src/language/Rust/RustRenderer.ts:160-165 | Exactly one extra `Box<…>` around `rustType` iff the type is a cycle breaker, otherwise `rustType` unchanged. |
| RustRenderer.RustTypeOfPrimitives | packages/quicktype-core/src/language/Rust/RustRenderer.ts:108-126 | bool, i64, f64 and String for the primitives; `Option<serde_json::Value>` for any and null. |
| RustRenderer.IdentifierNotBoxPrefix | packages/quicktype-core/src/language/Rust/RustRenderer.ts:132-138 | A class or enum name is an identifier and starts with neither `Box<` nor `Option<`. |
| RustRenderer.ContainerElementBoxing | packages/quicktype-core/src/language/Rust/RustRenderer.ts:127-137 | `Vec<…>` and `HashMap<String, …>` hold the element's `rustType`, not `breakCycle`; the element starts with `Box<` only when it is a boxed union. |
| RustRenderer.UnionRendering | packages/quicktype-core/src/language/Rust/RustRenderer.ts:99-156 | A union renders as `Option<…>` iff it has a null member; a single-type nullable union is `Option<breakCycle(T)>`; any other union is its name, boxed iff a cycle breaker, then wrapped in `Option` iff it had null. |
| RustRenderer.DoubleBoxing | packages/quicktype-core/src/language/Rust/RustRenderer.ts:139-165 | A non-nullable cycle-breaking union passed to `breakCycle` is boxed twice, `Box<Box<Name>>`, as the code is written. |
| RustRenderer.RustTypeBalanced | packages/quicktype-core/src/language/Rust/RustRenderer.ts:108-165 | Every `rustType` and `breakCycle` result has balanced angle brackets. |
| RustRenderer.JsonValueBalanced | packages/quicktype-core/src/language/Rust/RustRenderer.ts:111-122 | The `Option<serde_json::Value>` rendering of any and null is balanced. |
| RustRenderer.UnionBalanced | packages/quicktype-core/src/language/Rust/RustRenderer.ts:139-156 | A union's rendering is balanced when its members' renderings are. |
| RustRenderer.VisibilityPrefix | packages/quicktype-core/src/language/Rust/RustRenderer.ts:194-203 | Empty iff the visibility is private; otherwise it starts with `pub` and ends with a space. |
| RustRenderer.DeriveLine | packages/quicktype-core/src/language/Rust/RustRenderer.ts:206-213 | The derive line; `DeriveLineShape` states its form with and without serde. |
| RustRenderer.DeriveLineShape | packages/quicktype-core/src/language/Rust/RustRenderer.ts:206-213 | Every derive line opens with `#[derive(`; it ends with `Serialize, Deserialize)]` when serde is derived and otherwise closes with `)]` right after the list; the two forms always differ. |
| RustRenderer.RenameLines | packages/quicktype-core/src/language/Rust/RustRenderer.ts:167-182 | At most one line; present iff the escaped JSON name differs from the property name re-styled into the preferred style; the line is `#[serde(rename = "<escaped>")]`. |
| RustRenderer.RenameKeepsJsonName | packages/quicktype-core/src/language/Rust/RustRenderer.ts:167-182 | With or without the attribute, the key serde uses for the field is the escaped JSON name. |
| RustRenderer.RenameAllLines | packages/quicktype-core/src/language/Rust/RustRenderer.ts:223-230 | At most one `rename_all` line, present iff the preferred style differs from the default (`snake_case` for structs, `PascalCase` for string enums, lines 509-516). |
| RustRenderer.SkipSerializeLines | packages/quicktype-core/src/language/Rust/RustRenderer.ts:184-192 | The `skip_serializing_if` line is present iff the type is a union that collapses to one nullable member. |
| RustRenderer.SkipOnlyOnOptionFields | packages/quicktype-core/src/language/Rust/RustRenderer.ts:245-253 | A field given `skip_serializing_if` and not boxed by the cycle analysis has an `Option<…>` type. |
| RustRenderer.MatchingStylesOf | packages/quicktype-core/src/language/Rust/RustRenderer.ts:216-220 | One list of matching styles per key, in order. |
| RustRenderer.FlattenMember | packages/quicktype-core/src/language/Rust/RustRenderer.ts:224-227 | `.flat()`: a style is in the flattened list iff it is in one of the lists. |
| RustRenderer.StylesForMembers | packages/quicktype-core/src/language/Rust/RustRenderer.ts:216-227 | A style is a candidate iff it matches some property's JSON name. |
| RustRenderer.CollectNamingStyles | packages/quicktype-core/src/language/Rust/RustRenderer.ts:216-227 | The dictionary-filling loop yields exactly the flattened styles of the distinct JSON names. |
| RustRenderer.JsonNames | packages/quicktype-core/src/language/Rust/RustRenderer.ts:217 | The JSON names of the properties, one per property, in order. |
| RustRenderer.PropertyLines | packages/quicktype-core/src/language/Rust/RustRenderer.ts:234-256 | One to three lines per property, the field line `<vis><name>: <breakCycle type>,` last. |
| RustRenderer.PropertiesLinesPrefix | packages/quicktype-core/src/language/Rust/RustRenderer.ts:235 | The lines of one more property extend the lines of the ones before it. |
| RustRenderer.PropertyAttributes | packages/quicktype-core/src/language/Rust/RustRenderer.ts:239-247 | Every line of a property before its field line is a `#[serde(` attribute. |
| RustRenderer.PropertyBlockAt | packages/quicktype-core/src/language/Rust/RustRenderer.ts:234-256 | Property `i` owns exactly the lines from where its predecessors' lines end to where its own end, and they are its `PropertyLines`. |
| RustRenderer.PropertiesLinesLast | packages/quicktype-core/src/language/Rust/RustRenderer.ts:234-256 | The lines of the properties end with the last property's field line. |
| RustRenderer.PropertiesFieldCount | packages/quicktype-core/src/language/Rust/RustRenderer.ts:234-256 | The lines split into consecutive non-empty blocks, one per property and in property order, each being that property's attributes and then its own field line; so at least one line per property, and the last line is the last property's field. |
| RustRenderer.StructLines | packages/quicktype-core/src/language/Rust/RustRenderer.ts:205-259 | At least three lines plus one per property; derive line first, closing brace last. |
| RustRenderer.StructRenameAll | packages/quicktype-core/src/language/Rust/RustRenderer.ts:223-230 | The struct's second line is `rename_all` iff the preferred style is not `snake_case`. |
| RustRenderer.MemberLines | packages/quicktype-core/src/language/Rust/RustRenderer.ts:288-298 | One variant line `Name(<breakCycle type>),` per non-null member, in order. |
| RustRenderer.UnionLines | packages/quicktype-core/src/language/Rust/RustRenderer.ts:267-300 | What `emitUnion` emits; `UnionVariants` states its shape. |
| RustRenderer.UnionVariants | packages/quicktype-core/src/language/Rust/RustRenderer.ts:267-300 | Nothing iff the union collapses to a single nullable member; otherwise derive, `#[serde(untagged)]`, then one variant per non-null member in iteration order. |
| RustRenderer.Strategy | packages/quicktype-core/src/language/Rust/RustRenderer.ts:306-528 | Custom mixed iff the enum is mixed; derived iff non-mixed with string values; custom scalar otherwise. |
| RustRenderer.Visitors | packages/quicktype-core/src/language/Rust/RustRenderer.ts:382-477 | At most four visitor methods, and `visit_str` only for a mixed enum with a string case; `VisitorsMatchCases` states the full correspondence, including the non-mixed visitors of lines 601-662. |
| RustRenderer.DeserializeCall | packages/quicktype-core/src/language/Rust/RustRenderer.ts:667-671 | At most one line, present iff the enum is mixed (line 482) or has number or boolean values. |
| RustRenderer.VisitorsMatchCases | packages/quicktype-core/src/language/Rust/RustRenderer.ts:382-477 | Mixed: `visit_str`, `visit_i64`/`visit_f64` and `visit_bool` iff some case has that value type. Non-mixed (lines 601-662): no `visit_str`; the number or boolean visitors iff that is the value type. |
| RustRenderer.VisitorLinesAppend | packages/quicktype-core/src/language/Rust/RustRenderer.ts:386-477 | The visitor lines of a concatenation are the lines of each part, in order. |
| RustRenderer.DeserializeEntryPoint | packages/quicktype-core/src/language/Rust/RustRenderer.ts:667-671 | `deserialize_any` (line 482) iff mixed; `deserialize_f64` only with the i64/f64 visitors; `deserialize_bool` only with `visit_bool`; a hint for a non-mixed enum iff it has visitors; for a custom implementation the hint is the last modelled line of `EnumLines` (the closing braces of lines 484-486 and 673-675 are not modelled). |
| RustRenderer.SerializeArm | packages/quicktype-core/src/language/Rust/RustRenderer.ts:335-347 | No arm iff the case is a string outside a mixed enum; integers serialize with `serialize_i64` and other numbers with `serialize_f64`. |
| RustRenderer.SerializeArms | packages/quicktype-core/src/language/Rust/RustRenderer.ts:557-567 | At most one arm per case, exactly one per case in a mixed enum. |
| RustRenderer.CaseNameLines | packages/quicktype-core/src/language/Rust/RustRenderer.ts:316-320 | One `Name,` line per case, in order. |
| RustRenderer.CaseTexts | packages/quicktype-core/src/language/Rust/RustRenderer.ts:502-506 | The value text of each case, in order, as the naming styles are detected on. |
| RustRenderer.EnumLines | packages/quicktype-core/src/language/Rust/RustRenderer.ts:302-676 | What `emitEnumDefinition` emits as modelled; `EnumDispatch` and `DeserializeEntryPoint` state its shape. |
| RustRenderer.StringEnumLines | packages/quicktype-core/src/language/Rust/RustRenderer.ts:492-526 | A string enum's lines; `EnumDispatch` states that it derives serde, `RenameAllLines` when `rename_all` appears. |
| RustRenderer.CustomEnumLines | packages/quicktype-core/src/language/Rust/RustRenderer.ts:528-675 | A custom enum's lines; `EnumDispatch` states the derive line and case names, `DeserializeEntryPoint` the final hint. |
| RustRenderer.EnumDispatch | packages/quicktype-core/src/language/Rust/RustRenderer.ts:302-676 | The first line derives serde iff the enum is a non-mixed string enum; a custom implementation lists the case names at lines 2 onward. |
| RustRenderer.SourceHeaderLines | packages/quicktype-core/src/language/Rust/RustRenderer.ts:712-721 | The serde import in the 2018 or pre-2018 form first, and the `HashMap` import iff some type uses a map. |
| RustRenderer.RustRenderer.EmitRenameAttribute | packages/quicktype-core/src/language/Rust/RustRenderer.ts:167-182 | Appends exactly `RenameLines`. |
| RustRenderer.RustRenderer.EmitSkipSerializeNone | packages/quicktype-core/src/language/Rust/RustRenderer.ts:184-192 | Appends exactly `SkipSerializeLines`. |
| RustRenderer.RustRenderer.EmitStructDefinition | packages/quicktype-core/src/language/Rust/RustRenderer.ts:205-259 | Appends exactly `StructLines`. |
| RustRenderer.RustRenderer.EmitRenameAll | packages/quicktype-core/src/language/Rust/RustRenderer.ts:215-230 | Returns the preferred style of the keys and appends `RenameAllLines` for it. |
| RustRenderer.RustRenderer.EmitProperties | packages/quicktype-core/src/language/Rust/RustRenderer.ts:234-256 | Appends exactly `PropertiesLines`. |
| RustRenderer.RustRenderer.EmitProperty | packages/quicktype-core/src/language/Rust/RustRenderer.ts:236-255 | Appends exactly `PropertyLines`. |
| RustRenderer.RustRenderer.EmitUnion | packages/quicktype-core/src/language/Rust/RustRenderer.ts:267-300 | Appends exactly `UnionLines`. |
| RustRenderer.RustRenderer.EmitMemberLines | packages/quicktype-core/src/language/Rust/RustRenderer.ts:288-298 | Appends exactly `MemberLines`. |
| RustRenderer.RustRenderer.EmitCaseNameBlock | packages/quicktype-core/src/language/Rust/RustRenderer.ts:538-542 | Appends `pub enum Name {`, the case names and `}`. |
| RustRenderer.RustRenderer.EmitSerializeArms | packages/quicktype-core/src/language/Rust/RustRenderer.ts:335-347 | Appends exactly `SerializeArms`. |
| RustRenderer.RustRenderer.EmitEnumDefinition | packages/quicktype-core/src/language/Rust/RustRenderer.ts:302-676 | Appends exactly `EnumLines`. |
| RustRenderer.RustRenderer.EmitMixedEnum | packages/quicktype-core/src/language/Rust/RustRenderer.ts:306-488 | Appends exactly `CustomEnumLines` for a mixed enum. |
| RustRenderer.RustRenderer.EmitMixedVisitors | packages/quicktype-core/src/language/Rust/RustRenderer.ts:386-477 | Appends the signature of each selected visitor method. |
| RustRenderer.RustRenderer.EmitCustomHead | packages/quicktype-core/src/language/Rust/RustRenderer.ts:306-347 | Appends exactly `CustomHeadLines`. |
| RustRenderer.RustRenderer.EmitStringEnum | packages/quicktype-core/src/language/Rust/RustRenderer.ts:492-526 | Appends exactly `StringEnumLines`. |
| RustRenderer.RustRenderer.EmitStringCases | packages/quicktype-core/src/language/Rust/RustRenderer.ts:518-524 | Appends exactly `StringCasesLines`. |
| RustRenderer.RustRenderer.EmitScalarEnum | packages/quicktype-core/src/language/Rust/RustRenderer.ts:528-675 | Appends exactly `CustomEnumLines` for a number or boolean enum. |
| RustRenderer.RustRenderer.EmitTopLevelAlias | packages/quicktype-core/src/language/Rust/RustRenderer.ts:678-680 | Appends `pub type Name = <rustType>;`. |
| RustRenderer.RustRenderer.EmitSourceHeader | packages/quicktype-core/src/language/Rust/RustRenderer.ts:712-721 | Appends exactly `SourceHeaderLines`. |
| KotlinXRenderer.AnySourceType | packages/quicktype-core/src/language/Kotlin/KotlinXRenderer.ts:31-33 | `JsonElement` followed by exactly the optional marker; a JSON tree when there is no marker. |
| KotlinXRenderer.ArrayTypeText | packages/quicktype-core/src/language/Kotlin/KotlinXRenderer.ts:35-47 | `arrayType`; `CollectionsOfJsonTrees` states when it is `JsonArray`. |
| KotlinXRenderer.MapTypeText | packages/quicktype-core/src/language/Kotlin/KotlinXRenderer.ts:49-61 | `mapType`; `CollectionsOfJsonTrees` states when it is `JsonObject`. |
| KotlinXRenderer.CollectionsOfJsonTrees | packages/quicktype-core/src/language/Kotlin/KotlinXRenderer.ts:35-61 | When the element renders to `JsonObject` or `JsonElement`, an array is `JsonArray` and a map is the JSON tree `JsonObject`; otherwise both are exactly what the base renderer gives. |
| KotlinXRenderer.Rename | packages/quicktype-core/src/language/Kotlin/KotlinXRenderer.ts:123-131 | An annotation iff the property name differs from the escaped JSON name. |
| KotlinXRenderer.RenameKeepsJsonName | packages/quicktype-core/src/language/Kotlin/KotlinXRenderer.ts:111-131 | The key kotlinx uses, the `@SerialName` argument or else the property name, is always the escaped JSON name. |
| KotlinXRenderer.ValueTypeName | packages/quicktype-core/src/language/Kotlin/KotlinXRenderer.ts:206-207 | `Int` iff number values, `Boolean` iff boolean values, `String` iff string or other values. |
| KotlinXRenderer.ValueCaseLines | packages/quicktype-core/src/language/Kotlin/KotlinXRenderer.ts:211-236 | One line per case for string, number and boolean enums; none when the value type is other. |
| KotlinXRenderer.ValueCaseSeparators | packages/quicktype-core/src/language/Kotlin/KotlinXRenderer.ts:211-236 | Every case line ends with `,` except the last, which ends with `;`. |
| KotlinXRenderer.ValueCaseSerialNames | packages/quicktype-core/src/language/Kotlin/KotlinXRenderer.ts:213-234 | Each case line starts with `@SerialName("<value>") ` and then names the case. |
| KotlinXRenderer.MixedCaseLines | packages/quicktype-core/src/language/Kotlin/KotlinXRenderer.ts:139-144 | One line per case. |
| KotlinXRenderer.MixedCaseSeparators | packages/quicktype-core/src/language/Kotlin/KotlinXRenderer.ts:140-143 | Every case name but the last is followed by `,`; the last stands alone. |
| KotlinXRenderer.SerializeArm | packages/quicktype-core/src/language/Kotlin/KotlinXRenderer.ts:157-165 | One `when (value)` arm; `SerializeArmLiteral` states its literal and `MixedSerializerCoversCases` its place. |
| KotlinXRenderer.DeserializeArm | packages/quicktype-core/src/language/Kotlin/KotlinXRenderer.ts:179-191 | One `when` arm; `DeserializeArmLiteral` states its accessor and literal and `MixedSerializerCoversCases` its place. |
| KotlinXRenderer.SerializeArmLiteral | packages/quicktype-core/src/language/Kotlin/KotlinXRenderer.ts:157-165 | Each case encodes as `JsonPrimitive` of its literal: quoted and escaped for strings, the value text otherwise. |
| KotlinXRenderer.DeserializeArmLiteral | packages/quicktype-core/src/language/Kotlin/KotlinXRenderer.ts:179-191 | Each case is matched by comparing the accessor for its kind (`contentOrNull`, `intOrNull`, `doubleOrNull`, `booleanOrNull`) with the same literal the serializer writes. |
| KotlinXRenderer.SerializeArms | packages/quicktype-core/src/language/Kotlin/KotlinXRenderer.ts:157-165 | One serialize arm per case. |
| KotlinXRenderer.DeserializeArms | packages/quicktype-core/src/language/Kotlin/KotlinXRenderer.ts:179-191 | One deserialize arm per case. |
| KotlinXRenderer.MixedSerializerCoversCases | packages/quicktype-core/src/language/Kotlin/KotlinXRenderer.ts:153-200 | Every case has its serialize and deserialize arm in place; the `when` ends with the unknown-value throw; non-primitive elements throw. |
| KotlinXRenderer.EnumLines | packages/quicktype-core/src/language/Kotlin/KotlinXRenderer.ts:133-238 | At least three lines, opening with `@Serializable(with = NameSerializer::class)` exactly for a mixed enum and with `@Serializable` otherwise. |
| KotlinXRenderer.UsageHeaderLines | packages/quicktype-core/src/language/Kotlin/KotlinXRenderer.ts:77-96 | The intro, `//`, the `Json` configuration, then one parse line per top-level. |
| KotlinXRenderer.KotlinXRenderer.EmitTopLevelMap | packages/quicktype-core/src/language/Kotlin/KotlinXRenderer.ts:63-70 | `typealias Name = JsonObject` iff the values render to `JsonObject`, otherwise the base renderer's lines. |
| KotlinXRenderer.KotlinXRenderer.EmitTopLevelArray | packages/quicktype-core/src/language/Kotlin/KotlinXRenderer.ts:72-75 | Always `typealias Name = JsonArray<elem>`. |
| KotlinXRenderer.KotlinXRenderer.EmitUsageHeader | packages/quicktype-core/src/language/Kotlin/KotlinXRenderer.ts:77-96 | Appends exactly `UsageHeaderLines`. |
| KotlinXRenderer.KotlinXRenderer.EmitHeader | packages/quicktype-core/src/language/Kotlin/KotlinXRenderer.ts:98-105 | The base header, then the four kotlinx imports. |
| KotlinXRenderer.KotlinXRenderer.EmitClassAnnotations | packages/quicktype-core/src/language/Kotlin/KotlinXRenderer.ts:107-109 | Appends `@Serializable`. |
| KotlinXRenderer.KotlinXRenderer.RenameAttribute | packages/quicktype-core/src/language/Kotlin/KotlinXRenderer.ts:111-121 | Pushes at most one entry onto `meta`: the annotation exactly when `_rename` gives one. |
| KotlinXRenderer.KotlinXRenderer.EmitEnumDefinition | packages/quicktype-core/src/language/Kotlin/KotlinXRenderer.ts:133-238 | Appends exactly `EnumLines`: the class and its serializer object for a mixed enum, a value enum otherwise. |
| KotlinXRenderer.KotlinXRenderer.EmitMixedEnumClass | packages/quicktype-core/src/language/Kotlin/KotlinXRenderer.ts:138-144 | The count-down loop appends exactly `MixedEnumClassLines`. |
| KotlinXRenderer.KotlinXRenderer.EmitSerializerObject | packages/quicktype-core/src/language/Kotlin/KotlinXRenderer.ts:148-201 | Appends exactly `SerializerObjectLines`. |
| KotlinXRenderer.KotlinXRenderer.EmitSerializerHead | packages/quicktype-core/src/language/Kotlin/KotlinXRenderer.ts:148-150 | Appends the object header and the descriptor. |
| KotlinXRenderer.KotlinXRenderer.EmitSerializeFun | packages/quicktype-core/src/language/Kotlin/KotlinXRenderer.ts:153-168 | Appends exactly `SerializeFunLines`. |
| KotlinXRenderer.KotlinXRenderer.EmitDeserializeFun | packages/quicktype-core/src/language/Kotlin/KotlinXRenderer.ts:171-200 | Appends exactly `DeserializeFunLines`. |
| KotlinXRenderer.KotlinXRenderer.EmitDeserializeTail | packages/quicktype-core/src/language/Kotlin/KotlinXRenderer.ts:192-199 | The unknown-value throw, the closing braces and the non-primitive throw. |
| KotlinXRenderer.KotlinXRenderer.EmitValueEnum | packages/quicktype-core/src/language/Kotlin/KotlinXRenderer.ts:206-237 | The count-down loop appends exactly `ValueEnumLines`. |
| TsFlow.Literal | packages/quicktype-core/src/language/TypeScriptFlow/TypeScriptRenderer.ts:81-83 | Never empty; a string case is its escaped text in double quotes; other cases are `String(value)`. |
| TsFlow.Literals | packages/quicktype-core/src/language/TypeScriptFlow/TypeScriptRenderer.ts:80-83 | One literal per case, in order. |
| TsFlow.LiteralsPrefix | packages/quicktype-core/src/language/TypeScriptFlow/TypeScriptRenderer.ts:80-90 | The literals of the first cases are the first literals. |
| TsFlow.TypeAnnotations | packages/quicktype-core/src/language/TypeScriptFlow/TypeScriptRenderer.ts:47-49 | `Object.assign`: keys are `never` plus the shared ones, and shared values win over the target's `never` default. |
| TypeScriptRenderer.RawTypeName | packages/quicktype-core/src/language/TypeScriptFlow/TypeScriptRenderer.ts:16-41 | `string` iff the raw type is JSON, `any` otherwise. |
| TypeScriptRenderer.DeserializerFunctionLine | packages/quicktype-core/src/language/TypeScriptFlow/TypeScriptRenderer.ts:16-27 | `to<Name>(json: <raw>): <type>`; `ConvertersAreInverse` states its relation to the serializer. |
| TypeScriptRenderer.SerializerFunctionLine | packages/quicktype-core/src/language/TypeScriptFlow/TypeScriptRenderer.ts:29-41 | `<name>ToJson(value: <type>): <raw>`; `ConvertersAreInverse` states its relation to the deserializer. |
| TypeScriptRenderer.ConvertersAreInverse | packages/quicktype-core/src/language/TypeScriptFlow/TypeScriptRenderer.ts:16-41 | The deserializer takes the raw type the serializer returns and returns the type the serializer takes. |
| TypeScriptRenderer.TsTypeAnnotations | packages/quicktype-core/src/language/TypeScriptFlow/TypeScriptRenderer.ts:47-49 | `never` annotates as `: never` unless the shared annotations say otherwise; shared entries are kept. |
| TypeScriptRenderer.NamedTopLevels | packages/quicktype-core/src/language/TypeScriptFlow/TypeScriptRenderer.ts:57-63 | No more names than top-levels. |
| TypeScriptRenderer.NamedTopLevelsMembers | packages/quicktype-core/src/language/TypeScriptFlow/TypeScriptRenderer.ts:57-63 | A name is imported iff it belongs to a top-level whose type is a named type. |
| TypeScriptRenderer.ImportList | packages/quicktype-core/src/language/TypeScriptFlow/TypeScriptRenderer.ts:56-68 | The `, name` pairs pushed per named top-level; `ImportListJoin` and `ImportListAppend` state its text. |
| TypeScriptRenderer.ImportListAppend | packages/quicktype-core/src/language/TypeScriptFlow/TypeScriptRenderer.ts:56-68 | One more name extends the import list by `, ` and that name. |
| TypeScriptRenderer.ImportListJoin | packages/quicktype-core/src/language/TypeScriptFlow/TypeScriptRenderer.ts:56-68 | The pushed `, name` pairs read as `, ` followed by the names joined by `, `, or nothing. |
| TypeScriptRenderer.EnumLines | packages/quicktype-core/src/language/TypeScriptFlow/TypeScriptRenderer.ts:71-103 | The declaration of an enum with distinct case values; `EnumShapes` states its three shapes. |
| TypeScriptRenderer.EnumShapes | packages/quicktype-core/src/language/TypeScriptFlow/TypeScriptRenderer.ts:71-103 | Nothing iff `preferConstValues` with one case; one `export type Name = …` line for unions or mixed enums; otherwise an enum block with one `name = literal,` member per case. |
| TypeScriptRenderer.EnumMemberLines | packages/quicktype-core/src/language/TypeScriptFlow/TypeScriptRenderer.ts:95-100 | One member line per case. |
| TypeScriptRenderer.EnumMemberReadBack | packages/quicktype-core/src/language/TypeScriptFlow/TypeScriptRenderer.ts:99 | A member line gives back the case name and literal by position. |
| TypeScriptRenderer.ClassHeader | packages/quicktype-core/src/language/TypeScriptFlow/TypeScriptRenderer.ts:105-115 | Opens a block; `export type ` iff `preferTypes`, `export interface ` otherwise. |
| TypeScriptRenderer.TypeScriptRenderer.EmitUsageImportComment | packages/quicktype-core/src/language/TypeScriptFlow/TypeScriptRenderer.ts:55-69 | The loop over the top-levels emits one import line naming exactly the named top-levels. |
| TypeScriptRenderer.TypeScriptRenderer.EmitEnum | packages/quicktype-core/src/language/TypeScriptFlow/TypeScriptRenderer.ts:71-103 | Appends exactly `EnumLines`. |
| TypeScriptRenderer.TypeScriptRenderer.UnionItems | packages/quicktype-core/src/language/TypeScriptFlow/TypeScriptRenderer.ts:79-90 | The `items` loop yields the literals joined by ` \| `, with no leading separator. |
| TypeScriptRenderer.TypeScriptRenderer.EmitEnumBlock | packages/quicktype-core/src/language/TypeScriptFlow/TypeScriptRenderer.ts:94-101 | Appends `export enum Name {`, the member lines and `}`. |
| TypeScriptRenderer.TypeScriptRenderer.EmitClassBlock | packages/quicktype-core/src/language/TypeScriptFlow/TypeScriptRenderer.ts:105-115 | Appends the class header, the body and `}`. |
| FlowRenderer.ForbiddenNamesCoverTypeScript | packages/quicktype-core/src/language/TypeScriptFlow/FlowRenderer.ts:11-13 | Flow forbids every global TypeScript forbids, and more. |
| FlowRenderer.FlowTypeAnnotations | packages/quicktype-core/src/language/TypeScriptFlow/FlowRenderer.ts:15-17 | `never` has an empty annotation unless the shared ones give it one; shared entries are kept. |
| FlowRenderer.OpenCaseLine | packages/quicktype-core/src/language/TypeScriptFlow/FlowRenderer.ts:22-28 | One case line before the `;`; `OpenCaseLineParts` states its parts. |
| FlowRenderer.OpenCaseLineParts | packages/quicktype-core/src/language/TypeScriptFlow/FlowRenderer.ts:22-28 | `  ` before the first case's literal and `\| ` before every other, then exactly the literal. |
| FlowRenderer.OpenCaseLines | packages/quicktype-core/src/language/TypeScriptFlow/FlowRenderer.ts:22-29 | One line per case. |
| FlowRenderer.CaseLines | packages/quicktype-core/src/language/TypeScriptFlow/FlowRenderer.ts:22-30 | One line per case after the `;` is pushed. |
| FlowRenderer.OpenCaseLinesPrefix | packages/quicktype-core/src/language/TypeScriptFlow/FlowRenderer.ts:22-29 | The lines of the first cases are the first lines. |
| FlowRenderer.CaseLineAt | packages/quicktype-core/src/language/TypeScriptFlow/FlowRenderer.ts:22-30 | Line `j` is `  ` (first) or `| ` (later) then the literal, and ends with `;` exactly when it is the last. |
| FlowRenderer.EnumLines | packages/quicktype-core/src/language/TypeScriptFlow/FlowRenderer.ts:19-38 | `export type Name =` and the case lines; `CasesAreTheUnion` states that they read as the TypeScript union. |
| FlowRenderer.OpenLinesJoin | packages/quicktype-core/src/language/TypeScriptFlow/FlowRenderer.ts:22-29 | The lines read on one line are `  ` and then the TypeScript union of the literals. |
| FlowRenderer.CasesAreTheUnion | packages/quicktype-core/src/language/TypeScriptFlow/FlowRenderer.ts:22-37 | With the `;`, the case lines read on one line are exactly the TypeScript union followed by `;`. |
| FlowRenderer.FlowRenderer.EmitEnum | packages/quicktype-core/src/language/TypeScriptFlow/FlowRenderer.ts:19-38 | Succeeds iff the enum has cases, and then appends the header and the case lines; an empty enum fails and emits nothing. |
| FlowRenderer.FlowRenderer.CollectCaseLines | packages/quicktype-core/src/language/TypeScriptFlow/FlowRenderer.ts:21-29 | The loop builds exactly the open case lines. |
| FlowRenderer.FlowRenderer.EmitCaseLines | packages/quicktype-core/src/language/TypeScriptFlow/FlowRenderer.ts:32-37 | `export type Name =`, then exactly the built lines, in order. |
| FlowRenderer.FlowRenderer.EmitClassBlock | packages/quicktype-core/src/language/TypeScriptFlow/FlowRenderer.ts:40-44 | `export type Name = {`, the body, then `};`. |
| FlowRenderer.FlowRenderer.EmitSourceStructure | packages/quicktype-core/src/language/TypeScriptFlow/FlowRenderer.ts:46-50 | `// @flow` before everything the base renderer emits. |

## Left out

- Indentation, blank lines, density settings and descriptions are not modelled, and neither are `withIssues` annotations. Lines are compared without their indentation.
- The serde visitor and impl bodies of Rust enums are partly left out. The modelled lines are the derive line, the enum block, the serialize arms, the visitor signatures and the `deserialize_*` hint.
- Rust `emitLeadingComments` and the example comment block are left out, because they are fixed prose.
- These collaborators are parameters of the model and are not derived:
  - naming and naming-style detection (`nameForNamedType`, `listMatchingNamingStyles`, `getPreferredNamingStyle`, `nameWithNamingStyle`);
  - the cycle analysis (`isCycleBreakerType`);
  - the string escapes and `camelCase`;
  - Kotlin's `kotlinType`, `super.arrayType`, `super.mapType`, `super.emitHeader` and `super.emitTopLevelMap`;
  - TypeScript's `sourceFor` and `emitClassBlockBody`;
  - `forEachTopLevel` ordering and its named-type filter.
- `tsFlowTypeAnnotations`, `ConvenienceRenderer`, `KotlinRenderer`, `TypeScriptFlowBaseRenderer` and `TypeUtils` are not part of this model. `nullableFromUnion` and `removeNullFromUnion` are modelled by their documented meaning. The base `emitBlock` is taken to write the opening line followed by `{` and a closing brace followed by the given terminator.
- RustRenderer.CollectNamingStyles: the styles are collected in the order of the keys' first occurrence. A JavaScript object lists integer-like keys first, in ascending order. `getPreferredNamingStyle` is a parameter, so for such keys its answer may differ from the source's if it depends on the order.
- KotlinXRenderer.DeserializeArmLiteral: states that each arm compares the literal the serializer writes through the accessor for its kind. It does not claim that every case decodes back as itself: the `when` takes the first matching arm, and the kotlinx accessors are lenient (`contentOrNull` also reads numbers and booleans as text).
- TypeScriptRenderer.EnumLines: enum cases are a set in the source. The model keeps them in a list and requires distinct case values, so the list length is the set size.
- KotlinXRenderer.UsageHeaderLines: the usage lines are not padded into columns, because `emitTable` is not part of this model.
- FlowRenderer.FlowRenderer.CollectCaseLines: each line's parts are kept as the text they render to, not as an array. So pushing `;` onto the last line is modelled as appending `;` to its text.
- TypeScriptRenderer.TypeScriptRenderer.UnionItems: the union iterates `e.cases` and the enum block uses `forEachEnumCase`. Both are taken to visit the cases in the same order.
- Floating point: `Number.isInteger` is a flag on each number case, and `String(value)` of a number is its stored text.
- `emitModuleExports` (TypeScript) does nothing and has no member.
- `forbiddenNamesForGlobalNamespace` and the other forbidden-word hooks are constants with no behaviour to state beyond their contents. Rust's `keywords` list is not part of this model.
- `script/patch-npm-version.ts` is not part of this model: it is release tooling that runs a shell, queries the npm registry and reads package.json. `src/TypeSource.ts` holds only type declarations.
