/** `normalize_tool_schema`: the compiler from MCP tool input schemas to the
    reference-free schemas every provider accepts. `Normalize` is the function
    the code computes; `SchemaCompiler` has the methods that run it the way the
    code does, on a copied dict they reassign. That `Normalize` terminates on
    cyclic references too is the `decreases` clause below. */
module SchemaNormalizer {
  import opened Wrappers
  import opened Json
  import opened JsonPointer
  import Text

  // ---- Keywords ----

  const TYPES: set<string> := {"array", "boolean", "integer", "number", "object", "string"}
  const ANNOTATIONS: set<Key> := {Default, Description, Title, Example}
  const IGNORED: set<Key> := {Comment, Deprecated, Examples, ReadOnly, WriteOnly}
  const DEFINITIONS: set<Key> := {Defs, Definitions}
  /** `NUA_COMMON_KEYWORDS`: all the keywords with a constructor but two. */
  predicate IsSupported(k: Key) { !k.Name? && k != OneOf && k != AllOf }

  /** The keywords a normalised schema may still use. */
  predicate IsKept(k: Key) { IsSupported(k) && k != Ref && k !in IGNORED && k !in DEFINITIONS }

  const TEXT_KEYWORDS: seq<Key> := [Title, Description, Format, Pattern, SchemaUri]
  const COUNT_KEYWORDS: seq<Key> :=
    [MinItems, MaxItems, MinLength, MaxLength, MinProperties, MaxProperties]
  const BOUND_KEYWORDS: seq<Key> := [Minimum, Maximum]

  // ---- Errors ----

  datatype Reason =
    | SchemaNotObject | KeywordUnsupported
    | ReferenceNotLocal | ReferenceInvalid | ReferenceCyclic | ReferenceUnresolved
    | ReferenceNotObject | ReferenceSiblings
    | MapNotObject | AlternativesEmpty
    | RequiredNotUnique | EnumNotStrings | NotString | NotCount | NotNumber
    | TypeUnsupported | TypeMissing | RootNotObject

  /** `IncompatibleToolSchema` */
  datatype Fault = Fault(path: seq<Key>, reason: Reason)

  type Outcome<T> = Result<T, Fault>

  /** The document references point into, `urllib.parse.unquote` in strict mode, and
      the reading of a pointer part as a dictionary key. */
  datatype Context = Context(doc: Json, unquote: string -> Option<string>, keyOf: string -> Key)

  // ---- Checks on one node ----

  predicate IsHex(c: char) { '0' <= c <= '9' || 'a' <= c <= 'f' || 'A' <= c <= 'F' }

  /** Some `%` is not followed by two hexadecimal digits. */
  predicate InvalidPercent(s: string) {
    exists i :: 0 <= i < |s| && s[i] == '%' && !(i + 2 < |s| && IsHex(s[i + 1]) && IsHex(s[i + 2]))
  }

  /** The JSON pointer a `$ref` value denotes. */
  function PointerOf(reference: Json, unquote: string -> Option<string>): (r: Result<string, Reason>)
    ensures r.Ok? ==> r.value != "" && r.value[0] == '/'
  {
    if !reference.Str? || reference.s == "" || reference.s[0] != '#' then Err(ReferenceNotLocal)
    else if InvalidPercent(reference.s[1..]) then Err(ReferenceInvalid)
    else match unquote(reference.s[1..])
      case None => Err(ReferenceInvalid)
      case Some(pointer) =>
        if pointer == "" || pointer[0] != '/' then Err(ReferenceNotLocal) else Ok(pointer)
  }

  /** A `$ref` that the code follows: the key is there and its value is not null. */
  predicate Refers(node: Node) {
    node.reference.Some? && node.reference.value != Null
  }

  function FirstUnsupported(d: Dict): Option<Key> {
    if d == [] then None
    else if !IsSupported(d[0].key) then Some(d[0].key)
    else FirstUnsupported(d[1..])
  }

  predicate AllStrings(items: seq<Json>) { forall v :: v in items ==> v.Str? }

  predicate Distinct(items: seq<Json>) {
    forall i, j :: 0 <= i < j < |items| ==> items[i] != items[j]
  }

  function FirstFailing(d: Dict, keywords: seq<Key>, passes: Json -> bool): Option<Key> {
    if keywords == [] then None
    else if Has(d, keywords[0]) && !passes(Lookup(d, keywords[0]).value) then Some(keywords[0])
    else FirstFailing(d, keywords[1..], passes)
  }

  const IsText: Json -> bool := (v: Json) => v.Str?
  const IsCount: Json -> bool := (v: Json) => v.Int? && v.i >= 0
  const IsNumber: Json -> bool := (v: Json) => v.Int? || v.Float?

  predicate RequiredOk(d: Dict) {
    match Lookup(d, Required)
    case Some(Arr(items)) => AllStrings(items) && Distinct(items)
    case Some(v) => v == Null
    case None => true
  }

  predicate EnumOk(d: Dict) {
    match Lookup(d, Enum)
    case Some(Arr(items)) => items != [] && AllStrings(items)
    case Some(v) => v == Null
    case None => true
  }

  /** `_validate_keyword_values`: the first failing keyword, in the code's order. */
  function KeywordFault(d: Dict): Option<(Key, Reason)> {
    if !RequiredOk(d) then Some((Required, RequiredNotUnique))
    else if !EnumOk(d) then Some((Enum, EnumNotStrings))
    else match FirstFailing(d, TEXT_KEYWORDS, IsText)
      case Some(k) => Some((k, NotString))
      case None => match FirstFailing(d, COUNT_KEYWORDS, IsCount)
        case Some(k) => Some((k, NotCount))
        case None => match FirstFailing(d, BOUND_KEYWORDS, IsNumber)
          case Some(k) => Some((k, NotNumber))
          case None => None
  }

  predicate IsTypeName(v: Json) { v.Str? && v.s in TYPES }

  function CountTypeNames(items: seq<Json>): nat {
    if items == [] then 0 else (if IsTypeName(items[0]) then 1 else 0) + CountTypeNames(items[1..])
  }

  /** `_validate_type`: one type, or a type and "null" in either order. */
  predicate TypeOk(v: Json) {
    match v
    case Str(s) => s in TYPES
    case Arr(items) => |items| == 2 && Str("null") in items && CountTypeNames(items) == 1
    case _ => false
  }

  /** `_infer_type` */
  function InferType(d: Dict): Option<string> {
    if Has(d, Properties) || Has(d, AdditionalProperties) then Some("object")
    else if Has(d, Items) then Some("array")
    else if Has(d, Enum) then Some("string")
    else None
  }

  /** The checks and the type inference at the end of `_normalize_schema`. */
  function Finish(d: Dict, path: seq<Key>): Outcome<Dict> {
    match KeywordFault(d)
    case Some((keyword, reason)) => Err(Fault(path + [keyword], reason))
    case None =>
      if Has(d, Type) && !TypeOk(Lookup(d, Type).value) then Err(Fault(path + [Type], TypeUnsupported))
      else if Has(d, Type) || Has(d, AnyOf) then Ok(Without(d, DEFINITIONS))
      else match InferType(d)
        case None => Err(Fault(path, TypeMissing))
        case Some(t) => Ok(Without(Put(d, Type, Str(t)), DEFINITIONS))
  }

  // ---- References still to follow ----

  /** What a node says under the keywords that lead to other schemas. */
  datatype Node = Node(reference: Option<Json>, properties: Option<Json>, items: Option<Json>,
                       additional: Option<Json>, alternatives: Option<Json>)

  function NodeOf(d: Dict): Node {
    Node(Lookup(d, Ref), Lookup(d, Properties), Lookup(d, Items), Lookup(d, AdditionalProperties), Lookup(d, AnyOf))
  }

  lemma NodeSmaller(d: Dict)
    ensures var n := NodeOf(d);
            && (n.properties.Some? ==> SmallerThan(n.properties.value, d))
            && (n.items.Some? ==> SmallerThan(n.items.value, d))
            && (n.additional.Some? ==> SmallerThan(n.additional.value, d))
            && (n.alternatives.Some? ==> SmallerThan(n.alternatives.value, d))
  {
    hide Lookup, SmallerThan;
    ChildSmaller(d, Properties);
    ChildSmaller(d, Items);
    ChildSmaller(d, AdditionalProperties);
    ChildSmaller(d, AnyOf);
  }

  lemma ChildSmaller(d: Dict, k: Key)
    ensures Has(d, k) ==> SmallerThan(Lookup(d, k).value, d)
  {
    if Has(d, k) {
      LookupSmaller(d, k);
    }
  }

  predicate SmallerThan(j: Json, d: Dict) {
    && Size(j) < DictSize(d) < Size(Obj(d))
    && (j.Obj? ==> DictSize(j.fields) < Size(j))
    && (j.Arr? ==> ItemsSize(j.items) < Size(j))
  }

  /** No reference at any place where the normaliser looks for one. */
  predicate IsFree(j: Json)
    decreases Size(j), 1
  {
    if !j.Obj? then true else
    var node := NodeOf(j.fields);
    NodeSmaller(j.fields);
    && !Refers(node)
    && (node.properties.Some? && node.properties.value.Obj? ==> FreeFields(node.properties.value.fields))
    && (node.items.Some? ==> IsFree(node.items.value))
    && (node.additional.Some? ==> IsFree(node.additional.value))
    && (node.alternatives.Some? && node.alternatives.value.Arr? ==> FreeItems(node.alternatives.value.items))
  }

  predicate FreeFields(fields: Dict)
    decreases DictSize(fields), 2
  {
    fields == [] || (IsFree(fields[0].val) && FreeFields(fields[1..]))
  }

  predicate FreeItems(items: seq<Json>)
    decreases ItemsSize(items), 2, |items|
  {
    items == [] || (IsFree(items[0]) && FreeItems(items[1..]))
  }

  function OptionSize(v: Option<Json>): nat { if v.Some? then Size(v.value) else 0 }

  /** Some `$ref` in the value denotes the pointer, wherever it stands: a reference
      may point at a place that is not a schema, such as a default. */
  predicate Mentions(j: Json, pointer: string, unquote: string -> Option<string>)
    decreases Size(j), 0
  {
    match j
    case Obj(fields) => FieldsMention(fields, pointer, unquote)
    case Arr(items) => ItemsMention(items, pointer, unquote)
    case _ => false
  }

  predicate FieldsMention(fields: Dict, pointer: string, unquote: string -> Option<string>)
    decreases DictSize(fields)
  {
    fields != [] &&
    (Denotes(fields[0], pointer, unquote) || Mentions(fields[0].val, pointer, unquote) ||
     FieldsMention(fields[1..], pointer, unquote))
  }

  predicate ItemsMention(items: seq<Json>, pointer: string, unquote: string -> Option<string>)
    decreases ItemsSize(items), 1, |items|
  {
    items != [] && (Mentions(items[0], pointer, unquote) || ItemsMention(items[1..], pointer, unquote))
  }

  predicate Denotes(f: Field, pointer: string, unquote: string -> Option<string>) {
    f.key == Ref && PointerOf(f.val, unquote) == Ok(pointer)
  }

  /** How many references in the value denote a pointer that is not being resolved. */
  function Outstanding(j: Json, resolving: seq<string>, unquote: string -> Option<string>): nat
    decreases Size(j), 0
  {
    match j
    case Obj(fields) => OutstandingFields(fields, resolving, unquote)
    case Arr(items) => OutstandingItems(items, resolving, unquote)
    case _ => 0
  }

  function OutstandingFields(fields: Dict, resolving: seq<string>, unquote: string -> Option<string>): nat
    decreases DictSize(fields)
  {
    if fields == [] then 0 else
      (if IsOutstanding(fields[0], resolving, unquote) then 1 else 0) +
      Outstanding(fields[0].val, resolving, unquote) + OutstandingFields(fields[1..], resolving, unquote)
  }

  function OutstandingItems(items: seq<Json>, resolving: seq<string>, unquote: string -> Option<string>): nat
    decreases ItemsSize(items), 1, |items|
  {
    if items == [] then 0 else Outstanding(items[0], resolving, unquote) + OutstandingItems(items[1..], resolving, unquote)
  }

  predicate IsOutstanding(f: Field, resolving: seq<string>, unquote: string -> Option<string>) {
    f.key == Ref && PointerOf(f.val, unquote).Ok? && PointerOf(f.val, unquote).value !in resolving
  }

  /** Every reference in the value is one the document has. */
  ghost predicate Within(j: Json, cx: Context) {
    forall pointer {:trigger Mentions(j, pointer, cx.unquote)} ::
      Mentions(j, pointer, cx.unquote) ==> Mentions(cx.doc, pointer, cx.unquote)
  }

  /** A value the normaliser can meet: part of the document, or reference-free. */
  ghost predicate Known(j: Json, cx: Context) {
    IsFree(j) || Within(j, cx)
  }

  function Remaining(cx: Context, resolving: seq<string>): nat { Outstanding(cx.doc, resolving, cx.unquote) }

  /** The part of the termination measure that following a reference lowers. */
  function Level(cx: Context, resolving: seq<string>, free: bool): nat {
    if free then 0 else 1 + Remaining(cx, resolving)
  }

  // ---- The normaliser ----

  /** The keyword check, after the ignored annotations are gone. */
  function Prepare(schema: Json, path: seq<Key>): (r: Outcome<Dict>)
    ensures r.Ok? ==> schema.Obj? && r.value == Without(schema.fields, IGNORED)
  {
    if !schema.Obj? then Err(Fault(path, SchemaNotObject)) else
    var current := Without(schema.fields, IGNORED);
    match FirstUnsupported(current)
    case Some(k) => Err(Fault(path + [k], KeywordUnsupported))
    case None => Ok(current)
  }

  datatype Next = Next(pointer: string, target: Dict)

  /** The schema a `$ref` leads to, unless it is being resolved already. */
  function FollowReference(reference: Json, cx: Context, path: seq<Key>, resolving: seq<string>): (r: Outcome<Next>)
    ensures r.Ok? ==>
              && PointerOf(reference, cx.unquote) == Ok(r.value.pointer) && r.value.pointer !in resolving
              && Resolve(cx.doc, r.value.pointer, cx.keyOf) == Ok(r.value.target)
  {
    match PointerOf(reference, cx.unquote)
    case Err(reason) => Err(Fault(path, reason))
    case Ok(pointer) =>
      if pointer in resolving then Err(Fault(path, ReferenceCyclic)) else
      match Resolve(cx.doc, pointer, cx.keyOf)
      case Err(InvalidPart) => Err(Fault(path, ReferenceInvalid))
      case Err(Unresolved) => Err(Fault(path, ReferenceUnresolved))
      case Err(NotAnObject) => Err(Fault(path, ReferenceNotObject))
      case Ok(target) => Ok(Next(pointer, target))
  }

  /** `_normalize_schema` */
  function Normalize(schema: Json, cx: Context, path: seq<Key>, resolving: seq<string>): (r: Outcome<Dict>)
    requires Known(schema, cx)
    ensures r.Ok? ==> schema.Obj? && IsFree(Obj(r.value))
    decreases Level(cx, resolving, IsFree(schema)), Size(schema), 2
  {
    hide Prepare, Plain, IsFree, NodeOf, Mentions, Level;
    var _ :- Prepare(schema, path);
    var d := schema.fields;
    if !Refers(NodeOf(d)) then
      assert Known(Obj(Plain(d)), cx) && !Refers(NodeOf(Plain(d))) && DictSize(Plain(d)) <= DictSize(d) &&
             Level(cx, resolving, IsFree(Obj(Plain(d)))) <= Level(cx, resolving, IsFree(schema)) by {
        PlainIsSmaller(d, cx, resolving);
      }
      NormalizeChildren(Plain(d), cx, path, resolving)
    else
      NormalizeReference(d, cx, path, resolving)
  }

  /** The part of `_normalize_schema` for a node with a reference. */
  function NormalizeReference(d: Dict, cx: Context, path: seq<Key>, resolving: seq<string>): (r: Outcome<Dict>)
    requires Known(Obj(d), cx) && Refers(NodeOf(d))
    ensures r.Ok? ==> IsFree(Obj(r.value))
    decreases Level(cx, resolving, IsFree(Obj(d))), Size(Obj(d)), 1
  {
    hide Plain, HasConstraints, Inline, IsFree, NodeOf, Mentions, Remaining;
    var next :- FollowReference(NodeOf(d).reference.value, cx, path + [Ref], resolving);
    assert Known(Obj(next.target), cx) &&
           Level(cx, resolving + [next.pointer], IsFree(Obj(next.target))) < Level(cx, resolving, IsFree(Obj(d))) &&
           Level(cx, resolving, true) < Level(cx, resolving, IsFree(Obj(d))) by {
      FollowingLowersLevel(d, cx, resolving, next.pointer);
    }
    var resolved :- Normalize(Obj(next.target), cx, path, resolving + [next.pointer]);
    if HasConstraints(Plain(d)) then Err(Fault(path, ReferenceSiblings)) else
    assert IsFree(Obj(Inline(resolved, Plain(d)))) && !Refers(NodeOf(Inline(resolved, Plain(d)))) by {
      InlinedIsFree(resolved, Plain(d));
    }
    NormalizeChildren(Inline(resolved, Plain(d)), cx, path, resolving)
  }

  /** The fields of a node without ignored annotations and reference. */
  function Plain(d: Dict): Dict { Without(Without(d, IGNORED), {Ref}) }

  /** Something but annotations and definitions stands beside a reference. */
  predicate HasConstraints(plain: Dict) { Without(plain, ANNOTATIONS + DEFINITIONS) != [] }

  /** What a reference becomes: its target, with the annotations beside it. */
  function Inline(resolved: Dict, plain: Dict): Dict { Update(resolved, Annotations(plain)) }

  /** The annotations beside a reference. */
  function Annotations(d: Dict): (r: Dict)
    ensures forall f {:trigger f in r} :: f in r <==> f in d && f.key in ANNOTATIONS
  {
    if d == [] then [] else (if d[0].key in ANNOTATIONS then [d[0]] else []) + Annotations(d[1..])
  }

  function Assign(d: Dict, k: Key, v: Option<Json>): Dict {
    if v.Some? then Put(d, k, v.value) else d
  }

  /** The passes over the places that hold schemas, then the checks. */
  function NormalizeChildren(d: Dict, cx: Context, path: seq<Key>, resolving: seq<string>): (r: Outcome<Dict>)
    requires Known(Obj(d), cx) && !Refers(NodeOf(d))
    ensures r.Ok? ==> IsFree(Obj(r.value))
    decreases Level(cx, resolving, IsFree(Obj(d))), DictSize(d) + 1, 1
  {
    hide Lookup, NodeOf, IsFree, Mentions;
    var node := NodeOf(d);
    ghost var free := IsFree(Obj(d));
    NodeSmaller(d);
    assert NodeKnown(node, cx, free) by { ChildrenAreKnown(d, cx); }
    var properties :- NormalizeMap(node.properties, cx, path + [Properties], resolving, free);
    var items :- NormalizeValue(node.items, cx, path + [Items], resolving, free);
    var additional :-
      if node.additional.Some? && node.additional.value.Bool? then Ok(None)
      else NormalizeValue(node.additional, cx, path + [AdditionalProperties], resolving, free);
    var alternatives :- NormalizeAlternatives(node.alternatives, cx, path + [AnyOf], resolving, free);
    assert IsFree(Obj(Assemble(d, properties, items, additional, alternatives))) by {
      AssembledIsFree(d, properties, items, additional, alternatives);
    }
    Conclude(d, properties, items, additional, alternatives, path)
  }

  /** Writing the four results back, then the checks. */
  function Conclude(d: Dict, properties: Option<Json>, items: Option<Json>, additional: Option<Json>,
                    alternatives: Option<Json>, path: seq<Key>): (r: Outcome<Dict>)
    requires IsFree(Obj(Assemble(d, properties, items, additional, alternatives)))
    ensures r.Ok? ==> IsFree(Obj(r.value))
  {
    var whole := Assemble(d, properties, items, additional, alternatives);
    assert Finish(whole, path).Ok? ==> IsFree(Obj(Finish(whole, path).value)) by {
      if Finish(whole, path).Ok? { FinishIsFree(whole, path); }
    }
    Finish(whole, path)
  }

  function Assemble(d: Dict, properties: Option<Json>, items: Option<Json>,
                    additional: Option<Json>, alternatives: Option<Json>): Dict {
    Assign(Assign(Assign(Assign(d, Properties, properties), Items, items),
                  AdditionalProperties, additional), AnyOf, alternatives)
  }

  /** `_normalize_schema_map`: what to assign, or nothing when the key is absent or null. */
  function NormalizeMap(v: Option<Json>, cx: Context, path: seq<Key>, resolving: seq<string>,
                        ghost free: bool): (r: Outcome<Option<Json>>)
    requires v.Some? && v.value.Obj? ==> FieldsKnown(v.value.fields, cx, free)
    ensures r.Ok? ==> MapIsFree(r.value) && (r.value.None? ==> v.None? || v.value == Null)
    decreases Level(cx, resolving, free), if v.Some? then Size(v.value) else 0, 0
  {
    match v
    case None => Ok(None)
    case Some(Null) => Ok(None)
    case Some(Obj(fields)) =>
      var normalized :- NormalizeFields(fields, cx, path, resolving, free);
      Ok(Some(Obj(normalized)))
    case _ => Err(Fault(path, MapNotObject))
  }

  function NormalizeFields(fields: Dict, cx: Context, path: seq<Key>, resolving: seq<string>,
                           ghost free: bool): (r: Outcome<Dict>)
    requires FieldsKnown(fields, cx, free)
    ensures r.Ok? ==> FreeFields(r.value)
    decreases Level(cx, resolving, free), DictSize(fields), 3
  {
    if fields == [] then Ok([]) else
    assert Level(cx, resolving, IsFree(fields[0].val)) <= Level(cx, resolving, free);
    var first :- Normalize(fields[0].val, cx, path + [fields[0].key], resolving);
    var rest :- NormalizeFields(fields[1..], cx, path, resolving, free);
    Ok([Field(fields[0].key, Obj(first))] + rest)
  }

  /** `_normalize_schema_value` */
  function NormalizeValue(v: Option<Json>, cx: Context, path: seq<Key>, resolving: seq<string>,
                          ghost free: bool): (r: Outcome<Option<Json>>)
    requires v.Some? ==> Known(v.value, cx) && (free ==> IsFree(v.value))
    ensures r.Ok? ==> (r.value.None? <==> v.None?) && (r.value.Some? ==> IsFree(r.value.value))
    decreases Level(cx, resolving, free), if v.Some? then Size(v.value) else 0, 3
  {
    if v.None? then Ok(None) else
    assert Level(cx, resolving, IsFree(v.value)) <= Level(cx, resolving, free);
    var normalized :- Normalize(v.value, cx, path, resolving);
    Ok(Some(Obj(normalized)))
  }

  /** The `anyOf` pass: a null value is left alone. */
  function NormalizeAlternatives(v: Option<Json>, cx: Context, path: seq<Key>, resolving: seq<string>,
                                 ghost free: bool): (r: Outcome<Option<Json>>)
    requires v.Some? && v.value.Arr? ==> ItemsKnown(v.value.items, cx, free)
    ensures r.Ok? ==> ListIsFree(r.value) && (r.value.None? ==> v.None? || v.value == Null)
    decreases Level(cx, resolving, free), if v.Some? then Size(v.value) else 0, 0
  {
    match v
    case None => Ok(None)
    case Some(Null) => Ok(None)
    case Some(Arr(items)) =>
      if items == [] then Err(Fault(path, AlternativesEmpty)) else
      var normalized :- NormalizeItems(items, 0, cx, path, resolving, free);
      Ok(Some(Arr(normalized)))
    case _ => Err(Fault(path, AlternativesEmpty))
  }

  /** The alternatives from number `index` on. */
  function NormalizeItems(items: seq<Json>, index: nat, cx: Context, path: seq<Key>, resolving: seq<string>,
                          ghost free: bool): (r: Outcome<seq<Json>>)
    requires ItemsKnown(items, cx, free)
    ensures r.Ok? ==> FreeItems(r.value) && |r.value| == |items|
    decreases Level(cx, resolving, free), ItemsSize(items), 3, |items|
  {
    if items == [] then Ok([]) else
    assert Level(cx, resolving, IsFree(items[0])) <= Level(cx, resolving, free);
    var first :- Normalize(items[0], cx, path + [Name(Text.ToDecimal(index))], resolving);
    var rest :- NormalizeItems(items[1..], index + 1, cx, path, resolving, free);
    Ok([Obj(first)] + rest)
  }

  /** What a tool without a schema accepts: an object, with no property described. */
  const NO_ARGUMENTS: Dict := [Field(Type, Str("object")), Field(Properties, Obj([]))]

  /** `normalize_tool_schema` */
  function NormalizeTool(schema: Json, unquote: string -> Option<string>): Outcome<Json> {
    if !schema.Obj? then Err(Fault([], SchemaNotObject))
    else if schema.fields == [] then
      Ok(Obj(NO_ARGUMENTS))
    else
      var normalized :- Normalize(schema, Context(schema, unquote, KeyOf), [], []);
      if Lookup(normalized, Type) != Some(Str("object")) then Err(Fault([Type], RootNotObject))
      else Ok(Obj(normalized))
  }

  // ---- The two ways a node is normalised ----

  lemma PlainStep(schema: Json, cx: Context, path: seq<Key>, resolving: seq<string>)
    requires Known(schema, cx) && Normalize(schema, cx, path, resolving).Ok?
    requires !Refers(NodeOf(schema.fields))
    ensures var plain := Plain(schema.fields);
            && Known(Obj(plain), cx) && !Refers(NodeOf(plain)) && DictSize(plain) + 1 <= Size(schema)
            && Level(cx, resolving, IsFree(Obj(plain))) <= Level(cx, resolving, IsFree(schema))
            && Normalize(schema, cx, path, resolving) == NormalizeChildren(plain, cx, path, resolving)
  {
    hide NormalizeChildren, FollowReference, Prepare, NodeOf, Plain, IsFree, Mentions, Level;
    PlainIsSmaller(schema.fields, cx, resolving);
  }

  /** The outcome of the passes, pass by pass. */
  lemma ChildrenSteps(d: Dict, cx: Context, path: seq<Key>, resolving: seq<string>)
    requires Known(Obj(d), cx) && !Refers(NodeOf(d))
    ensures var node := NodeOf(d);
            var free := IsFree(Obj(d));
            && NodeKnown(node, cx, free)
            && var p := NormalizeMap(node.properties, cx, path + [Properties], resolving, free);
            && var i := NormalizeValue(node.items, cx, path + [Items], resolving, free);
            && var a := if node.additional.Some? && node.additional.value.Bool? then Ok(None)
                        else NormalizeValue(node.additional, cx, path + [AdditionalProperties], resolving, free);
            && var o := NormalizeAlternatives(node.alternatives, cx, path + [AnyOf], resolving, free);
            && NormalizeChildren(d, cx, path, resolving) ==
               if p.Err? then Err(p.error) else if i.Err? then Err(i.error)
               else if a.Err? then Err(a.error) else if o.Err? then Err(o.error)
               else Finish(Assemble(d, p.value, i.value, a.value, o.value), path)
  {
    hide NodeOf, NormalizeMap, NormalizeValue, NormalizeAlternatives, IsFree, Assemble, Finish, Lookup, Known, FieldsKnown, ItemsKnown;
    ChildrenAreKnown(d, cx);
  }

  lemma ReferenceStep(schema: Json, cx: Context, path: seq<Key>, resolving: seq<string>) returns (next: Next)
    requires Known(schema, cx) && Normalize(schema, cx, path, resolving).Ok?
    requires Refers(NodeOf(schema.fields))
    ensures FollowReference(NodeOf(schema.fields).reference.value, cx, path + [Ref], resolving) == Ok(next)
    ensures Known(Obj(next.target), cx)
    ensures Level(cx, resolving + [next.pointer], IsFree(Obj(next.target))) < Level(cx, resolving, IsFree(schema))
    ensures Normalize(Obj(next.target), cx, path, resolving + [next.pointer]).Ok?
    ensures forall f :: f in Plain(schema.fields) ==> f.key in ANNOTATIONS + DEFINITIONS
    ensures var resolved := Normalize(Obj(next.target), cx, path, resolving + [next.pointer]).value;
            var inlined := Inline(resolved, Plain(schema.fields));
            && IsFree(Obj(inlined)) && Known(Obj(inlined), cx) && !Refers(NodeOf(inlined))
            && Level(cx, resolving, IsFree(Obj(inlined))) < Level(cx, resolving, IsFree(schema))
            && Normalize(schema, cx, path, resolving) == NormalizeChildren(inlined, cx, path, resolving)
  {
    hide NormalizeChildren, FollowReference, Prepare, NodeOf, Without, IsFree, Inline, Mentions;
    next := FollowReference(NodeOf(schema.fields).reference.value, cx, path + [Ref], resolving).value;
    FollowingLowersLevel(schema.fields, cx, resolving, next.pointer);
    InlinedIsFree(Normalize(Obj(next.target), cx, path, resolving + [next.pointer]).value, Plain(schema.fields));
    WithoutNothing(Plain(schema.fields), ANNOTATIONS + DEFINITIONS);
  }

  // ---- What the contracts above are about ----

  ghost predicate FieldsKnown(fields: Dict, cx: Context, free: bool) {
    forall f :: f in fields ==> Known(f.val, cx) && (free ==> IsFree(f.val))
  }

  ghost predicate ItemsKnown(items: seq<Json>, cx: Context, free: bool) {
    forall v :: v in items ==> Known(v, cx) && (free ==> IsFree(v))
  }

  /** The schemas a node leads to can be met, and are free if the node is. */
  ghost predicate NodeKnown(node: Node, cx: Context, free: bool) {
    && (node.properties.Some? && node.properties.value.Obj? ==> FieldsKnown(node.properties.value.fields, cx, free))
    && (node.items.Some? ==> Known(node.items.value, cx) && (free ==> IsFree(node.items.value)))
    && (node.additional.Some? ==> Known(node.additional.value, cx) && (free ==> IsFree(node.additional.value)))
    && (node.alternatives.Some? && node.alternatives.value.Arr? ==> ItemsKnown(node.alternatives.value.items, cx, free))
  }

  predicate ValueFree(v: Option<Json>) { v.Some? ==> IsFree(v.value) }

  ghost predicate MapIsFree(v: Option<Json>) { v.Some? ==> v.value.Obj? && FreeFields(v.value.fields) }

  ghost predicate ListIsFree(v: Option<Json>) { v.Some? ==> v.value.Arr? && FreeItems(v.value.items) }

  lemma {:induction false} FreeFieldsEach(fields: Dict)
    ensures FreeFields(fields) <==> forall f :: f in fields ==> IsFree(f.val)
  {
    if fields != [] {
      FreeFieldsEach(fields[1..]);
      assert fields == [fields[0]] + fields[1..];
    }
  }

  lemma {:induction false} FreeItemsEach(items: seq<Json>)
    ensures FreeItems(items) <==> forall v :: v in items ==> IsFree(v)
  {
    if items != [] {
      FreeItemsEach(items[1..]);
      assert FreeItems(items) == (IsFree(items[0]) && FreeItems(items[1..]));
      assert forall v :: v in items <==> v == items[0] || v in items[1..];
      assert (forall v :: v in items ==> IsFree(v)) == (IsFree(items[0]) && forall v :: v in items[1..] ==> IsFree(v));
    }
  }

  lemma {:induction false} FieldMentions(fields: Dict, unquote: string -> Option<string>, f: Field, pointer: string)
    requires f in fields && (Denotes(f, pointer, unquote) || Mentions(f.val, pointer, unquote))
    ensures FieldsMention(fields, pointer, unquote)
  {
    hide PointerOf;
    if f != fields[0] {
      FieldMentions(fields[1..], unquote, f, pointer);
    }
  }

  lemma {:induction false} ItemMentions(items: seq<Json>, unquote: string -> Option<string>, v: Json, pointer: string)
    requires v in items && Mentions(v, pointer, unquote)
    ensures ItemsMention(items, pointer, unquote)
  {
    if v != items[0] {
      ItemMentions(items[1..], unquote, v, pointer);
    }
  }

  lemma FieldWithin(fields: Dict, f: Field, cx: Context)
    requires f in fields && Within(Obj(fields), cx)
    ensures Within(f.val, cx)
  {
    hide PointerOf;
    forall pointer | Mentions(f.val, pointer, cx.unquote) ensures Mentions(cx.doc, pointer, cx.unquote) {
      FieldMentions(fields, cx.unquote, f, pointer);
      assert Mentions(Obj(fields), pointer, cx.unquote);
    }
  }

  lemma ItemWithin(items: seq<Json>, v: Json, cx: Context)
    requires v in items && Within(Arr(items), cx)
    ensures Within(v, cx)
  {
    forall pointer | Mentions(v, pointer, cx.unquote) ensures Mentions(cx.doc, pointer, cx.unquote) {
      ItemMentions(items, cx.unquote, v, pointer);
      assert Mentions(Arr(items), pointer, cx.unquote);
    }
  }

  lemma LookupWithin(d: Dict, k: Key, cx: Context)
    requires Within(Obj(d), cx) && Has(d, k)
    ensures Within(Lookup(d, k).value, cx)
  {
    LookupIsField(d, k);
    FieldWithin(d, Field(k, Lookup(d, k).value), cx);
  }

  lemma FieldsAreKnown(fields: Dict, cx: Context)
    ensures Within(Obj(fields), cx) ==> FieldsKnown(fields, cx, false)
    ensures FreeFields(fields) ==> FieldsKnown(fields, cx, true)
  {
    FreeFieldsEach(fields);
    if Within(Obj(fields), cx) {
      forall f | f in fields ensures Within(f.val, cx) {
        FieldWithin(fields, f, cx);
      }
    }
  }

  lemma ItemsAreKnown(items: seq<Json>, cx: Context)
    ensures Within(Arr(items), cx) ==> ItemsKnown(items, cx, false)
    ensures FreeItems(items) ==> ItemsKnown(items, cx, true)
  {
    FreeItemsEach(items);
    if Within(Arr(items), cx) {
      forall v | v in items ensures Within(v, cx) {
        ItemWithin(items, v, cx);
      }
    }
  }

  lemma ChildrenAreKnown(d: Dict, cx: Context)
    requires Known(Obj(d), cx)
    ensures NodeKnown(NodeOf(d), cx, IsFree(Obj(d)))
  {
    var node := NodeOf(d);
    if !IsFree(Obj(d)) {
      assert forall k :: Has(d, k) ==> Within(Lookup(d, k).value, cx) by {
        forall k | Has(d, k) ensures Within(Lookup(d, k).value, cx) {
          LookupWithin(d, k, cx);
        }
      }
    }
    if node.properties.Some? && node.properties.value.Obj? {
      FieldsAreKnown(node.properties.value.fields, cx);
    }
    if node.alternatives.Some? && node.alternatives.value.Arr? {
      ItemsAreKnown(node.alternatives.value.items, cx);
    }
  }

  lemma {:induction false} WithoutMentions(d: Dict, ks: set<Key>, unquote: string -> Option<string>, pointer: string)
    ensures FieldsMention(Without(d, ks), pointer, unquote) ==> FieldsMention(d, pointer, unquote)
  {
    hide PointerOf;
    if d != [] {
      WithoutMentions(d[1..], ks, unquote, pointer);
      var rest := Without(d[1..], ks);
      assert ([d[0]] + rest)[1..] == rest;
    }
  }

  lemma WithoutWithin(d: Dict, ks: set<Key>, cx: Context)
    requires Within(Obj(d), cx)
    ensures Within(Obj(Without(d, ks)), cx)
  {
    hide Without, PointerOf;
    forall pointer | Mentions(Obj(Without(d, ks)), pointer, cx.unquote) ensures Mentions(cx.doc, pointer, cx.unquote) {
      WithoutMentions(d, ks, cx.unquote, pointer);
      assert Mentions(Obj(d), pointer, cx.unquote);
    }
  }

  /** Dropping the ignored annotations and a null `$ref` keeps a node known and no larger. */
  lemma PlainIsKnown(d: Dict, cx: Context)
    requires Known(Obj(d), cx) && !Refers(NodeOf(Without(d, IGNORED)))
    ensures var plain := Without(Without(d, IGNORED), {Ref});
            Known(Obj(plain), cx) && (IsFree(Obj(d)) ==> IsFree(Obj(plain))) && DictSize(plain) <= DictSize(d)
  {
    var current := Without(d, IGNORED);
    hide Without, NodeOf, Within;
    if Within(Obj(d), cx) {
      WithoutWithin(d, IGNORED, cx);
      WithoutWithin(current, {Ref}, cx);
    }
    WithoutSmaller(d, IGNORED);
    WithoutSmaller(current, {Ref});
    NodeOfCurrent(d);
    NodeOfPlain(d);
  }

  lemma PlainIsSmaller(d: Dict, cx: Context, resolving: seq<string>)
    requires Known(Obj(d), cx) && !Refers(NodeOf(d))
    ensures Known(Obj(Plain(d)), cx) && !Refers(NodeOf(Plain(d))) && DictSize(Plain(d)) <= DictSize(d)
    ensures Level(cx, resolving, IsFree(Obj(Plain(d)))) <= Level(cx, resolving, IsFree(Obj(d)))
  {
    hide Without, NodeOf, Mentions;
    NodeOfCurrent(d);
    NodeOfPlain(d);
    PlainIsKnown(d, cx);
  }

  // ---- The schema-bearing keywords after each operation on a dict ----

  lemma NodeOfCurrent(d: Dict)
    ensures NodeOf(Without(d, IGNORED)) == NodeOf(d)
  {
    hide Without, Lookup;
  }

  lemma NodeOfPlain(d: Dict)
    ensures NodeOf(Without(Without(d, IGNORED), {Ref})) == NodeOf(d).(reference := None)
  {
    hide Without, Lookup;
  }

  lemma NodeOfAnnotated(d: Dict, annotations: Dict)
    requires forall f :: f in annotations ==> f.key in ANNOTATIONS
    ensures NodeOf(Update(d, annotations)) == NodeOf(d)
  {
    hide Update, Last, Lookup;
    OnlyAnnotations(annotations);
    assert forall k :: k !in ANNOTATIONS ==> Lookup(Update(d, annotations), k) == Lookup(d, k);
  }

  function Or(new_: Option<Json>, old_: Option<Json>): Option<Json> { if new_.Some? then new_ else old_ }

  lemma NodeOfAssembled(d: Dict, properties: Option<Json>, items: Option<Json>,
                        additional: Option<Json>, alternatives: Option<Json>)
    ensures var n := NodeOf(d);
            NodeOf(Assemble(d, properties, items, additional, alternatives)) ==
            Node(n.reference, Or(properties, n.properties), Or(items, n.items),
                 Or(additional, n.additional), Or(alternatives, n.alternatives))
    ensures forall k {:trigger Lookup(Assemble(d, properties, items, additional, alternatives), k)} ::
              k != Properties && k != Items && k != AdditionalProperties && k != AnyOf ==>
              Lookup(Assemble(d, properties, items, additional, alternatives), k) == Lookup(d, k)
  {
    hide NodeOf, Assign, Lookup;
    var d1 := Assign(d, Properties, properties);
    NodeOfAssigned(d, Properties, properties);
    var d2 := Assign(d1, Items, items);
    NodeOfAssigned(d1, Items, items);
    var d3 := Assign(d2, AdditionalProperties, additional);
    NodeOfAssigned(d2, AdditionalProperties, additional);
    NodeOfAssigned(d3, AnyOf, alternatives);
  }

  lemma NodeOfAssigned(d: Dict, k: Key, v: Option<Json>)
    requires k in {Properties, Items, AdditionalProperties, AnyOf}
    ensures var n := NodeOf(d);
            NodeOf(Assign(d, k, v)) ==
            if k == Properties then n.(properties := Or(v, n.properties))
            else if k == Items then n.(items := Or(v, n.items))
            else if k == AdditionalProperties then n.(additional := Or(v, n.additional))
            else n.(alternatives := Or(v, n.alternatives))
    ensures forall j {:trigger Lookup(Assign(d, k, v), j)} :: j != k ==> Lookup(Assign(d, k, v), j) == Lookup(d, j)
  {
    hide Put, Lookup;
  }

  lemma NodeOfFinished(d: Dict, path: seq<Key>)
    requires Finish(d, path).Ok?
    ensures NodeOf(Finish(d, path).value) == NodeOf(d)
  {
    hide Without, Lookup, Put, KeywordFault;
  }

  lemma {:induction false} FollowWithin(j: Json, parts: seq<string>, cx: Context)
    requires Within(j, cx) && Follow(j, parts, cx.keyOf).Ok?
    ensures Within(Follow(j, parts, cx.keyOf).value, cx)
    decreases |parts|
  {
    hide Within, Decode;
    if parts != [] {
      var part := Decode(parts[0]);
      var next := Child(j, part, cx.keyOf).value;
      match j {
        case Obj(fields) =>
          LookupWithin(fields, cx.keyOf(part), cx);
        case Arr(items) =>
          ItemWithin(items, next, cx);
      }
      FollowWithin(next, parts[1..], cx);
    }
  }

  lemma FollowingLowersLevel(d: Dict, cx: Context, resolving: seq<string>, pointer: string)
    requires Known(Obj(d), cx) && Refers(NodeOf(d))
    requires PointerOf(NodeOf(d).reference.value, cx.unquote) == Ok(pointer)
    requires pointer !in resolving && Resolve(cx.doc, pointer, cx.keyOf).Ok?
    ensures Known(Obj(Resolve(cx.doc, pointer, cx.keyOf).value), cx)
    ensures Level(cx, resolving + [pointer], IsFree(Obj(Resolve(cx.doc, pointer, cx.keyOf).value)))
            < Level(cx, resolving, IsFree(Obj(d)))
    ensures Remaining(cx, resolving + [pointer]) < Remaining(cx, resolving)
  {
    hide PointerOf, Mentions, Outstanding, Within;
    assert Within(cx.doc, cx) by { hide *; WholeIsWithin(cx); }
    FollowWithin(cx.doc, Text.Split(pointer[1..], '/'), cx);
    ReferenceIsMentioned(d, cx, pointer);
    ResolvingLowers(cx.doc, resolving, pointer, cx.unquote);
  }

  lemma WholeIsWithin(cx: Context)
    ensures Within(cx.doc, cx)
  {
    hide Mentions;
  }

  lemma ReferenceIsMentioned(d: Dict, cx: Context, pointer: string)
    requires Within(Obj(d), cx) && Refers(NodeOf(d))
    requires PointerOf(NodeOf(d).reference.value, cx.unquote) == Ok(pointer)
    ensures Mentions(cx.doc, pointer, cx.unquote)
  {
    hide PointerOf;
    LookupIsField(d, Ref);
    FieldMentions(d, cx.unquote, Field(Ref, Lookup(d, Ref).value), pointer);
    assert Mentions(Obj(d), pointer, cx.unquote);
  }

  /** Resolving one more pointer leaves fewer references unresolved if the value mentions it. */
  lemma {:induction false} ResolvingLowers(j: Json, resolving: seq<string>, pointer: string, unquote: string -> Option<string>)
    requires pointer !in resolving
    ensures Outstanding(j, resolving + [pointer], unquote) <= Outstanding(j, resolving, unquote)
    ensures Mentions(j, pointer, unquote) ==>
              Outstanding(j, resolving + [pointer], unquote) < Outstanding(j, resolving, unquote)
    decreases Size(j), 0
  {
    match j
    case Obj(fields) => ResolvingLowersFields(fields, resolving, pointer, unquote);
    case Arr(items) => ResolvingLowersItems(items, resolving, pointer, unquote);
    case _ =>
  }

  lemma {:induction false} ResolvingLowersFields(fields: Dict, resolving: seq<string>, pointer: string,
                                                 unquote: string -> Option<string>)
    requires pointer !in resolving
    ensures OutstandingFields(fields, resolving + [pointer], unquote) <= OutstandingFields(fields, resolving, unquote)
    ensures FieldsMention(fields, pointer, unquote) ==>
              OutstandingFields(fields, resolving + [pointer], unquote) < OutstandingFields(fields, resolving, unquote)
    decreases DictSize(fields)
  {
    hide PointerOf;
    if fields != [] {
      ResolvingLowers(fields[0].val, resolving, pointer, unquote);
      ResolvingLowersFields(fields[1..], resolving, pointer, unquote);
    }
  }

  lemma {:induction false} ResolvingLowersItems(items: seq<Json>, resolving: seq<string>, pointer: string,
                                                unquote: string -> Option<string>)
    requires pointer !in resolving
    ensures OutstandingItems(items, resolving + [pointer], unquote) <= OutstandingItems(items, resolving, unquote)
    ensures ItemsMention(items, pointer, unquote) ==>
              OutstandingItems(items, resolving + [pointer], unquote) < OutstandingItems(items, resolving, unquote)
    decreases ItemsSize(items), 1, |items|
  {
    if items != [] {
      ResolvingLowers(items[0], resolving, pointer, unquote);
      ResolvingLowersItems(items[1..], resolving, pointer, unquote);
    }
  }

  lemma AnnotatedIsFree(resolved: Dict, annotations: Dict)
    requires IsFree(Obj(resolved)) && forall f :: f in annotations ==> f.key in ANNOTATIONS
    ensures IsFree(Obj(Update(resolved, annotations))) && !Refers(NodeOf(Update(resolved, annotations)))
  {
    NodeOfAnnotated(resolved, annotations);
  }

  lemma InlinedIsFree(resolved: Dict, plain: Dict)
    requires IsFree(Obj(resolved))
    ensures IsFree(Obj(Inline(resolved, plain))) && !Refers(NodeOf(Inline(resolved, plain)))
  {
    AnnotatedIsFree(resolved, Annotations(plain));
  }

  lemma OnlyAnnotations(annotations: Dict)
    requires forall f :: f in annotations ==> f.key in ANNOTATIONS
    ensures forall k :: k !in ANNOTATIONS ==> !Has(Last(annotations), k)
  {
    forall k | k !in ANNOTATIONS ensures !Has(Last(annotations), k) {
      if Has(Last(annotations), k) {
        LookupIsField(Last(annotations), k);
      }
    }
  }

  lemma AssembledIsFree(d: Dict, properties: Option<Json>, items: Option<Json>,
                        additional: Option<Json>, alternatives: Option<Json>)
    requires !Refers(NodeOf(d))
    requires MapIsFree(properties) && (properties.None? ==> NodeOf(d).properties in {None, Some(Null)})
    requires ValueFree(items) && (items.None? ==> NodeOf(d).items.None?)
    requires ValueFree(additional)
    requires additional.None? && NodeOf(d).additional.Some? ==> NodeOf(d).additional.value.Bool?
    requires ListIsFree(alternatives) && (alternatives.None? ==> NodeOf(d).alternatives in {None, Some(Null)})
    ensures IsFree(Obj(Assemble(d, properties, items, additional, alternatives)))
  {
    NodeOfAssembled(d, properties, items, additional, alternatives);
  }

  lemma FinishIsFree(d: Dict, path: seq<Key>)
    requires IsFree(Obj(d)) && Finish(d, path).Ok?
    ensures IsFree(Obj(Finish(d, path).value))
  {
    NodeOfFinished(d, path);
  }
}
