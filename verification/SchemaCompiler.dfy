/** The normaliser as the code runs it: a copied dict that is popped, assigned and
    updated step by step, with loops over its maps and lists. Each method computes
    the function of the same step in `SchemaNormalizer`. */
module SchemaCompiler {
  import opened Wrappers
  import opened Json
  import opened SchemaNormalizer
  import JsonPointer
  import Text

  /** `next((keyword for keyword in current if keyword not in ...), None)` */
  method FindUnsupported(d: Dict) returns (r: Option<Key>)
    ensures r == FirstUnsupported(d)
  {
    for i := 0 to |d|
      invariant FirstUnsupported(d) == FirstUnsupported(d[i..])
    {
      if !IsSupported(d[i].key) {
        return Some(d[i].key);
      }
    }
    return None;
  }

  /** The checks of `_validate_keyword_values` over one group of keywords. */
  method FindFailing(d: Dict, keywords: seq<Key>, passes: Json -> bool) returns (r: Option<Key>)
    ensures r == FirstFailing(d, keywords, passes)
  {
    for i := 0 to |keywords|
      invariant FirstFailing(d, keywords, passes) == FirstFailing(d, keywords[i..], passes)
    {
      var value := Lookup(d, keywords[i]);
      if value.Some? && !passes(value.value) {
        return Some(keywords[i]);
      }
    }
    return None;
  }

  method ValidateKeywordValues(d: Dict) returns (r: Option<(Key, Reason)>)
    ensures r == KeywordFault(d)
  {
    if !RequiredOk(d) {
      return Some((Required, RequiredNotUnique));
    }
    if !EnumOk(d) {
      return Some((Enum, EnumNotStrings));
    }
    var failing := FindFailing(d, TEXT_KEYWORDS, IsText);
    if failing.Some? {
      return Some((failing.value, NotString));
    }
    failing := FindFailing(d, COUNT_KEYWORDS, IsCount);
    if failing.Some? {
      return Some((failing.value, NotCount));
    }
    failing := FindFailing(d, BOUND_KEYWORDS, IsNumber);
    if failing.Some? {
      return Some((failing.value, NotNumber));
    }
    return None;
  }

  method ResolveTarget(reference: Json, cx: Context, path: seq<Key>, resolving: seq<string>) returns (r: Outcome<Next>)
    ensures r == FollowReference(reference, cx, path, resolving)
  {
    var pointer := PointerOf(reference, cx.unquote);
    if pointer.Err? {
      return Err(Fault(path, pointer.error));
    }
    if pointer.value in resolving {
      return Err(Fault(path, ReferenceCyclic));
    }
    var target := JsonPointer.ResolveReference(cx.doc, pointer.value, cx.keyOf);
    match target
    case Err(InvalidPart) => r := Err(Fault(path, ReferenceInvalid));
    case Err(Unresolved) => r := Err(Fault(path, ReferenceUnresolved));
    case Err(NotAnObject) => r := Err(Fault(path, ReferenceNotObject));
    case Ok(fields) => r := Ok(Next(pointer.value, fields));
  }

  /** `annotations`: popped from the fields beside a reference, in their order. */
  method PopAnnotations(d: Dict) returns (annotations: Dict)
    ensures annotations == Annotations(d)
  {
    annotations := [];
    for i := 0 to |d|
      invariant Annotations(d) == annotations + Annotations(d[i..])
    {
      if d[i].key in ANNOTATIONS {
        annotations := annotations + [d[i]];
      }
    }
  }

  /** `current.update(annotations)` */
  method UpdateWith(d: Dict, annotations: Dict) returns (r: Dict)
    ensures r == Update(d, annotations)
  {
    r := d;
    for i := 0 to |annotations|
      invariant r == Update(d, annotations[..i])
    {
      assert annotations[..i + 1][..i] == annotations[..i];
      r := Put(r, annotations[i].key, annotations[i].val);
    }
    assert annotations[..|annotations|] == annotations;
  }

  /** `_normalize_schema` */
  method NormalizeSchema(schema: Json, cx: Context, path: seq<Key>, resolving: seq<string>) returns (r: Outcome<Dict>)
    requires Known(schema, cx)
    ensures r == Normalize(schema, cx, path, resolving)
    decreases Level(cx, resolving, IsFree(schema)), Size(schema), 2
  {
    hide FirstUnsupported, Without, Lookup, NormalizeChildren, FollowReference, IsFree, Annotations, Update, Known, Level;
    if !schema.Obj? {
      return Err(Fault(path, SchemaNotObject));
    }
    var current := Without(schema.fields, IGNORED);
    var unsupported := FindUnsupported(current);
    if unsupported.Some? {
      return Err(Fault(path + [unsupported.value], KeywordUnsupported));
    }
    var reference := Lookup(current, Ref);
    current := Without(current, {Ref});
    if reference.Some? && reference.value != Null {
      var next := ResolveTarget(reference.value, cx, path + [Ref], resolving);
      if next.Err? {
        return Err(next.error);
      }
      NodeOfCurrent(schema.fields);
      FollowingLowersLevel(schema.fields, cx, resolving, next.value.pointer);
      var resolved := NormalizeSchema(Obj(next.value.target), cx, path, resolving + [next.value.pointer]);
      if resolved.Err? {
        return resolved;
      }
      var annotations := PopAnnotations(current);
      current := Without(current, ANNOTATIONS + DEFINITIONS);
      if current != [] {
        return Err(Fault(path, ReferenceSiblings));
      }
      current := UpdateWith(resolved.value, annotations);
      InlinedIsFree(resolved.value, Plain(schema.fields));
      FreeHasLowestLevel(current, cx, resolving, Level(cx, resolving, IsFree(schema)));
    } else {
      PlainIsKnown(schema.fields, cx);
      NodeOfPlain(schema.fields);
      PlainLevel(schema, current, cx, resolving);
    }
    r := NormalizeRest(current, cx, path, resolving);
  }

  lemma FreeHasLowestLevel(d: Dict, cx: Context, resolving: seq<string>, level: nat)
    requires IsFree(Obj(d))
    ensures Known(Obj(d), cx) && Level(cx, resolving, IsFree(Obj(d))) == 0 <= level
  {
  }

  lemma PlainLevel(schema: Json, plain: Dict, cx: Context, resolving: seq<string>)
    requires IsFree(schema) ==> IsFree(Obj(plain))
    ensures Level(cx, resolving, IsFree(Obj(plain))) <= Level(cx, resolving, IsFree(schema))
  {
  }

  /** The second half of `_normalize_schema`: the passes that rewrite the dict. */
  method NormalizeRest(d: Dict, cx: Context, path: seq<Key>, resolving: seq<string>) returns (r: Outcome<Dict>)
    requires Known(Obj(d), cx) && !Refers(NodeOf(d))
    ensures r == NormalizeChildren(d, cx, path, resolving)
    decreases Level(cx, resolving, IsFree(Obj(d))), DictSize(d) + 1, 1
  {
    hide Normalize, NormalizeChildren, NormalizeMap, NormalizeValue, NormalizeAlternatives, Lookup, Put, Finish, IsFree, FieldsKnown, ItemsKnown, Known, Level;
    ghost var free := IsFree(Obj(d));
    ghost var node := NodeOf(d);
    ChildrenSteps(d, cx, path, resolving);
    NodeSmaller(d);
    var current := d;
    var properties := NormalizeSchemaMap(Lookup(current, Properties), cx, path + [Properties], resolving, free);
    if properties.Err? {
      return Err(properties.error);
    }
    current := Assign(current, Properties, properties.value);
    AssignKeeps(d, Properties, properties.value);
    var items := NormalizeSchemaValue(Lookup(current, Items), cx, path + [Items], resolving, free);
    if items.Err? {
      return Err(items.error);
    }
    AssignKeeps(current, Items, items.value);
    current := Assign(current, Items, items.value);
    r := NormalizeLater(d, properties.value, items.value, current, cx, path, resolving);
  }

  /** The passes after the one over `items`. */
  method NormalizeLater(ghost d: Dict, ghost properties: Option<Json>, ghost items: Option<Json>, before: Dict,
                        cx: Context, path: seq<Key>, resolving: seq<string>) returns (r: Outcome<Dict>)
    requires Known(Obj(d), cx) && !Refers(NodeOf(d)) && NodeKnown(NodeOf(d), cx, IsFree(Obj(d)))
    requires NormalizeMap(NodeOf(d).properties, cx, path + [Properties], resolving, IsFree(Obj(d))) == Ok(properties)
    requires NormalizeValue(NodeOf(d).items, cx, path + [Items], resolving, IsFree(Obj(d))) == Ok(items)
    requires before == Assign(Assign(d, Properties, properties), Items, items)
    ensures r == NormalizeChildren(d, cx, path, resolving)
    decreases Level(cx, resolving, IsFree(Obj(d))), DictSize(d) + 1, 0
  {
    hide Normalize, NormalizeChildren, NormalizeMap, NormalizeValue, NormalizeAlternatives, Lookup, Put, Finish, IsFree, FieldsKnown, ItemsKnown, Known, Level, Mentions;
    ghost var free := IsFree(Obj(d));
    ChildrenSteps(d, cx, path, resolving);
    NodeSmaller(d);
    AssignKeeps(d, Properties, properties);
    AssignKeeps(Assign(d, Properties, properties), Items, items);
    var current := before;
    var additional := NormalizeAdditional(Lookup(current, AdditionalProperties), cx, path + [AdditionalProperties], resolving, free);
    if additional.Err? {
      return Err(additional.error);
    }
    AssignKeeps(current, AdditionalProperties, additional.value);
    current := Assign(current, AdditionalProperties, additional.value);
    var alternatives := NormalizeSchemaList(Lookup(current, AnyOf), cx, path + [AnyOf], resolving, free);
    if alternatives.Err? {
      return Err(alternatives.error);
    }
    current := Assign(current, AnyOf, alternatives.value);
    r := Check(current, path);
  }

  lemma AssignKeeps(d: Dict, k: Key, v: Option<Json>)
    ensures forall j {:trigger Lookup(Assign(d, k, v), j)} :: j != k ==> Lookup(Assign(d, k, v), j) == Lookup(d, j)
  {
  }

  /** The last part of `_normalize_schema`: the checks, the inferred type, the
      definitions dropped. */
  method Check(d: Dict, path: seq<Key>) returns (r: Outcome<Dict>)
    ensures r == Finish(d, path)
  {
    hide KeywordFault, Lookup, Put, Without, TypeOk, InferType;
    var current := d;
    var fault := ValidateKeywordValues(current);
    if fault.Some? {
      return Err(Fault(path + [fault.value.0], fault.value.1));
    }
    if Has(current, Type) && !TypeOk(Lookup(current, Type).value) {
      return Err(Fault(path + [Type], TypeUnsupported));
    }
    if !Has(current, Type) && !Has(current, AnyOf) {
      var inferred := InferType(current);
      if inferred.None? {
        return Err(Fault(path, TypeMissing));
      }
      current := Put(current, Type, Str(inferred.value));
    }
    current := Without(current, DEFINITIONS);
    r := Ok(current);
  }

  // ---- Loops over maps and lists ----

  /** What a loop that has computed `done` will have computed in the end. */
  function Prefixed<T>(done: seq<T>, rest: Outcome<seq<T>>): Outcome<seq<T>> {
    if rest.Err? then rest else Ok(done + rest.value)
  }

  lemma PrefixedNothing<T>(rest: Outcome<seq<T>>)
    ensures Prefixed([], rest) == rest
  {
    if rest.Ok? {
      assert [] + rest.value == rest.value;
    }
  }

  lemma PrefixedOne<T>(done: seq<T>, x: T, rest: Outcome<seq<T>>)
    ensures Prefixed(done, Prefixed([x], rest)) == Prefixed(done + [x], rest)
  {
    if rest.Ok? {
      assert done + ([x] + rest.value) == done + [x] + rest.value;
    }
  }

  /** `_normalize_schema_map` */
  method NormalizeSchemaMap(v: Option<Json>, cx: Context, path: seq<Key>, resolving: seq<string>, ghost free: bool)
    returns (r: Outcome<Option<Json>>)
    requires v.Some? && v.value.Obj? ==> FieldsKnown(v.value.fields, cx, free)
    ensures r == NormalizeMap(v, cx, path, resolving, free)
    decreases Level(cx, resolving, free), OptionSize(v), 0
  {
    hide NormalizeFields, FieldsKnown, Level;
    if v.None? || v.value == Null {
      return Ok(None);
    }
    if !v.value.Obj? {
      return Err(Fault(path, MapNotObject));
    }
    var normalized := NormalizeEachField(v.value.fields, cx, path, resolving, free);
    if normalized.Err? {
      return Err(normalized.error);
    }
    r := Ok(Some(Obj(normalized.value)));
  }

  method NormalizeEachField(fields: Dict, cx: Context, path: seq<Key>, resolving: seq<string>, ghost free: bool)
    returns (r: Outcome<Dict>)
    requires FieldsKnown(fields, cx, free)
    ensures r == NormalizeFields(fields, cx, path, resolving, free)
    decreases Level(cx, resolving, free), DictSize(fields), 3
  {
    hide Normalize, IsFree, Known, Remaining, Size;
    var result: Dict := [];
    PrefixedNothing(NormalizeFields(fields, cx, path, resolving, free));
    assert fields[0..] == fields;
    for i := 0 to |fields|
      invariant NormalizeFields(fields, cx, path, resolving, free) ==
                Prefixed(result, NormalizeFields(fields[i..], cx, path, resolving, free))
    {
      assert fields[i] in fields && fields[i..][0] == fields[i] && fields[i..][1..] == fields[i + 1..];
      FieldSmaller(fields, i);
      var normalized := NormalizeSchema(fields[i].val, cx, path + [fields[i].key], resolving);
      if normalized.Err? {
        return Err(normalized.error);
      }
      PrefixedOne(result, Field(fields[i].key, Obj(normalized.value)), NormalizeFields(fields[i + 1..], cx, path, resolving, free));
      result := result + [Field(fields[i].key, Obj(normalized.value))];
    }
    assert fields[|fields|..] == [] && result + [] == result;
    r := Ok(result);
  }

  lemma {:induction false} FieldSmaller(fields: Dict, i: nat)
    requires i < |fields|
    ensures Size(fields[i].val) < DictSize(fields)
  {
    if i > 0 {
      FieldSmaller(fields[1..], i - 1);
    }
  }

  lemma {:induction false} ItemSmaller(items: seq<Json>, i: nat)
    requires i < |items|
    ensures Size(items[i]) <= ItemsSize(items)
  {
    if i > 0 {
      ItemSmaller(items[1..], i - 1);
    }
  }

  /** `_normalize_schema_value` */
  method NormalizeSchemaValue(v: Option<Json>, cx: Context, path: seq<Key>, resolving: seq<string>, ghost free: bool)
    returns (r: Outcome<Option<Json>>)
    requires v.Some? ==> Known(v.value, cx) && (free ==> IsFree(v.value))
    ensures r == NormalizeValue(v, cx, path, resolving, free)
    decreases Level(cx, resolving, free), OptionSize(v), 3
  {
    hide Normalize, IsFree, Known, Remaining;
    if v.None? {
      return Ok(None);
    }
    var normalized := NormalizeSchema(v.value, cx, path, resolving);
    if normalized.Err? {
      return Err(normalized.error);
    }
    r := Ok(Some(Obj(normalized.value)));
  }

  /** The pass over `additionalProperties`, which may also be a boolean. */
  method NormalizeAdditional(v: Option<Json>, cx: Context, path: seq<Key>, resolving: seq<string>, ghost free: bool)
    returns (r: Outcome<Option<Json>>)
    requires v.Some? ==> Known(v.value, cx) && (free ==> IsFree(v.value))
    ensures r == if v.Some? && v.value.Bool? then Ok(None) else NormalizeValue(v, cx, path, resolving, free)
    decreases Level(cx, resolving, free), OptionSize(v), 4
  {
    if v.Some? && v.value.Bool? {
      return Ok(None);
    }
    r := NormalizeSchemaValue(v, cx, path, resolving, free);
  }

  /** The `anyOf` pass */
  method NormalizeSchemaList(v: Option<Json>, cx: Context, path: seq<Key>, resolving: seq<string>, ghost free: bool)
    returns (r: Outcome<Option<Json>>)
    requires v.Some? && v.value.Arr? ==> ItemsKnown(v.value.items, cx, free)
    ensures r == NormalizeAlternatives(v, cx, path, resolving, free)
    decreases Level(cx, resolving, free), OptionSize(v), 0
  {
    hide NormalizeItems, ItemsKnown, Level;
    if v.None? || v.value == Null {
      return Ok(None);
    }
    if !v.value.Arr? || v.value.items == [] {
      return Err(Fault(path, AlternativesEmpty));
    }
    var normalized := NormalizeEach(v.value.items, cx, path, resolving, free);
    if normalized.Err? {
      return Err(normalized.error);
    }
    r := Ok(Some(Arr(normalized.value)));
  }

  method NormalizeEach(items: seq<Json>, cx: Context, path: seq<Key>, resolving: seq<string>, ghost free: bool)
    returns (r: Outcome<seq<Json>>)
    requires ItemsKnown(items, cx, free)
    ensures r == NormalizeItems(items, 0, cx, path, resolving, free)
    decreases Level(cx, resolving, free), ItemsSize(items), 3, |items|
  {
    hide Normalize, IsFree, Known, Remaining, Size;
    var result: seq<Json> := [];
    PrefixedNothing(NormalizeItems(items, 0, cx, path, resolving, free));
    assert items[0..] == items;
    for index := 0 to |items|
      invariant NormalizeItems(items, 0, cx, path, resolving, free) ==
                Prefixed(result, NormalizeItems(items[index..], index, cx, path, resolving, free))
    {
      assert items[index] in items && items[index..][0] == items[index] && items[index..][1..] == items[index + 1..];
      ItemSmaller(items, index);
      var normalized := NormalizeSchema(items[index], cx, path + [Name(Text.ToDecimal(index))], resolving);
      if normalized.Err? {
        return Err(normalized.error);
      }
      PrefixedOne(result, Obj(normalized.value), NormalizeItems(items[index + 1..], index + 1, cx, path, resolving, free));
      result := result + [Obj(normalized.value)];
    }
    assert items[|items|..] == [] && result + [] == result;
    r := Ok(result);
  }

  /** `normalize_tool_schema` */
  method NormalizeToolSchema(schema: Json, unquote: string -> Option<string>) returns (r: Outcome<Json>)
    ensures r == NormalizeTool(schema, unquote)
  {
    hide Normalize, Lookup;
    if !schema.Obj? {
      return Err(Fault([], SchemaNotObject));
    }
    if schema.fields == [] {
      return Ok(Obj(NO_ARGUMENTS));
    }
    var normalized := NormalizeSchema(schema, Context(schema, unquote, KeyOf), [], []);
    if normalized.Err? {
      return Err(normalized.error);
    }
    if Lookup(normalized.value, Type) != Some(Str("object")) {
      return Err(Fault([Type], RootNotObject));
    }
    r := Ok(Obj(normalized.value));
  }
}
