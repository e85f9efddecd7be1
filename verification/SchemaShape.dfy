/** The shape of every schema the normaliser accepts, and that normalising such
    a schema again changes nothing. The code relies on the second fact: after
    inlining a reference it runs its child passes over a result that has been
    through them already. */
module SchemaShape {
  import opened Wrappers
  import opened Json
  import opened SchemaNormalizer
  import Text

  // ---- The shape ----

  /** What the checks at the end of `_normalize_schema` leave behind. */
  predicate NodeOk(d: Dict) {
    && (forall f :: f in d ==> IsKept(f.key))
    && KeywordFault(d).None?
    && (Has(d, Type) ==> TypeOk(Lookup(d, Type).value))
    && (Has(d, Type) || Has(d, AnyOf))
  }

  /** A schema no node of which has a reference, definitions or an unsupported
      keyword, all of whose nodes pass the keyword checks and have a supported
      type or alternatives. */
  predicate IsNormal(j: Json)
    decreases Size(j), 1
  {
    if !j.Obj? then false else
    var node := NodeOf(j.fields);
    NodeSmaller(j.fields);
    && NodeOk(j.fields)
    && (node.properties.Some? && node.properties.value != Null ==>
          node.properties.value.Obj? && NormalFields(node.properties.value.fields))
    && (node.items.Some? ==> IsNormal(node.items.value))
    && (node.additional.Some? && !node.additional.value.Bool? ==> IsNormal(node.additional.value))
    && (node.alternatives.Some? && node.alternatives.value != Null ==>
          && node.alternatives.value.Arr? && node.alternatives.value.items != []
          && NormalItems(node.alternatives.value.items))
  }

  predicate NormalFields(fields: Dict)
    decreases DictSize(fields), 2
  {
    fields == [] || (IsNormal(fields[0].val) && NormalFields(fields[1..]))
  }

  predicate NormalItems(items: seq<Json>)
    decreases ItemsSize(items), 2, |items|
  {
    items == [] || (IsNormal(items[0]) && NormalItems(items[1..]))
  }

  lemma NoReferenceIsKept(d: Dict)
    requires NodeOk(d)
    ensures NodeOf(d).reference.None?
  {
    if Has(d, Ref) {
      LookupIsField(d, Ref);
    }
  }

  lemma {:induction false} NormalIsFree(j: Json)
    requires IsNormal(j)
    ensures IsFree(j)
    decreases Size(j), 1
  {
    hide NodeOf, NodeOk, Size;
    var node := NodeOf(j.fields);
    NodeSmaller(j.fields);
    NoReferenceIsKept(j.fields);
    if node.properties.Some? && node.properties.value.Obj? {
      NormalFieldsAreFree(node.properties.value.fields);
    }
    if node.items.Some? {
      NormalIsFree(node.items.value);
    }
    if node.additional.Some? && !node.additional.value.Bool? {
      NormalIsFree(node.additional.value);
    }
    if node.alternatives.Some? && node.alternatives.value.Arr? {
      NormalItemsAreFree(node.alternatives.value.items);
    }
  }

  lemma {:induction false} NormalFieldsAreFree(fields: Dict)
    requires NormalFields(fields)
    ensures FreeFields(fields)
    decreases DictSize(fields), 2
  {
    if fields != [] {
      NormalIsFree(fields[0].val);
      NormalFieldsAreFree(fields[1..]);
    }
  }

  lemma {:induction false} NormalItemsAreFree(items: seq<Json>)
    requires NormalItems(items)
    ensures FreeItems(items)
    decreases ItemsSize(items), 2, |items|
  {
    if items != [] {
      NormalIsFree(items[0]);
      NormalItemsAreFree(items[1..]);
    }
  }

  // ---- Accepted schemas are normal ----

  lemma {:induction false} FailingDependsOn(a: Dict, b: Dict, keywords: seq<Key>, passes: Json -> bool)
    requires forall k :: k in keywords ==> Lookup(a, k) == Lookup(b, k)
    ensures FirstFailing(a, keywords, passes) == FirstFailing(b, keywords, passes)
  {
    if keywords != [] {
      FailingDependsOn(a, b, keywords[1..], passes);
    }
  }

  lemma KeywordFaultDependsOn(a: Dict, b: Dict)
    requires forall k :: k !in {Type, Defs, Definitions} ==> Lookup(a, k) == Lookup(b, k)
    ensures KeywordFault(a) == KeywordFault(b)
  {
    hide FirstFailing, Lookup;
    FailingDependsOn(a, b, TEXT_KEYWORDS, IsText);
    FailingDependsOn(a, b, COUNT_KEYWORDS, IsCount);
    FailingDependsOn(a, b, BOUND_KEYWORDS, IsNumber);
  }

  lemma FinishedIsOk(d: Dict, path: seq<Key>)
    requires Finish(d, path).Ok?
    requires forall f :: f in d ==> IsKept(f.key) || f.key in DEFINITIONS
    ensures NodeOk(Finish(d, path).value)
  {
    hide Without, Put, Lookup, KeywordFault;
    KeywordFaultDependsOn(d, Finish(d, path).value);
  }

  lemma {:induction false} SupportedKeys(d: Dict)
    ensures FirstUnsupported(d).None? <==> forall f :: f in d ==> IsSupported(f.key)
  {
    if d != [] {
      SupportedKeys(d[1..]);
      assert forall f :: f in d <==> f == d[0] || f in d[1..];
    }
  }

  /** Every accepted output is normal. */
  lemma {:induction false} NormalizedIsNormal(schema: Json, cx: Context, path: seq<Key>, resolving: seq<string>)
    requires Known(schema, cx) && Normalize(schema, cx, path, resolving).Ok?
    ensures IsNormal(Obj(Normalize(schema, cx, path, resolving).value))
    decreases Level(cx, resolving, IsFree(schema)), Size(schema), 2
  {
    hide Normalize, NormalizeChildren, NodeOf, IsFree, IsNormal, Inline, Known, Level, Plain, FollowReference;
    if !Refers(NodeOf(schema.fields)) {
      PlainStep(schema, cx, path, resolving);
      PlainKeys(schema, cx, path, resolving);
      ChildrenAreNormal(Plain(schema.fields), cx, path, resolving);
    } else {
      var next := ReferenceStep(schema, cx, path, resolving);
      NormalizedIsNormal(Obj(next.target), cx, path, resolving + [next.pointer]);
      var resolved := Normalize(Obj(next.target), cx, path, resolving + [next.pointer]).value;
      NormalHasKeptKeys(resolved);
      InlinedKeys(resolved, Plain(schema.fields));
      ChildrenAreNormal(Inline(resolved, Plain(schema.fields)), cx, path, resolving);
    }
  }

  lemma NormalHasKeptKeys(d: Dict)
    requires IsNormal(Obj(d))
    ensures forall f :: f in d ==> IsKept(f.key)
  {
  }

  lemma InlinedKeys(resolved: Dict, plain: Dict)
    requires forall f :: f in resolved ==> IsKept(f.key)
    ensures forall f :: f in Inline(resolved, plain) ==> IsKept(f.key)
  {
    hide Update, Annotations;
  }

  lemma PlainKeys(schema: Json, cx: Context, path: seq<Key>, resolving: seq<string>)
    requires Known(schema, cx) && Normalize(schema, cx, path, resolving).Ok?
    ensures forall f :: f in Plain(schema.fields) ==> IsKept(f.key) || f.key in DEFINITIONS
  {
    hide NormalizeChildren, FollowReference, NodeOf, IsFree;
    SupportedKeys(Prepare(schema, path).value);
  }

  lemma {:induction false} ChildrenAreNormal(d: Dict, cx: Context, path: seq<Key>, resolving: seq<string>)
    requires Known(Obj(d), cx) && !Refers(NodeOf(d)) && NormalizeChildren(d, cx, path, resolving).Ok?
    requires forall f :: f in d ==> IsKept(f.key) || f.key in DEFINITIONS
    ensures IsNormal(Obj(NormalizeChildren(d, cx, path, resolving).value))
    decreases Level(cx, resolving, IsFree(Obj(d))), DictSize(d) + 1, 1
  {
    hide NodeOf, Normalize, NormalizeChildren, NormalizeFields, NormalizeItems, Assemble, Finish, IsFree, IsNormal, Size;
    var node := NodeOf(d);
    ghost var free := IsFree(Obj(d));
    NodeSmaller(d);
    ChildrenSteps(d, cx, path, resolving);
    var properties := NormalizeMap(node.properties, cx, path + [Properties], resolving, free).value;
    var items := NormalizeValue(node.items, cx, path + [Items], resolving, free).value;
    var additional :=
      if node.additional.Some? && node.additional.value.Bool? then None
      else NormalizeValue(node.additional, cx, path + [AdditionalProperties], resolving, free).value;
    var alternatives := NormalizeAlternatives(node.alternatives, cx, path + [AnyOf], resolving, free).value;
    if properties.Some? {
      FieldsAreNormal(node.properties.value.fields, cx, path + [Properties], resolving, free);
    }
    if items.Some? {
      NormalizedIsNormal(node.items.value, cx, path + [Items], resolving);
    }
    if additional.Some? {
      NormalizedIsNormal(node.additional.value, cx, path + [AdditionalProperties], resolving);
    }
    if alternatives.Some? {
      ItemsAreNormal(node.alternatives.value.items, 0, cx, path + [AnyOf], resolving, free);
    }
    AssembledIsNormal(d, properties, items, additional, alternatives, path);
  }

  lemma AssembledKeys(d: Dict, properties: Option<Json>, items: Option<Json>,
                      additional: Option<Json>, alternatives: Option<Json>)
    requires forall f :: f in d ==> IsKept(f.key) || f.key in DEFINITIONS
    ensures forall f :: f in Assemble(d, properties, items, additional, alternatives) ==>
              IsKept(f.key) || f.key in DEFINITIONS
  {
    hide Put, Lookup;
  }

  lemma AssembledIsNormal(d: Dict, properties: Option<Json>, items: Option<Json>,
                          additional: Option<Json>, alternatives: Option<Json>, path: seq<Key>)
    requires forall f :: f in d ==> IsKept(f.key) || f.key in DEFINITIONS
    requires if properties.Some? then properties.value.Obj? && NormalFields(properties.value.fields)
             else NodeOf(d).properties in {None, Some(Null)}
    requires if items.Some? then IsNormal(items.value) else NodeOf(d).items.None?
    requires if additional.Some? then IsNormal(additional.value)
             else NodeOf(d).additional.Some? ==> NodeOf(d).additional.value.Bool?
    requires if alternatives.Some? then alternatives.value.Arr? && alternatives.value.items != [] && NormalItems(alternatives.value.items)
             else NodeOf(d).alternatives in {None, Some(Null)}
    requires Finish(Assemble(d, properties, items, additional, alternatives), path).Ok?
    ensures IsNormal(Obj(Finish(Assemble(d, properties, items, additional, alternatives), path).value))
  {
    hide Finish, Put, Lookup, NodeOk, NodeOf, Assemble, Size;
    var whole := Assemble(d, properties, items, additional, alternatives);
    NodeOfAssembled(d, properties, items, additional, alternatives);
    NodeOfFinished(whole, path);
    AssembledKeys(d, properties, items, additional, alternatives);
    FinishedIsOk(whole, path);
  }

  lemma {:induction false} FieldsAreNormal(fields: Dict, cx: Context, path: seq<Key>, resolving: seq<string>,
                                           free: bool)
    requires FieldsKnown(fields, cx, free) && NormalizeFields(fields, cx, path, resolving, free).Ok?
    ensures NormalFields(NormalizeFields(fields, cx, path, resolving, free).value)
    decreases Level(cx, resolving, free), DictSize(fields), 3
  {
    if fields != [] {
      NormalizedIsNormal(fields[0].val, cx, path + [fields[0].key], resolving);
      FieldsAreNormal(fields[1..], cx, path, resolving, free);
    }
  }

  lemma {:induction false} ItemsAreNormal(items: seq<Json>, index: nat, cx: Context, path: seq<Key>,
                                          resolving: seq<string>, free: bool)
    requires ItemsKnown(items, cx, free) && NormalizeItems(items, index, cx, path, resolving, free).Ok?
    ensures NormalItems(NormalizeItems(items, index, cx, path, resolving, free).value)
    decreases Level(cx, resolving, free), ItemsSize(items), 3, |items|
  {
    if items != [] {
      NormalizedIsNormal(items[0], cx, path + [Name(Text.ToDecimal(index))], resolving);
      ItemsAreNormal(items[1..], index + 1, cx, path, resolving, free);
    }
  }

  // ---- Normal schemas are fixed points ----

  /** Normalising a normal schema gives it back, whatever document and path it is
      normalised with. */
  lemma {:induction false} NormalIsFixed(j: Json, cx: Context, path: seq<Key>, resolving: seq<string>)
    requires IsNormal(j)
    ensures IsFree(j) && Normalize(j, cx, path, resolving) == Ok(j.fields)
    decreases Size(j), 2
  {
    hide NormalizeChildren, Without, FirstUnsupported, IsFree, KeywordFault, Level, NodeOf, Lookup;
    var d := j.fields;
    NormalIsFree(j);
    NoReferenceIsKept(d);
    SupportedKeys(d);
    WithoutAbsent(d, IGNORED);
    WithoutAbsent(d, {Ref});
    ChildrenAreFixed(d, cx, path, resolving);
  }

  lemma {:induction false} ChildrenAreFixed(d: Dict, cx: Context, path: seq<Key>, resolving: seq<string>)
    requires IsNormal(Obj(d)) && IsFree(Obj(d))
    ensures NormalizeChildren(d, cx, path, resolving) == Ok(d)
    decreases Size(Obj(d)), 1
  {
    hide NodeOf, NodeOk, Normalize, NormalizeFields, NormalizeItems, Assemble, Finish, IsFree, Level, Size;
    var node := NodeOf(d);
    NodeSmaller(d);
    ChildrenAreKnown(d, cx);
    NoReferenceIsKept(d);
    if node.properties.Some? && node.properties.value.Obj? {
      FieldsAreFixed(node.properties.value.fields, cx, path + [Properties], resolving);
    }
    if node.items.Some? {
      NormalIsFixed(node.items.value, cx, path + [Items], resolving);
    }
    if node.additional.Some? && !node.additional.value.Bool? {
      NormalIsFixed(node.additional.value, cx, path + [AdditionalProperties], resolving);
    }
    if node.alternatives.Some? && node.alternatives.value.Arr? {
      ItemsAreFixed(node.alternatives.value.items, 0, cx, path + [AnyOf], resolving);
    }
    AssembleSame(d);
    FinishSame(d, path);
  }

  lemma NormalIsObject(j: Json)
    requires IsNormal(j)
    ensures j.Obj?
  {
  }

  lemma {:induction false} FieldsAreFixed(fields: Dict, cx: Context, path: seq<Key>, resolving: seq<string>)
    requires NormalFields(fields)
    ensures FieldsKnown(fields, cx, true) && NormalizeFields(fields, cx, path, resolving, true) == Ok(fields)
    decreases DictSize(fields), 3
  {
    hide Normalize, IsFree, IsNormal, Level, Mentions, FreeFields;
    NormalFieldsAreFree(fields);
    FreeFieldsEach(fields);
    if fields != [] {
      NormalIsFixed(fields[0].val, cx, path + [fields[0].key], resolving);
      FieldsAreFixed(fields[1..], cx, path, resolving);
      assert fields[0].val.Obj? by { NormalIsObject(fields[0].val); }
      assert fields == [Field(fields[0].key, fields[0].val)] + fields[1..];
    }
  }

  lemma {:induction false} ItemsAreFixed(items: seq<Json>, index: nat, cx: Context, path: seq<Key>, resolving: seq<string>)
    requires NormalItems(items)
    ensures ItemsKnown(items, cx, true) && NormalizeItems(items, index, cx, path, resolving, true) == Ok(items)
    decreases ItemsSize(items), 3, |items|
  {
    hide Normalize, IsFree, IsNormal, Level, Mentions, FreeItems;
    NormalItemsAreFree(items);
    FreeItemsEach(items);
    if items != [] {
      NormalIsFixed(items[0], cx, path + [Name(Text.ToDecimal(index))], resolving);
      ItemsAreFixed(items[1..], index + 1, cx, path, resolving);
      assert items[0].Obj? by { NormalIsObject(items[0]); }
      assert items == [items[0]] + items[1..];
    }
  }

  /** Writing back what is there already. */
  lemma AssembleSame(d: Dict)
    ensures forall p, i, a, o |
              && p in {None, NodeOf(d).properties} && i in {None, NodeOf(d).items}
              && a in {None, NodeOf(d).additional} && o in {None, NodeOf(d).alternatives} ::
              Assemble(d, p, i, a, o) == d
  {
    hide Put, Lookup;
    forall k | Has(d, k) ensures Put(d, k, Lookup(d, k).value) == d {
      PutSame(d, k);
    }
  }

  lemma FinishSame(d: Dict, path: seq<Key>)
    requires NodeOk(d)
    ensures Finish(d, path) == Ok(d)
  {
    hide Without, KeywordFault, Lookup;
    WithoutAbsent(d, DEFINITIONS);
  }

  // ---- Whole tools ----

  /** Every accepted tool schema is normal with a root of type object. */
  lemma ToolIsNormal(schema: Json, unquote: string -> Option<string>)
    requires NormalizeTool(schema, unquote).Ok?
    ensures var out := NormalizeTool(schema, unquote).value;
            IsNormal(out) && Lookup(out.fields, Type) == Some(Str("object"))
  {
    if schema.fields == [] {
      NoArgumentsIsNormal();
      NoArgumentsLookup(Type);
    } else {
      NormalizedIsNormal(schema, Context(schema, unquote, KeyOf), [], []);
    }
  }

  lemma {:induction false} AbsentPasses(d: Dict, keywords: seq<Key>, passes: Json -> bool)
    requires forall k :: k in keywords ==> !Has(d, k)
    ensures FirstFailing(d, keywords, passes).None?
  {
    if keywords != [] {
      AbsentPasses(d, keywords[1..], passes);
    }
  }

  lemma {:induction false} KeysOf(d: Dict, k: Key)
    requires forall f :: f in d ==> f.key != k
    ensures !Has(d, k)
  {
    if d != [] {
      KeysOf(d[1..], k);
    }
  }

  lemma ObjectIsType()
    ensures TypeOk(Str("object"))
  {
  }

  lemma NoArgumentsLookup(k: Key)
    ensures Lookup(NO_ARGUMENTS, k) ==
            if k == Type then Some(Str("object")) else if k == Properties then Some(Obj([])) else None
  {
    assert NO_ARGUMENTS[1..] == [Field(Properties, Obj([]))];
    if k != Type && k != Properties {
      KeysOf(NO_ARGUMENTS, k);
    }
  }

  lemma NoArgumentsPasses()
    ensures KeywordFault(NO_ARGUMENTS).None?
  {
    hide Lookup, FirstFailing;
    NoArgumentsLookup(Required);
    NoArgumentsLookup(Enum);
    forall k ensures Has(NO_ARGUMENTS, k) ==> k == Type || k == Properties { NoArgumentsLookup(k); }
    AbsentPasses(NO_ARGUMENTS, TEXT_KEYWORDS, IsText);
    AbsentPasses(NO_ARGUMENTS, COUNT_KEYWORDS, IsCount);
    AbsentPasses(NO_ARGUMENTS, BOUND_KEYWORDS, IsNumber);
  }

  lemma NoArgumentsIsNormal()
    ensures IsNormal(Obj(NO_ARGUMENTS))
  {
    hide Lookup, KeywordFault, TypeOk, Size;
    ObjectIsType();
    NoArgumentsPasses();
    NoArgumentsLookup(Type);
    NoArgumentsLookup(Properties);
    NoArgumentsLookup(Items);
    NoArgumentsLookup(AdditionalProperties);
    NoArgumentsLookup(AnyOf);
  }

  /** Normalising an accepted tool schema again changes nothing. */
  lemma ToolIsFixed(schema: Json, unquote: string -> Option<string>, again: string -> Option<string>)
    requires NormalizeTool(schema, unquote).Ok?
    ensures NormalizeTool(NormalizeTool(schema, unquote).value, again) == NormalizeTool(schema, unquote)
  {
    ToolIsNormal(schema, unquote);
    var out := NormalizeTool(schema, unquote).value;
    NormalIsFixed(out, Context(out, again, KeyOf), [], []);
  }
}
