/** Exactly which schemas the normaliser accepts: those each node of which passes the checks
    as it is written, with references followed to where they end. Nothing is refused because
    of the second pass over inlined results, and "cyclic" is said of schemas that never end. */
module SchemaChecks {
  import opened Wrappers
  import opened Json
  import opened SchemaNormalizer
  import opened SchemaShape
  import SchemaMeaning
  import JsonPointer
  import Text

  // ---- What one node may say ----

  /** The keywords all providers support, and the annotations that are dropped. */
  predicate IsCommon(k: Key) {
    match k
    case Default | Description | Title | Example => true
    case Comment | Deprecated | Examples | ReadOnly | WriteOnly => true
    case Properties | AdditionalProperties | Items | AnyOf => true
    case Defs | Ref | SchemaUri | Definitions | Enum | Format | Pattern | Required | Type => true
    case MaxItems | MaxLength | MaxProperties | Maximum | MinItems | MinLength | MinProperties | Minimum => true
    case OneOf | AllOf | Name(_) => false
  }

  predicate KeysFit(d: Dict) { forall f :: f in d ==> IsCommon(f.key) }

  /** What a checked keyword may hold. */
  predicate ValueFits(k: Key, v: Json) {
    match k
    case Required =>
      v.Null? || (v.Arr? && (forall i :: 0 <= i < |v.items| ==> v.items[i].Str?)
                  && forall i, j :: 0 <= i < j < |v.items| ==> v.items[i] != v.items[j])
    case Enum => v.Null? || (v.Arr? && |v.items| > 0 && forall i :: 0 <= i < |v.items| ==> v.items[i].Str?)
    case Title | Description | Format | Pattern | SchemaUri => v.Str?
    case MinItems | MaxItems | MinLength | MaxLength | MinProperties | MaxProperties => v.Int? && v.i >= 0
    case Minimum | Maximum => v.Int? || v.Float?
    case _ => true
  }

  ghost predicate KeywordsFit(d: Dict) { forall k :: Has(d, k) ==> ValueFits(k, Lookup(d, k).value) }

  predicate IsTypeWord(s: string) {
    s == "array" || s == "boolean" || s == "integer" || s == "number" || s == "object" || s == "string"
  }

  /** One type, or one type and "null" in either order. */
  predicate TypeFits(v: Json) {
    match v
    case Str(s) => IsTypeWord(s)
    case Arr(items) =>
      && |items| == 2 && items[0].Str? && items[1].Str?
      && ((IsTypeWord(items[0].s) && items[1].s == "null") || (items[0].s == "null" && IsTypeWord(items[1].s)))
    case _ => false
  }

  /** A node without a reference, apart from the schemas below it. */
  ghost predicate NodeFits(d: Dict) {
    && KeysFit(d) && KeywordsFit(d)
    && (Has(d, Type) ==> TypeFits(Lookup(d, Type).value))
    && (Has(d, Type) || Has(d, AnyOf) || Has(d, Properties) || Has(d, AdditionalProperties) || Has(d, Items) || Has(d, Enum))
  }

  /** A node with a reference says nothing else but annotations, which must fit too, and
      definitions. */
  ghost predicate ReferenceFits(d: Dict) {
    && (forall f :: f in d ==> f.key == Ref || f.key in IGNORED || f.key in ANNOTATIONS || f.key in DEFINITIONS)
    && KeywordsFit(Last(Annotations(d)))
  }

  // ---- Whole schemas ----

  /** Every node fits, down to where the references end, of which at most `fuel` are
      followed one inside the other. */
  ghost predicate Fits(cx: Context, schema: Json, fuel: nat)
    decreases fuel, Size(schema), 1
  {
    if !schema.Obj? then false else
    var d := schema.fields;
    var node := NodeOf(d);
    NodeSmaller(d);
    if Refers(node) then
      ReferenceFits(d) && fuel > 0 && SchemaMeaning.Target(cx, node).Some? &&
      Fits(cx, Obj(SchemaMeaning.Target(cx, node).value), fuel - 1)
    else
      && NodeFits(d)
      && (node.properties.Some? && node.properties.value != Null ==>
            node.properties.value.Obj? && FitsFields(cx, node.properties.value.fields, fuel))
      && (node.items.Some? ==> Fits(cx, node.items.value, fuel))
      && (node.additional.Some? && !node.additional.value.Bool? ==> Fits(cx, node.additional.value, fuel))
      && (node.alternatives.Some? && node.alternatives.value != Null ==>
            node.alternatives.value.Arr? && node.alternatives.value.items != [] &&
            FitsItems(cx, node.alternatives.value.items, fuel))
  }

  ghost predicate FitsFields(cx: Context, fields: Dict, fuel: nat)
    decreases fuel, DictSize(fields), 2
  {
    fields == [] || (Fits(cx, fields[0].val, fuel) && FitsFields(cx, fields[1..], fuel))
  }

  ghost predicate FitsItems(cx: Context, items: seq<Json>, fuel: nat)
    decreases fuel, ItemsSize(items), 2, |items|
  {
    items == [] || (Fits(cx, items[0], fuel) && FitsItems(cx, items[1..], fuel))
  }

  // ---- The code's checks are these ----

  lemma {:induction false} NoneFails(d: Dict, keywords: seq<Key>, passes: Json -> bool)
    ensures FirstFailing(d, keywords, passes).None? <==>
            forall k :: k in keywords && Has(d, k) ==> passes(Lookup(d, k).value)
  {
    if keywords != [] {
      NoneFails(d, keywords[1..], passes);
      assert forall k :: k in keywords <==> k == keywords[0] || k in keywords[1..];
    }
  }

  lemma GroupFits(d: Dict, keywords: seq<Key>, passes: Json -> bool)
    requires forall k, v :: k in keywords ==> passes(v) == ValueFits(k, v)
    ensures FirstFailing(d, keywords, passes).None? <==>
            forall k :: k in keywords && Has(d, k) ==> ValueFits(k, Lookup(d, k).value)
  {
    hide Lookup, FirstFailing, ValueFits;
    NoneFails(d, keywords, passes);
  }

  lemma TextsFit(d: Dict)
    ensures FirstFailing(d, TEXT_KEYWORDS, IsText).None? <==>
            forall k :: k in TEXT_KEYWORDS && Has(d, k) ==> ValueFits(k, Lookup(d, k).value)
  {
    hide Lookup, FirstFailing;
    GroupFits(d, TEXT_KEYWORDS, IsText);
  }

  lemma CountsFit(d: Dict)
    ensures FirstFailing(d, COUNT_KEYWORDS, IsCount).None? <==>
            forall k :: k in COUNT_KEYWORDS && Has(d, k) ==> ValueFits(k, Lookup(d, k).value)
  {
    hide Lookup, FirstFailing;
    GroupFits(d, COUNT_KEYWORDS, IsCount);
  }

  lemma BoundsFit(d: Dict)
    ensures FirstFailing(d, BOUND_KEYWORDS, IsNumber).None? <==>
            forall k :: k in BOUND_KEYWORDS && Has(d, k) ==> ValueFits(k, Lookup(d, k).value)
  {
    hide Lookup, FirstFailing;
    GroupFits(d, BOUND_KEYWORDS, IsNumber);
  }

  lemma ListsFit(d: Dict)
    ensures RequiredOk(d) <==> (Has(d, Required) ==> ValueFits(Required, Lookup(d, Required).value))
    ensures EnumOk(d) <==> (Has(d, Enum) ==> ValueFits(Enum, Lookup(d, Enum).value))
  {
    hide Lookup;
  }

  /** `_validate_keyword_values` finds no fault exactly in these cases. */
  lemma KeywordsFitIffChecked(d: Dict)
    ensures KeywordFault(d).None? <==> KeywordsFit(d)
  {
    hide Lookup, FirstFailing, RequiredOk, EnumOk, ValueFits;
    TextsFit(d);
    CountsFit(d);
    BoundsFit(d);
    ListsFit(d);
    if KeywordFault(d).None? {
      forall k | Has(d, k) ensures ValueFits(k, Lookup(d, k).value) {
        InSomeList(k, Lookup(d, k).value);
      }
    }
  }

  lemma InSomeList(k: Key, v: Json)
    ensures k == Required || k == Enum || k in TEXT_KEYWORDS || k in COUNT_KEYWORDS || k in BOUND_KEYWORDS || ValueFits(k, v)
  {
    ListsAreChecked();
  }

  lemma ListsAreChecked()
    ensures forall k :: k in TEXT_KEYWORDS <==> k == Title || k == Description || k == Format || k == Pattern || k == SchemaUri
    ensures forall k :: k in COUNT_KEYWORDS <==>
              k == MinItems || k == MaxItems || k == MinLength || k == MaxLength || k == MinProperties || k == MaxProperties
    ensures forall k :: k in BOUND_KEYWORDS <==> k == Minimum || k == Maximum
  {
  }

  /** `_validate_type` passes exactly these. */
  lemma TypeFitsIffOk(v: Json)
    ensures TypeOk(v) <==> TypeFits(v)
  {
    if v.Arr? && |v.items| == 2 {
      assert v.items[1..][0] == v.items[1] && v.items[1..][1..] == [];
      assert CountTypeNames(v.items[1..]) == if IsTypeName(v.items[1]) then 1 else 0;
      assert forall j: Json :: IsTypeName(j) <==> j.Str? && IsTypeWord(j.s);
      assert Str("null") in v.items <==> v.items[0] == Str("null") || v.items[1] == Str("null");
    }
  }

  lemma KeysFitIffSupported(d: Dict)
    ensures FirstUnsupported(Without(d, IGNORED)).None? <==> KeysFit(d)
  {
    hide Without, FirstUnsupported;
    SupportedKeys(Without(d, IGNORED));
    assert forall k: Key :: IsCommon(k) <==> IsSupported(k);
    assert forall k: Key :: k in IGNORED ==> IsCommon(k);
  }

  /** The checks at the end are about the node as it is written: the passes before them change
      no keyword that is checked, and take none away. */
  lemma FinishedIffFits(d: Dict, properties: Option<Json>, items: Option<Json>, additional: Option<Json>,
                        alternatives: Option<Json>, path: seq<Key>)
    requires KeysFit(d) && SchemaMeaning.Rewritten(Plain(d), properties, items, additional, alternatives)
    ensures Finish(Assemble(Plain(d), properties, items, additional, alternatives), path).Ok? <==> NodeFits(d)
  {
    hide Without, Lookup, Put, KeywordFault, KeywordsFit, TypeOk, TypeFits, Assemble, NodeOf, InferType, KeysFit, Plain, ValueFits;
    var whole := Assemble(Plain(d), properties, items, additional, alternatives);
    NodeOfAssembled(Plain(d), properties, items, additional, alternatives);
    PlainLookup(d, Type);
    PlainLookup(d, Enum);
    PlacesKept(d, properties, items, additional, alternatives);
    KeywordsFitIffChecked(whole);
    CheckedLookups(d, properties, items, additional, alternatives);
    SameKeywordsFit(whole, d);
    if Has(d, Type) { TypeFitsIffOk(Lookup(d, Type).value); }
    InferredIffImplied(whole);
  }

  lemma CheckedLookups(d: Dict, properties: Option<Json>, items: Option<Json>, additional: Option<Json>, alternatives: Option<Json>)
    ensures var whole := Assemble(Plain(d), properties, items, additional, alternatives);
            forall k, v :: !ValueFits(k, v) ==> Lookup(whole, k) == Lookup(d, k)
  {
    hide Assemble, Plain, Lookup;
    PlainLookups(d);
    NodeOfAssembled(Plain(d), properties, items, additional, alternatives);
  }

  lemma PlainLookups(d: Dict)
    ensures forall k :: k != Ref && k !in IGNORED ==> Lookup(Plain(d), k) == Lookup(d, k)
    ensures NodeOf(Plain(d)) == NodeOf(d).(reference := None)
  {
    hide Without, Lookup;
    NodeOfPlain(d);
  }

  lemma PlacesKept(d: Dict, properties: Option<Json>, items: Option<Json>, additional: Option<Json>, alternatives: Option<Json>)
    requires SchemaMeaning.Rewritten(Plain(d), properties, items, additional, alternatives)
    ensures var whole := Assemble(Plain(d), properties, items, additional, alternatives);
            && Has(whole, Properties) == Has(d, Properties) && Has(whole, Items) == Has(d, Items)
            && Has(whole, AdditionalProperties) == Has(d, AdditionalProperties) && Has(whole, AnyOf) == Has(d, AnyOf)
  {
    hide Assemble, Plain, Lookup;
    PlainLookups(d);
    NodeOfAssembled(Plain(d), properties, items, additional, alternatives);
  }

  lemma InferredIffImplied(d: Dict)
    ensures InferType(d).Some? <==> Has(d, Properties) || Has(d, AdditionalProperties) || Has(d, Items) || Has(d, Enum)
  {
    hide Lookup;
  }

  lemma SameKeywordsFit(a: Dict, b: Dict)
    requires forall k, v :: !ValueFits(k, v) ==> Lookup(a, k) == Lookup(b, k)
    ensures KeywordsFit(a) == KeywordsFit(b)
  {
    hide Lookup, ValueFits;
  }

  // ---- What is normalised fits ----

  lemma {:induction false} NormalizedFits(schema: Json, cx: Context, path: seq<Key>, resolving: seq<string>, n: nat)
    requires Known(schema, cx) && Normalize(schema, cx, path, resolving).Ok? && n >= Remaining(cx, resolving)
    ensures Fits(cx, schema, n)
    decreases Level(cx, resolving, IsFree(schema)), Size(schema), 2
  {
    hide Normalize, NormalizeChildren, Fits, IsFree, Known, Level, Plain, FollowReference, NodeOf, Remaining, NodeFits, Inline,
         ReferenceFits, PlacesFit, KeysFit, SchemaMeaning.Target;
    var d := schema.fields;
    if !Refers(NodeOf(d)) {
      PlainStep(schema, cx, path, resolving);
      KeysAreChecked(schema, cx, path, resolving);
      PlainLookups(d);
      ChildrenFit(d, cx, path, resolving, n);
      FitsHere(cx, d, n);
    } else {
      var next := ReferenceStep(schema, cx, path, resolving);
      SchemaMeaning.FollowedShrinks(schema, cx, path, resolving, next);
      NormalizedFits(Obj(next.target), cx, path, resolving + [next.pointer], n - 1);
      ReferenceIsChecked(schema, cx, path, resolving, next);
      FollowedTarget(cx, d, path, resolving, next);
      FitsThere(cx, d, n);
    }
  }

  lemma KeysAreChecked(schema: Json, cx: Context, path: seq<Key>, resolving: seq<string>)
    requires Known(schema, cx) && Normalize(schema, cx, path, resolving).Ok?
    ensures schema.Obj? && KeysFit(schema.fields)
  {
    hide NormalizeChildren, NormalizeReference, NodeOf, Plain, KeysFit, Known, Without;
    KeysFitIffSupported(schema.fields);
  }

  /** What `Fits` says of a node without a reference. */
  lemma FitsHere(cx: Context, d: Dict, n: nat)
    requires !Refers(NodeOf(d))
    ensures Fits(cx, Obj(d), n) <==> NodeFits(d) && PlacesFit(cx, NodeOf(d), n)
  {
    hide NodeFits, NodeOf, Size;
  }

  ghost predicate PlacesFit(cx: Context, node: Node, n: nat) {
    && (node.properties.Some? && node.properties.value != Null ==>
          node.properties.value.Obj? && FitsFields(cx, node.properties.value.fields, n))
    && (node.items.Some? ==> Fits(cx, node.items.value, n))
    && (node.additional.Some? && !node.additional.value.Bool? ==> Fits(cx, node.additional.value, n))
    && (node.alternatives.Some? && node.alternatives.value != Null ==>
          node.alternatives.value.Arr? && node.alternatives.value.items != [] && FitsItems(cx, node.alternatives.value.items, n))
  }

  lemma FitsThere(cx: Context, d: Dict, n: nat)
    requires Refers(NodeOf(d))
    ensures Fits(cx, Obj(d), n) <==>
              ReferenceFits(d) && n > 0 && SchemaMeaning.Target(cx, NodeOf(d)).Some? &&
              Fits(cx, Obj(SchemaMeaning.Target(cx, NodeOf(d)).value), n - 1)
  {
    hide ReferenceFits, NodeOf, SchemaMeaning.Target, Size;
  }

  lemma FollowedTarget(cx: Context, d: Dict, path: seq<Key>, resolving: seq<string>, next: Next)
    requires Refers(NodeOf(d)) && FollowReference(NodeOf(d).reference.value, cx, path + [Ref], resolving) == Ok(next)
    ensures SchemaMeaning.Target(cx, NodeOf(d)) == Some(next.target)
  {
    hide FollowReference, NodeOf;
  }

  lemma {:induction false} ChildrenFit(d: Dict, cx: Context, path: seq<Key>, resolving: seq<string>, n: nat)
    requires Known(Obj(Plain(d)), cx) && !Refers(NodeOf(Plain(d))) && NormalizeChildren(Plain(d), cx, path, resolving).Ok?
    requires !Refers(NodeOf(d)) && KeysFit(d) && n >= Remaining(cx, resolving)
    ensures NodeFits(d) && PlacesFit(cx, NodeOf(d), n)
    decreases Level(cx, resolving, IsFree(Obj(Plain(d)))), DictSize(Plain(d)) + 1, 1
  {
    hide NodeOf, Normalize, NormalizeChildren, NormalizeFields, NormalizeItems, Assemble, Finish, IsFree, Fits, Size, Plain, Known,
         Remaining, KeysFit, NodeFits, Level;
    var plain := Plain(d);
    var node := NodeOf(plain);
    ghost var free := IsFree(Obj(plain));
    NodeSmaller(plain);
    PlainLookups(d);
    ChildrenSteps(plain, cx, path, resolving);
    if node.properties.Some? && node.properties.value != Null {
      FieldsFit(node.properties.value.fields, cx, path + [Properties], resolving, free, n);
    }
    LevelOf(cx, resolving, node, free);
    if node.items.Some? {
      NormalizedFits(node.items.value, cx, path + [Items], resolving, n);
    }
    if node.additional.Some? && !node.additional.value.Bool? {
      NormalizedFits(node.additional.value, cx, path + [AdditionalProperties], resolving, n);
    }
    if node.alternatives.Some? && node.alternatives.value != Null {
      ItemsFit(node.alternatives.value.items, 0, cx, path + [AnyOf], resolving, free, n);
    }
    SchemaMeaning.PassesRewrite(plain, cx, path, resolving);
    FinishedIffFits(d, NormalizeMap(node.properties, cx, path + [Properties], resolving, free).value,
                    NormalizeValue(node.items, cx, path + [Items], resolving, free).value,
                    if node.additional.Some? && node.additional.value.Bool? then None
                    else NormalizeValue(node.additional, cx, path + [AdditionalProperties], resolving, free).value,
                    NormalizeAlternatives(node.alternatives, cx, path + [AnyOf], resolving, free).value, path);
  }

  /** A free node's places are free. */
  lemma LevelOf(cx: Context, resolving: seq<string>, node: Node, free: bool)
    requires NodeKnown(node, cx, free)
    ensures node.items.Some? ==> Level(cx, resolving, IsFree(node.items.value)) <= Level(cx, resolving, free)
    ensures node.additional.Some? ==> Level(cx, resolving, IsFree(node.additional.value)) <= Level(cx, resolving, free)
  {
    hide IsFree, Remaining, Known;
  }

  lemma {:induction false} FieldsFit(fields: Dict, cx: Context, path: seq<Key>, resolving: seq<string>, free: bool, n: nat)
    requires FieldsKnown(fields, cx, free) && NormalizeFields(fields, cx, path, resolving, free).Ok?
    requires n >= Remaining(cx, resolving)
    ensures FitsFields(cx, fields, n)
    decreases Level(cx, resolving, free), DictSize(fields), 3
  {
    hide Fits, Remaining;
    if fields != [] {
      NormalizedFits(fields[0].val, cx, path + [fields[0].key], resolving, n);
      FieldsFit(fields[1..], cx, path, resolving, free, n);
    }
  }

  lemma {:induction false} ItemsFit(items: seq<Json>, index: nat, cx: Context, path: seq<Key>, resolving: seq<string>, free: bool, n: nat)
    requires ItemsKnown(items, cx, free) && NormalizeItems(items, index, cx, path, resolving, free).Ok?
    requires n >= Remaining(cx, resolving)
    ensures FitsItems(cx, items, n)
    decreases Level(cx, resolving, free), ItemsSize(items), 3, |items|
  {
    hide Fits, Remaining;
    if items != [] {
      NormalizedFits(items[0], cx, path + [Name(Text.ToDecimal(index))], resolving, n);
      ItemsFit(items[1..], index + 1, cx, path, resolving, free, n);
    }
  }

  // ---- Nodes with a reference ----

  /** A keyword under which no schema stands. */
  predicate IsPlain(k: Key) { k != Properties && k != Items && k != AdditionalProperties && k != AnyOf }

  lemma {:induction false} WithoutKeepsAnnotations(d: Dict, ks: set<Key>)
    requires ks !! ANNOTATIONS
    ensures Annotations(Without(d, ks)) == Annotations(d)
  {
    if d != [] {
      WithoutKeepsAnnotations(d[1..], ks);
      var rest := Without(d[1..], ks);
      assert ([d[0]] + rest)[1..] == rest;
    }
  }

  lemma PlainKeepsAnnotations(d: Dict)
    ensures Annotations(Plain(d)) == Annotations(d)
  {
    hide Without, Annotations;
    WithoutKeepsAnnotations(d, IGNORED);
    WithoutKeepsAnnotations(Without(d, IGNORED), {Ref});
  }

  lemma OnlyAnnotationsBeside(d: Dict)
    ensures (forall f :: f in Plain(d) ==> f.key in ANNOTATIONS + DEFINITIONS) <==>
            forall f :: f in d ==> f.key == Ref || f.key in IGNORED || f.key in ANNOTATIONS || f.key in DEFINITIONS
  {
    hide Without;
    assert forall f :: f in Plain(d) <==> f in d && f.key !in IGNORED && f.key != Ref;
  }

  /** The last check on an inlined node is about its annotations. */
  lemma InlinedTexts(resolved: Dict, d: Dict, cx: Context, path: seq<Key>, resolving: seq<string>)
    requires var inlined := Inline(resolved, Plain(d));
             Known(Obj(inlined), cx) && !Refers(NodeOf(inlined)) && NormalizeChildren(inlined, cx, path, resolving).Ok?
    ensures KeywordsFit(Last(Annotations(d)))
  {
    hide NodeOf, Normalize, NormalizeChildren, NormalizeMap, NormalizeValue, NormalizeAlternatives, IsFree, Known, Lookup, Last,
         Update, Annotations, Plain, Assemble, Without, Put, KeywordFault, TypeOk, InferType, ValueFits;
    var inlined := Inline(resolved, Plain(d));
    var node := NodeOf(inlined);
    ghost var free := IsFree(Obj(inlined));
    ChildrenSteps(inlined, cx, path, resolving);
    var properties := NormalizeMap(node.properties, cx, path + [Properties], resolving, free).value;
    var items := NormalizeValue(node.items, cx, path + [Items], resolving, free).value;
    var additional := if node.additional.Some? && node.additional.value.Bool? then None
                      else NormalizeValue(node.additional, cx, path + [AdditionalProperties], resolving, free).value;
    var alternatives := NormalizeAlternatives(node.alternatives, cx, path + [AnyOf], resolving, free).value;
    var whole := Assemble(inlined, properties, items, additional, alternatives);
    NodeOfAssembled(inlined, properties, items, additional, alternatives);
    KeywordsFitIffChecked(whole);
    PlainKeepsAnnotations(d);
    AnnotationsFit(whole, resolved, Annotations(d));
  }

  lemma AnnotationsFit(whole: Dict, resolved: Dict, annotations: Dict)
    requires KeywordsFit(whole) && forall f :: f in annotations ==> f.key in ANNOTATIONS
    requires forall k :: IsPlain(k) ==> Lookup(whole, k) == Lookup(Update(resolved, annotations), k)
    ensures KeywordsFit(Last(annotations))
  {
    hide Lookup, Update, Last, ValueFits;
    OnlyAnnotations(annotations);
    forall k | Has(Last(annotations), k) ensures ValueFits(k, Lookup(Last(annotations), k).value) {
      assert k in ANNOTATIONS && IsPlain(k);
      assert Lookup(whole, k) == Lookup(Last(annotations), k);
    }
  }

  lemma ReferenceIsChecked(schema: Json, cx: Context, path: seq<Key>, resolving: seq<string>, next: Next)
    requires Known(schema, cx) && Normalize(schema, cx, path, resolving).Ok? && Refers(NodeOf(schema.fields))
    requires forall f :: f in Plain(schema.fields) ==> f.key in ANNOTATIONS + DEFINITIONS
    requires Known(Obj(next.target), cx) && Normalize(Obj(next.target), cx, path, resolving + [next.pointer]).Ok?
    requires var resolved := Normalize(Obj(next.target), cx, path, resolving + [next.pointer]).value;
             var inlined := Inline(resolved, Plain(schema.fields));
             && Known(Obj(inlined), cx) && !Refers(NodeOf(inlined))
             && Normalize(schema, cx, path, resolving) == NormalizeChildren(inlined, cx, path, resolving)
    ensures ReferenceFits(schema.fields)
  {
    hide Normalize, NormalizeChildren, NodeOf, Known, Plain, Inline, Lookup, Last, Annotations, KeywordsFit;
    OnlyAnnotationsBeside(schema.fields);
    var resolved := Normalize(Obj(next.target), cx, path, resolving + [next.pointer]).value;
    InlinedTexts(resolved, schema.fields, cx, path, resolving);
  }

  // ---- What fits is normalised ----

  /** No pointer that is being resolved leads to a schema that fits with less. So following
      one of them again would never end. */
  ghost predicate Unentered(cx: Context, resolving: seq<string>, n: nat) {
    forall p, m: nat :: p in resolving && m < n ==> !LeadsToFitting(cx, p, m)
  }

  ghost predicate LeadsToFitting(cx: Context, pointer: string, n: nat) {
    pointer != "" && JsonPointer.Resolve(cx.doc, pointer, cx.keyOf).Ok? &&
    Fits(cx, Obj(JsonPointer.Resolve(cx.doc, pointer, cx.keyOf).value), n)
  }

  /** A fitting schema is fitted by some least number of references. */
  lemma {:induction false} Least(cx: Context, pointer: string, n: nat) returns (least: nat)
    requires LeadsToFitting(cx, pointer, n)
    ensures least <= n && LeadsToFitting(cx, pointer, least) && forall m: nat :: m < least ==> !LeadsToFitting(cx, pointer, m)
  {
    hide LeadsToFitting;
    if m: nat :| m < n && LeadsToFitting(cx, pointer, m) {
      least := Least(cx, pointer, m);
    } else {
      least := n;
    }
  }

  lemma PlainUnfolds(schema: Json, cx: Context, path: seq<Key>, resolving: seq<string>)
    requires Known(schema, cx) && schema.Obj? && !Refers(NodeOf(schema.fields)) && KeysFit(schema.fields)
    ensures var plain := Plain(schema.fields);
            && Known(Obj(plain), cx) && !Refers(NodeOf(plain))
            && Normalize(schema, cx, path, resolving) == NormalizeChildren(plain, cx, path, resolving)
  {
    hide NormalizeChildren, NodeOf, Plain, IsFree, Level, KeysFit, Without;
    KeysFitIffSupported(schema.fields);
    PlainIsSmaller(schema.fields, cx, resolving);
  }

  lemma {:induction false} FitsNormalizes(schema: Json, cx: Context, path: seq<Key>, resolving: seq<string>, n: nat)
    requires Known(schema, cx) && Fits(cx, schema, n) && Unentered(cx, resolving, n)
    ensures Normalize(schema, cx, path, resolving).Ok?
    decreases n, Size(schema), 2
  {
    hide Normalize, NormalizeChildren, Fits, IsFree, Known, Plain, NodeOf, NodeFits, ReferenceFits, PlacesFit, Unentered, SchemaMeaning.Target;
    assert schema.Obj? by { FittingIsObject(cx, schema, n); }
    var d := schema.fields;
    if Refers(NodeOf(d)) {
      FitsThere(cx, d, n);
      ReferenceNormalizes(d, cx, path, resolving, n);
    } else {
      FitsHere(cx, d, n);
      assert KeysFit(d) by { NodeKeysFit(d); }
      PlainUnfolds(schema, cx, path, resolving);
      ChildrenNormalize(d, cx, path, resolving, n);
    }
  }

  lemma FittingIsObject(cx: Context, schema: Json, n: nat)
    requires Fits(cx, schema, n)
    ensures schema.Obj?
  {
  }

  lemma NodeKeysFit(d: Dict)
    requires NodeFits(d)
    ensures KeysFit(d)
  {
  }

  lemma {:induction false} ChildrenNormalize(d: Dict, cx: Context, path: seq<Key>, resolving: seq<string>, n: nat)
    requires Known(Obj(Plain(d)), cx) && !Refers(NodeOf(Plain(d))) && !Refers(NodeOf(d))
    requires NodeFits(d) && PlacesFit(cx, NodeOf(d), n) && Unentered(cx, resolving, n)
    ensures NormalizeChildren(Plain(d), cx, path, resolving).Ok?
    decreases n, Size(Obj(d)), 1
  {
    hide NodeOf, Normalize, NormalizeChildren, NormalizeFields, NormalizeItems, Assemble, Finish, IsFree, Fits, Size, Plain, Known,
         KeysFit, NodeFits, Level, Unentered;
    var plain := Plain(d);
    var node := NodeOf(plain);
    ghost var free := IsFree(Obj(plain));
    NodeSmaller(d);
    PlainLookups(d);
    ChildrenSteps(plain, cx, path, resolving);
    if node.properties.Some? && node.properties.value != Null {
      FieldsNormalize(node.properties.value.fields, cx, path + [Properties], resolving, free, n);
    }
    if node.items.Some? {
      FitsNormalizes(node.items.value, cx, path + [Items], resolving, n);
    }
    if node.additional.Some? && !node.additional.value.Bool? {
      FitsNormalizes(node.additional.value, cx, path + [AdditionalProperties], resolving, n);
    }
    if node.alternatives.Some? && node.alternatives.value != Null {
      ItemsNormalize(node.alternatives.value.items, 0, cx, path + [AnyOf], resolving, free, n);
    }
    assert KeysFit(d) by { NodeKeysFit(d); }
    var properties := NormalizeMap(node.properties, cx, path + [Properties], resolving, free).value;
    var items := NormalizeValue(node.items, cx, path + [Items], resolving, free).value;
    var additional := if node.additional.Some? && node.additional.value.Bool? then None
                      else NormalizeValue(node.additional, cx, path + [AdditionalProperties], resolving, free).value;
    var alternatives := NormalizeAlternatives(node.alternatives, cx, path + [AnyOf], resolving, free).value;
    assert SchemaMeaning.Rewritten(plain, properties, items, additional, alternatives);
    FinishedIffFits(d, properties, items, additional, alternatives, path);
  }

  lemma {:induction false} FieldsNormalize(fields: Dict, cx: Context, path: seq<Key>, resolving: seq<string>, free: bool, n: nat)
    requires FieldsKnown(fields, cx, free) && FitsFields(cx, fields, n) && Unentered(cx, resolving, n)
    ensures NormalizeFields(fields, cx, path, resolving, free).Ok?
    decreases n, DictSize(fields), 3
  {
    hide Fits, Normalize, Unentered;
    if fields != [] {
      FitsNormalizes(fields[0].val, cx, path + [fields[0].key], resolving, n);
      FieldsNormalize(fields[1..], cx, path, resolving, free, n);
    }
  }

  lemma {:induction false} ItemsNormalize(items: seq<Json>, index: nat, cx: Context, path: seq<Key>, resolving: seq<string>,
                                          free: bool, n: nat)
    requires ItemsKnown(items, cx, free) && FitsItems(cx, items, n) && Unentered(cx, resolving, n)
    ensures NormalizeItems(items, index, cx, path, resolving, free).Ok?
    decreases n, ItemsSize(items), 3, |items|
  {
    hide Fits, Normalize, Unentered;
    if items != [] {
      FitsNormalizes(items[0], cx, path + [Name(Text.ToDecimal(index))], resolving, n);
      ItemsNormalize(items[1..], index + 1, cx, path, resolving, free, n);
    }
  }

  /** A reference to a fitting schema is no cycle, and inlining it passes all checks. */
  lemma {:induction false} ReferenceNormalizes(d: Dict, cx: Context, path: seq<Key>, resolving: seq<string>, n: nat)
    requires Known(Obj(d), cx) && Refers(NodeOf(d)) && ReferenceFits(d) && n > 0
    requires SchemaMeaning.Target(cx, NodeOf(d)).Some? && Fits(cx, Obj(SchemaMeaning.Target(cx, NodeOf(d)).value), n - 1)
    requires Unentered(cx, resolving, n)
    ensures Normalize(Obj(d), cx, path, resolving).Ok?
    decreases n, Size(Obj(d)), 1
  {
    hide Normalize, NormalizeChildren, Fits, IsFree, Known, Plain, NodeOf, ReferenceFits, Level, Unentered, Inline;
    var pointer, target := TargetOf(d, cx, n);
    assert pointer !in resolving by { NoCycle(cx, resolving, pointer, n); }
    var least := Least(cx, pointer, n - 1);
    StillUnentered(cx, resolving, pointer, n, least);
    assert Known(Obj(target), cx) by { FollowingLowersLevel(d, cx, resolving, pointer); }
    FitsNormalizes(Obj(target), cx, path, resolving + [pointer], least);
    InlinedNormalizes(d, cx, path, resolving, pointer, target);
  }

  lemma TargetOf(d: Dict, cx: Context, n: nat) returns (pointer: string, target: Dict)
    requires Refers(NodeOf(d)) && n > 0
    requires SchemaMeaning.Target(cx, NodeOf(d)).Some? && Fits(cx, Obj(SchemaMeaning.Target(cx, NodeOf(d)).value), n - 1)
    ensures PointerOf(NodeOf(d).reference.value, cx.unquote) == Ok(pointer)
    ensures JsonPointer.Resolve(cx.doc, pointer, cx.keyOf) == Ok(target) && LeadsToFitting(cx, pointer, n - 1)
  {
    hide Fits, NodeOf;
    pointer := PointerOf(NodeOf(d).reference.value, cx.unquote).value;
    target := JsonPointer.Resolve(cx.doc, pointer, cx.keyOf).value;
  }

  lemma NoCycle(cx: Context, resolving: seq<string>, pointer: string, n: nat)
    requires Unentered(cx, resolving, n) && n > 0 && LeadsToFitting(cx, pointer, n - 1)
    ensures pointer !in resolving
  {
    hide LeadsToFitting;
  }

  lemma StillUnentered(cx: Context, resolving: seq<string>, pointer: string, n: nat, least: nat)
    requires Unentered(cx, resolving, n) && least < n
    requires forall m: nat :: m < least ==> !LeadsToFitting(cx, pointer, m)
    ensures Unentered(cx, resolving + [pointer], least)
  {
    hide LeadsToFitting;
  }

  /** Annotations that fit keep a normal schema normal. */
  lemma InlinedIsNormal(resolved: Dict, d: Dict)
    requires IsNormal(Obj(resolved)) && KeywordsFit(Last(Annotations(d)))
    ensures IsNormal(Obj(Inline(resolved, Plain(d))))
  {
    hide Lookup, NodeOf, Size, KeywordFault, TypeOk, Update, Last, Annotations, Plain, KeywordsFit, ValueFits;
    var inlined := Inline(resolved, Plain(d));
    PlainKeepsAnnotations(d);
    OnlyAnnotations(Annotations(d));
    NodeOfAnnotated(resolved, Annotations(d));
    NormalHasKeptKeys(resolved);
    InlinedKeys(resolved, Plain(d));
    InlinedKeywordsFit(resolved, Annotations(d));
  }

  lemma InlinedKeywordsFit(resolved: Dict, annotations: Dict)
    requires KeywordFault(resolved).None? && KeywordsFit(Last(annotations))
    ensures KeywordFault(Update(resolved, annotations)).None?
  {
    hide Lookup, KeywordFault, Update, Last, ValueFits;
    KeywordsFitIffChecked(resolved);
    KeywordsFitIffChecked(Update(resolved, annotations));
  }

  lemma InlinedNormalizes(d: Dict, cx: Context, path: seq<Key>, resolving: seq<string>, pointer: string, target: Dict)
    requires Known(Obj(d), cx) && Refers(NodeOf(d)) && ReferenceFits(d)
    requires PointerOf(NodeOf(d).reference.value, cx.unquote) == Ok(pointer) && pointer !in resolving
    requires JsonPointer.Resolve(cx.doc, pointer, cx.keyOf) == Ok(target) && Known(Obj(target), cx)
    requires Normalize(Obj(target), cx, path, resolving + [pointer]).Ok?
    ensures Normalize(Obj(d), cx, path, resolving).Ok?
  {
    hide NormalizeChildren, IsFree, Known, Plain, NodeOf, Level, Inline, KeywordsFit, Last, Annotations, PointerOf, Without, IsNormal, ReferenceFits;
    var resolved := Normalize(Obj(target), cx, path, resolving + [pointer]).value;
    NormalizedIsNormal(Obj(target), cx, path, resolving + [pointer]);
    assert KeywordsFit(Last(Annotations(d))) && !HasConstraints(Plain(d)) && KeysFit(d) by { BesideReference(d); }
    InlinedIsNormal(resolved, d);
    InlinedIsFree(resolved, Plain(d));
    ChildrenAreFixed(Inline(resolved, Plain(d)), cx, path, resolving);
    KeysFitIffSupported(d);
    ReferenceUnfolds(d, cx, path, resolving, pointer, target);
  }

  lemma NothingBut(d: Dict, ks: set<Key>)
    requires forall f :: f in d ==> f.key in ks
    ensures Without(d, ks) == []
  {
    if d != [] {
      NothingBut(d[1..], ks);
    }
  }

  lemma BesideReference(d: Dict)
    requires ReferenceFits(d)
    ensures KeywordsFit(Last(Annotations(d))) && !HasConstraints(Plain(d)) && KeysFit(d)
  {
    hide KeywordsFit, Last, Annotations;
    OnlyAnnotationsBeside(d);
    NothingBut(Plain(d), ANNOTATIONS + DEFINITIONS);
  }

  lemma ReferenceUnfolds(d: Dict, cx: Context, path: seq<Key>, resolving: seq<string>, pointer: string, target: Dict)
    requires Known(Obj(d), cx) && Refers(NodeOf(d)) && !HasConstraints(Plain(d)) && FirstUnsupported(Without(d, IGNORED)).None?
    requires PointerOf(NodeOf(d).reference.value, cx.unquote) == Ok(pointer) && pointer !in resolving
    requires JsonPointer.Resolve(cx.doc, pointer, cx.keyOf) == Ok(target) && Known(Obj(target), cx)
    requires Normalize(Obj(target), cx, path, resolving + [pointer]).Ok?
    ensures var inlined := Inline(Normalize(Obj(target), cx, path, resolving + [pointer]).value, Plain(d));
            && Known(Obj(inlined), cx) && !Refers(NodeOf(inlined))
            && Normalize(Obj(d), cx, path, resolving) == NormalizeChildren(inlined, cx, path, resolving)
  {
    hide NormalizeChildren, IsFree, Plain, NodeOf, Level, Inline, PointerOf, Without, HasConstraints, Within;
    InlinedIsFree(Normalize(Obj(target), cx, path, resolving + [pointer]).value, Plain(d));
  }

  // ---- The theorems ----

  /** A schema is normalised exactly if it fits with some number of references; as many as
      the document has are always enough. */
  lemma NormalizesIffFits(schema: Json, cx: Context, path: seq<Key>)
    requires Known(schema, cx)
    ensures Normalize(schema, cx, path, []).Ok? <==> exists n: nat :: Fits(cx, schema, n)
    ensures Normalize(schema, cx, path, []).Ok? ==> Fits(cx, schema, Remaining(cx, []))
  {
    hide Normalize, Fits, Known, Remaining;
    if Normalize(schema, cx, path, []).Ok? {
      NormalizedFits(schema, cx, path, [], Remaining(cx, []));
    }
    if n: nat :| Fits(cx, schema, n) {
      FitsNormalizes(schema, cx, path, [], n);
    }
  }

  // ---- What is written ----

  /** The type a node without one gets. */
  function Implied(d: Dict): string {
    if Has(d, Properties) || Has(d, AdditionalProperties) then "object" else if Has(d, Items) then "array" else "string"
  }

  /** What the normalised node says under a keyword: what it says itself, or where its
      references end, and annotations beside a reference win. */
  function Written(cx: Context, d: Dict, k: Key, fuel: nat): Option<Json>
    decreases fuel
  {
    if Refers(NodeOf(d)) then
      if Has(Last(Annotations(d)), k) then Lookup(Last(Annotations(d)), k)
      else if fuel == 0 || SchemaMeaning.Target(cx, NodeOf(d)).None? then None
      else Written(cx, SchemaMeaning.Target(cx, NodeOf(d)).value, k, fuel - 1)
    else if k == Ref || k in IGNORED || k in DEFINITIONS then None
    else if k == Type && !Has(d, Type) then if Has(d, AnyOf) then None else Some(Str(Implied(d)))
    else Lookup(d, k)
  }

  lemma {:induction false} KeywordsAreWritten(schema: Json, cx: Context, path: seq<Key>, resolving: seq<string>, k: Key, n: nat)
    requires Known(schema, cx) && Normalize(schema, cx, path, resolving).Ok? && n >= Remaining(cx, resolving) && IsPlain(k)
    ensures Lookup(Normalize(schema, cx, path, resolving).value, k) == Written(cx, schema.fields, k, n)
    decreases n
  {
    hide Normalize, NormalizeChildren, IsFree, Known, Level, Plain, FollowReference, NodeOf, Remaining, Inline, IsNormal, Lookup,
         Update, Last, Annotations;
    var d := schema.fields;
    if !Refers(NodeOf(d)) {
      PlainStep(schema, cx, path, resolving);
      PlainIsWritten(d, cx, path, resolving, k);
    } else {
      var next := ReferenceStep(schema, cx, path, resolving);
      SchemaMeaning.FollowedShrinks(schema, cx, path, resolving, next);
      KeywordsAreWritten(Obj(next.target), cx, path, resolving + [next.pointer], k, n - 1);
      FollowedTarget(cx, d, path, resolving, next);
      var resolved := Normalize(Obj(next.target), cx, path, resolving + [next.pointer]).value;
      NormalizedIsNormal(Obj(next.target), cx, path, resolving + [next.pointer]);
      ReferenceIsChecked(schema, cx, path, resolving, next);
      InlinedIsWritten(resolved, d, cx, path, resolving, k);
    }
  }

  lemma InlinedIsWritten(resolved: Dict, d: Dict, cx: Context, path: seq<Key>, resolving: seq<string>, k: Key)
    requires IsNormal(Obj(resolved)) && ReferenceFits(d)
    ensures var inlined := Inline(resolved, Plain(d));
            && IsFree(Obj(inlined)) && NormalizeChildren(inlined, cx, path, resolving) == Ok(inlined)
            && Lookup(inlined, k) == if Has(Last(Annotations(d)), k) then Lookup(Last(Annotations(d)), k) else Lookup(resolved, k)
  {
    hide NormalizeChildren, IsFree, Plain, Lookup, Update, Last, Annotations, IsNormal, KeywordsFit;
    InlinedIsNormal(resolved, d);
    NormalIsFree(Obj(Inline(resolved, Plain(d))));
    ChildrenAreFixed(Inline(resolved, Plain(d)), cx, path, resolving);
    PlainKeepsAnnotations(d);
  }

  lemma PlainIsWritten(d: Dict, cx: Context, path: seq<Key>, resolving: seq<string>, k: Key)
    requires Known(Obj(Plain(d)), cx) && !Refers(NodeOf(Plain(d))) && NormalizeChildren(Plain(d), cx, path, resolving).Ok?
    requires !Refers(NodeOf(d)) && IsPlain(k)
    ensures Lookup(NormalizeChildren(Plain(d), cx, path, resolving).value, k) == Written(cx, d, k, 0)
  {
    hide NodeOf, Normalize, NormalizeChildren, NormalizeMap, NormalizeValue, NormalizeAlternatives, IsFree, Known, Lookup, Plain,
         Assemble, Finish;
    var plain := Plain(d);
    var node := NodeOf(plain);
    ghost var free := IsFree(Obj(plain));
    ChildrenSteps(plain, cx, path, resolving);
    SchemaMeaning.PassesRewrite(plain, cx, path, resolving);
    FinishedIsWritten(cx, d, NormalizeMap(node.properties, cx, path + [Properties], resolving, free).value,
                      NormalizeValue(node.items, cx, path + [Items], resolving, free).value,
                      if node.additional.Some? && node.additional.value.Bool? then None
                      else NormalizeValue(node.additional, cx, path + [AdditionalProperties], resolving, free).value,
                      NormalizeAlternatives(node.alternatives, cx, path + [AnyOf], resolving, free).value, path, k);
  }

  lemma FinishedIsWritten(cx: Context, d: Dict, properties: Option<Json>, items: Option<Json>, additional: Option<Json>,
                          alternatives: Option<Json>, path: seq<Key>, k: Key)
    requires SchemaMeaning.Rewritten(Plain(d), properties, items, additional, alternatives) && !Refers(NodeOf(d)) && IsPlain(k)
    requires Finish(Assemble(Plain(d), properties, items, additional, alternatives), path).Ok?
    ensures Lookup(Finish(Assemble(Plain(d), properties, items, additional, alternatives), path).value, k) == Written(cx, d, k, 0)
  {
    hide Lookup, Assemble, NodeOf, InferType, Finish, Plain, Implied;
    var whole := Assemble(Plain(d), properties, items, additional, alternatives);
    NodeOfAssembled(Plain(d), properties, items, additional, alternatives);
    PlacesKept(d, properties, items, additional, alternatives);
    PlainLookup(d, k);
    PlainLookup(d, Type);
    FinishedLookup(whole, path, k);
    ImpliedIsInferred(whole, d);
  }

  lemma PlainLookup(d: Dict, k: Key)
    ensures Lookup(Plain(d), k) == if k == Ref || k in IGNORED then None else Lookup(d, k)
  {
    hide Without, Lookup;
  }

  lemma FinishedLookup(d: Dict, path: seq<Key>, k: Key)
    requires Finish(d, path).Ok?
    ensures Lookup(Finish(d, path).value, k) ==
            if k in DEFINITIONS then None
            else if k == Type && !Has(d, Type) && !Has(d, AnyOf) then Some(Str(InferType(d).value))
            else Lookup(d, k)
    ensures !Has(d, Type) && !Has(d, AnyOf) ==> InferType(d).Some?
  {
    hide Without, Lookup, Put, KeywordFault, TypeOk, InferType;
  }

  lemma ImpliedIsInferred(whole: Dict, d: Dict)
    requires Has(whole, Properties) == Has(d, Properties) && Has(whole, Items) == Has(d, Items)
    requires Has(whole, AdditionalProperties) == Has(d, AdditionalProperties)
    ensures InferType(whole).Some? ==> InferType(whole).value == Implied(d)
  {
    hide Lookup;
  }

  /** A tool schema is accepted exactly if it is empty, or fits and its root is an object's. */
  lemma ToolNormalizesIffFits(schema: Json, unquote: string -> Option<string>)
    ensures var cx := Context(schema, unquote, KeyOf);
            NormalizeTool(schema, unquote).Ok? <==>
            schema.Obj? && (schema.fields == [] ||
              exists n: nat :: Fits(cx, schema, n) && Written(cx, schema.fields, Type, n) == Some(Str("object")))
  {
    hide Normalize, Fits, Known, Remaining, Written, Lookup;
    var cx := Context(schema, unquote, KeyOf);
    if schema.Obj? && schema.fields != [] {
      assert Known(schema, cx) by { SchemaMeaning.WholeIsKnown(cx); }
      NormalizesIffFits(schema, cx, []);
      if Normalize(schema, cx, [], []).Ok? {
        KeywordsAreWritten(schema, cx, [], [], Type, Remaining(cx, []));
        forall n: nat | Fits(cx, schema, n) ensures Written(cx, schema.fields, Type, n) == Written(cx, schema.fields, Type, Remaining(cx, [])) {
          EnoughIsWritten(cx, schema, Type, n, Remaining(cx, []));
        }
      }
    }
  }

  /** More references than are needed make no difference. */
  lemma {:induction false} EnoughIsWritten(cx: Context, schema: Json, k: Key, m: nat, n: nat)
    requires Fits(cx, schema, m) && Fits(cx, schema, n)
    ensures Written(cx, schema.fields, k, m) == Written(cx, schema.fields, k, n)
    decreases m
  {
    hide Fits, NodeOf, Lookup, SchemaMeaning.Target, Last, Annotations, ReferenceFits;
    FittingIsObject(cx, schema, m);
    var d := schema.fields;
    if Refers(NodeOf(d)) {
      FitsThere(cx, d, m);
      FitsThere(cx, d, n);
      EnoughIsWritten(cx, Obj(SchemaMeaning.Target(cx, NodeOf(d)).value), k, m - 1, n - 1);
    }
  }
}
