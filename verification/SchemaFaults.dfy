/** What a refusal says: the path of the fault leads, through the schema and the references it
    follows, to a place that has the fault the reason names. */
module SchemaFaults {
  import opened Wrappers
  import opened Json
  import opened SchemaNormalizer
  import opened SchemaShape
  import opened SchemaChecks
  import SchemaMeaning
  import JsonPointer
  import Text

  // ---- Places that have a fault ----

  /** The reason a value under a checked keyword is refused for. */
  function ValueReason(k: Key): Reason {
    match k
    case Required => RequiredNotUnique
    case Enum => EnumNotStrings
    case MinItems | MaxItems | MinLength | MaxLength | MinProperties | MaxProperties => NotCount
    case Minimum | Maximum => NotNumber
    case _ => NotString
  }

  predicate BadValue(d: Dict, rest: seq<Key>, reason: Reason) {
    |rest| == 1 && Has(d, rest[0]) && !ValueFits(rest[0], Lookup(d, rest[0]).value) && reason == ValueReason(rest[0])
  }

  /** A fault of a node's own, without a reference. */
  predicate OwnFault(d: Dict, rest: seq<Key>, reason: Reason) {
    match reason
    case MapNotObject =>
      rest == [Properties] && Has(d, Properties) && !Lookup(d, Properties).value.Null? && !Lookup(d, Properties).value.Obj?
    case AlternativesEmpty =>
      && rest == [AnyOf] && Has(d, AnyOf) && !Lookup(d, AnyOf).value.Null?
      && (Lookup(d, AnyOf).value.Arr? ==> Lookup(d, AnyOf).value.items == [])
    case TypeUnsupported => rest == [Type] && Has(d, Type) && !TypeFits(Lookup(d, Type).value)
    case TypeMissing =>
      && rest == [] && !Has(d, Type) && !Has(d, AnyOf) && !Has(d, Properties) && !Has(d, AdditionalProperties)
      && !Has(d, Items) && !Has(d, Enum)
    case _ => BadValue(d, rest, reason)
  }

  /** A fault of a reference itself. */
  predicate ReferenceFault(cx: Context, reference: Json, resolving: seq<string>, reason: Reason) {
    match PointerOf(reference, cx.unquote)
    case Err(fault) => reason == fault
    case Ok(pointer) =>
      if pointer in resolving then reason == ReferenceCyclic
      else match JsonPointer.Resolve(cx.doc, pointer, cx.keyOf)
        case Err(InvalidPart) => reason == ReferenceInvalid
        case Err(Unresolved) => reason == ReferenceUnresolved
        case Err(NotAnObject) => reason == ReferenceNotObject
        case Ok(_) => false
  }

  /** Something stands beside a reference that must not. */
  predicate BadSibling(d: Dict, rest: seq<Key>, reason: Reason) {
    || (reason == ReferenceSiblings && rest == []
        && exists f :: f in d && f.key != Ref && f.key !in IGNORED && f.key !in ANNOTATIONS && f.key !in DEFINITIONS)
    || BadValue(Last(Annotations(d)), rest, reason)
  }

  // ---- Faults on the way ----

  ghost predicate Blames(cx: Context, schema: Json, rest: seq<Key>, reason: Reason, resolving: seq<string>, fuel: nat)
    decreases fuel, Size(schema), 1
  {
    if !schema.Obj? then rest == [] && reason == SchemaNotObject else
    var d := schema.fields;
    var node := NodeOf(d);
    NodeSmaller(d);
    || (reason == KeywordUnsupported && |rest| == 1 && !IsCommon(rest[0]) && Has(d, rest[0]))
    || if Refers(node) then
         || (rest == [Ref] && ReferenceFault(cx, node.reference.value, resolving, reason))
         || BadSibling(d, rest, reason)
         || (fuel > 0 && SchemaMeaning.Target(cx, node).Some? &&
             Blames(cx, Obj(SchemaMeaning.Target(cx, node).value), rest, reason,
                    resolving + [PointerOf(node.reference.value, cx.unquote).value], fuel - 1))
       else
         || OwnFault(d, rest, reason)
         || (rest != [] && rest[0] == Properties && node.properties.Some? && node.properties.value.Obj? &&
             FieldsBlame(cx, node.properties.value.fields, rest[1..], reason, resolving, fuel))
         || (rest != [] && rest[0] == Items && node.items.Some? && Blames(cx, node.items.value, rest[1..], reason, resolving, fuel))
         || (rest != [] && rest[0] == AdditionalProperties && node.additional.Some? && !node.additional.value.Bool? &&
             Blames(cx, node.additional.value, rest[1..], reason, resolving, fuel))
         || (rest != [] && rest[0] == AnyOf && node.alternatives.Some? && node.alternatives.value.Arr? &&
             ItemsBlame(cx, node.alternatives.value.items, 0, rest[1..], reason, resolving, fuel))
  }

  ghost predicate FieldsBlame(cx: Context, fields: Dict, rest: seq<Key>, reason: Reason, resolving: seq<string>, fuel: nat)
    decreases fuel, DictSize(fields), 2
  {
    fields != [] &&
    (|| (rest != [] && rest[0] == fields[0].key && Blames(cx, fields[0].val, rest[1..], reason, resolving, fuel))
     || FieldsBlame(cx, fields[1..], rest, reason, resolving, fuel))
  }

  ghost predicate ItemsBlame(cx: Context, items: seq<Json>, index: nat, rest: seq<Key>, reason: Reason, resolving: seq<string>, fuel: nat)
    decreases fuel, ItemsSize(items), 2, |items|
  {
    items != [] &&
    (|| (rest != [] && rest[0] == Name(Text.ToDecimal(index)) && Blames(cx, items[0], rest[1..], reason, resolving, fuel))
     || ItemsBlame(cx, items[1..], index + 1, rest, reason, resolving, fuel))
  }

  // ---- The checks of one node ----

  lemma {:induction false} FailingIsWrong(d: Dict, keywords: seq<Key>, passes: Json -> bool)
    requires FirstFailing(d, keywords, passes).Some?
    ensures var k := FirstFailing(d, keywords, passes).value;
            k in keywords && Has(d, k) && !passes(Lookup(d, k).value)
  {
    if !(Has(d, keywords[0]) && !passes(Lookup(d, keywords[0]).value)) {
      FailingIsWrong(d, keywords[1..], passes);
    }
  }

  lemma TextFailing(d: Dict)
    requires FirstFailing(d, TEXT_KEYWORDS, IsText).Some?
    ensures var k := FirstFailing(d, TEXT_KEYWORDS, IsText).value; BadValue(d, [k], NotString)
  {
    hide Lookup, FirstFailing;
    FailingIsWrong(d, TEXT_KEYWORDS, IsText);
    ListsAreChecked();
  }

  lemma CountFailing(d: Dict)
    requires FirstFailing(d, COUNT_KEYWORDS, IsCount).Some?
    ensures var k := FirstFailing(d, COUNT_KEYWORDS, IsCount).value; BadValue(d, [k], NotCount)
  {
    hide Lookup, FirstFailing;
    FailingIsWrong(d, COUNT_KEYWORDS, IsCount);
    ListsAreChecked();
  }

  lemma BoundFailing(d: Dict)
    requires FirstFailing(d, BOUND_KEYWORDS, IsNumber).Some?
    ensures var k := FirstFailing(d, BOUND_KEYWORDS, IsNumber).value; BadValue(d, [k], NotNumber)
  {
    hide Lookup, FirstFailing;
    FailingIsWrong(d, BOUND_KEYWORDS, IsNumber);
    ListsAreChecked();
  }

  lemma KeywordFaultIsWrong(d: Dict)
    requires KeywordFault(d).Some?
    ensures BadValue(d, [KeywordFault(d).value.0], KeywordFault(d).value.1)
  {
    hide Lookup, FirstFailing, BadValue;
    if !RequiredOk(d) || !EnumOk(d) {
      ListFailing(d);
    } else if FirstFailing(d, TEXT_KEYWORDS, IsText).Some? {
      TextFailing(d);
    } else if FirstFailing(d, COUNT_KEYWORDS, IsCount).Some? {
      CountFailing(d);
    } else {
      BoundFailing(d);
    }
  }

  lemma ListFailing(d: Dict)
    ensures !RequiredOk(d) ==> BadValue(d, [Required], RequiredNotUnique)
    ensures !EnumOk(d) ==> BadValue(d, [Enum], EnumNotStrings)
  {
    hide Lookup;
    ListsFit(d);
  }

  lemma SameBadValue(a: Dict, b: Dict, k: Key, reason: Reason)
    requires BadValue(a, [k], reason) && Lookup(a, k) == Lookup(b, k)
    ensures BadValue(b, [k], reason)
  {
    hide Lookup;
  }

  lemma BadValueIsOwn(d: Dict, k: Key, reason: Reason)
    requires BadValue(d, [k], reason)
    ensures OwnFault(d, [k], reason) && Has(d, k) && !ValueFits(k, Lookup(d, k).value)
  {
    hide Lookup;
  }

  /** The checks at the end refuse a node for a fault it has as it is written. */
  lemma FinishFaults(d: Dict, properties: Option<Json>, items: Option<Json>, additional: Option<Json>,
                     alternatives: Option<Json>, path: seq<Key>)
    requires SchemaMeaning.Rewritten(Plain(d), properties, items, additional, alternatives)
    requires Finish(Assemble(Plain(d), properties, items, additional, alternatives), path).Err?
    ensures var fault := Finish(Assemble(Plain(d), properties, items, additional, alternatives), path).error;
            path <= fault.path && OwnFault(d, fault.path[|path|..], fault.reason)
  {
    hide Without, Lookup, Put, KeywordFault, TypeOk, TypeFits, Assemble, NodeOf, InferType, Plain, ValueFits, BadValue;
    var whole := Assemble(Plain(d), properties, items, additional, alternatives);
    NodeOfAssembled(Plain(d), properties, items, additional, alternatives);
    PlainLookup(d, Type);
    PlainLookup(d, Enum);
    PlacesKept(d, properties, items, additional, alternatives);
    if KeywordFault(whole).Some? {
      var (k, reason) := KeywordFault(whole).value;
      KeywordFaultIsWrong(whole);
      BadValueIsOwn(whole, k, reason);
      CheckedLookups(d, properties, items, additional, alternatives);
      assert Lookup(whole, k) == Lookup(d, k);
      SameBadValue(whole, d, k, reason);
      BadValueIsOwn(d, k, reason);
      assert (path + [k])[|path|..] == [k];
    } else {
      if Has(d, Type) { TypeFitsIffOk(Lookup(d, Type).value); }
      InferredIffImplied(whole);
      assert (path + [Type])[|path|..] == [Type] && path[|path|..] == [];
    }
  }

  // ---- Inlined references ----

  /** An inlined schema can only be refused for an annotation beside the reference. */
  lemma InlinedFaults(resolved: Dict, d: Dict, cx: Context, path: seq<Key>, resolving: seq<string>)
    requires IsNormal(Obj(resolved))
    requires var inlined := Inline(resolved, Plain(d));
             Known(Obj(inlined), cx) && !Refers(NodeOf(inlined)) && NormalizeChildren(inlined, cx, path, resolving).Err?
    ensures var fault := NormalizeChildren(Inline(resolved, Plain(d)), cx, path, resolving).error;
            path <= fault.path && BadValue(Last(Annotations(d)), fault.path[|path|..], fault.reason)
  {
    hide NodeOf, Normalize, NormalizeChildren, NormalizeMap, NormalizeValue, NormalizeAlternatives, IsFree, Known, Lookup, Last,
         Update, Annotations, Plain, Assemble, Finish, IsNormal, BadValue;
    var inlined := Inline(resolved, Plain(d));
    PlainKeepsAnnotations(d);
    NormalIsFree(Obj(resolved));
    InlinedIsFree(resolved, Plain(d));
    assert NodeOf(inlined) == NodeOf(resolved) by { NodeOfAnnotated(resolved, Annotations(Plain(d))); }
    assert Known(Obj(resolved), cx) by { FreeIsKnown(Obj(resolved), cx); }
    ChildrenAreFixed(resolved, cx, path, resolving);
    ChildrenSteps(resolved, cx, path, resolving);
    ChildrenSteps(inlined, cx, path, resolving);
    var node := NodeOf(resolved);
    var properties := NormalizeMap(node.properties, cx, path + [Properties], resolving, true).value;
    var items := NormalizeValue(node.items, cx, path + [Items], resolving, true).value;
    var additional := if node.additional.Some? && node.additional.value.Bool? then None
                      else NormalizeValue(node.additional, cx, path + [AdditionalProperties], resolving, true).value;
    var alternatives := NormalizeAlternatives(node.alternatives, cx, path + [AnyOf], resolving, true).value;
    InlinedFinishFaults(resolved, Annotations(d), properties, items, additional, alternatives, path);
  }

  lemma FreeIsKnown(j: Json, cx: Context)
    requires IsFree(j)
    ensures Known(j, cx)
  {
  }

  lemma InlinedFinishFaults(resolved: Dict, annotations: Dict, properties: Option<Json>, items: Option<Json>, additional: Option<Json>,
                            alternatives: Option<Json>, path: seq<Key>)
    requires IsNormal(Obj(resolved)) && forall f :: f in annotations ==> f.key in ANNOTATIONS
    requires Finish(Assemble(Update(resolved, annotations), properties, items, additional, alternatives), path).Err?
    ensures var fault := Finish(Assemble(Update(resolved, annotations), properties, items, additional, alternatives), path).error;
            path <= fault.path && BadValue(Last(annotations), fault.path[|path|..], fault.reason)
  {
    hide Without, Lookup, Put, KeywordFault, TypeOk, Assemble, NodeOf, InferType, ValueFits, BadValue, Update, Last;
    var inlined := Update(resolved, annotations);
    var whole := Assemble(inlined, properties, items, additional, alternatives);
    NodeOfAssembled(inlined, properties, items, additional, alternatives);
    OnlyAnnotations(annotations);
    NormalIsChecked(resolved);
    assert Lookup(whole, Type) == Lookup(resolved, Type);
    assert Has(resolved, AnyOf) ==> Has(whole, AnyOf) by { AlternativesKept(inlined, resolved, properties, items, additional, alternatives); }
    var (k, reason) := KeywordFault(whole).value;
    KeywordFaultIsWrong(whole);
    BadValueIsOwn(whole, k, reason);
    assert IsPlain(k) by { PlacesFitAnything(k, Lookup(whole, k).value); }
    assert Lookup(whole, k) == Lookup(inlined, k);
    assert !Has(Last(annotations), k) ==> Lookup(inlined, k) == Lookup(resolved, k);
    assert Has(Last(annotations), k) by { FittingKeyword(resolved, k); }
    SameBadValue(whole, Last(annotations), k, reason);
    assert (path + [k])[|path|..] == [k];
  }

  lemma FittingKeyword(d: Dict, k: Key)
    requires KeywordsFit(d)
    ensures Has(d, k) ==> ValueFits(k, Lookup(d, k).value)
  {
    hide Lookup, ValueFits;
  }

  lemma PlacesFitAnything(k: Key, v: Json)
    requires !ValueFits(k, v)
    ensures IsPlain(k)
  {
  }

  lemma AlternativesKept(inlined: Dict, resolved: Dict, properties: Option<Json>, items: Option<Json>, additional: Option<Json>, alternatives: Option<Json>)
    requires Lookup(inlined, AnyOf) == Lookup(resolved, AnyOf)
    ensures Has(resolved, AnyOf) ==> Has(Assemble(inlined, properties, items, additional, alternatives), AnyOf)
  {
    hide Assemble, Lookup;
    NodeOfAssembled(inlined, properties, items, additional, alternatives);
  }

  lemma NormalIsChecked(d: Dict)
    requires IsNormal(Obj(d))
    ensures KeywordsFit(d) && (Has(d, Type) ==> TypeOk(Lookup(d, Type).value)) && (Has(d, Type) || Has(d, AnyOf))
  {
    hide NodeOf, Size, KeywordsFit, TypeOk, Lookup;
    KeywordsFitIffChecked(d);
  }

  // ---- Whole schemas ----

  /** What `Blames` says of an object. */
  lemma BlamesHere(cx: Context, d: Dict, rest: seq<Key>, reason: Reason, resolving: seq<string>, n: nat)
    requires !Refers(NodeOf(d)) && (OwnFault(d, rest, reason) || BlamesPlace(cx, NodeOf(d), rest, reason, resolving, n))
    ensures Blames(cx, Obj(d), rest, reason, resolving, n)
  {
    hide OwnFault, NodeOf, Size, BadSibling, ReferenceFault, IsCommon, Lookup, SchemaMeaning.Target;
  }

  ghost predicate BlamesPlace(cx: Context, node: Node, rest: seq<Key>, reason: Reason, resolving: seq<string>, n: nat) {
    rest != [] &&
    match rest[0]
    case Properties =>
      node.properties.Some? && node.properties.value.Obj? && FieldsBlame(cx, node.properties.value.fields, rest[1..], reason, resolving, n)
    case Items => node.items.Some? && Blames(cx, node.items.value, rest[1..], reason, resolving, n)
    case AdditionalProperties =>
      node.additional.Some? && !node.additional.value.Bool? && Blames(cx, node.additional.value, rest[1..], reason, resolving, n)
    case AnyOf =>
      node.alternatives.Some? && node.alternatives.value.Arr? && ItemsBlame(cx, node.alternatives.value.items, 0, rest[1..], reason, resolving, n)
    case _ => false
  }

  lemma BlamesThere(cx: Context, d: Dict, rest: seq<Key>, reason: Reason, resolving: seq<string>, n: nat)
    requires Refers(NodeOf(d))
    requires || (rest == [Ref] && ReferenceFault(cx, NodeOf(d).reference.value, resolving, reason))
             || BadSibling(d, rest, reason)
             || (n > 0 && SchemaMeaning.Target(cx, NodeOf(d)).Some? &&
                 Blames(cx, Obj(SchemaMeaning.Target(cx, NodeOf(d)).value), rest, reason,
                        resolving + [PointerOf(NodeOf(d).reference.value, cx.unquote).value], n - 1))
    ensures Blames(cx, Obj(d), rest, reason, resolving, n)
  {
    hide OwnFault, NodeOf, Size, BadSibling, ReferenceFault, IsCommon, Lookup, SchemaMeaning.Target;
  }

  lemma BlamesKey(cx: Context, d: Dict, k: Key, resolving: seq<string>, n: nat)
    requires !IsCommon(k) && Has(d, k)
    ensures Blames(cx, Obj(d), [k], KeywordUnsupported, resolving, n)
  {
    hide OwnFault, NodeOf, Size, BadSibling, ReferenceFault, IsCommon, Lookup, SchemaMeaning.Target;
  }

  lemma {:induction false} UnsupportedIsThere(d: Dict)
    requires FirstUnsupported(d).Some?
    ensures Has(d, FirstUnsupported(d).value) && !IsSupported(FirstUnsupported(d).value)
  {
    if IsSupported(d[0].key) {
      UnsupportedIsThere(d[1..]);
    }
  }

  /** A fault further down, seen from the place that leads there. */
  predicate Under(path: seq<Key>, first: Key, fault: Fault) {
    path + [first] <= fault.path
  }

  lemma UnderPath(path: seq<Key>, first: Key, fault: Fault)
    requires Under(path, first, fault)
    ensures path <= fault.path && fault.path[|path|..] == [first] + fault.path[|path| + 1..]
  {
    assert path <= path + [first];
    assert fault.path[|path|] == (path + [first])[|path|];
  }

  lemma {:induction false} FaultIsThere(schema: Json, cx: Context, path: seq<Key>, resolving: seq<string>, n: nat)
    requires Known(schema, cx) && Normalize(schema, cx, path, resolving).Err? && n >= Remaining(cx, resolving)
    ensures var fault := Normalize(schema, cx, path, resolving).error;
            path <= fault.path && Blames(cx, schema, fault.path[|path|..], fault.reason, resolving, n)
    decreases Level(cx, resolving, IsFree(schema)), Size(schema), 2
  {
    hide Normalize, NormalizeChildren, Blames, IsFree, Known, Level, Plain, NodeOf, Remaining, FirstUnsupported, Without, KeysFit;
    assert path[|path|..] == [];
    if !schema.Obj? {
      NotAnObjectFaults(schema, cx, path, resolving, n);
    } else if FirstUnsupported(Without(schema.fields, IGNORED)).Some? {
      UnsupportedFaults(schema, cx, path, resolving, n);
    } else {
      KeysFitIffSupported(schema.fields);
      if Refers(NodeOf(schema.fields)) {
        ReferenceFaults(schema.fields, cx, path, resolving, n);
      } else {
        PlainUnfolds(schema, cx, path, resolving);
        assert DictSize(Plain(schema.fields)) + 1 <= Size(schema) && Level(cx, resolving, IsFree(Obj(Plain(schema.fields)))) <= Level(cx, resolving, IsFree(schema))
        by { PlainMeasure(schema.fields, cx, resolving); }
        ChildrenFaults(schema.fields, cx, path, resolving, n);
      }
    }
  }

  lemma PlainMeasure(d: Dict, cx: Context, resolving: seq<string>)
    requires Known(Obj(d), cx) && !Refers(NodeOf(d))
    ensures DictSize(Plain(d)) + 1 <= Size(Obj(d)) && Level(cx, resolving, IsFree(Obj(Plain(d)))) <= Level(cx, resolving, IsFree(Obj(d)))
  {
    hide NodeOf, Plain, IsFree, Known, Level;
    PlainIsSmaller(d, cx, resolving);
  }

  lemma NotAnObjectFaults(schema: Json, cx: Context, path: seq<Key>, resolving: seq<string>, n: nat)
    requires Known(schema, cx) && !schema.Obj?
    ensures Normalize(schema, cx, path, resolving) == Err(Fault(path, SchemaNotObject))
    ensures Blames(cx, schema, [], SchemaNotObject, resolving, n)
  {
  }

  lemma UnsupportedFaults(schema: Json, cx: Context, path: seq<Key>, resolving: seq<string>, n: nat)
    requires Known(schema, cx) && schema.Obj? && FirstUnsupported(Without(schema.fields, IGNORED)).Some?
    ensures Normalize(schema, cx, path, resolving).Err?
    ensures var fault := Normalize(schema, cx, path, resolving).error;
            path <= fault.path && Blames(cx, schema, fault.path[|path|..], fault.reason, resolving, n)
  {
    hide Blames, NodeOf, NormalizeChildren, NormalizeReference, Plain, Without, FirstUnsupported, Known, Lookup;
    var d := schema.fields;
    var k := FirstUnsupported(Without(d, IGNORED)).value;
    UnsupportedIsThere(Without(d, IGNORED));
    assert Normalize(schema, cx, path, resolving) == Err(Fault(path + [k], KeywordUnsupported));
    assert (path + [k])[|path|..] == [k];
    BlamesKey(cx, d, k, resolving, n);
  }

  lemma {:induction false} ReferenceFaults(d: Dict, cx: Context, path: seq<Key>, resolving: seq<string>, n: nat)
    requires Known(Obj(d), cx) && Refers(NodeOf(d)) && FirstUnsupported(Without(d, IGNORED)).None?
    requires Normalize(Obj(d), cx, path, resolving).Err? && n >= Remaining(cx, resolving)
    ensures var fault := Normalize(Obj(d), cx, path, resolving).error;
            path <= fault.path && Blames(cx, Obj(d), fault.path[|path|..], fault.reason, resolving, n)
    decreases Level(cx, resolving, IsFree(Obj(d))), Size(Obj(d)), 1
  {
    hide NormalizeChildren, Blames, IsFree, Plain, NodeOf, Remaining, FirstUnsupported, Without, Known, Level, Inline, Lookup, Normalize,
         BadSibling, ReferenceFault, FollowReference, HasConstraints, SchemaMeaning.Target;
    assert path[|path|..] == [] && (path + [Ref])[|path|..] == [Ref];
    var reference := NodeOf(d).reference.value;
    ReferenceUnfold(d, cx, path, resolving);
    match FollowReference(reference, cx, path + [Ref], resolving)
    case Err(fault) =>
      FollowFaults(reference, cx, path + [Ref], resolving);
      BlamesThere(cx, d, [Ref], fault.reason, resolving, n);
    case Ok(next) =>
      FollowedTarget(cx, d, path, resolving, next);
      assert Known(Obj(next.target), cx) && Level(cx, resolving + [next.pointer], IsFree(Obj(next.target))) < Level(cx, resolving, IsFree(Obj(d)))
             && Remaining(cx, resolving + [next.pointer]) < Remaining(cx, resolving) by { FollowingLowers(d, cx, path, resolving, next); }
      match Normalize(Obj(next.target), cx, path, resolving + [next.pointer])
      case Err(fault) =>
        FaultIsThere(Obj(next.target), cx, path, resolving + [next.pointer], n - 1);
        BlamesThere(cx, d, fault.path[|path|..], fault.reason, resolving, n);
      case Ok(resolved) =>
        if HasConstraints(Plain(d)) {
          SiblingFaults(d);
          BlamesThere(cx, d, [], ReferenceSiblings, resolving, n);
        } else {
          NormalizedIsNormal(Obj(next.target), cx, path, resolving + [next.pointer]);
          InlinedFaults(resolved, d, cx, path, resolving);
          var fault := Normalize(Obj(d), cx, path, resolving).error;
          AnnotationFaults(d, fault.path[|path|..], fault.reason);
          BlamesThere(cx, d, fault.path[|path|..], fault.reason, resolving, n);
        }
  }

  lemma AnnotationFaults(d: Dict, rest: seq<Key>, reason: Reason)
    requires BadValue(Last(Annotations(d)), rest, reason)
    ensures BadSibling(d, rest, reason)
  {
    hide BadValue, Last, Annotations;
  }

  lemma SiblingFaults(d: Dict)
    requires HasConstraints(Plain(d))
    ensures BadSibling(d, [], ReferenceSiblings)
  {
    hide BadValue, Without;
    var others := Without(Plain(d), ANNOTATIONS + DEFINITIONS);
    var f := others[0];
    assert f in others;
    assert f in Plain(d) && f.key !in ANNOTATIONS && f.key !in DEFINITIONS;
    assert f in d && f.key != Ref && f.key !in IGNORED;
  }

  /** The outcome for a reference, step by step. */
  lemma ReferenceUnfold(d: Dict, cx: Context, path: seq<Key>, resolving: seq<string>)
    requires Known(Obj(d), cx) && Refers(NodeOf(d)) && FirstUnsupported(Without(d, IGNORED)).None?
    ensures var follow := FollowReference(NodeOf(d).reference.value, cx, path + [Ref], resolving);
            follow.Err? ==> Normalize(Obj(d), cx, path, resolving) == Err(follow.error)
    ensures var follow := FollowReference(NodeOf(d).reference.value, cx, path + [Ref], resolving);
            follow.Ok? ==> Known(Obj(follow.value.target), cx)
    ensures var follow := FollowReference(NodeOf(d).reference.value, cx, path + [Ref], resolving);
            follow.Ok? ==>
              var inner := Normalize(Obj(follow.value.target), cx, path, resolving + [follow.value.pointer]);
              && (inner.Err? ==> Normalize(Obj(d), cx, path, resolving) == Err(inner.error))
              && (inner.Ok? && HasConstraints(Plain(d)) ==> Normalize(Obj(d), cx, path, resolving) == Err(Fault(path, ReferenceSiblings)))
              && (inner.Ok? && !HasConstraints(Plain(d)) ==>
                    && Known(Obj(Inline(inner.value, Plain(d))), cx) && !Refers(NodeOf(Inline(inner.value, Plain(d))))
                    && Normalize(Obj(d), cx, path, resolving) == NormalizeChildren(Inline(inner.value, Plain(d)), cx, path, resolving))
  {
    hide NormalizeChildren, IsFree, Plain, NodeOf, Level, Inline, Without, HasConstraints, Within, FollowReference, FirstUnsupported;
    var follow := FollowReference(NodeOf(d).reference.value, cx, path + [Ref], resolving);
    if follow.Ok? {
      var next := follow.value;
      FollowingLowersLevel(d, cx, resolving, next.pointer);
      var inner := Normalize(Obj(next.target), cx, path, resolving + [next.pointer]);
      if inner.Ok? {
        InlinedIsFree(inner.value, Plain(d));
      }
    }
  }

  lemma FollowFaults(reference: Json, cx: Context, path: seq<Key>, resolving: seq<string>)
    requires FollowReference(reference, cx, path, resolving).Err?
    ensures FollowReference(reference, cx, path, resolving).error.path == path
    ensures ReferenceFault(cx, reference, resolving, FollowReference(reference, cx, path, resolving).error.reason)
  {
    hide PointerOf;
  }

  lemma FollowingLowers(d: Dict, cx: Context, path: seq<Key>, resolving: seq<string>, next: Next)
    requires Known(Obj(d), cx) && Refers(NodeOf(d)) && FollowReference(NodeOf(d).reference.value, cx, path + [Ref], resolving) == Ok(next)
    ensures Known(Obj(next.target), cx)
    ensures Level(cx, resolving + [next.pointer], IsFree(Obj(next.target))) < Level(cx, resolving, IsFree(Obj(d)))
    ensures Remaining(cx, resolving + [next.pointer]) < Remaining(cx, resolving)
  {
    hide IsFree, NodeOf, Level, FollowReference, Remaining, Known;
    FollowingLowersLevel(d, cx, resolving, next.pointer);
  }

  lemma {:induction false} ChildrenFaults(d: Dict, cx: Context, path: seq<Key>, resolving: seq<string>, n: nat)
    requires Known(Obj(Plain(d)), cx) && !Refers(NodeOf(Plain(d))) && NormalizeChildren(Plain(d), cx, path, resolving).Err?
    requires !Refers(NodeOf(d)) && n >= Remaining(cx, resolving)
    ensures var fault := NormalizeChildren(Plain(d), cx, path, resolving).error;
            path <= fault.path && Blames(cx, Obj(d), fault.path[|path|..], fault.reason, resolving, n)
    decreases Level(cx, resolving, IsFree(Obj(Plain(d)))), DictSize(Plain(d)) + 1, 1
  {
    hide NodeOf, Normalize, NormalizeChildren, NormalizeMap, NormalizeValue, NormalizeAlternatives, Assemble, Finish, IsFree, Blames, Size,
         Plain, Known, FieldsKnown, ItemsKnown, Remaining, Level, OwnFault, BlamesPlace, FieldsBlame, ItemsBlame, Lookup, Under;
    var plain := Plain(d);
    var node := NodeOf(plain);
    ghost var free := IsFree(Obj(plain));
    NodeSmaller(plain);
    PlainLookups(d);
    ChildrenSteps(plain, cx, path, resolving);
    LevelOf(cx, resolving, node, free);
    var fault := NormalizeChildren(plain, cx, path, resolving).error;
    var p := NormalizeMap(node.properties, cx, path + [Properties], resolving, free);
    var i := NormalizeValue(node.items, cx, path + [Items], resolving, free);
    var a := if node.additional.Some? && node.additional.value.Bool? then Ok(None)
             else NormalizeValue(node.additional, cx, path + [AdditionalProperties], resolving, free);
    var o := NormalizeAlternatives(node.alternatives, cx, path + [AnyOf], resolving, free);
    if p.Err? {
      MapFaults(d, cx, path, resolving, n);
    } else if i.Err? {
      ValueFaults(node.items, Items, cx, path, resolving, free, n);
      UnderPath(path, Items, fault);
      BlamesValue(cx, NodeOf(d), Items, fault.path[|path|..], fault.reason, resolving, n);
    } else if a.Err? {
      ValueFaults(node.additional, AdditionalProperties, cx, path, resolving, free, n);
      UnderPath(path, AdditionalProperties, fault);
      BlamesValue(cx, NodeOf(d), AdditionalProperties, fault.path[|path|..], fault.reason, resolving, n);
    } else if o.Err? {
      ListFaults(d, cx, path, resolving, n);
    } else {
      assert SchemaMeaning.Rewritten(plain, p.value, i.value, a.value, o.value) by { PassesWrite(plain, cx, path, resolving); }
      FinishFaults(d, p.value, i.value, a.value, o.value, path);
    }
    if path <= fault.path && (OwnFault(d, fault.path[|path|..], fault.reason) ||
                              BlamesPlace(cx, NodeOf(d), fault.path[|path|..], fault.reason, resolving, n)) {
      BlamesHere(cx, d, fault.path[|path|..], fault.reason, resolving, n);
    }
  }

  /** A pass writes only where something was. */
  lemma PassesWrite(d: Dict, cx: Context, path: seq<Key>, resolving: seq<string>)
    requires Known(Obj(d), cx) && !Refers(NodeOf(d)) && NodeKnown(NodeOf(d), cx, IsFree(Obj(d)))
    ensures var node := NodeOf(d);
            var free := IsFree(Obj(d));
            var p := NormalizeMap(node.properties, cx, path + [Properties], resolving, free);
            var i := NormalizeValue(node.items, cx, path + [Items], resolving, free);
            var a := if node.additional.Some? && node.additional.value.Bool? then Ok(None)
                     else NormalizeValue(node.additional, cx, path + [AdditionalProperties], resolving, free);
            var o := NormalizeAlternatives(node.alternatives, cx, path + [AnyOf], resolving, free);
            p.Ok? && i.Ok? && a.Ok? && o.Ok? ==> SchemaMeaning.Rewritten(d, p.value, i.value, a.value, o.value)
  {
    hide NodeOf, Normalize, NormalizeFields, NormalizeItems, IsFree, Known, FieldsKnown, ItemsKnown;
  }

  lemma BlamesValue(cx: Context, node: Node, k: Key, rest: seq<Key>, reason: Reason, resolving: seq<string>, n: nat)
    requires (k == Items && node.items.Some? && rest != [] && Blames(cx, node.items.value, rest[1..], reason, resolving, n)) ||
             (k == AdditionalProperties && node.additional.Some? && !node.additional.value.Bool? && rest != [] &&
              Blames(cx, node.additional.value, rest[1..], reason, resolving, n))
    requires rest[0] == k
    ensures BlamesPlace(cx, node, rest, reason, resolving, n)
  {
    hide Blames;
  }

  lemma {:induction false} ValueFaults(v: Option<Json>, k: Key, cx: Context, path: seq<Key>, resolving: seq<string>, free: bool, n: nat)
    requires v.Some? ==> Known(v.value, cx) && (free ==> IsFree(v.value))
    requires NormalizeValue(v, cx, path + [k], resolving, free).Err? && n >= Remaining(cx, resolving)
    ensures var fault := NormalizeValue(v, cx, path + [k], resolving, free).error;
            v.Some? && Under(path, k, fault) && Blames(cx, v.value, fault.path[|path| + 1..], fault.reason, resolving, n)
    decreases Level(cx, resolving, free), if v.Some? then Size(v.value) else 0, 3
  {
    hide Normalize, Blames, Remaining, Known, IsFree;
    FaultIsThere(v.value, cx, path + [k], resolving, n);
  }

  lemma {:induction false} MapFaults(d: Dict, cx: Context, path: seq<Key>, resolving: seq<string>, n: nat)
    requires NodeKnown(NodeOf(Plain(d)), cx, IsFree(Obj(Plain(d)))) && n >= Remaining(cx, resolving)
    requires NormalizeMap(NodeOf(Plain(d)).properties, cx, path + [Properties], resolving, IsFree(Obj(Plain(d)))).Err?
    ensures var fault := NormalizeMap(NodeOf(Plain(d)).properties, cx, path + [Properties], resolving, IsFree(Obj(Plain(d)))).error;
            path <= fault.path &&
            (OwnFault(d, fault.path[|path|..], fault.reason) || BlamesPlace(cx, NodeOf(d), fault.path[|path|..], fault.reason, resolving, n))
    decreases Level(cx, resolving, IsFree(Obj(Plain(d)))), DictSize(Plain(d)), 4
  {
    hide Normalize, NormalizeFields, Blames, FieldsBlame, Remaining, Known, IsFree, Plain, BadValue, TypeFits, Size, DictSize;
    PlainLookups(d);
    NodeSmaller(Plain(d));
    var v := NodeOf(Plain(d)).properties;
    assert (path + [Properties])[|path|..] == [Properties];
    if v.value.Obj? {
      FieldFaults(v.value.fields, cx, path + [Properties], resolving, IsFree(Obj(Plain(d))), n);
      var fault := NormalizeFields(v.value.fields, cx, path + [Properties], resolving, IsFree(Obj(Plain(d)))).error;
      UnderPath(path, Properties, fault);
    }
  }

  lemma {:induction false} FieldFaults(fields: Dict, cx: Context, path: seq<Key>, resolving: seq<string>, free: bool, n: nat)
    requires FieldsKnown(fields, cx, free) && NormalizeFields(fields, cx, path, resolving, free).Err? && n >= Remaining(cx, resolving)
    ensures var fault := NormalizeFields(fields, cx, path, resolving, free).error;
            path <= fault.path && FieldsBlame(cx, fields, fault.path[|path|..], fault.reason, resolving, n)
    decreases Level(cx, resolving, free), DictSize(fields), 3
  {
    hide Normalize, Blames, Remaining, Known, IsFree;
    var first := Normalize(fields[0].val, cx, path + [fields[0].key], resolving);
    if first.Err? {
      FaultIsThere(fields[0].val, cx, path + [fields[0].key], resolving, n);
      UnderPath(path, fields[0].key, first.error);
    } else {
      FieldFaults(fields[1..], cx, path, resolving, free, n);
    }
  }

  lemma {:induction false} ListFaults(d: Dict, cx: Context, path: seq<Key>, resolving: seq<string>, n: nat)
    requires NodeKnown(NodeOf(Plain(d)), cx, IsFree(Obj(Plain(d)))) && n >= Remaining(cx, resolving)
    requires NormalizeAlternatives(NodeOf(Plain(d)).alternatives, cx, path + [AnyOf], resolving, IsFree(Obj(Plain(d)))).Err?
    ensures var fault := NormalizeAlternatives(NodeOf(Plain(d)).alternatives, cx, path + [AnyOf], resolving, IsFree(Obj(Plain(d)))).error;
            path <= fault.path &&
            (OwnFault(d, fault.path[|path|..], fault.reason) || BlamesPlace(cx, NodeOf(d), fault.path[|path|..], fault.reason, resolving, n))
    decreases Level(cx, resolving, IsFree(Obj(Plain(d)))), DictSize(Plain(d)), 4
  {
    hide Normalize, NormalizeItems, Blames, ItemsBlame, Remaining, Known, IsFree, Plain, BadValue, TypeFits, Size, DictSize;
    PlainLookups(d);
    NodeSmaller(Plain(d));
    var v := NodeOf(Plain(d)).alternatives;
    assert (path + [AnyOf])[|path|..] == [AnyOf];
    if v.value.Arr? && v.value.items != [] {
      ItemFaults(v.value.items, 0, cx, path + [AnyOf], resolving, IsFree(Obj(Plain(d))), n);
      var fault := NormalizeItems(v.value.items, 0, cx, path + [AnyOf], resolving, IsFree(Obj(Plain(d)))).error;
      UnderPath(path, AnyOf, fault);
    }
  }

  lemma {:induction false} ItemFaults(items: seq<Json>, index: nat, cx: Context, path: seq<Key>, resolving: seq<string>, free: bool, n: nat)
    requires ItemsKnown(items, cx, free) && NormalizeItems(items, index, cx, path, resolving, free).Err? && n >= Remaining(cx, resolving)
    ensures var fault := NormalizeItems(items, index, cx, path, resolving, free).error;
            path <= fault.path && ItemsBlame(cx, items, index, fault.path[|path|..], fault.reason, resolving, n)
    decreases Level(cx, resolving, free), ItemsSize(items), 3, |items|
  {
    hide Normalize, Blames, Remaining, Known, IsFree;
    var name := Name(Text.ToDecimal(index));
    var first := Normalize(items[0], cx, path + [name], resolving);
    if first.Err? {
      FaultIsThere(items[0], cx, path + [name], resolving, n);
      UnderPath(path, name, first.error);
    } else {
      ItemFaults(items[1..], index + 1, cx, path, resolving, free, n);
    }
  }

  /** A refused tool schema has the fault it is refused for: at its root, or where the path
      leads. */
  lemma ToolFaultIsThere(schema: Json, unquote: string -> Option<string>)
    requires NormalizeTool(schema, unquote).Err?
    ensures var cx := Context(schema, unquote, KeyOf);
            var fault := NormalizeTool(schema, unquote).error;
            var n := Remaining(cx, []);
            || (fault == Fault([Type], RootNotObject) && schema.Obj? && Fits(cx, schema, n)
                && Written(cx, schema.fields, Type, n) != Some(Str("object")))
            || Blames(cx, schema, fault.path, fault.reason, [], n)
  {
    hide Normalize, Blames, Fits, Written, Known, Remaining, Lookup;
    var cx := Context(schema, unquote, KeyOf);
    var n := Remaining(cx, []);
    assert Known(schema, cx) by { SchemaMeaning.WholeIsKnown(cx); }
    if !schema.Obj? {
      NotAnObjectFaults(schema, cx, [], [], n);
    } else if Normalize(schema, cx, [], []).Err? {
      FaultIsThere(schema, cx, [], [], n);
      var fault := Normalize(schema, cx, [], []).error;
      assert fault.path[0..] == fault.path;
    } else {
      NormalizedFits(schema, cx, [], [], n);
      KeywordsAreWritten(schema, cx, [], [], Type, n);
    }
  }
}
