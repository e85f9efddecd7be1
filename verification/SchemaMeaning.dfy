/** What schemas accept, and that the normaliser keeps it: the normalised schema
    accepts exactly the instances that the original accepts with its references
    resolved and with the types the normaliser infers enforced. */
module SchemaMeaning {
  import opened Wrappers
  import opened Json
  import opened SchemaNormalizer
  import opened SchemaShape
  import JsonPointer
  import Text

  /** The document, and the two keywords whose meaning is left open. */
  datatype Reading = Reading(cx: Context, matches: (string, string) -> bool, conforms: (string, string) -> bool)

  // ---- Keywords that do not lead to other schemas ----

  predicate HasType(inst: Json, t: string) {
    match inst
    case Null => t == "null"
    case Bool(_) => t == "boolean"
    case Int(_) => t == "integer" || t == "number"
    case Float(r) => t == "number" || (t == "integer" && r.Floor as real == r)
    case Str(_) => t == "string"
    case Arr(_) => t == "array"
    case Obj(_) => t == "object"
  }

  predicate TypeAccepts(v: Option<Json>, inst: Json) {
    match v
    case Some(Str(t)) => HasType(inst, t)
    case Some(Arr(ts)) => exists t :: t in ts && t.Str? && HasType(inst, t.s)
    case _ => true
  }

  predicate EnumAccepts(v: Option<Json>, inst: Json) {
    v.Some? && v.value.Arr? ==> inst in v.value.items
  }

  predicate RequiredAccepts(v: Option<Json>, inst: Json, keyOf: string -> Key) {
    v.Some? && v.value.Arr? && inst.Obj? ==>
      forall name :: name in v.value.items && name.Str? ==> Has(inst.fields, keyOf(name.s))
  }

  predicate CountAccepts(low: Option<Json>, high: Option<Json>, n: nat) {
    && (low.Some? && low.value.Int? ==> low.value.i <= n)
    && (high.Some? && high.value.Int? ==> n <= high.value.i)
  }

  predicate SizeAccepts(d: Dict, inst: Json) {
    match inst
    case Str(s) => CountAccepts(Lookup(d, MinLength), Lookup(d, MaxLength), |s|)
    case Arr(items) => CountAccepts(Lookup(d, MinItems), Lookup(d, MaxItems), |items|)
    case Obj(fields) => CountAccepts(Lookup(d, MinProperties), Lookup(d, MaxProperties), |fields|)
    case _ => true
  }

  function NumberOf(j: Json): Option<real> {
    match j
    case Int(i) => Some(i as real)
    case Float(r) => Some(r)
    case _ => None
  }

  predicate AtMost(low: Option<Json>, high: Option<Json>) {
    low.Some? && high.Some? && NumberOf(low.value).Some? && NumberOf(high.value).Some? ==>
      NumberOf(low.value).value <= NumberOf(high.value).value
  }

  predicate TextAccepts(v: Option<Json>, inst: Json, test: (string, string) -> bool) {
    v.Some? && v.value.Str? && inst.Str? ==> test(v.value.s, inst.s)
  }

  /** All of them together. A keyword whose value has no meaning asks for nothing. */
  predicate Constraints(r: Reading, d: Dict, inst: Json) {
    && TypeAccepts(Lookup(d, Type), inst)
    && EnumAccepts(Lookup(d, Enum), inst)
    && RequiredAccepts(Lookup(d, Required), inst, r.cx.keyOf)
    && SizeAccepts(d, inst)
    && AtMost(Lookup(d, Minimum), Some(inst)) && AtMost(Some(inst), Lookup(d, Maximum))
    && TextAccepts(Lookup(d, Pattern), inst, r.matches)
    && TextAccepts(Lookup(d, Format), inst, r.conforms)
  }

  predicate IsConstraint(k: Key) {
    k in {Type, Enum, Required, MinLength, MaxLength, MinItems, MaxItems, MinProperties, MaxProperties,
          Minimum, Maximum, Pattern, Format}
  }

  /** A node that declares neither a type nor alternatives nor refers elsewhere. */
  predicate Untyped(d: Dict) { !Refers(NodeOf(d)) && !Has(d, Type) && !Has(d, AnyOf) }

  /** What such a node implies: that it describes properties, or items, or names strings. */
  predicate ImpliedAccepts(d: Dict, inst: Json) {
    Untyped(d) ==>
      if Has(d, Properties) || Has(d, AdditionalProperties) then inst.Obj?
      else if Has(d, Items) then inst.Arr?
      else Has(d, Enum) ==> inst.Str?
  }

  // ---- Schemas ----

  /** Whether a schema accepts an instance when at most `fuel` references are
      followed on the way down. With `strict` the implied types count too. */
  predicate Accepts(r: Reading, strict: bool, schema: Json, inst: Json, fuel: nat)
    decreases fuel, Size(schema), 1
  {
    match schema
    case Bool(b) => b
    case Obj(d) =>
      var node := NodeOf(d);
      NodeSmaller(d);
      && Constraints(r, d, inst)
      && (strict ==> ImpliedAccepts(d, inst))
      && (Refers(node) ==> fuel > 0 && match Target(r.cx, node)
            case Some(target) => Accepts(r, strict, Obj(target), inst, fuel - 1)
            case None => false)
      && (node.properties.Some? && node.properties.value.Obj? && inst.Obj? ==>
            AcceptsFields(r, strict, node.properties.value.fields, inst.fields, fuel))
      && (node.items.Some? && inst.Arr? ==>
            forall v :: v in inst.items ==> Accepts(r, strict, node.items.value, v, fuel))
      && (node.additional.Some? && inst.Obj? ==>
            forall f :: f in inst.fields && !Described(node, f.key) ==> Accepts(r, strict, node.additional.value, f.val, fuel))
      && (node.alternatives.Some? && node.alternatives.value.Arr? ==>
            AcceptsOne(r, strict, node.alternatives.value.items, inst, fuel))
    case _ => true
  }

  predicate AcceptsFields(r: Reading, strict: bool, fields: Dict, inst: Dict, fuel: nat)
    decreases fuel, DictSize(fields), 2
  {
    fields == [] || (
      && (Has(inst, fields[0].key) ==> Accepts(r, strict, fields[0].val, Lookup(inst, fields[0].key).value, fuel))
      && AcceptsFields(r, strict, fields[1..], inst, fuel))
  }

  predicate AcceptsOne(r: Reading, strict: bool, items: seq<Json>, inst: Json, fuel: nat)
    decreases fuel, ItemsSize(items), 2, |items|
  {
    items != [] && (Accepts(r, strict, items[0], inst, fuel) || AcceptsOne(r, strict, items[1..], inst, fuel))
  }

  /** The schema a reference denotes. */
  function Target(cx: Context, node: Node): Option<Dict>
    requires Refers(node)
  {
    match PointerOf(node.reference.value, cx.unquote)
    case Err(_) => None
    case Ok(pointer) => match JsonPointer.Resolve(cx.doc, pointer, cx.keyOf)
      case Err(_) => None
      case Ok(target) => Some(target)
  }

  predicate Described(node: Node, k: Key) {
    node.properties.Some? && node.properties.value.Obj? && Has(node.properties.value.fields, k)
  }

  // ---- The parts of one node ----

  predicate OnReference(r: Reading, strict: bool, node: Node, inst: Json, fuel: nat) {
    Refers(node) ==> fuel > 0 && match Target(r.cx, node)
      case Some(target) => Accepts(r, strict, Obj(target), inst, fuel - 1)
      case None => false
  }

  predicate OnProperties(r: Reading, strict: bool, node: Node, inst: Json, fuel: nat) {
    node.properties.Some? && node.properties.value.Obj? && inst.Obj? ==>
      AcceptsFields(r, strict, node.properties.value.fields, inst.fields, fuel)
  }

  predicate OnItems(r: Reading, strict: bool, node: Node, inst: Json, fuel: nat) {
    node.items.Some? && inst.Arr? ==> forall v :: v in inst.items ==> Accepts(r, strict, node.items.value, v, fuel)
  }

  predicate OnAdditional(r: Reading, strict: bool, node: Node, inst: Json, fuel: nat) {
    node.additional.Some? && inst.Obj? ==>
      forall f :: f in inst.fields && !Described(node, f.key) ==> Accepts(r, strict, node.additional.value, f.val, fuel)
  }

  predicate OnAlternatives(r: Reading, strict: bool, node: Node, inst: Json, fuel: nat) {
    node.alternatives.Some? && node.alternatives.value.Arr? ==>
      AcceptsOne(r, strict, node.alternatives.value.items, inst, fuel)
  }

  predicate OnNode(r: Reading, strict: bool, node: Node, inst: Json, fuel: nat) {
    && OnReference(r, strict, node, inst, fuel) && OnProperties(r, strict, node, inst, fuel)
    && OnItems(r, strict, node, inst, fuel) && OnAdditional(r, strict, node, inst, fuel)
    && OnAlternatives(r, strict, node, inst, fuel)
  }

  lemma AcceptsObject(r: Reading, strict: bool, d: Dict, inst: Json, fuel: nat)
    ensures Accepts(r, strict, Obj(d), inst, fuel) <==>
              && Constraints(r, d, inst) && (strict ==> ImpliedAccepts(d, inst))
              && OnNode(r, strict, NodeOf(d), inst, fuel)
  {
    hide Constraints, ImpliedAccepts, NodeOf, Target, Size, AcceptsFields, AcceptsOne, Described;
  }

  lemma ConstraintsDependOn(r: Reading, a: Dict, b: Dict, inst: Json)
    requires forall k :: IsConstraint(k) ==> Lookup(a, k) == Lookup(b, k)
    ensures Constraints(r, a, inst) == Constraints(r, b, inst)
  {
    hide Lookup, TypeAccepts, EnumAccepts, RequiredAccepts, CountAccepts, AtMost, TextAccepts;
  }

  // ---- Normal schemas follow no reference and imply no type ----

  lemma {:induction false} NormalMeaning(r: Reading, j: Json, inst: Json, m: nat, n: nat)
    requires IsNormal(j)
    ensures Accepts(r, true, j, inst, m) == Accepts(r, false, j, inst, n)
    decreases Size(j), 1
  {
    hide Accepts, AcceptsFields, AcceptsOne, Constraints, NodeOf, NodeOk, Described, IsNormal;
    assert j.Obj? by { NormalIsObject(j); }
    var d := j.fields;
    var node := NodeOf(d);
    NodeSmaller(d);
    AcceptsObject(r, true, d, inst, m);
    AcceptsObject(r, false, d, inst, n);
    NormalNode(d);
    if node.properties.Some? && node.properties.value.Obj? && inst.Obj? {
      NormalFieldsMeaning(r, node.properties.value.fields, inst.fields, m, n);
    }
    if node.items.Some? && inst.Arr? {
      forall v | v in inst.items
        ensures Accepts(r, true, node.items.value, v, m) == Accepts(r, false, node.items.value, v, n)
      {
        NormalMeaning(r, node.items.value, v, m, n);
      }
    }
    if node.additional.Some? && inst.Obj? {
      forall f | f in inst.fields
        ensures Accepts(r, true, node.additional.value, f.val, m) == Accepts(r, false, node.additional.value, f.val, n)
      {
        if node.additional.value.Bool? {
          BooleanMeaning(r, node.additional.value.b, f.val, m, n);
        } else {
          NormalMeaning(r, node.additional.value, f.val, m, n);
        }
      }
    }
    if node.alternatives.Some? && node.alternatives.value.Arr? {
      NormalItemsMeaning(r, node.alternatives.value.items, inst, m, n);
    }
  }

  lemma BooleanMeaning(r: Reading, b: bool, inst: Json, m: nat, n: nat)
    ensures Accepts(r, true, Bool(b), inst, m) == b == Accepts(r, false, Bool(b), inst, n)
  {
  }

  /** What being normal says about one node. */
  lemma NormalNode(d: Dict)
    requires IsNormal(Obj(d))
    ensures !Refers(NodeOf(d)) && !Untyped(d)
    ensures var node := NodeOf(d);
            && (node.properties.Some? && node.properties.value.Obj? ==> NormalFields(node.properties.value.fields))
            && (node.items.Some? ==> IsNormal(node.items.value))
            && (node.additional.Some? && !node.additional.value.Bool? ==> IsNormal(node.additional.value))
            && (node.alternatives.Some? && node.alternatives.value.Arr? ==> NormalItems(node.alternatives.value.items))
  {
    hide NodeOf, KeywordFault, TypeOk, Lookup;
    NoReferenceIsKept(d);
  }

  lemma {:induction false} NormalFieldsMeaning(r: Reading, fields: Dict, inst: Dict, m: nat, n: nat)
    requires NormalFields(fields)
    ensures AcceptsFields(r, true, fields, inst, m) == AcceptsFields(r, false, fields, inst, n)
    decreases DictSize(fields), 2
  {
    hide Accepts, IsNormal;
    if fields != [] {
      if Has(inst, fields[0].key) {
        NormalMeaning(r, fields[0].val, Lookup(inst, fields[0].key).value, m, n);
      }
      NormalFieldsMeaning(r, fields[1..], inst, m, n);
    }
  }

  lemma {:induction false} NormalItemsMeaning(r: Reading, items: seq<Json>, inst: Json, m: nat, n: nat)
    requires NormalItems(items)
    ensures AcceptsOne(r, true, items, inst, m) == AcceptsOne(r, false, items, inst, n)
    decreases ItemsSize(items), 2, |items|
  {
    hide Accepts, IsNormal;
    if items != [] {
      NormalMeaning(r, items[0], inst, m, n);
      NormalItemsMeaning(r, items[1..], inst, m, n);
    }
  }

  // ---- Normalisation keeps meaning ----

  /** The normalised schema accepts what the original accepts strictly, as soon as
      as many references may be followed as there are pointers left to resolve. */
  lemma {:induction false} NormalizedMeaning(r: Reading, schema: Json, path: seq<Key>, resolving: seq<string>,
                                             inst: Json, n: nat)
    requires Known(schema, r.cx) && Normalize(schema, r.cx, path, resolving).Ok?
    requires n >= Remaining(r.cx, resolving)
    ensures Accepts(r, true, schema, inst, n) ==
            Accepts(r, false, Obj(Normalize(schema, r.cx, path, resolving).value), inst, n)
    decreases Level(r.cx, resolving, IsFree(schema)), Size(schema), 2
  {
    hide Normalize, NormalizeChildren, Accepts, IsFree, IsNormal, Known, Level, Plain, FollowReference, Inline, NodeOf, Remaining;
    var d := schema.fields;
    if !Refers(NodeOf(d)) {
      PlainStep(schema, r.cx, path, resolving);
      PlainMeaning(r, d, inst, n);
      ChildrenMeaning(r, Plain(d), path, resolving, inst, n);
    } else {
      var next := ReferenceStep(schema, r.cx, path, resolving);
      var resolved := Normalize(Obj(next.target), r.cx, path, resolving + [next.pointer]).value;
      FollowedShrinks(schema, r.cx, path, resolving, next);
      NormalizedMeaning(r, Obj(next.target), path, resolving + [next.pointer], inst, n - 1);
      NormalizedIsNormal(Obj(next.target), r.cx, path, resolving + [next.pointer]);
      ReferenceMeaning(r, d, path, resolving, next, inst, n);
      NormalMeaning(r, Obj(resolved), inst, n, n - 1);
      InlinedMeaning(r, resolved, Plain(d), inst, n);
      ChildrenMeaning(r, Inline(resolved, Plain(d)), path, resolving, inst, n);
    }
  }

  lemma FollowedShrinks(schema: Json, cx: Context, path: seq<Key>, resolving: seq<string>, next: Next)
    requires schema.Obj? && Known(schema, cx) && Refers(NodeOf(schema.fields))
    requires FollowReference(NodeOf(schema.fields).reference.value, cx, path + [Ref], resolving) == Ok(next)
    ensures Remaining(cx, resolving + [next.pointer]) < Remaining(cx, resolving)
  {
    hide FollowReference, IsFree, Within, Remaining;
    FollowingLowersLevel(schema.fields, cx, resolving, next.pointer);
  }

  /** Ignored annotations and a null `$ref` mean nothing. */
  lemma PlainMeaning(r: Reading, d: Dict, inst: Json, n: nat)
    requires !Refers(NodeOf(d))
    ensures Accepts(r, true, Obj(d), inst, n) == Accepts(r, true, Obj(Plain(d)), inst, n)
  {
    hide Accepts, Constraints, ImpliedAccepts, NodeOf, Plain, OnNode;
    AcceptsObject(r, true, d, inst, n);
    AcceptsObject(r, true, Plain(d), inst, n);
    assert NodeOf(Plain(d)) == NodeOf(d).(reference := None) by { NodeOfPlainDict(d); }
    PlainConstrains(r, d, inst);
    PlainImplies(d, inst);
    NodeWithoutReference(r, NodeOf(d), inst, n);
  }

  lemma NodeOfPlainDict(d: Dict)
    ensures NodeOf(Plain(d)) == NodeOf(d).(reference := None)
  {
    hide NodeOf, Without;
    NodeOfPlain(d);
  }

  lemma PlainConstrains(r: Reading, d: Dict, inst: Json)
    ensures Constraints(r, d, inst) == Constraints(r, Plain(d), inst)
  {
    hide Without, Lookup, Constraints;
    ConstraintsDependOn(r, d, Plain(d), inst);
  }

  lemma PlainImplies(d: Dict, inst: Json)
    requires !Refers(NodeOf(d))
    ensures ImpliedAccepts(d, inst) == ImpliedAccepts(Plain(d), inst)
  {
    hide Without, Lookup, HasType;
  }

  lemma NodeWithoutReference(r: Reading, node: Node, inst: Json, n: nat)
    requires !Refers(node)
    ensures OnNode(r, true, node, inst, n) == OnNode(r, true, node.(reference := None), inst, n)
  {
    hide Accepts, AcceptsFields, AcceptsOne;
  }

  /** Annotations mean nothing. */
  lemma AnnotatedMeaning(r: Reading, d: Dict, annotations: Dict, inst: Json, n: nat)
    requires forall f :: f in annotations ==> f.key in ANNOTATIONS
    ensures Accepts(r, true, Obj(Update(d, annotations)), inst, n) == Accepts(r, true, Obj(d), inst, n)
  {
    hide Accepts, AcceptsFields, AcceptsOne, Constraints, NodeOf, Update, Last, Lookup, OnNode, HasType;
    var u := Update(d, annotations);
    AcceptsObject(r, true, d, inst, n);
    AcceptsObject(r, true, u, inst, n);
    NodeOfAnnotated(d, annotations);
    OnlyAnnotations(annotations);
    assert forall k :: k !in ANNOTATIONS ==> Lookup(u, k) == Lookup(d, k);
    ConstraintsDependOn(r, d, u, inst);
  }

  lemma InlinedMeaning(r: Reading, d: Dict, plain: Dict, inst: Json, n: nat)
    ensures Accepts(r, true, Obj(Inline(d, plain)), inst, n) == Accepts(r, true, Obj(d), inst, n)
  {
    hide Accepts, Update, Annotations;
    AnnotatedMeaning(r, d, Annotations(plain), inst, n);
  }

  /** A reference without constraints beside it means what it refers to. */
  lemma ReferenceMeaning(r: Reading, d: Dict, path: seq<Key>, resolving: seq<string>, next: Next, inst: Json, n: nat)
    requires Refers(NodeOf(d)) && n > 0
    requires FollowReference(NodeOf(d).reference.value, r.cx, path + [Ref], resolving) == Ok(next)
    requires forall f :: f in Plain(d) ==> f.key in ANNOTATIONS + DEFINITIONS
    ensures Accepts(r, true, Obj(d), inst, n) == Accepts(r, true, Obj(next.target), inst, n - 1)
  {
    hide Accepts, Constraints, FollowReference, Plain, NodeOf;
    AcceptsObject(r, true, d, inst, n);
    ReferenceConstrains(r, d, inst);
    OnlyReference(d);
  }

  lemma NothingConstrains(r: Reading, inst: Json)
    ensures Constraints(r, [], inst)
  {
  }

  lemma PlainLookup(d: Dict, k: Key)
    requires forall f :: f in Plain(d) ==> f.key in ANNOTATIONS + DEFINITIONS
    requires k != Ref && k !in IGNORED && k !in ANNOTATIONS && k !in DEFINITIONS
    ensures Lookup(d, k) == None
  {
    hide Lookup, Without;
    assert Lookup(Plain(d), k) == Lookup(d, k);
    if Has(d, k) {
      LookupIsField(Plain(d), k);
    }
  }

  lemma OnlyReference(d: Dict)
    requires forall f :: f in Plain(d) ==> f.key in ANNOTATIONS + DEFINITIONS
    ensures NodeOf(d) == Node(NodeOf(d).reference, None, None, None, None)
  {
    hide Lookup, Plain;
    PlainLookup(d, Properties);
    PlainLookup(d, Items);
    PlainLookup(d, AdditionalProperties);
    PlainLookup(d, AnyOf);
  }

  lemma ReferenceConstrains(r: Reading, d: Dict, inst: Json)
    requires forall f :: f in Plain(d) ==> f.key in ANNOTATIONS + DEFINITIONS
    ensures Constraints(r, d, inst)
  {
    hide Plain, Constraints;
    forall k | IsConstraint(k) ensures Lookup(d, k) == Lookup([], k) {
      hide Lookup;
      PlainLookup(d, k);
      EmptyLookup(k);
    }
    ConstraintsDependOn(r, d, [], inst);
    NothingConstrains(r, inst);
  }

  lemma EmptyLookup(k: Key)
    ensures Lookup([], k) == None
  {
  }

  /** The child passes and the checks keep meaning, and write the implied type. */
  lemma {:induction false} ChildrenMeaning(r: Reading, d: Dict, path: seq<Key>, resolving: seq<string>, inst: Json, n: nat)
    requires Known(Obj(d), r.cx) && !Refers(NodeOf(d)) && NormalizeChildren(d, r.cx, path, resolving).Ok?
    requires n >= Remaining(r.cx, resolving)
    ensures Accepts(r, true, Obj(d), inst, n) ==
            Accepts(r, false, Obj(NormalizeChildren(d, r.cx, path, resolving).value), inst, n)
    decreases Level(r.cx, resolving, IsFree(Obj(d))), DictSize(d) + 1, 1
  {
    hide NodeOf, Normalize, NormalizeChildren, NormalizeMap, NormalizeValue, NormalizeAlternatives, IsFree, Accepts, Assemble, Finish, Size, Known, FieldsKnown, ItemsKnown, Remaining;
    hide OnReference, Described;
    hide OnProperties, OnItems, OnAdditional, OnAlternatives;
    var cx := r.cx;
    var node := NodeOf(d);
    ghost var free := IsFree(Obj(d));
    ChildrenSteps(d, cx, path, resolving);
    var properties := NormalizeMap(node.properties, cx, path + [Properties], resolving, free).value;
    var items := NormalizeValue(node.items, cx, path + [Items], resolving, free).value;
    var additional :=
      if node.additional.Some? && node.additional.value.Bool? then None
      else NormalizeValue(node.additional, cx, path + [AdditionalProperties], resolving, free).value;
    var alternatives := NormalizeAlternatives(node.alternatives, cx, path + [AnyOf], resolving, free).value;
    OnPropertiesMeaning(r, d, path, resolving, inst, n);
    OnItemsMeaning(r, d, path, resolving, inst, n);
    OnAdditionalMeaning(r, d, path, resolving, inst, n);
    OnAlternativesMeaning(r, d, path, resolving, inst, n);
    PassesRewrite(d, cx, path, resolving);
    var after := Node(node.reference, Or(properties, node.properties), Or(items, node.items),
                      Or(additional, node.additional), Or(alternatives, node.alternatives));
    assert OnNode(r, true, node, inst, n) == OnNode(r, false, after, inst, n) by {
      NodeAgrees(r, node, after, inst, n);
    }
    NodeOfAssembled(d, properties, items, additional, alternatives);
    FinishedMeaning(r, d, properties, items, additional, alternatives, path, inst, n);
  }

  lemma NodeAgrees(r: Reading, node: Node, after: Node, inst: Json, n: nat)
    requires !Refers(node) && after.reference == node.reference
    requires OnProperties(r, true, node, inst, n) == OnProperties(r, false, Node(None, after.properties, None, None, None), inst, n)
    requires OnItems(r, true, node, inst, n) == OnItems(r, false, Node(None, None, after.items, None, None), inst, n)
    requires OnAdditional(r, true, node, inst, n) ==
             OnAdditional(r, false, Node(None, after.properties, None, after.additional, None), inst, n)
    requires OnAlternatives(r, true, node, inst, n) == OnAlternatives(r, false, Node(None, None, None, None, after.alternatives), inst, n)
    ensures OnNode(r, true, node, inst, n) == OnNode(r, false, after, inst, n)
  {
    hide Accepts, AcceptsFields, AcceptsOne;
  }

  /** A pass writes only under a keyword that is there. */
  lemma PassesRewrite(d: Dict, cx: Context, path: seq<Key>, resolving: seq<string>)
    requires Known(Obj(d), cx) && !Refers(NodeOf(d)) && NormalizeChildren(d, cx, path, resolving).Ok?
    ensures var node := NodeOf(d);
            var free := IsFree(Obj(d));
            && NodeKnown(node, cx, free)
            && Rewritten(d, NormalizeMap(node.properties, cx, path + [Properties], resolving, free).value,
                         NormalizeValue(node.items, cx, path + [Items], resolving, free).value,
                         if node.additional.Some? && node.additional.value.Bool? then None
                         else NormalizeValue(node.additional, cx, path + [AdditionalProperties], resolving, free).value,
                         NormalizeAlternatives(node.alternatives, cx, path + [AnyOf], resolving, free).value)
  {
    hide NodeOf, Normalize, NormalizeChildren, NormalizeFields, NormalizeItems, IsFree, Assemble, Finish, Size, Known, FieldsKnown, ItemsKnown, Remaining;
    ChildrenSteps(d, cx, path, resolving);
  }

  lemma {:induction false} OnPropertiesMeaning(r: Reading, d: Dict, path: seq<Key>, resolving: seq<string>, inst: Json, n: nat)
    requires NodeKnown(NodeOf(d), r.cx, IsFree(Obj(d))) && n >= Remaining(r.cx, resolving)
    requires NormalizeMap(NodeOf(d).properties, r.cx, path + [Properties], resolving, IsFree(Obj(d))).Ok?
    ensures var result := NormalizeMap(NodeOf(d).properties, r.cx, path + [Properties], resolving, IsFree(Obj(d))).value;
            OnProperties(r, true, NodeOf(d), inst, n) ==
            OnProperties(r, false, Node(None, Or(result, NodeOf(d).properties), None, None, None), inst, n)
    decreases Level(r.cx, resolving, IsFree(Obj(d))), DictSize(d) + 1, 0
  {
    hide NodeOf, NormalizeFields, IsFree, Accepts, AcceptsFields, Size, Known, Remaining;
    NodeSmaller(d);
    var v := NodeOf(d).properties;
    if v.Some? && v.value.Obj? && inst.Obj? {
      FieldsMeaning(r, v.value.fields, path + [Properties], resolving, IsFree(Obj(d)), inst.fields, n);
    }
  }

  lemma {:induction false} OnItemsMeaning(r: Reading, d: Dict, path: seq<Key>, resolving: seq<string>, inst: Json, n: nat)
    requires NodeKnown(NodeOf(d), r.cx, IsFree(Obj(d))) && n >= Remaining(r.cx, resolving)
    requires NormalizeValue(NodeOf(d).items, r.cx, path + [Items], resolving, IsFree(Obj(d))).Ok?
    ensures var result := NormalizeValue(NodeOf(d).items, r.cx, path + [Items], resolving, IsFree(Obj(d))).value;
            OnItems(r, true, NodeOf(d), inst, n) ==
            OnItems(r, false, Node(None, None, Or(result, NodeOf(d).items), None, None), inst, n)
    decreases Level(r.cx, resolving, IsFree(Obj(d))), DictSize(d) + 1, 0
  {
    hide NodeOf, Normalize, IsFree, Accepts, Size, Known, Remaining;
    NodeSmaller(d);
    var v := NodeOf(d).items;
    if v.Some? && inst.Arr? {
      var result := NormalizeValue(v, r.cx, path + [Items], resolving, IsFree(Obj(d))).value;
      forall w | w in inst.items ensures Accepts(r, true, v.value, w, n) == Accepts(r, false, result.value, w, n) {
        NormalizedMeaning(r, v.value, path + [Items], resolving, w, n);
      }
    }
  }

  lemma {:induction false} OnAdditionalMeaning(r: Reading, d: Dict, path: seq<Key>, resolving: seq<string>, inst: Json, n: nat)
    requires NodeKnown(NodeOf(d), r.cx, IsFree(Obj(d))) && n >= Remaining(r.cx, resolving)
    requires NormalizeMap(NodeOf(d).properties, r.cx, path + [Properties], resolving, IsFree(Obj(d))).Ok?
    requires (NodeOf(d).additional.Some? && NodeOf(d).additional.value.Bool?) ||
             NormalizeValue(NodeOf(d).additional, r.cx, path + [AdditionalProperties], resolving, IsFree(Obj(d))).Ok?
    ensures var node := NodeOf(d);
            var properties := NormalizeMap(node.properties, r.cx, path + [Properties], resolving, IsFree(Obj(d))).value;
            var result := if node.additional.Some? && node.additional.value.Bool? then None
                          else NormalizeValue(node.additional, r.cx, path + [AdditionalProperties], resolving, IsFree(Obj(d))).value;
            OnAdditional(r, true, node, inst, n) ==
            OnAdditional(r, false, Node(None, Or(properties, node.properties), None, Or(result, node.additional), None), inst, n)
    decreases Level(r.cx, resolving, IsFree(Obj(d))), DictSize(d) + 1, 0
  {
    hide NodeOf, Normalize, NormalizeFields, IsFree, Accepts, Size, Known, Remaining;
    NodeSmaller(d);
    var node := NodeOf(d);
    if node.additional.Some? && inst.Obj? {
      forall f | f in inst.fields
        ensures node.properties.Some? && node.properties.value.Obj? ==>
                  Has(node.properties.value.fields, f.key) ==
                  Has(NormalizeFields(node.properties.value.fields, r.cx, path + [Properties], resolving, IsFree(Obj(d))).value, f.key)
        ensures if node.additional.value.Bool? then
                  Accepts(r, true, node.additional.value, f.val, n) == Accepts(r, false, node.additional.value, f.val, n)
                else
                  Accepts(r, true, node.additional.value, f.val, n) ==
                  Accepts(r, false, Obj(Normalize(node.additional.value, r.cx, path + [AdditionalProperties], resolving).value), f.val, n)
      {
        if node.properties.Some? && node.properties.value.Obj? {
          FieldsKeepKeys(node.properties.value.fields, r.cx, path + [Properties], resolving, IsFree(Obj(d)), f.key);
        }
        if node.additional.value.Bool? {
          BooleanMeaning(r, node.additional.value.b, f.val, n, n);
        } else {
          NormalizedMeaning(r, node.additional.value, path + [AdditionalProperties], resolving, f.val, n);
        }
      }
    }
  }

  lemma {:induction false} OnAlternativesMeaning(r: Reading, d: Dict, path: seq<Key>, resolving: seq<string>, inst: Json, n: nat)
    requires NodeKnown(NodeOf(d), r.cx, IsFree(Obj(d))) && n >= Remaining(r.cx, resolving)
    requires NormalizeAlternatives(NodeOf(d).alternatives, r.cx, path + [AnyOf], resolving, IsFree(Obj(d))).Ok?
    ensures var result := NormalizeAlternatives(NodeOf(d).alternatives, r.cx, path + [AnyOf], resolving, IsFree(Obj(d))).value;
            OnAlternatives(r, true, NodeOf(d), inst, n) ==
            OnAlternatives(r, false, Node(None, None, None, None, Or(result, NodeOf(d).alternatives)), inst, n)
    decreases Level(r.cx, resolving, IsFree(Obj(d))), DictSize(d) + 1, 0
  {
    hide NodeOf, NormalizeItems, IsFree, Accepts, AcceptsOne, Size, Known, Remaining;
    NodeSmaller(d);
    var v := NodeOf(d).alternatives;
    if v.Some? && v.value.Arr? {
      ItemsMeaning(r, v.value.items, 0, path + [AnyOf], resolving, IsFree(Obj(d)), inst, n);
    }
  }

  ghost predicate Rewritten(d: Dict, properties: Option<Json>, items: Option<Json>,
                            additional: Option<Json>, alternatives: Option<Json>) {
    var node := NodeOf(d);
    && (properties.Some? ==> node.properties.Some?) && (items.Some? ==> node.items.Some?)
    && (additional.Some? ==> node.additional.Some?) && (alternatives.Some? ==> node.alternatives.Some?)
  }

  lemma FinishedMeaning(r: Reading, d: Dict, properties: Option<Json>, items: Option<Json>,
                        additional: Option<Json>, alternatives: Option<Json>, path: seq<Key>, inst: Json, n: nat)
    requires !Refers(NodeOf(d)) && Rewritten(d, properties, items, additional, alternatives)
    requires Finish(Assemble(d, properties, items, additional, alternatives), path).Ok?
    requires var whole := Assemble(d, properties, items, additional, alternatives);
             OnNode(r, true, NodeOf(d), inst, n) == OnNode(r, false, NodeOf(whole), inst, n)
    ensures Accepts(r, true, Obj(d), inst, n) ==
            Accepts(r, false, Obj(Finish(Assemble(d, properties, items, additional, alternatives), path).value), inst, n)
  {
    hide Accepts, Constraints, ImpliedAccepts, OnNode, Finish, Assemble, NodeOf;
    var whole := Assemble(d, properties, items, additional, alternatives);
    var out := Finish(whole, path).value;
    AcceptsObject(r, true, d, inst, n);
    AcceptsObject(r, false, out, inst, n);
    NodeOfFinished(whole, path);
    AssembledConstraints(r, d, properties, items, additional, alternatives, inst);
    FinishedConstraints(r, whole, path, inst);
  }

  lemma AssembledConstraints(r: Reading, d: Dict, properties: Option<Json>, items: Option<Json>,
                             additional: Option<Json>, alternatives: Option<Json>, inst: Json)
    requires Rewritten(d, properties, items, additional, alternatives)
    ensures var whole := Assemble(d, properties, items, additional, alternatives);
            && Constraints(r, d, inst) == Constraints(r, whole, inst)
            && ImpliedAccepts(d, inst) == ImpliedAccepts(whole, inst)
            && Refers(NodeOf(whole)) == Refers(NodeOf(d))
  {
    hide Assemble, Constraints, Lookup, HasType;
    NodeOfAssembled(d, properties, items, additional, alternatives);
    ConstraintsDependOn(r, d, Assemble(d, properties, items, additional, alternatives), inst);
  }

  /** The checks change nothing but the type of an untyped node. */
  lemma FinishedConstraints(r: Reading, d: Dict, path: seq<Key>, inst: Json)
    requires Finish(d, path).Ok? && !Refers(NodeOf(d))
    ensures Constraints(r, Finish(d, path).value, inst) <==> Constraints(r, d, inst) && ImpliedAccepts(d, inst)
  {
    hide Lookup, Constraints, HasType, Finish, InferType, NodeOf, ImpliedAccepts;
    var out := Finish(d, path).value;
    FinishedLookup(d, path);
    ImpliedIsInferred(d, inst);
    if Untyped(d) {
      ConstraintsWithType(r, d, out, InferType(d).value, inst);
    } else {
      ConstraintsDependOn(r, d, out, inst);
    }
  }

  lemma ImpliedIsInferred(d: Dict, inst: Json)
    ensures !Untyped(d) ==> ImpliedAccepts(d, inst)
    ensures Untyped(d) && InferType(d).Some? ==> ImpliedAccepts(d, inst) == HasType(inst, InferType(d).value)
  {
    hide Lookup;
  }

  lemma FinishedLookup(d: Dict, path: seq<Key>)
    requires Finish(d, path).Ok? && !Refers(NodeOf(d))
    ensures var out := Finish(d, path).value;
            && (forall k :: IsConstraint(k) && (k != Type || !Untyped(d)) ==> Lookup(out, k) == Lookup(d, k))
            && (Untyped(d) ==> InferType(d).Some? && Lookup(out, Type) == Some(Str(InferType(d).value)))
  {
    hide Lookup, Without, Put, KeywordFault, InferType, NodeOf, TypeOk;
  }

  lemma ConstraintsWithType(r: Reading, d: Dict, out: Dict, t: string, inst: Json)
    requires Lookup(d, Type).None? && Lookup(out, Type) == Some(Str(t))
    requires forall k :: IsConstraint(k) && k != Type ==> Lookup(out, k) == Lookup(d, k)
    ensures Constraints(r, out, inst) <==> Constraints(r, d, inst) && HasType(inst, t)
  {
    hide Lookup, HasType, EnumAccepts, RequiredAccepts, CountAccepts, AtMost, TextAccepts;
  }

  lemma {:induction false} FieldsMeaning(r: Reading, fields: Dict, path: seq<Key>, resolving: seq<string>,
                                         free: bool, inst: Dict, n: nat)
    requires FieldsKnown(fields, r.cx, free) && NormalizeFields(fields, r.cx, path, resolving, free).Ok?
    requires n >= Remaining(r.cx, resolving)
    ensures AcceptsFields(r, true, fields, inst, n) ==
            AcceptsFields(r, false, NormalizeFields(fields, r.cx, path, resolving, free).value, inst, n)
    decreases Level(r.cx, resolving, free), DictSize(fields), 3
  {
    hide Accepts, Normalize, Lookup, Remaining;
    if fields != [] {
      if Has(inst, fields[0].key) {
        NormalizedMeaning(r, fields[0].val, path + [fields[0].key], resolving, Lookup(inst, fields[0].key).value, n);
      }
      FieldsMeaning(r, fields[1..], path, resolving, free, inst, n);
    }
  }

  lemma {:induction false} FieldsKeepKeys(fields: Dict, cx: Context, path: seq<Key>, resolving: seq<string>,
                                          free: bool, k: Key)
    requires FieldsKnown(fields, cx, free) && NormalizeFields(fields, cx, path, resolving, free).Ok?
    ensures Has(fields, k) == Has(NormalizeFields(fields, cx, path, resolving, free).value, k)
    decreases DictSize(fields)
  {
    hide Normalize, Level;
    if fields != [] {
      FieldsKeepKeys(fields[1..], cx, path, resolving, free, k);
    }
  }

  lemma {:induction false} ItemsMeaning(r: Reading, items: seq<Json>, index: nat, path: seq<Key>,
                                        resolving: seq<string>, free: bool, inst: Json, n: nat)
    requires ItemsKnown(items, r.cx, free) && NormalizeItems(items, index, r.cx, path, resolving, free).Ok?
    requires n >= Remaining(r.cx, resolving)
    ensures AcceptsOne(r, true, items, inst, n) ==
            AcceptsOne(r, false, NormalizeItems(items, index, r.cx, path, resolving, free).value, inst, n)
    decreases Level(r.cx, resolving, free), ItemsSize(items), 3, |items|
  {
    hide Accepts, Normalize, Remaining;
    if items != [] {
      NormalizedMeaning(r, items[0], path + [Name(Text.ToDecimal(index))], resolving, inst, n);
      ItemsMeaning(r, items[1..], index + 1, path, resolving, free, inst, n);
    }
  }

  // ---- Strict and plain acceptance ----

  /** Every node met on the way down declares a type, alternatives or a reference. */
  predicate Declares(r: Reading, schema: Json, fuel: nat)
    decreases fuel, Size(schema), 1
  {
    if !schema.Obj? then true else
    var node := NodeOf(schema.fields);
    NodeSmaller(schema.fields);
    && !Untyped(schema.fields)
    && (Refers(node) && fuel > 0 && Target(r.cx, node).Some? ==> Declares(r, Obj(Target(r.cx, node).value), fuel - 1))
    && (node.properties.Some? && node.properties.value.Obj? ==> DeclaresFields(r, node.properties.value.fields, fuel))
    && (node.items.Some? ==> Declares(r, node.items.value, fuel))
    && (node.additional.Some? ==> Declares(r, node.additional.value, fuel))
    && (node.alternatives.Some? && node.alternatives.value.Arr? ==> DeclaresItems(r, node.alternatives.value.items, fuel))
  }

  predicate DeclaresFields(r: Reading, fields: Dict, fuel: nat)
    decreases fuel, DictSize(fields), 2
  {
    fields == [] || (Declares(r, fields[0].val, fuel) && DeclaresFields(r, fields[1..], fuel))
  }

  predicate DeclaresItems(r: Reading, items: seq<Json>, fuel: nat)
    decreases fuel, ItemsSize(items), 2, |items|
  {
    items == [] || (Declares(r, items[0], fuel) && DeclaresItems(r, items[1..], fuel))
  }

  /** Strict acceptance is acceptance, and the same where every node declares a type. */
  lemma {:induction false} StrictMeaning(r: Reading, schema: Json, inst: Json, fuel: nat)
    ensures Accepts(r, true, schema, inst, fuel) ==> Accepts(r, false, schema, inst, fuel)
    ensures Declares(r, schema, fuel) ==> Accepts(r, true, schema, inst, fuel) == Accepts(r, false, schema, inst, fuel)
    decreases fuel, Size(schema), 1
  {
    hide Accepts, AcceptsFields, AcceptsOne, Constraints, NodeOf, Target, Described, Untyped, Declares;
    match schema
    case Obj(d) =>
      var node := NodeOf(d);
      NodeSmaller(d);
      AcceptsObject(r, true, d, inst, fuel);
      AcceptsObject(r, false, d, inst, fuel);
      DeclaresObject(r, d, fuel);
      if Refers(node) && fuel > 0 && Target(r.cx, node).Some? {
        StrictMeaning(r, Obj(Target(r.cx, node).value), inst, fuel - 1);
      }
      if node.properties.Some? && node.properties.value.Obj? && inst.Obj? {
        StrictFieldsMeaning(r, node.properties.value.fields, inst.fields, fuel);
      }
      if node.items.Some? && inst.Arr? {
        forall v | v in inst.items
          ensures Accepts(r, true, node.items.value, v, fuel) ==> Accepts(r, false, node.items.value, v, fuel)
          ensures Declares(r, node.items.value, fuel) ==>
                    Accepts(r, true, node.items.value, v, fuel) == Accepts(r, false, node.items.value, v, fuel)
        {
          StrictMeaning(r, node.items.value, v, fuel);
        }
      }
      if node.additional.Some? && inst.Obj? {
        forall f | f in inst.fields
          ensures Accepts(r, true, node.additional.value, f.val, fuel) ==> Accepts(r, false, node.additional.value, f.val, fuel)
          ensures Declares(r, node.additional.value, fuel) ==>
                    Accepts(r, true, node.additional.value, f.val, fuel) == Accepts(r, false, node.additional.value, f.val, fuel)
        {
          StrictMeaning(r, node.additional.value, f.val, fuel);
        }
      }
      if node.alternatives.Some? && node.alternatives.value.Arr? {
        StrictItemsMeaning(r, node.alternatives.value.items, inst, fuel);
      }
    case _ => AtomMeaning(r, schema, inst, fuel);
  }

  lemma AtomMeaning(r: Reading, schema: Json, inst: Json, fuel: nat)
    requires !schema.Obj?
    ensures Accepts(r, true, schema, inst, fuel) == Accepts(r, false, schema, inst, fuel)
  {
  }

  lemma DeclaresObject(r: Reading, d: Dict, fuel: nat)
    ensures var node := NodeOf(d);
            Declares(r, Obj(d), fuel) ==>
              && !Untyped(d)
              && (Refers(node) && fuel > 0 && Target(r.cx, node).Some? ==> Declares(r, Obj(Target(r.cx, node).value), fuel - 1))
              && (node.properties.Some? && node.properties.value.Obj? ==> DeclaresFields(r, node.properties.value.fields, fuel))
              && (node.items.Some? ==> Declares(r, node.items.value, fuel))
              && (node.additional.Some? ==> Declares(r, node.additional.value, fuel))
              && (node.alternatives.Some? && node.alternatives.value.Arr? ==> DeclaresItems(r, node.alternatives.value.items, fuel))
  {
    hide NodeOf, Untyped, Target;
  }

  lemma {:induction false} StrictFieldsMeaning(r: Reading, fields: Dict, inst: Dict, fuel: nat)
    ensures AcceptsFields(r, true, fields, inst, fuel) ==> AcceptsFields(r, false, fields, inst, fuel)
    ensures DeclaresFields(r, fields, fuel) ==> AcceptsFields(r, true, fields, inst, fuel) == AcceptsFields(r, false, fields, inst, fuel)
    decreases fuel, DictSize(fields), 2
  {
    hide Accepts, Declares, Lookup;
    if fields != [] {
      if Has(inst, fields[0].key) {
        StrictMeaning(r, fields[0].val, Lookup(inst, fields[0].key).value, fuel);
      }
      StrictFieldsMeaning(r, fields[1..], inst, fuel);
    }
  }

  lemma {:induction false} StrictItemsMeaning(r: Reading, items: seq<Json>, inst: Json, fuel: nat)
    ensures AcceptsOne(r, true, items, inst, fuel) ==> AcceptsOne(r, false, items, inst, fuel)
    ensures DeclaresItems(r, items, fuel) ==> AcceptsOne(r, true, items, inst, fuel) == AcceptsOne(r, false, items, inst, fuel)
    decreases fuel, ItemsSize(items), 2, |items|
  {
    hide Accepts, Declares;
    if items != [] {
      StrictMeaning(r, items[0], inst, fuel);
      StrictItemsMeaning(r, items[1..], inst, fuel);
    }
  }

  // ---- Whole tools ----

  /** As many references as a document can need. */
  function Enough(cx: Context): nat { Remaining(cx, []) }

  /** The normalised tool schema accepts exactly what the original accepts with its
      references resolved and the implied types enforced. */
  lemma ToolMeaning(r: Reading, schema: Json, inst: Json, n: nat)
    requires r.cx == Context(schema, r.cx.unquote, KeyOf)
    requires NormalizeTool(schema, r.cx.unquote).Ok? && schema.fields != []
    requires n >= Enough(r.cx)
    ensures Accepts(r, false, NormalizeTool(schema, r.cx.unquote).value, inst, n) == Accepts(r, true, schema, inst, n)
  {
    hide Normalize, Accepts, Known;
    assert Known(schema, r.cx) by { WholeIsKnown(r.cx); }
    NormalizedMeaning(r, schema, [], [], inst, n);
  }

  lemma WholeIsKnown(cx: Context)
    ensures Known(cx.doc, cx)
  {
  }

  /** Soundness: what the normalised schema accepts, the original accepts. */
  lemma ToolIsSound(r: Reading, schema: Json, inst: Json, n: nat)
    requires r.cx == Context(schema, r.cx.unquote, KeyOf)
    requires NormalizeTool(schema, r.cx.unquote).Ok? && n >= Enough(r.cx)
    requires Accepts(r, false, NormalizeTool(schema, r.cx.unquote).value, inst, n)
    ensures Accepts(r, false, schema, inst, n)
  {
    hide Accepts, Normalize, Constraints;
    if schema.fields == [] {
      AcceptsObject(r, false, [], inst, n);
      NothingConstrains(r, inst);
    } else {
      ToolMeaning(r, schema, inst, n);
      StrictMeaning(r, schema, inst, n);
    }
  }

  /** Exactness: a schema that declares its types loses and gains nothing. */
  lemma ToolIsExact(r: Reading, schema: Json, inst: Json, n: nat)
    requires r.cx == Context(schema, r.cx.unquote, KeyOf)
    requires NormalizeTool(schema, r.cx.unquote).Ok? && n >= Enough(r.cx)
    requires Declares(r, schema, n)
    ensures Accepts(r, false, NormalizeTool(schema, r.cx.unquote).value, inst, n) == Accepts(r, false, schema, inst, n)
  {
    hide Accepts, Normalize;
    if schema.fields == [] {
      EmptyIsUntyped(r, n);
    } else {
      ToolMeaning(r, schema, inst, n);
      StrictMeaning(r, schema, inst, n);
    }
  }

  lemma EmptyIsUntyped(r: Reading, n: nat)
    ensures !Declares(r, Obj([]), n)
  {
  }

  /** Without declared types the normalised schema accepts less: a tool that only
      describes properties accepts any string, its normalised form none. */
  lemma ImpliedTypeNarrows(r: Reading, n: nat)
    requires r.cx == Context(Obj([Field(Properties, Obj([]))]), r.cx.unquote, KeyOf) && n >= Enough(r.cx)
    ensures var tool := NormalizeTool(Obj([Field(Properties, Obj([]))]), r.cx.unquote);
            && tool.Ok?
            && Accepts(r, false, Obj([Field(Properties, Obj([]))]), Str(""), n)
            && !Accepts(r, false, tool.value, Str(""), n)
  {
    hide Accepts, NormalizeTool, Enough;
    var schema := Obj([Field(Properties, Obj([]))]);
    OnlyPropertiesTool(schema.fields, r.cx.unquote);
    ToolMeaning(r, schema, Str(""), n);
    ReadingsDiffer(r, schema.fields, n);
  }

  /** The strict reading of such a node rejects the string the lax one accepts. */
  lemma ReadingsDiffer(r: Reading, d: Dict, n: nat)
    requires d == [Field(Properties, Obj([]))]
    ensures Accepts(r, false, Obj(d), Str(""), n) && !Accepts(r, true, Obj(d), Str(""), n)
  {
    hide Accepts, Constraints, NodeOf, OnNode, ImpliedAccepts;
    AcceptsObject(r, false, d, Str(""), n);
    AcceptsObject(r, true, d, Str(""), n);
    OnlyProperties(d);
    OnlyPropertiesConstrain(r, d, Str(""));
    AnyStringFits(r, n);
    ImpliesObject(d);
  }

  lemma OnlyPropertiesTool(d: Dict, unquote: string -> Option<string>)
    requires d == [Field(Properties, Obj([]))]
    ensures NormalizeTool(Obj(d), unquote) == Ok(Obj(d + [Field(Type, Str("object"))]))
  {
    hide Normalize, Known;
    var cx := Context(Obj(d), unquote, KeyOf);
    WholeIsKnown(cx);
    OnlyPropertiesNormalize(d, cx);
    var t := [Field(Type, Str("object"))];
    assert (d + t)[1..] == t && Lookup(t, Type) == Some(Str("object"));
    assert Lookup(d + t, Type) == Some(Str("object"));
  }

  /** Such a node passes all checks and gets its type. */
  lemma OnlyPropertiesNormalize(d: Dict, cx: SchemaNormalizer.Context)
    requires d == [Field(Properties, Obj([]))] && Known(Obj(d), cx)
    ensures Normalize(Obj(d), cx, [], []) == Ok(d + [Field(Type, Str("object"))])
  {
    hide Lookup, NodeOf, Known, IsFree, Plain, Prepare, Finish, Level, Assemble, NormalizeMap, NormalizeValue, NormalizeAlternatives;
    OnlyProperties(d);
    EmptyLookup(Items);
    EmptyLookup(AdditionalProperties);
    EmptyLookup(AnyOf);
    EmptyLookup(Ref);
    NothingToPrepare(d);
    NothingToAssemble(d);
    GetsItsType(d);
    EmptyPlaces(cx, [] + [Properties], IsFree(Obj(d)));
    EmptyPlaces(cx, [] + [Items], IsFree(Obj(d)));
    EmptyPlaces(cx, [] + [AdditionalProperties], IsFree(Obj(d)));
    EmptyPlaces(cx, [] + [AnyOf], IsFree(Obj(d)));
  }

  lemma EmptyPlaces(cx: SchemaNormalizer.Context, path: seq<Key>, free: bool)
    ensures NormalizeMap(Some(Obj([])), cx, path, [], free) == Ok(Some(Obj([])))
    ensures NormalizeValue(None, cx, path, [], free) == Ok(None)
    ensures NormalizeAlternatives(None, cx, path, [], free) == Ok(None)
  {
    assert NormalizeFields([], cx, path, [], free) == Ok([]);
  }

  lemma NothingTaken(d: Dict, ks: set<Key>)
    requires forall f :: f in d ==> f.key !in ks
    ensures Without(d, ks) == d
  {
  }

  lemma NothingToPrepare(d: Dict)
    requires d == [Field(Properties, Obj([]))]
    ensures Prepare(Obj(d), []) == Ok(d) && Plain(d) == d
  {
    hide Without;
    NothingTaken(d, IGNORED);
    NothingTaken(d, {Ref});
    assert d[1..] == [] && FirstUnsupported(d) == None;
  }

  lemma NothingToAssemble(d: Dict)
    requires d == [Field(Properties, Obj([]))]
    ensures Assemble(d, Some(Obj([])), None, None, None) == d && IsFree(Obj(d))
  {
    OnlyProperties(d);
    assert d[1..] == [] && [Field(Properties, Obj([]))] + [] == d;
  }

  lemma GetsItsType(d: Dict)
    requires d == [Field(Properties, Obj([]))]
    ensures Finish(d, []) == Ok(d + [Field(Type, Str("object"))])
  {
    hide Without, Lookup, KeywordFault;
    OnlyProperties(d);
    EmptyLookup(Type);
    EmptyLookup(AnyOf);
    NoFault(d);
    assert d[1..] == [] && Put(d, Type, Str("object")) == [d[0]] + Put([], Type, Str("object"));
    NothingTaken(d + [Field(Type, Str("object"))], DEFINITIONS);
  }

  lemma {:induction false} NoneFails(d: Dict, keywords: seq<Key>, passes: Json -> bool)
    requires forall k :: k in keywords ==> !Has(d, k)
    ensures FirstFailing(d, keywords, passes) == None
  {
    if keywords != [] {
      NoneFails(d, keywords[1..], passes);
    }
  }

  lemma NoFault(d: Dict)
    requires d == [Field(Properties, Obj([]))]
    ensures KeywordFault(d) == None
  {
    hide Lookup, FirstFailing;
    OnlyProperties(d);
    forall k | k != Properties ensures Lookup(d, k) == None {
      EmptyLookup(k);
    }
    assert Lookup(d, Required) == None && Lookup(d, Enum) == None;
    NoneFails(d, TEXT_KEYWORDS, IsText);
    NoneFails(d, COUNT_KEYWORDS, IsCount);
    NoneFails(d, BOUND_KEYWORDS, IsNumber);
  }

  lemma OnlyPropertiesConstrain(r: Reading, d: Dict, inst: Json)
    requires d == [Field(Properties, Obj([]))]
    ensures Constraints(r, d, inst)
  {
    hide Lookup, Constraints;
    OnlyProperties(d);
    ConstraintsDependOn(r, d, [], inst);
    NothingConstrains(r, inst);
  }

  lemma ImpliesObject(d: Dict)
    requires d == [Field(Properties, Obj([]))]
    ensures !ImpliedAccepts(d, Str(""))
  {
    hide Lookup, HasType, NodeOf;
    OnlyProperties(d);
    EmptyLookup(Type);
    EmptyLookup(AnyOf);
    StringIsNoObject();
  }

  lemma OnlyProperties(d: Dict)
    requires d == [Field(Properties, Obj([]))]
    ensures forall k :: Lookup(d, k) == if k == Properties then Some(Obj([])) else Lookup([], k)
    ensures NodeOf(d) == Node(None, Some(Obj([])), None, None, None)
  {
    forall k ensures Lookup(d, k) == if k == Properties then Some(Obj([])) else Lookup([], k) {
      assert d[1..] == [];
    }
    assert Lookup(d, Ref).None? && Lookup(d, Items).None? && Lookup(d, AdditionalProperties).None? && Lookup(d, AnyOf).None?;
  }

  lemma StringIsNoObject()
    ensures !HasType(Str(""), "object")
  {
  }

  lemma AnyStringFits(r: Reading, n: nat)
    ensures OnNode(r, false, Node(None, Some(Obj([])), None, None, None), Str(""), n)
  {
  }
}
