/** What the normaliser makes of small schemas, and that it writes every schema below a node
    where it stood. */
module SchemaExact {
  import opened Wrappers
  import opened Json
  import opened SchemaNormalizer
  import opened SchemaShape
  import opened SchemaChecks
  import opened SchemaMeaning
  import Text

  // ---- Schemas below a node ----

  /** The map pass rewrites every value under its own name, in place. */
  lemma {:induction false} FieldsAreWritten(fields: Dict, cx: Context, path: seq<Key>, resolving: seq<string>, free: bool)
    requires FieldsKnown(fields, cx, free) && NormalizeFields(fields, cx, path, resolving, free).Ok?
    ensures var out := NormalizeFields(fields, cx, path, resolving, free).value;
            && |out| == |fields|
            && forall i :: 0 <= i < |fields| ==>
                 && Known(fields[i].val, cx) && Normalize(fields[i].val, cx, path + [fields[i].key], resolving).Ok?
                 && out[i] == Field(fields[i].key, Obj(Normalize(fields[i].val, cx, path + [fields[i].key], resolving).value))
    decreases DictSize(fields)
  {
    hide Normalize, Known, IsFree, Level;
    if fields != [] {
      FieldsAreWritten(fields[1..], cx, path, resolving, free);
    }
  }

  lemma {:induction false} ItemIsWritten(items: seq<Json>, index: nat, cx: Context, path: seq<Key>, resolving: seq<string>, free: bool, i: nat)
    requires ItemsKnown(items, cx, free) && NormalizeItems(items, index, cx, path, resolving, free).Ok? && i < |items|
    ensures IsNormalForm(NormalizeItems(items, index, cx, path, resolving, free).value[i], items[i], cx,
                         path + [Name(Text.ToDecimal(index + i))], resolving)
    decreases |items|
  {
    hide Normalize, Known, IsFree, Level;
    if i > 0 {
      ItemIsWritten(items[1..], index + 1, cx, path, resolving, free, i - 1);
      assert items[i] == items[1..][i - 1] && index + i == index + 1 + (i - 1);
    } else {
      assert items[0] in items;
    }
  }

  /** A schema and its normal form at a place of the two documents. */
  ghost predicate IsNormalForm(out: Json, schema: Json, cx: Context, path: seq<Key>, resolving: seq<string>) {
    Known(schema, cx) && Normalize(schema, cx, path, resolving).Ok? && out == Obj(Normalize(schema, cx, path, resolving).value)
  }

  ghost predicate ValueIsWritten(out: Option<Json>, was: Option<Json>, cx: Context, path: seq<Key>, resolving: seq<string>) {
    if was.None? then out.None? else out.Some? && IsNormalForm(out.value, was.value, cx, path, resolving)
  }

  ghost predicate MapIsWritten(out: Option<Json>, was: Option<Json>, cx: Context, path: seq<Key>, resolving: seq<string>) {
    if was.None? || was.value.Null? then out == was else
    && was.value.Obj? && out.Some? && out.value.Obj? && |out.value.fields| == |was.value.fields|
    && forall i :: 0 <= i < |was.value.fields| ==>
         && out.value.fields[i].key == was.value.fields[i].key
         && IsNormalForm(out.value.fields[i].val, was.value.fields[i].val, cx, path + [was.value.fields[i].key], resolving)
  }

  ghost predicate ListIsWritten(out: Option<Json>, was: Option<Json>, cx: Context, path: seq<Key>, resolving: seq<string>) {
    if was.None? || was.value.Null? then out == was else
    && was.value.Arr? && out.Some? && out.value.Arr? && |out.value.items| == |was.value.items|
    && forall i :: 0 <= i < |was.value.items| ==>
         IsNormalForm(out.value.items[i], was.value.items[i], cx, path + [Name(Text.ToDecimal(i))], resolving)
  }

  lemma MapPass(v: Option<Json>, cx: Context, path: seq<Key>, resolving: seq<string>, free: bool)
    requires v.Some? && v.value.Obj? ==> FieldsKnown(v.value.fields, cx, free)
    requires NormalizeMap(v, cx, path, resolving, free).Ok?
    ensures MapIsWritten(Or(NormalizeMap(v, cx, path, resolving, free).value, v), v, cx, path, resolving)
  {
    hide Normalize, NormalizeFields, Known, IsFree, FieldsKnown;
    if v.Some? && v.value.Obj? {
      FieldsAreWritten(v.value.fields, cx, path, resolving, free);
    }
  }

  lemma ValuePass(v: Option<Json>, cx: Context, path: seq<Key>, resolving: seq<string>, free: bool)
    requires v.Some? ==> Known(v.value, cx) && (free ==> IsFree(v.value))
    requires NormalizeValue(v, cx, path, resolving, free).Ok?
    ensures ValueIsWritten(Or(NormalizeValue(v, cx, path, resolving, free).value, v), v, cx, path, resolving)
  {
    hide Normalize, Known, IsFree;
  }

  lemma ListPass(v: Option<Json>, cx: Context, path: seq<Key>, resolving: seq<string>, free: bool)
    requires v.Some? && v.value.Arr? ==> ItemsKnown(v.value.items, cx, free)
    requires NormalizeAlternatives(v, cx, path, resolving, free).Ok?
    ensures ListIsWritten(Or(NormalizeAlternatives(v, cx, path, resolving, free).value, v), v, cx, path, resolving)
  {
    hide Normalize, NormalizeItems, Known, IsFree, ItemsKnown, IsNormalForm;
    if v.Some? && v.value.Arr? {
      forall i | 0 <= i < |v.value.items| {
        ItemIsWritten(v.value.items, 0, cx, path, resolving, free, i);
      }
    }
  }

  /** Below a node without a reference every schema is replaced by its own normal form, and
      stands where it stood. */
  lemma PlacesAreWritten(schema: Json, cx: Context, path: seq<Key>, resolving: seq<string>)
    requires Known(schema, cx) && Normalize(schema, cx, path, resolving).Ok? && !Refers(NodeOf(schema.fields))
    ensures var was, out := NodeOf(schema.fields), NodeOf(Normalize(schema, cx, path, resolving).value);
            && MapIsWritten(out.properties, was.properties, cx, path + [Properties], resolving)
            && ValueIsWritten(out.items, was.items, cx, path + [Items], resolving)
            && (if was.additional.Some? && was.additional.value.Bool? then out.additional == was.additional
                else ValueIsWritten(out.additional, was.additional, cx, path + [AdditionalProperties], resolving))
            && ListIsWritten(out.alternatives, was.alternatives, cx, path + [AnyOf], resolving)
  {
    hide NodeOf, Normalize, NormalizeChildren, NormalizeMap, NormalizeValue, NormalizeAlternatives, IsFree, Known, FieldsKnown, ItemsKnown,
         Plain, Assemble, Finish, Level, Lookup, MapIsWritten, ValueIsWritten, ListIsWritten;
    PlainStep(schema, cx, path, resolving);
    PlainLookups(schema.fields);
    var plain := Plain(schema.fields);
    var node := NodeOf(plain);
    ghost var free := IsFree(Obj(plain));
    ChildrenSteps(plain, cx, path, resolving);
    var properties := NormalizeMap(node.properties, cx, path + [Properties], resolving, free).value;
    var items := NormalizeValue(node.items, cx, path + [Items], resolving, free).value;
    var additional := if node.additional.Some? && node.additional.value.Bool? then None
                      else NormalizeValue(node.additional, cx, path + [AdditionalProperties], resolving, free).value;
    var alternatives := NormalizeAlternatives(node.alternatives, cx, path + [AnyOf], resolving, free).value;
    MapPass(node.properties, cx, path + [Properties], resolving, free);
    ValuePass(node.items, cx, path + [Items], resolving, free);
    if !(node.additional.Some? && node.additional.value.Bool?) {
      ValuePass(node.additional, cx, path + [AdditionalProperties], resolving, free);
    }
    ListPass(node.alternatives, cx, path + [AnyOf], resolving, free);
    NodeOfAssembled(plain, properties, items, additional, alternatives);
    NodeOfFinished(Assemble(plain, properties, items, additional, alternatives), path);
  }

  // ---- References ----

  /** Every `%` is followed by two hexadecimal digits. */
  predicate PercentsFit(s: string) {
    forall i :: 0 <= i < |s| && s[i] == '%' ==> i + 2 < |s| && IsHexDigit(s[i + 1]) && IsHexDigit(s[i + 2])
  }

  predicate IsHexDigit(c: char) { c in "0123456789abcdefABCDEF" }

  /** A reference denotes a pointer exactly if it is a `#` with a well-escaped fragment that
      decodes to a text that starts with a slash. */
  lemma PointerMeans(reference: Json, unquote: string -> Option<string>, pointer: string)
    ensures PointerOf(reference, unquote) == Ok(pointer) <==>
              && reference.Str? && reference.s != "" && reference.s[0] == '#'
              && PercentsFit(reference.s[1..]) && unquote(reference.s[1..]) == Some(pointer)
              && pointer != "" && pointer[0] == '/'
    ensures PointerOf(reference, unquote) == Err(ReferenceInvalid) <==>
              && reference.Str? && reference.s != "" && reference.s[0] == '#'
              && (!PercentsFit(reference.s[1..]) || unquote(reference.s[1..]).None?)
    ensures PointerOf(reference, unquote).Err? ==> PointerOf(reference, unquote).error in {ReferenceInvalid, ReferenceNotLocal}
  {
    assert forall c :: IsHexDigit(c) <==> IsHex(c);
  }

  // ---- Small schemas ----

  lemma OneField(k: Key, v: Json, j: Key)
    ensures Lookup([Field(k, v)], j) == if j == k then Some(v) else None
  {
    EmptyLookup(j);
    assert [Field(k, v)][1..] == [];
  }

  lemma OneFieldNode(k: Key, v: Json)
    requires k == Enum || k == Items
    ensures NodeOf([Field(k, v)]) == Node(None, None, if k == Items then Some(v) else None, None, None)
  {
    hide Lookup;
    forall j { OneField(k, v, j); }
  }

  /** A schema that only lists strings normalises, and its normal form accepts exactly them. */
  lemma OnlyEnumMeans(r: Reading, words: seq<Json>, path: seq<Key>, inst: Json, n: nat)
    requires words != [] && (forall w :: w in words ==> w.Str?) && n >= Enough(r.cx)
    ensures var schema := Obj([Field(Enum, Arr(words))]);
            && Known(schema, r.cx) && Normalize(schema, r.cx, path, []).Ok?
            && (Accepts(r, false, Obj(Normalize(schema, r.cx, path, []).value), inst, n) <==> inst in words)
  {
    hide Accepts, Normalize, Fits, Lookup, NodeOf, Constraints, ImpliedAccepts, NodeFits, Remaining;
    var d := [Field(Enum, Arr(words))];
    forall j { OneField(Enum, Arr(words), j); }
    OneFieldNode(Enum, Arr(words));
    assert Known(Obj(d), r.cx) && IsFree(Obj(d));
    FitsHere(r.cx, d, 0);
    OnlyEnumFits(words);
    NormalizesIffFits(Obj(d), r.cx, path);
    NormalizedMeaning(r, Obj(d), path, [], inst, n);
    AcceptsObject(r, true, d, inst, n);
    OnlyEnumConstrains(r, words, inst);
  }

  lemma OnlyEnumFits(words: seq<Json>)
    requires words != [] && forall w :: w in words ==> w.Str?
    ensures NodeFits([Field(Enum, Arr(words))])
  {
    hide Lookup;
    forall j { OneField(Enum, Arr(words), j); }
  }

  lemma OnlyEnumConstrains(r: Reading, words: seq<Json>, inst: Json)
    requires forall w :: w in words ==> w.Str?
    ensures var d := [Field(Enum, Arr(words))];
            Constraints(r, d, inst) && ImpliedAccepts(d, inst) <==> inst in words
  {
    hide Lookup, Constraints;
    var d := [Field(Enum, Arr(words))];
    forall j { OneField(Enum, Arr(words), j); }
    OneFieldNode(Enum, Arr(words));
    EnumConstrains(r, d, inst);
  }

  /** If only the enum asks for something, it is all a node asks for. */
  lemma EnumConstrains(r: Reading, d: Dict, inst: Json)
    requires forall k :: IsConstraint(k) && k != Enum ==> Lookup(d, k).None?
    ensures Constraints(r, d, inst) <==> EnumAccepts(Lookup(d, Enum), inst)
  {
    hide Lookup, EnumAccepts;
  }

  /** A schema that only describes items normalises if that description does, and its normal
      form accepts arrays only, the empty one among them. */
  lemma OnlyItemsMeans(r: Reading, items: Json, path: seq<Key>, inst: Json, n: nat)
    requires var schema := Obj([Field(Items, items)]);
             Known(schema, r.cx) && Fits(r.cx, items, n) && n >= Enough(r.cx)
    ensures var schema := Obj([Field(Items, items)]);
            && Normalize(schema, r.cx, path, []).Ok?
            && (Accepts(r, false, Obj(Normalize(schema, r.cx, path, []).value), inst, n) ==> inst.Arr?)
            && Accepts(r, false, Obj(Normalize(schema, r.cx, path, []).value), Arr([]), n)
  {
    hide Accepts, Normalize, Fits, Lookup, NodeOf, Constraints, ImpliedAccepts, NodeFits, Remaining, Known;
    var d := [Field(Items, items)];
    OneFieldNode(Items, items);
    FitsHere(r.cx, d, n);
    OnlyItemsFits(items);
    NormalizesIffFits(Obj(d), r.cx, path);
    NormalizedMeaning(r, Obj(d), path, [], inst, n);
    NormalizedMeaning(r, Obj(d), path, [], Arr([]), n);
    AcceptsObject(r, true, d, inst, n);
    AcceptsObject(r, true, d, Arr([]), n);
    OnlyItemsConstrains(r, items, inst);
    OnlyItemsConstrains(r, items, Arr([]));
  }

  lemma OnlyItemsFits(items: Json)
    ensures NodeFits([Field(Items, items)])
  {
    hide Lookup;
    forall j { OneField(Items, items, j); }
  }

  lemma OnlyItemsConstrains(r: Reading, items: Json, inst: Json)
    ensures var d := [Field(Items, items)];
            Constraints(r, d, inst) && (ImpliedAccepts(d, inst) <==> inst.Arr?)
  {
    hide Lookup, Constraints, ImpliedAccepts;
    var d := [Field(Items, items)];
    forall k | IsConstraint(k) ensures Lookup(d, k).None? { OneField(Items, items, k); }
    NoneConstrains(r, d, inst);
    ItemsImply(items, inst);
  }

  lemma NoneConstrains(r: Reading, d: Dict, inst: Json)
    requires forall k :: IsConstraint(k) ==> Lookup(d, k).None?
    ensures Constraints(r, d, inst)
  {
    hide Lookup;
  }

  lemma ItemsImply(items: Json, inst: Json)
    ensures ImpliedAccepts([Field(Items, items)], inst) <==> inst.Arr?
  {
    hide Lookup;
    forall j { OneField(Items, items, j); }
  }
}
