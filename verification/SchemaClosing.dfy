/** `set_additional_properties_false` and `remove_additional_properties`: closing every
    object schema that is reached through the schema-bearing keywords, and opening all. */
module SchemaClosing {
  import opened Wrappers
  import opened Json

  // ---- Closing ----

  predicate IsEmptyDict(j: Option<Json>) { j == Some(Obj([])) }

  /** The node's own `additionalProperties`: an empty one becomes false, and so does that of
      an object or of a node with properties and none. */
  function CloseNode(d: Dict): Dict {
    var d1 := if IsEmptyDict(Lookup(d, AdditionalProperties)) then Put(d, AdditionalProperties, Bool(false)) else d;
    if Lookup(d1, Type) == Some(Str("object")) || (Has(d1, Properties) && !Has(d1, AdditionalProperties))
    then Put(d1, AdditionalProperties, Bool(false)) else d1
  }

  function Close(j: Json): Json
    decreases Size(j), 2
  {
    match j
    case Obj(fields) => Obj(CloseNode(CloseFields(fields)))
    case _ => j
  }

  /** Every field, closed inside if its keyword bears schemas. */
  function CloseFields(d: Dict): Dict
    decreases DictSize(d), 0
  {
    if d == [] then [] else [Field(d[0].key, CloseUnder(d[0].key, d[0].val))] + CloseFields(d[1..])
  }

  function CloseUnder(key: Key, j: Json): Json
    decreases Size(j), 3
  {
    if key == Items then Close(j)
    else if (key == Defs || key == Properties) && j.Obj? then Obj(CloseEach(j.fields))
    else if (key == AnyOf || key == OneOf || key == AllOf) && j.Arr? then Arr(CloseList(j.items))
    else j
  }

  function CloseEach(d: Dict): Dict
    decreases DictSize(d), 1
  {
    if d == [] then [] else [Field(d[0].key, Close(d[0].val))] + CloseEach(d[1..])
  }

  function CloseList(items: seq<Json>): (r: seq<Json>)
    ensures |r| == |items|
    decreases ItemsSize(items), 3, |items|
  {
    if items == [] then [] else [Close(items[0])] + CloseList(items[1..])
  }

  // ---- Opening ----

  /** `remove_additional_properties` */
  function Open(j: Json): Json
    decreases Size(j), 2
  {
    match j
    case Obj(fields) => Obj(OpenFields(fields))
    case Arr(items) => Arr(OpenItems(items))
    case _ => j
  }

  function OpenFields(d: Dict): Dict
    decreases DictSize(d), 1
  {
    if d == [] then []
    else if d[0].key == AdditionalProperties then OpenFields(d[1..])
    else [Field(d[0].key, Open(d[0].val))] + OpenFields(d[1..])
  }

  function OpenItems(items: seq<Json>): seq<Json>
    decreases ItemsSize(items), 3, |items|
  {
    if items == [] then [] else [Open(items[0])] + OpenItems(items[1..])
  }

  // ---- Fields after closing ----

  lemma {:induction false} ClosedLookup(d: Dict, k: Key)
    ensures Lookup(CloseFields(d), k) == match Lookup(d, k) case None => None case Some(v) => Some(CloseUnder(k, v))
    decreases |d|
  {
    hide CloseUnder;
    if d != [] {
      ClosedLookup(d[1..], k);
      assert CloseFields(d)[1..] == CloseFields(d[1..]);
    }
  }

  lemma CloseNodeLookup(d: Dict, k: Key)
    ensures k != AdditionalProperties ==> Lookup(CloseNode(d), k) == Lookup(d, k)
    ensures Lookup(CloseNode(d), AdditionalProperties) ==
            if IsEmptyDict(Lookup(d, AdditionalProperties)) || Lookup(d, Type) == Some(Str("object")) ||
               (Has(d, Properties) && !Has(d, AdditionalProperties))
            then Some(Bool(false)) else Lookup(d, AdditionalProperties)
  {
    hide Lookup, Put;
  }

  // ---- Reaching schemas ----

  /** The keywords closing follows, with the name or the index under them. */
  datatype Edge = InDefs(name: Key) | InProperties(name: Key) | InItems | InVariants(key: Key, index: nat)

  function Named(j: Option<Json>, name: Key): Option<Json> {
    if j.Some? && j.value.Obj? then Lookup(j.value.fields, name) else None
  }

  function Enter(j: Json, e: Edge): Option<Json> {
    if !j.Obj? then None else
    match e
    case InDefs(name) => Named(Lookup(j.fields, Defs), name)
    case InProperties(name) => Named(Lookup(j.fields, Properties), name)
    case InItems => Lookup(j.fields, Items)
    case InVariants(key, index) =>
      var v := Lookup(j.fields, key);
      if (key == AnyOf || key == OneOf || key == AllOf) && v.Some? && v.value.Arr? && index < |v.value.items|
      then Some(v.value.items[index]) else None
  }

  function Reach(j: Json, path: seq<Edge>): Option<Json>
    decreases |path|
  {
    if path == [] then Some(j)
    else match Enter(j, path[0])
      case None => None
      case Some(next) => Reach(next, path[1..])
  }

  lemma {:induction false} ClosedEachLookup(d: Dict, k: Key)
    ensures Lookup(CloseEach(d), k) == match Lookup(d, k) case None => None case Some(v) => Some(Close(v))
    decreases |d|
  {
    hide Close;
    if d != [] {
      ClosedEachLookup(d[1..], k);
      assert CloseEach(d)[1..] == CloseEach(d[1..]);
    }
  }

  lemma {:induction false} ClosedListAt(items: seq<Json>, i: nat)
    requires i < |items|
    ensures CloseList(items)[i] == Close(items[i])
    decreases |items|
  {
    hide Close;
    if i > 0 {
      ClosedListAt(items[1..], i - 1);
    }
  }

  lemma EnterClosed(j: Json, e: Edge)
    ensures Enter(Close(j), e) == match Enter(j, e) case None => None case Some(next) => Some(Close(next))
  {
    if j.Obj? {
      var closed := CloseFields(j.fields);
      forall k ensures k != AdditionalProperties ==>
                 Lookup(CloseNode(closed), k) == match Lookup(j.fields, k) case None => None case Some(v) => Some(CloseUnder(k, v)) {
        hide *;
        CloseNodeLookup(closed, k);
        ClosedLookup(j.fields, k);
      }
      EnterClosedNode(j, e);
    }
  }

  lemma EnterClosedNode(j: Json, e: Edge)
    requires j.Obj?
    requires forall k :: k != AdditionalProperties ==>
               Lookup(CloseNode(CloseFields(j.fields)), k) ==
               match Lookup(j.fields, k) case None => None case Some(v) => Some(CloseUnder(k, v))
    ensures Enter(Close(j), e) == match Enter(j, e) case None => None case Some(next) => Some(Close(next))
  {
    hide Lookup, CloseNode, CloseFields, CloseEach, CloseList;
    match e
    case InDefs(name) =>
      var v := Lookup(j.fields, Defs);
      if v.Some? && v.value.Obj? { ClosedEachLookup(v.value.fields, name); }
    case InProperties(name) =>
      var v := Lookup(j.fields, Properties);
      if v.Some? && v.value.Obj? { ClosedEachLookup(v.value.fields, name); }
    case InItems =>
    case InVariants(key, index) =>
      var v := Lookup(j.fields, key);
      if v.Some? && v.value.Arr? && index < |v.value.items| { ClosedListAt(v.value.items, index); }
  }

  /** Closing the whole closes what every path reaches, and nothing else. */
  lemma {:induction false} ReachClosed(j: Json, path: seq<Edge>)
    ensures Reach(Close(j), path) == match Reach(j, path) case None => None case Some(node) => Some(Close(node))
    decreases |path|
  {
    hide Close, Enter;
    if path != [] {
      EnterClosed(j, path[0]);
      if Enter(j, path[0]).Some? {
        ReachClosed(Enter(j, path[0]).value, path[1..]);
      }
    }
  }

  /** Every object schema reached through `$defs`, properties, items and the combinators is
      closed; every node with properties says something about additional ones. */
  lemma EveryObjectIsClosed(j: Json, path: seq<Edge>)
    requires Reach(Close(j), path).Some? && Reach(Close(j), path).value.Obj?
    ensures var node := Reach(Close(j), path).value.fields;
            && (Lookup(node, Type) == Some(Str("object")) ==> Lookup(node, AdditionalProperties) == Some(Bool(false)))
            && (Has(node, Properties) ==> Has(node, AdditionalProperties))
            && !IsEmptyDict(Lookup(node, AdditionalProperties))
  {
    hide Reach, CloseFields, Lookup;
    ReachClosed(j, path);
    var node := Reach(j, path).value;
    CloseNodeLookup(CloseFields(node.fields), Type);
    CloseNodeLookup(CloseFields(node.fields), Properties);
  }

  predicate BearsSchemas(k: Key) { k == Items || k == Defs || k == Properties || k == AnyOf || k == OneOf || k == AllOf }

  /** Exactly those are closed that are empty, an object's, or missing beside properties; every
      other `additionalProperties` of a reached node stays, and so does all that stands under
      a keyword that bears no schema. */
  lemma OthersStayOpen(j: Json, path: seq<Edge>)
    requires Reach(j, path).Some? && Reach(j, path).value.Obj?
    ensures Reach(Close(j), path).Some? && Reach(Close(j), path).value.Obj?
    ensures var before, after := Reach(j, path).value.fields, Reach(Close(j), path).value.fields;
            && Lookup(after, AdditionalProperties) ==
               (if Lookup(before, AdditionalProperties) == Some(Obj([])) || Lookup(before, Type) == Some(Str("object"))
                   || (Has(before, Properties) && !Has(before, AdditionalProperties))
                then Some(Bool(false)) else Lookup(before, AdditionalProperties))
            && forall k :: !BearsSchemas(k) && k != AdditionalProperties ==> Lookup(after, k) == Lookup(before, k)
  {
    hide Reach, CloseFields, CloseNode, Lookup;
    ReachClosed(j, path);
    var d := Reach(j, path).value.fields;
    CloseNodeLookup(CloseFields(d), AdditionalProperties);
    ClosedLookup(d, AdditionalProperties);
    ClosedLookup(d, Type);
    ClosedLookup(d, Properties);
    forall k | !BearsSchemas(k) && k != AdditionalProperties
      ensures Lookup(CloseNode(CloseFields(d)), k) == Lookup(d, k)
    {
      CloseNodeLookup(CloseFields(d), k);
      ClosedLookup(d, k);
    }
  }

  // ---- Closing twice ----

  lemma {:induction false} CloseFieldsPut(d: Dict, v: Json)
    ensures CloseFields(Put(d, AdditionalProperties, v)) == Put(CloseFields(d), AdditionalProperties, v)
    decreases |d|
  {
    if d != [] {
      var rest := Put(d[1..], AdditionalProperties, v);
      assert ([d[0]] + rest)[1..] == rest;
      assert CloseFields(d)[1..] == CloseFields(d[1..]);
      assert ([Field(AdditionalProperties, v)] + d[1..])[1..] == d[1..];
      CloseFieldsPut(d[1..], v);
    } else {
      assert [Field(AdditionalProperties, v)][1..] == [];
    }
  }

  /** Closing a node and closing its fields can be done in either order. */
  lemma CloseNodeCommutes(d: Dict)
    ensures CloseFields(CloseNode(d)) == CloseNode(CloseFields(d))
  {
    hide Lookup, Put, CloseFields;
    ClosedLookup(d, AdditionalProperties);
    ClosedLookup(d, Type);
    ClosedLookup(d, Properties);
    CloseFieldsPut(d, Bool(false));
    var d1 := Put(d, AdditionalProperties, Bool(false));
    CloseFieldsPut(d1, Bool(false));
    ClosedLookup(d1, Type);
    ClosedLookup(d1, Properties);
    ClosedLookup(d1, AdditionalProperties);
  }

  lemma CloseNodeTwice(d: Dict)
    ensures CloseNode(CloseNode(d)) == CloseNode(d)
  {
    hide Lookup, Put;
    CloseNodeLookup(d, Type);
    CloseNodeLookup(d, Properties);
    if Lookup(CloseNode(d), AdditionalProperties) == Some(Bool(false)) {
      PutSame(CloseNode(d), AdditionalProperties);
    }
  }

  /** Closing is idempotent. */
  lemma {:induction false} CloseTwice(j: Json)
    ensures Close(Close(j)) == Close(j)
    decreases Size(j), 2
  {
    hide CloseNode, CloseFields;
    match j
    case Obj(fields) =>
      CloseNodeCommutes(CloseFields(fields));
      CloseNodeTwice(CloseFields(CloseFields(fields)));
      CloseFieldsTwice(fields);
      CloseNodeTwice(CloseFields(fields));
    case _ =>
  }

  lemma {:induction false} CloseFieldsTwice(d: Dict)
    ensures CloseFields(CloseFields(d)) == CloseFields(d)
    decreases DictSize(d), 0
  {
    hide CloseUnder;
    if d != [] {
      CloseUnderTwice(d[0].key, d[0].val);
      CloseFieldsTwice(d[1..]);
      assert CloseFields(d)[1..] == CloseFields(d[1..]);
    }
  }

  lemma {:induction false} CloseUnderTwice(key: Key, j: Json)
    ensures CloseUnder(key, CloseUnder(key, j)) == CloseUnder(key, j)
    decreases Size(j), 3
  {
    hide Close, CloseEach, CloseList;
    if key == Items {
      CloseTwice(j);
    } else if (key == Defs || key == Properties) && j.Obj? {
      CloseEachTwice(j.fields);
    } else if (key == AnyOf || key == OneOf || key == AllOf) && j.Arr? {
      CloseListTwice(j.items);
    }
  }

  lemma {:induction false} CloseEachTwice(d: Dict)
    ensures CloseEach(CloseEach(d)) == CloseEach(d)
    decreases DictSize(d), 1
  {
    hide Close;
    if d != [] {
      CloseTwice(d[0].val);
      CloseEachTwice(d[1..]);
      assert CloseEach(d)[1..] == CloseEach(d[1..]);
    }
  }

  lemma {:induction false} CloseListTwice(items: seq<Json>)
    ensures CloseList(CloseList(items)) == CloseList(items)
    decreases ItemsSize(items), 3, |items|
  {
    hide Close;
    if items != [] {
      CloseTwice(items[0]);
      CloseListTwice(items[1..]);
      assert CloseList(items)[1..] == CloseList(items[1..]);
    }
  }

  // ---- Opening after closing ----

  lemma {:induction false} OpenIgnoresPut(d: Dict, v: Json)
    ensures OpenFields(Put(d, AdditionalProperties, v)) == OpenFields(d)
    decreases |d|
  {
    hide Open;
    if d != [] {
      var rest := Put(d[1..], AdditionalProperties, v);
      assert ([d[0]] + rest)[1..] == rest;
      assert ([Field(AdditionalProperties, v)] + d[1..])[1..] == d[1..];
      OpenIgnoresPut(d[1..], v);
    } else {
      assert [Field(AdditionalProperties, v)][1..] == [];
    }
  }

  /** Opening undoes closing: it gives what opening alone gives. */
  lemma {:induction false} OpenUndoesClose(j: Json)
    ensures Open(Close(j)) == Open(j)
    decreases Size(j), 2
  {
    hide CloseFields, Put, OpenFields, Lookup;
    match j
    case Obj(fields) =>
      OpenFieldsUndoClose(fields);
      var closed := CloseFields(fields);
      OpenIgnoresPut(closed, Bool(false));
      OpenIgnoresPut(Put(closed, AdditionalProperties, Bool(false)), Bool(false));
    case _ =>
  }

  lemma {:induction false} OpenFieldsUndoClose(d: Dict)
    ensures OpenFields(CloseFields(d)) == OpenFields(d)
    decreases DictSize(d), 0
  {
    hide CloseUnder, Open;
    if d != [] {
      OpenUndoesCloseUnder(d[0].key, d[0].val);
      OpenFieldsUndoClose(d[1..]);
      assert CloseFields(d)[1..] == CloseFields(d[1..]);
    }
  }

  lemma {:induction false} OpenUndoesCloseUnder(key: Key, j: Json)
    ensures Open(CloseUnder(key, j)) == Open(j)
    decreases Size(j), 3
  {
    hide Close, CloseEach, CloseList, OpenFields, OpenItems;
    if key == Items {
      OpenUndoesClose(j);
    } else if (key == Defs || key == Properties) && j.Obj? {
      OpenEachUndoesClose(j.fields);
    } else if (key == AnyOf || key == OneOf || key == AllOf) && j.Arr? {
      OpenListUndoesClose(j.items);
    }
  }

  lemma {:induction false} OpenEachUndoesClose(d: Dict)
    ensures OpenFields(CloseEach(d)) == OpenFields(d)
    decreases DictSize(d), 1
  {
    hide Close, Open;
    if d != [] {
      OpenUndoesClose(d[0].val);
      OpenEachUndoesClose(d[1..]);
      assert CloseEach(d)[1..] == CloseEach(d[1..]);
    }
  }

  lemma {:induction false} OpenListUndoesClose(items: seq<Json>)
    ensures OpenItems(CloseList(items)) == OpenItems(items)
    decreases ItemsSize(items), 3, |items|
  {
    hide Close, Open;
    if items != [] {
      OpenUndoesClose(items[0]);
      OpenListUndoesClose(items[1..]);
      assert CloseList(items)[1..] == CloseList(items[1..]);
    }
  }

  // ---- What opening leaves ----

  /** One step down any JSON value. */
  datatype Step = InField(key: Key) | InItem(index: nat)

  function Under(j: Json, step: Step): Option<Json> {
    match (j, step)
    case (Obj(fields), InField(k)) => Lookup(fields, k)
    case (Arr(items), InItem(i)) => if i < |items| then Some(items[i]) else None
    case _ => None
  }

  function Down(j: Json, path: seq<Step>): Option<Json>
    decreases |path|
  {
    if path == [] then Some(j)
    else match Under(j, path[0])
      case None => None
      case Some(next) => Down(next, path[1..])
  }

  lemma {:induction false} OpenedLookup(d: Dict, k: Key)
    ensures Lookup(OpenFields(d), k) ==
            if k == AdditionalProperties then None
            else match Lookup(d, k) case None => None case Some(v) => Some(Open(v))
    decreases |d|
  {
    hide Open;
    if d != [] {
      OpenedLookup(d[1..], k);
      if d[0].key != AdditionalProperties {
        assert OpenFields(d)[1..] == OpenFields(d[1..]);
      }
    }
  }

  lemma {:induction false} OpenedItems(items: seq<Json>)
    ensures |OpenItems(items)| == |items| && forall i :: 0 <= i < |items| ==> OpenItems(items)[i] == Open(items[i])
    decreases |items|
  {
    hide Open;
    if items != [] {
      OpenedItems(items[1..]);
      assert OpenItems(items)[1..] == OpenItems(items[1..]);
      forall i | 1 <= i < |items| ensures OpenItems(items)[i] == Open(items[i]) {
        assert OpenItems(items)[i] == OpenItems(items[1..])[i - 1] && items[i] == items[1..][i - 1];
      }
    }
  }

  /** Opening takes `additionalProperties` away everywhere, and nothing else: every other path
      leads where it led, through dicts and lists alike. */
  lemma {:induction false} OpenTakesOneKey(j: Json, path: seq<Step>)
    ensures Down(Open(j), path) ==
            if InField(AdditionalProperties) in path then None
            else match Down(j, path) case None => None case Some(v) => Some(Open(v))
    decreases |path|
  {
    hide Open, Lookup;
    if path != [] {
      assert path == [path[0]] + path[1..];
      OpenedUnder(j, path[0]);
      if Under(j, path[0]).Some? {
        OpenTakesOneKey(Under(j, path[0]).value, path[1..]);
      }
    }
  }

  lemma OpenedUnder(j: Json, step: Step)
    ensures Under(Open(j), step) ==
            if step == InField(AdditionalProperties) then None
            else match Under(j, step) case None => None case Some(v) => Some(Open(v))
  {
    hide Lookup, OpenFields, OpenItems;
    match j
    case Obj(fields) => if step.InField? { OpenedLookup(fields, step.key); }
    case Arr(items) => OpenedItems(items);
    case _ =>
  }

  /** Values that are neither dicts nor lists stay as they are, and lists keep their length. */
  lemma OpenKeepsValues(j: Json)
    ensures !j.Obj? && !j.Arr? ==> Open(j) == j
    ensures j.Arr? ==> Open(j).Arr? && |Open(j).items| == |j.items|
    ensures j.Obj? ==> Open(j).Obj?
  {
    if j.Arr? {
      OpenedItems(j.items);
    }
  }

  // ---- The functions as they run ----

  /** `set_additional_properties_false`. The code sets the node's own key before it goes
      inside; `CloseNodeCommutes` says that the order makes no difference. */
  method SetAdditionalPropertiesFalse(obj: Json) returns (r: Json)
    ensures r == Close(obj)
    decreases Size(obj), 2
  {
    hide CloseNode, CloseFields;
    if !obj.Obj? {
      return obj;
    }
    var current := CloseInside(obj.fields);
    if IsEmptyDict(Lookup(current, AdditionalProperties)) {
      current := Put(current, AdditionalProperties, Bool(false));
    }
    if Lookup(current, Type) == Some(Str("object")) || (Has(current, Properties) && !Has(current, AdditionalProperties)) {
      current := Put(current, AdditionalProperties, Bool(false));
    }
    assert current == CloseNode(CloseFields(obj.fields)) by { NodeSteps(CloseFields(obj.fields)); }
    r := Obj(current);
  }

  lemma NodeSteps(d: Dict)
    ensures var d1 := if IsEmptyDict(Lookup(d, AdditionalProperties)) then Put(d, AdditionalProperties, Bool(false)) else d;
            CloseNode(d) ==
            if Lookup(d1, Type) == Some(Str("object")) || (Has(d1, Properties) && !Has(d1, AdditionalProperties))
            then Put(d1, AdditionalProperties, Bool(false)) else d1
  {
  }

  method CloseInside(fields: Dict) returns (r: Dict)
    ensures r == CloseFields(fields)
    decreases DictSize(fields), 0
  {
    hide CloseUnder, Size;
    r := [];
    var i := 0;
    while i < |fields|
      invariant i <= |fields| && DictSize(fields[i..]) <= DictSize(fields)
      invariant r + CloseFields(fields[i..]) == CloseFields(fields)
    {
      ghost var left, before := fields[i..], r;
      assert left[0] == fields[i] && left[1..] == fields[i + 1..];
      FieldFits(left, fields);
      var value := CloseKeyword(fields[i].key, fields[i].val);
      r := r + [Field(fields[i].key, value)];
      i := i + 1;
      assert before + ([Field(fields[i - 1].key, value)] + CloseFields(fields[i..])) == r + CloseFields(fields[i..]);
    }
  }

  lemma FieldFits(left: Dict, fields: Dict)
    requires left != [] && DictSize(left) <= DictSize(fields)
    ensures Size(left[0].val) < DictSize(fields) && DictSize(left[1..]) <= DictSize(fields)
  {
  }

  method CloseKeyword(key: Key, value: Json) returns (r: Json)
    ensures r == CloseUnder(key, value)
    decreases Size(value), 3
  {
    hide Close, CloseEach, CloseList;
    if key == Items {
      r := SetAdditionalPropertiesFalse(value);
    } else if (key == Defs || key == Properties) && value.Obj? {
      var fields := CloseValues(value.fields);
      r := Obj(fields);
    } else if (key == AnyOf || key == OneOf || key == AllOf) && value.Arr? {
      var items := CloseVariants(value.items);
      r := Arr(items);
    } else {
      r := value;
    }
  }

  method CloseValues(fields: Dict) returns (r: Dict)
    ensures r == CloseEach(fields)
    decreases DictSize(fields), 1
  {
    hide Close, Size;
    r := [];
    var i := 0;
    while i < |fields|
      invariant i <= |fields| && DictSize(fields[i..]) <= DictSize(fields)
      invariant r + CloseEach(fields[i..]) == CloseEach(fields)
    {
      ghost var left, before := fields[i..], r;
      assert left[0] == fields[i] && left[1..] == fields[i + 1..];
      FieldFits(left, fields);
      var value := SetAdditionalPropertiesFalse(fields[i].val);
      r := r + [Field(fields[i].key, value)];
      i := i + 1;
      assert before + ([Field(fields[i - 1].key, value)] + CloseEach(fields[i..])) == r + CloseEach(fields[i..]);
    }
  }

  method CloseVariants(items: seq<Json>) returns (r: seq<Json>)
    ensures r == CloseList(items)
    decreases ItemsSize(items), 3, |items|
  {
    hide Close, Size;
    r := [];
    var i := 0;
    while i < |items|
      invariant i <= |items| && ItemsSize(items[i..]) <= ItemsSize(items)
      invariant r + CloseList(items[i..]) == CloseList(items)
    {
      ghost var left, before := items[i..], r;
      assert left[0] == items[i] && left[1..] == items[i + 1..];
      assert Size(items[i]) <= ItemsSize(items);
      var value := SetAdditionalPropertiesFalse(items[i]);
      r := r + [value];
      i := i + 1;
      assert before + ([value] + CloseList(items[i..])) == r + CloseList(items[i..]);
    }
  }

  /** `remove_additional_properties` */
  method RemoveAdditionalProperties(obj: Json) returns (r: Json)
    ensures r == Open(obj)
    decreases Size(obj), 2
  {
    hide OpenFields, OpenItems;
    match obj {
      case Obj(fields) =>
        var rest := RemoveFromFields(fields);
        r := Obj(rest);
      case Arr(items) =>
        var rest := RemoveFromItems(items);
        r := Arr(rest);
      case _ => r := obj;
    }
  }

  method RemoveFromFields(fields: Dict) returns (r: Dict)
    ensures r == OpenFields(fields)
    decreases DictSize(fields), 1
  {
    hide Open, Size;
    r := [];
    var i := 0;
    while i < |fields|
      invariant i <= |fields| && DictSize(fields[i..]) <= DictSize(fields)
      invariant r + OpenFields(fields[i..]) == OpenFields(fields)
    {
      ghost var left, before := fields[i..], r;
      assert left[0] == fields[i] && left[1..] == fields[i + 1..];
      FieldFits(left, fields);
      i := i + 1;
      if fields[i - 1].key != AdditionalProperties {
        var value := RemoveAdditionalProperties(fields[i - 1].val);
        r := r + [Field(fields[i - 1].key, value)];
        assert before + ([Field(fields[i - 1].key, value)] + OpenFields(fields[i..])) == r + OpenFields(fields[i..]);
      }
    }
  }

  method RemoveFromItems(items: seq<Json>) returns (r: seq<Json>)
    ensures r == OpenItems(items)
    decreases ItemsSize(items), 3, |items|
  {
    hide Open, Size;
    r := [];
    var i := 0;
    while i < |items|
      invariant i <= |items| && ItemsSize(items[i..]) <= ItemsSize(items)
      invariant r + OpenItems(items[i..]) == OpenItems(items)
    {
      ghost var left, before := items[i..], r;
      assert left[0] == items[i] && left[1..] == items[i + 1..];
      assert Size(items[i]) <= ItemsSize(items);
      var value := RemoveAdditionalProperties(items[i]);
      r := r + [value];
      i := i + 1;
      assert before + ([value] + OpenItems(items[i..])) == r + OpenItems(items[i..]);
    }
  }
}
