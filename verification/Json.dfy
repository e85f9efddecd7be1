/** JSON values as Python sees them: a dict is a sequence of fields in insertion
    order. The first field with a key is the one a lookup finds; keys of a real
    dict are unique, but nothing below relies on it.

    A key is a string. The JSON Schema keywords the code names are written as
    constructors, every other string as `Name`. */
module Json {
  import opened Wrappers

  datatype Json =
    | Null
    | Bool(b: bool)
    | Int(i: int)
    | Float(r: real)
    | Str(s: string)
    | Arr(items: seq<Json>)
    | Obj(fields: seq<Field>)

  datatype Field = Field(key: Key, val: Json)

  datatype Key =
    | Ref | Defs | Definitions | SchemaUri | Comment | Deprecated | Examples | ReadOnly | WriteOnly
    | Default | Description | Title | Example | Properties | AdditionalProperties | Items | AnyOf
    | OneOf | AllOf | Type | Enum | Required | Format | Pattern | MinItems | MaxItems | MinLength
    | MaxLength | MinProperties | MaxProperties | Minimum | Maximum | Name(text: string)

  type Dict = seq<Field>

  /** The key a string is. */
  function KeyOf(s: string): Key {
    match s
    case "$ref" => Ref
    case "$defs" => Defs
    case "definitions" => Definitions
    case "$schema" => SchemaUri
    case "$comment" => Comment
    case "deprecated" => Deprecated
    case "examples" => Examples
    case "readOnly" => ReadOnly
    case "writeOnly" => WriteOnly
    case "default" => Default
    case "description" => Description
    case "title" => Title
    case "example" => Example
    case "properties" => Properties
    case "additionalProperties" => AdditionalProperties
    case "items" => Items
    case "anyOf" => AnyOf
    case "oneOf" => OneOf
    case "allOf" => AllOf
    case "type" => Type
    case "enum" => Enum
    case "required" => Required
    case "format" => Format
    case "pattern" => Pattern
    case "minItems" => MinItems
    case "maxItems" => MaxItems
    case "minLength" => MinLength
    case "maxLength" => MaxLength
    case "minProperties" => MinProperties
    case "maxProperties" => MaxProperties
    case "minimum" => Minimum
    case "maximum" => Maximum
    case _ => Name(s)
  }

  // ---- Dictionary operations ----

  /** `d.get(k)`, with an absent key kept apart from a null value. */
  function Lookup(d: Dict, k: Key): Option<Json> {
    if d == [] then None
    else if d[0].key == k then Some(d[0].val)
    else Lookup(d[1..], k)
  }

  /** `k in d` */
  predicate Has(d: Dict, k: Key) { Lookup(d, k).Some? }

  /** `d[k] = v`: in place when the key is there, at the end otherwise. */
  function Put(d: Dict, k: Key, v: Json): (r: Dict)
    ensures Lookup(r, k) == Some(v)
    ensures forall j {:trigger Lookup(r, j)} :: j != k ==> Lookup(r, j) == Lookup(d, j)
    ensures forall f {:trigger f in r} :: f in r ==> f in d || f == Field(k, v)
  {
    if d == [] then [Field(k, v)]
    else if d[0].key == k then [Field(k, v)] + d[1..]
    else
      var rest := Put(d[1..], k, v);
      assert ([d[0]] + rest)[1..] == rest;
      [d[0]] + rest
  }

  /** The fields whose key is not in `ks`: `d.pop(k, None)` for each of them. */
  function Without(d: Dict, ks: set<Key>): (r: Dict)
    ensures forall j {:trigger Lookup(r, j)} :: Lookup(r, j) == if j in ks then None else Lookup(d, j)
    ensures forall f {:trigger f in r} :: f in r <==> f in d && f.key !in ks
    ensures |r| <= |d|
  {
    if d == [] then []
    else
      var rest := Without(d[1..], ks);
      assert ([d[0]] + rest)[1..] == rest;
      if d[0].key in ks then rest else [d[0]] + rest
  }

  /** `d.update(extra)` */
  function Update(d: Dict, extra: Dict): (r: Dict)
    ensures forall j {:trigger Lookup(r, j)} :: Lookup(r, j) == if Has(Last(extra), j) then Lookup(Last(extra), j) else Lookup(d, j)
    ensures forall f {:trigger f in r} :: f in r ==> f in d || f in extra
    decreases |extra|
  {
    if extra == [] then d
    else
      var n := |extra| - 1;
      assert Last(extra) == Put(Last(extra[..n]), extra[n].key, extra[n].val);
      Put(Update(d, extra[..n]), extra[n].key, extra[n].val)
  }

  /** The dict a sequence of assignments builds: later values win. */
  function Last(extra: Dict): (r: Dict)
    ensures forall f {:trigger f in r} :: f in r ==> f in extra
  {
    if extra == [] then [] else Put(Last(extra[..|extra| - 1]), extra[|extra| - 1].key, extra[|extra| - 1].val)
  }

  lemma {:induction false} LookupIsField(d: Dict, k: Key)
    requires Has(d, k)
    ensures Field(k, Lookup(d, k).value) in d
  {
    if d[0].key != k {
      LookupIsField(d[1..], k);
    }
  }

  lemma {:induction false} FieldIsFound(d: Dict, k: Key, v: Json)
    requires Field(k, v) in d
    ensures Has(d, k)
  {
    if d[0].key != k {
      FieldIsFound(d[1..], k, v);
    }
  }

  /** Assigning a key the value it has changes nothing. */
  lemma {:induction false} PutSame(d: Dict, k: Key)
    requires Has(d, k)
    ensures Put(d, k, Lookup(d, k).value) == d
  {
    if d[0].key != k {
      PutSame(d[1..], k);
    }
  }

  lemma {:induction false} WithoutAbsent(d: Dict, ks: set<Key>)
    requires forall f :: f in d ==> f.key !in ks
    ensures Without(d, ks) == d
  {
    if d != [] {
      WithoutAbsent(d[1..], ks);
    }
  }

  lemma WithoutNothing(d: Dict, ks: set<Key>)
    requires Without(d, ks) == []
    ensures forall f :: f in d ==> f.key in ks
  {
    assert forall f :: f in d && f.key !in ks ==> f in Without(d, ks);
  }

  // ---- Size ----

  function Size(j: Json): nat
    decreases j
  {
    match j
    case Arr(items) => 1 + ItemsSize(items)
    case Obj(fields) => 1 + DictSize(fields)
    case _ => 1
  }

  function ItemsSize(items: seq<Json>): nat
    decreases items
  {
    if items == [] then 0 else Size(items[0]) + ItemsSize(items[1..])
  }

  function DictSize(d: Dict): nat
    decreases d
  {
    if d == [] then 0 else FieldSize(d[0]) + DictSize(d[1..])
  }

  function FieldSize(f: Field): (n: nat)
    ensures n == 1 + Size(f.val)
    decreases f
  {
    1 + Size(f.val)
  }

  lemma {:induction false} LookupSmaller(d: Dict, k: Key)
    requires Has(d, k)
    ensures Size(Lookup(d, k).value) < DictSize(d)
  {
    if d[0].key != k {
      LookupSmaller(d[1..], k);
    }
  }

  lemma {:induction false} WithoutSmaller(d: Dict, ks: set<Key>)
    ensures DictSize(Without(d, ks)) <= DictSize(d)
  {
    if d != [] {
      WithoutSmaller(d[1..], ks);
      var rest := Without(d[1..], ks);
      assert ([d[0]] + rest)[1..] == rest;
    }
  }
}
