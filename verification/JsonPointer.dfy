/** JSON Pointer (RFC 6901) as the tool-schema normaliser prints it for an error
    path and reads it from a local `$ref`. */
module JsonPointer {
  import opened Wrappers
  import opened Json
  import Text

  type Path = seq<string>

  // ---- str.replace ----

  /** `s.replace(from, to)` for a one-character `from`. */
  function ReplaceChar(s: string, from: char, to: string): string {
    if s == "" then ""
    else (if s[0] == from then to else [s[0]]) + ReplaceChar(s[1..], from, to)
  }

  /** `s.replace(ab, to)` for the two-character string `ab`, leftmost first. */
  function ReplacePair(s: string, a: char, b: char, to: char): string {
    if s == "" then ""
    else if |s| >= 2 && s[0] == a && s[1] == b then [to] + ReplacePair(s[2..], a, b, to)
    else [s[0]] + ReplacePair(s[1..], a, b, to)
  }

  /** How a path part is printed: `~` first, then `/` (RFC 6901 section 3). */
  function Escape(part: string): string {
    ReplaceChar(ReplaceChar(part, '~', "~0"), '/', "~1")
  }

  /** How a pointer part is read: `~1` first, then `~0` (RFC 6901 section 4). */
  function Decode(encoded: string): string {
    ReplacePair(ReplacePair(encoded, '~', '1', '/'), '~', '0', '~')
  }

  /** Some `~` is not followed by `0` or `1`. */
  predicate InvalidEscape(s: string) {
    exists i :: 0 <= i < |s| && s[i] == '~' && (i + 1 == |s| || (s[i + 1] != '0' && s[i + 1] != '1'))
  }

  /** `IncompatibleToolSchema.json_path` */
  function JsonPath(path: Path): string {
    if path == [] then "/" else "/" + Text.Join(EscapeAll(path), '/')
  }

  function EscapeAll(path: Path): (r: seq<string>)
    ensures |r| == |path| && forall i :: 0 <= i < |path| ==> r[i] == Escape(path[i])
  {
    seq(|path|, i requires 0 <= i < |path| => Escape(path[i]))
  }

  // ---- The two directions ----

  lemma EscapeCons(c: char, s: string)
    ensures Escape([c] + s) ==
            (if c == '~' then "~0" else if c == '/' then "~1" else [c]) + Escape(s)
  {
    assert ([c] + s)[1..] == s;
    var inner := ReplaceChar(s, '~', "~0");
    if c == '~' {
      assert ReplaceChar([c] + s, '~', "~0") == "~0" + inner;
      assert ("~0" + inner)[1..] == "0" + inner;
      assert ("0" + inner)[1..] == inner;
      assert ReplaceChar("0" + inner, '/', "~1") == "0" + ReplaceChar(inner, '/', "~1");
      assert ReplaceChar("~0" + inner, '/', "~1") == "~0" + ReplaceChar(inner, '/', "~1");
    } else {
      assert ReplaceChar([c] + s, '~', "~0") == [c] + inner;
      assert ([c] + inner)[1..] == inner;
    }
  }

  lemma DecodeCons(c: char, s: string)
    requires c != '~'
    ensures Decode([c] + s) == [c] + Decode(s)
  {
    assert ([c] + s)[1..] == s;
    var inner := ReplacePair(s, '~', '1', '/');
    assert ([c] + inner)[1..] == inner;
  }

  lemma DecodeTilde(s: string)
    ensures Decode("~0" + s) == "~" + Decode(s)
    ensures Decode("~1" + s) == "/" + Decode(s)
  {
    var inner := ReplacePair(s, '~', '1', '/');
    assert ("~0" + s)[1..] == "0" + s && ("0" + s)[1..] == s;
    assert ReplacePair("0" + s, '~', '1', '/') == "0" + inner;
    assert ReplacePair("~0" + s, '~', '1', '/') == "~0" + inner;
    assert ("~0" + inner)[2..] == inner;
    assert ("~1" + s)[2..] == s;
    assert ("/" + inner)[1..] == inner;
  }

  /** Reading a printed part gives the part back, and a printed part has neither
      a separator nor an invalid escape. */
  lemma {:induction false} EscapeRoundTrip(part: string)
    ensures Decode(Escape(part)) == part
    ensures '/' !in Escape(part)
    ensures !InvalidEscape(Escape(part))
  {
    if part != "" {
      var c, s := part[0], part[1..];
      assert part == [c] + s;
      EscapeRoundTrip(s);
      EscapeCons(c, s);
      if c == '~' || c == '/' {
        DecodeTilde(Escape(s));
      } else {
        DecodeCons(c, Escape(s));
      }
      var head := if c == '~' then "~0" else if c == '/' then "~1" else [c];
      ValidAppend(head, Escape(s));
    }
  }

  lemma ValidAppend(head: string, tail: string)
    requires !InvalidEscape(head) && !InvalidEscape(tail)
    ensures !InvalidEscape(head + tail)
  {
    var s := head + tail;
    forall i | 0 <= i < |s| && s[i] == '~'
      ensures i + 1 < |s| && (s[i + 1] == '0' || s[i + 1] == '1')
    {
      if i < |head| {
        assert head[i] == '~';
        assert i + 1 < |head| && s[i + 1] == head[i + 1];
      } else {
        assert tail[i - |head|] == '~';
        assert i - |head| + 1 < |tail| && s[i + 1] == tail[i - |head| + 1];
      }
    }
  }

  /** Printing what was read gives the text back, for every separator-free text
      without an invalid escape: valid parts and strings correspond one to one. */
  lemma {:induction false} DecodeRoundTrip(encoded: string)
    requires '/' !in encoded && !InvalidEscape(encoded)
    ensures Escape(Decode(encoded)) == encoded
    decreases |encoded|
  {
    if encoded != "" {
      if encoded[0] == '~' {
        assert |encoded| >= 2 && (encoded[1] == '0' || encoded[1] == '1');
        var s := encoded[2..];
        assert encoded == (if encoded[1] == '0' then "~0" else "~1") + s;
        ValidSuffix(encoded, 2);
        DecodeRoundTrip(s);
        DecodeTilde(s);
        EscapeCons(if encoded[1] == '0' then '~' else '/', Decode(s));
      } else {
        var s := encoded[1..];
        assert encoded == [encoded[0]] + s;
        ValidSuffix(encoded, 1);
        DecodeRoundTrip(s);
        DecodeCons(encoded[0], s);
        EscapeCons(encoded[0], Decode(s));
      }
    }
  }

  lemma ValidSuffix(s: string, k: nat)
    requires k <= |s| && !InvalidEscape(s)
    ensures !InvalidEscape(s[k..])
  {
    var t := s[k..];
    forall i | 0 <= i < |t| && t[i] == '~'
      ensures i + 1 < |t| && (t[i + 1] == '0' || t[i + 1] == '1')
    {
      assert s[k + i] == '~';
    }
  }

  // ---- Whole pointers ----

  function DecodeAll(parts: seq<string>): (r: Path)
    ensures |r| == |parts| && forall i :: 0 <= i < |parts| ==> r[i] == Decode(parts[i])
  {
    seq(|parts|, i requires 0 <= i < |parts| => Decode(parts[i]))
  }

  /** The path an error message prints is the path a pointer reader reads, for
      every non-empty path, and no part of it is an invalid escape. */
  lemma JsonPathRoundTrip(path: Path)
    requires path != []
    ensures JsonPath(path)[0] == '/'
    ensures Text.Split(JsonPath(path)[1..], '/') == EscapeAll(path)
    ensures DecodeAll(Text.Split(JsonPath(path)[1..], '/')) == path
    ensures forall p :: p in Text.Split(JsonPath(path)[1..], '/') ==> !InvalidEscape(p)
  {
    forall i | 0 <= i < |path|
      ensures Decode(Escape(path[i])) == path[i]
      ensures '/' !in Escape(path[i])
      ensures !InvalidEscape(Escape(path[i]))
    {
      EscapeRoundTrip(path[i]);
    }
    Text.SplitJoin(EscapeAll(path), '/');
    assert JsonPath(path)[1..] == Text.Join(EscapeAll(path), '/');
    assert DecodeAll(EscapeAll(path)) == path;
  }

  /** The empty path is not one of them: it prints like the path of one empty part. */
  lemma EmptyPathIsAmbiguous()
    ensures JsonPath([]) == JsonPath([""])
  {
    assert EscapeAll([""]) == [""];
  }

  /** Two non-empty paths print alike only if they are the same path. */
  lemma JsonPathInjective(a: Path, b: Path)
    requires a != [] && b != [] && JsonPath(a) == JsonPath(b)
    ensures a == b
  {
    JsonPathRoundTrip(a);
    JsonPathRoundTrip(b);
  }

  // ---- Following a pointer ----

  datatype PointerError = InvalidPart | Unresolved | NotAnObject

  /** An array index as a pointer writes it: no sign and no leading zero. */
  predicate IsIndex(part: string) {
    part == "0" || (Text.IsNumeral(part) && part[0] != '0')
  }

  /** One step of the walk. */
  function Child(target: Json, part: string, keyOf: string -> Key): Option<Json> {
    match target
    case Obj(fields) => Lookup(fields, keyOf(part))
    case Arr(items) =>
      if IsIndex(part) && Text.ParseDecimal(part) < |items|
      then Some(items[Text.ParseDecimal(part)]) else None
    case _ => None
  }

  /** The value at a decoded path: RFC 6901 section 4. */
  function At(doc: Json, path: Path, keyOf: string -> Key): Option<Json>
    decreases |path|
  {
    if path == [] then Some(doc)
    else match Child(doc, path[0], keyOf)
      case None => None
      case Some(next) => At(next, path[1..], keyOf)
  }

  /** What `_resolve_reference` returns for the parts of a pointer. */
  function Follow(doc: Json, parts: seq<string>, keyOf: string -> Key): Result<Json, PointerError>
    decreases |parts|
  {
    if parts == [] then Ok(doc)
    else if InvalidEscape(parts[0]) then Err(InvalidPart)
    else match Child(doc, Decode(parts[0]), keyOf)
      case None => Err(Unresolved)
      case Some(next) => Follow(next, parts[1..], keyOf)
  }

  function Resolve(doc: Json, pointer: string, keyOf: string -> Key): Result<Dict, PointerError>
    requires pointer != ""
  {
    var target :- Follow(doc, Text.Split(pointer[1..], '/'), keyOf);
    if target.Obj? then Ok(target.fields) else Err(NotAnObject)
  }

  lemma {:induction false} FollowSnoc(doc: Json, parts: seq<string>, part: string, keyOf: string -> Key)
    ensures Follow(doc, parts + [part], keyOf) ==
            match Follow(doc, parts, keyOf)
            case Err(e) => Err(e)
            case Ok(j) => Follow(j, [part], keyOf)
    decreases |parts|
  {
    if parts == [] {
      assert [] + [part] == [part];
    } else {
      assert (parts + [part])[1..] == parts[1..] + [part];
      if !InvalidEscape(parts[0]) && Child(doc, Decode(parts[0]), keyOf).Some? {
        FollowSnoc(Child(doc, Decode(parts[0]), keyOf).value, parts[1..], part, keyOf);
      }
    }
  }

  /** `_resolve_reference`: the loop over the parts, with its `target` variable. */
  method ResolveReference(doc: Json, pointer: string, keyOf: string -> Key) returns (r: Result<Dict, PointerError>)
    requires pointer != ""
    ensures r == Resolve(doc, pointer, keyOf)
  {
    var parts := Text.Split(pointer[1..], '/');
    var target := doc;
    for i := 0 to |parts|
      invariant Follow(doc, parts[..i], keyOf) == Ok(target)
    {
      ghost var before := parts[..i];
      FollowSnoc(doc, before, parts[i], keyOf);
      assert parts[..i + 1] == before + [parts[i]];
      FollowPrefix(doc, parts, i + 1, keyOf);
      if InvalidEscape(parts[i]) {
        return Err(InvalidPart);
      }
      var part := Decode(parts[i]);
      if target.Obj? && Lookup(target.fields, keyOf(part)).Some? {
        target := Lookup(target.fields, keyOf(part)).value;
      } else if target.Arr? && IsIndex(part) {
        var index := Text.ParseDecimal(part);
        if index >= |target.items| {
          return Err(Unresolved);
        }
        target := target.items[index];
      } else {
        return Err(Unresolved);
      }
    }
    assert parts[..|parts|] == parts;
    if !target.Obj? {
      return Err(NotAnObject);
    }
    r := Ok(target.fields);
  }

  lemma {:induction false} FollowPrefix(doc: Json, parts: seq<string>, k: nat, keyOf: string -> Key)
    requires k <= |parts|
    ensures Follow(doc, parts[..k], keyOf).Err? ==> Follow(doc, parts, keyOf) == Follow(doc, parts[..k], keyOf)
    decreases k
  {
    if k > 0 {
      assert parts[..k][1..] == parts[1..][..k - 1];
      assert parts[..k][0] == parts[0];
      if !InvalidEscape(parts[0]) && Child(doc, Decode(parts[0]), keyOf).Some? {
        FollowPrefix(Child(doc, Decode(parts[0]), keyOf).value, parts[1..], k - 1, keyOf);
      }
    }
  }

  /** Following the printed form of a path finds the value at that path, and
      fails exactly when the path leads nowhere or not to an object. */
  lemma ResolveJsonPath(doc: Json, path: Path, keyOf: string -> Key)
    requires path != []
    ensures Resolve(doc, JsonPath(path), keyOf) ==
            match At(doc, path, keyOf)
            case None => Err(Unresolved)
            case Some(j) => if j.Obj? then Ok(j.fields) else Err(NotAnObject)
  {
    JsonPathRoundTrip(path);
    FollowEscaped(doc, path, keyOf);
  }

  lemma {:induction false} FollowEscaped(doc: Json, path: Path, keyOf: string -> Key)
    ensures Follow(doc, EscapeAll(path), keyOf) == match At(doc, path, keyOf) case None => Err(Unresolved) case Some(j) => Ok(j)
    decreases |path|
  {
    if path != [] {
      EscapeRoundTrip(path[0]);
      assert EscapeAll(path)[1..] == EscapeAll(path[1..]);
      if Child(doc, path[0], keyOf).Some? {
        FollowEscaped(Child(doc, path[0], keyOf).value, path[1..], keyOf);
      }
    }
  }

  // ---- What following a pointer finds ----

  lemma {:induction false} NumeralIsPrinted(s: string)
    requires Text.IsNumeral(s) && s[0] != '0'
    ensures Text.ToDecimal(Text.ParseDecimal(s)) == s && Text.ParseDecimal(s) > 0
    decreases |s|
  {
    var n := |s| - 1;
    if n > 0 {
      NumeralIsPrinted(s[..n]);
      assert s == s[..n] + [s[n]];
      assert Text.ParseDecimal(s) == 10 * Text.ParseDecimal(s[..n]) + Text.DigitValue(s[n]);
      assert Text.DigitChar(Text.DigitValue(s[n])) == s[n];
    } else {
      assert s == [s[0]] && Text.ParseDecimal(s[..0]) == 0;
      assert Text.DigitChar(Text.DigitValue(s[0])) == s[0];
    }
  }

  /** Of a list, a part finds an element exactly if it is the element's index as printed. */
  lemma IndexFindsElement(items: seq<Json>, part: string, v: Json, keyOf: string -> Key)
    ensures Child(Arr(items), part, keyOf) == Some(v) <==>
            exists i :: 0 <= i < |items| && part == Text.ToDecimal(i) && v == items[i]
  {
    if Child(Arr(items), part, keyOf) == Some(v) {
      if part == "0" {
        assert part == Text.ToDecimal(0) && Text.ParseDecimal(part) == 0 by { Text.ParseToDecimal(0); }
      } else {
        NumeralIsPrinted(part);
      }
      assert part == Text.ToDecimal(Text.ParseDecimal(part));
    }
    if i :| 0 <= i < |items| && part == Text.ToDecimal(i) && v == items[i] {
      Text.ParseToDecimal(i);
      if i == 0 { assert part == "0"; }
    }
  }

  lemma DecodeAllParts(parts: seq<string>)
    requires parts != []
    ensures DecodeAll(parts)[0] == Decode(parts[0]) && DecodeAll(parts)[1..] == DecodeAll(parts[1..])
  {
  }

  /** The parts of a pointer lead where its decoded path does. */
  lemma {:induction false} ValidPartsLead(doc: Json, parts: seq<string>, keyOf: string -> Key)
    requires forall p :: p in parts ==> !InvalidEscape(p)
    ensures Follow(doc, parts, keyOf) == match At(doc, DecodeAll(parts), keyOf) case None => Err(Unresolved) case Some(j) => Ok(j)
    decreases |parts|
  {
    hide InvalidEscape, Child, Decode;
    if parts != [] {
      DecodeAllParts(parts);
      assert parts[0] in parts && forall p :: p in parts[1..] ==> p in parts;
      if Child(doc, Decode(parts[0]), keyOf).Some? {
        ValidPartsLead(Child(doc, Decode(parts[0]), keyOf).value, parts[1..], keyOf);
      }
    }
  }

  /** A part that is no valid escape is an error, unless the parts before it lead nowhere. */
  lemma {:induction false} InvalidPartFails(doc: Json, parts: seq<string>, k: nat, keyOf: string -> Key)
    requires k < |parts| && InvalidEscape(parts[k]) && forall i :: 0 <= i < k ==> !InvalidEscape(parts[i])
    ensures Follow(doc, parts, keyOf) == Err(if At(doc, DecodeAll(parts[..k]), keyOf).Some? then InvalidPart else Unresolved)
    decreases |parts|
  {
    hide InvalidEscape, Child, Decode;
    if k > 0 {
      assert parts[..k][0] == parts[0] && parts[..k][1..] == parts[1..][..k - 1];
      DecodeAllParts(parts[..k]);
      if Child(doc, Decode(parts[0]), keyOf).Some? {
        InvalidPartFails(Child(doc, Decode(parts[0]), keyOf).value, parts[1..], k - 1, keyOf);
      }
    }
  }
}
