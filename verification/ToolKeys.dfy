/** `json.dumps` with ASCII escapes, and why no two different values print the same. */
module ToolKeys {
  import opened Wrappers
  import opened ToolArguments
  import Text

  // ---- Characters ----

  function HexDigit(d: nat): char
    requires d < 16
  {
    if d < 10 then ('0' as int + d) as char else ('a' as int + d - 10) as char
  }

  function Unit(n: nat): (s: string)
    requires n < 0x10000
    ensures |s| == 6 && s[0] == '\\' && s[1] == 'u'
  {
    ['\\', 'u', HexDigit(n / 0x1000), HexDigit(n / 0x100 % 0x10), HexDigit(n / 0x10 % 0x10), HexDigit(n % 0x10)]
  }

  /** The two-character escapes. */
  function Short(c: char): Option<char> {
    if c == '\"' then Some('\"') else if c == '\\' then Some('\\')
    else if c == '\n' then Some('n') else if c == '\r' then Some('r') else if c == '\t' then Some('t')
    else if c as int == 8 then Some('b') else if c as int == 12 then Some('f') else None
  }

  predicate IsPlain(c: char) { ' ' <= c <= '~' && Short(c).None? }

  /** One character in a printed string: itself, a short escape, or one or two code units. */
  function Escape(c: char): (s: string)
    ensures s != "" && s[0] != '\"' && (s[0] == '\\' <==> !IsPlain(c))
  {
    if IsPlain(c) then [c]
    else if Short(c).Some? then ['\\', Short(c).value]
    else if c as int < 0x10000 then Unit(c as int)
    else
      var n := c as int - 0x10000;
      Unit(0xD800 + n / 0x400) + Unit(0xDC00 + n % 0x400)
  }

  function EscapeAll(s: string): string {
    if s == "" then "" else Escape(s[0]) + EscapeAll(s[1..])
  }

  lemma HexDigitInjective(a: nat, b: nat)
    requires a < 16 && b < 16 && HexDigit(a) == HexDigit(b)
    ensures a == b
  {
  }

  lemma HexParts(n: nat)
    requires n < 0x10000
    ensures n == 0x1000 * (n / 0x1000) + 0x100 * (n / 0x100 % 0x10) + 0x10 * (n / 0x10 % 0x10) + n % 0x10
  {
    assert n / 0x100 == 0x10 * (n / 0x1000) + n / 0x100 % 0x10;
    assert n / 0x10 == 0x10 * (n / 0x100) + n / 0x10 % 0x10;
  }

  lemma UnitInjective(m: nat, n: nat, x: string, y: string)
    requires m < 0x10000 && n < 0x10000 && Unit(m) + x == Unit(n) + y
    ensures m == n && x == y
  {
    UnitsSplit(m, n, x, y);
    hide Unit, HexDigit;
    HexDigitInjective(m / 0x1000, n / 0x1000);
    HexDigitInjective(m / 0x100 % 0x10, n / 0x100 % 0x10);
    HexDigitInjective(m / 0x10 % 0x10, n / 0x10 % 0x10);
    HexDigitInjective(m % 0x10, n % 0x10);
    HexParts(m);
    HexParts(n);
  }

  lemma UnitsSplit(m: nat, n: nat, x: string, y: string)
    requires m < 0x10000 && n < 0x10000 && Unit(m) + x == Unit(n) + y
    ensures HexDigit(m / 0x1000) == HexDigit(n / 0x1000) && HexDigit(m / 0x100 % 0x10) == HexDigit(n / 0x100 % 0x10)
    ensures HexDigit(m / 0x10 % 0x10) == HexDigit(n / 0x10 % 0x10) && HexDigit(m % 0x10) == HexDigit(n % 0x10)
    ensures x == y
  {
    hide HexDigit;
    var s, t := Unit(m) + x, Unit(n) + y;
    assert s[2] == t[2] && s[3] == t[3] && s[4] == t[4] && s[5] == t[5];
    assert x == s[6..] && y == t[6..];
  }

  lemma ShortInjective(c: char, d: char)
    requires Short(c).Some? && Short(c) == Short(d)
    ensures c == d
  {
  }

  /** No code of a character is the beginning of another's. */
  lemma EscapeUnambiguous(c: char, d: char, x: string, y: string)
    requires Escape(c) + x == Escape(d) + y
    ensures c == d && x == y
  {
    hide Unit, Short;
    var s, t := Escape(c) + x, Escape(d) + y;
    assert s[0] == Escape(c)[0] && t[0] == Escape(d)[0];
    if IsPlain(c) {
      assert x == s[1..] && y == t[1..];
    } else {
      SecondTells(c, x);
      SecondTells(d, y);
      if Short(c).Some? {
        ShortInjective(c, d);
        assert x == s[2..] && y == t[2..];
      } else {
        LongUnambiguous(c, d, x, y);
      }
    }
  }

  /** The character after the backslash tells a short escape from a code unit. */
  lemma SecondTells(c: char, x: string)
    requires !IsPlain(c)
    ensures if Short(c).Some? then (Escape(c) + x)[1] == Short(c).value && Short(c).value != 'u' else (Escape(c) + x)[1] == 'u'
  {
  }

  predicate IsLong(c: char) { !IsPlain(c) && Short(c).None? }

  lemma LongUnambiguous(c: char, d: char, x: string, y: string)
    requires IsLong(c) && IsLong(d) && Escape(c) + x == Escape(d) + y
    ensures c == d && x == y
  {
    hide Unit, IsPlain;
    var m, n := c as int, d as int;
    var u := if m < 0x10000 then m else 0xD800 + (m - 0x10000) / 0x400;
    var v := if n < 0x10000 then n else 0xD800 + (n - 0x10000) / 0x400;
    var xs := if m < 0x10000 then x else Unit(0xDC00 + (m - 0x10000) % 0x400) + x;
    var ys := if n < 0x10000 then y else Unit(0xDC00 + (n - 0x10000) % 0x400) + y;
    assert Escape(c) + x == Unit(u) + xs;
    assert Escape(d) + y == Unit(v) + ys;
    UnitInjective(u, v, xs, ys);
    if m >= 0x10000 && n >= 0x10000 {
      UnitInjective(0xDC00 + (m - 0x10000) % 0x400, 0xDC00 + (n - 0x10000) % 0x400, x, y);
    }
  }

  /** A printed string ends at its first bare quote. */
  lemma {:induction false} StringUnambiguous(s: string, t: string, x: string, y: string)
    requires EscapeAll(s) + "\"" + x == EscapeAll(t) + "\"" + y
    ensures s == t && x == y
  {
    hide Escape;
    var a, b := EscapeAll(s) + "\"" + x, EscapeAll(t) + "\"" + y;
    assert a[0] == if s == "" then '\"' else Escape(s[0])[0];
    assert b[0] == if t == "" then '\"' else Escape(t[0])[0];
    if s == "" {
      assert x == a[1..] && y == b[1..];
    } else {
      assert a == Escape(s[0]) + (EscapeAll(s[1..]) + "\"" + x);
      assert b == Escape(t[0]) + (EscapeAll(t[1..]) + "\"" + y);
      EscapeUnambiguous(s[0], t[0], EscapeAll(s[1..]) + "\"" + x, EscapeAll(t[1..]) + "\"" + y);
      StringUnambiguous(s[1..], t[1..], x, y);
      assert s == [s[0]] + s[1..] && t == [t[0]] + t[1..];
    }
  }

  // ---- Values ----

  function IntText(i: int): (s: string)
    ensures s != "" && (Text.IsDigit(s[0]) || s[0] == '-') && forall j :: 0 <= j < |s| ==> Text.IsDigit(s[j]) || s[j] == '-'
  {
    if i >= 0 then Text.ToDecimal(i) else "-" + Text.ToDecimal(-i)
  }

  function DumpString(s: string): string { "\"" + EscapeAll(s) + "\"" }

  function Dump(v: Value): string
    decreases v
  {
    match v
    case Null => "null"
    case Bool(b) => if b then "true" else "false"
    case Int(i) => IntText(i)
    case Float(text) => text
    case Str(s) => DumpString(s)
    case List(items) => "[" + DumpItems(items) + "]"
    case Dict(entries) => "{" + DumpEntries(entries) + "}"
  }

  function DumpItems(items: seq<Value>): string
    decreases items
  {
    if items == [] then "" else Dump(items[0]) + if |items| == 1 then "" else ", " + DumpItems(items[1..])
  }

  function DumpEntries(entries: seq<Entry>): string
    decreases entries
  {
    if entries == [] then "" else DumpEntry(entries[0]) + if |entries| == 1 then "" else ", " + DumpEntries(entries[1..])
  }

  function DumpEntry(e: Entry): string
    decreases e
  {
    DumpString(e.key) + ": " + Dump(e.value)
  }

  // ---- Different values print differently ----

  /** What may follow a value. */
  predicate Delimits(x: string) { x != "" ==> x[0] == ',' || x[0] == ']' || x[0] == '}' }

  predicate IsNumber(v: Value) { v.Int? || v.Float? }

  /** The first character tells the kind of a value. */
  function Kind(v: Value): char {
    match v
    case Null => 'n'
    case Bool(b) => if b then 't' else 'f'
    case Str(_) => '\"'
    case List(_) => '['
    case Dict(_) => '{'
    case _ => '0'
  }

  lemma FirstTellsKind(v: Value)
    requires WellFormed(v)
    ensures Dump(v) != "" && if IsNumber(v) then StartsNumber(Dump(v)[0]) else Dump(v)[0] == Kind(v)
  {
  }

  lemma SameKind(a: Value, b: Value, x: string, y: string)
    requires WellFormed(a) && WellFormed(b) && Dump(a) + x == Dump(b) + y
    ensures IsNumber(a) == IsNumber(b) && Kind(a) == Kind(b)
  {
    hide Dump;
    FirstTellsKind(a);
    FirstTellsKind(b);
    assert (Dump(a) + x)[0] == Dump(a)[0] && (Dump(b) + y)[0] == Dump(b)[0];
    assert !StartsNumber('n') && !StartsNumber('t') && !StartsNumber('f') && !StartsNumber('\"') && !StartsNumber('[') && !StartsNumber('{');
  }

  predicate AllNumberChars(s: string) { forall i :: 0 <= i < |s| ==> IsNumberChar(s[i]) }

  lemma {:induction false} TokensSplit(s: string, t: string, x: string, y: string)
    requires AllNumberChars(s) && AllNumberChars(t) && Delimits(x) && Delimits(y) && s + x == t + y
    ensures s == t && x == y
  {
    assert !IsNumberChar(',') && !IsNumberChar(']') && !IsNumberChar('}');
    assert s != "" ==> (s + x)[0] == s[0];
    assert t != "" ==> (t + y)[0] == t[0];
    assert s == "" ==> s + x == x;
    assert t == "" ==> t + y == y;
    if s == "" || t == "" {
      assert s + x == x && t + y == y;
    } else {
      assert s[0] == (s + x)[0] == (t + y)[0] == t[0];
      assert (s + x)[1..] == s[1..] + x && (t + y)[1..] == t[1..] + y;
      TokensSplit(s[1..], t[1..], x, y);
      assert s == [s[0]] + s[1..] && t == [t[0]] + t[1..];
    }
  }

  lemma IntTextInjective(i: int, j: int)
    requires IntText(i) == IntText(j)
    ensures i == j
  {
    assert !Text.IsDigit('-');
    assert IntText(i)[0] == '-' <==> i < 0;
    assert IntText(j)[0] == '-' <==> j < 0;
    if i >= 0 {
      Text.ToDecimalInjective(i, j);
    } else {
      assert IntText(i)[1..] == Text.ToDecimal(-i) && IntText(j)[1..] == Text.ToDecimal(-j);
      Text.ToDecimalInjective(-i, -j);
    }
  }

  lemma NumbersUnambiguous(a: Value, b: Value, x: string, y: string)
    requires WellFormed(a) && WellFormed(b) && IsNumber(a) && IsNumber(b)
    requires Delimits(x) && Delimits(y) && Dump(a) + x == Dump(b) + y
    ensures a == b && x == y
  {
    hide IntText, Delimits;
    TokensSplit(Dump(a), Dump(b), x, y);
    if a.Int? && b.Int? {
      IntTextInjective(a.i, b.i);
    }
  }

  lemma {:induction false} DumpUnambiguous(a: Value, b: Value, x: string, y: string)
    requires WellFormed(a) && WellFormed(b) && Delimits(x) && Delimits(y)
    requires Dump(a) + x == Dump(b) + y
    ensures a == b && x == y
    decreases a
  {
    hide Delimits, Kind, Dump;
    SameKind(a, b, x, y);
    if IsNumber(a) {
      NumbersUnambiguous(a, b, x, y);
    } else {
      KindsDiffer(a, b);
      match a
      case Null => AtomsUnambiguous(a, b, x, y);
      case Bool(v) => AtomsUnambiguous(a, b, x, y);
      case Str(v) => StringsUnambiguous(v, b.s, x, y);
      case List(items) => ListsUnambiguous(items, b.items, x, y);
      case Dict(entries) => DictsUnambiguous(entries, b.entries, x, y);
    }
  }

  lemma AtomsUnambiguous(a: Value, b: Value, x: string, y: string)
    requires a == b && (a.Null? || a.Bool?) && Dump(a) + x == Dump(b) + y
    ensures x == y
  {
    assert x == (Dump(a) + x)[|Dump(a)|..] && y == (Dump(b) + y)[|Dump(b)|..];
  }

  lemma StringsUnambiguous(a: string, b: string, x: string, y: string)
    requires Dump(Str(a)) + x == Dump(Str(b)) + y
    ensures a == b && x == y
  {
    hide EscapeAll;
    assert (DumpString(a) + x)[1..] == EscapeAll(a) + "\"" + x;
    assert (DumpString(b) + y)[1..] == EscapeAll(b) + "\"" + y;
    StringUnambiguous(a, b, x, y);
  }

  lemma ListsUnambiguous(a: seq<Value>, b: seq<Value>, x: string, y: string)
    requires WellFormedItems(a) && WellFormedItems(b) && Dump(List(a)) + x == Dump(List(b)) + y
    ensures a == b && x == y
    decreases a, 1
  {
    hide DumpItems, WellFormedItems;
    assert (Dump(List(a)) + x)[1..] == DumpItems(a) + "]" + x && (Dump(List(b)) + y)[1..] == DumpItems(b) + "]" + y;
    ItemsUnambiguous(a, b, x, y);
  }

  lemma DictsUnambiguous(a: seq<Entry>, b: seq<Entry>, x: string, y: string)
    requires WellFormedEntries(a) && WellFormedEntries(b) && Dump(Dict(a)) + x == Dump(Dict(b)) + y
    ensures a == b && x == y
    decreases a, 1
  {
    hide DumpEntries, WellFormedEntries;
    assert (Dump(Dict(a)) + x)[1..] == DumpEntries(a) + "}" + x && (Dump(Dict(b)) + y)[1..] == DumpEntries(b) + "}" + y;
    EntriesUnambiguous(a, b, x, y);
  }

  lemma KindsDiffer(a: Value, b: Value)
    requires Kind(a) == Kind(b) && !IsNumber(a) && !IsNumber(b)
    ensures a.Null? == b.Null? && a.Str? == b.Str? && a.List? == b.List? && a.Dict? == b.Dict? && a.Bool? == b.Bool?
    ensures a.Bool? ==> a.b == b.b
  {
  }

  lemma {:induction false} ItemsUnambiguous(a: seq<Value>, b: seq<Value>, x: string, y: string)
    requires WellFormedItems(a) && WellFormedItems(b)
    requires DumpItems(a) + "]" + x == DumpItems(b) + "]" + y
    ensures a == b && x == y
    decreases a, 0
  {
    hide Dump, WellFormed;
    var s, t := DumpItems(a) + "]" + x, DumpItems(b) + "]" + y;
    ItemsStart(a, x);
    ItemsStart(b, y);
    if a == [] {
      assert x == s[1..] && y == t[1..];
    } else {
      var u := (if |a| == 1 then "" else ", " + DumpItems(a[1..])) + "]" + x;
      var v := (if |b| == 1 then "" else ", " + DumpItems(b[1..])) + "]" + y;
      assert s == Dump(a[0]) + u && t == Dump(b[0]) + v;
      DumpUnambiguous(a[0], b[0], u, v);
      if |a| == 1 {
        assert u[0] == ']' && u[1..] == x && v[1..] == y;
        assert a == [a[0]] && b == [b[0]];
      } else {
        assert u[0] == ',';
        assert u[2..] == DumpItems(a[1..]) + "]" + x && v[2..] == DumpItems(b[1..]) + "]" + y;
        ItemsUnambiguous(a[1..], b[1..], x, y);
        assert a == [a[0]] + a[1..] && b == [b[0]] + b[1..];
      }
    }
  }

  lemma ItemsStart(items: seq<Value>, x: string)
    requires WellFormedItems(items)
    ensures (DumpItems(items) + "]" + x)[0] == ']' <==> items == []
  {
    hide Dump, WellFormed;
    if items != [] {
      FirstIsNoBracket(items[0]);
      assert DumpItems(items)[0] == Dump(items[0])[0];
    }
  }

  lemma FirstIsNoBracket(v: Value)
    requires WellFormed(v)
    ensures Dump(v) != "" && Dump(v)[0] != ']'
  {
    hide Dump, WellFormed;
    FirstTellsKind(v);
    assert !StartsNumber(']');
  }

  lemma {:induction false} EntriesUnambiguous(a: seq<Entry>, b: seq<Entry>, x: string, y: string)
    requires WellFormedEntries(a) && WellFormedEntries(b)
    requires DumpEntries(a) + "}" + x == DumpEntries(b) + "}" + y
    ensures a == b && x == y
    decreases a, 0
  {
    hide DumpEntry, WellFormedEntry, HasKey;
    var s, t := DumpEntries(a) + "}" + x, DumpEntries(b) + "}" + y;
    EntriesStart(a, x);
    EntriesStart(b, y);
    if a == [] {
      assert x == s[1..] && y == t[1..];
    } else {
      var u := (if |a| == 1 then "" else ", " + DumpEntries(a[1..])) + "}" + x;
      var v := (if |b| == 1 then "" else ", " + DumpEntries(b[1..])) + "}" + y;
      assert s == DumpEntry(a[0]) + u && t == DumpEntry(b[0]) + v;
      EntryUnambiguous(a[0], b[0], u, v);
      if |a| == 1 {
        assert u[0] == '}' && u[1..] == x && v[1..] == y;
        assert a == [a[0]] && b == [b[0]];
      } else {
        assert u[0] == ',';
        assert u[2..] == DumpEntries(a[1..]) + "}" + x && v[2..] == DumpEntries(b[1..]) + "}" + y;
        EntriesUnambiguous(a[1..], b[1..], x, y);
        assert a == [a[0]] + a[1..] && b == [b[0]] + b[1..];
      }
    }
  }

  lemma EntriesStart(entries: seq<Entry>, x: string)
    ensures (DumpEntries(entries) + "}" + x)[0] == '}' <==> entries == []
  {
    hide DumpEntry;
    if entries != [] {
      EntryStartsWithQuote(entries[0]);
      assert DumpEntries(entries)[0] == DumpEntry(entries[0])[0];
    }
  }

  lemma EntryStartsWithQuote(e: Entry)
    ensures DumpEntry(e) != "" && DumpEntry(e)[0] == '\"'
  {
  }

  lemma EntryUnambiguous(a: Entry, b: Entry, x: string, y: string)
    requires WellFormedEntry(a) && WellFormedEntry(b) && Delimits(x) && Delimits(y)
    requires DumpEntry(a) + x == DumpEntry(b) + y
    ensures a == b && x == y
    decreases a
  {
    hide Dump, WellFormed, EscapeAll, Delimits;
    var s, t := DumpEntry(a) + x, DumpEntry(b) + y;
    assert s[1..] == EscapeAll(a.key) + "\"" + (": " + Dump(a.value) + x);
    assert t[1..] == EscapeAll(b.key) + "\"" + (": " + Dump(b.value) + y);
    StringUnambiguous(a.key, b.key, ": " + Dump(a.value) + x, ": " + Dump(b.value) + y);
    assert (": " + Dump(a.value) + x)[2..] == Dump(a.value) + x && (": " + Dump(b.value) + y)[2..] == Dump(b.value) + y;
    DumpUnambiguous(a.value, b.value, x, y);
  }

  // ---- The key of a tool call ----

  /** `_tool_call_key`: absent arguments count as none. The keys of the outer object are in
      order already, as are those of the normalised arguments. */
  function ToolCallKey(name: string, arguments: seq<Entry>): string {
    Dump(Dict([Entry("tool_arguments", Normalize(Dict(arguments))), Entry("tool_name", Str(name))]))
  }

  /** Two calls share a key if and only if they have the same tool and arguments that are
      equal up to the order of object keys, at every depth. */
  lemma SameKeyIffSameCall(name1: string, arguments1: seq<Entry>, name2: string, arguments2: seq<Entry>)
    requires WellFormed(Dict(arguments1)) && WellFormed(Dict(arguments2))
    ensures ToolCallKey(name1, arguments1) == ToolCallKey(name2, arguments2) <==>
            name1 == name2 && Mean(Dict(arguments1)) == Mean(Dict(arguments2))
  {
    hide Dump, Normalize, Mean, WellFormedEntries;
    var e1 := [Entry("tool_arguments", Normalize(Dict(arguments1))), Entry("tool_name", Str(name1))];
    var e2 := [Entry("tool_arguments", Normalize(Dict(arguments2))), Entry("tool_name", Str(name2))];
    NormalizedIffSameMeaning(Dict(arguments1), Dict(arguments2));
    if ToolCallKey(name1, arguments1) == ToolCallKey(name2, arguments2) {
      OuterIsWellFormed(name1, arguments1);
      OuterIsWellFormed(name2, arguments2);
      assert Dump(Dict(e1)) + "" == Dump(Dict(e2)) + "";
      DumpUnambiguous(Dict(e1), Dict(e2), "", "");
      assert e1[0] == e2[0] && e1[1] == e2[1];
    }
  }

  lemma OuterIsWellFormed(name: string, arguments: seq<Entry>)
    requires WellFormed(Dict(arguments))
    ensures WellFormed(Dict([Entry("tool_arguments", Normalize(Dict(arguments))), Entry("tool_name", Str(name))]))
  {
    hide Normalize, Mean;
    NormalizeMeans(Dict(arguments));
    TwoEntries(Entry("tool_arguments", Normalize(Dict(arguments))), Entry("tool_name", Str(name)));
  }

  lemma TwoEntries(a: Entry, b: Entry)
    requires WellFormedEntry(a) && WellFormedEntry(b) && a.key != b.key
    ensures WellFormedEntries([a, b])
  {
    hide WellFormedEntry;
    assert [a, b][1..] == [b] && [b][1..] == [];
    assert WellFormedEntries([]) && !HasKey([], b.key);
    assert WellFormedEntries([b]);
  }
}
