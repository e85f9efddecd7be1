/** The keys under which the smart agent remembers tool calls: the printed JSON of the
    tool's name and its arguments, with the keys of every object sorted. */
module ToolArguments {
  import Text

  /** A JSON value as Python holds it: an object is a dict, in insertion order. A float
      is the text `repr` gives for it. */
  datatype Value =
    | Null | Bool(b: bool) | Int(i: int) | Float(text: string) | Str(s: string)
    | List(items: seq<Value>) | Dict(entries: seq<Entry>)

  datatype Entry = Entry(key: string, value: Value)

  // ---- What a value means ----

  /** The value with the order of object keys forgotten. */
  datatype Meaning =
    | MNull | MBool(b: bool) | MInt(i: int) | MFloat(text: string) | MStr(s: string)
    | MList(items: seq<Meaning>) | MDict(fields: map<string, Meaning>)

  function Mean(v: Value): Meaning
    decreases v
  {
    match v
    case Null => MNull
    case Bool(b) => MBool(b)
    case Int(i) => MInt(i)
    case Float(text) => MFloat(text)
    case Str(s) => MStr(s)
    case List(items) => MList(MeanItems(items))
    case Dict(entries) => MDict(MeanEntries(entries))
  }

  function MeanItems(items: seq<Value>): (r: seq<Meaning>)
    ensures |r| == |items|
    decreases items
  {
    if items == [] then [] else [Mean(items[0])] + MeanItems(items[1..])
  }

  function MeanEntries(entries: seq<Entry>): (r: map<string, Meaning>)
    ensures forall k :: k in r <==> exists e :: e in entries && e.key == k
    decreases entries
  {
    if entries == [] then map[]
    else
      assert entries == [entries[0]] + entries[1..];
      MeanEntries(entries[1..])[entries[0].key := MeanEntry(entries[0])]
  }

  function MeanEntry(e: Entry): Meaning
    decreases e
  {
    Mean(e.value)
  }

  /** The keys of every object are distinct, and float texts are those of floats. */
  predicate WellFormed(v: Value)
    decreases v
  {
    match v
    case Float(text) => IsFloatText(text)
    case List(items) => WellFormedItems(items)
    case Dict(entries) => WellFormedEntries(entries)
    case _ => true
  }

  predicate WellFormedItems(items: seq<Value>)
    decreases items
  {
    items == [] || (WellFormed(items[0]) && WellFormedItems(items[1..]))
  }

  predicate WellFormedEntries(entries: seq<Entry>)
    decreases entries
  {
    entries == [] || (WellFormedEntry(entries[0]) && !HasKey(entries[1..], entries[0].key) && WellFormedEntries(entries[1..]))
  }

  predicate WellFormedEntry(e: Entry)
    decreases e
  {
    WellFormed(e.value)
  }

  predicate HasKey(entries: seq<Entry>, key: string) { exists e :: e in entries && e.key == key }

  // ---- Float texts ----

  predicate IsNumberChar(c: char) { Text.IsDigit(c) || c == '-' || c == '+' || c == '.' || 'a' <= c <= 'z' || 'A' <= c <= 'Z' }

  predicate StartsNumber(c: char) { Text.IsDigit(c) || c == '-' || c == 'N' || c == 'I' }

  /** `repr` of a float, "NaN" or "Infinity": never the text of an integer. */
  predicate IsFloatText(s: string) {
    && s != "" && StartsNumber(s[0]) && (forall i :: 0 <= i < |s| ==> IsNumberChar(s[i]))
    && exists i :: 0 <= i < |s| && !Text.IsDigit(s[i]) && s[i] != '-'
  }

  // ---- Order of strings ----

  /** Python's order of strings, by code points. */
  predicate Less(a: string, b: string) {
    b != "" && (a == "" || a[0] < b[0] || (a[0] == b[0] && Less(a[1..], b[1..])))
  }

  lemma {:induction false} LessIsTotal(a: string, b: string)
    ensures Less(a, b) || Less(b, a) || a == b
    ensures !(Less(a, b) && Less(b, a)) && (a == b ==> !Less(a, b))
  {
    if a != "" && b != "" && a[0] == b[0] {
      LessIsTotal(a[1..], b[1..]);
      assert a == [a[0]] + a[1..] && b == [b[0]] + b[1..];
    }
  }

  lemma {:induction false} LessIsTransitive(a: string, b: string, c: string)
    requires Less(a, b) && Less(b, c)
    ensures Less(a, c)
  {
    if a != "" && a[0] == b[0] == c[0] {
      LessIsTransitive(a[1..], b[1..], c[1..]);
    }
  }

  // ---- `_normalize_tool_arguments` ----

  /** Inserting an entry into sorted ones. */
  function Insert(e: Entry, sorted: seq<Entry>): (r: seq<Entry>)
    ensures |r| == |sorted| + 1
    ensures forall f :: f in r <==> f == e || f in sorted
  {
    if sorted == [] || Less(e.key, sorted[0].key) then [e] + sorted
    else
      assert sorted == [sorted[0]] + sorted[1..];
      [sorted[0]] + Insert(e, sorted[1..])
  }

  function Normalize(v: Value): Value
    decreases v
  {
    match v
    case List(items) => List(NormalizeItems(items))
    case Dict(entries) => Dict(NormalizeEntries(entries))
    case _ => v
  }

  function NormalizeItems(items: seq<Value>): seq<Value>
    decreases items
  {
    if items == [] then [] else [Normalize(items[0])] + NormalizeItems(items[1..])
  }

  /** `{key: normalize(value[key]) for key in sorted(value)}` */
  function NormalizeEntries(entries: seq<Entry>): seq<Entry>
    decreases entries
  {
    if entries == [] then [] else Insert(NormalizeEntry(entries[0]), NormalizeEntries(entries[1..]))
  }

  function NormalizeEntry(e: Entry): Entry
    decreases e
  {
    Entry(e.key, Normalize(e.value))
  }

  // ---- Normal forms ----

  predicate Sorted(entries: seq<Entry>) {
    forall i :: 0 < i < |entries| ==> Less(entries[i - 1].key, entries[i].key)
  }

  /** Every object's keys ascend. */
  predicate Ordered(v: Value)
    decreases v
  {
    match v
    case List(items) => OrderedItems(items)
    case Dict(entries) => Sorted(entries) && OrderedEntries(entries)
    case _ => true
  }

  predicate OrderedItems(items: seq<Value>)
    decreases items
  {
    items == [] || (Ordered(items[0]) && OrderedItems(items[1..]))
  }

  predicate OrderedEntries(entries: seq<Entry>)
    decreases entries
  {
    entries == [] || (OrderedEntry(entries[0]) && OrderedEntries(entries[1..]))
  }

  predicate OrderedEntry(e: Entry)
    decreases e
  {
    Ordered(e.value)
  }

  lemma {:induction false} InsertKeepsSorted(e: Entry, sorted: seq<Entry>)
    requires Sorted(sorted) && !HasKey(sorted, e.key)
    ensures Sorted(Insert(e, sorted)) && (Insert(e, sorted)[0] == e || (sorted != [] && Insert(e, sorted)[0] == sorted[0]))
  {
    if sorted != [] {
      assert sorted[0] in sorted;
      LessIsTotal(e.key, sorted[0].key);
      if !Less(e.key, sorted[0].key) {
        assert forall f :: f in sorted[1..] ==> f in sorted;
        assert Sorted(sorted[1..]);
        InsertKeepsSorted(e, sorted[1..]);
        var rest := Insert(e, sorted[1..]);
        assert Less(sorted[0].key, rest[0].key);
        forall i | 0 < i < |rest| + 1 ensures Less(([sorted[0]] + rest)[i - 1].key, ([sorted[0]] + rest)[i].key) {
          if i > 1 { assert Less(rest[i - 2].key, rest[i - 1].key); }
        }
      }
    }
  }

  lemma {:induction false} InsertKeepsWellFormed(e: Entry, sorted: seq<Entry>)
    requires !HasKey(sorted, e.key) && WellFormedEntries(sorted) && WellFormedEntry(e)
    ensures WellFormedEntries(Insert(e, sorted))
  {
    hide MeanEntry, WellFormedEntry, OrderedEntry, Less;
    if sorted == [] || Less(e.key, sorted[0].key) {
      assert ([e] + sorted)[1..] == sorted;
    } else {
      assert !HasKey(sorted[1..], e.key) by { assert forall f :: f in sorted[1..] ==> f in sorted; }
      InsertKeepsWellFormed(e, sorted[1..]);
      var rest := Insert(e, sorted[1..]);
      assert ([sorted[0]] + rest)[1..] == rest;
      assert !HasKey(rest, sorted[0].key) by {
        assert sorted[0] in sorted;
        InsertKeys(e, sorted[1..], sorted[0].key);
      }
    }
  }

  lemma {:induction false} InsertKeepsMeaning(e: Entry, sorted: seq<Entry>)
    requires !HasKey(sorted, e.key) && WellFormedEntries(sorted) && WellFormedEntry(e)
    ensures MeanEntries(Insert(e, sorted)) == MeanEntries(sorted)[e.key := MeanEntry(e)]
  {
    hide MeanEntry, WellFormedEntry, OrderedEntry, Less;
    if sorted == [] || Less(e.key, sorted[0].key) {
      assert ([e] + sorted)[1..] == sorted;
    } else {
      assert !HasKey(sorted[1..], e.key) by { assert forall f :: f in sorted[1..] ==> f in sorted; }
      InsertKeepsMeaning(e, sorted[1..]);
      var rest := Insert(e, sorted[1..]);
      assert ([sorted[0]] + rest)[1..] == rest;
      assert sorted[0] in sorted && sorted[0].key != e.key;
      InsertMeaningStep(e, sorted[0], MeanEntries(sorted[1..]));
    }
  }

  lemma {:induction false} InsertKeepsOrdered(e: Entry, sorted: seq<Entry>)
    requires !HasKey(sorted, e.key) && WellFormedEntries(sorted) && WellFormedEntry(e)
    ensures OrderedEntries(sorted) && OrderedEntry(e) ==> OrderedEntries(Insert(e, sorted))
  {
    hide MeanEntry, WellFormedEntry, OrderedEntry, Less;
    if sorted == [] || Less(e.key, sorted[0].key) {
      assert ([e] + sorted)[1..] == sorted;
    } else {
      assert !HasKey(sorted[1..], e.key) by { assert forall f :: f in sorted[1..] ==> f in sorted; }
      InsertKeepsOrdered(e, sorted[1..]);
      var rest := Insert(e, sorted[1..]);
      assert ([sorted[0]] + rest)[1..] == rest;
    }
  }

  lemma InsertMeaningStep(e: Entry, f: Entry, m: map<string, Meaning>)
    requires e.key != f.key
    ensures m[e.key := MeanEntry(e)][f.key := MeanEntry(f)] == m[f.key := MeanEntry(f)][e.key := MeanEntry(e)]
  {
  }

  /** Normalising keeps the meaning and orders every object. */
  lemma {:induction false} NormalizeMeans(v: Value)
    requires WellFormed(v)
    ensures WellFormed(Normalize(v)) && Ordered(Normalize(v)) && Mean(Normalize(v)) == Mean(v)
    decreases v
  {
    match v
    case List(items) => NormalizeItemsMeans(items);
    case Dict(entries) => NormalizeEntriesMeans(entries);
    case _ =>
  }

  lemma {:induction false} NormalizeItemsMeans(items: seq<Value>)
    requires WellFormedItems(items)
    ensures var r := NormalizeItems(items);
            WellFormedItems(r) && OrderedItems(r) && MeanItems(r) == MeanItems(items)
    decreases items
  {
    hide Mean, WellFormed, Ordered, Normalize;
    if items != [] {
      NormalizeMeans(items[0]);
      NormalizeItemsMeans(items[1..]);
      var r := NormalizeItems(items);
      assert r[1..] == NormalizeItems(items[1..]);
    }
  }

  lemma {:induction false} NormalizeEntriesMeans(entries: seq<Entry>)
    requires WellFormedEntries(entries)
    ensures var r := NormalizeEntries(entries);
            && WellFormedEntries(r) && OrderedEntries(r) && Sorted(r) && MeanEntries(r) == MeanEntries(entries)
            && forall k :: HasKey(r, k) <==> HasKey(entries, k)
    decreases entries
  {
    hide WellFormedEntry, OrderedEntry, MeanEntry, NormalizeEntry, Insert, Sorted;
    if entries != [] {
      NormalizeEntryMeans(entries[0]);
      NormalizeEntriesMeans(entries[1..]);
      var rest := NormalizeEntries(entries[1..]);
      var e := NormalizeEntry(entries[0]);
      InsertKeepsWellFormed(e, rest);
      InsertKeepsMeaning(e, rest);
      InsertKeepsOrdered(e, rest);
      InsertKeepsSorted(e, rest);
      assert entries == [entries[0]] + entries[1..];
      forall k ensures HasKey(Insert(e, rest), k) <==> HasKey(entries, k) {
        assert HasKey(Insert(e, rest), k) <==> k == e.key || HasKey(rest, k) by { InsertKeys(e, rest, k); }
        assert HasKey(entries, k) <==> k == entries[0].key || HasKey(entries[1..], k);
      }
    } else {
      assert Sorted([]) by { NothingIsSorted(); }
    }
  }

  lemma NothingIsSorted()
    ensures Sorted([])
  {
  }

  lemma InsertKeys(e: Entry, sorted: seq<Entry>, k: string)
    ensures HasKey(Insert(e, sorted), k) <==> k == e.key || HasKey(sorted, k)
  {
    hide Insert;
    assert e in Insert(e, sorted);
  }

  lemma NormalizeEntryMeans(e: Entry)
    requires WellFormedEntry(e)
    ensures var r := NormalizeEntry(e);
            r.key == e.key && WellFormedEntry(r) && OrderedEntry(r) && MeanEntry(r) == MeanEntry(e)
    decreases e
  {
    hide Mean, WellFormed, Ordered, Normalize;
    NormalizeMeans(e.value);
  }

  lemma {:induction false} FirstIsLeast(entries: seq<Entry>, k: string)
    requires Sorted(entries) && HasKey(entries, k)
    ensures k == entries[0].key || Less(entries[0].key, k)
  {
    assert entries == [entries[0]] + entries[1..];
    if k != entries[0].key {
      assert HasKey(entries[1..], k);
      assert Less(entries[0].key, entries[1].key);
      FirstIsLeast(entries[1..], k);
      if k != entries[1].key {
        LessIsTransitive(entries[0].key, entries[1].key, k);
      }
    }
  }

  /** Ordered values with the same meaning are the same. */
  lemma {:induction false} OrderedIsCanonical(a: Value, b: Value)
    requires WellFormed(a) && WellFormed(b) && Ordered(a) && Ordered(b) && Mean(a) == Mean(b)
    ensures a == b
    decreases a
  {
    match a
    case List(items) => OrderedItemsAreCanonical(items, b.items);
    case Dict(entries) => OrderedEntriesAreCanonical(entries, b.entries);
    case _ =>
  }

  lemma {:induction false} OrderedItemsAreCanonical(a: seq<Value>, b: seq<Value>)
    requires WellFormedItems(a) && WellFormedItems(b) && OrderedItems(a) && OrderedItems(b) && MeanItems(a) == MeanItems(b)
    ensures a == b
    decreases a
  {
    hide Mean, WellFormed, Ordered;
    if a != [] {
      assert MeanItems(a)[0] == Mean(a[0]) && MeanItems(b)[0] == Mean(b[0]);
      assert MeanItems(a)[1..] == MeanItems(a[1..]) && MeanItems(b)[1..] == MeanItems(b[1..]);
      OrderedIsCanonical(a[0], b[0]);
      OrderedItemsAreCanonical(a[1..], b[1..]);
      assert a == [a[0]] + a[1..] && b == [b[0]] + b[1..];
    }
  }

  lemma KeyInMeaning(entries: seq<Entry>)
    requires entries != []
    ensures entries[0].key in MeanEntries(entries) && MeanEntries(entries)[entries[0].key] == MeanEntry(entries[0])
    ensures WellFormedEntries(entries) ==> MeanEntries(entries) - {entries[0].key} == MeanEntries(entries[1..])
  {
    hide MeanEntry, WellFormedEntry;
  }

  lemma {:induction false} OrderedEntriesAreCanonical(a: seq<Entry>, b: seq<Entry>)
    requires WellFormedEntries(a) && WellFormedEntries(b) && Sorted(a) && Sorted(b)
    requires OrderedEntries(a) && OrderedEntries(b) && MeanEntries(a) == MeanEntries(b)
    ensures a == b
    decreases a
  {
    hide MeanEntry, WellFormedEntry, OrderedEntry, MeanEntries;
    if a == [] {
      if b != [] { KeyInMeaning(b); EmptyMeaning(); }
    } else {
      KeyInMeaning(a);
      if b == [] { EmptyMeaning(); }
      KeyInMeaning(b);
      assert HasKey(a, b[0].key) && HasKey(b, a[0].key);
      FirstIsLeast(a, b[0].key);
      FirstIsLeast(b, a[0].key);
      LessIsTotal(a[0].key, b[0].key);
      OrderedEntryIsCanonical(a[0], b[0]);
      assert Sorted(a[1..]) && Sorted(b[1..]);
      OrderedEntriesAreCanonical(a[1..], b[1..]);
      assert a == [a[0]] + a[1..] && b == [b[0]] + b[1..];
    }
  }

  lemma EmptyMeaning()
    ensures MeanEntries([]) == map[]
  {
  }

  lemma OrderedEntryIsCanonical(a: Entry, b: Entry)
    requires WellFormedEntry(a) && WellFormedEntry(b) && OrderedEntry(a) && OrderedEntry(b)
    requires a.key == b.key && MeanEntry(a) == MeanEntry(b)
    ensures a == b
    decreases a
  {
    hide Mean, WellFormed, Ordered;
    OrderedIsCanonical(a.value, b.value);
  }

  /** Normalised arguments are equal exactly when they mean the same. */
  lemma NormalizedIffSameMeaning(a: Value, b: Value)
    requires WellFormed(a) && WellFormed(b)
    ensures Normalize(a) == Normalize(b) <==> Mean(a) == Mean(b)
  {
    hide WellFormed, Normalize, Mean, Ordered;
    NormalizeMeans(a);
    NormalizeMeans(b);
    if Mean(a) == Mean(b) {
      OrderedIsCanonical(Normalize(a), Normalize(b));
    }
  }
}
