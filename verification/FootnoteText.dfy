/** Replacing footnote markers in a body: what `FOOTNOTE_MARKER.sub` does to the text,
    to its markers and to what they refer to. */
module FootnoteText {
  import opened Wrappers
  import opened Footnotes
  import Text

  /** The markers that take the place of each marker with a footnote. */
  type Numbers = map<string, seq<string>>

  predicate WellNumbered(numbers: Numbers) {
    forall m :: m in numbers ==> numbers[m] != [] && AllNumerals(numbers[m])
  }

  predicate AllNumerals(marks: seq<string>) { forall n :: n in marks ==> Text.IsNumeral(n) }

  /** `" ".join(f"[{number}]" ...)` */
  function Marks(marks: seq<string>): string {
    if marks == [] then ""
    else "[" + marks[0] + "]" + if |marks| == 1 then "" else " " + Marks(marks[1..])
  }

  /** `FOOTNOTE_MARKER.sub(replace_marker, s)` */
  function Replace(s: string, numbers: Numbers): string
    decreases |s|
  {
    match MarkAt(s)
    case Some(m) =>
      (if m.number in numbers then Marks(numbers[m.number]) else "[" + m.number + "]") + Replace(m.rest, numbers)
    case None => if s == "" then "" else [s[0]] + Replace(s[1..], numbers)
  }

  // ---- Pieces of a text ----

  datatype Piece = Letter(c: char) | Cite(number: string)

  /** The text as `FOOTNOTE_MARKER.finditer` cuts it. */
  function Pieces(s: string): seq<Piece>
    decreases |s|
  {
    match MarkAt(s)
    case Some(m) => [Cite(m.number)] + Pieces(m.rest)
    case None => if s == "" then [] else [Letter(s[0])] + Pieces(s[1..])
  }

  function Cites(marks: seq<string>): seq<Piece> {
    if marks == [] then []
    else [Cite(marks[0])] + if |marks| == 1 then [] else [Letter(' ')] + Cites(marks[1..])
  }

  function Renumbered(ps: seq<Piece>, numbers: Numbers): seq<Piece> {
    if ps == [] then []
    else (if ps[0].Cite? && ps[0].number in numbers then Cites(numbers[ps[0].number]) else [ps[0]])
         + Renumbered(ps[1..], numbers)
  }

  // ---- How a replaced text begins ----

  predicate SameStart(s: string, t: string) {
    (s == "" <==> t == "") && (s != "" ==> s[0] == t[0])
  }

  lemma ReplacedStart(s: string, numbers: Numbers)
    requires WellNumbered(numbers)
    ensures SameStart(Replace(s, numbers), s)
  {
    hide AllNumerals, Replace;
    ReplaceStep(s, numbers);
  }

  /** One step of `Replace`. */
  lemma ReplaceStep(s: string, numbers: Numbers)
    ensures MarkAt(s).Some? ==> Replace(s, numbers) == Replacement(MarkAt(s).value.number, numbers) + Replace(MarkAt(s).value.rest, numbers)
    ensures MarkAt(s).None? ==> Replace(s, numbers) == if s == "" then "" else [s[0]] + Replace(s[1..], numbers)
  {
    hide MarkAt, Marks;
  }

  function Replacement(number: string, numbers: Numbers): string {
    if number in numbers then Marks(numbers[number]) else "[" + number + "]"
  }

  /** The numerals of a replacement, in place of one. */
  function InPlace(number: string, numbers: Numbers): (r: seq<string>)
    ensures r == if number in numbers then numbers[number] else [number]
  {
    if number in numbers then numbers[number] else [number]
  }

  lemma ReplacementIsMarks(number: string, numbers: Numbers)
    requires WellNumbered(numbers) && Text.IsNumeral(number)
    ensures Replacement(number, numbers) == Marks(InPlace(number, numbers))
    ensures InPlace(number, numbers) != [] && AllNumerals(InPlace(number, numbers))
  {
    assert Marks([number]) == "[" + number + "]" + "";
  }

  lemma {:induction false} ReplacedDigits(s: string, numbers: Numbers)
    requires WellNumbered(numbers)
    ensures Text.Digits(Replace(s, numbers)) == Text.Digits(s)
    ensures SameStart(Replace(s, numbers)[|Text.Digits(s)|..], s[|Text.Digits(s)|..])
  {
    hide MarkAt, WellNumbered;
    ReplacedStart(s, numbers);
    if s != "" && Text.IsDigit(s[0]) {
      DigitIsNoMark(s);
      assert Replace(s, numbers)[1..] == Replace(s[1..], numbers);
      ReplacedDigits(s[1..], numbers);
    }
  }

  lemma DigitIsNoMark(s: string)
    requires s != "" && s[0] != '['
    ensures MarkAt(s) == None
  {
  }

  /** Replacing makes no marker out of a bracket that was none. */
  lemma BracketStaysBracket(s: string, numbers: Numbers)
    requires WellNumbered(numbers) && s != "" && MarkAt(s).None?
    ensures MarkAt([s[0]] + Replace(s[1..], numbers)).None?
  {
    hide Replace, WellNumbered;
    var t := [s[0]] + Replace(s[1..], numbers);
    assert t[1..] == Replace(s[1..], numbers);
    ReplacedDigits(s[1..], numbers);
  }

  // ---- Replacing renumbers the markers and nothing else ----

  lemma {:induction false} MarksAreRead(marks: seq<string>, rest: string)
    requires marks != [] && AllNumerals(marks)
    ensures Pieces(Marks(marks) + rest) == Cites(marks) + Pieces(rest)
  {
    hide MarkAt;
    if |marks| == 1 {
      assert Marks(marks) + rest == "[" + marks[0] + "]" + rest;
      MarkIsRead(marks[0], rest);
    } else {
      var next := Marks(marks[1..]) + rest;
      assert Marks(marks) + rest == "[" + marks[0] + "]" + (" " + next);
      MarkIsRead(marks[0], " " + next);
      DigitIsNoMark(" " + next);
      assert (" " + next)[1..] == next;
      assert Pieces(" " + next) == [Letter(' ')] + Pieces(next);
      MarksAreRead(marks[1..], rest);
      assert [Cite(marks[0])] + ([Letter(' ')] + (Cites(marks[1..]) + Pieces(rest))) == Cites(marks) + Pieces(rest);
    }
  }

  lemma {:induction false} PiecesOfReplaced(s: string, numbers: Numbers)
    requires WellNumbered(numbers)
    ensures Pieces(Replace(s, numbers)) == Renumbered(Pieces(s), numbers)
    decreases |s|
  {
    hide MarkAt, WellNumbered, Replace, Marks, Cites;
    ReplaceStep(s, numbers);
    match MarkAt(s)
    case Some(m) =>
      ReplacementIsMarks(m.number, numbers);
      MarksAreRead(InPlace(m.number, numbers), Replace(m.rest, numbers));
      PiecesOfReplaced(m.rest, numbers);
      assert Pieces(s)[1..] == Pieces(m.rest);
      OneCite(m.number);
    case None =>
      if s != "" {
        BracketStaysBracket(s, numbers);
        PiecesOfReplaced(s[1..], numbers);
        var t := [s[0]] + Replace(s[1..], numbers);
        assert t[1..] == Replace(s[1..], numbers);
        assert Pieces(s)[1..] == Pieces(s[1..]);
      }
  }

  lemma OneCite(number: string)
    ensures Cites([number]) == [Cite(number)]
  {
  }

  // ---- Replacing makes no definition ----

  lemma {:induction false} ReplacedSkipSpace(s: string, numbers: Numbers)
    requires WellNumbered(numbers)
    ensures SkipSpace(Replace(s, numbers)) == Replace(SkipSpace(s), numbers)
  {
    hide MarkAt, WellNumbered;
    ReplacedStart(s, numbers);
    if s != "" && IsSpace(s[0]) {
      DigitIsNoMark(s);
      assert Replace(s, numbers)[1..] == Replace(s[1..], numbers);
      ReplacedSkipSpace(s[1..], numbers);
    }
  }

  lemma {:induction false} ReplacedLineEnd(s: string, numbers: Numbers)
    requires WellNumbered(numbers) && LineEnd(Replace(s, numbers)).Some?
    ensures LineEnd(s).Some?
  {
    hide MarkAt, WellNumbered;
    ReplacedStart(s, numbers);
    if s != "" {
      DigitIsNoMark(s);
      assert Replace(s, numbers)[1..] == Replace(s[1..], numbers);
      if LineEnd(Replace(s[1..], numbers)).Some? {
        ReplacedLineEnd(s[1..], numbers);
      }
    }
  }

  /** What is left after the first word. */
  function AfterWord(s: string): (r: string)
    ensures r == s[|Word(s)|..]
  {
    if s != "" && !IsSpace(s[0]) then
      AfterWord(s[1..])
    else s
  }

  lemma {:induction false} AfterMark(number: string, rest: string)
    requires NoSpace(number)
    ensures AfterWord("[" + number + "]" + rest) == AfterWord(rest)
  {
    AfterSolid("[" + number + "]", rest);
  }

  lemma {:induction false} AfterSolid(solid: string, rest: string)
    requires NoSpace(solid)
    ensures AfterWord(solid + rest) == AfterWord(rest)
  {
    if solid == "" {
      assert solid + rest == rest;
    } else {
      assert (solid + rest)[1..] == solid[1..] + rest;
      AfterSolid(solid[1..], rest);
    }
  }

  lemma NumeralIsSolid(number: string)
    requires Text.IsNumeral(number)
    ensures NoSpace(number)
  {
    assert forall c :: Text.IsDigit(c) ==> !IsSpace(c);
  }

  lemma SeveralMarksEndNoLine(marks: seq<string>, rest: string)
    requires |marks| > 1 && AllNumerals(marks)
    ensures LineEnd(AfterWord(Marks(marks) + rest)) == None
    ensures MarkAt(Marks(marks) + rest).Some? && MarkAt(Marks(marks) + rest).value.rest != "" &&
            MarkAt(Marks(marks) + rest).value.rest[0] == ' '
  {
    hide MarkAt;
    var next := Marks(marks[1..]) + rest;
    assert Marks(marks) + rest == "[" + marks[0] + "]" + (" " + next);
    MarkIsRead(marks[0], " " + next);
    NumeralIsSolid(marks[0]);
    AfterMark(marks[0], " " + next);
    assert (" " + next)[1..] == next && next[0] == '[';
  }

  lemma {:induction false} ReplacedWordEnds(s: string, numbers: Numbers)
    requires WellNumbered(numbers) && LineEnd(AfterWord(Replace(s, numbers))).Some?
    ensures LineEnd(AfterWord(s)).Some?
    decreases |s|
  {
    hide MarkAt, WellNumbered, Replace, Marks, LineEnd;
    ReplaceStep(s, numbers);
    match MarkAt(s)
    case Some(m) =>
      ReplacementIsMarks(m.number, numbers);
      NumeralIsSolid(m.number);
      AfterMark(m.number, m.rest);
      if |InPlace(m.number, numbers)| > 1 {
        SeveralMarksEndNoLine(InPlace(m.number, numbers), Replace(m.rest, numbers));
      } else {
        OneMark(InPlace(m.number, numbers), Replace(m.rest, numbers));
        ReplacedWordEnds(m.rest, numbers);
      }
    case None =>
      if s != "" {
        assert Replace(s, numbers)[1..] == Replace(s[1..], numbers);
        if IsSpace(s[0]) {
          ReplacedLineEnd(s, numbers);
        } else {
          ReplacedWordEnds(s[1..], numbers);
        }
      }
  }

  lemma OneMark(marks: seq<string>, rest: string)
    requires |marks| == 1 && AllNumerals(marks)
    ensures Marks(marks) + rest == "[" + marks[0] + "]" + rest
    ensures AfterWord(Marks(marks) + rest) == AfterWord(rest)
    ensures MarkAt(Marks(marks) + rest) == Some(Mark(marks[0], rest))
  {
    hide MarkAt;
    assert Marks(marks) + rest == "[" + marks[0] + "]" + rest;
    NumeralIsSolid(marks[0]);
    AfterMark(marks[0], rest);
    MarkIsRead(marks[0], rest);
  }

  lemma {:induction false} ReplacedPrefix(p: string, s: string, numbers: Numbers)
    requires WellNumbered(numbers) && '[' !in p && p <= Replace(s, numbers)
    ensures p <= s && Replace(s, numbers)[|p|..] == Replace(s[|p|..], numbers)
  {
    hide MarkAt, WellNumbered, Replace;
    if p != "" {
      ReplacedStart(s, numbers);
      assert s[0] == p[0];
      DigitIsNoMark(s);
      ReplaceStep(s, numbers);
      assert Replace(s, numbers)[1..] == Replace(s[1..], numbers);
      assert p[1..] <= Replace(s[1..], numbers);
      ReplacedPrefix(p[1..], s[1..], numbers);
      assert s == [s[0]] + s[1..] && p == [p[0]] + p[1..];
    }
  }

  lemma {:induction false} WordOfSolid(solid: string, rest: string)
    requires NoSpace(solid)
    ensures Word(solid + rest) == solid + Word(rest)
  {
    if solid == "" {
      assert solid + rest == rest;
    } else {
      assert (solid + rest)[1..] == solid[1..] + rest;
      WordOfSolid(solid[1..], rest);
    }
  }

  lemma ReplacedBlock(s: string, numbers: Numbers)
    requires WellNumbered(numbers) && IsBlockId(Word(Replace(s, numbers)))
    ensures IsBlockId(Word(s))
  {
    hide WellNumbered, Replace, Word;
    var t := Replace(s, numbers);
    assert "block-" <= t;
    ReplacedPrefix("block-", s, numbers);
    ReplacedStart(s[6..], numbers);
    assert s == "block-" + s[6..] && t == "block-" + t[6..];
    assert NoSpace("block-");
    WordOfSolid("block-", s[6..]);
    WordOfSolid("block-", t[6..]);
    WordStart(s[6..]);
    WordStart(t[6..]);
  }

  lemma WordStart(s: string)
    ensures Word(s) == "" <==> s == "" || IsSpace(s[0])
  {
  }

  lemma ReplacedTarget(s: string, numbers: Numbers)
    requires WellNumbered(numbers) && TargetAt(Replace(s, numbers)).Some?
    ensures TargetAt(s).Some?
  {
    hide WellNumbered, Replace, Word, LineEnd, SkipSpace, IsBlockId;
    ReplacedSkipSpace(s, numbers);
    ReplacedBlock(SkipSpace(s), numbers);
    ReplacedWordEnds(SkipSpace(s), numbers);
  }

  lemma ReplacedDefinition(s: string, numbers: Numbers)
    requires WellNumbered(numbers) && DefinitionAt(Replace(s, numbers)).Some?
    ensures DefinitionAt(s).Some?
  {
    hide WellNumbered, Replace, TargetAt, MarkAt, Marks;
    ReplaceStep(s, numbers);
    match MarkAt(s)
    case Some(m) =>
      ReplacementIsMarks(m.number, numbers);
      var marks := InPlace(m.number, numbers);
      if |marks| > 1 {
        SeveralMarksEndNoLine(marks, Replace(m.rest, numbers));
      } else {
        OneMark(marks, Replace(m.rest, numbers));
        ReplacedPrefix(":", m.rest, numbers);
        ReplacedTarget(m.rest[1..], numbers);
      }
    case None =>
      if s == "" { EmptyHasNoMark(); } else { BracketStaysBracket(s, numbers); }
  }

  lemma EmptyHasNoMark()
    ensures MarkAt("") == None
  {
  }

  predicate NoLineFeed(s: string) { '\n' !in s }

  lemma {:induction false} ParseSkips(s: string, rest: string)
    requires NoLineFeed(s)
    ensures Parse(s + rest, false).1 == Parse(rest, false).1
  {
    hide DefinitionAt;
    if s == "" {
      assert s + rest == rest;
    } else {
      assert (s + rest)[1..] == s[1..] + rest;
      ParseSkips(s[1..], rest);
    }
  }

  lemma ParseMark(number: string, rest: string, lineStart: bool)
    requires Text.IsNumeral(number)
    requires lineStart ==> DefinitionAt("[" + number + "]" + rest).None?
    ensures Parse("[" + number + "]" + rest, lineStart).1 == Parse(rest, false).1
  {
    hide DefinitionAt;
    var s := "[" + number + "]" + rest;
    assert s[1..] == (number + "]") + rest;
    assert NoLineFeed(number + "]") by { NumeralHasNoLineFeed(number); }
    ParseSkips(number + "]", rest);
  }

  lemma NumeralHasNoLineFeed(number: string)
    requires Text.IsNumeral(number)
    ensures NoLineFeed(number + "]")
  {
    assert !Text.IsDigit('\n');
  }

  lemma {:induction false} MarksHaveNoLineFeed(marks: seq<string>)
    requires AllNumerals(marks)
    ensures NoLineFeed(Marks(marks))
  {
    if marks != [] {
      NumeralHasNoLineFeed(marks[0]);
      MarksHaveNoLineFeed(marks[1..]);
    }
  }

  lemma ParseMarks(marks: seq<string>, rest: string, lineStart: bool)
    requires marks != [] && AllNumerals(marks)
    requires lineStart ==> DefinitionAt(Marks(marks) + rest).None?
    ensures Parse(Marks(marks) + rest, lineStart).1 == Parse(rest, false).1
  {
    hide DefinitionAt, AllNumerals, Marks;
    var text := Marks(marks);
    MarksHaveNoLineFeed(marks);
    MarksStart(marks);
    assert (text + rest)[1..] == text[1..] + rest;
    ParseSkips(text[1..], rest);
  }

  /** A text without definition lines has none after replacing. */
  lemma {:induction false} ReplacedIsPlain(s: string, numbers: Numbers, lineStart: bool)
    requires WellNumbered(numbers) && Plain(s, lineStart)
    ensures Plain(Replace(s, numbers), lineStart)
    decreases |s|
  {
    hide MarkAt, WellNumbered, Replace, Marks, DefinitionAt;
    ReplaceStep(s, numbers);
    var t := Replace(s, numbers);
    EmptyHasNoDefinition();
    if lineStart && DefinitionAt(t).Some? {
      ReplacedDefinition(s, numbers);
    }
    match MarkAt(s)
    case Some(m) =>
      ReplacementIsMarks(m.number, numbers);
      ParseMark(m.number, m.rest, lineStart);
      ReplacedIsPlain(m.rest, numbers, false);
      ParseMarks(InPlace(m.number, numbers), Replace(m.rest, numbers), lineStart);
    case None =>
      if s != "" {
        assert t[1..] == Replace(s[1..], numbers);
        ReplacedIsPlain(s[1..], numbers, s[0] == '\n');
      }
  }

  lemma EmptyHasNoDefinition()
    ensures DefinitionAt("") == None
  {
  }

  lemma MarksStart(marks: seq<string>)
    requires marks != []
    ensures Marks(marks) != "" && Marks(marks)[0] == '['
  {
  }

  lemma {:induction false} ReplacedEnd(s: string, numbers: Numbers)
    requires WellNumbered(numbers) && s != "" && !IsSpace(s[|s| - 1])
    ensures Replace(s, numbers) != "" && !IsSpace(Replace(s, numbers)[|Replace(s, numbers)| - 1])
    decreases |s|
  {
    hide MarkAt, WellNumbered, Replace, Marks;
    ReplaceStep(s, numbers);
    match MarkAt(s)
    case Some(m) =>
      ReplacementIsMarks(m.number, numbers);
      if m.rest == "" {
        NothingReplaced(numbers);
        MarksEnd(InPlace(m.number, numbers));
        assert Replace(s, numbers) == Marks(InPlace(m.number, numbers)) + "";
      } else {
        ReplacedEnd(m.rest, numbers);
      }
    case None =>
      if |s| == 1 {
        NothingReplaced(numbers);
        assert s[1..] == "";
      } else {
        ReplacedEnd(s[1..], numbers);
      }
  }

  lemma NothingReplaced(numbers: Numbers)
    ensures Replace("", numbers) == ""
  {
  }

  lemma {:induction false} MarksEnd(marks: seq<string>)
    requires marks != []
    ensures Marks(marks) != "" && Marks(marks)[|Marks(marks)| - 1] == ']'
  {
    if |marks| > 1 {
      MarksEnd(marks[1..]);
    }
  }

  // ---- What markers refer to ----

  /** A text with its markers looked up in a list of footnotes: a marker the list does
      not have stays as it is. */
  datatype Meaning = Char(c: char) | Source(id: string) | Bare(number: string)

  function Sources(ids: seq<string>): seq<Meaning> {
    if ids == [] then []
    else [Source(ids[0])] + if |ids| == 1 then [] else [Char(' ')] + Sources(ids[1..])
  }

  function Meant(p: Piece, targets: map<string, seq<string>>): seq<Meaning> {
    match p
    case Letter(c) => [Char(c)]
    case Cite(number) => if number in targets then Sources(targets[number]) else [Bare(number)]
  }

  function Read(ps: seq<Piece>, targets: map<string, seq<string>>): seq<Meaning> {
    if ps == [] then [] else Meant(ps[0], targets) + Read(ps[1..], targets)
  }

  lemma {:induction false} ReadConcat(a: seq<Piece>, b: seq<Piece>, targets: map<string, seq<string>>)
    ensures Read(a + b, targets) == Read(a, targets) + Read(b, targets)
  {
    hide Meant;
    if a == [] {
      assert a + b == b;
    } else {
      assert (a + b)[1..] == a[1..] + b;
      ReadConcat(a[1..], b, targets);
    }
  }

  /** The new numbers of a marker name, one by one, what the marker names. */
  predicate Names(marks: seq<string>, ids: seq<string>, list: map<string, seq<string>>) {
    |marks| == |ids| && forall i :: 0 <= i < |marks| ==> marks[i] in list && list[marks[i]] == [ids[i]]
  }

  lemma {:induction false} NamesAreRead(marks: seq<string>, ids: seq<string>, list: map<string, seq<string>>)
    requires Names(marks, ids, list)
    ensures Read(Cites(marks), list) == Sources(ids)
  {
    if marks != [] {
      var first := [Cite(marks[0])];
      if |marks| == 1 {
        assert Cites(marks)[1..] == [];
      } else {
        NamesAreRead(marks[1..], ids[1..], list);
        var rest := Cites(marks[1..]);
        assert Cites(marks)[1..] == [Letter(' ')] + rest;
        assert ([Letter(' ')] + rest)[1..] == rest;
      }
    }
  }

  predicate Renames(numbers: Numbers, targets: map<string, seq<string>>, list: map<string, seq<string>>) {
    numbers.Keys == targets.Keys && forall m :: m in targets ==> Names(numbers[m], targets[m], list)
  }

  /** No marker without a footnote happens to be a number of the list. */
  predicate NoStray(ps: seq<Piece>, targets: map<string, seq<string>>, list: map<string, seq<string>>) {
    forall p :: p in ps && p.Cite? && p.number !in targets ==> p.number !in list
  }

  /** Renumbered markers read in the new list mean what the old ones meant: always, for
      markers with a footnote, and for the whole text exactly when no marker without a
      footnote is a number of the new list. */
  lemma {:induction false} RenumberedMeaning(ps: seq<Piece>, numbers: Numbers, targets: map<string, seq<string>>,
                                             list: map<string, seq<string>>)
    requires Renames(numbers, targets, list)
    requires forall m :: m in list ==> |list[m]| == 1
    ensures Read(Renumbered(ps, numbers), list) == Read(ps, targets) <==> NoStray(ps, targets, list)
    ensures |Read(Renumbered(ps, numbers), list)| == |Read(ps, targets)|
  {
    hide Cites, Sources, Names;
    if ps != [] {
      var p := ps[0];
      var first := if p.Cite? && p.number in numbers then Cites(numbers[p.number]) else [p];
      ReadConcat(first, Renumbered(ps[1..], numbers), list);
      RenumberedMeaning(ps[1..], numbers, targets, list);
      PieceMeaning(p, numbers, targets, list);
      assert ps == [p] + ps[1..];
      assert NoStray(ps, targets, list) <==> NoStray([p], targets, list) && NoStray(ps[1..], targets, list);
      SameHalves(Read(first, list), Meant(p, targets), Read(Renumbered(ps[1..], numbers), list), Read(ps[1..], targets));
    }
  }

  lemma SameHalves<T>(a: seq<T>, b: seq<T>, c: seq<T>, d: seq<T>)
    requires |a| == |b| && |c| == |d|
    ensures a + c == b + d <==> a == b && c == d
  {
    if a + c == b + d {
      assert a == (a + c)[..|a|] && c == (a + c)[|a|..];
      assert b == (b + d)[..|b|] && d == (b + d)[|b|..];
    }
  }

  lemma PieceMeaning(p: Piece, numbers: Numbers, targets: map<string, seq<string>>, list: map<string, seq<string>>)
    requires Renames(numbers, targets, list)
    requires forall m :: m in list ==> |list[m]| == 1
    ensures var first := if p.Cite? && p.number in numbers then Cites(numbers[p.number]) else [p];
            && |Read(first, list)| == |Meant(p, targets)|
            && (Read(first, list) == Meant(p, targets) <==> NoStray([p], targets, list))
  {
    hide Cites, Names;
    if p.Cite? && p.number in numbers {
      NamesAreRead(numbers[p.number], targets[p.number], list);
    } else {
      assert [p][1..] == [] && Meant(p, list) + [] == Meant(p, list);
      assert Read([p], list) == Meant(p, list);
      assert NoStray([p], targets, list) <==> (p.Cite? ==> p.number !in list) by {
        assert p in [p];
      }
      if p.Cite? && p.number in list {
        assert Meant(p, list)[0] == Source(list[p.number][0]);
        assert Meant(p, targets)[0] == Bare(p.number);
      }
    }
  }
}
