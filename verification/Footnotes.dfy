/** Markdown footnotes as the summarize agent reads and writes them: the two regular
    expressions as functions on the text that is left, the splitter and the printer. */
module Footnotes {
  import opened Wrappers
  import Text

  /** The characters `\s` and `str.rstrip` take as white space, in ASCII. */
  predicate IsSpace(c: char) { 9 <= c as int <= 13 || 28 <= c as int <= 32 }

  predicate AllSpace(s: string) { forall i :: 0 <= i < |s| ==> IsSpace(s[i]) }

  predicate NoSpace(s: string) { forall i :: 0 <= i < |s| ==> !IsSpace(s[i]) }

  /** `\S*`, as much as there is. */
  function Word(s: string): (r: string)
    ensures r <= s && NoSpace(r)
  {
    if s != "" && !IsSpace(s[0]) then [s[0]] + Word(s[1..]) else ""
  }

  /** What is left after `\s*`. */
  function SkipSpace(s: string): (r: string)
    ensures |r| <= |s| && (r != "" ==> !IsSpace(r[0]))
  {
    if s != "" && IsSpace(s[0]) then SkipSpace(s[1..]) else s
  }

  /** `\s*$`: greedy, so it ends at the end of the text or before the last line feed of
      the run of white space. What is left starts with that line feed. */
  function LineEnd(s: string): (r: Option<string>)
    ensures r.Some? ==> |r.value| <= |s|
  {
    if s == "" then Some("")
    else if !IsSpace(s[0]) then None
    else match LineEnd(s[1..])
      case Some(rest) => Some(rest)
      case None => if s[0] == '\n' then Some(s) else None
  }

  // ---- Markers and definitions ----

  datatype Mark = Mark(number: string, rest: string)

  /** `\[(\d+)\]` at the start of the text. */
  function MarkAt(s: string): (r: Option<Mark>)
    ensures r.Some? ==> Text.IsNumeral(r.value.number) && s == "[" + r.value.number + "]" + r.value.rest
  {
    if s == "" || s[0] != '[' then None else
    var number := Text.Digits(s[1..]);
    var after := s[1..][|number|..];
    if number == "" || after == "" || after[0] != ']' then None
    else
      assert s == "[" + number + "]" + after[1..];
      Some(Mark(number, after[1..]))
  }

  datatype Footnote = Footnote(number: string, id: string)

  predicate IsBlockId(id: string) { "block-" <= id && |id| > 6 && NoSpace(id) }

  datatype Target = Target(id: string, rest: string)

  /** `\s*(block-\S+)\s*$` */
  function TargetAt(s: string): (r: Option<Target>)
    ensures r.Some? ==> |r.value.rest| <= |s| && IsBlockId(r.value.id)
  {
    var text := SkipSpace(s);
    var id := Word(text);
    if !IsBlockId(id) then None else
    match LineEnd(text[|id|..])
    case None => None
    case Some(rest) => Some(Target(id, rest))
  }

  datatype Definition = Definition(footnote: Footnote, rest: string)

  /** `FOOTNOTE_DEFINITION` at the start of a line. */
  function DefinitionAt(s: string): (r: Option<Definition>)
    ensures r.Some? ==> |r.value.rest| < |s| && IsBlockId(r.value.footnote.id)
  {
    match MarkAt(s)
    case None => None
    case Some(mark) =>
      if mark.rest == "" || mark.rest[0] != ':' then None else
      match TargetAt(mark.rest[1..])
      case None => None
      case Some(target) => Some(Definition(Footnote(mark.number, target.id), target.rest))
  }

  /** The text before the first definition, and all definitions in order: `finditer`,
      from a place that may be the start of a line. */
  function Parse(s: string, lineStart: bool): (r: (string, seq<Footnote>))
    ensures forall f :: f in r.1 ==> IsBlockId(f.id)
    decreases |s|
  {
    if s == "" then ("", [])
    else if lineStart && DefinitionAt(s).Some? then
      var d := DefinitionAt(s).value;
      ("", [d.footnote] + Parse(d.rest, false).1)
    else
      var (body, footnotes) := Parse(s[1..], s[0] == '\n');
      ([s[0]] + body, footnotes)
  }

  /** `str.rstrip` */
  function RStrip(s: string): (r: string)
    ensures r <= s && AllSpace(s[|r|..]) && (r != "" ==> !IsSpace(r[|r| - 1]))
  {
    if s != "" && IsSpace(s[|s| - 1]) then RStrip(s[..|s| - 1]) else s
  }

  /** `split_markdown_footnotes` */
  function Split(answer: string): (string, seq<Footnote>) {
    var (body, footnotes) := Parse(answer, true);
    if footnotes == [] then (answer, []) else (RStrip(body), footnotes)
  }

  /** `render_markdown_footnotes` */
  function Render(body: string, ids: seq<string>): string {
    body + "\n\n" + References(ids, 1)
  }

  function References(ids: seq<string>, from: nat): string {
    if ids == [] then ""
    else "[" + Text.ToDecimal(from) + "]: " + ids[0] + if |ids| == 1 then "" else "\n" + References(ids[1..], from + 1)
  }

  /** What the printed list says: ids numbered from `from` on. */
  function Numbered(ids: seq<string>, from: nat): seq<Footnote> {
    if ids == [] then [] else [Footnote(Text.ToDecimal(from), ids[0])] + Numbered(ids[1..], from + 1)
  }

  /** No line of the text is a definition. */
  predicate Plain(body: string, lineStart: bool) { Parse(body, lineStart).1 == [] }

  // ---- Reading pieces of a text ----

  lemma {:induction false} DigitsStop(number: string, rest: string)
    requires Text.AllDigits(number) && (rest != "" ==> !Text.IsDigit(rest[0]))
    ensures Text.Digits(number + rest) == number
  {
    if number == "" {
      assert number + rest == rest;
    } else {
      DigitsStop(number[1..], rest);
      assert (number + rest)[1..] == number[1..] + rest;
    }
  }

  lemma {:induction false} WordStops(word: string, rest: string)
    requires NoSpace(word) && (rest != "" ==> IsSpace(rest[0]))
    ensures Word(word + rest) == word
  {
    if word == "" {
      assert word + rest == rest;
    } else {
      WordStops(word[1..], rest);
      assert (word + rest)[1..] == word[1..] + rest;
    }
  }

  lemma MarkIsRead(number: string, rest: string)
    requires Text.IsNumeral(number)
    ensures MarkAt("[" + number + "]" + rest) == Some(Mark(number, rest))
  {
    var s := "[" + number + "]" + rest;
    assert s[1..] == number + ("]" + rest);
    DigitsStop(number, "]" + rest);
    assert s[1..][|number|..] == "]" + rest;
    assert ("]" + rest)[1..] == rest;
  }

  /** One printed reference is read back, up to its line feed. */
  lemma ReferenceIsRead(number: string, id: string, rest: string)
    requires Text.IsNumeral(number) && IsBlockId(id) && (rest != "" ==> IsSpace(rest[0])) && LineEnd(rest) == Some(rest)
    ensures DefinitionAt("[" + number + "]: " + id + rest) == Some(Definition(Footnote(number, id), rest))
  {
    hide MarkAt, TargetAt, LineEnd;
    var after := ": " + id + rest;
    assert "[" + number + "]: " + id + rest == "[" + number + "]" + after;
    MarkIsRead(number, after);
    assert after[1..] == " " + (id + rest);
    TargetIsRead(id, rest);
  }

  lemma TargetIsRead(id: string, rest: string)
    requires IsBlockId(id) && (rest != "" ==> IsSpace(rest[0])) && LineEnd(rest) == Some(rest)
    ensures TargetAt(" " + (id + rest)) == Some(Target(id, rest))
  {
    hide LineEnd;
    var target := id + rest;
    assert (" " + target)[1..] == target;
    WordStops(id, rest);
    assert target[0] == 'b' && !IsSpace('b');
    assert SkipSpace(target) == target && SkipSpace(" " + target) == SkipSpace(target);
    assert target[|id|..] == rest;
  }

  // ---- Reading a text with something after it ----

  lemma {:induction false} DigitsBefore(s: string, tail: string)
    requires tail != "" && !Text.IsDigit(tail[0])
    ensures Text.Digits(s + tail) == Text.Digits(s)
  {
    if s == "" {
      assert s + tail == tail;
    } else {
      DigitsBefore(s[1..], tail);
      assert (s + tail)[1..] == s[1..] + tail;
    }
  }

  lemma {:induction false} WordBefore(s: string, tail: string)
    requires tail != "" ==> IsSpace(tail[0])
    ensures Word(s + tail) == Word(s)
  {
    if s == "" {
      assert s + tail == tail;
    } else {
      WordBefore(s[1..], tail);
      assert (s + tail)[1..] == s[1..] + tail;
    }
  }

  lemma {:induction false} SkipSpaceBefore(s: string, tail: string)
    ensures SkipSpace(s + tail) == if SkipSpace(s) != "" then SkipSpace(s) + tail else SkipSpace(tail)
  {
    if s == "" {
      assert s + tail == tail;
    } else if IsSpace(s[0]) {
      SkipSpaceBefore(s[1..], tail);
      assert (s + tail)[1..] == s[1..] + tail;
    }
  }

  /** A line that ends with more text after it ended before. */
  lemma {:induction false} LineEndBefore(s: string, tail: string)
    requires LineEnd(s + tail).Some?
    ensures LineEnd(s).Some?
  {
    if s != "" {
      assert (s + tail)[1..] == s[1..] + tail;
      if LineEnd((s + tail)[1..]).Some? {
        LineEndBefore(s[1..], tail);
      }
    }
  }

  /** A line that ends still ends with more text after its line feed, or more space. */
  lemma {:induction false} LineEndAfter(s: string, tail: string)
    requires LineEnd(s).Some? && (AllSpace(tail) || (s != "" && s[|s| - 1] == '\n'))
    ensures LineEnd(s + tail).Some?
  {
    if s == "" {
      assert s + tail == tail;
      AllSpaceEnds(tail);
    } else {
      assert (s + tail)[1..] == s[1..] + tail;
      if LineEnd(s[1..]).Some? && (|s| > 1 || AllSpace(tail)) {
        LineEndAfter(s[1..], tail);
      }
    }
  }

  lemma {:induction false} AllSpaceEnds(s: string)
    requires AllSpace(s)
    ensures LineEnd(s) == Some("")
  {
    if s != "" {
      AllSpaceEnds(s[1..]);
    }
  }

  lemma MarkBefore(s: string, tail: string)
    requires tail != "" && tail[0] != ']' && !Text.IsDigit(tail[0]) && tail[0] != '['
    ensures MarkAt(s + tail) == match MarkAt(s) case None => None case Some(m) => Some(Mark(m.number, m.rest + tail))
  {
    if s == "" {
      assert s + tail == tail;
    } else if s[0] == '[' {
      assert (s + tail)[1..] == s[1..] + tail;
      DigitsBefore(s[1..], tail);
      var number := Text.Digits(s[1..]);
      var after := s[1..][|number|..];
      assert (s[1..] + tail)[|number|..] == after + tail;
      assert after != "" ==> (after + tail)[1..] == after[1..] + tail;
    }
  }

  lemma TargetBefore(s: string, tail: string)
    requires tail != "" && IsSpace(tail[0]) && SkipSpace(tail) != "" && SkipSpace(tail)[0] == '['
    requires TargetAt(s + tail).Some?
    ensures TargetAt(s).Some?
  {
    hide SkipSpace, LineEnd;
    SkipSpaceBefore(s, tail);
    var text := SkipSpace(s);
    if text != "" {
      WordBefore(text, tail);
      var id := Word(text);
      assert (text + tail)[|id|..] == text[|id|..] + tail;
      LineEndBefore(text[|id|..], tail);
    }
  }

  /** No definition begins in a text because a reference list follows it. */
  lemma DefinitionBefore(s: string, tail: string)
    requires tail != "" && tail[0] == '\n' && SkipSpace(tail) != "" && SkipSpace(tail)[0] == '['
    requires DefinitionAt(s + tail).Some?
    ensures DefinitionAt(s).Some?
  {
    hide MarkAt, SkipSpace, TargetAt;
    MarkBefore(s, tail);
    var rest := MarkAt(s).value.rest;
    assert (rest + tail)[1..] == rest[1..] + tail;
    TargetBefore(rest[1..], tail);
  }

  lemma TargetAfter(s: string, tail: string)
    requires TargetAt(s).Some? && (AllSpace(tail) || s[|s| - 1] == '\n')
    ensures TargetAt(s + tail).Some?
  {
    hide LineEnd, SkipSpace, Word, AllSpace, NoSpace;
    var text := SkipSpace(s);
    var id := Word(text);
    var after := text[|id|..];
    SkipSpaceBefore(s, tail);
    SkipSpaceIsSuffix(s);
    LineEndStartsWithSpace(after);
    assert text + tail == id + (after + tail);
    assert s[|s| - 1] == (id + after)[|id + after| - 1];
    AfterStartsWithSpace(id, after, tail);
    WordStops(id, after + tail);
    LineEndAfter(after, tail);
    assert (text + tail)[|id|..] == after + tail;
  }

  lemma AfterStartsWithSpace(id: string, after: string, tail: string)
    requires IsBlockId(id) && LineEnd(after).Some? && (AllSpace(tail) || (id + after)[|id + after| - 1] == '\n')
    ensures after + tail != "" ==> IsSpace((after + tail)[0])
    ensures AllSpace(tail) || (after != "" && after[|after| - 1] == '\n')
  {
    if after == "" {
      assert id + after == id && after + tail == tail;
      assert !IsSpace(id[|id| - 1]);
    }
  }

  lemma {:induction false} SkipSpaceIsSuffix(s: string)
    ensures SkipSpace(s) != "" ==> s != "" && SkipSpace(s)[|SkipSpace(s)| - 1] == s[|s| - 1]
  {
    if s != "" && IsSpace(s[0]) {
      SkipSpaceIsSuffix(s[1..]);
    }
  }

  lemma NothingIsNoTarget()
    ensures TargetAt("") == None
  {
  }

  /** A definition stays one when more text follows its last line feed, or more space. */
  lemma DefinitionAfter(s: string, tail: string)
    requires DefinitionAt(s).Some? && (AllSpace(tail) || s[|s| - 1] == '\n')
    ensures DefinitionAt(s + tail).Some?
  {
    hide MarkAt, TargetAt, AllSpace;
    var mark := MarkAt(s).value;
    assert s + tail == "[" + mark.number + "]" + (mark.rest + tail);
    MarkIsRead(mark.number, mark.rest + tail);
    assert (mark.rest + tail)[1..] == mark.rest[1..] + tail;
    NothingIsNoTarget();
    assert s[|s| - 1] == mark.rest[1..][|mark.rest| - 2];
    TargetAfter(mark.rest[1..], tail);
  }

  lemma LineEndStartsWithSpace(s: string)
    requires LineEnd(s).Some?
    ensures s != "" ==> IsSpace(s[0])
  {
  }

  // ---- Splitting undoes rendering ----

  lemma {:induction false} ReferencesAreRead(ids: seq<string>, from: nat)
    requires ids != [] && forall id :: id in ids ==> IsBlockId(id)
    ensures References(ids, from) != "" && References(ids, from)[0] == '['
    ensures Parse(References(ids, from), true) == ("", Numbered(ids, from))
  {
    hide DefinitionAt, LineEnd;
    var number := Text.ToDecimal(from);
    var rest := if |ids| == 1 then "" else "\n" + References(ids[1..], from + 1);
    assert References(ids, from) == "[" + number + "]: " + ids[0] + rest;
    if |ids| == 1 {
      assert LineEnd("") == Some("") by { NothingEnds(); }
      ReferenceIsRead(number, ids[0], "");
      assert Numbered(ids[1..], from + 1) == [];
    } else {
      var next := References(ids[1..], from + 1);
      ReferencesAreRead(ids[1..], from + 1);
      LineFeedEnds(next);
      ReferenceIsRead(number, ids[0], rest);
      assert rest[1..] == next;
      assert Parse(rest, false).1 == Parse(next, true).1;
    }
  }

  lemma NothingEnds()
    ensures LineEnd("") == Some("")
  {
  }

  lemma LineFeedEnds(next: string)
    requires next != "" && !IsSpace(next[0])
    ensures LineEnd("\n" + next) == Some("\n" + next)
  {
    assert ("\n" + next)[1..] == next;
  }

  /** A text without definitions stays as it is when a reference list follows. */
  lemma {:induction false} BodyIsRead(body: string, next: string, lineStart: bool)
    requires Plain(body, lineStart) && next != "" && next[0] == '[' && Parse(next, true).0 == ""
    ensures Parse(body + "\n\n" + next, lineStart) == (body + "\n\n", Parse(next, true).1)
  {
    hide DefinitionAt, SkipSpace;
    var s := body + "\n\n" + next;
    var tail := "\n\n" + next;
    assert s == body + tail;
    if body == "" {
      assert s == tail && tail[1..] == "\n" + next && ("\n" + next)[1..] == next;
      LineFeedIsNoDefinition(tail);
      LineFeedIsNoDefinition("\n" + next);
      assert Parse("\n" + next, true).0 == "\n" && Parse("\n" + next, true).1 == Parse(next, true).1;
      assert Parse(tail, lineStart).0 == "\n\n" && Parse(tail, lineStart).1 == Parse(next, true).1;
    } else {
      if lineStart && DefinitionAt(s).Some? {
        TwoLineFeeds(next);
        DefinitionBefore(body, tail);
      }
      assert s[1..] == body[1..] + "\n\n" + next;
      BodyIsRead(body[1..], next, body[0] == '\n');
      assert [s[0]] + (body[1..] + "\n\n") == body + "\n\n";
    }
  }

  lemma LineFeedIsNoDefinition(s: string)
    requires s != "" && s[0] == '\n'
    ensures DefinitionAt(s) == None
  {
  }

  lemma TwoLineFeeds(next: string)
    requires next != "" && next[0] == '['
    ensures SkipSpace("\n\n" + next) == next
  {
    assert ("\n\n" + next)[1..] == "\n" + next && ("\n" + next)[1..] == next;
    assert SkipSpace("\n" + next) == SkipSpace(next) == next;
  }

  lemma {:induction false} RStripIgnoresSpace(s: string, w: string)
    requires AllSpace(w)
    ensures RStrip(s + w) == RStrip(s)
  {
    if w == "" {
      assert s + w == s;
    } else {
      assert (s + w)[..|s + w| - 1] == s + w[..|w| - 1];
      RStripIgnoresSpace(s, w[..|w| - 1]);
    }
  }

  /** What splitting a rendered answer gives back, for a body without definitions. */
  lemma SplitRender(body: string, ids: seq<string>)
    requires ids != [] && forall id :: id in ids ==> IsBlockId(id)
    requires Plain(body, true)
    ensures Split(Render(body, ids)) == (RStrip(body), Numbered(ids, 1))
  {
    hide Parse, RStrip;
    ReferencesAreRead(ids, 1);
    BodyIsRead(body, References(ids, 1), true);
    RStripIgnoresSpace(body, "\n\n");
  }

  /** Splitting undoes rendering exactly for bodies without a definition line. */
  lemma SplitUndoesRender(body: string, ids: seq<string>)
    requires ids != [] && forall id :: id in ids ==> IsBlockId(id)
    ensures Split(Render(body, ids)) == (RStrip(body), Numbered(ids, 1)) <==> Plain(body, true)
  {
    hide Parse, RStrip, Numbered, References;
    if Plain(body, true) {
      SplitRender(body, ids);
    } else {
      BodyStopsEarly(body, "\n\n" + References(ids, 1), true);
      var s := Render(body, ids);
      assert s == body + ("\n\n" + References(ids, 1));
      var before := Parse(s, true).0;
      RStripKeepsLast(body, |before|);
    }
  }

  /** The first definition of a text is still there with white space after it. */
  lemma {:induction false} BodyStopsEarly(body: string, tail: string, lineStart: bool)
    requires !Plain(body, lineStart) && tail != "" && tail[0] == '\n'
    ensures var (before, footnotes) := Parse(body + tail, lineStart);
            |before| < |body| && body[|before|] == '[' && footnotes != []
  {
    hide DefinitionAt;
    if lineStart && DefinitionAt(body).Some? {
      DefinitionBeforeLineFeed(body, tail);
    }
    assert (body + tail)[0] == body[0] && (body + tail)[1..] == body[1..] + tail;
    if lineStart && DefinitionAt(body + tail).Some? {
      DefinitionStartsWithBracket(body + tail);
    } else {
      BodyStopsEarly(body[1..], tail, body[0] == '\n');
    }
  }

  lemma DefinitionStartsWithBracket(s: string)
    requires DefinitionAt(s).Some?
    ensures s != "" && s[0] == '['
  {
  }

  lemma DefinitionBeforeLineFeed(s: string, tail: string)
    requires DefinitionAt(s).Some? && tail != "" && tail[0] == '\n'
    ensures DefinitionAt(s + tail).Some?
  {
    hide DefinitionAt;
    DefinitionAfter(s, "\n");
    DefinitionAfter(s + "\n", tail[1..]);
    assert s + "\n" + tail[1..] == s + tail;
  }

  lemma {:induction false} RStripKeepsLast(s: string, i: nat)
    requires i < |s| && !IsSpace(s[i])
    ensures i < |RStrip(s)|
  {
    if IsSpace(s[|s| - 1]) {
      RStripKeepsLast(s[..|s| - 1], i);
    }
  }

  // ---- The body of a split answer ----

  /** The body before the first definition has none itself, and the line before it ends. */
  lemma {:induction false} BodyIsPlain(s: string, lineStart: bool)
    ensures var (body, footnotes) := Parse(s, lineStart);
            && body <= s && Plain(body, lineStart)
            && (footnotes == [] ==> body == s)
            && (footnotes != [] ==> if body == "" then lineStart else body[|body| - 1] == '\n')
    decreases |s|
  {
    hide DefinitionAt;
    if s != "" && !(lineStart && DefinitionAt(s).Some?) {
      BodyIsPlain(s[1..], s[0] == '\n');
      var (body, footnotes) := Parse(s, lineStart);
      assert body[1..] == Parse(s[1..], s[0] == '\n').0;
      if lineStart && DefinitionAt(body).Some? {
        assert body + s[|body|..] == s;
        DefinitionAfter(body, s[|body|..]);
      }
    }
  }

  /** White space at its end makes no difference to a body without definitions. */
  lemma {:induction false} PlainWithoutSpace(body: string, space: string, lineStart: bool)
    requires AllSpace(space) && Plain(body + space, lineStart)
    ensures Plain(body, lineStart)
    decreases |body|
  {
    hide DefinitionAt, AllSpace;
    if body != "" {
      assert (body + space)[0] == body[0] && (body + space)[1..] == body[1..] + space;
      if lineStart && DefinitionAt(body).Some? {
        DefinitionAfter(body, space);
      }
      PlainWithoutSpace(body[1..], space, body[0] == '\n');
    }
  }

  lemma SplitBodyIsPlain(answer: string)
    ensures Plain(Split(answer).0, true)
  {
    hide Parse, RStrip;
    BodyIsPlain(answer, true);
    var body := Parse(answer, true).0;
    assert body == RStrip(body) + body[|RStrip(body)|..];
    PlainWithoutSpace(RStrip(body), body[|RStrip(body)|..], true);
  }
}
