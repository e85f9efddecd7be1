/** The two regular expressions said without a scanner: which texts are footnote definitions,
    and that a text's footnotes are the definitions at the starts of its lines, in order. */
module FootnoteForms {
  import opened Wrappers
  import opened Footnotes
  import Text

  // ---- A definition ----

  predicate Blank(s: string) { AllSpace(s) && '\n' !in s }

  /** Something stands on the line, after white space that is no line feed. */
  predicate HasMore(s: string) { exists k :: 0 <= k < |s| && Blank(s[..k]) && !IsSpace(s[k]) }

  /** A line ends here: nothing is left, or a line feed after which something stands on the
      next line. So of several line feeds in a row it is the last. */
  predicate EndsLine(rest: string) { rest == "" || (rest[0] == '\n' && HasMore(rest[1..])) }

  /** `[number]:`, white space, an id that starts with "block-", and white space up to where
      a line ends. */
  predicate IsDefinition(s: string, number: string, space: string, id: string, end: string, rest: string) {
    && s == "[" + number + "]:" + space + id + end + rest
    && Text.IsNumeral(number) && AllSpace(space) && AllSpace(end) && EndsLine(rest)
    && "block-" <= id && |id| > 6 && NoSpace(id)
  }

  lemma {:induction false} SkipSpaceSplits(s: string) returns (space: string)
    ensures s == space + SkipSpace(s) && AllSpace(space)
  {
    if s != "" && IsSpace(s[0]) {
      var tail := SkipSpaceSplits(s[1..]);
      space := [s[0]] + tail;
      assert s == [s[0]] + s[1..];
    } else {
      space := "";
    }
  }

  lemma {:induction false} SkipSpaceSkips(space: string, other: string)
    requires AllSpace(space) && (other != "" ==> !IsSpace(other[0]))
    ensures SkipSpace(space + other) == other
  {
    if space == "" {
      assert space + other == other;
    } else {
      assert (space + other)[1..] == space[1..] + other;
      SkipSpaceSkips(space[1..], other);
    }
  }

  lemma MoreAfterSpace(s: string)
    requires s != "" && IsSpace(s[0])
    ensures HasMore(s) <==> s[0] != '\n' && HasMore(s[1..])
  {
    if HasMore(s) {
      var k :| 0 <= k < |s| && Blank(s[..k]) && !IsSpace(s[k]);
      assert s[..k][0] == s[0];
      assert s[1..][..k - 1] == s[..k][1..] && Blank(s[1..][..k - 1]) && !IsSpace(s[1..][k - 1]);
    }
    if s[0] != '\n' && HasMore(s[1..]) {
      var k :| 0 <= k < |s[1..]| && Blank(s[1..][..k]) && !IsSpace(s[1..][k]);
      assert s[..k + 1] == [s[0]] + s[1..][..k] && Blank(s[..k + 1]) && !IsSpace(s[k + 1]);
    }
  }

  /** A line does not end exactly where more stands on it. */
  lemma {:induction false} NoLineEndIffMore(s: string)
    ensures LineEnd(s).None? <==> HasMore(s)
  {
    if s != "" {
      if IsSpace(s[0]) {
        NoLineEndIffMore(s[1..]);
        MoreAfterSpace(s);
      } else {
        assert Blank(s[..0]) && !IsSpace(s[0]);
      }
    }
  }

  /** `\s*$` takes white space up to where a line ends. */
  lemma {:induction false} LineEndSplits(s: string) returns (end: string)
    requires LineEnd(s).Some?
    ensures s == end + LineEnd(s).value && AllSpace(end) && EndsLine(LineEnd(s).value)
  {
    if s == "" {
      end := "";
    } else if LineEnd(s[1..]).Some? {
      var tail := LineEndSplits(s[1..]);
      end := [s[0]] + tail;
      assert s == [s[0]] + s[1..];
    } else {
      end := "";
      NoLineEndIffMore(s[1..]);
    }
  }

  lemma {:induction false} LineEndTakes(end: string, rest: string)
    requires AllSpace(end) && EndsLine(rest)
    ensures LineEnd(end + rest) == Some(rest)
  {
    if end == "" {
      assert end + rest == rest;
      if rest != "" {
        NoLineEndIffMore(rest[1..]);
      }
    } else {
      assert (end + rest)[1..] == end[1..] + rest;
      LineEndTakes(end[1..], rest);
    }
  }

  /** The expression at the start of a text matches exactly the definitions. */
  lemma DefinitionIsForm(s: string, number: string, id: string, rest: string)
    ensures DefinitionAt(s) == Some(Definition(Footnote(number, id), rest)) <==>
            exists space, end :: IsDefinition(s, number, space, id, end, rest)
  {
    hide MarkAt, SkipSpace, LineEnd, Word, EndsLine;
    if DefinitionAt(s) == Some(Definition(Footnote(number, id), rest)) {
      var mark := MarkAt(s).value;
      var text := SkipSpace(mark.rest[1..]);
      var space := SkipSpaceSplits(mark.rest[1..]);
      var end := LineEndSplits(text[|id|..]);
      assert mark.rest == ":" + mark.rest[1..] && text == id + text[|id|..];
      assert s == "[" + number + "]:" + space + id + end + rest;
      assert IsDefinition(s, number, space, id, end, rest);
    }
    if space, end :| IsDefinition(s, number, space, id, end, rest) {
      FormIsDefinition(s, number, space, id, end, rest);
    }
  }

  lemma FormIsDefinition(s: string, number: string, space: string, id: string, end: string, rest: string)
    requires IsDefinition(s, number, space, id, end, rest)
    ensures DefinitionAt(s) == Some(Definition(Footnote(number, id), rest))
  {
    hide MarkAt, SkipSpace, LineEnd, Word, EndsLine;
    var after := ":" + space + id + end + rest;
    assert s == "[" + number + "]" + after;
    MarkIsRead(number, after);
    var tail := end + rest;
    assert after[1..] == space + (id + tail) && (id + tail)[0] == 'b' && !IsSpace('b');
    SkipSpaceSkips(space, id + tail);
    TailStarts(end, rest);
    WordStops(id, tail);
    assert (id + tail)[|id|..] == tail;
    LineEndTakes(end, rest);
  }

  lemma TailStarts(end: string, rest: string)
    requires AllSpace(end) && EndsLine(rest)
    ensures end + rest != "" ==> IsSpace((end + rest)[0])
  {
  }

  // ---- All definitions of a text ----

  /** The definitions at the starts of lines, one by one. */
  function AllDefinitions(s: string, lineStart: bool): seq<Footnote> {
    if s == "" then []
    else (if lineStart && DefinitionAt(s).Some? then [DefinitionAt(s).value.footnote] else []) +
         AllDefinitions(s[1..], s[0] == '\n')
  }

  /** No line of the first part starts with a bracket. */
  predicate NoBracket(s: string, lineStart: bool) {
    s == "" || (!(lineStart && s[0] == '[') && NoBracket(s[1..], s[0] == '\n'))
  }

  lemma {:induction false} NoneBefore(before: string, rest: string, lineStart: bool)
    requires NoBracket(before, lineStart) && (rest == "" || rest[0] != '[')
    ensures AllDefinitions(before + rest, lineStart) == AllDefinitions(rest, false)
  {
    hide DefinitionAt;
    if before == "" {
      assert before + rest == rest;
      if rest != "" { NotADefinition(rest); }
    } else {
      assert (before + rest)[1..] == before[1..] + rest && (before + rest)[0] == before[0];
      if before[0] != '[' { NotADefinition(before + rest); }
      NoneBefore(before[1..], rest, before[0] == '\n');
    }
  }

  lemma NotADefinition(s: string)
    requires s != "" && s[0] != '['
    ensures DefinitionAt(s).None?
  {
  }

  lemma {:induction false} NoBracketConcat(a: string, b: string, lineStart: bool)
    requires NoBracket(a, lineStart) && NoBracket(b, true)
    ensures NoBracket(a + b, lineStart)
  {
    if a == "" {
      assert a + b == b;
    } else {
      assert (a + b)[1..] == a[1..] + b;
      NoBracketConcat(a[1..], b, a[0] == '\n');
    }
  }

  lemma {:induction false} SpaceHasNoBracket(space: string)
    requires AllSpace(space)
    ensures NoBracket(space, true)
  {
    if space != "" {
      SpaceHasNoBracket(space[1..]);
      BracketElsewhere(space[1..], space[0] == '\n');
    }
  }

  lemma {:induction false} BracketElsewhere(s: string, lineStart: bool)
    requires NoBracket(s, true)
    ensures NoBracket(s, lineStart)
  {
  }

  /** A word has no line feed, so no line starts inside it. */
  lemma {:induction false} WordHasNoBracket(word: string, lineStart: bool)
    requires NoSpace(word) && (lineStart && word != "" ==> word[0] != '[')
    ensures NoBracket(word, lineStart)
  {
    if word != "" {
      assert word[0] != '\n';
      WordHasNoBracket(word[1..], false);
    }
  }

  /** Inside a definition no other begins. */
  lemma DefinitionIsAlone(s: string)
    requires DefinitionAt(s).Some?
    ensures AllDefinitions(s[1..], s[0] == '\n') == AllDefinitions(DefinitionAt(s).value.rest, false)
  {
    hide DefinitionAt, AllDefinitions, NoBracket;
    var Definition(Footnote(number, id), rest) := DefinitionAt(s).value;
    DefinitionIsForm(s, number, id, rest);
    var space, end :| IsDefinition(s, number, space, id, end, rest);
    DefinitionHasNoBracket(number, space, id, end);
    assert s[1..] == number + "]:" + space + id + end + rest;
    NoneBefore(number + "]:" + space + id + end, rest, false);
  }

  lemma DefinitionHasNoBracket(number: string, space: string, id: string, end: string)
    requires Text.IsNumeral(number) && AllSpace(space) && AllSpace(end) && NoSpace(id) && "block-" <= id
    ensures NoBracket(number + "]:" + space + id + end, false)
  {
    hide NoBracket;
    assert NoSpace(number + "]:") by { assert forall c :: Text.IsDigit(c) ==> !IsSpace(c); assert !IsSpace(']') && !IsSpace(':'); }
    WordHasNoBracket(number + "]:", false);
    WordHasNoBracket(id, true);
    SpaceHasNoBracket(space);
    SpaceHasNoBracket(end);
    NoBracketConcat(number + "]:", space, false);
    NoBracketConcat(number + "]:" + space, id, false);
    NoBracketConcat(number + "]:" + space + id, end, false);
  }

  /** A text's footnotes are the definitions at the starts of its lines, in order, and its
      body is what stands before the first of them. */
  lemma {:induction false} FootnotesAreDefinitions(s: string, lineStart: bool)
    ensures Parse(s, lineStart).1 == AllDefinitions(s, lineStart)
    ensures Parse(s, lineStart).0 <= s
    ensures Parse(s, lineStart).1 == [] ==> Parse(s, lineStart).0 == s
    decreases |s|
  {
    hide DefinitionAt;
    if s != "" {
      if lineStart && DefinitionAt(s).Some? {
        FootnotesAreDefinitions(DefinitionAt(s).value.rest, false);
        DefinitionIsAlone(s);
      } else {
        FootnotesAreDefinitions(s[1..], s[0] == '\n');
      }
    }
  }

  /** A split answer: as it is when no line is a definition; otherwise the text before the
      first, without the white space at its end, and all of them. */
  lemma SplitMeans(answer: string)
    ensures Split(answer).1 == AllDefinitions(answer, true)
    ensures AllDefinitions(answer, true) == [] ==> Split(answer).0 == answer
    ensures AllDefinitions(answer, true) != [] ==>
              && Split(answer).0 <= answer && (Split(answer).0 != "" ==> !IsSpace(Split(answer).0[|Split(answer).0| - 1]))
              && exists space :: Split(answer).0 + space <= answer && AllSpace(space)
                   && var rest := answer[|Split(answer).0| + |space|..];
                      DefinitionAt(rest).Some? && AllDefinitions(rest, true) == AllDefinitions(answer, true)
  {
    hide Parse, AllDefinitions, DefinitionAt;
    FootnotesAreDefinitions(answer, true);
    if AllDefinitions(answer, true) != [] {
      var body := Parse(answer, true).0;
      var space := body[|RStrip(body)|..];
      assert RStrip(body) + space == body;
      BodyEndsAtDefinition(answer, true);
      assert Split(answer).0 + space <= answer && AllSpace(space);
      FootnotesAreDefinitions(answer[|body|..], true);
    }
  }

  lemma {:induction false} BodyEndsAtDefinition(s: string, lineStart: bool)
    requires Parse(s, lineStart).1 != []
    ensures var body := Parse(s, lineStart).0;
            body <= s && DefinitionAt(s[|body|..]).Some? && Parse(s[|body|..], true).1 == Parse(s, lineStart).1
    decreases |s|
  {
    hide DefinitionAt;
    if !(lineStart && DefinitionAt(s).Some?) {
      BodyEndsAtDefinition(s[1..], s[0] == '\n');
      var (body, footnotes) := Parse(s, lineStart);
      assert body[1..] == Parse(s[1..], s[0] == '\n').0;
      assert s[|body|..] == s[1..][|body| - 1..];
    } else {
      assert s[0..] == s;
    }
  }
}
