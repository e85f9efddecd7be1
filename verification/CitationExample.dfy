/** An answer whose meaning changes when its citations are expanded: it cites footnote 1
    and also shows a bare "[2]". The footnote expands to two chunks, and the bare marker
    comes to cite the second. */
module CitationExample {
  import opened Wrappers
  import opened Footnotes
  import opened FootnoteText
  import opened Citations
  import Text

  const BLOCK := "block-AA"
  const ANSWER := "[1] [2]\n\n[1]: block-AA"
  const NOTES := [Footnote("1", BLOCK)]
  const CHUNK_IDS := ["block-AA-0", "block-AA-1"]

  /** The cited context has two chunks, both of them selected. */
  predicate IsCited(context: Context) {
    context.citationsId == Some(BLOCK) && context.citations.None? && |context.chunks| == 2
  }

  lemma FirstNumbers()
    ensures Text.ToDecimal(0) == "0" && Text.ToDecimal(1) == "1" && Text.ToDecimal(2) == "2"
    ensures Text.IsNumeral("1") && Text.IsNumeral("2")
  {
  }

  lemma TwoMarks(a: string, b: string)
    ensures Marks([a, b]) == "[" + a + "]" + (" [" + b + "]")
  {
    assert [a, b][1..] == [b];
  }

  lemma BodyIsPlain()
    ensures Plain(Marks(["1", "2"]), true)
  {
    hide Marks, TargetAt, MarkAt;
    FirstNumbers();
    TwoMarks("1", "2");
    MarkIsRead("1", " [" + "2" + "]");
    assert Marks(["1", "2"]) + "" == Marks(["1", "2"]);
    ParseMarks(["1", "2"], "", true);
  }

  lemma AnswerIsRendered()
    ensures ANSWER == Render(Marks(["1", "2"]), [BLOCK])
  {
    FirstNumbers();
    TwoMarks("1", "2");
  }

  lemma AnswerSplits()
    ensures Split(ANSWER) == (Marks(["1", "2"]), NOTES)
  {
    hide Parse, Render, Split, Marks;
    BodyIsPlain();
    AnswerIsRendered();
    assert NoSpace(BLOCK);
    SplitRender(Marks(["1", "2"]), [BLOCK]);
    FirstNumbers();
    MarksEnd(["1", "2"]);
    assert RStrip(Marks(["1", "2"])) == Marks(["1", "2"]);
    assert [BLOCK][1..] == [] && Numbered([BLOCK], 1) == NOTES;
  }

  lemma {:induction false} OtherDashes(s: string, t: string)
    requires '-' !in t
    ensures Dashes(s + t) == Dashes(s)
  {
    if t == "" {
      assert s + t == s;
    } else {
      assert (s + t)[..|s + t| - 1] == s + t[..|t| - 1];
      OtherDashes(s, t[..|t| - 1]);
    }
  }

  lemma ParsesWhole()
    ensures ParseCitation(BLOCK) == Some(Citation(BLOCK, None))
  {
    OtherDashes("", "block");
    assert "block-"[..5] == "" + "block" && BLOCK == "block-" + "AA";
    OtherDashes("block-", "AA");
    assert Dashes(BLOCK) == 1;
  }

  lemma BlockExpands(context: Context)
    requires IsCited(context)
    ensures Expansion(BLOCK, [context]) == [0, 1]
  {
    hide Dashes, ParseCitation;
    ParsesWhole();
    assert Find([context], BLOCK) == Some(context);
    assert SelectedFrom(context, 2) == [] && SelectedFrom(context, 1) == [1];
  }

  lemma BlockBecomes(context: Context)
    requires IsCited(context)
    ensures Expand(BLOCK, [context]) == CHUNK_IDS
  {
    hide Expansion, ChunkId;
    BlockExpands(context);
    ChunkIdText(0);
    ChunkIdText(1);
  }

  lemma ChunkIdText(i: nat)
    requires i < 2
    ensures ChunkId(BLOCK, i) == CHUNK_IDS[i]
  {
    FirstNumbers();
  }

  /** What the normalisation collects for the answer. */
  lemma AnswerTargets(context: Context)
    requires IsCited(context)
    ensures Changes(NOTES, [context])
    ensures TargetsOf(NOTES, [context]) == map["1" := CHUNK_IDS]
  {
    hide Expand, Expansion;
    BlockBecomes(context);
    BlockExpands(context);
    assert NOTES[0] in NOTES && NOTES[..0] == [];
  }

  lemma NoRepetition()
    ensures AddNew([], CHUNK_IDS) == CHUNK_IDS
  {
    assert CHUNK_IDS[1..] == [CHUNK_IDS[1]] && [CHUNK_IDS[1]][1..] == [] && [CHUNK_IDS[0]] + [CHUNK_IDS[1]] == CHUNK_IDS;
  }

  lemma ChunkNumbers()
    ensures NumbersFor(CHUNK_IDS, CHUNK_IDS) == ["1", "2"]
  {
    hide Text.ToDecimal;
    FirstNumbers();
    assert CHUNK_IDS[0] != CHUNK_IDS[1];
  }

  lemma AnswerIds(targets: Targets)
    requires targets == map["1" := CHUNK_IDS]
    ensures IdsOf(NOTES, targets) == CHUNK_IDS
  {
    hide AddNew;
    assert NOTES[..0] == [] && NOTES[0] in NOTES && NOTES[0].number == "1";
    NoRepetition();
  }

  lemma AnswerNumbers(targets: Targets)
    requires targets == map["1" := CHUNK_IDS]
    ensures IdsOf(NOTES, targets) == CHUNK_IDS && NumbersOf(NOTES, targets) == map["1" := ["1", "2"]]
  {
    hide IdsOf, NumbersFor;
    assert NOTES[0] in NOTES && NOTES[0].number == "1";
    AnswerIds(targets);
    ChunkNumbers();
  }

  lemma BodyIsReplaced()
    ensures Replace(Marks(["1", "2"]), map["1" := ["1", "2"]]) == "[1] [2] [2]"
  {
    hide MarkAt, Marks, Replace;
    var numbers: Numbers := map["1" := ["1", "2"]];
    var body, second, last := "[" + "1" + "]" + " [2]", " [2]", "[" + "2" + "]" + "";
    FirstNumbers();
    TwoMarks("1", "2");
    assert Marks(["1", "2"]) == body && Marks(["1", "2"]) == "[1] [2]";
    MarkIsRead("2", "");
    NothingReplaced(numbers);
    ReplaceStep(last, numbers);
    assert Replace(last, numbers) == "[2]";
    DigitIsNoMark(second);
    assert second[1..] == last;
    ReplaceStep(second, numbers);
    assert Replace(second, numbers) == " [2]";
    MarkIsRead("1", second);
    ReplaceStep(body, numbers);
  }

  lemma TwoReferences(a: string, b: string)
    ensures References([a, b], 1) == "[1]: " + a + ("\n" + ("[2]: " + b))
  {
    hide Text.ToDecimal;
    FirstNumbers();
    assert [a, b][1..] == [b];
    assert References([b], 2) == "[2]: " + b;
  }

  lemma NewListText()
    ensures References(CHUNK_IDS, 1) == "[1]: block-AA-0\n[2]: block-AA-1"
  {
    hide References;
    TwoReferences("block-AA-0", "block-AA-1");
  }

  /** The answer after normalising. */
  lemma AnswerIsNormalized(context: Context)
    requires IsCited(context)
    ensures Normalized(ANSWER, [context]) == "[1] [2] [2]\n\n[1]: block-AA-0\n[2]: block-AA-1"
  {
    hide Split, TargetsOf, IdsOf, NumbersOf, Changes, Replace, Marks, References;
    AnswerSplits();
    AnswerTargets(context);
    AnswerNumbers(TargetsOf(NOTES, [context]));
    BodyIsReplaced();
    NewListText();
  }

  /** The bare marker has come to mean a chunk. */
  lemma StrayMarkerIsTakenOver(context: Context)
    requires IsCited(context)
    ensures Normalized(ANSWER, [context]) == "[1] [2] [2]\n\n[1]: block-AA-0\n[2]: block-AA-1"
    ensures var (body, footnotes) := Split(ANSWER);
            var (newBody, newFootnotes) := Split(Normalized(ANSWER, [context]));
            Read(Pieces(newBody), ListOf(newFootnotes)) != Read(Pieces(body), TargetsOf(footnotes, [context]))
  {
    hide Split, TargetsOf, IdsOf, Normalized, Pieces, Read, ListOf, Changes, Marks, Renumbered, Renames;
    AnswerIsNormalized(context);
    AnswerSplits();
    AnswerTargets(context);
    AnswerNumbers(TargetsOf(NOTES, [context]));
    NormalizedKeepsMeaning(ANSWER, [context]);
    FirstNumbers();
    MarksAreRead(["1", "2"], "");
    assert Marks(["1", "2"]) + "" == Marks(["1", "2"]);
    assert Cites(["1", "2"])[2] == Cite("2");
    assert Cite("2") in Pieces(Marks(["1", "2"]));
    assert IsNumberUpTo("2", |CHUNK_IDS|);
  }
}
