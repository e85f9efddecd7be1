/** Chunk-level citations of the summarize agent: expanding the references to a context
    into references to its chunks, and the metadata of the references. */
module Citations {
  import opened Wrappers
  import opened Footnotes
  import opened FootnoteText
  import Text

  datatype Chunk = Chunk(chunkId: string, originUrl: Option<string>)

  datatype Context = Context(id: string, citationsId: Option<string>, citations: Option<seq<string>>, chunks: seq<Chunk>)

  // ---- Citation ids ----

  /** `s.count("-")` */
  function Dashes(s: string): nat {
    if s == "" then 0 else Dashes(s[..|s| - 1]) + if s[|s| - 1] == '-' then 1 else 0
  }

  /** `int`, for texts of ASCII digits with an optional plus sign. */
  function ParseInt(s: string): Option<nat> {
    var digits := if s != "" && s[0] == '+' then s[1..] else s;
    if Text.IsNumeral(digits) then Some(Text.ParseDecimal(digits)) else None
  }

  /** Where the last dash is. */
  function LastDash(s: string): (i: nat)
    requires Dashes(s) > 0
    ensures i < |s| && s[i] == '-' && '-' !in s[i + 1..]
  {
    var n := |s| - 1;
    if s[n] == '-' then n
    else
      var i := LastDash(s[..n]);
      assert s[i + 1..] == s[..n][i + 1..] + [s[n]];
      i
  }

  datatype Citation = Citation(contextId: string, chunk: Option<nat>)

  /** `_parse_citation_id` */
  function ParseCitation(id: string): Option<Citation> {
    if Dashes(id) < 2 then Some(Citation(id, None)) else
    var dash := LastDash(id);
    match ParseInt(id[dash + 1..])
    case None => None
    case Some(n) => Some(Citation(id[..dash], Some(n)))
  }

  function ChunkId(id: string, index: nat): string { id + "-" + Text.ToDecimal(index) }

  // ---- Contexts ----

  /** `contexts_by_citation_id.get`: the last context with the id. */
  function Find(contexts: seq<Context>, id: string): Option<Context> {
    if contexts == [] then None
    else
      var last := contexts[|contexts| - 1];
      if last.citationsId == Some(id) then Some(last) else Find(contexts[..|contexts| - 1], id)
  }

  predicate IsSelected(context: Context, chunk: Chunk) {
    context.citations.None? || chunk.chunkId in context.citations.value
  }

  /** The indices of the cited chunks from number `from` on. */
  function SelectedFrom(context: Context, from: nat): (r: seq<nat>)
    requires from <= |context.chunks|
    ensures forall i :: i in r <==> from <= i < |context.chunks| && IsSelected(context, context.chunks[i])
    decreases |context.chunks| - from
  {
    if from == |context.chunks| then []
    else (if IsSelected(context, context.chunks[from]) then [from] else []) + SelectedFrom(context, from + 1)
  }

  /** The chunks a citation of a whole context expands to; none when it does not expand. */
  function Expansion(id: string, contexts: seq<Context>): seq<nat> {
    match ParseCitation(id)
    case None => []
    case Some(citation) =>
      var context := Find(contexts, citation.contextId);
      if citation.chunk.None? && context.Some? then SelectedFrom(context.value, 0) else []
  }

  function ChunkIds(id: string, indices: seq<nat>): (r: seq<string>)
    ensures |r| == |indices| && forall i :: 0 <= i < |r| ==> r[i] == ChunkId(id, indices[i])
  {
    seq(|indices|, i requires 0 <= i < |indices| => ChunkId(id, indices[i]))
  }

  /** What a footnote with this id refers to after expanding. */
  function Expand(id: string, contexts: seq<Context>): (r: seq<string>)
    ensures r != []
  {
    if Expansion(id, contexts) == [] then [id] else ChunkIds(id, Expansion(id, contexts))
  }

  // ---- Normalising ----

  type Targets = map<string, seq<string>>

  /** The targets of every marker; a later definition of a marker replaces an earlier one. */
  function TargetsOf(footnotes: seq<Footnote>, contexts: seq<Context>): (r: Targets)
    ensures forall f :: f in footnotes ==> f.number in r
  {
    if footnotes == [] then map[]
    else
      var last := footnotes[|footnotes| - 1];
      TargetsOf(footnotes[..|footnotes| - 1], contexts)[last.number := Expand(last.id, contexts)]
  }

  predicate Changes(footnotes: seq<Footnote>, contexts: seq<Context>) {
    exists f :: f in footnotes && Expansion(f.id, contexts) != []
  }

  /** `dict.fromkeys`: each id where it first occurs. */
  function AddNew(ids: seq<string>, more: seq<string>): (r: seq<string>)
    ensures ids <= r && (forall id :: id in r <==> id in ids || id in more)
    ensures Text.Distinct(ids) ==> Text.Distinct(r)
    decreases |more|
  {
    if more == [] then ids
    else AddNew(if more[0] in ids then ids else ids + [more[0]], more[1..])
  }

  function IdsOf(footnotes: seq<Footnote>, targets: Targets): (r: seq<string>)
    requires forall f :: f in footnotes ==> f.number in targets
    ensures Text.Distinct(r)
    ensures forall id :: id in r <==> exists f :: f in footnotes && id in targets[f.number]
  {
    if footnotes == [] then []
    else AddNew(IdsOf(footnotes[..|footnotes| - 1], targets), targets[footnotes[|footnotes| - 1].number])
  }

  function PositionOf(ids: seq<string>, id: string): (i: nat)
    requires id in ids
    ensures i < |ids| && ids[i] == id
  {
    if ids[0] == id then 0 else 1 + PositionOf(ids[1..], id)
  }

  /** The numerals that take the place of a marker with these targets. */
  function NumbersFor(ids: seq<string>, targets: seq<string>): (r: seq<string>)
    requires forall id :: id in targets ==> id in ids
    ensures |r| == |targets| && forall i :: 0 <= i < |r| ==> r[i] == Text.ToDecimal(PositionOf(ids, targets[i]) + 1)
  {
    seq(|targets|, i requires 0 <= i < |targets| => Text.ToDecimal(PositionOf(ids, targets[i]) + 1))
  }

  function NumbersOf(footnotes: seq<Footnote>, targets: Targets): (r: Numbers)
    requires forall f :: f in footnotes ==> f.number in targets
    requires forall m :: m in targets ==> exists f :: f in footnotes && f.number == m
  {
    var ids := IdsOf(footnotes, targets);
    map m | m in targets :: NumbersFor(ids, targets[m])
  }

  // ---- Citation ids of chunks ----

  lemma {:induction false} DashesOfDigits(s: string, digits: string)
    requires Text.AllDigits(digits)
    ensures Dashes(s + digits) == Dashes(s)
    ensures Dashes(s + digits) > 0 ==> LastDash(s + digits) == LastDash(s)
  {
    if digits == "" {
      assert s + digits == s;
    } else {
      var n := |digits| - 1;
      DashesOfDigits(s, digits[..n]);
      assert (s + digits)[..|s + digits| - 1] == s + digits[..n];
    }
  }

  /** The id of a chunk names that chunk of its context, whatever the context's id. */
  lemma ChunkIdIsParsed(id: string, index: nat)
    requires Dashes(id) > 0
    ensures ParseCitation(ChunkId(id, index)) == Some(Citation(id, Some(index)))
  {
    hide Dashes, LastDash;
    var digits := Text.ToDecimal(index);
    var s := id + "-";
    DashesOfDigits(s, digits);
    LastDashAtEnd(id);
    Text.ParseToDecimal(index);
    assert ChunkId(id, index) == s + digits;
    assert ChunkId(id, index)[|id| + 1..] == digits && ChunkId(id, index)[..|id|] == id;
  }

  lemma LastDashAtEnd(id: string)
    ensures Dashes(id + "-") == Dashes(id) + 1 && LastDash(id + "-") == |id|
  {
    assert (id + "-")[..|id|] == id;
  }

  lemma {:induction false} BlockIdHasDash(id: string)
    requires |id| >= 6 && "block-" <= id
    ensures Dashes(id) > 0
  {
    if |id| > 6 {
      BlockIdHasDash(id[..|id| - 1]);
    }
  }

  lemma ChunkIdIsBlock(id: string, index: nat)
    requires IsBlockId(id)
    ensures IsBlockId(ChunkId(id, index))
  {
    NumeralIsSolid(Text.ToDecimal(index));
    assert !IsSpace('-');
  }

  /** What a reference expands to does not expand again. */
  lemma ExpandedIsFinal(id: string, contexts: seq<Context>, target: string)
    requires IsBlockId(id) && target in Expand(id, contexts)
    ensures Expansion(target, contexts) == [] && IsBlockId(target)
  {
    hide ParseCitation, IsBlockId;
    if Expansion(id, contexts) != [] {
      var i :| 0 <= i < |Expansion(id, contexts)| && target == ChunkId(id, Expansion(id, contexts)[i]);
      var index := Expansion(id, contexts)[i];
      assert Dashes(id) > 0 by { hide *; BlockHasDash(id); }
      ChunkIdIsParsed(id, index);
      ChunkIdIsBlock(id, index);
    }
  }

  lemma BlockHasDash(id: string)
    requires IsBlockId(id)
    ensures Dashes(id) > 0
  {
    BlockIdHasDash(id);
  }

  // ---- The whole normalisation ----

  lemma {:induction false} TargetsAreOf(footnotes: seq<Footnote>, contexts: seq<Context>)
    ensures forall m :: m in TargetsOf(footnotes, contexts) <==> exists f :: f in footnotes && f.number == m
    ensures forall m :: m in TargetsOf(footnotes, contexts) ==>
              exists f :: f in footnotes && f.number == m && TargetsOf(footnotes, contexts)[m] == Expand(f.id, contexts)
  {
    hide Expand;
    if footnotes != [] {
      var n := |footnotes| - 1;
      TargetsAreOf(footnotes[..n], contexts);
      assert footnotes == footnotes[..n] + [footnotes[n]];
    }
  }

  /** `normalize_chunk_level_citations` */
  function Normalized(answer: string, contexts: seq<Context>): string {
    var (body, footnotes) := Split(answer);
    if !Changes(footnotes, contexts) then answer else
    var targets := TargetsOf(footnotes, contexts);
    TargetsAreOf(footnotes, contexts);
    Render(Replace(body, NumbersOf(footnotes, targets)), IdsOf(footnotes, targets))
  }

  /** What a list of footnotes says: every marker refers to the id defined last for it. */
  function ListOf(footnotes: seq<Footnote>): Targets { TargetsOf(footnotes, []) }

  lemma ExpandNothing(id: string)
    ensures Expand(id, []) == [id]
  {
  }

  lemma {:induction false} NumberedAt(ids: seq<string>, from: nat)
    ensures |Numbered(ids, from)| == |ids|
    ensures forall i :: 0 <= i < |ids| ==> Numbered(ids, from)[i] == Footnote(Text.ToDecimal(from + i), ids[i])
  {
    if ids != [] {
      NumberedAt(ids[1..], from + 1);
      forall i | 0 < i < |ids| ensures Numbered(ids, from)[i] == Footnote(Text.ToDecimal(from + i), ids[i]) {
        assert Numbered(ids, from)[i] == Numbered(ids[1..], from + 1)[i - 1];
      }
    }
  }

  /** The printed list gives number k the k-th id. */
  lemma ListOfNumbered(ids: seq<string>, i: nat)
    requires i < |ids|
    ensures var list := ListOf(Numbered(ids, 1));
            Text.ToDecimal(i + 1) in list && list[Text.ToDecimal(i + 1)] == [ids[i]]
  {
    hide TargetsOf, Expand, Text.ToDecimal, Numbered;
    var footnotes := Numbered(ids, 1);
    var number := Text.ToDecimal(i + 1);
    NumberedAt(ids, 1);
    TargetsAreOf(footnotes, []);
    assert footnotes[i].number == number && footnotes[i] in footnotes;
    var f :| f in footnotes && f.number == number && TargetsOf(footnotes, [])[number] == Expand(f.id, []);
    var j :| 0 <= j < |footnotes| && footnotes[j] == f;
    assert i == j by { Text.ToDecimalInjective(i + 1, j + 1); }
    ExpandNothing(f.id);
  }

  lemma ListIsSingle(footnotes: seq<Footnote>)
    ensures forall m :: m in ListOf(footnotes) ==> |ListOf(footnotes)[m]| == 1
  {
    hide TargetsOf, Expand;
    TargetsAreOf(footnotes, []);
    forall m | m in ListOf(footnotes) ensures |ListOf(footnotes)[m]| == 1 {
      var f :| f in footnotes && f.number == m && ListOf(footnotes)[m] == Expand(f.id, []);
      ExpandNothing(f.id);
    }
  }

  /** A marker's new numbers name its targets in the new list. */
  lemma NumbersName(ids: seq<string>, targets: seq<string>)
    requires forall id :: id in targets ==> id in ids
    ensures Names(NumbersFor(ids, targets), targets, ListOf(Numbered(ids, 1))) && AllNumerals(NumbersFor(ids, targets))
  {
    hide TargetsOf, Expand, Numbered;
    forall i | 0 <= i < |targets| {
      ListOfNumbered(ids, PositionOf(ids, targets[i]));
    }
  }

  /** All the pieces of a normalisation that changes something. */
  lemma NumbersRename(footnotes: seq<Footnote>, contexts: seq<Context>)
    requires footnotes != [] && forall f :: f in footnotes ==> IsBlockId(f.id)
    ensures var targets := TargetsOf(footnotes, contexts);
            var ids := IdsOf(footnotes, targets);
            && (forall m :: m in targets ==> exists f :: f in footnotes && f.number == m)
            && ids != [] && (forall id :: id in ids ==> IsBlockId(id) && Expansion(id, contexts) == [])
            && WellNumbered(NumbersOf(footnotes, targets))
            && Renames(NumbersOf(footnotes, targets), targets, ListOf(Numbered(ids, 1)))
  {
    hide TargetsOf, Expand, Expansion, IdsOf, IsBlockId, Numbered, NumbersFor, Names, AllNumerals, ListOf;
    var targets := TargetsOf(footnotes, contexts);
    TargetsAreOf(footnotes, contexts);
    var ids := IdsOf(footnotes, targets);
    forall m | m in targets
      ensures targets[m] != [] && Names(NumbersFor(ids, targets[m]), targets[m], ListOf(Numbered(ids, 1)))
      ensures AllNumerals(NumbersFor(ids, targets[m]))
      ensures forall id :: id in targets[m] ==> IsBlockId(id) && Expansion(id, contexts) == []
    {
      var f :| f in footnotes && f.number == m && targets[m] == Expand(f.id, contexts);
      TargetsAreFinal(f.id, contexts);
      NumbersName(ids, targets[m]);
    }
    assert footnotes[0].number in targets;
    assert targets[footnotes[0].number][0] in ids;
  }

  lemma TargetsAreFinal(id: string, contexts: seq<Context>)
    requires IsBlockId(id)
    ensures forall target :: target in Expand(id, contexts) ==> IsBlockId(target) && Expansion(target, contexts) == []
  {
    hide Expand, Expansion, IsBlockId;
    forall target | target in Expand(id, contexts) ensures IsBlockId(target) && Expansion(target, contexts) == [] {
      ExpandedIsFinal(id, contexts, target);
    }
  }

  lemma ParsedIdsAreBlocks(answer: string)
    ensures forall f :: f in Split(answer).1 ==> IsBlockId(f.id)
    ensures Split(answer).1 != [] ==> RStrip(Split(answer).0) == Split(answer).0
  {
    hide IsBlockId, Parse;
  }

  lemma ReplacedIsStripped(body: string, numbers: Numbers)
    requires WellNumbered(numbers) && RStrip(body) == body
    ensures RStrip(Replace(body, numbers)) == Replace(body, numbers)
  {
    hide WellNumbered, Replace;
    if body == "" {
      NothingReplaced(numbers);
    } else {
      ReplacedEnd(body, numbers);
    }
  }

  /** What the normalised answer splits into. */
  lemma SplitNormalized(answer: string, contexts: seq<Context>)
    requires Changes(Split(answer).1, contexts)
    ensures var (body, footnotes) := Split(answer);
            var targets := TargetsOf(footnotes, contexts);
            && (forall m :: m in targets ==> exists f :: f in footnotes && f.number == m)
            && Split(Normalized(answer, contexts)) ==
                 (Replace(body, NumbersOf(footnotes, targets)), Numbered(IdsOf(footnotes, targets), 1))
  {
    hide Split, TargetsOf, IdsOf, Render, Replace, Numbered, Expansion, RStrip, NumbersOf, IsBlockId, Renames, WellNumbered;
    var (body, footnotes) := Split(answer);
    var targets := TargetsOf(footnotes, contexts);
    TargetsAreOf(footnotes, contexts);
    var ids := IdsOf(footnotes, targets);
    var numbers := NumbersOf(footnotes, targets);
    ParsedIdsAreBlocks(answer);
    NumbersRename(footnotes, contexts);
    SplitBodyIsPlain(answer);
    ReplacedIsPlain(body, numbers, true);
    ReplacedIsStripped(body, numbers);
    SplitRender(Replace(body, numbers), ids);
  }

  /** One of the numbers 1 to n. */
  predicate IsNumberUpTo(number: string, n: nat) { exists k: nat :: 1 <= k <= n && number == Text.ToDecimal(k) }

  /** No marker without a footnote is a number up to that of the ids the footnotes expand to. */
  predicate NoStrayMarker(body: string, footnotes: seq<Footnote>, contexts: seq<Context>) {
    var targets := TargetsOf(footnotes, contexts);
    forall p :: p in Pieces(body) && p.Cite? && p.number !in targets ==> !IsNumberUpTo(p.number, |IdsOf(footnotes, targets)|)
  }

  lemma NumberedList(ids: seq<string>, number: string)
    ensures number in ListOf(Numbered(ids, 1)) <==> IsNumberUpTo(number, |ids|)
  {
    hide TargetsOf, Text.ToDecimal, Numbered;
    var footnotes := Numbered(ids, 1);
    NumberedAt(ids, 1);
    TargetsAreOf(footnotes, []);
    if f :| f in footnotes && f.number == number {
      var i :| 0 <= i < |footnotes| && footnotes[i] == f;
      assert number == Text.ToDecimal(i + 1);
    }
    if k: nat :| 1 <= k <= |ids| && number == Text.ToDecimal(k) {
      assert footnotes[k - 1].number == number && footnotes[k - 1] in footnotes;
    }
  }

  /** Renumbering keeps meaning. Every marker with a footnote is replaced by markers that
      the new list gives exactly that footnote's targets. The whole answer reads the same,
      if and only if it had no marker without a footnote that is a number of the new list. */
  lemma NormalizedKeepsMeaning(answer: string, contexts: seq<Context>)
    requires Changes(Split(answer).1, contexts)
    ensures var (body, footnotes) := Split(answer);
            var (newBody, newFootnotes) := Split(Normalized(answer, contexts));
            var targets := TargetsOf(footnotes, contexts);
            && (exists numbers :: Renames(numbers, targets, ListOf(newFootnotes)) && Pieces(newBody) == Renumbered(Pieces(body), numbers))
            && (Read(Pieces(newBody), ListOf(newFootnotes)) == Read(Pieces(body), targets)
                <==> NoStrayMarker(body, footnotes, contexts))
  {
    hide Split, TargetsOf, IdsOf, Numbered, NumbersOf, Expansion, Pieces, Read, Renumbered, Renames, NoStray, Replace, WellNumbered, IsBlockId;
    var (body, footnotes) := Split(answer);
    var targets := TargetsOf(footnotes, contexts);
    SplitNormalized(answer, contexts);
    ParsedIdsAreBlocks(answer);
    NumbersRename(footnotes, contexts);
    var numbers := NumbersOf(footnotes, targets);
    var list := ListOf(Numbered(IdsOf(footnotes, targets), 1));
    PiecesOfReplaced(body, numbers);
    ListIsSingle(Numbered(IdsOf(footnotes, targets), 1));
    RenumberedMeaning(Pieces(body), numbers, targets, list);
    StrayIsNumbered(body, footnotes, contexts);
  }

  lemma StrayIsNumbered(body: string, footnotes: seq<Footnote>, contexts: seq<Context>)
    ensures var targets := TargetsOf(footnotes, contexts);
            NoStrayMarker(body, footnotes, contexts) <==>
            NoStray(Pieces(body), targets, ListOf(Numbered(IdsOf(footnotes, targets), 1)))
  {
    hide TargetsOf, IdsOf, Numbered, Pieces, IsNumberUpTo, ListOf;
    forall m { NumberedList(IdsOf(footnotes, TargetsOf(footnotes, contexts)), m); }
  }

  predicate Lists(footnotes: seq<Footnote>, id: string) { exists f :: f in footnotes && f.id == id }

  predicate IsTarget(footnotes: seq<Footnote>, targets: Targets, id: string) {
    exists f :: f in footnotes && f.number in targets && id in targets[f.number]
  }

  /** The new list is numbered 1 to n, without a duplicate, and its ids are the targets. */
  lemma NewListIsComplete(answer: string, contexts: seq<Context>)
    requires Changes(Split(answer).1, contexts)
    ensures var footnotes := Split(answer).1;
            var list := Split(Normalized(answer, contexts)).1;
            && (forall i :: 0 <= i < |list| ==> list[i].number == Text.ToDecimal(i + 1))
            && (forall i, j :: 0 <= i < j < |list| ==> list[i].id != list[j].id)
            && (forall id :: Lists(list, id) <==> IsTarget(footnotes, TargetsOf(footnotes, contexts), id))
  {
    hide Split, TargetsOf, IdsOf, Numbered, NumbersOf, Expansion, Replace;
    var footnotes := Split(answer).1;
    var targets := TargetsOf(footnotes, contexts);
    SplitNormalized(answer, contexts);
    var ids := IdsOf(footnotes, targets);
    var list := Numbered(ids, 1);
    NumberedAt(ids, 1);
    forall id ensures Lists(list, id) <==> id in ids {
      if id in ids {
        var i :| 0 <= i < |ids| && ids[i] == id;
        assert list[i] in list;
      }
    }
  }

  /** Normalising twice is normalising once. */
  lemma NormalizedIsFixed(answer: string, contexts: seq<Context>)
    ensures Normalized(Normalized(answer, contexts), contexts) == Normalized(answer, contexts)
  {
    hide Split, TargetsOf, IdsOf, Numbered, NumbersOf, Expansion, Replace, Render, IsBlockId, WellNumbered, Renames;
    var footnotes := Split(answer).1;
    if Changes(footnotes, contexts) {
      SplitNormalized(answer, contexts);
      ParsedIdsAreBlocks(answer);
      NumbersRename(footnotes, contexts);
      var ids := IdsOf(footnotes, TargetsOf(footnotes, contexts));
      NumberedAt(ids, 1);
      assert forall f :: f in Numbered(ids, 1) ==> f.id in ids;
    }
  }

  // ---- Metadata ----

  datatype Metadata = Metadata(contextId: string, originUrls: seq<string>, chunkIndex: Option<nat>)

  predicate HasUrl(chunk: Chunk) { chunk.originUrl.Some? && chunk.originUrl.value != "" }

  /** The urls of the selected chunks. Where the code reads the chunks a second time, for
      a context that selects none, all of them were read already. */
  function Urls(context: Context, chunks: seq<Chunk>): (r: seq<string>)
    ensures forall url :: url in r <==> exists c :: c in chunks && HasUrl(c) && c.originUrl.value == url && IsSelected(context, c)
  {
    if chunks == [] then []
    else
      var last := chunks[|chunks| - 1];
      assert chunks == chunks[..|chunks| - 1] + [last];
      Urls(context, chunks[..|chunks| - 1]) +
      if HasUrl(last) && IsSelected(context, last) then [last.originUrl.value] else []
  }

  /** The body of the loop in `build_answer_citations`. */
  function MetadataOf(id: string, contexts: seq<Context>): Option<Metadata> {
    match ParseCitation(id)
    case None => None
    case Some(citation) =>
      match Find(contexts, citation.contextId)
      case None => None
      case Some(context) =>
        var urls :=
          match citation.chunk
          case Some(i) => if i < |context.chunks| && HasUrl(context.chunks[i]) then [context.chunks[i].originUrl.value] else []
          case None => Urls(context, context.chunks);
        Some(Metadata(context.id, AddNew([], urls), citation.chunk))
  }

  /** `build_answer_citations` */
  function AnswerCitations(answer: string, contexts: seq<Context>): (r: map<string, Metadata>)
    ensures forall id :: id in r <==> Lists(Split(answer).1, id) && MetadataOf(id, contexts).Some?
    ensures forall id :: id in r ==> r[id] == MetadataOf(id, contexts).value
  {
    map f | f in Split(answer).1 && MetadataOf(f.id, contexts).Some? :: f.id := MetadataOf(f.id, contexts).value
  }

  /** After normalising, a footnote that cited a whole context leads to the metadata of
      each of its selected chunks, by index. */
  lemma ExpandedCitationsHaveMetadata(answer: string, contexts: seq<Context>, f: Footnote, index: nat)
    requires f in Split(answer).1 && Expansion(f.id, contexts) != []
    requires TargetsOf(Split(answer).1, contexts)[f.number] == Expand(f.id, contexts)
    ensures var context := Find(contexts, f.id).value;
            Find(contexts, f.id).Some? &&
            (index in Expansion(f.id, contexts) <==> index < |context.chunks| && IsSelected(context, context.chunks[index]))
    ensures index in Expansion(f.id, contexts) ==>
              var context := Find(contexts, f.id).value;
              var citations := AnswerCitations(Normalized(answer, contexts), contexts);
              ChunkId(f.id, index) in citations &&
              citations[ChunkId(f.id, index)] ==
                Metadata(context.id, if HasUrl(context.chunks[index]) then [context.chunks[index].originUrl.value] else [], Some(index))
  {
    ExpansionFinds(f.id, contexts, index);
    if index in Expansion(f.id, contexts) {
      hide Split, TargetsOf, Normalized, AnswerCitations, MetadataOf, Expansion, ChunkId, IsSelected, HasUrl;
      var footnotes := Split(answer).1;
      ParsedIdsAreBlocks(answer);
      BlockHasDash(f.id);
      assert ChunkId(f.id, index) in Expand(f.id, contexts) by { ExpansionIsTarget(f.id, contexts, index); }
      assert IsTarget(footnotes, TargetsOf(footnotes, contexts), ChunkId(f.id, index));
      NewListIsComplete(answer, contexts);
      ChunkMetadata(f.id, contexts, index);
    }
  }

  predicate IsOf(id: string, contextId: string) {
    ParseCitation(id).Some? && ParseCitation(id).value.contextId == contextId
  }

  /** Some marker refers to just this id. */
  predicate CitesItself(footnotes: seq<Footnote>, contexts: seq<Context>, id: string) {
    exists f :: f in footnotes && f.id == id && TargetsOf(footnotes, contexts)[f.number] == [id]
  }

  /** Of a context that was cited as a whole, exactly the selected chunks and those that had
      a footnote of their own have metadata. */
  lemma ExpandedCitationsAreExact(answer: string, contexts: seq<Context>, f: Footnote, id: string)
    requires f in Split(answer).1 && Expansion(f.id, contexts) != []
    requires TargetsOf(Split(answer).1, contexts)[f.number] == Expand(f.id, contexts)
    ensures IsOf(id, f.id) && id in AnswerCitations(Normalized(answer, contexts), contexts) <==>
            || (exists index :: index in Expansion(f.id, contexts) && id == ChunkId(f.id, index))
            || (IsOf(id, f.id) && CitesItself(Split(answer).1, contexts, id))
  {
    hide Split, TargetsOf, Normalized, AnswerCitations, Expansion, Expand, ChunkId, ParseCitation, IsBlockId;
    var footnotes := Split(answer).1;
    ParsedIdsAreBlocks(answer);
    ExpansionFinds(f.id, contexts, 0);
    NewListIsComplete(answer, contexts);
    assert IsOf(id, f.id) ==> MetadataOf(id, contexts).Some?;
    if index :| index in Expansion(f.id, contexts) && id == ChunkId(f.id, index) {
      BlockHasDash(f.id);
      ChunkIdIsParsed(f.id, index);
      ExpansionIsTarget(f.id, contexts, index);
      assert IsTarget(footnotes, TargetsOf(footnotes, contexts), id);
    }
    if IsTarget(footnotes, TargetsOf(footnotes, contexts), id) {
      TargetComesFrom(footnotes, contexts, id);
    }
    if CitesItself(footnotes, contexts, id) {
      assert IsTarget(footnotes, TargetsOf(footnotes, contexts), id);
    }
  }

  /** A target is the chunk of a cited context or was cited itself. */
  lemma TargetComesFrom(footnotes: seq<Footnote>, contexts: seq<Context>, id: string)
    requires forall f :: f in footnotes ==> IsBlockId(f.id)
    requires IsTarget(footnotes, TargetsOf(footnotes, contexts), id)
    ensures CitesItself(footnotes, contexts, id) ||
            exists g, index :: g in footnotes && index in Expansion(g.id, contexts) && id == ChunkId(g.id, index) && IsOf(id, g.id)
  {
    hide TargetsOf, Expansion, ChunkId, ParseCitation, IsBlockId;
    TargetsAreOf(footnotes, contexts);
    var targets := TargetsOf(footnotes, contexts);
    var m :| m in footnotes && m.number in targets && id in targets[m.number];
    var g :| g in footnotes && g.number == m.number && targets[m.number] == Expand(g.id, contexts);
    if Expansion(g.id, contexts) != [] {
      var i :| 0 <= i < |Expansion(g.id, contexts)| && id == ChunkId(g.id, Expansion(g.id, contexts)[i]);
      BlockHasDash(g.id);
      ChunkIdIsParsed(g.id, Expansion(g.id, contexts)[i]);
    }
  }

  lemma ExpansionFinds(id: string, contexts: seq<Context>, index: nat)
    requires Expansion(id, contexts) != []
    ensures Find(contexts, id).Some? && ParseCitation(id) == Some(Citation(id, None))
    ensures var context := Find(contexts, id).value;
            index in Expansion(id, contexts) <==> index < |context.chunks| && IsSelected(context, context.chunks[index])
  {
  }

  lemma ExpansionIsTarget(id: string, contexts: seq<Context>, index: nat)
    requires index in Expansion(id, contexts)
    ensures ChunkId(id, index) in Expand(id, contexts)
  {
    hide Expansion;
    var i :| 0 <= i < |Expansion(id, contexts)| && Expansion(id, contexts)[i] == index;
    assert Expand(id, contexts)[i] == ChunkId(id, index);
  }

  lemma ChunkMetadata(id: string, contexts: seq<Context>, index: nat)
    requires Dashes(id) > 0 && Find(contexts, id).Some? && index < |Find(contexts, id).value.chunks|
    ensures var context := Find(contexts, id).value;
            MetadataOf(ChunkId(id, index), contexts) ==
              Some(Metadata(context.id, if HasUrl(context.chunks[index]) then [context.chunks[index].originUrl.value] else [], Some(index)))
  {
    hide ParseCitation, ChunkId, Find;
    ChunkIdIsParsed(id, index);
    var chunk := Find(contexts, id).value.chunks[index];
    AddNewShort([]);
    if chunk.originUrl.Some? {
      AddNewShort([chunk.originUrl.value]);
    }
  }

  lemma AddNewShort(ids: seq<string>)
    requires |ids| <= 1
    ensures AddNew([], ids) == ids
  {
  }
}
