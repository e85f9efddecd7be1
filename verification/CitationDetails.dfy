/** Citation ids, contexts and targets, case by case: what an id names, which context and which
    definition count, in what order ids and urls are listed, and what metadata say. */
module CitationDetails {
  import opened Wrappers
  import opened Footnotes
  import opened FootnoteText
  import opened Citations
  import Text

  // ---- Citation ids ----

  lemma {:induction false} DashesAreCounted(s: string)
    ensures Dashes(s) == multiset(s)['-']
  {
    if s != "" {
      DashesAreCounted(s[..|s| - 1]);
      assert s == s[..|s| - 1] + [s[|s| - 1]];
    }
  }

  /** An id with at most one dash names a whole context. */
  lemma ShortIdIsWhole(id: string)
    requires multiset(id)['-'] <= 1
    ensures ParseCitation(id) == Some(Citation(id, None))
  {
    DashesAreCounted(id);
  }

  /** A longer id names a context up to its last dash and a chunk after it, if that is a
      number; otherwise it names nothing. */
  lemma LongIdIsSplit(context: string, chunk: string)
    requires '-' in context && '-' !in chunk
    ensures ParseCitation(context + "-" + chunk) ==
            if Text.IsNumeral(chunk) then Some(Citation(context, Some(Text.ParseDecimal(chunk))))
            else if chunk != "" && chunk[0] == '+' && Text.IsNumeral(chunk[1..]) then Some(Citation(context, Some(Text.ParseDecimal(chunk[1..]))))
            else None
  {
    hide LastDash;
    var id := context + "-" + chunk;
    DashesAreCounted(id);
    assert multiset(id) == multiset(context) + multiset("-") + multiset(chunk);
    assert multiset(context)['-'] >= 1 && multiset("-")['-'] == 1;
    OneLastDash(id, |context|);
    assert id[|context| + 1..] == chunk && id[..|context|] == context;
    assert Text.IsNumeral(chunk) ==> chunk[0] != '+' by { assert !Text.IsDigit('+'); }
  }

  lemma OneLastDash(s: string, i: nat)
    requires i < |s| && s[i] == '-' && '-' !in s[i + 1..] && Dashes(s) > 0
    ensures LastDash(s) == i
  {
    NoneAfter(s, i);
    NoneAfter(s, LastDash(s));
  }

  lemma NoneAfter(s: string, i: nat)
    requires i < |s| && '-' !in s[i + 1..]
    ensures forall k :: i < k < |s| ==> s[k] != '-'
  {
    forall k | i < k < |s| ensures s[k] != '-' {
      assert s[k] == s[i + 1..][k - i - 1];
    }
  }

  // ---- Contexts ----

  /** Of several contexts with one citation id the last counts. */
  lemma {:induction false} LastContextCounts(contexts: seq<Context>, id: string)
    ensures Find(contexts, id).None? <==> forall c :: c in contexts ==> c.citationsId != Some(id)
    ensures Find(contexts, id).Some? ==>
              exists i :: 0 <= i < |contexts| && contexts[i] == Find(contexts, id).value && contexts[i].citationsId == Some(id)
                          && forall j :: i < j < |contexts| ==> contexts[j].citationsId != Some(id)
  {
    if contexts != [] {
      var n := |contexts| - 1;
      LastContextCounts(contexts[..n], id);
      assert contexts == contexts[..n] + [contexts[n]];
      if contexts[n].citationsId != Some(id) && Find(contexts, id).Some? {
        var i :| 0 <= i < n && contexts[..n][i] == Find(contexts, id).value && contexts[..n][i].citationsId == Some(id)
                 && forall j :: i < j < n ==> contexts[..n][j].citationsId != Some(id);
        assert contexts[i] == Find(contexts, id).value;
      }
    }
  }

  predicate Ascending(indices: seq<nat>) { forall i, j :: 0 <= i < j < |indices| ==> indices[i] < indices[j] }

  lemma AscendingFrom(first: nat, rest: seq<nat>)
    requires Ascending(rest) && forall i :: i in rest ==> first < i
    ensures Ascending([first] + rest)
  {
    forall i, j | 0 <= i < j < |[first] + rest| ensures ([first] + rest)[i] < ([first] + rest)[j] {
      assert ([first] + rest)[j] == rest[j - 1] && rest[j - 1] in rest;
    }
  }

  lemma {:induction false} SelectedAscend(context: Context, from: nat)
    requires from <= |context.chunks|
    ensures Ascending(SelectedFrom(context, from))
    decreases |context.chunks| - from
  {
    hide IsSelected, Ascending;
    if from < |context.chunks| {
      SelectedAscend(context, from + 1);
      AscendingFrom(from, SelectedFrom(context, from + 1));
      assert [] + SelectedFrom(context, from + 1) == SelectedFrom(context, from + 1);
    } else {
      NothingAscends();
    }
  }

  lemma NothingAscends()
    ensures Ascending([])
  {
  }

  predicate HasSelected(context: Context) {
    exists i :: 0 <= i < |context.chunks| && (context.citations.None? || context.chunks[i].chunkId in context.citations.value)
  }

  /** An id is expanded exactly if it names a whole context of which some chunk is selected:
      into the chunks that are, by index. Every other id stays. */
  lemma ExpansionMeans(id: string, contexts: seq<Context>)
    ensures var found := Find(contexts, id);
            if ParseCitation(id) == Some(Citation(id, None)) && found.Some? && HasSelected(found.value) then
              && |Expand(id, contexts)| == |Expansion(id, contexts)| > 0
              && (forall i :: 0 <= i < |Expansion(id, contexts)| ==>
                    Expand(id, contexts)[i] == id + "-" + Text.ToDecimal(Expansion(id, contexts)[i]))
              && Ascending(Expansion(id, contexts))
              && (forall i :: i in Expansion(id, contexts) <==>
                    0 <= i < |found.value.chunks| &&
                    (found.value.citations.None? || found.value.chunks[i].chunkId in found.value.citations.value))
            else Expand(id, contexts) == [id]
  {
    hide ParseCitation, Find, SelectedFrom, HasSelected;
    WholeNamesItself(id);
    var found := Find(contexts, id);
    if found.Some? {
      SelectedAscend(found.value, 0);
      SomeSelected(found.value);
    }
  }

  lemma SomeSelected(context: Context)
    ensures HasSelected(context) <==> SelectedFrom(context, 0) != []
  {
    hide SelectedFrom;
    var selected := SelectedFrom(context, 0);
    if HasSelected(context) {
      var i :| 0 <= i < |context.chunks| && (context.citations.None? || context.chunks[i].chunkId in context.citations.value);
      assert i in selected;
    }
    if selected != [] {
      var i := selected[0];
      assert i in selected && IsSelected(context, context.chunks[i]);
    }
  }

  lemma WholeNamesItself(id: string)
    ensures ParseCitation(id).Some? && ParseCitation(id).value.chunk.None? ==> ParseCitation(id) == Some(Citation(id, None))
  {
  }

  /** Of several definitions of one marker the last counts. */
  lemma {:induction false} LastDefinitionCounts(footnotes: seq<Footnote>, contexts: seq<Context>, i: nat)
    requires i < |footnotes| && forall j :: i < j < |footnotes| ==> footnotes[j].number != footnotes[i].number
    ensures TargetsOf(footnotes, contexts)[footnotes[i].number] == Expand(footnotes[i].id, contexts)
  {
    hide Expand;
    var n := |footnotes| - 1;
    if i < n {
      LastDefinitionCounts(footnotes[..n], contexts, i);
    }
  }

  // ---- Order ----

  /** The first is mentioned before the second is. */
  predicate ComesFirst(mentioned: seq<string>, first: string, second: string) {
    exists a :: 0 <= a < |mentioned| && mentioned[a] == first && second !in mentioned[..a]
  }

  /** The ids stand in the order in which they are first mentioned. */
  predicate InOrderOf(ids: seq<string>, mentioned: seq<string>) {
    forall i, j :: 0 <= i < j < |ids| ==> ComesFirst(mentioned, ids[i], ids[j])
  }

  lemma {:induction false} AddNewConcat(ids: seq<string>, a: seq<string>, b: seq<string>)
    ensures AddNew(ids, a + b) == AddNew(AddNew(ids, a), b)
    decreases |a|
  {
    if a == [] {
      assert a + b == b;
    } else {
      assert (a + b)[1..] == a[1..] + b;
      AddNewConcat(if a[0] in ids then ids else ids + [a[0]], a[1..], b);
    }
  }

  lemma AddOne(ids: seq<string>, id: string)
    ensures AddNew(ids, [id]) == if id in ids then ids else ids + [id]
  {
    assert [id][1..] == [];
  }

  lemma ComesFirstStill(mentioned: seq<string>, last: string, first: string, second: string)
    requires ComesFirst(mentioned, first, second) || (first in mentioned && second !in mentioned)
    ensures ComesFirst(mentioned + [last], first, second)
  {
    var a :| 0 <= a < |mentioned| && mentioned[a] == first && second !in mentioned[..a];
    assert (mentioned + [last])[..a] == mentioned[..a];
  }

  lemma NothingAdded()
    ensures AddNew([], []) == []
  {
  }

  /** `dict.fromkeys` keeps the order of first mention. */
  lemma {:induction false} AddNewKeepsOrder(mentioned: seq<string>)
    ensures InOrderOf(AddNew([], mentioned), mentioned)
    decreases |mentioned|
  {
    hide AddNew, ComesFirst;
    NothingAdded();
    if mentioned != [] {
      var n := |mentioned| - 1;
      var before, last := mentioned[..n], mentioned[n];
      AddNewKeepsOrder(before);
      assert mentioned == before + [last];
      AddNewConcat([], before, [last]);
      AddOne(AddNew([], before), last);
      var older, ids := AddNew([], before), AddNew([], mentioned);
      forall i, j | 0 <= i < j < |ids| ensures ComesFirst(mentioned, ids[i], ids[j]) {
        assert older <= ids && ids[i] == older[i] && ids[i] in older;
        ComesFirstStill(before, last, ids[i], ids[j]);
      }
    }
  }

  /** The ids the footnotes expand to, one footnote after the other. */
  function Mentioned(footnotes: seq<Footnote>, targets: Targets): seq<string>
    requires forall f :: f in footnotes ==> f.number in targets
  {
    if footnotes == [] then []
    else Mentioned(footnotes[..|footnotes| - 1], targets) + targets[footnotes[|footnotes| - 1].number]
  }

  lemma {:induction false} IdsAreMentioned(footnotes: seq<Footnote>, targets: Targets)
    requires forall f :: f in footnotes ==> f.number in targets
    ensures IdsOf(footnotes, targets) == AddNew([], Mentioned(footnotes, targets))
  {
    hide AddNew;
    if footnotes == [] {
      NothingAdded();
    } else {
      var n := |footnotes| - 1;
      IdsAreMentioned(footnotes[..n], targets);
      AddNewConcat([], Mentioned(footnotes[..n], targets), targets[footnotes[n].number]);
    }
  }

  /** The new list numbers the ids in the order in which the footnotes, expanded, mention them. */
  lemma NewListIsInOrder(answer: string, contexts: seq<Context>)
    requires Changes(Split(answer).1, contexts)
    ensures var footnotes := Split(answer).1;
            var list := Split(Normalized(answer, contexts)).1;
            InOrderOf(seq(|list|, i requires 0 <= i < |list| => list[i].id), Mentioned(footnotes, TargetsOf(footnotes, contexts)))
  {
    hide Split, TargetsOf, IdsOf, Numbered, NumbersOf, Expansion, Replace, Mentioned, AddNew, InOrderOf;
    var footnotes := Split(answer).1;
    var targets := TargetsOf(footnotes, contexts);
    SplitNormalized(answer, contexts);
    IdsAreMentioned(footnotes, targets);
    AddNewKeepsOrder(Mentioned(footnotes, targets));
    var ids := IdsOf(footnotes, targets);
    NumberedAt(ids, 1);
    assert seq(|ids|, i requires 0 <= i < |ids| => Numbered(ids, 1)[i].id) == ids;
  }

  /** If no footnote is expanded, the answer stays as it is. */
  lemma NothingToExpand(answer: string, contexts: seq<Context>)
    requires forall f :: f in Split(answer).1 ==> Expand(f.id, contexts) == [f.id]
    ensures Normalized(answer, contexts) == answer
  {
    hide Split;
    forall f | f in Split(answer).1 ensures Expansion(f.id, contexts) == [] {
      ChunkIdsDiffer(f.id, contexts);
    }
  }

  lemma ChunkIdsDiffer(id: string, contexts: seq<Context>)
    ensures Expand(id, contexts) == [id] ==> Expansion(id, contexts) == []
  {
    hide Expansion;
    if Expansion(id, contexts) != [] {
      assert |ChunkId(id, Expansion(id, contexts)[0])| > |id|;
    }
  }

  // ---- Metadata ----

  /** A chunk that is selected and has this url. */
  predicate Offers(context: Context, i: nat, url: string) {
    i < |context.chunks| && url != "" && context.chunks[i].originUrl == Some(url)
    && (context.citations.None? || context.chunks[i].chunkId in context.citations.value)
  }

  /** Among the first chunks, one with the first url comes before any with the second. */
  predicate OffersFirst(context: Context, n: nat, first: string, second: string) {
    exists a :: 0 <= a < n && Offers(context, a, first) && forall b :: 0 <= b <= a ==> !Offers(context, b, second)
  }

  /** The urls are those of the selected chunks, each once, in the chunks' order. */
  ghost predicate ListsUrls(urls: seq<string>, context: Context) {
    && Text.Distinct(urls)
    && (forall url :: url in urls <==> exists i :: 0 <= i < |context.chunks| && Offers(context, i, url))
    && forall i, j :: 0 <= i < j < |urls| ==> OffersFirst(context, |context.chunks|, urls[i], urls[j])
  }

  /** A citation of a whole context has that context's id and its selected chunks' urls. */
  lemma WholeCitationMetadata(answer: string, contexts: seq<Context>, id: string)
    requires Lists(Split(answer).1, id) && ParseCitation(id) == Some(Citation(id, None)) && Find(contexts, id).Some?
    ensures var citations := AnswerCitations(answer, contexts);
            && id in citations
            && citations[id].contextId == Find(contexts, id).value.id
            && citations[id].chunkIndex == None
            && ListsUrls(citations[id].originUrls, Find(contexts, id).value)
  {
    hide Split, ParseCitation, Find, Urls, ListsUrls, AddNew;
    UrlsAreListed(Find(contexts, id).value);
  }

  /** A citation of a chunk has its context's id, its index, and its url if there is one. */
  lemma ChunkCitationMetadata(answer: string, contexts: seq<Context>, id: string, contextId: string, index: nat)
    requires Lists(Split(answer).1, id) && ParseCitation(id) == Some(Citation(contextId, Some(index))) && Find(contexts, contextId).Some?
    ensures var citations := AnswerCitations(answer, contexts);
            var context := Find(contexts, contextId).value;
            && id in citations
            && citations[id].contextId == context.id && citations[id].chunkIndex == Some(index)
            && citations[id].originUrls ==
               if index < |context.chunks| && context.chunks[index].originUrl.Some? && context.chunks[index].originUrl.value != ""
               then [context.chunks[index].originUrl.value] else []
  {
    hide Split, ParseCitation, Find;
    var context := Find(contexts, contextId).value;
    NothingAdded();
    if index < |context.chunks| && HasUrl(context.chunks[index]) {
      AddOne([], context.chunks[index].originUrl.value);
    }
  }

  /** Every other id has none. */
  lemma OnlyKnownCitations(answer: string, contexts: seq<Context>, id: string)
    ensures id in AnswerCitations(answer, contexts) <==>
              && Lists(Split(answer).1, id) && ParseCitation(id).Some?
              && Find(contexts, ParseCitation(id).value.contextId).Some?
  {
    hide Split, ParseCitation, Find, Urls, AddNew;
  }

  lemma OffersAreUrls(context: Context, n: nat, url: string)
    requires n <= |context.chunks|
    ensures url in Urls(context, context.chunks[..n]) <==> exists i :: 0 <= i < n && Offers(context, i, url)
  {
    hide Urls;
    var chunks := context.chunks[..n];
    if url in Urls(context, chunks) {
      var c :| c in chunks && HasUrl(c) && c.originUrl.value == url && IsSelected(context, c);
      var i :| 0 <= i < n && chunks[i] == c;
      assert Offers(context, i, url);
    }
    if i :| 0 <= i < n && Offers(context, i, url) {
      assert chunks[i] in chunks && HasUrl(chunks[i]) && IsSelected(context, chunks[i]);
    }
  }

  lemma {:induction false} UrlsStandInOrder(context: Context, n: nat, first: string, second: string)
    requires n <= |context.chunks| && first != second && ComesFirst(Urls(context, context.chunks[..n]), first, second)
    ensures OffersFirst(context, n, first, second)
  {
    hide Offers;
    if n > 0 {
      var m := n - 1;
      assert context.chunks[..n][..m] == context.chunks[..m];
      var before, urls := Urls(context, context.chunks[..m]), Urls(context, context.chunks[..n]);
      assert before <= urls && |urls| <= |before| + 1;
      var a :| 0 <= a < |urls| && urls[a] == first && second !in urls[..a];
      if a < |before| {
        assert urls[..a] == before[..a];
        UrlsStandInOrder(context, m, first, second);
      } else {
        assert urls[..a] == before;
        forall b | 0 <= b <= m ensures !Offers(context, b, second) {
          OffersAreUrls(context, m, second);
          OnlyUrl(context, m, first, second);
        }
        LastOffers(context, m);
      }
    }
  }

  lemma OnlyUrl(context: Context, i: nat, first: string, second: string)
    requires first != second && i < |context.chunks| && context.chunks[i].originUrl == Some(first)
    ensures !Offers(context, i, second)
  {
  }

  lemma LastOffers(context: Context, m: nat)
    requires m < |context.chunks| && HasUrl(context.chunks[m]) && IsSelected(context, context.chunks[m])
    ensures Offers(context, m, context.chunks[m].originUrl.value)
  {
  }

  lemma UrlsAreListed(context: Context)
    ensures ListsUrls(AddNew([], Urls(context, context.chunks)), context)
  {
    hide Urls, Offers, OffersFirst, ComesFirst, AddNew;
    var n := |context.chunks|;
    assert context.chunks[..n] == context.chunks;
    var mentioned := Urls(context, context.chunks);
    var urls := AddNew([], mentioned);
    AddNewKeepsOrder(mentioned);
    forall url ensures url in urls <==> exists i :: 0 <= i < |context.chunks| && Offers(context, i, url) {
      OffersAreUrls(context, n, url);
    }
    assert Text.Distinct(urls);
    forall i, j | 0 <= i < j < |urls| ensures OffersFirst(context, n, urls[i], urls[j]) {
      UrlsStandInOrder(context, n, urls[i], urls[j]);
    }
  }
}
