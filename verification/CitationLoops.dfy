/** The two loops of the citation code, on the dictionaries and lists they fill. */
module CitationLoops {
  import opened Wrappers
  import opened Footnotes
  import opened FootnoteText
  import opened Citations

  /** `{context.citations_id: context for context in contexts ...}` */
  method ContextsById(contexts: seq<Context>) returns (byId: map<string, Context>)
    ensures forall id :: id in byId <==> Find(contexts, id).Some?
    ensures forall id :: id in byId ==> byId[id] == Find(contexts, id).value
  {
    byId := map[];
    for i := 0 to |contexts|
      invariant forall id :: id in byId <==> Find(contexts[..i], id).Some?
      invariant forall id :: id in byId ==> byId[id] == Find(contexts[..i], id).value
    {
      assert contexts[..i + 1][..i] == contexts[..i];
      if contexts[i].citationsId.Some? {
        byId := byId[contexts[i].citationsId.value := contexts[i]];
      }
    }
    assert contexts[..|contexts|] == contexts;
  }

  /** The list of selected chunk indices. */
  method SelectIndices(context: Context) returns (indices: seq<nat>)
    ensures indices == SelectedFrom(context, 0)
  {
    indices := [];
    var index := 0;
    while index < |context.chunks|
      invariant index <= |context.chunks|
      invariant indices + SelectedFrom(context, index) == SelectedFrom(context, 0)
    {
      if context.citations.None? || context.chunks[index].chunkId in context.citations.value {
        indices := indices + [index];
      }
      index := index + 1;
    }
  }

  /** What one footnote's id expands to, and whether it does. */
  method ExpandOne(id: string, contexts: seq<Context>, byId: map<string, Context>) returns (expanded: seq<string>, grows: bool)
    requires forall id :: id in byId <==> Find(contexts, id).Some?
    requires forall id :: id in byId ==> byId[id] == Find(contexts, id).value
    ensures expanded == Expand(id, contexts) && grows == (Expansion(id, contexts) != [])
  {
    hide Find, SelectedFrom, ChunkId;
    expanded, grows := [id], false;
    var parsed := ParseCitation(id);
    if parsed.Some? && parsed.value.chunk.None? && parsed.value.contextId in byId {
      var selected := SelectIndices(byId[parsed.value.contextId]);
      if selected != [] {
        expanded, grows := ChunkIds(id, selected), true;
      }
    }
  }

  /** The loop over the footnotes: every marker's targets, and whether any expanded. */
  method CollectTargets(footnotes: seq<Footnote>, contexts: seq<Context>) returns (targets: Targets, changed: bool)
    ensures targets == TargetsOf(footnotes, contexts) && changed == Changes(footnotes, contexts)
  {
    hide Expand, Expansion, Find;
    var byId := ContextsById(contexts);
    targets, changed := map[], false;
    for i := 0 to |footnotes|
      invariant targets == TargetsOf(footnotes[..i], contexts) && changed == Changes(footnotes[..i], contexts)
    {
      assert footnotes[..i + 1] == footnotes[..i] + [footnotes[i]] && footnotes[..i + 1][..i] == footnotes[..i];
      var expanded, grows := ExpandOne(footnotes[i].id, contexts, byId);
      targets := targets[footnotes[i].number := expanded];
      changed := changed || grows;
    }
    assert footnotes[..|footnotes|] == footnotes;
  }

  /** `dict.fromkeys` over the targets of all footnotes. */
  method CollectIds(footnotes: seq<Footnote>, targets: Targets) returns (ids: seq<string>)
    requires forall f :: f in footnotes ==> f.number in targets
    ensures ids == IdsOf(footnotes, targets)
  {
    ids := [];
    for i := 0 to |footnotes|
      invariant ids == IdsOf(footnotes[..i], targets)
    {
      assert footnotes[..i + 1][..i] == footnotes[..i];
      var more := targets[footnotes[i].number];
      ghost var before := ids;
      var j := 0;
      while j < |more|
        invariant j <= |more| && AddNew(ids, more[j..]) == AddNew(before, more)
      {
        if more[j] !in ids {
          ids := ids + [more[j]];
        }
        j := j + 1;
      }
    }
    assert footnotes[..|footnotes|] == footnotes;
  }

  /** `normalize_chunk_level_citations` */
  method NormalizeChunkLevelCitations(answer: string, contexts: seq<Context>) returns (r: string)
    ensures r == Normalized(answer, contexts)
  {
    hide Split, TargetsOf, IdsOf, NumbersFor, Replace, Render;
    var (body, footnotes) := Split(answer);
    if footnotes == [] {
      return answer;
    }
    var targets, changed := CollectTargets(footnotes, contexts);
    if !changed {
      return answer;
    }
    TargetsAreOf(footnotes, contexts);
    var ids := CollectIds(footnotes, targets);
    var numbers := map m | m in targets :: NumbersFor(ids, targets[m]);
    assert numbers == NumbersOf(footnotes, targets);
    r := Render(Replace(body, numbers), ids);
  }

  /** `build_answer_citations` */
  method BuildAnswerCitations(answer: string, contexts: seq<Context>) returns (result: map<string, Metadata>)
    ensures result == AnswerCitations(answer, contexts)
  {
    hide Split, ParseCitation, Find, Urls, AddNew;
    var byId := ContextsById(contexts);
    var footnotes := Split(answer).1;
    result := map[];
    for i := 0 to |footnotes|
      invariant forall id :: id in result <==> Lists(footnotes[..i], id) && MetadataOf(id, contexts).Some?
      invariant forall id :: id in result ==> result[id] == MetadataOf(id, contexts).value
    {
      var id := footnotes[i].id;
      assert footnotes[..i + 1] == footnotes[..i] + [footnotes[i]];
      var parsed := ParseCitation(id);
      if parsed.Some? && parsed.value.contextId in byId {
        var context := byId[parsed.value.contextId];
        var urls := CollectUrls(context, parsed.value.chunk);
        result := result[id := Metadata(context.id, AddNew([], urls), parsed.value.chunk)];
      }
    }
    assert footnotes[..|footnotes|] == footnotes;
  }

  /** The `origin_urls` of one citation. */
  method CollectUrls(context: Context, chunk: Option<nat>) returns (urls: seq<string>)
    ensures urls == match chunk
                    case Some(i) => if i < |context.chunks| && HasUrl(context.chunks[i]) then [context.chunks[i].originUrl.value] else []
                    case None => Urls(context, context.chunks)
  {
    urls := [];
    if chunk.Some? {
      if chunk.value < |context.chunks| && HasUrl(context.chunks[chunk.value]) {
        urls := urls + [context.chunks[chunk.value].originUrl.value];
      }
      return;
    }
    for i := 0 to |context.chunks|
      invariant urls == Urls(context, context.chunks[..i])
    {
      assert context.chunks[..i + 1][..i] == context.chunks[..i];
      if (context.citations.None? || context.chunks[i].chunkId in context.citations.value) && HasUrl(context.chunks[i]) {
        urls := urls + [context.chunks[i].originUrl.value];
      }
    }
    assert context.chunks[..|context.chunks|] == context.chunks;
    if urls == [] && context.citations.None? {
      for i := 0 to |context.chunks|
        invariant urls == Urls(context, context.chunks[..i])
      {
        assert context.chunks[..i + 1][..i] == context.chunks[..i];
        if HasUrl(context.chunks[i]) {
          urls := urls + [context.chunks[i].originUrl.value];
        }
      }
      assert context.chunks[..|context.chunks|] == context.chunks;
    }
  }
}
