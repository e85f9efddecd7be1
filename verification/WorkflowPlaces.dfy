/** What a canvas node says of itself is what its id says: its parent, its link, its place in
    it and its stage. And the nodes stand in the order of the stages, links and places. */
module WorkflowPlaces {
  import opened Wrappers
  import opened WorkflowTree
  import opened WorkflowLaws
  import opened WorkflowCanvas
  import Text

  // ---- What a node says ----

  predicate IsSmart(key: string) { key == "registered_agents" || key == "agents" }

  /** The stage a path below a step runs in: the step's, or "context" below a smart agent's link. */
  function StageOf(path: Path, stage: string): string {
    if exists seg :: seg in path && IsSmart(seg.key) then "context" else stage
  }

  /** The node's id goes on from `id` by a path that ends with the node's own link and place,
      just after its parent's, and its stage is that of the path. */
  predicate Describes(n: Node, id: string, stage: string) {
    && Parse(id) < Parse(n.id)
    && var rest := Parse(n.id)[|Parse(id)|..];
    && var last := rest[|rest| - 1];
    && n.link == Some(last.key) && Printable(last.idx)
    && n.parentId.Some? && Parse(n.parentId.value) == Parse(n.id)[..|Parse(n.id)| - 1]
    && n.id == n.parentId.value + ":" + last.key + ":" + IndexText(last.idx)
    && n.stepIndex == (if last.idx.At? then last.idx.i else 0)
    && n.stage == StageOf(rest, stage)
  }

  lemma NodeDescribes(n: Node, id: string, stage: string, key: string, idx: Index)
    requires Paired(id) && ':' !in key && Printable(idx)
    requires n.id == ChildId(id, key, idx) && n.stage == ChildStage(stage, key)
    requires n.link == Some(key) && n.parentId == Some(id) && n.stepIndex == if idx.At? then idx.i else 0
    ensures Describes(n, id, stage)
  {
    hide Parse;
    ChildIdExtends(id, key, idx);
    var seg := Segment(key, idx);
    assert Parse(n.id)[|Parse(id)|..] == [seg] && Parse(n.id)[..|Parse(n.id)| - 1] == Parse(id);
    assert seg in [seg];
  }

  lemma DeeperDescribes(n: Node, id: string, stage: string, key: string, idx: Index, childId: string)
    requires Parse(childId) == Parse(id) + [Segment(key, idx)] && Describes(n, childId, ChildStage(stage, key))
    ensures Describes(n, id, stage)
  {
    hide Parse;
    var path, deep := Parse(id), Parse(n.id);
    var rest := deep[|path|..];
    assert rest == [Segment(key, idx)] + deep[|path| + 1..];
    assert path <= Parse(childId);
    assert forall seg :: seg in rest <==> seg == Segment(key, idx) || seg in deep[|path| + 1..];
  }

  lemma {:induction false} SubagentsDescribe(step: Step, id: string, stage: string, keys: seq<string>)
    requires Paired(id) && ColonFreeKeys(keys)
    ensures forall n :: n in Subagents(step, id, stage, keys) ==> Describes(n, id, stage)
    decreases step, |keys|
  {
    hide Describes, Paired, Linked;
    if keys != [] {
      assert keys[0] in keys && ColonFreeKeys(keys[1..]);
      if keys[0] in step.fields {
        LinkedDescribe(step.fields[keys[0]], id, stage, keys[0]);
      }
      SubagentsDescribe(step, id, stage, keys[1..]);
    }
  }

  lemma {:induction false} LinkedDescribe(v: Value, id: string, stage: string, key: string)
    requires Paired(id) && ':' !in key
    ensures forall n :: n in Linked(v, id, ChildStage(stage, key), key) ==> Describes(n, id, stage)
    decreases v, 1
  {
    hide Describes, Paired, ChildStage, Subagents;
    match v
    case Falsy(_) =>
    case Many(_) => ItemsDescribe(v, id, stage, key, 0);
    case One(step) =>
      NodeDescribes(Node(ChildId(id, key, Star), ChildStage(stage, key), 0, v, Some(key), Some(id)), id, stage, key, Star);
      BelowDescribes(step, id, stage, key, Star);
    case Data(_) =>
      NodeDescribes(Node(ChildId(id, key, Star), ChildStage(stage, key), 0, v, Some(key), Some(id)), id, stage, key, Star);
  }

  lemma {:induction false} BelowDescribes(child: Step, id: string, stage: string, key: string, idx: Index)
    requires Paired(id) && ':' !in key && Printable(idx)
    ensures forall n :: n in Subagents(child, ChildId(id, key, idx), ChildStage(stage, key), CONNECTABLE_KEYS) ==> Describes(n, id, stage)
    decreases child, |CONNECTABLE_KEYS| + 1
  {
    hide Describes, Paired, ChildStage, Subagents, Parse;
    var childId := ChildId(id, key, idx);
    ChildIdExtends(id, key, idx);
    KeysAreColonFree();
    SubagentsDescribe(child, childId, ChildStage(stage, key), CONNECTABLE_KEYS);
    forall n | n in Subagents(child, childId, ChildStage(stage, key), CONNECTABLE_KEYS) ensures Describes(n, id, stage) {
      DeeperDescribes(n, id, stage, key, idx, childId);
    }
  }

  lemma {:induction false} ItemsDescribe(v: Value, id: string, stage: string, key: string, from: nat)
    requires Paired(id) && ':' !in key && v.Many?
    ensures forall n :: n in Items(v, id, ChildStage(stage, key), key, from) ==> Describes(n, id, stage)
    decreases v, 0, |v.steps| - from
  {
    hide Describes, Paired, ChildStage, Subagents;
    if from < |v.steps| {
      NodeDescribes(Node(ChildId(id, key, At(from)), ChildStage(stage, key), from, One(v.steps[from]), Some(key), Some(id)), id, stage, key, At(from));
      BelowDescribes(v.steps[from], id, stage, key, At(from));
      ItemsDescribe(v, id, stage, key, from + 1);
    }
  }

  // ---- Whole workflows ----

  /** A collected node: a step of a stage, with the stage's name and its own place; or one below,
      with the id of the node it hangs on, the link and the place in it. */
  predicate IsPlaced(n: Node) {
    var path := Parse(n.id);
    && path != [] && Printable(path[|path| - 1].idx)
    && var last := path[|path| - 1];
    && n.stepIndex == (if last.idx.At? then last.idx.i else 0)
    && n.stage == StageOf(path[1..], path[0].key)
    && if |path| == 1 then n.parentId.None? && n.link.None? && n.id == last.key + ":" + IndexText(last.idx)
       else
         && n.link == Some(last.key)
         && n.parentId.Some? && Parse(n.parentId.value) == path[..|path| - 1]
         && n.id == n.parentId.value + ":" + last.key + ":" + IndexText(last.idx)
  }

  lemma {:induction false} StageIsPlaced(steps: seq<Step>, stage: string, from: nat)
    requires ':' !in stage
    ensures forall n :: n in StageNodes(steps, stage, from) ==> IsPlaced(n)
    decreases |steps| - from
  {
    hide IsPlaced, Paired, Subagents, Parse, Describes;
    if from < |steps| {
      var id := stage + ":" + IndexText(At(from));
      RootId(stage, from);
      RootIsPlaced(Node(id, stage, from, One(steps[from]), None, None), stage, from);
      KeysAreColonFree();
      SubagentsDescribe(steps[from], id, stage, CONNECTABLE_KEYS);
      forall n | n in Subagents(steps[from], id, stage, CONNECTABLE_KEYS) ensures IsPlaced(n) {
        DescribedIsPlaced(n, id, stage, from);
      }
      StageIsPlaced(steps, stage, from + 1);
    }
  }

  lemma RootIsPlaced(n: Node, stage: string, i: nat)
    requires Parse(n.id) == [Segment(stage, At(i))] && n.id == stage + ":" + IndexText(At(i))
    requires n.stage == stage && n.stepIndex == i && n.link.None? && n.parentId.None?
    ensures IsPlaced(n)
  {
    hide Parse;
  }

  lemma DescribedIsPlaced(n: Node, id: string, stage: string, i: nat)
    requires Parse(id) == [Segment(stage, At(i))] && Describes(n, id, stage)
    ensures IsPlaced(n)
  {
    hide Parse;
    var path := Parse(n.id);
    assert path[1..][|path[1..]| - 1] == path[|path| - 1];
  }

  lemma {:induction false} NodesArePlaced(wf: Step, stages: seq<string>)
    requires ColonFreeKeys(stages)
    ensures forall n :: n in Collected(wf, stages) ==> IsPlaced(n)
  {
    hide IsPlaced, StageNodes;
    if stages != [] {
      assert stages[0] in stages && ColonFreeKeys(stages[1..]);
      StageIsPlaced(StageSteps(wf, stages[0]), stages[0], 0);
      NodesArePlaced(wf, stages[1..]);
    }
  }

  // ---- The order of the nodes ----

  predicate KeyBefore(a: string, b: string, ranks: seq<string>) {
    exists i, j :: 0 <= i < j < |ranks| && ranks[i] == a && ranks[j] == b
  }

  predicate SegmentBefore(a: Segment, b: Segment, ranks: seq<string>) {
    KeyBefore(a.key, b.key, ranks) || (a.key == b.key && a.idx.At? && b.idx.At? && a.idx.i < b.idx.i)
  }

  /** A step comes before what is below it, and otherwise the first difference decides. */
  predicate Earlier(p: Path, q: Path, ranks: seq<string>)
    decreases |p|
  {
    q != [] &&
    (p == [] || if p[0] == q[0] then Earlier(p[1..], q[1..], CONNECTABLE_KEYS) else SegmentBefore(p[0], q[0], ranks))
  }

  /** Both ids go on from the path, the first to an earlier place. */
  predicate EarlierNode(m: Node, n: Node, path: Path, ranks: seq<string>) {
    && path <= Parse(m.id) && path <= Parse(n.id)
    && Earlier(Parse(m.id)[|path|..], Parse(n.id)[|path|..], ranks)
  }

  predicate InOrder(nodes: seq<Node>, path: Path, ranks: seq<string>) {
    forall i, j :: 0 <= i < j < |nodes| ==> EarlierNode(nodes[i], nodes[j], path, ranks)
  }

  lemma InOrderConcat(a: seq<Node>, b: seq<Node>, path: Path, ranks: seq<string>)
    requires InOrder(a, path, ranks) && InOrder(b, path, ranks)
    requires forall m, n :: m in a && n in b ==> EarlierNode(m, n, path, ranks)
    ensures InOrder(a + b, path, ranks)
  {
    hide EarlierNode;
  }

  /** Two nodes whose ids part at once. */
  lemma PartAtOnce(m: Node, n: Node, path: Path, ranks: seq<string>)
    requires path < Parse(m.id) && path < Parse(n.id)
    requires Parse(m.id)[|path|] != Parse(n.id)[|path|] && SegmentBefore(Parse(m.id)[|path|], Parse(n.id)[|path|], ranks)
    ensures EarlierNode(m, n, path, ranks)
  {
    hide Parse, SegmentBefore;
  }

  /** What is in order below a step is in order from further up. */
  lemma OrderFromAbove(nodes: seq<Node>, path: Path, seg: Segment, ranks: seq<string>)
    requires InOrder(nodes, path + [seg], CONNECTABLE_KEYS)
    ensures InOrder(nodes, path, ranks)
  {
    hide Parse;
    forall i, j | 0 <= i < j < |nodes| ensures EarlierNode(nodes[i], nodes[j], path, ranks) {
      var p, q := Parse(nodes[i].id), Parse(nodes[j].id);
      assert EarlierNode(nodes[i], nodes[j], path + [seg], CONNECTABLE_KEYS);
      assert path <= path + [seg];
      assert p[|path|..] == [seg] + p[|path| + 1..] && q[|path|..] == [seg] + q[|path| + 1..];
    }
  }

  /** A node stands before what is below it. */
  lemma NodeThenBelow(node: Node, nodes: seq<Node>, path: Path, seg: Segment, ranks: seq<string>)
    requires Parse(node.id) == path + [seg] && InOrder(nodes, path + [seg], CONNECTABLE_KEYS)
    requires forall n :: n in nodes ==> path + [seg] < Parse(n.id)
    ensures InOrder([node] + nodes, path, ranks)
  {
    hide Parse, EarlierNode;
    OrderFromAbove(nodes, path, seg, ranks);
    forall n | n in nodes ensures EarlierNode(node, n, path, ranks) {
      ParentIsEarlier(node, n, path, seg, ranks);
    }
    InOrderConcat([node], nodes, path, ranks);
  }

  lemma ParentIsEarlier(node: Node, n: Node, path: Path, seg: Segment, ranks: seq<string>)
    requires Parse(node.id) == path + [seg] && path + [seg] < Parse(n.id)
    ensures EarlierNode(node, n, path, ranks)
  {
    hide Parse;
    var q := Parse(n.id);
    assert path <= path + [seg];
    assert q[|path|..] == [seg] + q[|path| + 1..] && (path + [seg])[|path|..] == [seg];
    var r := q[|path| + 1..];
    assert [seg][1..] == [] && ([seg] + r)[1..] == r;
    assert Earlier([], r, CONNECTABLE_KEYS) && Earlier([seg], [seg] + r, ranks);
  }

  lemma {:induction false} SubagentsInOrder(step: Step, id: string, stage: string, k: nat)
    requires Paired(id) && k <= |CONNECTABLE_KEYS|
    ensures InOrder(Subagents(step, id, stage, CONNECTABLE_KEYS[k..]), Parse(id), CONNECTABLE_KEYS)
    decreases step, |CONNECTABLE_KEYS| - k
  {
    hide Parse, Paired, Linked, EarlierNode, Below, Describes;
    if k < |CONNECTABLE_KEYS| {
      var keys, key := CONNECTABLE_KEYS[k..], CONNECTABLE_KEYS[k];
      assert keys[0] == key && keys[1..] == CONNECTABLE_KEYS[k + 1..];
      KeysAreColonFree();
      assert ColonFreeKeys(keys[1..]) && ':' !in key;
      SubagentsInOrder(step, id, stage, k + 1);
      var first := if key in step.fields then Linked(step.fields[key], id, ChildStage(stage, key), key) else [];
      var rest := Subagents(step, id, stage, keys[1..]);
      if key in step.fields {
        LinkedInOrder(step, id, ChildStage(stage, key), key);
        LinkedBelow(step, id, ChildStage(stage, key), key);
        SubagentsBelow(step, id, stage, keys[1..]);
        forall m, n | m in first && n in rest ensures EarlierNode(m, n, Parse(id), CONNECTABLE_KEYS) {
          LinksInOrder(m, n, step, Parse(id), k);
        }
      }
      InOrderConcat(first, rest, Parse(id), CONNECTABLE_KEYS);
    }
  }

  lemma LinksInOrder(m: Node, n: Node, step: Step, path: Path, k: nat)
    requires k < |CONNECTABLE_KEYS| && Below(m, step, path) && Below(n, step, path)
    requires Parse(m.id)[|path|].key == CONNECTABLE_KEYS[k] && Parse(n.id)[|path|].key in CONNECTABLE_KEYS[k + 1..]
    ensures EarlierNode(m, n, path, CONNECTABLE_KEYS)
  {
    hide Parse;
    KeysAreDistinct();
    var j :| 0 <= j < |CONNECTABLE_KEYS[k + 1..]| && CONNECTABLE_KEYS[k + 1..][j] == Parse(n.id)[|path|].key;
    assert CONNECTABLE_KEYS[k + 1 + j] == Parse(n.id)[|path|].key;
    PartAtOnce(m, n, path, CONNECTABLE_KEYS);
  }

  lemma {:induction false} LinkedInOrder(step: Step, id: string, stage: string, key: string)
    requires Paired(id) && ':' !in key && key in step.fields
    ensures InOrder(Linked(step.fields[key], id, stage, key), Parse(id), CONNECTABLE_KEYS)
    decreases step.fields[key], 1
  {
    hide Parse, Paired, Subagents, EarlierNode;
    var v := step.fields[key];
    match v
    case Many(_) => ItemsInOrder(step, id, stage, key, 0);
    case One(child) => OneInOrder(child, Node(ChildId(id, key, Star), stage, 0, v, Some(key), Some(id)), id, stage, key, Star);
    case _ =>
  }

  lemma {:induction false} OneInOrder(child: Step, node: Node, id: string, stage: string, key: string, idx: Index)
    requires Paired(id) && ':' !in key && Printable(idx) && node.id == ChildId(id, key, idx)
    ensures InOrder([node] + Subagents(child, node.id, stage, CONNECTABLE_KEYS), Parse(id), CONNECTABLE_KEYS)
    ensures forall n :: n in [node] + Subagents(child, node.id, stage, CONNECTABLE_KEYS) ==>
              Parse(id) < Parse(n.id) && Parse(n.id)[|Parse(id)|] == Segment(key, idx)
    decreases child, |CONNECTABLE_KEYS| + 1
  {
    hide Parse, Paired, Subagents, EarlierNode;
    ChildIdExtends(id, key, idx);
    KeysAreColonFree();
    var nodes := Subagents(child, node.id, stage, CONNECTABLE_KEYS);
    assert CONNECTABLE_KEYS[0..] == CONNECTABLE_KEYS;
    SubagentsInOrder(child, node.id, stage, 0);
    SubagentsBelow(child, node.id, stage, CONNECTABLE_KEYS);
    NodeThenBelow(node, nodes, Parse(id), Segment(key, idx), CONNECTABLE_KEYS);
    forall n | n in [node] + nodes ensures Parse(id) < Parse(n.id) && Parse(n.id)[|Parse(id)|] == Segment(key, idx) {
      assert Parse(id) + [Segment(key, idx)] <= Parse(n.id);
      assert (Parse(id) + [Segment(key, idx)])[|Parse(id)|] == Segment(key, idx);
    }
  }

  lemma {:induction false} ItemsInOrder(step: Step, id: string, stage: string, key: string, from: nat)
    requires Paired(id) && ':' !in key && key in step.fields && step.fields[key].Many?
    ensures InOrder(Items(step.fields[key], id, stage, key, from), Parse(id), CONNECTABLE_KEYS)
    decreases step.fields[key], 0, |step.fields[key].steps| - from
  {
    hide Parse, Paired, Subagents, EarlierNode, Walk;
    var v := step.fields[key];
    if from < |v.steps| {
      var node := Node(ChildId(id, key, At(from)), stage, from, One(v.steps[from]), Some(key), Some(id));
      var first := [node] + Subagents(v.steps[from], node.id, stage, CONNECTABLE_KEYS);
      var rest := Items(v, id, stage, key, from + 1);
      OneInOrder(v.steps[from], node, id, stage, key, At(from));
      ItemsInOrder(step, id, stage, key, from + 1);
      ItemsBelow(step, id, stage, key, from + 1);
      forall m, n | m in first && n in rest ensures EarlierNode(m, n, Parse(id), CONNECTABLE_KEYS) {
        PartAtOnce(m, n, Parse(id), CONNECTABLE_KEYS);
      }
      InOrderConcat(first, rest, Parse(id), CONNECTABLE_KEYS);
    }
  }

  // ---- Stages in order ----

  /** What is said of a node of a stage. */
  predicate OfStage(n: Node, stage: string, from: nat) {
    var path := Parse(n.id);
    path != [] && path[0].key == stage && path[0].idx.At? && path[0].idx.i >= from
  }

  lemma {:induction false} StageInOrder(steps: seq<Step>, stage: string, from: nat)
    requires ':' !in stage
    ensures InOrder(StageNodes(steps, stage, from), [], STAGE_ORDER)
    ensures forall n :: n in StageNodes(steps, stage, from) ==> OfStage(n, stage, from)
    decreases |steps| - from
  {
    hide Parse, Paired, Subagents, EarlierNode;
    if from < |steps| {
      var id := stage + ":" + IndexText(At(from));
      var node := Node(id, stage, from, One(steps[from]), None, None);
      var sub := Subagents(steps[from], id, stage, CONNECTABLE_KEYS);
      var seg := Segment(stage, At(from));
      RootId(stage, from);
      KeysAreColonFree();
      assert CONNECTABLE_KEYS[0..] == CONNECTABLE_KEYS && [] + [seg] == [seg];
      SubagentsInOrder(steps[from], id, stage, 0);
      SubagentsBelow(steps[from], id, stage, CONNECTABLE_KEYS);
      NodeThenBelow(node, sub, [], seg, STAGE_ORDER);
      StageInOrder(steps, stage, from + 1);
      var rest := StageNodes(steps, stage, from + 1);
      assert forall m :: m in [node] + sub ==> [seg] <= Parse(m.id);
      forall m, n | m in [node] + sub && n in rest ensures EarlierNode(m, n, [], STAGE_ORDER) {
        assert Parse(m.id)[0] == seg;
        PartAtOnce(m, n, [], STAGE_ORDER);
      }
      InOrderConcat([node] + sub, rest, [], STAGE_ORDER);
    }
  }

  lemma {:induction false} StagesInOrder(wf: Step, k: nat)
    requires k <= |STAGE_ORDER|
    ensures InOrder(Collected(wf, STAGE_ORDER[k..]), [], STAGE_ORDER)
    ensures forall n :: n in Collected(wf, STAGE_ORDER[k..]) ==> Parse(n.id) != [] && Parse(n.id)[0].key in STAGE_ORDER[k..]
    decreases |STAGE_ORDER| - k
  {
    hide Parse, StageNodes, EarlierNode;
    if k < |STAGE_ORDER| {
      var stages, stage := STAGE_ORDER[k..], STAGE_ORDER[k];
      assert stages[0] == stage && stages[1..] == STAGE_ORDER[k + 1..];
      KeysAreColonFree();
      KeysAreDistinct();
      StageInOrder(StageSteps(wf, stage), stage, 0);
      StagesInOrder(wf, k + 1);
      var first, rest := StageNodes(StageSteps(wf, stage), stage, 0), Collected(wf, stages[1..]);
      forall m, n | m in first && n in rest ensures EarlierNode(m, n, [], STAGE_ORDER) {
        var j :| 0 <= j < |STAGE_ORDER[k + 1..]| && STAGE_ORDER[k + 1..][j] == Parse(n.id)[0].key;
        assert STAGE_ORDER[k + 1 + j] == Parse(n.id)[0].key;
        PartAtOnce(m, n, [], STAGE_ORDER);
      }
      InOrderConcat(first, rest, [], STAGE_ORDER);
    }
  }

  /** The nodes stand stage by stage and place by place, each step before what is below it,
      and there link by link in the order of the connectable keys. */
  lemma NodesAreInOrder(wf: Step)
    ensures InOrder(Collected(wf, STAGE_ORDER), [], STAGE_ORDER)
  {
    hide Collected, InOrder;
    assert STAGE_ORDER[0..] == STAGE_ORDER;
    StagesInOrder(wf, 0);
  }
}
