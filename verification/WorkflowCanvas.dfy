/** The canvas nodes of a workflow: every step the connectable keys lead to, once, under
    an id that leads back to it. */
module WorkflowCanvas {
  import opened Wrappers
  import opened WorkflowTree
  import opened WorkflowLaws
  import Text

  /** `CanvasNodeData` */
  datatype Node = Node(id: string, stage: string, stepIndex: nat, config: Value, link: Option<string>, parentId: Option<string>)

  function ChildId(parentId: string, key: string, idx: Index): string
    requires Printable(idx)
  {
    parentId + ":" + key + ":" + IndexText(idx)
  }

  /** Children of a smart agent run in the context stage. */
  function ChildStage(stage: string, key: string): string {
    if key == "registered_agents" || key == "agents" then "context" else stage
  }

  // ---- Collecting ----

  /** `_collectSubagents` over the connectable keys that are left. */
  function Subagents(step: Step, parentId: string, stage: string, keys: seq<string>): seq<Node>
    decreases step, |keys|
  {
    if keys == [] then []
    else (if keys[0] in step.fields then Linked(step.fields[keys[0]], parentId, ChildStage(stage, keys[0]), keys[0]) else [])
         + Subagents(step, parentId, stage, keys[1..])
  }

  /** The nodes under one connectable key. */
  function Linked(v: Value, parentId: string, stage: string, key: string): seq<Node>
    decreases v, 1
  {
    var id := ChildId(parentId, key, Star);
    match v
    case Falsy(_) => []
    case Many(steps) => Items(v, parentId, stage, key, 0)
    case One(step) => [Node(id, stage, 0, v, Some(key), Some(parentId))] + Subagents(step, id, stage, CONNECTABLE_KEYS)
    case Data(_) => [Node(id, stage, 0, v, Some(key), Some(parentId))]
  }

  function Items(v: Value, parentId: string, stage: string, key: string, from: nat): seq<Node>
    requires v.Many?
    decreases v, 0, |v.steps| - from
  {
    if from >= |v.steps| then []
    else
      var id := ChildId(parentId, key, At(from));
      [Node(id, stage, from, One(v.steps[from]), Some(key), Some(parentId))]
      + Subagents(v.steps[from], id, stage, CONNECTABLE_KEYS)
      + Items(v, parentId, stage, key, from + 1)
  }

  /** The steps of one stage from number `from` on. */
  function StageNodes(steps: seq<Step>, stage: string, from: nat): seq<Node>
    decreases |steps| - from
  {
    if from >= |steps| then []
    else
      var id := stage + ":" + IndexText(At(from));
      [Node(id, stage, from, One(steps[from]), None, None)]
      + Subagents(steps[from], id, stage, CONNECTABLE_KEYS)
      + StageNodes(steps, stage, from + 1)
  }

  function StageSteps(wf: Step, stage: string): seq<Step> {
    if stage in wf.fields && wf.fields[stage].Many? then wf.fields[stage].steps else []
  }

  /** The stages hold arrays or nothing; anything else makes the collector throw. */
  predicate StagesAreLists(wf: Step) {
    forall stage :: stage in STAGE_ORDER && stage in wf.fields ==> wf.fields[stage].Many? || wf.fields[stage] == Falsy(true)
  }

  /** `_collectNodes` over the stages that are left. */
  function Collected(wf: Step, stages: seq<string>): seq<Node> {
    if stages == [] then [] else StageNodes(StageSteps(wf, stages[0]), stages[0], 0) + Collected(wf, stages[1..])
  }

  // ---- Which paths lead to a node ----

  /** The path goes from a step through connectable keys to something that is no list. */
  predicate Leads(step: Step, path: Path)
    decreases |path|, 0
  {
    path != [] && path[0].key in CONNECTABLE_KEYS && LeadsOn(Child(One(step), path[0]), path[1..])
  }

  predicate LeadsOn(v: Option<Value>, path: Path)
    decreases |path|, 1
  {
    match v
    case None => false
    case Some(Falsy(_)) => false
    case Some(Many(_)) => false
    case Some(Data(_)) => path == []
    case Some(One(step)) => path == [] || Leads(step, path)
  }

  predicate LeadsFromTop(wf: Step, path: Path) {
    path != [] && path[0].key in STAGE_ORDER && LeadsOn(Top(wf, path[0]), path[1..])
  }

  /** How many nodes have an id that reads as the path. */
  function Count(nodes: seq<Node>, path: Path): nat {
    if nodes == [] then 0 else (if Parse(nodes[0].id) == path then 1 else 0) + Count(nodes[1..], path)
  }

  lemma {:induction false} CountConcat(a: seq<Node>, b: seq<Node>, path: Path)
    ensures Count(a + b, path) == Count(a, path) + Count(b, path)
  {
    hide Parse;
    if a == [] {
      assert a + b == b;
    } else {
      assert (a + b)[1..] == a[1..] + b;
      CountConcat(a[1..], b, path);
    }
  }

  lemma {:induction false} CountNone(nodes: seq<Node>, path: Path)
    requires forall n :: n in nodes ==> Parse(n.id) != path
    ensures Count(nodes, path) == 0
  {
    hide Parse;
    if nodes != [] {
      assert nodes[0] in nodes;
      CountNone(nodes[1..], path);
    }
  }

  // ---- Ids ----

  /** The id is made of pairs, so ids of children extend it by one segment. */
  predicate Paired(id: string) { |Text.Split(id, ':')| % 2 == 0 }

  predicate ColonFreeKeys(keys: seq<string>) { forall k :: k in keys ==> ':' !in k }

  lemma ChildIdExtends(parentId: string, key: string, idx: Index)
    requires Paired(parentId) && ':' !in key && Printable(idx)
    ensures Paired(ChildId(parentId, key, idx)) && Parse(ChildId(parentId, key, idx)) == Parse(parentId) + [Segment(key, idx)]
  {
    hide Parse;
    NewIdExtends(parentId, key, idx);
    var text := IndexText(idx);
    ColonFree(idx);
    Text.SplitStep(key, text, ':');
    Text.SplitStep(text, "", ':');
    assert parentId + ":" + key + ":" + text == parentId + [':'] + (key + [':'] + text);
    Text.SplitConcat(parentId, key + [':'] + text, ':');
  }

  /** What is said of a node below a step: its id goes strictly further than the parent's,
      along a path from the step to the node's config. */
  predicate Below(n: Node, step: Step, path: Path) {
    && path < Parse(n.id)
    && Walk(One(step), Parse(n.id)[|path|..]) == Some(n.config)
  }

  lemma {:induction false} SubagentsBelow(step: Step, id: string, stage: string, keys: seq<string>)
    requires Paired(id) && ColonFreeKeys(keys)
    ensures forall n :: n in Subagents(step, id, stage, keys) ==> Below(n, step, Parse(id)) && Parse(n.id)[|Parse(id)|].key in keys
    decreases step, |keys|
  {
    hide Parse, Child, Paired;
    if keys != [] {
      assert keys[0] in keys && ColonFreeKeys(keys[1..]);
      if keys[0] in step.fields {
        LinkedBelow(step, id, ChildStage(stage, keys[0]), keys[0]);
      }
      SubagentsBelow(step, id, stage, keys[1..]);
    }
  }

  lemma {:induction false} LinkedBelow(step: Step, id: string, stage: string, key: string)
    requires Paired(id) && ':' !in key && key in step.fields
    ensures forall n :: n in Linked(step.fields[key], id, stage, key) ==> Below(n, step, Parse(id)) && Parse(n.id)[|Parse(id)|].key == key
    decreases step.fields[key], 1
  {
    hide Parse, Paired, Walk;
    var v := step.fields[key];
    var seg := Segment(key, Star);
    match v
    case Falsy(_) =>
    case Many(steps) => ItemsBelow(step, id, stage, key, 0);
    case One(child) =>
      ChildIdExtends(id, key, Star);
      KeysAreColonFree();
      SubagentsBelow(child, ChildId(id, key, Star), stage, CONNECTABLE_KEYS);
      NodeBelow(step, id, seg, v);
      forall n | n in Subagents(child, ChildId(id, key, Star), stage, CONNECTABLE_KEYS)
        ensures Below(n, step, Parse(id)) && Parse(n.id)[|Parse(id)|].key == key
      {
        DeeperBelow(n, step, id, seg, child);
      }
    case Data(_) =>
      ChildIdExtends(id, key, Star);
      NodeBelow(step, id, seg, v);
  }

  lemma {:induction false} ItemsBelow(step: Step, id: string, stage: string, key: string, from: nat)
    requires Paired(id) && ':' !in key && key in step.fields && step.fields[key].Many?
    ensures forall n :: n in Items(step.fields[key], id, stage, key, from) ==>
              && Below(n, step, Parse(id)) && Parse(n.id)[|Parse(id)|].key == key
              && Parse(n.id)[|Parse(id)|].idx.At? && Parse(n.id)[|Parse(id)|].idx.i >= from
    decreases step.fields[key], 0, |step.fields[key].steps| - from
  {
    hide Parse, Paired, Walk;
    var steps := step.fields[key].steps;
    if from < |steps| {
      var child := steps[from];
      var seg := Segment(key, At(from));
      ChildIdExtends(id, key, At(from));
      KeysAreColonFree();
      SubagentsBelow(child, ChildId(id, key, At(from)), stage, CONNECTABLE_KEYS);
      NodeBelow(step, id, seg, One(child));
      forall n | n in Subagents(child, ChildId(id, key, At(from)), stage, CONNECTABLE_KEYS)
        ensures Below(n, step, Parse(id)) && Parse(n.id)[|Parse(id)|] == seg
      {
        DeeperBelow(n, step, id, seg, child);
      }
      ItemsBelow(step, id, stage, key, from + 1);
    }
  }

  lemma KeysAreColonFree()
    ensures ColonFreeKeys(CONNECTABLE_KEYS) && ColonFreeKeys(STAGE_ORDER)
  {
  }

  /** A node one segment below a step. */
  lemma NodeBelow(step: Step, id: string, seg: Segment, v: Value)
    requires Child(One(step), seg) == Some(v)
    ensures forall n: Node :: Parse(n.id) == Parse(id) + [seg] && n.config == v ==>
              Below(n, step, Parse(id)) && Parse(n.id)[|Parse(id)|] == seg
  {
    hide Parse, Child;
    OneSegment(One(step), seg);
    forall n: Node | Parse(n.id) == Parse(id) + [seg] && n.config == v
      ensures Below(n, step, Parse(id)) && Parse(n.id)[|Parse(id)|] == seg
    {
      assert Parse(n.id)[|Parse(id)|..] == [seg];
    }
  }

  lemma DeeperBelow(n: Node, step: Step, id: string, seg: Segment, child: Step)
    requires Child(One(step), seg) == Some(One(child))
    requires Below(n, child, Parse(id) + [seg])
    ensures Below(n, step, Parse(id)) && Parse(n.id)[|Parse(id)|] == seg
  {
    hide Parse, Child;
    var path := Parse(id);
    var deep := Parse(n.id);
    assert deep[|path|..] == [seg] + deep[|path| + 1..];
    assert deep[|path|..][1..] == deep[|path| + 1..];
    assert path + [seg] <= deep;
    assert deep[|path|] == (path + [seg])[|path|];
  }

  // ---- Every path that leads to a node has exactly one ----

  lemma KeysAreDistinct()
    ensures Text.Distinct(CONNECTABLE_KEYS) && Text.Distinct(STAGE_ORDER)
  {
  }

  function OneIf(b: bool): nat { if b then 1 else 0 }

  lemma {:induction false} SubagentsCount(step: Step, id: string, stage: string, keys: seq<string>, rest: Path)
    requires Paired(id) && ColonFreeKeys(keys) && Text.Distinct(keys)
    ensures Count(Subagents(step, id, stage, keys), Parse(id) + rest) ==
            OneIf(rest != [] && rest[0].key in keys && LeadsOn(Child(One(step), rest[0]), rest[1..]))
    decreases step, |keys|
  {
    hide Parse, Paired, Linked, Child, LeadsOn;
    if keys != [] {
      assert keys[0] in keys && ColonFreeKeys(keys[1..]) && Text.Distinct(keys[1..]) && keys[0] !in keys[1..];
      var first := if keys[0] in step.fields then Linked(step.fields[keys[0]], id, ChildStage(stage, keys[0]), keys[0]) else [];
      CountConcat(first, Subagents(step, id, stage, keys[1..]), Parse(id) + rest);
      if keys[0] in step.fields {
        LinkedCount(step, id, ChildStage(stage, keys[0]), keys[0], rest);
      } else if rest != [] && rest[0].key == keys[0] {
        MissingKey(step, rest[0], rest[1..]);
      }
      SubagentsCount(step, id, stage, keys[1..], rest);
    }
  }

  lemma MissingKey(step: Step, seg: Segment, rest: Path)
    requires seg.key !in step.fields
    ensures !LeadsOn(Child(One(step), seg), rest)
  {
  }

  lemma NoneThrough(nodes: seq<Node>, path: Path, rest: Path, key: string)
    requires forall n :: n in nodes ==> |path| < |Parse(n.id)| && Parse(n.id)[|path|].key == key
    requires rest == [] || rest[0].key != key
    ensures Count(nodes, path + rest) == 0
  {
    hide Parse;
    CountNone(nodes, path + rest);
  }

  lemma {:induction false} LinkedCount(step: Step, id: string, stage: string, key: string, rest: Path)
    requires Paired(id) && ':' !in key && key in step.fields
    ensures Count(Linked(step.fields[key], id, stage, key), Parse(id) + rest) ==
            OneIf(rest != [] && rest[0].key == key && LeadsOn(Child(One(step), rest[0]), rest[1..]))
    decreases step.fields[key], 2
  {
    hide Parse, Paired, LeadsOn, Below;
    var v := step.fields[key];
    LinkedBelow(step, id, stage, key);
    if rest == [] || rest[0].key != key {
      assert forall n :: n in Linked(v, id, stage, key) ==> |Parse(id)| < |Parse(n.id)| by {
        forall n | n in Linked(v, id, stage, key) ensures |Parse(id)| < |Parse(n.id)| { BelowIsLonger(n, step, Parse(id)); }
      }
      NoneThrough(Linked(v, id, stage, key), Parse(id), rest, key);
    } else {
      match v
      case Falsy(_) => NothingLeads(rest[1..]);
      case Many(steps) =>
        ItemsCount(step, id, stage, key, 0, rest);
        ManyLeads(step, rest);
      case One(child) => SingleCount(step, id, stage, key, rest);
      case Data(_) => SingleCount(step, id, stage, key, rest);
    }
  }

  lemma BelowIsLonger(n: Node, step: Step, path: Path)
    requires Below(n, step, path)
    ensures |path| < |Parse(n.id)|
  {
    hide Parse;
  }

  lemma NothingLeads(rest: Path)
    ensures !LeadsOn(None, rest)
  {
  }

  lemma ManyLeads(step: Step, rest: Path)
    requires rest != [] && rest[0].key in step.fields && step.fields[rest[0].key].Many?
    ensures LeadsOn(Child(One(step), rest[0]), rest[1..]) <==>
              && rest[0].idx.At? && 0 <= rest[0].idx.i < |step.fields[rest[0].key].steps|
              && LeadsOn(Some(One(step.fields[rest[0].key].steps[rest[0].idx.i])), rest[1..])
  {
    hide Leads;
  }

  lemma {:induction false} SingleCount(step: Step, id: string, stage: string, key: string, rest: Path)
    requires Paired(id) && ':' !in key && key in step.fields && (step.fields[key].One? || step.fields[key].Data?)
    requires rest != [] && rest[0].key == key
    ensures Count(Linked(step.fields[key], id, stage, key), Parse(id) + rest) ==
            OneIf(LeadsOn(Child(One(step), rest[0]), rest[1..]))
    decreases step.fields[key], 1
  {
    hide Parse, Paired, Leads, Subagents;
    var v := step.fields[key];
    var seg := Segment(key, Star);
    var childId := ChildId(id, key, Star);
    ChildIdExtends(id, key, Star);
    var node := Node(childId, stage, 0, v, Some(key), Some(id));
    var sub := if v.One? then Subagents(v.step, childId, stage, CONNECTABLE_KEYS) else [];
    assert Linked(v, id, stage, key) == [node] + sub;
    CountConcat([node], sub, Parse(id) + rest);
    NodeCount(node, Parse(id), seg, rest);
    if v.One? {
      SubCount(v.step, childId, stage, Parse(id), seg, rest);
      NowhereLeads(v.step);
    }
  }

  lemma NowhereLeads(step: Step)
    ensures !Leads(step, [])
  {
  }

  /** The count of a node and of what is below it, by the segment that leads there. */
  lemma NodeCount(node: Node, path: Path, seg: Segment, rest: Path)
    requires Parse(node.id) == path + [seg] && rest != []
    ensures Count([node], path + rest) == OneIf(rest[0] == seg && rest[1..] == [])
  {
    hide Parse;
    assert [node][1..] == [];
    assert rest == [rest[0]] + rest[1..];
    if path + [seg] == path + rest {
      assert rest == (path + rest)[|path|..] && [seg] == (path + [seg])[|path|..];
    }
  }

  lemma {:induction false} SubCount(child: Step, childId: string, stage: string, path: Path, seg: Segment, rest: Path)
    requires Paired(childId) && Parse(childId) == path + [seg] && rest != []
    ensures Count(Subagents(child, childId, stage, CONNECTABLE_KEYS), path + rest) ==
            OneIf(rest[0] == seg && Leads(child, rest[1..]))
    decreases child, |CONNECTABLE_KEYS| + 1
  {
    hide Parse, Paired, Child, LeadsOn, Subagents, Text.Distinct;
    KeysAreColonFree();
    KeysAreDistinct();
    if rest[0] == seg {
      SubagentsCount(child, childId, stage, CONNECTABLE_KEYS, rest[1..]);
      assert rest == [seg] + rest[1..];
      assert path + rest == path + [seg] + rest[1..];
    } else {
      SubagentsBelow(child, childId, stage, CONNECTABLE_KEYS);
      forall n | n in Subagents(child, childId, stage, CONNECTABLE_KEYS) ensures Parse(n.id) != path + rest {
        assert Parse(n.id)[|path|] == (path + [seg])[|path|];
        assert (path + rest)[|path|] == rest[0];
      }
      CountNone(Subagents(child, childId, stage, CONNECTABLE_KEYS), path + rest);
    }
  }

  lemma {:induction false} ItemsCount(step: Step, id: string, stage: string, key: string, from: nat, rest: Path)
    requires Paired(id) && ':' !in key && key in step.fields && step.fields[key].Many?
    requires rest != [] && rest[0].key == key
    ensures var steps := step.fields[key].steps;
            Count(Items(step.fields[key], id, stage, key, from), Parse(id) + rest) ==
            OneIf(rest[0].idx.At? && from <= rest[0].idx.i < |steps| && LeadsOn(Some(One(steps[rest[0].idx.i])), rest[1..]))
    decreases step.fields[key], 0, |step.fields[key].steps| - from
  {
    hide Parse, Paired, Leads, Subagents;
    var v := step.fields[key];
    if from < |v.steps| {
      var seg := Segment(key, At(from));
      var childId := ChildId(id, key, At(from));
      ChildIdExtends(id, key, At(from));
      var node := Node(childId, stage, from, One(v.steps[from]), Some(key), Some(id));
      var sub := Subagents(v.steps[from], childId, stage, CONNECTABLE_KEYS);
      CountConcat([node] + sub, Items(v, id, stage, key, from + 1), Parse(id) + rest);
      CountConcat([node], sub, Parse(id) + rest);
      NodeCount(node, Parse(id), seg, rest);
      SubCount(v.steps[from], childId, stage, Parse(id), seg, rest);
      ItemsCount(step, id, stage, key, from + 1, rest);
      NowhereLeads(v.steps[from]);
    }
  }

  // ---- Whole workflows ----

  lemma RootId(stage: string, i: nat)
    requires ':' !in stage
    ensures var id := stage + ":" + IndexText(At(i));
            Paired(id) && Parse(id) == [Segment(stage, At(i))]
  {
    var text := IndexText(At(i));
    ColonFree(At(i));
    IndexRoundTrip(At(i));
    Text.SplitStep(stage, text, ':');
    Text.SplitStep(text, "", ':');
    assert stage + ":" + text == stage + [':'] + text;
    assert Text.Split(stage + ":" + text, ':') == [stage, text];
    assert Pairs([stage, text]) == [Segment(stage, At(i))] + Pairs([stage, text][2..]);
  }

  lemma {:induction false} StageCount(steps: seq<Step>, stage: string, from: nat, path: Path)
    requires ':' !in stage && path != []
    ensures Count(StageNodes(steps, stage, from), path) ==
            OneIf(path[0].key == stage && path[0].idx.At? && from <= path[0].idx.i < |steps| &&
                  LeadsOn(Some(One(steps[path[0].idx.i])), path[1..]))
    decreases |steps| - from
  {
    hide Parse, Paired, Leads, Subagents;
    if from < |steps| {
      var seg := Segment(stage, At(from));
      var id := stage + ":" + IndexText(At(from));
      RootId(stage, from);
      var node := Node(id, stage, from, One(steps[from]), None, None);
      var sub := Subagents(steps[from], id, stage, CONNECTABLE_KEYS);
      CountConcat([node] + sub, StageNodes(steps, stage, from + 1), path);
      CountConcat([node], sub, path);
      assert [] + [seg] == [seg] && [] + path == path;
      NodeCount(node, [], seg, path);
      SubCount(steps[from], id, stage, [], seg, path);
      StageCount(steps, stage, from + 1, path);
      NowhereLeads(steps[from]);
    }
  }

  lemma {:induction false} CollectedCount(wf: Step, stages: seq<string>, path: Path)
    requires path != [] && ColonFreeKeys(stages) && Text.Distinct(stages)
    ensures Count(Collected(wf, stages), path) ==
            OneIf(path[0].key in stages && LeadsOn(Top(wf, path[0]), path[1..]))
  {
    hide StageNodes, Leads, Parse;
    if stages != [] {
      assert stages[0] in stages && ColonFreeKeys(stages[1..]) && Text.Distinct(stages[1..]) && stages[0] !in stages[1..];
      CountConcat(StageNodes(StageSteps(wf, stages[0]), stages[0], 0), Collected(wf, stages[1..]), path);
      StageCount(StageSteps(wf, stages[0]), stages[0], 0, path);
      CollectedCount(wf, stages[1..], path);
    }
  }

  /** Every step the connectable keys lead to is collected exactly once, under an id that
      reads as its path, and nothing else is collected. */
  lemma EveryStepIsCollectedOnce(wf: Step, path: Path)
    requires path != []
    ensures Count(Collected(wf, STAGE_ORDER), path) == OneIf(LeadsFromTop(wf, path))
  {
    hide Collected, LeadsOn, Text.Distinct, ColonFreeKeys, Parse;
    KeysAreColonFree();
    KeysAreDistinct();
    CollectedCount(wf, STAGE_ORDER, path);
  }

  lemma {:induction false} CountTwo(nodes: seq<Node>, i: nat, j: nat)
    requires i < j < |nodes| && nodes[i].id == nodes[j].id
    ensures Count(nodes, Parse(nodes[i].id)) >= 2
  {
    hide Parse;
    var path := Parse(nodes[i].id);
    if i == 0 {
      CountSome(nodes[1..], j - 1, path);
    } else {
      CountTwo(nodes[1..], i - 1, j - 1);
    }
  }

  lemma {:induction false} CountSome(nodes: seq<Node>, i: nat, path: Path)
    requires i < |nodes| && Parse(nodes[i].id) == path
    ensures Count(nodes, path) >= 1
  {
    hide Parse;
    if i > 0 {
      CountSome(nodes[1..], i - 1, path);
    }
  }

  /** The ids are pairwise distinct. */
  lemma IdsAreDistinct(wf: Step)
    ensures var nodes := Collected(wf, STAGE_ORDER);
            forall i, j :: 0 <= i < j < |nodes| ==> nodes[i].id != nodes[j].id
  {
    hide Collected, Parse, LeadsFromTop, Count;
    var nodes := Collected(wf, STAGE_ORDER);
    forall i, j | 0 <= i < j < |nodes| ensures nodes[i].id != nodes[j].id {
      if nodes[i].id == nodes[j].id {
        CountTwo(nodes, i, j);
        ParsedIsNonEmpty(nodes[i].id);
        EveryStepIsCollectedOnce(wf, Parse(nodes[i].id));
      }
    }
  }

  // ---- Every node's id leads back to it ----

  predicate IdLeadsBack(wf: Step, n: Node) { Get(wf, Parse(n.id)) == Some(n.config) }

  lemma {:induction false} StageNodesLeadBack(wf: Step, stage: string, from: nat)
    requires ':' !in stage
    ensures forall n :: n in StageNodes(StageSteps(wf, stage), stage, from) ==> IdLeadsBack(wf, n)
    decreases |StageSteps(wf, stage)| - from
  {
    hide Parse, Paired, Subagents, Walk;
    var steps := StageSteps(wf, stage);
    if from < |steps| {
      var seg := Segment(stage, At(from));
      var id := stage + ":" + IndexText(At(from));
      RootId(stage, from);
      GetOne(wf, seg);
      KeysAreColonFree();
      SubagentsBelow(steps[from], id, stage, CONNECTABLE_KEYS);
      forall n | n in Subagents(steps[from], id, stage, CONNECTABLE_KEYS) ensures IdLeadsBack(wf, n) {
        var rest := Parse(n.id)[1..];
        assert Parse(n.id) == [seg] + rest;
        GetConcat(wf, [seg], rest);
      }
      StageNodesLeadBack(wf, stage, from + 1);
    }
  }

  /** Each collected id leads, through `parsePath` and `getStepByPath`, to the step it was
      collected with. */
  lemma {:induction false} IdsLeadBack(wf: Step, stages: seq<string>)
    requires ColonFreeKeys(stages)
    ensures forall n :: n in Collected(wf, stages) ==> IdLeadsBack(wf, n)
  {
    hide StageNodes, IdLeadsBack;
    if stages != [] {
      assert stages[0] in stages && ColonFreeKeys(stages[1..]);
      StageNodesLeadBack(wf, stages[0], 0);
      IdsLeadBack(wf, stages[1..]);
    }
  }

  // ---- Parents come first ----

  /** Every node's parent id is `above` or the id of a node before it. */
  predicate ParentsFirst(nodes: seq<Node>, above: Option<string>) {
    forall j :: 0 <= j < |nodes| ==>
      || nodes[j].parentId == above
      || exists i :: 0 <= i < j && nodes[j].parentId == Some(nodes[i].id)
  }

  lemma ParentsConcat(a: seq<Node>, b: seq<Node>, above: Option<string>)
    requires ParentsFirst(a, above) && ParentsFirst(b, above)
    ensures ParentsFirst(a + b, above)
  {
    forall j | 0 <= j < |a + b|
      ensures (a + b)[j].parentId == above || exists i :: 0 <= i < j && (a + b)[j].parentId == Some((a + b)[i].id)
    {
      if j < |a| {
        if a[j].parentId != above {
          var i :| 0 <= i < j && a[j].parentId == Some(a[i].id);
          assert (a + b)[i] == a[i];
        }
      } else if b[j - |a|].parentId != above {
        var i :| 0 <= i < j - |a| && b[j - |a|].parentId == Some(b[i].id);
        assert (a + b)[|a| + i] == b[i];
      }
    }
  }

  /** A node followed by what is below it. */
  lemma ParentsUnder(node: Node, nodes: seq<Node>)
    requires ParentsFirst(nodes, Some(node.id))
    ensures ParentsFirst([node] + nodes, node.parentId)
  {
    forall j | 0 < j < |[node] + nodes|
      ensures exists i :: 0 <= i < j && ([node] + nodes)[j].parentId == Some(([node] + nodes)[i].id)
    {
      if nodes[j - 1].parentId == Some(node.id) {
        assert ([node] + nodes)[0].id == node.id;
      } else {
        var i :| 0 <= i < j - 1 && nodes[j - 1].parentId == Some(nodes[i].id);
        assert ([node] + nodes)[i + 1] == nodes[i];
      }
    }
  }

  lemma {:induction false} SubagentsAfterParents(step: Step, id: string, stage: string, keys: seq<string>)
    ensures ParentsFirst(Subagents(step, id, stage, keys), Some(id))
    decreases step, |keys|
  {
    hide ParentsFirst, Linked;
    if keys == [] {
      NoParents(Some(id));
    } else {
      NoParents(Some(id));
      if keys[0] in step.fields {
        LinkedAfterParents(step.fields[keys[0]], id, ChildStage(stage, keys[0]), keys[0]);
      }
      SubagentsAfterParents(step, id, stage, keys[1..]);
      ParentsConcat(if keys[0] in step.fields then Linked(step.fields[keys[0]], id, ChildStage(stage, keys[0]), keys[0]) else [],
                    Subagents(step, id, stage, keys[1..]), Some(id));
    }
  }

  lemma NoParents(above: Option<string>)
    ensures ParentsFirst([], above)
  {
  }

  lemma {:induction false} LinkedAfterParents(v: Value, id: string, stage: string, key: string)
    ensures ParentsFirst(Linked(v, id, stage, key), Some(id))
    decreases v, 1
  {
    hide ParentsFirst, Subagents, ChildId;
    var childId := ChildId(id, key, Star);
    var node := Node(childId, stage, 0, v, Some(key), Some(id));
    match v
    case Falsy(_) => NoParents(Some(id));
    case Many(_) => ItemsAfterParents(v, id, stage, key, 0);
    case One(step) =>
      SubagentsAfterParents(step, childId, stage, CONNECTABLE_KEYS);
      ParentsUnder(node, Subagents(step, childId, stage, CONNECTABLE_KEYS));
    case Data(_) =>
      NoParents(Some(childId));
      ParentsUnder(node, []);
      assert [node] + [] == [node];
  }

  lemma {:induction false} ItemsAfterParents(v: Value, id: string, stage: string, key: string, from: nat)
    requires v.Many?
    ensures ParentsFirst(Items(v, id, stage, key, from), Some(id))
    decreases v, 0, |v.steps| - from
  {
    hide ParentsFirst, Subagents, ChildId;
    if from >= |v.steps| {
      NoParents(Some(id));
    } else {
      var childId := ChildId(id, key, At(from));
      var node := Node(childId, stage, from, One(v.steps[from]), Some(key), Some(id));
      var sub := Subagents(v.steps[from], childId, stage, CONNECTABLE_KEYS);
      SubagentsAfterParents(v.steps[from], childId, stage, CONNECTABLE_KEYS);
      ParentsUnder(node, sub);
      ItemsAfterParents(v, id, stage, key, from + 1);
      ParentsConcat([node] + sub, Items(v, id, stage, key, from + 1), Some(id));
    }
  }

  lemma {:induction false} StageAfterParents(steps: seq<Step>, stage: string, from: nat)
    ensures ParentsFirst(StageNodes(steps, stage, from), None)
    decreases |steps| - from
  {
    hide ParentsFirst, Subagents;
    if from >= |steps| {
      NoParents(None);
    } else {
      var id := stage + ":" + IndexText(At(from));
      var node := Node(id, stage, from, One(steps[from]), None, None);
      var sub := Subagents(steps[from], id, stage, CONNECTABLE_KEYS);
      SubagentsAfterParents(steps[from], id, stage, CONNECTABLE_KEYS);
      ParentsUnder(node, sub);
      StageAfterParents(steps, stage, from + 1);
      ParentsConcat([node] + sub, StageNodes(steps, stage, from + 1), None);
    }
  }

  /** Every node with a parent comes after a node with the parent's id. */
  lemma {:induction false} ParentsComeFirst(wf: Step, stages: seq<string>)
    ensures ParentsFirst(Collected(wf, stages), None)
  {
    hide ParentsFirst, StageNodes;
    if stages == [] {
      NoParents(None);
    } else {
      StageAfterParents(StageSteps(wf, stages[0]), stages[0], 0);
      ParentsComeFirst(wf, stages[1..]);
      ParentsConcat(StageNodes(StageSteps(wf, stages[0]), stages[0], 0), Collected(wf, stages[1..]), None);
    }
  }
}
