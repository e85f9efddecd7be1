/** The editor's store: its walks over node ids, its canvas and its actions. */
module WorkflowStore {
  import opened Wrappers
  import opened WorkflowTree
  import opened WorkflowLaws
  import opened WorkflowFrames
  import opened WorkflowCanvas
  import Text

  /** `parsePath` */
  method ParsePath(nodeId: string) returns (segments: Path)
    ensures segments == Parse(nodeId)
  {
    hide ParseIndex;
    var parts := Text.Split(nodeId, ':');
    segments := [];
    var i := 0;
    while i < |parts|
      invariant i <= |parts| + 1
      invariant segments + Pairs(if i <= |parts| then parts[i..] else []) == Pairs(parts)
    {
      ghost var before, left := segments, parts[i..];
      var idx := if i + 1 < |parts| then ParseIndex(parts[i + 1]) else NotANumber;
      segments := segments + [Segment(parts[i], idx)];
      assert Pairs(left) == [Segment(parts[i], idx)] + Pairs(if i + 2 <= |parts| then parts[i + 2..] else []) by {
        if i + 2 <= |parts| { assert left[2..] == parts[i + 2..]; }
      }
      assert before + Pairs(left) == segments + Pairs(if i + 2 <= |parts| then parts[i + 2..] else []);
      i := i + 2;
    }
  }

  /** `getStepByPath` */
  method GetStepByPath(wf: Step, nodeId: string) returns (r: Option<Value>)
    ensures r == Get(wf, Parse(nodeId))
  {
    var segments := ParsePath(nodeId);
    if |segments| == 0 {
      return None;
    }
    var first := segments[0];
    var current := if first.key in wf.fields then Item(wf.fields[first.key], first.idx) else None;
    if current.None? {
      return None;
    }
    var i := 1;
    while i < |segments|
      invariant 1 <= i <= |segments| && current.Some?
      invariant Walk(current.value, segments[i..]) == Get(wf, segments)
    {
      var seg := segments[i];
      ghost var left := segments[i..];
      assert left[0] == seg && left[1..] == segments[i + 1..];
      var v := current.value;
      if !v.One? || seg.key !in v.step.fields {
        return None;
      }
      var held := v.step.fields[seg.key];
      if seg.idx == Star {
        current := if Truthy(held) then Some(held) else None;
      } else {
        current := Item(held, seg.idx);
      }
      if current.None? {
        return None;
      }
      i := i + 1;
    }
    return current;
  }

  /** A step after the step at the end of a walk has become another: what changing that
      step in place does to it. */
  function Restored(step: Step, walked: Path, changed: Outcome<Step>): Outcome<Step>
    decreases |walked|
  {
    if walked == [] then changed else
    match Child(One(step), walked[0])
    case Some(One(s)) =>
      var below :- Restored(s, walked[1..], changed);
      Ok(Step(step.fields[walked[0].key := PutBack(step.fields[walked[0].key], walked[0].idx, below)]))
    case _ => Ok(step)
  }

  /** Walking one segment further. */
  lemma {:induction false} RestoredStep(step: Step, walked: Path, seg: Segment, current: Step, next: Step, changed: Outcome<Step>)
    requires Walk(One(step), walked) == Some(One(current)) && Child(One(current), seg) == Some(One(next))
    ensures Walk(One(step), walked + [seg]) == Some(One(next))
    ensures Restored(step, walked + [seg], changed) == Restored(step, walked, Restored(current, [seg], changed))
    decreases |walked|
  {
    hide Child, PutBack;
    if walked == [] {
      assert [] + [seg] == [seg] && [seg][1..] == [];
    } else {
      assert (walked + [seg])[1..] == walked[1..] + [seg];
      OnlyStepsLeadOn(One(step), walked);
      RestoredStep(Child(One(step), walked[0]).value.step, walked[1..], seg, current, next, changed);
    }
  }

  lemma OnlyStepsLeadOn(v: Value, path: Path)
    requires path != [] && Walk(v, path).Some? && Walk(v, path).value.One?
    ensures Child(v, path[0]).Some? && Child(v, path[0]).value.One?
  {
    if |path| > 1 {
      OnlyStepsHaveChildren(Child(v, path[0]).value, path[1]);
    }
  }

  lemma {:induction false} RestoredSame(step: Step, walked: Path, current: Step)
    requires Walk(One(step), walked) == Some(One(current))
    ensures Restored(step, walked, Ok(current)) == Ok(step)
    decreases |walked|
  {
    hide Child, PutBack;
    if walked != [] {
      OnlyStepsLeadOn(One(step), walked);
      var s := Child(One(step), walked[0]).value.step;
      RestoredSame(s, walked[1..], current);
      PutBackSame(step, walked[0], s);
    }
  }

  /** `mutateStepByPath`, with its walking `current` variable. */
  method MutateStepByPath(wf: Step, nodeId: string, change: Change) returns (r: Outcome<Step>)
    ensures r == Mutate(wf, Parse(nodeId), change)
  {
    hide Child, PutBack, ChangeItem, ChangeLast;
    var segs := ParsePath(nodeId);
    if |segs| == 0 {
      return Ok(wf);
    }
    var first := segs[0];
    if first.key !in wf.fields || !Truthy(wf.fields[first.key]) {
      return Ok(wf);
    }
    var topArr := wf.fields[first.key];
    if |segs| == 1 {
      var v :- ChangeItem(topArr, first.idx, change);
      return Ok(Step(wf.fields[first.key := v]));
    }
    if Top(wf, first).None? {
      return Err(if topArr.Data? then Unrepresented else Throws);
    }
    var top, rest := Top(wf, first).value.step, segs[1..];
    var below := MutateBelow(top, rest, change);
    if below.Err? {
      return Err(below.error);
    }
    return Ok(Step(wf.fields[first.key := PutBack(topArr, first.idx, below.value)]));
  }

  /** Its loop over all segments but the last, and the change at the last. */
  method MutateBelow(top: Step, rest: Path, change: Change) returns (r: Outcome<Step>)
    requires rest != []
    ensures r == ChangeBelow(top, rest, change)
  {
    hide Child, PutBack, ChangeLast;
    var current, i := top, 0;
    while i < |rest| - 1
      invariant i < |rest| && Walk(One(top), rest[..i]) == Some(One(current))
      invariant ChangeBelow(top, rest, change) == Restored(top, rest[..i], ChangeBelow(current, rest[i..], change))
    {
      var next := Child(One(current), rest[i]);
      ghost var left := rest[i..];
      assert left[0] == rest[i] && left[1..] == rest[i + 1..];
      if next.None? || !next.value.One? {
        RestoredSame(top, rest[..i], current);
        return Ok(top);
      }
      RestoredStep(top, rest[..i], rest[i], current, next.value.step, ChangeBelow(next.value.step, rest[i + 1..], change));
      assert rest[..i + 1] == rest[..i] + [rest[i]] && [rest[i]][1..] == [];
      current, i := next.value.step, i + 1;
    }
    return Restored(top, rest[..i], ChangeLast(current, rest[i], change));
  }

  /** The list the collectors push onto. */
  class Canvas {
    var nodes: seq<Node>

    constructor ()
      ensures nodes == []
    {
      nodes := [];
    }

    method Push(node: Node)
      modifies this
      ensures nodes == old(nodes) + [node]
    {
      nodes := nodes + [node];
    }
  }

  /** `_collectSubagents` */
  method CollectSubagents(step: Step, parentId: string, stage: string, out: Canvas)
    modifies out
    ensures out.nodes == old(out.nodes) + Subagents(step, parentId, stage, CONNECTABLE_KEYS)
    decreases step, 2
  {
    hide Linked;
    var k := 0;
    while k < |CONNECTABLE_KEYS|
      invariant k <= |CONNECTABLE_KEYS|
      invariant out.nodes + Subagents(step, parentId, stage, CONNECTABLE_KEYS[k..]) ==
                old(out.nodes) + Subagents(step, parentId, stage, CONNECTABLE_KEYS)
    {
      var key := CONNECTABLE_KEYS[k];
      ghost var before := out.nodes;
      assert CONNECTABLE_KEYS[k..][0] == key && CONNECTABLE_KEYS[k..][1..] == CONNECTABLE_KEYS[k + 1..];
      k := k + 1;
      if key in step.fields {
        CollectLinked(step.fields[key], parentId, ChildStage(stage, key), key, out);
        ghost var linked := Linked(step.fields[key], parentId, ChildStage(stage, key), key);
        assert before + (linked + Subagents(step, parentId, stage, CONNECTABLE_KEYS[k..])) ==
               out.nodes + Subagents(step, parentId, stage, CONNECTABLE_KEYS[k..]);
      } else {
        assert [] + Subagents(step, parentId, stage, CONNECTABLE_KEYS[k..]) == Subagents(step, parentId, stage, CONNECTABLE_KEYS[k..]);
      }
    }
  }

  /** The body of its loop for one key. */
  method CollectLinked(value: Value, parentId: string, stage: string, key: string, out: Canvas)
    modifies out
    ensures out.nodes == old(out.nodes) + Linked(value, parentId, stage, key)
    decreases value, 1
  {
    hide Subagents, ChildId;
    if value.Falsy? {
      return;
    }
    if value.Many? {
      CollectItems(value, parentId, stage, key, out);
    } else {
      var id := ChildId(parentId, key, Star);
      out.Push(Node(id, stage, 0, value, Some(key), Some(parentId)));
      if value.One? {
        CollectSubagents(value.step, id, stage, out);
      }
    }
  }

  method CollectItems(value: Value, parentId: string, stage: string, key: string, out: Canvas)
    requires value.Many?
    modifies out
    ensures out.nodes == old(out.nodes) + Items(value, parentId, stage, key, 0)
    decreases value, 0
  {
    hide Subagents, ChildId;
    var idx := 0;
    while idx < |value.steps|
      invariant idx <= |value.steps|
      invariant out.nodes + Items(value, parentId, stage, key, idx) == old(out.nodes) + Items(value, parentId, stage, key, 0)
    {
      ghost var before := out.nodes;
      var id := ChildId(parentId, key, At(idx));
      var node := Node(id, stage, idx, One(value.steps[idx]), Some(key), Some(parentId));
      out.Push(node);
      CollectSubagents(value.steps[idx], id, stage, out);
      ghost var sub := Subagents(value.steps[idx], id, stage, CONNECTABLE_KEYS);
      assert before + ([node] + sub + Items(value, parentId, stage, key, idx + 1)) ==
             before + [node] + sub + Items(value, parentId, stage, key, idx + 1);
      idx := idx + 1;
    }
  }

  method CollectStage(wf: Step, stage: string, out: Canvas)
    modifies out
    ensures out.nodes == old(out.nodes) + StageNodes(StageSteps(wf, stage), stage, 0)
  {
    hide Subagents, StageNodes, StageSteps;
    var steps := StageSteps(wf, stage);
    var idx := 0;
    while idx < |steps|
      invariant idx <= |steps|
      invariant out.nodes + StageNodes(steps, stage, idx) == old(out.nodes) + StageNodes(steps, stage, 0)
    {
      ghost var before := out.nodes;
      var id := stage + ":" + IndexText(At(idx));
      var node := Node(id, stage, idx, One(steps[idx]), None, None);
      out.Push(node);
      CollectSubagents(steps[idx], id, stage, out);
      ghost var sub := Subagents(steps[idx], id, stage, CONNECTABLE_KEYS);
      NextOfStage(steps, stage, idx);
      assert before + ([node] + sub + StageNodes(steps, stage, idx + 1)) ==
             before + [node] + sub + StageNodes(steps, stage, idx + 1);
      idx := idx + 1;
    }
    EndOfStage(steps, stage);
  }

  lemma NextOfStage(steps: seq<Step>, stage: string, i: nat)
    requires i < |steps|
    ensures var id := stage + ":" + IndexText(At(i));
            StageNodes(steps, stage, i) ==
            [Node(id, stage, i, One(steps[i]), None, None)] + Subagents(steps[i], id, stage, CONNECTABLE_KEYS) + StageNodes(steps, stage, i + 1)
  {
  }

  lemma EndOfStage(steps: seq<Step>, stage: string)
    ensures StageNodes(steps, stage, |steps|) == []
  {
  }

  /** `_collectNodes`; it throws when a stage holds something that is no list. */
  method CollectNodes(wf: Step, out: Canvas)
    requires StagesAreLists(wf)
    modifies out
    ensures out.nodes == old(out.nodes) + Collected(wf, STAGE_ORDER)
  {
    hide StageNodes;
    var k := 0;
    while k < |STAGE_ORDER|
      invariant k <= |STAGE_ORDER|
      invariant out.nodes + Collected(wf, STAGE_ORDER[k..]) == old(out.nodes) + Collected(wf, STAGE_ORDER)
    {
      ghost var before := out.nodes;
      assert STAGE_ORDER[k..][0] == STAGE_ORDER[k] && STAGE_ORDER[k..][1..] == STAGE_ORDER[k + 1..];
      CollectStage(wf, STAGE_ORDER[k], out);
      ghost var stage := StageNodes(StageSteps(wf, STAGE_ORDER[k]), STAGE_ORDER[k], 0);
      assert before + (stage + Collected(wf, STAGE_ORDER[k + 1..])) == out.nodes + Collected(wf, STAGE_ORDER[k + 1..]);
      k := k + 1;
    }
  }

  /** The parent has a new child, its other fields are kept, and the id extends the parent's
      by the link and the child's place in it. */
  predicate Added(before: Step, after: Step, parentNodeId: string, link: string, moduleId: string, newId: string) {
    match (Get(before, Parse(parentNodeId)), Get(after, Parse(parentNodeId)))
    case (Some(One(was)), Some(One(now))) =>
      && HasNewChild(was, now, link, moduleId)
      && newId == parentNodeId + ":" + link + ":" +
                  if link == "fallback" || link == "next_agent" then "*" else Text.ToDecimal(|Elements(was, link)|)
    case _ => false
  }

  /** The actions, on the workflow that the active ids select, if there is one. */
  class Store {
    var activeAgentId: Option<string>
    var workflow: Option<Step>
    var selectedNodeId: Option<string>
    var dirty: bool

    constructor (agentId: Option<string>, wf: Option<Step>)
      ensures activeAgentId == agentId && workflow == wf && selectedNodeId == None && !dirty
    {
      activeAgentId, workflow, selectedNodeId, dirty := agentId, wf, None, false;
    }

    /** An id that JavaScript takes for true. */
    predicate HasAgent()
      reads this
    {
      activeAgentId.Some? && activeAgentId.value != ""
    }

    /** `activeWorkflow` */
    function ActiveWorkflow(): Option<Step>
      reads this
    {
      if HasAgent() then workflow else None
    }

    method GetNodeConfig(nodeId: string) returns (r: Option<Value>)
      ensures r == if ActiveWorkflow().None? then None else Get(ActiveWorkflow().value, Parse(nodeId))
    {
      if ActiveWorkflow().None? {
        return None;
      }
      r := GetStepByPath(ActiveWorkflow().value, nodeId);
    }

    /** `updateNodeConfig` */
    method UpdateNodeConfig(nodeId: string, updates: map<string, Value>) returns (r: Outcome<()>)
      modifies this
      ensures selectedNodeId == old(selectedNodeId) && activeAgentId == old(activeAgentId)
      ensures old(ActiveWorkflow()).None? ==> r == Ok(()) && workflow == old(workflow) && dirty == old(dirty)
      ensures old(ActiveWorkflow()).Some? ==>
                match Mutate(old(workflow).value, Parse(nodeId), Merge(updates))
                case Ok(after) => r == Ok(()) && workflow == Some(after) && dirty
                case Err(fault) => r == Err(fault) && workflow == old(workflow) && dirty == old(dirty)
    {
      if ActiveWorkflow().None? {
        return Ok(());
      }
      var after :- MutateStepByPath(workflow.value, nodeId, Merge(updates));
      workflow, dirty := Some(after), true;
      return Ok(());
    }

    /** `addChild`: the new child's node id, or nothing when the parent is not there. */
    method AddChild(parentNodeId: string, link: string, moduleId: string) returns (r: Outcome<Option<string>>)
      requires link in CONNECTABLE_KEYS
      modifies this
      ensures selectedNodeId == old(selectedNodeId) && activeAgentId == old(activeAgentId)
      ensures old(ActiveWorkflow()).None? ==> r == Ok(None) && workflow == old(workflow) && dirty == old(dirty)
      ensures r.Ok? && r.value.Some? ==>
                && workflow.Some? && dirty
                && Get(workflow.value, Parse(r.value.value)) == Some(One(Step(map["module" := Data(moduleId)])))
                && Added(old(workflow).value, workflow.value, parentNodeId, link, moduleId, r.value.value)
      ensures old(ActiveWorkflow()).Some? ==>
                match Mutate(old(workflow).value, Parse(parentNodeId), Attach(link, moduleId))
                case Ok(after) =>
                  && r.Ok? && workflow == Some(after)
                  && (r.value.Some? <==> Get(old(workflow).value, Parse(parentNodeId)).Some?)
                  && (r.value.None? ==> after == old(workflow).value && dirty == old(dirty))
                case Err(fault) => r == Err(fault) && workflow == old(workflow) && dirty == old(dirty)
    {
      hide Mutate, AttachTo, Get, HasNewChild;
      if ActiveWorkflow().None? {
        return Ok(None);
      }
      var wf := workflow.value;
      ghost var segments := Parse(parentNodeId);
      var after :- MutateStepByPath(wf, parentNodeId, Attach(link, moduleId));
      var parent := GetStepByPath(wf, parentNodeId);
      workflow := Some(after);
      match parent {
        case Some(One(step)) =>
          assert ':' !in link by { KeysAreColonFree(); }
          AddedChildIsFound(wf, parentNodeId, link, moduleId, step);
          AddingKeepsParent(wf, segments, link, moduleId, step);
          dirty := true;
          return Ok(Some(ChildId(parentNodeId, link, NewIndex(step, link))));
        case Some(_) =>
          AttachNeedsStep(wf, segments, link, moduleId);
          assert false;
        case None =>
          AttachesNothing(wf, segments, link, moduleId);
          return Ok(None);
      }
    }

    /** `removeStep` and `removeChild` */
    method RemoveStep(nodeId: string) returns (r: Outcome<()>)
      modifies this
      ensures activeAgentId == old(activeAgentId)
      ensures old(ActiveWorkflow()).None? ==>
                && workflow == old(workflow) && selectedNodeId == old(selectedNodeId) && dirty == old(dirty)
                && r == if HasAgent() then Err(Throws) else Ok(())
      ensures old(ActiveWorkflow()).Some? ==>
                match Mutate(old(workflow).value, Parse(nodeId), Delete)
                case Ok(after) =>
                  && r == Ok(()) && workflow == Some(after) && dirty
                  && selectedNodeId == if old(selectedNodeId) == Some(nodeId) then None else old(selectedNodeId)
                case Err(fault) =>
                  r == Err(fault) && workflow == old(workflow) && selectedNodeId == old(selectedNodeId) && dirty == old(dirty)
    {
      if !HasAgent() {
        return Ok(());
      }
      if workflow.None? {
        return Err(Throws);
      }
      var after :- MutateStepByPath(workflow.value, nodeId, Delete);
      workflow := Some(after);
      if selectedNodeId == Some(nodeId) {
        selectedNodeId := None;
      }
      dirty := true;
      return Ok(());
    }
  }

  /** Attaching to something that is no step has no result. */
  lemma AttachNeedsStep(wf: Step, path: Path, link: string, moduleId: string)
    requires Get(wf, path).Some? && !Get(wf, path).value.One?
    ensures Mutate(wf, path, Attach(link, moduleId)).Err?
  {
    hide AttachTo;
    if |path| > 1 {
      var v := Top(wf, path[0]).value;
      AttachBelowNeedsStep(v.step, path[1..], link, moduleId);
    }
  }

  lemma {:induction false} AttachBelowNeedsStep(step: Step, path: Path, link: string, moduleId: string)
    requires path != [] && Walk(One(step), path).Some? && !Walk(One(step), path).value.One?
    ensures ChangeBelow(step, path, Attach(link, moduleId)).Err?
    decreases |path|
  {
    hide AttachTo;
    if |path| == 1 {
      OneSegment(One(step), path[0]);
      assert path == [path[0]];
    } else {
      var c := Child(One(step), path[0]).value;
      OnlyStepsHaveChildren(c, path[1]);
      AttachBelowNeedsStep(c.step, path[1..], link, moduleId);
    }
  }

  /** Attaching where nothing is changes nothing. */
  lemma AttachesNothing(wf: Step, path: Path, link: string, moduleId: string)
    requires Get(wf, path).None? && Mutate(wf, path, Attach(link, moduleId)).Ok?
    ensures Mutate(wf, path, Attach(link, moduleId)).value == wf
  {
    hide AttachTo, ChangeBelow;
    if |path| > 1 && Top(wf, path[0]).Some? {
      var c := Top(wf, path[0]).value;
      if wf.fields[path[0].key].Many? {
        AttachesNothingBelow(c.step, path[1..], link, moduleId);
        PutBackSame(wf, path[0], ChangeBelow(c.step, path[1..], Attach(link, moduleId)).value);
      }
    }
  }

  lemma {:induction false} AttachesNothingBelow(step: Step, path: Path, link: string, moduleId: string)
    requires path != [] && Walk(One(step), path).None? && ChangeBelow(step, path, Attach(link, moduleId)).Ok?
    ensures ChangeBelow(step, path, Attach(link, moduleId)).value == step
    decreases |path|
  {
    hide AttachTo, PutBack;
    if |path| == 1 {
      OneSegment(One(step), path[0]);
      assert path == [path[0]];
    } else {
      match Child(One(step), path[0])
      case Some(One(s)) =>
        AttachesNothingBelow(s, path[1..], link, moduleId);
        PutBackSame(step, path[0], ChangeBelow(s, path[1..], Attach(link, moduleId)).value);
      case _ =>
    }
  }
}
