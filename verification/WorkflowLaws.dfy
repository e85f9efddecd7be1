/** What the editor can rely on: a change shows where it was made and nowhere else. */
module WorkflowLaws {
  import opened Wrappers
  import opened WorkflowTree
  import Text

  // ---- Walking ----

  lemma {:induction false} WalkConcat(v: Value, p: Path, q: Path)
    ensures Walk(v, p + q) == match Walk(v, p) case None => None case Some(w) => Walk(w, q)
    decreases |p|
  {
    hide Child;
    if p == [] {
      assert p + q == q;
    } else {
      assert (p + q)[1..] == p[1..] + q;
      if Child(v, p[0]).Some? {
        WalkConcat(Child(v, p[0]).value, p[1..], q);
      }
    }
  }

  lemma GetConcat(wf: Step, p: Path, q: Path)
    requires p != []
    ensures Get(wf, p + q) == match Get(wf, p) case None => None case Some(v) => Walk(v, q)
  {
    hide Top, Walk;
    assert (p + q)[1..] == p[1..] + q;
    if Top(wf, p[0]).Some? {
      WalkConcat(Top(wf, p[0]).value, p[1..], q);
    }
  }

  // ---- A change shows at its path ----

  /** What updating a step, or attaching a child to it, makes of it. */
  function Changed(step: Step, change: Change): Outcome<Step>
    requires !change.Delete?
  {
    match change
    case Merge(updates) => Ok(Step(step.fields + updates))
    case Attach(link, moduleId) => AttachTo(step, link, moduleId)
  }

  lemma LastShows(step: Step, seg: Segment, change: Change, was: Step)
    requires !change.Delete? && Child(One(step), seg) == Some(One(was))
    ensures Changed(was, change).Err? ==> ChangeLast(step, seg, change) == Err(Changed(was, change).error)
    ensures Changed(was, change).Ok? ==>
              && ChangeLast(step, seg, change).Ok?
              && Child(One(ChangeLast(step, seg, change).value), seg) == Some(One(Changed(was, change).value))
  {
    hide AttachTo;
  }

  lemma PutBackShows(fields: map<string, Value>, seg: Segment, with: Step)
    requires Child(One(Step(fields)), seg).Some? && Child(One(Step(fields)), seg).value.One?
    ensures Child(One(Step(fields[seg.key := PutBack(fields[seg.key], seg.idx, with)])), seg) == Some(One(with))
  {
  }

  lemma {:induction false} BelowShows(step: Step, path: Path, change: Change, was: Step)
    requires path != [] && !change.Delete? && Walk(One(step), path) == Some(One(was))
    ensures Changed(was, change).Err? ==> ChangeBelow(step, path, change) == Err(Changed(was, change).error)
    ensures Changed(was, change).Ok? ==>
              && ChangeBelow(step, path, change).Ok?
              && Walk(One(ChangeBelow(step, path, change).value), path) == Some(One(Changed(was, change).value))
    decreases |path|
  {
    hide Child, ChangeLast, PutBack, Changed;
    if |path| == 1 {
      LastShows(step, path[0], change, was);
    } else {
      var c := Child(One(step), path[0]).value;
      OnlyStepsHaveChildren(c, path[1]);
      BelowShows(c.step, path[1..], change, was);
      if Changed(was, change).Ok? {
        PutBackShows(step.fields, path[0], ChangeBelow(c.step, path[1..], change).value);
      }
    }
  }

  lemma OnlyStepsHaveChildren(v: Value, seg: Segment)
    ensures Child(v, seg).Some? ==> v.One?
  {
  }

  /** Update then get gives the merged step; attach then get gives the step with the new
      child; both fail exactly when changing the step itself fails. */
  lemma ChangeShows(wf: Step, path: Path, change: Change, was: Step)
    requires !change.Delete? && Get(wf, path) == Some(One(was))
    ensures Changed(was, change).Err? ==> Mutate(wf, path, change) == Err(Changed(was, change).error)
    ensures Changed(was, change).Ok? ==>
              && Mutate(wf, path, change).Ok?
              && Get(Mutate(wf, path, change).value, path) == Some(One(Changed(was, change).value))
  {
    hide ChangeBelow, AttachTo;
    var v := Top(wf, path[0]).value;
    if |path| > 1 {
      BelowShows(v.step, path[1..], change, was);
    }
  }

  /** Below an updated step only the updated keys look different. */
  lemma UpdateKeepsOtherKeys(wf: Step, path: Path, updates: map<string, Value>, was: Step, below: Path)
    requires Get(wf, path) == Some(One(was)) && below != [] && below[0].key !in updates
    ensures Mutate(wf, path, Merge(updates)).Ok?
    ensures Get(Mutate(wf, path, Merge(updates)).value, path + below) == Get(wf, path + below)
  {
    hide Mutate;
    ChangeShows(wf, path, Merge(updates), was);
    GetConcat(wf, path, below);
    GetConcat(Mutate(wf, path, Merge(updates)).value, path, below);
  }

  // ---- A change shows nowhere else ----

  /** The two segments lead to different places of every step. */
  predicate Apart(a: Segment, b: Segment) {
    a.key != b.key || (a.idx != b.idx && a.idx != Star && b.idx != Star)
  }

  /** A change at `path` does not reach `other`: they part before either ends, and a
      deletion does not shift the list `other` goes through. */
  predicate Clear(path: Path, other: Path, change: Change)
    decreases |path|
  {
    && path != [] && other != []
    && if path[0] == other[0] then Clear(path[1..], other[1..], change)
       else if change.Delete? && |path| == 1 then path[0].key != other[0].key
       else Apart(path[0], other[0])
  }

  lemma LastElsewhere(step: Step, seg: Segment, change: Change, other: Segment)
    requires seg != other && Clear([seg], [other], change) && ChangeLast(step, seg, change).Ok?
    ensures Child(One(ChangeLast(step, seg, change).value), other) == Child(One(step), other)
  {
    hide AttachTo, Splice;
  }

  lemma PutBackElsewhere(fields: map<string, Value>, seg: Segment, with: Step, other: Segment)
    requires Apart(seg, other) && Child(One(Step(fields)), seg).Some? && Child(One(Step(fields)), seg).value.One?
    ensures Child(One(Step(fields[seg.key := PutBack(fields[seg.key], seg.idx, with)])), other) == Child(One(Step(fields)), other)
  {
  }

  lemma {:induction false} BelowElsewhere(step: Step, path: Path, change: Change, other: Path)
    requires Clear(path, other, change) && ChangeBelow(step, path, change).Ok?
    ensures Walk(One(ChangeBelow(step, path, change).value), other) == Walk(One(step), other)
    decreases |path|
  {
    hide Child, ChangeLast, PutBack, Apart;
    if |path| == 1 {
      assert Clear(path[1..], other[1..], change) == false;
      assert Clear([path[0]], [other[0]], change) by { ClearHeads(path, other, change); }
      LastElsewhere(step, path[0], change, other[0]);
    } else if Child(One(step), path[0]).Some? && Child(One(step), path[0]).value.One? {
      var c := Child(One(step), path[0]).value;
      var below := ChangeBelow(c.step, path[1..], change).value;
      if path[0] == other[0] {
        BelowElsewhere(c.step, path[1..], change, other[1..]);
        PutBackShows(step.fields, path[0], below);
      } else {
        PutBackElsewhere(step.fields, path[0], below, other[0]);
      }
    }
  }

  lemma ClearHeads(path: Path, other: Path, change: Change)
    requires |path| == 1 && Clear(path, other, change)
    ensures path[0] != other[0] && Clear([path[0]], [other[0]], change)
  {
    assert [path[0]][1..] == [];
  }

  /** Any change that succeeds leaves every clear path as it was. */
  lemma ChangeIsLocal(wf: Step, path: Path, change: Change, other: Path)
    requires Clear(path, other, change) && Mutate(wf, path, change).Ok?
    ensures Get(Mutate(wf, path, change).value, other) == Get(wf, other)
  {
    hide ChangeBelow, AttachTo, Splice, Walk;
    if path[0].key in wf.fields && Truthy(wf.fields[path[0].key]) {
      if |path| == 1 {
        ClearHeads(path, other, change);
      } else {
        var v := Top(wf, path[0]).value;
        if path[0] == other[0] {
          BelowElsewhere(v.step, path[1..], change, other[1..]);
        }
      }
    }
  }

  // ---- Removing ----

  /** A change to a child shows in its parent, and only through the parent's own change. */
  lemma {:induction false} ParentShows(step: Step, path: Path, seg: Segment, change: Change, parent: Step)
    requires Walk(One(step), path) == Some(One(parent)) && ChangeLast(parent, seg, change).Ok?
    ensures ChangeBelow(step, path + [seg], change).Ok?
    ensures Walk(One(ChangeBelow(step, path + [seg], change).value), path) == Some(One(ChangeLast(parent, seg, change).value))
    decreases |path|
  {
    hide Child, ChangeLast, PutBack;
    if path == [] {
      assert path + [seg] == [seg];
    } else {
      var c := Child(One(step), path[0]).value;
      assert (path + [seg])[1..] == path[1..] + [seg];
      if |path| > 1 {
        OnlyStepsHaveChildren(c, path[1]);
      }
      ParentShows(c.step, path[1..], seg, change, parent);
      PutBackShows(step.fields, path[0], ChangeBelow(c.step, path[1..] + [seg], change).value);
    }
  }

  lemma ParentOf(wf: Step, path: Path, seg: Segment, change: Change, parent: Step)
    requires Get(wf, path) == Some(One(parent)) && ChangeLast(parent, seg, change).Ok?
    ensures Mutate(wf, path + [seg], change).Ok?
    ensures Get(Mutate(wf, path + [seg], change).value, path) == Some(One(ChangeLast(parent, seg, change).value))
  {
    hide ChangeLast, ChangeBelow, ChangeItem;
    var v := Top(wf, path[0]).value;
    assert (path + [seg])[1..] == path[1..] + [seg];
    if |path| > 1 {
      OnlyStepsHaveChildren(v, path[1]);
    }
    ParentShows(v.step, path[1..], seg, change, parent);
  }

  /** Where element j of a list was before element i was removed. */
  function Before(i: nat, j: nat): nat { if j < i then j else j + 1 }

  lemma SpliceShifts(steps: seq<Step>, i: nat, j: nat)
    requires i < |steps|
    ensures Item(Many(Splice(steps, At(i))), At(j)) == Item(Many(steps), At(Before(i, j)))
  {
  }

  /** Removing element i of a child list: a path through a later sibling leads to what it
      led to one index higher, and one through an earlier sibling to what it led to. */
  lemma RemoveShifts(wf: Step, path: Path, key: string, i: nat, parent: Step, j: nat, below: Path)
    requires Get(wf, path) == Some(One(parent)) && Get(wf, path + [Segment(key, At(i))]).Some?
    ensures Mutate(wf, path + [Segment(key, At(i))], Delete).Ok?
    ensures Get(Mutate(wf, path + [Segment(key, At(i))], Delete).value, path + [Segment(key, At(j))] + below) ==
            Get(wf, path + [Segment(key, At(Before(i, j)))] + below)
  {
    hide Mutate, Splice;
    var seg := Segment(key, At(i));
    GetConcat(wf, path, [seg]);
    OneSegment(One(parent), seg);
    SpliceShifts(parent.fields[key].steps, i, j);
    ParentOf(wf, path, seg, Delete, parent);
    var after := Mutate(wf, path + [seg], Delete).value;
    GetThrough(after, path, Segment(key, At(j)), below);
    GetThrough(wf, path, Segment(key, At(Before(i, j))), below);
  }

  lemma OneSegment(v: Value, seg: Segment)
    ensures Walk(v, [seg]) == Child(v, seg)
  {
    assert [seg][1..] == [];
  }

  lemma GetThrough(wf: Step, path: Path, seg: Segment, below: Path)
    requires path != []
    ensures Get(wf, path + [seg] + below) ==
            match Get(wf, path)
            case None => None
            case Some(v) => match Child(v, seg) case None => None case Some(c) => Walk(c, below)
  {
    hide Get, Child;
    GetConcat(wf, path + [seg], below);
    GetConcat(wf, path, [seg]);
    if Get(wf, path).Some? {
      OneSegment(Get(wf, path).value, seg);
    }
  }

  /** The same for a step of a stage. */
  lemma RemoveStepShifts(wf: Step, stage: string, i: nat, j: nat, below: Path)
    requires Get(wf, [Segment(stage, At(i))]).Some?
    ensures Mutate(wf, [Segment(stage, At(i))], Delete).Ok?
    ensures Get(Mutate(wf, [Segment(stage, At(i))], Delete).value, [Segment(stage, At(j))] + below) ==
            Get(wf, [Segment(stage, At(Before(i, j)))] + below)
  {
    hide Splice, Walk;
    SpliceShifts(wf.fields[stage].steps, i, j);
    assert ([Segment(stage, At(j))] + below)[1..] == below;
    assert ([Segment(stage, At(Before(i, j)))] + below)[1..] == below;
  }

  /** A removed single child is gone. */
  lemma RemoveUnlinks(wf: Step, path: Path, key: string, parent: Step)
    requires Get(wf, path) == Some(One(parent)) && Get(wf, path + [Segment(key, Star)]).Some?
    ensures Mutate(wf, path + [Segment(key, Star)], Delete).Ok?
    ensures Get(Mutate(wf, path + [Segment(key, Star)], Delete).value, path + [Segment(key, Star)]) == None
  {
    hide Mutate;
    var seg := Segment(key, Star);
    GetConcat(wf, path, [seg]);
    OneSegment(One(parent), seg);
    ParentOf(wf, path, seg, Delete, parent);
    var after := Mutate(wf, path + [seg], Delete).value;
    GetConcat(after, path, [seg]);
    OneSegment(Get(after, path).value, seg);
  }

  // ---- Removing by a path that leads nowhere ----

  /** The list a path's last index counts in. */
  function Container(step: Step, path: Path): Option<Value>
    requires path != []
    decreases |path|
  {
    if |path| == 1 then
      if path[0].idx != Star && path[0].key in step.fields then Some(step.fields[path[0].key]) else None
    else match Child(One(step), path[0])
      case Some(One(s)) => Container(s, path[1..])
      case _ => None
  }

  /** `splice` takes an element out although the index is not one of the list. */
  predicate Strays(container: Option<Value>, idx: Index) {
    container.Some? && container.value.Many? && container.value.steps != [] && !(idx.At? && idx.i >= 0)
  }

  lemma SpliceStrays(steps: seq<Step>, idx: Index)
    requires Item(Many(steps), idx).None?
    ensures Splice(steps, idx) == steps <==> !Strays(Some(Many(steps)), idx)
  {
    if Strays(Some(Many(steps)), idx) {
      assert |Splice(steps, idx)| == |steps| - 1;
    }
  }

  lemma PutBackSame(step: Step, seg: Segment, with: Step)
    requires Child(One(step), seg).Some? && Child(One(step), seg).value.One?
    ensures Step(step.fields[seg.key := PutBack(step.fields[seg.key], seg.idx, with)]) == step
            <==> One(with) == Child(One(step), seg).value
  {
    var v := PutBack(step.fields[seg.key], seg.idx, with);
    PutBackShows(step.fields, seg, with);
    if One(with) == Child(One(step), seg).value {
      assert v == step.fields[seg.key];
      assert step.fields[seg.key := v] == step.fields;
    }
  }

  lemma {:induction false} BelowRemovesNothing(step: Step, path: Path)
    requires path != [] && Walk(One(step), path).None? && ChangeBelow(step, path, Delete).Ok?
    ensures ChangeBelow(step, path, Delete).value == step <==> !Strays(Container(step, path), path[|path| - 1].idx)
    decreases |path|
  {
    hide Child, PutBack, Splice, Strays, Item;
    if |path| == 1 {
      OneSegment(One(step), path[0]);
      assert path == [path[0]];
      LastRemovesNothing(step, path[0]);
    } else {
      match Child(One(step), path[0])
      case Some(One(s)) =>
        BelowRemovesNothing(s, path[1..]);
        PutBackSame(step, path[0], ChangeBelow(s, path[1..], Delete).value);
      case _ => NoneStrays(path[|path| - 1].idx);
    }
  }

  lemma NoneStrays(idx: Index)
    ensures !Strays(None, idx)
  {
  }

  lemma LastRemovesNothing(step: Step, seg: Segment)
    requires Child(One(step), seg).None? && ChangeLast(step, seg, Delete).Ok?
    ensures ChangeLast(step, seg, Delete).value == step <==> !Strays(Container(step, [seg]), seg.idx)
  {
    hide Splice;
    if seg.key in step.fields && step.fields[seg.key].Many? && seg.idx != Star {
      var v := step.fields[seg.key];
      SpliceStrays(v.steps, seg.idx);
      var after := Many(Splice(v.steps, seg.idx));
      assert step.fields[seg.key := after][seg.key] == after;
      if after == v {
        assert step.fields[seg.key := after] == step.fields;
      }
    }
  }

  /** Removing by a path that leads to no step changes nothing, if and only if the last
      index is a number that is not negative, or there is no list to count in. */
  lemma RemovesNothing(wf: Step, path: Path)
    requires path != [] && Get(wf, path).None? && Mutate(wf, path, Delete).Ok?
    ensures Mutate(wf, path, Delete).value == wf <==>
            !Strays(if |path| == 1 then (if path[0].key in wf.fields then Some(wf.fields[path[0].key]) else None)
                    else if Top(wf, path[0]).Some? then Container(Top(wf, path[0]).value.step, path[1..]) else None,
                    path[|path| - 1].idx)
  {
    hide Splice, ChangeBelow, Container;
    if path[0].key in wf.fields && Truthy(wf.fields[path[0].key]) {
      var v := wf.fields[path[0].key];
      if |path| == 1 {
        SpliceStrays(v.steps, path[0].idx);
        var after := Many(Splice(v.steps, path[0].idx));
        assert wf.fields[path[0].key := after][path[0].key] == after;
        if after == v {
          assert wf.fields[path[0].key := after] == wf.fields;
        }
      } else {
        var c := Top(wf, path[0]).value;
        BelowRemovesNothing(c.step, path[1..]);
        PutBackSame(wf, path[0], ChangeBelow(c.step, path[1..], Delete).value);
      }
    }
  }

  lemma ParsePair(key: string, index: string)
    requires ':' !in key && ':' !in index
    ensures Parse(key + [':'] + index) == [Segment(key, ParseIndex(index))]
  {
    hide ParseIndex;
    Text.SplitStep(key, index, ':');
    Text.SplitStep(index, "", ':');
    var parts := [key, index];
    assert Text.Split(key + [':'] + index, ':') == parts && parts[2..] == [];
    assert Pairs(parts) == [Segment(key, ParseIndex(index))] + Pairs([]);
  }

  /** It does happen: a node id whose index is no number leads to no step, and removing
      it takes away the first step of the stage. */
  lemma RemovingNoStepRemovesTheFirst(first: Step, second: Step)
    ensures var wf := Step(map["context" := Many([first, second])]);
            && Get(wf, Parse("context:x")) == None
            && Mutate(wf, Parse("context:x"), Delete) == Ok(Step(map["context" := Many([second])]))
  {
    hide Parse;
    ParsePair("context", "x");
    assert ParseIndex("x") == NotANumber;
    assert "context" + [':'] + "x" == "context:x";
    assert Splice([first, second], NotANumber) == [second];
    assert map["context" := Many([first, second])]["context" := Many([second])] == map["context" := Many([second])];
  }

  // ---- Adding a child ----

  /** The place a new child takes. */
  function NewIndex(step: Step, link: string): Index {
    if !IsListKey(link) then Star
    else if link in step.fields && step.fields[link].Many? then At(|step.fields[link].steps|) else At(0)
  }

  /** The attached child is found at its new place; a list keeps its other elements, and
      every other key what it had. */
  lemma AttachedShows(step: Step, link: string, moduleId: string, seg: Segment)
    requires AttachTo(step, link, moduleId).Ok?
    ensures var after := One(AttachTo(step, link, moduleId).value);
            && Child(after, Segment(link, NewIndex(step, link))) == Some(One(NewStep(moduleId)))
            && (seg.key != link || (IsListKey(link) && seg.idx != Star && seg.idx != NewIndex(step, link)) ==>
                  Child(after, seg) == Child(One(step), seg))
  {
  }

  /** The node id `addChild` returns, read as a path, goes one segment further. */
  lemma NewIdExtends(nodeId: string, link: string, idx: Index)
    requires ':' !in link && Printable(idx)
    requires |Text.Split(nodeId, ':')| % 2 == 0
    ensures Parse(nodeId + ":" + link + ":" + IndexText(idx)) == Parse(nodeId) + [Segment(link, idx)]
  {
    var text := IndexText(idx);
    ColonFree(idx);
    IndexRoundTrip(idx);
    Text.SplitStep(link, text, ':');
    Text.SplitStep(text, "", ':');
    assert nodeId + ":" + link + ":" + text == nodeId + [':'] + (link + [':'] + text);
    Text.SplitConcat(nodeId, link + [':'] + text, ':');
    PairsConcat(Text.Split(nodeId, ':'), [link, text]);
    assert Text.Split(link + [':'] + text, ':') == [link, text];
    assert Pairs([link, text]) == [Segment(link, idx)] + Pairs([link, text][2..]);
  }

  lemma {:induction false} PairsConcat(a: seq<string>, b: seq<string>)
    requires |a| % 2 == 0
    ensures Pairs(a + b) == Pairs(a) + Pairs(b)
    decreases |a|
  {
    hide ParseIndex;
    if a == [] {
      assert a + b == b;
    } else {
      PairsConcat(a[2..], b);
      assert (a + b)[2..] == a[2..] + b;
    }
  }

  /** A node id that leads to a step is made of pairs. */
  lemma ResolvedIdHasPairs(wf: Step, nodeId: string)
    requires Get(wf, Parse(nodeId)).Some?
    ensures |Text.Split(nodeId, ':')| % 2 == 0
  {
    hide Top, Child, Get, Pairs;
    var parts := Text.Split(nodeId, ':');
    var path := Pairs(parts);
    if |parts| % 2 == 1 {
      OddEndsWithNoNumber(parts);
      var n := |path| - 1;
      assert path == path[..n] + [path[n]];
      if n > 0 {
        GetConcat(wf, path[..n], [path[n]]);
        if Get(wf, path[..n]).Some? {
          OneSegment(Get(wf, path[..n]).value, path[n]);
          NoNumberLeadsNowhere(wf, Get(wf, path[..n]).value, path[n]);
        }
      } else {
        NoNumberLeadsNowhere(wf, One(wf), path[0]);
        assert Get(wf, path).None? by { GetOne(wf, path[0]); assert path == [path[0]]; }
      }
    }
  }

  lemma GetOne(wf: Step, seg: Segment)
    ensures Get(wf, [seg]) == Top(wf, seg)
  {
    assert [seg][1..] == [];
  }

  lemma NoNumberLeadsNowhere(wf: Step, v: Value, seg: Segment)
    requires seg.idx == NotANumber
    ensures Child(v, seg).None? && Top(wf, seg).None?
  {
  }

  lemma {:induction false} OddEndsWithNoNumber(parts: seq<string>)
    requires |parts| % 2 == 1
    ensures Pairs(parts) != [] && Pairs(parts)[|Pairs(parts)| - 1].idx == NotANumber
    decreases |parts|
  {
    hide ParseIndex;
    if |parts| > 1 {
      OddEndsWithNoNumber(parts[2..]);
    }
  }

  /** `addChild` on a node that is there: it fails only if the link holds something that
      is no array where an array belongs; otherwise the returned id leads to the child. */
  lemma AddedChildIsFound(wf: Step, nodeId: string, link: string, moduleId: string, was: Step)
    requires Get(wf, Parse(nodeId)) == Some(One(was)) && ':' !in link
    ensures var newId := nodeId + ":" + link + ":" + IndexText(NewIndex(was, link));
            var change := Attach(link, moduleId);
            if AttachTo(was, link, moduleId).Err? then Mutate(wf, Parse(nodeId), change).Err?
            else
              && Mutate(wf, Parse(nodeId), change).Ok?
              && Get(Mutate(wf, Parse(nodeId), change).value, Parse(newId)) == Some(One(Step(map["module" := Data(moduleId)])))
  {
    hide Get, Mutate, AttachTo, Parse, Child;
    var path := Parse(nodeId);
    ChangeShows(wf, path, Attach(link, moduleId), was);
    ResolvedIdHasPairs(wf, nodeId);
    if AttachTo(was, link, moduleId).Ok? {
      var after := Mutate(wf, path, Attach(link, moduleId)).value;
      var seg := Segment(link, NewIndex(was, link));
      AttachedShows(was, link, moduleId, seg);
      NewIdExtends(nodeId, link, NewIndex(was, link));
      ParsedIsNonEmpty(nodeId);
      GetConcat(after, path, [seg]);
      OneSegment(One(AttachTo(was, link, moduleId).value), seg);
    }
  }

  lemma ParsedIsNonEmpty(nodeId: string)
    ensures Parse(nodeId) != []
  {
  }
}
