/** What a change leaves alone, field by field: fields that no path can see, such as a setting
    that is false, are kept as well. And what a change makes where no step is. */
module WorkflowFrames {
  import opened Wrappers
  import opened WorkflowTree
  import opened WorkflowLaws
  import Text

  // ---- The step that is changed ----

  /** The elements a list link holds. */
  function Elements(step: Step, link: string): seq<Step> {
    if link in step.fields && step.fields[link].Many? then step.fields[link].steps else []
  }

  /** A list link that holds something that is neither a list nor null cannot be appended to. */
  predicate Blocked(step: Step, link: string) {
    link != "fallback" && link != "next_agent" && link in step.fields
    && !step.fields[link].Many? && step.fields[link] != Falsy(true)
  }

  /** A step with a new child: at the end of the list, or in place of the single link, and
      every other field is as it was. */
  predicate HasNewChild(before: Step, after: Step, link: string, moduleId: string) {
    var child := Step(map["module" := Data(moduleId)]);
    && after.fields - {link} == before.fields - {link} && link in after.fields
    && after.fields[link] ==
       if link == "fallback" || link == "next_agent" then One(child) else Many(Elements(before, link) + [child])
  }

  lemma AttachedStep(step: Step, link: string, moduleId: string)
    ensures AttachTo(step, link, moduleId).Err? <==> Blocked(step, link)
    ensures AttachTo(step, link, moduleId).Ok? ==> HasNewChild(step, AttachTo(step, link, moduleId).value, link, moduleId)
  {
  }

  /** `addChild` changes nothing of the parent but the link. */
  lemma AddingKeepsParent(wf: Step, path: Path, link: string, moduleId: string, was: Step)
    requires Get(wf, path) == Some(One(was))
    ensures Mutate(wf, path, Attach(link, moduleId)).Err? <==> Blocked(was, link)
    ensures !Blocked(was, link) ==>
              exists now :: Get(Mutate(wf, path, Attach(link, moduleId)).value, path) == Some(One(now))
                            && HasNewChild(was, now, link, moduleId)
  {
    hide Get, Mutate, AttachTo, HasNewChild;
    ChangeShows(wf, path, Attach(link, moduleId), was);
    AttachedStep(was, link, moduleId);
  }

  /** Removing a single child changes nothing of the parent but the link. */
  lemma UnlinkingKeepsParent(wf: Step, path: Path, key: string, parent: Step)
    requires Get(wf, path) == Some(One(parent)) && Get(wf, path + [Segment(key, Star)]).Some?
    ensures Mutate(wf, path + [Segment(key, Star)], Delete).Ok?
    ensures Get(Mutate(wf, path + [Segment(key, Star)], Delete).value, path) == Some(One(Step(parent.fields - {key})))
  {
    hide Mutate, Get;
    var seg := Segment(key, Star);
    assert path != [] by { PathIsThere(wf, path); }
    GetConcat(wf, path, [seg]);
    OneSegment(One(parent), seg);
    ParentOf(wf, path, seg, Delete, parent);
  }

  /** Removing element i of a child list takes that element out, and nothing else of the parent. */
  lemma RemovingKeepsParent(wf: Step, path: Path, key: string, i: nat, parent: Step)
    requires Get(wf, path) == Some(One(parent)) && Get(wf, path + [Segment(key, At(i))]).Some?
    ensures key in parent.fields && parent.fields[key].Many? && i < |parent.fields[key].steps|
    ensures Mutate(wf, path + [Segment(key, At(i))], Delete).Ok?
    ensures var steps := parent.fields[key].steps;
            Get(Mutate(wf, path + [Segment(key, At(i))], Delete).value, path) ==
            Some(One(Step(parent.fields[key := Many(steps[..i] + steps[i + 1..])])))
  {
    hide Mutate, Get;
    var seg := Segment(key, At(i));
    assert path != [] by { PathIsThere(wf, path); }
    GetConcat(wf, path, [seg]);
    OneSegment(One(parent), seg);
    ParentOf(wf, path, seg, Delete, parent);
  }

  lemma PathIsThere(wf: Step, path: Path)
    requires Get(wf, path).Some?
    ensures path != []
  {
  }

  /** The same for a step of a stage. */
  lemma RemovingKeepsStages(wf: Step, stage: string, i: nat)
    requires Get(wf, [Segment(stage, At(i))]).Some?
    ensures stage in wf.fields && wf.fields[stage].Many? && i < |wf.fields[stage].steps|
    ensures var steps := wf.fields[stage].steps;
            Mutate(wf, [Segment(stage, At(i))], Delete) == Ok(Step(wf.fields[stage := Many(steps[..i] + steps[i + 1..])]))
  {
    GetOne(wf, Segment(stage, At(i)));
  }

  // ---- The steps on the way ----

  /** The two steps have the same fields apart from one. */
  predicate SameBut(before: Step, after: Step, key: string) { after.fields - {key} == before.fields - {key} }

  lemma ChangeLastKeeps(step: Step, seg: Segment, change: Change)
    requires ChangeLast(step, seg, change).Ok?
    ensures SameBut(step, ChangeLast(step, seg, change).value, seg.key)
  {
    hide ChangeItem, ChangeLink;
  }

  lemma {:induction false} BelowKeepsFields(step: Step, path: Path, change: Change, k: nat, at: Step)
    requires k < |path| && ChangeBelow(step, path, change).Ok? && Walk(One(step), path[..k]) == Some(One(at))
    ensures exists now :: Walk(One(ChangeBelow(step, path, change).value), path[..k]) == Some(One(now)) && SameBut(at, now, path[k].key)
    decreases |path|
  {
    hide Child, ChangeLast, PutBack;
    var after := ChangeBelow(step, path, change).value;
    if k == 0 {
      TopKeepsFields(step, path, change);
      assert Walk(One(after), path[..0]) == Some(One(after));
    } else {
      assert path[..k][0] == path[0] && path[..k][1..] == path[1..][..k - 1];
      StepOnTheWay(step, path[..k]);
      var c := Child(One(step), path[0]).value.step;
      BelowKeepsFields(c, path[1..], change, k - 1, at);
      PutBackShows(step.fields, path[0], ChangeBelow(c, path[1..], change).value);
    }
  }

  lemma StepOnTheWay(step: Step, path: Path)
    requires path != [] && Walk(One(step), path).Some? && Walk(One(step), path).value.One?
    ensures Child(One(step), path[0]).Some? && Child(One(step), path[0]).value.One?
  {
    if |path| > 1 {
      OnlyStepsHaveChildren(Child(One(step), path[0]).value, path[1]);
    }
  }

  lemma TopKeepsFields(step: Step, path: Path, change: Change)
    requires path != [] && ChangeBelow(step, path, change).Ok?
    ensures SameBut(step, ChangeBelow(step, path, change).value, path[0].key)
  {
    hide Child, ChangeLast, PutBack;
    if |path| == 1 {
      ChangeLastKeeps(step, path[0], change);
    }
  }

  /** Whatever is changed, a step on the way to it keeps all its fields but the one that leads
      there, and so does the workflow. */
  lemma WayKeepsFields(wf: Step, path: Path, change: Change, k: nat, at: Step)
    requires path != [] && Mutate(wf, path, change).Ok?
    requires 0 < k < |path| ==> Get(wf, path[..k]) == Some(One(at))
    ensures SameBut(wf, Mutate(wf, path, change).value, path[0].key)
    ensures 0 < k < |path| ==>
              exists now :: Get(Mutate(wf, path, change).value, path[..k]) == Some(One(now)) && SameBut(at, now, path[k].key)
  {
    hide ChangeBelow, ChangeItem, Walk;
    if 0 < k < |path| {
      var v := Top(wf, path[0]).value;
      assert path[..k][0] == path[0] && path[..k][1..] == path[1..][..k - 1];
      assert v.One? by { TopIsStep(wf, path[0]); }
      BelowKeepsFields(v.step, path[1..], change, k - 1, at);
    }
  }

  lemma TopIsStep(wf: Step, seg: Segment)
    ensures Top(wf, seg).Some? ==> Top(wf, seg).value.One?
  {
  }

  // ---- Updating where no step is ----

  /** The last segment counts in a list that ends just before it. */
  predicate IsNext(v: Value, idx: Index) { v.Many? && idx == At(|v.steps|) }

  lemma LastUpdatesNothing(step: Step, seg: Segment, updates: map<string, Value>)
    requires Child(One(step), seg).None? && ChangeLast(step, seg, Merge(updates)).Ok?
    ensures var after := ChangeLast(step, seg, Merge(updates)).value;
            if seg.key in step.fields && IsNext(step.fields[seg.key], seg.idx)
            then after == Step(step.fields[seg.key := Many(step.fields[seg.key].steps + [Step(updates)])])
            else after == step
  {
  }

  lemma {:induction false} BelowUpdatesNothing(step: Step, path: Path, updates: map<string, Value>)
    requires path != [] && Walk(One(step), path).None? && ChangeBelow(step, path, Merge(updates)).Ok?
    ensures var after := ChangeBelow(step, path, Merge(updates)).value;
            after == step || Walk(One(after), path) == Some(One(Step(updates)))
    decreases |path|
  {
    hide Child, PutBack, ChangeLast;
    if |path| == 1 {
      OneSegment(One(step), path[0]);
      assert path == [path[0]];
      LastUpdatesNothing(step, path[0], updates);
      OneSegment(One(ChangeBelow(step, path, Merge(updates)).value), path[0]);
      if path[0].key in step.fields && IsNext(step.fields[path[0].key], path[0].idx) {
        AppendedIsFound(step, path[0], Step(updates));
      }
    } else {
      match Child(One(step), path[0])
      case Some(One(s)) =>
        BelowUpdatesNothing(s, path[1..], updates);
        PutBackSame(step, path[0], ChangeBelow(s, path[1..], Merge(updates)).value);
        PutBackShows(step.fields, path[0], ChangeBelow(s, path[1..], Merge(updates)).value);
      case _ =>
    }
  }

  lemma AppendedIsFound(step: Step, seg: Segment, new_: Step)
    requires seg.key in step.fields && IsNext(step.fields[seg.key], seg.idx)
    ensures Child(One(Step(step.fields[seg.key := Many(step.fields[seg.key].steps + [new_])])), seg) == Some(One(new_))
  {
  }

  /** Updating by a path that leads to no step changes nothing, or makes a new step at the end
      of the list the path's last index counts in, with just the updates. */
  lemma UpdateMakesAtMostOne(wf: Step, path: Path, updates: map<string, Value>)
    requires Get(wf, path).None? && Mutate(wf, path, Merge(updates)).Ok?
    ensures var after := Mutate(wf, path, Merge(updates)).value;
            after == wf || Get(after, path) == Some(One(Step(updates)))
  {
    hide ChangeBelow, Walk;
    if path != [] && path[0].key in wf.fields && Truthy(wf.fields[path[0].key]) {
      if |path| == 1 {
        WalkNowhere(One(Step(updates)));
        assert path[1..] == [];
        if Top(wf, path[0]).Some? { WalkNowhere(Top(wf, path[0]).value); }
      } else {
        TopIsStep(wf, path[0]);
        var s := Top(wf, path[0]).value.step;
        BelowUpdatesNothing(s, path[1..], updates);
        PutBackSame(wf, path[0], ChangeBelow(s, path[1..], Merge(updates)).value);
      }
    }
  }

  lemma WalkNowhere(v: Value)
    ensures Walk(v, []) == Some(v)
  {
  }

  // ---- Indices ----

  lemma {:induction false} SpaceIsTrimmed(space: string, rest: string)
    requires (forall c :: c in space ==> c in " \t\n\r") && (rest != "" ==> rest[0] !in " \t\n\r")
    ensures TrimStart(space + rest) == rest
  {
    if space == "" {
      assert space + rest == rest;
    } else {
      assert (space + rest)[1..] == space[1..] + rest && space[0] in space;
      SpaceIsTrimmed(space[1..], rest);
    }
  }

  lemma {:induction false} DigitsAreTaken(digits: string, rest: string)
    requires Text.AllDigits(digits) && (rest != "" ==> !Text.IsDigit(rest[0]))
    ensures Text.Digits(digits + rest) == digits
  {
    if digits == "" {
      assert digits + rest == rest;
    } else {
      assert (digits + rest)[1..] == digits[1..] + rest;
      DigitsAreTaken(digits[1..], rest);
    }
  }

  /** `parseInt` reads the digits a text starts with, after white space and a sign, whatever
      follows them; without digits it gives no number. */
  lemma IndexIsRead(space: string, sign: string, digits: string, rest: string)
    requires forall c :: c in space ==> c in " \t\n\r"
    requires sign in ["", "+", "-"] && Text.AllDigits(digits) && (rest != "" ==> !Text.IsDigit(rest[0]))
    requires digits == "" && sign == "" ==> rest == "" || rest[0] !in " \t\n\r+-"
    ensures ParseInt(space + sign + digits + rest) ==
            if digits == "" then NotANumber
            else At(if sign == "-" then -(Text.ParseDecimal(digits) as int) else Text.ParseDecimal(digits))
  {
    hide TrimStart, Text.Digits;
    var text := sign + digits + rest;
    assert !Text.IsDigit(' ') && !Text.IsDigit('\t') && !Text.IsDigit('\n') && !Text.IsDigit('\r');
    assert !Text.IsDigit('+') && !Text.IsDigit('-');
    assert text != "" ==> text[0] !in " \t\n\r" by {
      if sign == "" { assert text == digits + rest; }
    }
    assert space + text == space + sign + digits + rest;
    SpaceIsTrimmed(space, text);
    DigitsAreTaken(digits, rest);
    if sign != "" { assert text[1..] == digits + rest; } else { assert text == digits + rest; }
  }
}
