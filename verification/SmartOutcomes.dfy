/** What a turn of the smart agent does with its calls, in terms of the calls, the outputs and
    the user's answer: which calls are executed and how often, which outputs keep a call from
    being executed again, and which requests are about the same decision. */
module SmartOutcomes {
  import opened Wrappers
  import opened ToolArguments
  import opened SmartRun
  import Footnotes
  import Text

  // ---- Outputs ----

  /** Nothing but white space. */
  predicate IsBlank(s: string) { forall i :: 0 <= i < |s| ==> Footnotes.IsSpace(s[i]) }

  /** A context without anything in it. */
  predicate IsBare(c: Content) {
    && c.chunks == 0 && c.structured == 0 && c.jsonObjects == 0 && c.prompts == 0 && c.images == 0 && c.imageUrls == 0
    && IsBlank(c.summary)
  }

  /** An error, nothing, a blank text, an empty collection, or contexts without content. */
  predicate IsFruitless(output: Output) {
    match output
    case ErrorOutput => true
    case NoOutput => true
    case ContextOutput(c) => IsBare(c)
    case ContextsOutput(cs) => forall i :: 0 <= i < |cs| ==> IsBare(cs[i])
    case TextOutput(text) => IsBlank(text)
    case Collection(size) => size == 0
    case OtherOutput => false
  }

  lemma {:induction false} SkippedIfBlank(s: string)
    ensures Footnotes.SkipSpace(s) == "" <==> IsBlank(s)
  {
    if s != "" {
      SkippedIfBlank(s[1..]);
      assert IsBlank(s) <==> Footnotes.IsSpace(s[0]) && IsBlank(s[1..]) by {
        assert forall i :: 0 <= i < |s[1..]| ==> s[1..][i] == s[i + 1];
      }
    }
  }

  lemma StrippedIfBlank(s: string)
    ensures Strip(s) == "" <==> IsBlank(s)
  {
    SkippedIfBlank(s);
    var t := Footnotes.SkipSpace(s);
    if t != "" {
      assert !Footnotes.IsSpace(t[0]);
      Footnotes.RStripKeepsLast(t, 0);
    }
  }

  lemma BareIfNoContent(c: Content)
    ensures HasContent(c) <==> !IsBare(c)
  {
    hide Strip, IsBlank;
    StrippedIfBlank(c.summary);
  }

  /** `_classify_tool_result` finds failures in errors, and fruitlessness in all else above. */
  lemma ClassifyMeans(output: Output)
    ensures Classify(output) != Useful <==> IsFruitless(output)
    ensures Classify(output) == Failed <==> output.ErrorOutput?
  {
    hide Strip, IsBlank, HasContent, IsBare;
    match output
    case ContextOutput(c) => BareIfNoContent(c);
    case ContextsOutput(cs) =>
      forall i | 0 <= i < |cs| { BareIfNoContent(cs[i]); }
      if c :| c in cs && HasContent(c) {
        var i :| 0 <= i < |cs| && cs[i] == c;
      }
    case TextOutput(text) => StrippedIfBlank(text);
    case _ =>
  }

  // ---- The calls of a turn ----

  /** A call of a tool, and not of the feedback or the completion signal. */
  predicate IsToolCall(call: ToolCall) { call.name != "user_feedback" && call.name != "task_complete" }

  lemma {:induction false} KeysConcat(a: seq<ToolCall>, b: seq<ToolCall>)
    ensures ToolKeysOf(a + b) == ToolKeysOf(a) + ToolKeysOf(b)
    decreases |b|
  {
    hide KeyOf;
    if b == [] {
      assert a + b == a;
    } else {
      assert (a + b)[..|a + b| - 1] == a + b[..|b| - 1];
      KeysConcat(a, b[..|b| - 1]);
    }
  }

  lemma {:induction false} ChosenConcat(a: seq<string>, b: seq<string>, registry: Registry)
    ensures Chosen(a + b, registry) == Chosen(a, registry) + Chosen(b, registry)
    ensures Refused(a + b, registry) == Refused(a, registry) + Refused(b, registry)
    decreases |b|
  {
    hide IsSettled;
    if b == [] {
      assert a + b == a;
    } else {
      assert (a + b)[..|a + b| - 1] == a + b[..|b| - 1];
      ChosenConcat(a, b[..|b| - 1], registry);
    }
  }

  /** What a turn that asks nothing says in its log of one call. */
  function Said(call: ToolCall, registry: Registry, skipped: bool): seq<Event> {
    if !IsToolCall(call) || IsSettled(registry, KeyOf(call)) != skipped then []
    else if skipped then [Skipped(KeyOf(call))] else [Executed(KeyOf(call))]
  }

  /** Of all calls, in their order. */
  function SaidOfAll(calls: seq<ToolCall>, registry: Registry, skipped: bool): seq<Event> {
    if calls == [] then [] else Said(calls[0], registry, skipped) + SaidOfAll(calls[1..], registry, skipped)
  }

  lemma {:induction false} ChosenAreSaid(calls: seq<ToolCall>, registry: Registry)
    ensures Executions(Chosen(ToolKeysOf(calls), registry)) == SaidOfAll(calls, registry, false)
    ensures Skips(Refused(ToolKeysOf(calls), registry)) == SaidOfAll(calls, registry, true)
    decreases |calls|
  {
    hide KeyOf, IsSettled;
    if calls != [] {
      var rest := calls[1..];
      ChosenAreSaid(rest, registry);
      assert calls == [calls[0]] + rest;
      KeysConcat([calls[0]], rest);
      OneCall(calls[0], registry);
      ChosenConcat(ToolKeysOf([calls[0]]), ToolKeysOf(rest), registry);
      ExecutionsConcat(Chosen(ToolKeysOf([calls[0]]), registry), Chosen(ToolKeysOf(rest), registry));
      SkipsConcat(Refused(ToolKeysOf([calls[0]]), registry), Refused(ToolKeysOf(rest), registry));
    }
  }

  lemma OneCall(call: ToolCall, registry: Registry)
    ensures Executions(Chosen(ToolKeysOf([call]), registry)) == Said(call, registry, false)
    ensures Skips(Refused(ToolKeysOf([call]), registry)) == Said(call, registry, true)
  {
    hide KeyOf, IsSettled;
    assert [call][..0] == [];
    if IsToolCall(call) {
      assert ToolKeysOf([call]) == [KeyOf(call)] && [KeyOf(call)][..0] == [];
    }
  }

  lemma ExecutionsConcat(a: seq<string>, b: seq<string>)
    ensures Executions(a + b) == Executions(a) + Executions(b)
  {
  }

  lemma SkipsConcat(a: seq<string>, b: seq<string>)
    ensures Skips(a + b) == Skips(a) + Skips(b)
  {
  }

  /** A turn that asks nothing executes every tool call that is not settled, in order and as
      often as it is made, then says which settled calls it skipped; calls for feedback and
      the completion signal are neither. */
  lemma TurnDoesItsCalls(a: Agent, input: Input)
    requires !HasUnresolvedFeedback(input.calls, a.resolved)
    ensures Turn(a, input).log == a.log + SaidOfAll(input.calls, a.attempted, false) + SaidOfAll(input.calls, a.attempted, true)
  {
    hide FirstUnresolved, HasUnresolvedFeedback, ToolKeysOf, Chosen, Refused, Register, Record, Note, SaidOfAll, Executions, Skips;
    AsksIffUnresolved(input.calls, a.resolved);
    ChosenAreSaid(input.calls, a.attempted);
  }

  // ---- What a turn records ----

  /** The i-th execution of the turn is the last one of the key. */
  predicate LastExecution(before: Agent, after: Agent, i: nat, key: string) {
    && |before.log| + i < |after.log| && after.log[|before.log| + i] == Executed(key)
    && forall j :: |before.log| + i < j < |after.log| ==> after.log[j] != Executed(key)
  }

  lemma {:induction false} LastIsRecorded(keys: seq<string>, outputs: nat -> Output, registry: Registry, i: nat)
    requires i < |keys| && forall j :: i < j < |keys| ==> keys[j] != keys[i]
    ensures keys[i] in Record(keys, outputs, registry)
    ensures Record(keys, outputs, registry)[keys[i]] == Attempt(Classify(outputs(i)), Result(outputs(i)))
  {
    hide Classify;
    var n := |keys| - 1;
    if i < n {
      LastIsRecorded(keys[..n], outputs, registry, i);
    }
  }

  lemma {:induction false} NoteLeavesOthers(keys: seq<string>, registry: Registry, key: string)
    requires key !in keys
    ensures key in Note(keys, registry) <==> key in registry
    ensures key in registry ==> Note(keys, registry)[key] == registry[key]
  {
    if keys != [] {
      assert keys == keys[..|keys| - 1] + [keys[|keys| - 1]];
      NoteLeavesOthers(keys[..|keys| - 1], registry, key);
    }
  }

  /** What is recorded for a call is its last output. So it is settled after the turn exactly
      if that output is fruitless, and failed exactly if it is an error. */
  lemma TurnRecordsOutputs(a: Agent, input: Input, i: nat, key: string)
    requires !HasUnresolvedFeedback(input.calls, a.resolved) && LastExecution(a, Turn(a, input), i, key)
    ensures var after := Turn(a, input).attempted;
            && key in after && after[key].detail == Result(input.outputs(i))
            && (IsSettled(after, key) <==> IsFruitless(input.outputs(i)))
            && (after[key].outcome == Failed <==> input.outputs(i).ErrorOutput?)
  {
    hide FirstUnresolved, HasUnresolvedFeedback, ToolKeysOf, Chosen, Refused, Register, Record, Note, Classify, IsFruitless;
    AsksIffUnresolved(input.calls, a.resolved);
    var keys := ToolKeysOf(input.calls);
    var chosen, refused := Chosen(keys, a.attempted), Refused(keys, a.attempted);
    var log := Turn(a, input).log;
    assert i < |chosen| && chosen[i] == key by {
      assert log == a.log + Executions(chosen) + Skips(refused);
    }
    forall j | i < j < |chosen| ensures chosen[j] != key {
      assert log[|a.log| + j] == Executed(chosen[j]);
    }
    LastIsRecorded(chosen, input.outputs, Register(keys, a.attempted), i);
    ChosenAreNotSettled(keys, a.attempted);
    NoteLeavesOthers(refused, Record(chosen, input.outputs, Register(keys, a.attempted)), key);
    ClassifyMeans(input.outputs(i));
  }

  /** A call whose last output in a turn was fruitless is not executed in any later turn. */
  lemma FruitlessIsNeverRepeated(a: Agent, input: Input, i: nat, key: string, later: seq<Move>)
    requires !HasUnresolvedFeedback(input.calls, a.resolved) && LastExecution(a, Turn(a, input), i, key)
    requires IsFruitless(input.outputs(i)) && forall m :: m in later ==> m.TakeTurn?
    ensures var after := Turn(a, input);
            after.log <= After(after, later).log && Executed(key) !in After(after, later).log[|after.log|..]
  {
    hide Turn, IsFruitless, After, LastExecution, HasUnresolvedFeedback;
    TurnRecordsOutputs(a, input, i, key);
    SettledIsNeverExecuted(Turn(a, input), later, key);
  }

  /** Any other call is executed again in the next turn that makes it and asks nothing. */
  lemma FruitfulIsRepeated(a: Agent, input: Input, i: nat, key: string, next: Input, call: ToolCall)
    requires !HasUnresolvedFeedback(input.calls, a.resolved) && LastExecution(a, Turn(a, input), i, key)
    requires !IsFruitless(input.outputs(i))
    requires !HasUnresolvedFeedback(next.calls, Turn(a, input).resolved)
    requires call in next.calls && IsToolCall(call) && KeyOf(call) == key
    ensures var after := Turn(a, input);
            after.log <= Turn(after, next).log && Executed(key) in Turn(after, next).log[|after.log|..]
  {
    hide Turn, IsFruitless, LastExecution, HasUnresolvedFeedback, KeyOf, SaidOfAll;
    var after := Turn(a, input);
    TurnRecordsOutputs(a, input, i, key);
    TurnDoesItsCalls(after, next);
    SaidOfEach(next.calls, after.attempted, call);
    var said := SaidOfAll(next.calls, after.attempted, false);
    assert Turn(after, next).log[|after.log|..] == said + SaidOfAll(next.calls, after.attempted, true);
  }

  lemma {:induction false} SaidOfEach(calls: seq<ToolCall>, registry: Registry, call: ToolCall)
    requires call in calls && IsToolCall(call) && !IsSettled(registry, KeyOf(call))
    ensures Executed(KeyOf(call)) in SaidOfAll(calls, registry, false)
  {
    hide KeyOf, IsSettled;
    if call != calls[0] {
      SaidOfEach(calls[1..], registry, call);
    }
  }

  // ---- Decisions ----

  /** The user's answer is kept under the decision of the first call that is about an open one. */
  lemma AnswerIsKept(a: Agent, input: Input)
    requires HasUnresolvedFeedback(input.calls, a.resolved)
    ensures exists j :: 0 <= j < |input.calls| && IsOpen(input.calls[j], a.resolved)
              && (forall i :: 0 <= i < j ==> !IsOpen(input.calls[i], a.resolved))
              && var decision := DecisionOf(input.calls[j]).value;
                 && Turn(a, input).log == a.log + [Asked(decision)]
                 && Turn(a, input).resolved ==
                    a.resolved[decision := if input.answer.Some? then input.answer.value else "(No response received)"]
  {
    hide HasUnresolvedFeedback, DecisionOf;
    AsksIffUnresolved(input.calls, a.resolved);
    var j := FirstOpen(input.calls, a.resolved);
  }

  predicate IsOpen(call: ToolCall, resolved: map<string, string>) {
    DecisionOf(call).Some? && DecisionOf(call).value !in resolved
  }

  lemma {:induction false} FirstOpen(calls: seq<ToolCall>, resolved: map<string, string>) returns (j: nat)
    requires FirstUnresolved(calls, resolved).Some?
    ensures j < |calls| && IsOpen(calls[j], resolved) && FirstUnresolved(calls, resolved) == DecisionOf(calls[j])
    ensures forall i :: 0 <= i < j ==> !IsOpen(calls[i], resolved)
  {
    hide DecisionOf;
    if IsOpen(calls[0], resolved) {
      j := 0;
    } else {
      var k := FirstOpen(calls[1..], resolved);
      j := k + 1;
    }
  }

  /** The text argument of a call: its first entry with the name, if that is a non-empty text. */
  lemma {:induction false} ArgumentIsRead(entries: seq<Entry>, key: string, i: nat)
    requires i < |entries| && entries[i].key == key && forall j :: 0 <= j < i ==> entries[j].key != key
    ensures TextArgument(entries, key) ==
            if entries[i].value.Str? && entries[i].value.s != "" then Some(entries[i].value.s) else None
  {
    if i > 0 {
      ArgumentIsRead(entries[1..], key, i - 1);
    }
  }

  lemma {:induction false} NoArgumentIsRead(entries: seq<Entry>, key: string)
    requires forall j :: 0 <= j < |entries| ==> entries[j].key != key
    ensures TextArgument(entries, key) == None
  {
    if entries != [] {
      NoArgumentIsRead(entries[1..], key);
    }
  }

  /** `str.strip`: white space before and after is gone, and no other. */
  lemma StripTrims(s: string) returns (before: string, after: string)
    ensures s == before + Strip(s) + after && IsBlank(before) && IsBlank(after)
    ensures Strip(s) != "" ==> !Footnotes.IsSpace(Strip(s)[0]) && !Footnotes.IsSpace(Strip(s)[|Strip(s)| - 1])
  {
    before := SkippedSpace(s);
    var t := Footnotes.SkipSpace(s);
    after := t[|Footnotes.RStrip(t)|..];
    if Strip(s) != "" { assert Strip(s)[0] == t[0]; }
  }

  lemma {:induction false} SkippedSpace(s: string) returns (before: string)
    ensures s == before + Footnotes.SkipSpace(s) && IsBlank(before)
  {
    if s != "" && Footnotes.IsSpace(s[0]) {
      var tail := SkippedSpace(s[1..]);
      before := [s[0]] + tail;
      assert s == [s[0]] + s[1..];
    } else {
      before := "";
    }
  }

  /** The same letter, in whatever case. */
  predicate SameLetter(c: char, d: char) {
    c == d || ('A' <= c <= 'Z' && d as int == c as int + 32) || ('A' <= d <= 'Z' && c as int == d as int + 32)
  }

  predicate SameLetters(s: string, t: string) { |s| == |t| && forall i :: 0 <= i < |s| ==> SameLetter(s[i], t[i]) }

  lemma {:induction false} LowerIgnoresCase(s: string, t: string)
    ensures Text.Lower(s) == Text.Lower(t) <==> SameLetters(s, t)
  {
    LowerLength(s);
    LowerLength(t);
    if |s| == |t| && s != "" {
      LowerIgnoresCase(s[1..], t[1..]);
      assert SameLetters(s, t) <==> SameLetter(s[0], t[0]) && SameLetters(s[1..], t[1..]) by {
        assert forall i :: 0 <= i < |s[1..]| ==> s[1..][i] == s[i + 1] && t[1..][i] == t[i + 1];
      }
      assert Text.Lower(s)[1..] == Text.Lower(s[1..]) && Text.Lower(t)[1..] == Text.Lower(t[1..]);
    }
  }

  lemma {:induction false} LowerLength(s: string)
    ensures |Text.Lower(s)| == |s|
  {
    if s != "" {
      LowerLength(s[1..]);
    }
  }

  /** A request is about a decision exactly if it is for feedback and asks something. */
  lemma FeedbackDecides(call: ToolCall)
    ensures DecisionOf(call).Some? <==> call.name == "user_feedback" && TextArgument(Arguments(call), "question").Some?
  {
    hide TextArgument;
  }

  /** Two requests that name their decisions are about the same one if the names are equal,
      and two that do not if their questions are, up to case and white space around them. */
  lemma SameDecisionIff(a: ToolCall, b: ToolCall)
    requires DecisionOf(a).Some? && DecisionOf(b).Some?
    ensures var nameOfA, nameOfB := TextArgument(Arguments(a), "decision_id"), TextArgument(Arguments(b), "decision_id");
            var p, q := TextArgument(Arguments(a), "question").value, TextArgument(Arguments(b), "question").value;
            && (nameOfA.Some? && nameOfB.Some? ==> (DecisionOf(a) == DecisionOf(b) <==> nameOfA == nameOfB))
            && (nameOfA.None? && nameOfB.None? ==> (DecisionOf(a) == DecisionOf(b) <==> SameLetters(Strip(p), Strip(q))))
  {
    hide TextArgument, Strip, Text.Lower;
    var p, q := TextArgument(Arguments(a), "question").value, TextArgument(Arguments(b), "question").value;
    LowerIgnoresCase(Strip(p), Strip(q));
    SamePrefix("legacy:", Text.Lower(Strip(p)), Text.Lower(Strip(q)));
  }

  lemma SamePrefix(prefix: string, s: string, t: string)
    ensures prefix + s == prefix + t <==> s == t
  {
    if prefix + s == prefix + t {
      assert s == (prefix + s)[|prefix|..] && t == (prefix + t)[|prefix|..];
    }
  }

  // ---- Over whole runs ----

  lemma TurnKeepsAnswers(a: Agent, input: Input)
    ensures forall d :: d in a.resolved ==> d in Turn(a, input).resolved && Turn(a, input).resolved[d] == a.resolved[d]
  {
    hide FirstUnresolved;
  }

  /** The user's answers are kept as they were given, over all turns and executor calls. */
  lemma {:induction false} AnswersAreKept(a: Agent, moves: seq<Move>)
    ensures forall d :: d in a.resolved ==> d in After(a, moves).resolved && After(a, moves).resolved[d] == a.resolved[d]
    decreases |moves|
  {
    hide Turn;
    if moves != [] {
      AnswersAreKept(a, moves[..|moves| - 1]);
      match moves[|moves| - 1]
      case TakeTurn(input) => TurnKeepsAnswers(After(a, moves[..|moves| - 1]), input);
      case NewExecutor =>
    }
  }

  /** An executor call does not know of attempts made before it. */
  lemma ExecutorStartsFresh(a: Agent, registry: Registry, plans: nat -> bool, o: nat -> Oracles, p: nat, max: nat)
    requires p < max && plans(p)
    ensures PlanAndExecute(a.(attempted := registry), plans, o, p, max) == PlanAndExecute(a, plans, o, p, max)
  {
    hide Loop;
    assert a.(attempted := registry).(attempted := map[]) == a.(attempted := map[]);
  }
}
