/** The smart agent's turns and runs. The language model, the tools and the user are
    oracles: what they say in a run is any sequence of answers. */
module SmartRun {
  import opened Wrappers
  import opened ToolArguments
  import opened ToolKeys
  import Footnotes
  import Text

  // ---- Tool calls ----

  datatype ToolCall = ToolCall(name: string, arguments: Option<seq<Entry>>)

  function Arguments(call: ToolCall): seq<Entry> { if call.arguments.Some? then call.arguments.value else [] }

  function KeyOf(call: ToolCall): string { ToolCallKey(call.name, Arguments(call)) }

  /** A non-empty text argument. */
  function TextArgument(entries: seq<Entry>, key: string): Option<string> {
    if entries == [] then None
    else if entries[0].key == key then
      match entries[0].value case Str(s) => if s == "" then None else Some(s) case _ => None
    else TextArgument(entries[1..], key)
  }

  function Strip(s: string): string { Footnotes.RStrip(Footnotes.SkipSpace(s)) }

  /** The decision a `user_feedback` call with a question is about. */
  function DecisionOf(call: ToolCall): Option<string> {
    if call.name != "user_feedback" then None else
    match TextArgument(Arguments(call), "question")
    case None => None
    case Some(question) =>
      match TextArgument(Arguments(call), "decision_id")
      case Some(id) => Some(id)
      case None => Some("legacy:" + Text.Lower(Strip(question)))
  }

  /** `_has_unresolved_feedback` */
  predicate HasUnresolvedFeedback(calls: seq<ToolCall>, resolved: map<string, string>) {
    exists call :: call in calls && DecisionOf(call).Some? && DecisionOf(call).value !in resolved
  }

  /** The first decision a turn asks the user about. */
  function FirstUnresolved(calls: seq<ToolCall>, resolved: map<string, string>): (r: Option<string>)
    ensures r.Some? ==> r.value !in resolved
  {
    if calls == [] then None
    else if DecisionOf(calls[0]).Some? && DecisionOf(calls[0]).value !in resolved then DecisionOf(calls[0])
    else FirstUnresolved(calls[1..], resolved)
  }

  // ---- Results ----

  datatype Outcome = Useful | Empty | Failed

  /** What a context holds, by the number of its parts. */
  datatype Content = Content(chunks: nat, structured: nat, jsonObjects: nat, prompts: nat, images: nat,
                             imageUrls: nat, summary: string)

  datatype Output =
    | ErrorOutput | NoOutput | ContextOutput(content: Content) | ContextsOutput(contents: seq<Content>)
    | TextOutput(text: string) | Collection(size: nat) | OtherOutput

  predicate HasContent(c: Content) {
    c.chunks > 0 || c.structured > 0 || c.jsonObjects > 0 || c.prompts > 0 || c.images > 0 || c.imageUrls > 0 ||
    Strip(c.summary) != ""
  }

  /** `_classify_tool_result` */
  function Classify(output: Output): Outcome {
    match output
    case ErrorOutput => Failed
    case NoOutput => Empty
    case ContextOutput(c) => if HasContent(c) then Useful else Empty
    case ContextsOutput(cs) => if exists c :: c in cs && HasContent(c) then Useful else Empty
    case TextOutput(text) => if Strip(text) != "" then Useful else Empty
    case Collection(size) => if size > 0 then Useful else Empty
    case OtherOutput => Useful
  }

  // ---- The registry ----

  datatype Detail = Pending | Result(output: Output) | SkipNote

  datatype Attempt = Attempt(outcome: Outcome, detail: Detail)

  type Registry = map<string, Attempt>

  predicate IsSettled(registry: Registry, key: string) {
    key in registry && registry[key].outcome != Useful
  }

  datatype Event = Asked(decision: string) | Executed(key: string) | Skipped(key: string)

  /** The pass that chooses the calls to execute: their keys become pending, in order. */
  function Register(keys: seq<string>, registry: Registry): Registry {
    if keys == [] then registry
    else
      var before := Register(keys[..|keys| - 1], registry);
      var key := keys[|keys| - 1];
      if IsSettled(before, key) then before else before[key := Attempt(Useful, Pending)]
  }

  /** The keys that are executed, in order: those not settled when the turn began. */
  function Chosen(keys: seq<string>, registry: Registry): seq<string> {
    if keys == [] then []
    else Chosen(keys[..|keys| - 1], registry) + if IsSettled(registry, keys[|keys| - 1]) then [] else [keys[|keys| - 1]]
  }

  function Refused(keys: seq<string>, registry: Registry): seq<string> {
    if keys == [] then []
    else Refused(keys[..|keys| - 1], registry) + if IsSettled(registry, keys[|keys| - 1]) then [keys[|keys| - 1]] else []
  }

  /** The results of the executed calls; a later call with the same key wins. */
  function Record(keys: seq<string>, outputs: nat -> Output, registry: Registry): Registry {
    if keys == [] then registry
    else
      var n := |keys| - 1;
      Record(keys[..n], outputs, registry)[keys[n] := Attempt(Classify(outputs(n)), Result(outputs(n)))]
  }

  /** A repeated call leaves a note at its key. */
  function Note(keys: seq<string>, registry: Registry): Registry {
    if keys == [] then registry
    else
      var before := Note(keys[..|keys| - 1], registry);
      var key := keys[|keys| - 1];
      if key in before then before[key := before[key].(detail := SkipNote)] else before
  }

  function Executions(keys: seq<string>): (r: seq<Event>)
    ensures |r| == |keys| && forall i :: 0 <= i < |r| ==> r[i] == Executed(keys[i])
  {
    seq(|keys|, i requires 0 <= i < |keys| => Executed(keys[i]))
  }

  function Skips(keys: seq<string>): (r: seq<Event>)
    ensures |r| == |keys| && forall i :: 0 <= i < |r| ==> r[i] == Skipped(keys[i])
  {
    seq(|keys|, i requires 0 <= i < |keys| => Skipped(keys[i]))
  }

  // ---- A turn ----

  datatype Agent = Agent(attempted: Registry, resolved: map<string, string>, log: seq<Event>)

  /** What the oracles say in a turn: the model's calls, the user's answer if it is asked,
      and the output of each executed call. */
  datatype Input = Input(calls: seq<ToolCall>, answer: Option<string>, outputs: nat -> Output)

  const NO_ANSWER := "(No response received)"

  /** The keys of the calls that are neither feedback nor the completion signal. */
  function ToolKeysOf(calls: seq<ToolCall>): seq<string> {
    if calls == [] then []
    else ToolKeysOf(calls[..|calls| - 1]) +
         (var call := calls[|calls| - 1]; if call.name == "user_feedback" || call.name == "task_complete" then [] else [KeyOf(call)])
  }

  /** `_execute_tool_calls_turn` */
  function Turn(a: Agent, input: Input): Agent {
    match FirstUnresolved(input.calls, a.resolved)
    case Some(decision) =>
      var text := if input.answer.Some? then input.answer.value else NO_ANSWER;
      a.(resolved := a.resolved[decision := text], log := a.log + [Asked(decision)])
    case None =>
      var keys := ToolKeysOf(input.calls);
      var chosen, refused := Chosen(keys, a.attempted), Refused(keys, a.attempted);
      a.(attempted := Note(refused, Record(chosen, input.outputs, Register(keys, a.attempted))),
         log := a.log + Executions(chosen) + Skips(refused))
  }

  // ---- Runs ----

  /** A turn, or the start of another executor call, which has a registry of its own. */
  datatype Move = TakeTurn(input: Input) | NewExecutor

  function After(a: Agent, moves: seq<Move>): Agent {
    if moves == [] then a
    else
      var before := After(a, moves[..|moves| - 1]);
      match moves[|moves| - 1]
      case TakeTurn(input) => Turn(before, input)
      case NewExecutor => before.(attempted := map[])
  }

  const FRESH := Agent(map[], map[], [])

  // ---- Within a turn ----

  /** The user is asked exactly in the turns that request unresolved feedback. */
  lemma {:induction false} AsksIffUnresolved(calls: seq<ToolCall>, resolved: map<string, string>)
    ensures FirstUnresolved(calls, resolved).Some? <==> HasUnresolvedFeedback(calls, resolved)
  {
    hide DecisionOf;
    if calls != [] {
      AsksIffUnresolved(calls[1..], resolved);
      assert calls == [calls[0]] + calls[1..];
    }
  }

  /** A turn that asks executes nothing and changes no attempt; any other turn asks nothing. */
  lemma TurnAsksOrExecutes(a: Agent, input: Input)
    ensures var events := Turn(a, input).log[|a.log|..];
            && a.log <= Turn(a, input).log
            && if HasUnresolvedFeedback(input.calls, a.resolved) then
                 && Turn(a, input).attempted == a.attempted
                 && |events| == 1 && events[0].Asked? && events[0].decision !in a.resolved
                 && events[0].decision in Turn(a, input).resolved
               else
                 && Turn(a, input).resolved == a.resolved
                 && forall e :: e in events ==> !e.Asked?
  {
    hide FirstUnresolved, HasUnresolvedFeedback, ToolKeysOf, Chosen, Refused, Register, Record, Note;
    AsksIffUnresolved(input.calls, a.resolved);
  }

  lemma {:induction false} RegisteredKeys(keys: seq<string>, registry: Registry)
    ensures forall k :: IsSettled(Register(keys, registry), k) <==> IsSettled(registry, k)
    ensures forall k :: IsSettled(registry, k) ==> k in Register(keys, registry) && Register(keys, registry)[k] == registry[k]
    ensures forall k :: k in Register(keys, registry) && Register(keys, registry)[k].detail.Pending? ==>
              k in Chosen(keys, registry) || (k in registry && registry[k].detail.Pending?)
  {
    if keys != [] {
      RegisteredKeys(keys[..|keys| - 1], registry);
    }
  }

  lemma {:induction false} ChosenAreNotSettled(keys: seq<string>, registry: Registry)
    ensures forall k :: k in Chosen(keys, registry) <==> k in keys && !IsSettled(registry, k)
    ensures forall k :: k in Refused(keys, registry) <==> k in keys && IsSettled(registry, k)
  {
    hide IsSettled;
    if keys != [] {
      ChosenAreNotSettled(keys[..|keys| - 1], registry);
      assert keys == keys[..|keys| - 1] + [keys[|keys| - 1]];
    }
  }

  lemma {:induction false} RecordedKeys(keys: seq<string>, outputs: nat -> Output, registry: Registry)
    ensures forall k :: k in keys ==> k in Record(keys, outputs, registry) && Record(keys, outputs, registry)[k].detail.Result?
    ensures forall k :: k !in keys ==> (k in Record(keys, outputs, registry) <==> k in registry)
    ensures forall k :: k !in keys && k in registry ==> Record(keys, outputs, registry)[k] == registry[k]
  {
    if keys != [] {
      RecordedKeys(keys[..|keys| - 1], outputs, registry);
      assert keys == keys[..|keys| - 1] + [keys[|keys| - 1]];
    }
  }

  lemma {:induction false} NotedKeys(keys: seq<string>, registry: Registry)
    ensures Note(keys, registry).Keys == registry.Keys
    ensures forall k :: k in registry ==> Note(keys, registry)[k].outcome == registry[k].outcome
    ensures forall k :: k in registry && Note(keys, registry)[k].detail.Pending? ==> registry[k].detail.Pending?
  {
    if keys != [] {
      NotedKeys(keys[..|keys| - 1], registry);
    }
  }

  predicate NothingPending(registry: Registry) { forall k :: k in registry ==> !registry[k].detail.Pending? }

  /** A settled key stays settled, with its outcome, and is not executed. */
  lemma TurnKeepsSettled(a: Agent, input: Input, key: string)
    requires IsSettled(a.attempted, key)
    ensures IsSettled(Turn(a, input).attempted, key)
    ensures Turn(a, input).attempted[key].outcome == a.attempted[key].outcome
    ensures Executed(key) !in Turn(a, input).log[|a.log|..]
  {
    hide FirstUnresolved, ToolKeysOf, Chosen, Refused, Register, Record, Note;
    var keys := ToolKeysOf(input.calls);
    var chosen, refused := Chosen(keys, a.attempted), Refused(keys, a.attempted);
    RegisteredKeys(keys, a.attempted);
    ChosenAreNotSettled(keys, a.attempted);
    RecordedKeys(chosen, input.outputs, Register(keys, a.attempted));
    NotedKeys(refused, Record(chosen, input.outputs, Register(keys, a.attempted)));
  }

  lemma TurnLeavesNothingPending(a: Agent, input: Input)
    requires NothingPending(a.attempted)
    ensures NothingPending(Turn(a, input).attempted)
  {
    hide FirstUnresolved, ToolKeysOf, Chosen, Refused, Register, Record, Note;
    var keys := ToolKeysOf(input.calls);
    var chosen, refused := Chosen(keys, a.attempted), Refused(keys, a.attempted);
    RegisteredKeys(keys, a.attempted);
    RecordedKeys(chosen, input.outputs, Register(keys, a.attempted));
    NotedKeys(refused, Record(chosen, input.outputs, Register(keys, a.attempted)));
  }

  // ---- Over whole runs ----

  lemma {:induction false} NothingStaysPending(moves: seq<Move>)
    ensures NothingPending(After(FRESH, moves).attempted)
    decreases |moves|
  {
    hide Turn;
    if moves != [] {
      NothingStaysPending(moves[..|moves| - 1]);
      match moves[|moves| - 1]
      case TakeTurn(input) => TurnLeavesNothingPending(After(FRESH, moves[..|moves| - 1]), input);
      case NewExecutor =>
    }
  }

  lemma {:induction false} LogGrows(a: Agent, moves: seq<Move>)
    ensures a.log <= After(a, moves).log
    decreases |moves|
  {
    hide Turn;
    if moves != [] {
      LogGrows(a, moves[..|moves| - 1]);
      match moves[|moves| - 1]
      case TakeTurn(input) => TurnAsksOrExecutes(After(a, moves[..|moves| - 1]), input);
      case NewExecutor =>
    }
  }

  /** A call recorded empty or failed at the end of a turn is never executed later in the
      same registry's life, and keeps its outcome. */
  lemma {:induction false} SettledIsNeverExecuted(a: Agent, moves: seq<Move>, key: string)
    requires IsSettled(a.attempted, key) && forall m :: m in moves ==> m.TakeTurn?
    ensures IsSettled(After(a, moves).attempted, key)
    ensures After(a, moves).attempted[key].outcome == a.attempted[key].outcome
    ensures a.log <= After(a, moves).log && Executed(key) !in After(a, moves).log[|a.log|..]
    decreases |moves|
  {
    hide Turn;
    LogGrows(a, moves);
    if moves != [] {
      var n := |moves| - 1;
      var before := After(a, moves[..n]);
      SettledIsNeverExecuted(a, moves[..n], key);
      LogGrows(a, moves[..n]);
      assert moves[n] in moves;
      TurnKeepsSettled(before, moves[n].input, key);
      TurnAsksOrExecutes(before, moves[n].input);
      var log := After(a, moves).log;
      assert log[|a.log|..] == before.log[|a.log|..] + log[|before.log|..];
    }
  }

  predicate AskedOnce(a: Agent) {
    && (forall i :: 0 <= i < |a.log| && a.log[i].Asked? ==> a.log[i].decision in a.resolved)
    && (forall i, j :: 0 <= i < j < |a.log| && a.log[i].Asked? && a.log[j].Asked? ==> a.log[i].decision != a.log[j].decision)
  }

  lemma TurnAsksOnce(a: Agent, input: Input)
    requires AskedOnce(a)
    ensures AskedOnce(Turn(a, input))
  {
    hide Turn, HasUnresolvedFeedback;
    TurnAsksOrExecutes(a, input);
    TurnKeepsResolved(a, input);
    var t := Turn(a, input);
    var events := t.log[|a.log|..];
    forall i | 0 <= i < |t.log| && t.log[i].Asked?
      ensures t.log[i].decision in t.resolved && (i >= |a.log| ==> |events| == 1 && t.log[i].decision !in a.resolved)
    {
      if i < |a.log| {
        assert t.log[i] == a.log[i];
      } else {
        assert t.log[i] == events[i - |a.log|];
      }
    }
  }

  lemma TurnKeepsResolved(a: Agent, input: Input)
    ensures forall d :: d in a.resolved ==> d in Turn(a, input).resolved
  {
    hide FirstUnresolved;
  }

  /** Over a whole run, executor calls included, the user is asked at most once about a
      decision. */
  lemma {:induction false} EveryDecisionIsAskedOnce(moves: seq<Move>)
    ensures AskedOnce(After(FRESH, moves))
    decreases |moves|
  {
    hide Turn;
    if moves != [] {
      EveryDecisionIsAskedOnce(moves[..|moves| - 1]);
      match moves[|moves| - 1]
      case TakeTurn(input) => TurnAsksOnce(After(FRESH, moves[..|moves| - 1]), input);
      case NewExecutor =>
    }
  }

  // ---- The loops ----

  /** What the oracles say in every iteration of a loop. */
  datatype Oracles = Oracles(calls: nat -> seq<ToolCall>, answers: nat -> Option<string>, outputs: nat -> nat -> Output)

  predicate HasCompletion(calls: seq<ToolCall>) { exists call :: call in calls && call.name == "task_complete" }

  function WithoutCompletion(calls: seq<ToolCall>): (r: seq<ToolCall>)
    ensures forall call :: call in r <==> call in calls && call.name != "task_complete"
  {
    if calls == [] then []
    else
      var n := |calls| - 1;
      assert calls == calls[..n] + [calls[n]];
      WithoutCompletion(calls[..n]) + if calls[n].name == "task_complete" then [] else [calls[n]]
  }

  /** What the turn of an iteration is given: an executor call hides the completion signal. */
  function CallsOf(o: Oracles, j: nat, executor: bool): seq<ToolCall> {
    if executor then WithoutCompletion(o.calls(j)) else o.calls(j)
  }

  /** How a loop ended: the agent's state, whether it was finished, and after how many iterations. */
  datatype Ending = Ending(agent: Agent, finished: bool, iterations: nat)

  /** `_reactive_loop` from iteration `i` on, and with `executor` the loop of `_call_executor`,
      which hides the completion signal from the turn. */
  function Loop(a: Agent, o: Oracles, i: nat, max: nat, executor: bool): Ending
    decreases max - i
  {
    if i >= max then Ending(a, false, i)
    else
      var calls := CallsOf(o, i, executor);
      if calls == [] then Ending(a, true, i + 1)
      else
        var after := Turn(a, Input(calls, o.answers(i), o.outputs(i)));
        if !HasUnresolvedFeedback(calls, a.resolved) && HasCompletion(o.calls(i)) then Ending(after, true, i + 1)
        else Loop(after, o, i + 1, max, executor)
  }

  /** The turns of iterations `i` to `j`. */
  function Turns(o: Oracles, i: nat, j: nat, executor: bool): (r: seq<Move>)
    ensures forall m :: m in r ==> m.TakeTurn?
  {
    if j <= i then [] else
      Turns(o, i, j - 1, executor) +
      [TakeTurn(Input(CallsOf(o, j - 1, executor), o.answers(j - 1), o.outputs(j - 1)))]
  }

  /** A loop is a run: some first turns of its oracles, one for each iteration but perhaps
      the last. */
  lemma {:induction false} LoopIsARun(a: Agent, o: Oracles, i: nat, max: nat, executor: bool, k: nat)
    requires i <= k
    ensures var r := Loop(After(a, Turns(o, i, k, executor)), o, k, max, executor);
            exists n :: k <= n && r.agent == After(a, Turns(o, i, n, executor))
    decreases max - k
  {
    hide Turn, HasUnresolvedFeedback, HasCompletion, WithoutCompletion;
    var now := After(a, Turns(o, i, k, executor));
    if k < max {
      var calls := CallsOf(o, k, executor);
      var next := Turns(o, i, k + 1, executor);
      assert next[..|next| - 1] == Turns(o, i, k, executor);
      assert After(a, next) == Turn(now, Input(calls, o.answers(k), o.outputs(k)));
      if calls != [] {
        LoopIsARun(a, o, i, max, executor, k + 1);
      }
    }
  }

  /** In iteration `j`, before which the agent is `before`, the model calls no tool, or signals
      completion while nothing is left to ask. */
  predicate Ends(before: Agent, o: Oracles, j: nat, executor: bool) {
    var calls := CallsOf(o, j, executor);
    calls == [] || (HasCompletion(o.calls(j)) && !HasUnresolvedFeedback(calls, before.resolved))
  }

  lemma NextTurn(a: Agent, o: Oracles, i: nat, k: nat, executor: bool)
    requires i <= k
    ensures After(a, Turns(o, i, k + 1, executor)) ==
            Turn(After(a, Turns(o, i, k, executor)), Input(CallsOf(o, k, executor), o.answers(k), o.outputs(k)))
  {
    hide Turn;
    var next := Turns(o, i, k + 1, executor);
    assert next[..|next| - 1] == Turns(o, i, k, executor);
  }

  predicate AsksNothing(before: Agent, after: Agent) {
    before.log <= after.log && forall e :: e in after.log[|before.log|..] ==> !e.Asked?
  }

  /** A loop finishes in its first iteration that ends it, in which the user is asked nothing,
      and otherwise takes all its turns. */
  lemma {:induction false} FinishesWithoutAsking(a: Agent, o: Oracles, i: nat, max: nat, executor: bool, k: nat)
    requires i <= k
    ensures var r := Loop(After(a, Turns(o, i, k, executor)), o, k, max, executor);
            r.finished ==> k < r.iterations <= max
    ensures var r := Loop(After(a, Turns(o, i, k, executor)), o, k, max, executor);
            var last := if r.finished then r.iterations - 1 else r.iterations;
            var before := After(a, Turns(o, i, last, executor));
            && k <= last
            && (forall j :: k <= j < last ==> !Ends(After(a, Turns(o, i, j, executor)), o, j, executor))
            && if r.finished then
                 && Ends(before, o, last, executor) && AsksNothing(before, r.agent)
                 && r.agent == if CallsOf(o, last, executor) == [] then before
                               else Turn(before, Input(CallsOf(o, last, executor), o.answers(last), o.outputs(last)))
               else last >= max && r.agent == before
    decreases max - k
  {
    hide Turn, After, Turns, HasUnresolvedFeedback, HasCompletion, CallsOf, AsksNothing;
    if k < max {
      var now, calls := After(a, Turns(o, i, k, executor)), CallsOf(o, k, executor);
      if Ends(now, o, k, executor) {
        QuietTurn(now, Input(calls, o.answers(k), o.outputs(k)));
      } else {
        NextTurn(a, o, i, k, executor);
        FinishesWithoutAsking(a, o, i, max, executor, k + 1);
      }
    }
  }

  lemma QuietTurn(a: Agent, input: Input)
    ensures AsksNothing(a, a)
    ensures !HasUnresolvedFeedback(input.calls, a.resolved) ==> AsksNothing(a, Turn(a, input))
  {
    hide Turn, HasUnresolvedFeedback;
    TurnAsksOrExecutes(a, input);
  }

  /** `_plan_and_execute` from planning iteration `p` on: an executor call, with a fresh
      registry, as long as the planner has steps. */
  function PlanAndExecute(a: Agent, plans: nat -> bool, o: nat -> Oracles, p: nat, max: nat): Agent
    decreases max - p
  {
    if p >= max || !plans(p) then a
    else PlanAndExecute(Loop(a.(attempted := map[]), o(p), 0, max, true).agent, plans, o, p + 1, max)
  }

  lemma {:induction false} AfterConcat(a: Agent, m: seq<Move>, n: seq<Move>)
    ensures After(a, m + n) == After(After(a, m), n)
    decreases |n|
  {
    hide Turn;
    if n == [] {
      assert m + n == m;
    } else {
      assert (m + n)[..|m + n| - 1] == m + n[..|n| - 1];
      AfterConcat(a, m, n[..|n| - 1]);
    }
  }

  lemma {:induction false} PlanAndExecuteIsARun(before: seq<Move>, plans: nat -> bool, o: nat -> Oracles, p: nat, max: nat)
    ensures exists moves :: PlanAndExecute(After(FRESH, before), plans, o, p, max) == After(FRESH, moves)
    decreases max - p
  {
    hide Turn, Loop;
    if p < max && plans(p) {
      var started := before + [NewExecutor];
      assert started[..|started| - 1] == before;
      var a := After(FRESH, started);
      LoopIsARun(a, o(p), 0, max, true, 0);
      assert After(a, Turns(o(p), 0, 0, true)) == a;
      var n: nat :| Loop(a, o(p), 0, max, true).agent == After(a, Turns(o(p), 0, n, true));
      AfterConcat(FRESH, started, Turns(o(p), 0, n, true));
      assert a == After(FRESH, before).(attempted := map[]);
      PlanAndExecuteIsARun(started + Turns(o(p), 0, n, true), plans, o, p + 1, max);
    } else {
      assert PlanAndExecute(After(FRESH, before), plans, o, p, max) == After(FRESH, before);
    }
  }

  /** A whole plan-and-execute run asks about each decision once, over all its executor
      calls, and leaves no attempt pending. */
  lemma PlanAndExecuteAsksOnce(plans: nat -> bool, o: nat -> Oracles, max: nat)
    ensures AskedOnce(PlanAndExecute(FRESH, plans, o, 0, max)) && NothingPending(PlanAndExecute(FRESH, plans, o, 0, max).attempted)
  {
    hide PlanAndExecute, AskedOnce, NothingPending;
    PlanAndExecuteIsARun([], plans, o, 0, max);
    var moves :| PlanAndExecute(FRESH, plans, o, 0, max) == After(FRESH, moves);
    EveryDecisionIsAskedOnce(moves);
    NothingStaysPending(moves);
  }

  /** A whole reactive loop does too. */
  lemma ReactiveLoopAsksOnce(o: Oracles, max: nat)
    ensures var r := Loop(FRESH, o, 0, max, false).agent;
            AskedOnce(r) && NothingPending(r.attempted)
  {
    hide Loop, Turn, AskedOnce, NothingPending;
    LoopIsARun(FRESH, o, 0, max, false, 0);
    assert After(FRESH, Turns(o, 0, 0, false)) == FRESH;
    var n: nat :| Loop(FRESH, o, 0, max, false).agent == After(FRESH, Turns(o, 0, n, false));
    EveryDecisionIsAskedOnce(Turns(o, 0, n, false));
    NothingStaysPending(Turns(o, 0, n, false));
  }

  /** In a reactive loop and in an executor call, whatever the oracles say, a call that is
      settled after some first turns is not executed in any later one. */
  lemma LoopNeverRepeatsSettled(a: Agent, o: Oracles, max: nat, executor: bool)
    ensures var r := Loop(a, o, 0, max, executor).agent;
            exists n: nat ::
              && r == After(a, Turns(o, 0, n, executor))
              && forall k: nat, key :: k <= n && IsSettled(After(a, Turns(o, 0, k, executor)).attempted, key) ==>
                   LaterNever(After(a, Turns(o, 0, k, executor)), r, key)
  {
    hide Loop, Turn, IsSettled, LaterNever;
    LoopIsARun(a, o, 0, max, executor, 0);
    assert After(a, Turns(o, 0, 0, executor)) == a;
    var n: nat :| Loop(a, o, 0, max, executor).agent == After(a, Turns(o, 0, n, executor));
    forall k: nat, key | k <= n && IsSettled(After(a, Turns(o, 0, k, executor)).attempted, key)
      ensures LaterNever(After(a, Turns(o, 0, k, executor)), Loop(a, o, 0, max, executor).agent, key)
    {
      TurnsSplit(o, 0, k, n, executor);
      AfterConcat(a, Turns(o, 0, k, executor), Turns(o, k, n, executor));
      SettledStays(After(a, Turns(o, 0, k, executor)), Turns(o, k, n, executor), key);
    }
  }

  /** Between an earlier and a later state the key was not executed, and it is settled still. */
  predicate LaterNever(earlier: Agent, later: Agent, key: string) {
    && earlier.log <= later.log && Executed(key) !in later.log[|earlier.log|..]
    && key in earlier.attempted && key in later.attempted && earlier.attempted[key].outcome == later.attempted[key].outcome
  }

  lemma SettledStays(a: Agent, moves: seq<Move>, key: string)
    requires IsSettled(a.attempted, key) && forall m :: m in moves ==> m.TakeTurn?
    ensures LaterNever(a, After(a, moves), key)
  {
    hide After;
    SettledIsNeverExecuted(a, moves, key);
  }

  lemma {:induction false} TurnsSplit(o: Oracles, i: nat, k: nat, n: nat, executor: bool)
    requires i <= k <= n
    ensures Turns(o, i, n, executor) == Turns(o, i, k, executor) + Turns(o, k, n, executor)
    decreases n
  {
    if n > k {
      TurnsSplit(o, i, k, n - 1, executor);
    }
  }
}
