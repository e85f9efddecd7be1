/** The smart agent's methods, on the registry and the feedback table they update. */
module SmartAgent {
  import opened Wrappers
  import opened SmartRun

  /** `_has_unresolved_feedback` */
  method HasUnresolved(calls: seq<ToolCall>, resolved: map<string, string>) returns (r: bool)
    ensures r == HasUnresolvedFeedback(calls, resolved)
  {
    hide DecisionOf;
    for i := 0 to |calls|
      invariant !HasUnresolvedFeedback(calls[..i], resolved)
    {
      assert calls[..i + 1] == calls[..i] + [calls[i]];
      var decision := DecisionOf(calls[i]);
      if decision.Some? && decision.value !in resolved {
        return true;
      }
    }
    assert calls[..|calls|] == calls;
    return false;
  }

  class Runner {
    var attempted: Registry
    var resolved: map<string, string>
    var log: seq<Event>

    function State(): Agent
      reads this
    {
      Agent(attempted, resolved, log)
    }

    constructor ()
      ensures State() == FRESH
    {
      attempted, resolved, log := map[], map[], [];
    }

    /** The feedback part of a turn: the first unresolved question is asked. */
    method AskUser(calls: seq<ToolCall>, answer: Option<string>) returns (asked: bool)
      modifies this`resolved, this`log
      ensures match FirstUnresolved(calls, old(resolved))
              case None => !asked && resolved == old(resolved) && log == old(log)
              case Some(decision) =>
                && asked && log == old(log) + [Asked(decision)]
                && resolved == old(resolved)[decision := if answer.Some? then answer.value else NO_ANSWER]
    {
      hide DecisionOf;
      var i := 0;
      while i < |calls|
        invariant i <= |calls| && FirstUnresolved(calls[i..], resolved) == FirstUnresolved(calls, resolved)
        invariant resolved == old(resolved) && log == old(log)
      {
        assert calls[i..][0] == calls[i] && calls[i..][1..] == calls[i + 1..];
        var decision := DecisionOf(calls[i]);
        if decision.Some? && decision.value !in resolved {
          log := log + [Asked(decision.value)];
          resolved := resolved[decision.value := if answer.Some? then answer.value else NO_ANSWER];
          return true;
        }
        i := i + 1;
      }
      return false;
    }

    /** The pass over the calls: which are executed, which are repetitions. */
    method ChooseCalls(calls: seq<ToolCall>) returns (chosen: seq<string>, refused: seq<string>)
      modifies this`attempted
      ensures attempted == Register(ToolKeysOf(calls), old(attempted))
      ensures chosen == Chosen(ToolKeysOf(calls), old(attempted)) && refused == Refused(ToolKeysOf(calls), old(attempted))
    {
      hide KeyOf, IsSettled, Register, Chosen, Refused;
      chosen, refused := [], [];
      NoKeys(attempted);
      ghost var keys: seq<string> := [];
      for i := 0 to |calls|
        invariant keys == ToolKeysOf(calls[..i])
        invariant attempted == Register(keys, old(attempted))
        invariant chosen == Chosen(keys, old(attempted)) && refused == Refused(keys, old(attempted))
      {
        assert calls[..i + 1][..i] == calls[..i];
        if calls[i].name != "user_feedback" && calls[i].name != "task_complete" {
          var key := KeyOf(calls[i]);
          OneMoreKey(keys, key, old(attempted));
          if IsSettled(attempted, key) {
            refused := refused + [key];
          } else {
            attempted := attempted[key := Attempt(Useful, Pending)];
            chosen := chosen + [key];
          }
          keys := keys + [key];
        }
      }
      assert calls[..|calls|] == calls;
    }

    /** Executing the chosen calls and recording their results. */
    method ExecuteCalls(chosen: seq<string>, outputs: nat -> Output)
      modifies this`attempted, this`log
      ensures attempted == Record(chosen, outputs, old(attempted)) && log == old(log) + Executions(chosen)
    {
      for i := 0 to |chosen|
        invariant attempted == Record(chosen[..i], outputs, old(attempted)) && log == old(log) + Executions(chosen[..i])
      {
        assert chosen[..i + 1][..i] == chosen[..i];
        assert Executions(chosen[..i]) + [Executed(chosen[i])] == Executions(chosen[..i + 1]);
        log := log + [Executed(chosen[i])];
        attempted := attempted[chosen[i] := Attempt(Classify(outputs(i)), Result(outputs(i)))];
      }
      assert chosen[..|chosen|] == chosen;
    }

    method NoteRepetitions(refused: seq<string>)
      modifies this`attempted, this`log
      ensures attempted == Note(refused, old(attempted)) && log == old(log) + Skips(refused)
    {
      for i := 0 to |refused|
        invariant attempted == Note(refused[..i], old(attempted)) && log == old(log) + Skips(refused[..i])
      {
        var key := refused[i];
        assert refused[..i + 1][..i] == refused[..i];
        assert Skips(refused[..i]) + [Skipped(key)] == Skips(refused[..i + 1]);
        log := log + [Skipped(key)];
        if key in attempted {
          attempted := attempted[key := attempted[key].(detail := SkipNote)];
        }
      }
      assert refused[..|refused|] == refused;
    }

    /** `_execute_tool_calls_turn` */
    method ExecuteToolCallsTurn(input: Input)
      modifies this
      ensures State() == Turn(old(State()), input)
    {
      hide FirstUnresolved, ToolKeysOf, Register, Chosen, Refused, Record, Note;
      var asked := AskUser(input.calls, input.answer);
      if asked {
        return;
      }
      var chosen, refused := ChooseCalls(input.calls);
      ExecuteCalls(chosen, input.outputs);
      NoteRepetitions(refused);
    }

    /** `_reactive_loop`, and with `executor` the loop of `_call_executor`. */
    method RunLoop(o: Oracles, max: nat, executor: bool) returns (finished: bool, iterations: nat)
      modifies this
      ensures Loop(old(State()), o, 0, max, executor) == Ending(State(), finished, iterations)
    {
      hide Turn, HasUnresolvedFeedback, HasCompletion, WithoutCompletion;
      finished, iterations := false, 0;
      while iterations < max
        invariant iterations <= max && !finished
        invariant Loop(State(), o, iterations, max, executor) == Loop(old(State()), o, 0, max, executor)
      {
        var i := iterations;
        iterations := iterations + 1;
        var calls := if executor then WithoutCompletion(o.calls(i)) else o.calls(i);
        if calls == [] {
          finished := true;
          return;
        }
        var requestedNewFeedback := HasUnresolved(calls, resolved);
        ExecuteToolCallsTurn(Input(calls, o.answers(i), o.outputs(i)));
        var signalled := HasCompletionSignal(o.calls(i));
        if !requestedNewFeedback && signalled {
          finished := true;
          return;
        }
      }
    }

    /** `_plan_and_execute`: every executor call has a registry of its own; the resolved
        feedback is shared. */
    method PlanAndExecuteLoop(plans: nat -> bool, o: nat -> Oracles, max: nat)
      modifies this
      ensures State() == PlanAndExecute(old(State()), plans, o, 0, max)
    {
      hide Loop;
      var p := 0;
      while p < max
        invariant p <= max && PlanAndExecute(State(), plans, o, p, max) == PlanAndExecute(old(State()), plans, o, 0, max)
      {
        if !plans(p) {
          return;
        }
        attempted := map[];
        var _, _ := RunLoop(o(p), max, true);
        p := p + 1;
      }
    }
  }

  /** The three passes, one key further. */
  lemma OneMoreKey(keys: seq<string>, key: string, registry: Registry)
    ensures var before := Register(keys, registry);
            && Register(keys + [key], registry) == (if IsSettled(before, key) then before else before[key := Attempt(Useful, Pending)])
            && Chosen(keys + [key], registry) == Chosen(keys, registry) + (if IsSettled(before, key) then [] else [key])
            && Refused(keys + [key], registry) == Refused(keys, registry) + (if IsSettled(before, key) then [key] else [])
  {
    hide IsSettled;
    RegisteredKeys(keys, registry);
    assert (keys + [key])[..|keys|] == keys;
  }

  lemma NoKeys(registry: Registry)
    ensures Register([], registry) == registry && Chosen([], registry) == [] && Refused([], registry) == []
  {
  }

  method HasCompletionSignal(calls: seq<ToolCall>) returns (r: bool)
    ensures r == HasCompletion(calls)
  {
    for i := 0 to |calls|
      invariant !HasCompletion(calls[..i])
    {
      assert calls[..i + 1] == calls[..i] + [calls[i]];
      if calls[i].name == "task_complete" {
        return true;
      }
    }
    assert calls[..|calls|] == calls;
    return false;
  }
}
