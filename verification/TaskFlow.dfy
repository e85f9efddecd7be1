/** What a question and its answer go through, when nothing comes between: from the stream to the
    stored record, from the client to the owner's queue; which answers are refused; and that
    `execute`, once it stops reading, gets through. */
module TaskFlow {
  import opened Wrappers
  import opened Answers
  import opened Relay
  import opened TaskTables
  import opened TaskSystem
  import opened TaskInvariant
  import opened TaskSteps

  // ---- Steps in a row ----

  lemma Then(s: State, l: Label, t: State, rest: seq<Label>, end: State)
    requires Next(s, l) == Some(t) && Run(t, rest) == Some(end)
    ensures Run(s, [l] + rest) == Some(end)
  {
    hide Next, Run;
    OneStep(s, l, rest);
  }

  /** The same step over and over goes through these states. */
  lemma {:induction false} GoesOn(states: seq<State>, go: Label)
    requires states != [] && forall i :: 0 <= i < |states| - 1 ==> Next(states[i], go) == Some(states[i + 1])
    ensures Run(states[0], Times(go, |states| - 1)) == Some(states[|states| - 1])
    decreases |states|
  {
    hide Next, Run;
    if |states| == 1 {
      NoStep(states[0]);
    } else {
      var rest := states[1..];
      assert forall i :: 0 <= i < |rest| - 1 ==> Next(rest[i], go) == Some(rest[i + 1]);
      GoesOn(rest, go);
      Then(states[0], go, rest[0], Times(go, |rest| - 1), rest[|rest| - 1]);
    }
  }

  // ---- A client's answer ----

  /** A client that gives the stored question's context and feedback id has its answer sent to the
      owner, with that question's request id and the forwarder's topic, and the record is gone. */
  lemma AnswerIsForwarded(s: State, f: nat, m: nat, contextId: string, feedbackId: string, response: string, topic: string)
    requires f !in s.forwarders && m !in s.mail
    requires s.record.Some? && s.record.value.contextId == contextId && s.record.value.feedbackId == feedbackId
    ensures var go := FeedbackGoesOn(f, m, topic);
            var q := s.record.value;
            Run(s, [FeedbackComes(f, contextId, feedbackId, response)] + Times(go, 3)) ==
            Some(s.(forwarders := s.forwarders[f := Sent], record := None, token := InMail(m),
                    mail := s.mail[m := Reply(q.number, feedbackId, q.requestId, response, topic)]))
  {
    hide Next, Run;
    var go := FeedbackGoesOn(f, m, topic);
    var q := s.record.value;
    var s1 := s.(forwarders := s.forwarders[f := Getting(contextId, feedbackId, response)]);
    var s2 := s1.(forwarders := s.forwarders[f := Matched(contextId, feedbackId, response)]);
    var s3 := s2.(forwarders := s.forwarders[f := Claimed(q, feedbackId, response)], record := None, token := AtForwarder(f));
    var s4 := s3.(forwarders := s.forwarders[f := Sent], token := InMail(m),
                  mail := s.mail[m := Reply(q.number, feedbackId, q.requestId, response, topic)]);
    Comes(s, f, contextId, feedbackId, response);
    assert s1.forwarders[f := s2.forwarders[f]] == s2.forwarders;
    assert s2.forwarders[f := s3.forwarders[f]] == s3.forwarders;
    assert s3.forwarders[f := Sent] == s4.forwarders;
    Looks(s1, s2, f, contextId, feedbackId, response, m, topic);
    Claims(s2, s3, f, contextId, feedbackId, response, m, topic);
    Sends(s3, s4, f, q, feedbackId, response, m, topic);
    GoesOn([s1, s2, s3, s4], go);
    Then(s, FeedbackComes(f, contextId, feedbackId, response), s1, Times(go, 3), s4);
  }

  lemma Comes(s: State, f: nat, contextId: string, feedbackId: string, response: string)
    requires f !in s.forwarders
    ensures Next(s, FeedbackComes(f, contextId, feedbackId, response)) ==
            Some(s.(forwarders := s.forwarders[f := Getting(contextId, feedbackId, response)]))
  {
  }

  lemma Looks(s: State, t: State, f: nat, contextId: string, feedbackId: string, response: string, m: nat, topic: string)
    requires f in s.forwarders && s.forwarders[f] == Getting(contextId, feedbackId, response)
    requires s.record.Some? && s.record.value.contextId == contextId && s.record.value.feedbackId == feedbackId
    requires t == s.(forwarders := t.forwarders)
    requires t.forwarders == s.forwarders[f := Matched(contextId, feedbackId, response)]
    ensures Next(s, FeedbackGoesOn(f, m, topic)) == Some(t)
  {
  }

  lemma Claims(s: State, t: State, f: nat, contextId: string, feedbackId: string, response: string, m: nat, topic: string)
    requires f in s.forwarders && s.forwarders[f] == Matched(contextId, feedbackId, response)
    requires s.record.Some? && s.record.value.contextId == contextId && s.record.value.feedbackId == feedbackId
    requires t == s.(forwarders := t.forwarders, record := None, token := AtForwarder(f))
    requires t.forwarders == s.forwarders[f := Claimed(s.record.value, feedbackId, response)]
    ensures Next(s, FeedbackGoesOn(f, m, topic)) == Some(t)
  {
  }

  lemma Sends(s: State, t: State, f: nat, q: Question, feedbackId: string, response: string, m: nat, topic: string)
    requires f in s.forwarders && s.forwarders[f] == Claimed(q, feedbackId, response) && m !in s.mail
    requires t == s.(forwarders := t.forwarders, mail := s.mail[m := Reply(q.number, feedbackId, q.requestId, response, topic)], token := InMail(m))
    requires t.forwarders == s.forwarders[f := Sent]
    ensures Next(s, FeedbackGoesOn(f, m, topic)) == Some(t)
  {
  }

  /** An answer to no question, or to another one, is refused at the look or, if the question is
      taken in between, at the claim; and nothing else changes. */
  lemma OtherAnswerIsRefused(s: State, f: nat, m: nat, contextId: string, feedbackId: string, response: string, topic: string)
    requires f in s.forwarders && s.forwarders[f] in {Getting(contextId, feedbackId, response), Matched(contextId, feedbackId, response)}
    requires s.record.Some? ==> s.record.value.contextId != contextId || s.record.value.feedbackId != feedbackId
    ensures Next(s, FeedbackGoesOn(f, m, topic)) == Some(s.(forwarders := s.forwarders[f := Refused]))
  {
  }

  /** The waiter that reads a reply puts it in the receiver's queue and reads the stream, if the
      task has an entry. */
  lemma ReplyIsTaken(s: State, w: nat, m: nat, newId: nat)
    requires w in s.waiters && s.waiters[w] == Waiting && m in s.mail && s.tables.pending.Some?
    ensures Run(s, [WaiterReads(w, m)] + Times(WaiterGoesOn(w, newId), 2)) ==
            Some(s.(waiters := s.waiters[w := Relaying], mail := s.mail - {m}, delivered := s.delivered + [s.mail[m]], token := Nowhere))
  {
    hide Next, Run;
    var go, r := WaiterGoesOn(w, newId), s.mail[m];
    var s1 := s.(waiters := s.waiters[w := Got(r)], mail := s.mail - {m}, token := AtWaiter(w));
    var s2 := s1.(waiters := s.waiters[w := Putting(r)]);
    var s3 := s2.(waiters := s.waiters[w := Relaying], delivered := s.delivered + [r], token := Nowhere);
    Reads(s, w, m);
    assert s1.waiters[w := Putting(r)] == s2.waiters && s2.waiters[w := Relaying] == s3.waiters;
    Holds(s1, s2, w, r, newId);
    Puts(s2, s3, w, r, newId);
    GoesOn([s1, s2, s3], go);
    Then(s, WaiterReads(w, m), s1, Times(go, 2), s3);
  }

  /** Without an entry the reply is lost, and the waiter ends. */
  lemma LateReplyIsLost(s: State, w: nat, m: nat, newId: nat)
    requires w in s.waiters && s.waiters[w] == Waiting && m in s.mail && s.tables.pending.None?
    ensures Run(s, [WaiterReads(w, m)] + Times(WaiterGoesOn(w, newId), 1)) ==
            Some(s.(waiters := s.waiters[w := Finishing], mail := s.mail - {m}, token := Nowhere))
  {
    hide Next, Run;
    var go, r := WaiterGoesOn(w, newId), s.mail[m];
    var s1 := s.(waiters := s.waiters[w := Got(r)], mail := s.mail - {m}, token := AtWaiter(w));
    var s2 := s1.(waiters := s.waiters[w := Finishing], token := Nowhere);
    Reads(s, w, m);
    assert s1.waiters[w := Finishing] == s2.waiters;
    Loses(s1, s2, w, r, newId);
    GoesOn([s1, s2], go);
    Then(s, WaiterReads(w, m), s1, Times(go, 1), s2);
  }

  lemma Reads(s: State, w: nat, m: nat)
    requires w in s.waiters && s.waiters[w] == Waiting && m in s.mail
    ensures Next(s, WaiterReads(w, m)) ==
            Some(s.(waiters := s.waiters[w := Got(s.mail[m])], mail := s.mail - {m}, token := AtWaiter(w)))
  {
  }

  lemma Holds(s: State, t: State, w: nat, r: Reply, newId: nat)
    requires w in s.waiters && s.waiters[w] == Got(r) && s.tables.pending.Some?
    requires t == s.(waiters := t.waiters) && t.waiters == s.waiters[w := Putting(r)]
    ensures Next(s, WaiterGoesOn(w, newId)) == Some(t)
  {
  }

  lemma Puts(s: State, t: State, w: nat, r: Reply, newId: nat)
    requires w in s.waiters && s.waiters[w] == Putting(r)
    requires t == s.(waiters := t.waiters, delivered := s.delivered + [r], token := Nowhere) && t.waiters == s.waiters[w := Relaying]
    ensures Next(s, WaiterGoesOn(w, newId)) == Some(t)
  {
  }

  lemma Loses(s: State, t: State, w: nat, r: Reply, newId: nat)
    requires w in s.waiters && s.waiters[w] == Got(r) && s.tables.pending.None?
    requires t == s.(waiters := t.waiters, token := Nowhere) && t.waiters == s.waiters[w := Finishing]
    ensures Next(s, WaiterGoesOn(w, newId)) == Some(t)
  {
  }

  // ---- A question ----

  /** The question an answer asks, in this state. */
  function Posed(s: State, a: AragAnswer): Question
    requires IsPause(a)
  {
    Question(|s.asked|, s.contextId, a.feedback.value.feedbackId, a.feedback.value.requestId)
  }

  /** A question is kept as the task's entry and as the stored record, and a waiter listens for its
      answer, before the client of `execute` is asked. */
  lemma QuestionIsKept(s: State, a: AragAnswer, newId: nat)
    requires s.exec == Streaming && !s.tables.cancelled && IsPause(a) && newId !in s.waiters
    ensures var go := ExecGoesOn(newId);
            var q := Posed(s, a);
            Run(s, [ExecIsGiven(Gives(a))] + Times(go, 3)) ==
            Some(s.(asked := s.asked + [q], record := Some(q), token := InStore, exec := Asking,
                    tables := s.tables.(pending := Some(q), waiter := Some(newId)),
                    waiters := StopWaiter(s).waiters[newId := Waiting]))
  {
    hide Next, Run, Kill;
    var go, q := ExecGoesOn(newId), Posed(s, a);
    var s1 := s.(asked := s.asked + [q], tables := s.tables.(pending := Some(q)), token := AtExec, exec := SavingPending(q));
    var s2 := s1.(record := Some(q), token := InStore, exec := StartingWaiter);
    var s3 := s2.(exec := Yielding, tables := s.tables.(pending := Some(q), waiter := Some(newId)),
                  waiters := StopWaiter(s).waiters[newId := Waiting]);
    var s4 := s3.(exec := Asking);
    assert Next(s, ExecIsGiven(Gives(a))) == Some(s1) by { Pausing(s, a); }
    assert Next(s1, go) == Some(s2) by { Saves(s1, q, newId); }
    assert Next(s2, go) == Some(s3) by { Starts(s, s2, s3, q, newId); }
    assert Next(s3, go) == Some(s4) by { Yields(s3, newId); }
    GoesOn([s1, s2, s3, s4], go);
    Then(s, ExecIsGiven(Gives(a)), s1, Times(go, 3), s4);
  }

  lemma Pausing(s: State, a: AragAnswer)
    requires s.exec == Streaming && !s.tables.cancelled && IsPause(a)
    ensures Next(s, ExecIsGiven(Gives(a))) ==
            Some(s.(asked := s.asked + [Posed(s, a)], tables := s.tables.(pending := Some(Posed(s, a))),
                    token := AtExec, exec := SavingPending(Posed(s, a))))
  {
  }

  lemma Saves(s: State, q: Question, newId: nat)
    requires s.exec == SavingPending(q)
    ensures Next(s, ExecGoesOn(newId)) == Some(s.(record := Some(q), token := InStore, exec := StartingWaiter))
  {
  }

  lemma Starts(s: State, s2: State, s3: State, q: Question, newId: nat)
    requires newId !in s.waiters && s2.exec == StartingWaiter && s2.waiters == s.waiters
    requires s2.tables == s.tables.(pending := Some(q)) && s2.token == InStore
    requires s3 == s2.(exec := Yielding, tables := s.tables.(pending := Some(q), waiter := Some(newId)),
                       waiters := StopWaiter(s).waiters[newId := Waiting])
    ensures Next(s2, ExecGoesOn(newId)) == Some(s3)
  {
    hide Killed;
  }

  lemma Yields(s: State, newId: nat)
    requires s.exec == Yielding
    ensures Next(s, ExecGoesOn(newId)) == Some(s.(exec := Asking))
  {
  }

  /** So is a later question of a waiter's stream, and the owner record is renewed, before the
      question is published. */
  lemma NextQuestionIsKept(s: State, w: nat, a: AragAnswer, newId: nat)
    requires w in s.waiters && s.waiters[w] == Relaying && s.tables.waiter == Some(w)
    requires !s.tables.cancelled && IsPause(a) && newId !in s.waiters
    ensures var go := WaiterGoesOn(w, newId);
            var q := Posed(s, a);
            Run(s, [WaiterIsGiven(w, Gives(a))] + Times(go, 4)) ==
            Some(s.(asked := s.asked + [q], ownerSaved := true, record := Some(q), token := InStore,
                    tables := s.tables.(pending := Some(q), waiter := Some(newId)),
                    waiters := s.waiters[w := AskingNext][newId := Waiting]))
  {
    hide Next, Run;
    var go, q := WaiterGoesOn(w, newId), Posed(s, a);
    var s1 := s.(asked := s.asked + [q], tables := s.tables.(pending := Some(q)), token := AtSaver(w),
                 waiters := s.waiters[w := RenewingOwner(q)]);
    var s2 := s1.(ownerSaved := true, waiters := s.waiters[w := SavingRecord(q)]);
    var s3 := s2.(record := Some(q), token := InStore, waiters := s.waiters[w := StartingNext]);
    var s4 := s3.(tables := s.tables.(pending := Some(q), waiter := Some(newId)),
                  waiters := s.waiters[w := YieldingNext][newId := Waiting]);
    var s5 := s4.(waiters := s.waiters[w := AskingNext][newId := Waiting]);
    assert s1.waiters[w := SavingRecord(q)] == s2.waiters && s2.waiters[w := StartingNext] == s3.waiters;
    assert s4.waiters[w := AskingNext] == s5.waiters;
    assert Next(s, WaiterIsGiven(w, Gives(a))) == Some(s1) by { WaiterPausing(s, w, a); }
    assert Next(s1, go) == Some(s2) by { Renews(s1, s2, w, q, newId); }
    assert Next(s2, go) == Some(s3) by { SavesNext(s2, s3, w, q, newId); }
    assert Next(s3, go) == Some(s4) by { StartsNext(s, s3, s4, w, q, newId); }
    assert Next(s4, go) == Some(s5) by { YieldsNext(s4, s5, w, newId); }
    GoesOn([s1, s2, s3, s4, s5], go);
    Then(s, WaiterIsGiven(w, Gives(a)), s1, Times(go, 4), s5);
  }

  lemma WaiterPausing(s: State, w: nat, a: AragAnswer)
    requires w in s.waiters && s.waiters[w] == Relaying && !s.tables.cancelled && IsPause(a)
    ensures Next(s, WaiterIsGiven(w, Gives(a))) ==
            Some(s.(asked := s.asked + [Posed(s, a)], tables := s.tables.(pending := Some(Posed(s, a))),
                    token := AtSaver(w), waiters := s.waiters[w := RenewingOwner(Posed(s, a))]))
  {
  }

  lemma Renews(s: State, t: State, w: nat, q: Question, newId: nat)
    requires w in s.waiters && s.waiters[w] == RenewingOwner(q)
    requires t == s.(ownerSaved := true, waiters := t.waiters) && t.waiters == s.waiters[w := SavingRecord(q)]
    ensures Next(s, WaiterGoesOn(w, newId)) == Some(t)
  {
  }

  lemma SavesNext(s: State, t: State, w: nat, q: Question, newId: nat)
    requires w in s.waiters && s.waiters[w] == SavingRecord(q)
    requires t == s.(record := Some(q), token := InStore, waiters := t.waiters) && t.waiters == s.waiters[w := StartingNext]
    ensures Next(s, WaiterGoesOn(w, newId)) == Some(t)
  {
  }

  lemma StartsNext(s: State, s3: State, s4: State, w: nat, q: Question, newId: nat)
    requires w in s.waiters && newId !in s.waiters && s3.waiters == s.waiters[w := StartingNext]
    requires s3.tables == s.tables.(pending := Some(q)) && s.tables.waiter == Some(w)
    requires s4 == s3.(tables := s.tables.(pending := Some(q), waiter := Some(newId)), waiters := s4.waiters)
    requires s4.waiters == s.waiters[w := YieldingNext][newId := Waiting]
    ensures Next(s3, WaiterGoesOn(w, newId)) == Some(s4)
  {
    assert Kill(s3, None) == s3;
    assert s3.waiters[w := YieldingNext][newId := Waiting] == s4.waiters;
  }

  lemma YieldsNext(s: State, t: State, w: nat, newId: nat)
    requires w in s.waiters && s.waiters[w] == YieldingNext
    requires t == s.(waiters := t.waiters) && t.waiters == s.waiters[w := AskingNext]
    ensures Next(s, WaiterGoesOn(w, newId)) == Some(t)
  {
  }

  // ---- `execute` gets through ----

  lemma ExecTidyStep(s: State, newId: nat, todo: seq<Cleanup>, closing: Option<Event>, handling: bool)
    requires s.exec == Cleaning(todo, closing, handling) && todo != []
    ensures Next(s, ExecGoesOn(newId)) == Some(Clean(s, todo[0]).(exec := Cleaning(LeftAfter(s, todo), closing, handling)))
  {
    hide Clean, LeftAfter;
  }

  lemma ExecCloseStep(s: State, newId: nat, closing: Option<Event>, handling: bool)
    requires s.exec == Cleaning([], closing, handling)
    ensures Next(s, ExecGoesOn(newId)) == Some(s.(closed := s.closed || closing.Some?, exec := Leaving))
  {
  }

  lemma CleanExec(s: State, a: Cleanup, exec: Exec)
    ensures Clean(s.(exec := exec), a) == Clean(s, a).(exec := exec)
  {
    hide CleanTables, Stopped;
  }

  /** `execute` that only goes on does all that is left to do, and then closes if it has something
      to close with. */
  lemma {:induction false} ExecTidiesAll(s: State, newId: nat, todo: seq<Cleanup>, closing: Option<Event>, handling: bool)
    ensures exists n: nat :: Run(s.(exec := Cleaning(todo, closing, handling)), Times(ExecGoesOn(newId), n)) ==
                             Some(Cleaned(s, todo).(exec := Leaving, closed := Cleaned(s, todo).closed || closing.Some?))
    decreases |todo|, if todo != [] && todo[0].Drop? then 1 else 0
  {
    hide Next, Clean, LeftAfter, Run;
    var l := ExecGoesOn(newId);
    var at := s.(exec := Cleaning(todo, closing, handling));
    if todo == [] {
      ExecCloseStep(at, newId, closing, handling);
      var end := s.(exec := Leaving, closed := s.closed || closing.Some?);
      NoStep(end);
      Then(at, l, end, Times(l, 0), end);
      assert Run(at, Times(l, 1)) == Some(end);
    } else {
      ExecTidyStep(at, newId, todo, closing, handling);
      CleanExec(s, todo[0], Cleaning(todo, closing, handling));
      var left := LeftAfter(at, todo);
      var next := Clean(s, todo[0]).(exec := Cleaning(left, closing, handling));
      LeftIsLess(at, todo);
      ExecTidiesAll(Clean(s, todo[0]), newId, left, closing, handling);
      var d := Cleaned(Clean(s, todo[0]), left);
      var end := d.(exec := Leaving, closed := d.closed || closing.Some?);
      var n: nat :| Run(next, Times(l, n)) == Some(end);
      ToldIsSame(Clean(s, todo[0]), at, todo);
      Then(at, l, next, Times(l, n), end);
      assert Run(at, Times(l, n + 1)) == Some(end);
    }
  }

  /** What ends the reading of a stream: its end, a failure, the completion. */
  predicate IsLast(input: Input) {
    input.Ends? || input.answer.operation == Error || input.answer.operation == Done
  }

  /** The clean-up of `execute` for what it reads last. */
  predicate EndsWith(s: State, input: Input, todo: seq<Cleanup>) {
    if s.tables.cancelled then todo == FINISH
    else if input.Ends? then todo == DISCARD + FINISH
    else if input.answer.operation == Error then todo == FINISH
    else todo == REMOVE + FINISH
  }

  lemma LastInput(s: State, input: Input) returns (todo: seq<Cleanup>, closing: Option<Event>)
    requires s.exec == Streaming && (s.tables.cancelled || IsLast(input))
    ensures Next(s, ExecIsGiven(input)) == Some(s.(live := false, exec := Cleaning(todo, closing, false)))
    ensures EndsWith(s, input, todo) && (closing.Some? <==> !s.tables.cancelled)
  {
    hide Detail;
    todo := if s.tables.cancelled then FINISH else if input.Ends? then DISCARD + FINISH
            else if input.answer.operation == Error then FINISH else REMOVE + FINISH;
    closing := if s.tables.cancelled then None else if input.Ends? then Some(Failed(ENDED))
               else if input.answer.operation == Error then Some(Failed(Detail(input.answer))) else Some(Completed);
  }

  lemma {:induction false} CleanedKeepsClosed(s: State, todo: seq<Cleanup>)
    ensures Cleaned(s, todo).closed == s.closed
    decreases |todo|
  {
    hide CleanTables, Stopped;
    if todo != [] {
      CleanedKeepsClosed(Clean(s, todo[0]), todo[1..]);
    }
  }

  lemma LastWork(s: State, input: Input, todo: seq<Cleanup>)
    requires EndsWith(s, input, todo)
    ensures Finished(s, Cleaned(s, todo))
    ensures !s.tables.cancelled && (input.Ends? || input.answer.operation == Done) ==>
              Cleaned(s, todo).record.None? && Cleaned(s, todo).tables.pending.None?
  {
    hide Cleaned, Finished;
    FinishCleans(s);
    WorkCleans(s);
  }

  /** `execute` gets through by its own steps once its stream has ended, failed or finished, or the
      task is marked cancelled, whatever the stream says then: the lease is stopped, the owner record
      and the mark are gone, and a closing event is shown unless the task was cancelled. */
  lemma ExecuteCloses(s: State, input: Input, newId: nat)
    requires s.exec == Streaming && (s.tables.cancelled || IsLast(input))
    ensures exists n: nat :: Run(s, [ExecIsGiven(input)] + Times(ExecGoesOn(newId), n)).Some? &&
              var t := Run(s, [ExecIsGiven(input)] + Times(ExecGoesOn(newId), n)).value;
              && t.exec == Leaving && !t.live && t.closed == (s.closed || !s.tables.cancelled) && Finished(s, t)
              && (!s.tables.cancelled && (input.Ends? || input.answer.operation == Done) ==> t.record.None? && t.tables.pending.None?)
  {
    hide Next, Run, Cleaned, Stopped;
    var todo, closing := LastInput(s, input);
    var d := s.(live := false);
    ExecTidiesAll(d, newId, todo, closing, false);
    var end := Cleaned(d, todo).(exec := Leaving, closed := Cleaned(d, todo).closed || closing.Some?);
    var n: nat :| Run(d.(exec := Cleaning(todo, closing, false)), Times(ExecGoesOn(newId), n)) == Some(end);
    Then(s, ExecIsGiven(input), d.(exec := Cleaning(todo, closing, false)), Times(ExecGoesOn(newId), n), end);
    LastWork(d, input, todo);
    CleanedKeeps(d, todo);
    CleanedKeepsClosed(d, todo);
  }

  /** A waiter of a task that is marked cancelled, whatever its stream gives, publishes nothing more
      and gets through with the lease stopped, the owner record and the mark gone. */
  lemma CancelledWaiterStops(s: State, w: nat, input: Input, newId: nat)
    requires w in s.waiters && s.waiters[w] == Relaying && s.tables.cancelled
    ensures exists n: nat :: Run(s, [WaiterIsGiven(w, input)] + Times(WaiterGoesOn(w, newId), n)).Some? &&
              var t := Run(s, [WaiterIsGiven(w, input)] + Times(WaiterGoesOn(w, newId), n)).value;
              && !t.live && t.closed == s.closed && Finished(s, t) && t.waiters == s.waiters[w := Tidying([], [], false)]
  {
    hide Next, Run, Cleaned, Set, Stopped;
    var d := s.(live := false);
    assert Next(s, WaiterIsGiven(w, input)) == Some(Set(d, w, Tidying(FINISH, [], false))) by { WaiterMarked(s, w, input); }
    TidiesAll(d, w, newId, FINISH, [], false);
    var end := Set(Cleaned(d, FINISH), w, Tidying([], [], false));
    var n: nat :| Run(Set(d, w, Tidying(FINISH, [], false)), Times(WaiterGoesOn(w, newId), n)) == Some(end);
    Then(s, WaiterIsGiven(w, input), Set(d, w, Tidying(FINISH, [], false)), Times(WaiterGoesOn(w, newId), n), end);
    FinishCleans(d);
    CleanedKeeps(d, FINISH);
    CleanedKeepsClosed(d, FINISH);
    SetOnly(Cleaned(d, FINISH), w, Tidying([], [], false));
    SetClosed(Cleaned(d, FINISH), w, Tidying([], [], false));
  }

  lemma WaiterMarked(s: State, w: nat, input: Input)
    requires w in s.waiters && s.waiters[w] == Relaying && s.tables.cancelled
    ensures Next(s, WaiterIsGiven(w, input)) == Some(Set(s.(live := false), w, Tidying(FINISH, [], false)))
  {
  }

  lemma SetClosed(s: State, w: nat, waiter: Waiter)
    ensures Set(s, w, waiter).closed == s.closed
  {
  }
}
