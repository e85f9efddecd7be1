/** Runs of the protocol: one from the request to the closing message, so that what the
    safety statements speak about does happen, and one through a window the code leaves
    open, in which a stored record outlives its entry and a client's reply is lost. */
module TaskExample {
  import opened Wrappers
  import opened Answers
  import opened Relay
  import opened TaskTables
  import opened TaskSystem

  const Q := Question(0, "context", "feedback", "request")
  const ASKS := AragAnswer(AgentRequest, None, Some(Feedback("request", "feedback", "Sure?", "ask", "agent", "")), None, None, None, None)
  const DONE := AragAnswer(Done, None, None, None, None, None, None)
  const ANSWER := Reply(0, "feedback", "request", "yes", "topic")

  /** The owner is about to save the record of its first pause. */
  const SAVING := State("context", Tables(Some(Q), None, Some(0), false, true), true, None, map[], false, SavingPending(Q),
                        map[], Checking, map[], map[], [Q], [], AtExec, true, false, false)

  /** The owner has asked and waits for an answer. */
  const PAUSED := State("context", Tables(Some(Q), Some(0), Some(0), false, true), true, Some(Q), map[], false, Yielding,
                        map[0 := Waiting], Checking, map[], map[], [Q], [], InStore, true, false, false)

  /** The answer is in its queue, and it relays. */
  const ANSWERED := PAUSED.(record := None, waiters := map[0 := Relaying], forwarders := map[0 := Sent],
                            delivered := [ANSWER], token := Nowhere)

  /** One more step of a run. */
  lemma Go(labels: seq<Label>, s: State, l: Label, t: State) returns (more: seq<Label>)
    requires After("context", labels) == Some(s) && Next(s, l) == Some(t)
    ensures more == labels + [l] && After("context", more) == Some(t)
  {
    hide Next;
    more := labels + [l];
    assert more[..|labels|] == labels;
  }

  lemma RunsToSave() returns (labels: seq<Label>)
    ensures After("context", labels) == Some(SAVING)
  {
    hide After;
    labels := [];
    assert After("context", []) == Some(Initial("context")) by { NoSteps(); }
    var s1 := Initial("context").(ownerSaved := true, exec := Registering);
    var s2 := s1.(tables := Tables(None, None, Some(0), false, true), canceller := Checking, live := true, exec := Streaming);
    labels := Go(labels, Initial("context"), ExecGoesOn(0), s1);
    labels := Go(labels, s1, ExecGoesOn(0), s2);
    assert [] + [Q] == [Q];
    labels := Go(labels, s2, ExecIsGiven(Gives(ASKS)), SAVING);
  }

  lemma RunsToPause() returns (labels: seq<Label>)
    ensures After("context", labels) == Some(PAUSED)
  {
    hide After;
    labels := RunsToSave();
    var s4 := SAVING.(record := Some(Q), token := InStore, exec := StartingWaiter);
    labels := Go(labels, SAVING, ExecGoesOn(0), s4);
    labels := Go(labels, s4, ExecGoesOn(0), PAUSED);
  }

  /** The step of the only forwarder. */
  lemma GoForward(labels: seq<Label>, s: State, l: Label, f: Forwarder, g: Forwarder, t: State) returns (more: seq<Label>)
    requires After("context", labels) == Some(s) && s.forwarders == map[0 := f]
    requires Next(s, l) == Some(t.(forwarders := s.forwarders[0 := g])) && t.forwarders == map[0 := g]
    ensures After("context", more) == Some(t)
  {
    hide Next;
    assert map[0 := f][0 := g] == map[0 := g];
    assert t.(forwarders := map[0 := g]) == t;
    more := Go(labels, s, l, t);
  }

  /** The step of the only waiter. */
  lemma GoWait(labels: seq<Label>, s: State, l: Label, w: Waiter, v: Waiter, t: State) returns (more: seq<Label>)
    requires After("context", labels) == Some(s) && s.waiters == map[0 := w]
    requires Next(s, l) == Some(t.(waiters := s.waiters[0 := v])) && t.waiters == map[0 := v]
    ensures After("context", more) == Some(t)
  {
    hide Next;
    assert map[0 := w][0 := v] == map[0 := v];
    assert t.(waiters := map[0 := v]) == t;
    more := Go(labels, s, l, t);
  }

  lemma NoSteps()
    ensures After("context", []) == Some(Initial("context"))
  {
  }

  /** A client claims the stored record and mails its reply. */
  function Mailed(s: State): State {
    s.(record := None, forwarders := map[0 := Sent], mail := map[0 := ANSWER], token := InMail(0))
  }

  lemma RunsToClaim(before: seq<Label>, s: State) returns (labels: seq<Label>)
    requires After("context", before) == Some(s) && s.record == Some(Q) && s.forwarders == map[] && s.mail == map[]
    ensures After("context", labels) == Some(Mailed(s))
  {
    hide After;
    var s1 := s.(forwarders := map[0 := Getting("context", "feedback", "yes")]);
    var s2 := s.(forwarders := map[0 := Matched("context", "feedback", "yes")]);
    var s3 := s.(record := None, forwarders := map[0 := Claimed(Q, "feedback", "yes")], token := AtForwarder(0));
    labels := Go(before, s, FeedbackComes(0, "context", "feedback", "yes"), s1);
    labels := GoForward(labels, s1, FeedbackGoesOn(0, 0, "topic"), s1.forwarders[0], s2.forwarders[0], s2);
    labels := GoForward(labels, s2, FeedbackGoesOn(0, 0, "topic"), s2.forwarders[0], s3.forwarders[0], s3);
    labels := GoForward(labels, s3, FeedbackGoesOn(0, 0, "topic"), s3.forwarders[0], Sent, Mailed(s));
  }

  lemma RunsToDelivery() returns (labels: seq<Label>)
    ensures After("context", labels) == Some(ANSWERED)
  {
    hide After;
    labels := RunsToPause();
    labels := RunsToClaim(labels, PAUSED);
    var s0 := Mailed(PAUSED);
    var s1 := ANSWERED.(waiters := map[0 := Got(ANSWER)], delivered := [], token := AtWaiter(0));
    var s2 := s1.(waiters := map[0 := Putting(ANSWER)]);
    assert s0.mail - {0} == map[];
    labels := GoWait(labels, s0, WaiterReads(0, 0), Waiting, Got(ANSWER), s1);
    labels := GoWait(labels, s1, WaiterGoesOn(0, 0), Got(ANSWER), Putting(ANSWER), s2);
    assert [] + [ANSWER] == [ANSWER];
    labels := GoWait(labels, s2, WaiterGoesOn(0, 0), Putting(ANSWER), Relaying, ANSWERED);
  }

  function Tidies(s: State, todo: seq<Cleanup>): State {
    s.(live := false, waiters := map[0 := Tidying(todo, [AgentDone], false)])
  }

  const WORK: seq<Cleanup> := [Pop, RemoveRecord, StopCanceller, RemoveOwner, Forget]

  /** One action of the clean-up. */
  lemma GoTidy(labels: seq<Label>, s: State, todo: seq<Cleanup>, t: State) returns (more: seq<Label>)
    requires After("context", labels) == Some(Tidies(s, todo)) && todo != [] && todo[0] != Drop
    requires t == Clean(Tidies(s, todo), todo[0])
    ensures After("context", more) == Some(Tidies(t, todo[1..]))
  {
    hide After, CleanTables, Stopped;
    var to := Tidying(todo[1..], [AgentDone], false);
    more := GoWait(labels, Tidies(s, todo), WaiterGoesOn(0, 0), Tidying(todo, [AgentDone], false), to, Tidies(t, todo[1..]));
  }

  lemma RunsToEndOfWork() returns (labels: seq<Label>, s: State)
    ensures After("context", labels) == Some(Tidies(s, [])) && s.asked == [Q] && s.delivered == [ANSWER]
  {
    hide After, Clean;
    labels := RunsToDelivery();
    assert REMOVE + FINISH == WORK;
    labels := GoWait(labels, ANSWERED, WaiterIsGiven(0, Gives(DONE)), Relaying, Tidying(WORK, [AgentDone], false), Tidies(ANSWERED, WORK));
    s := ANSWERED;
    labels, s := Tidy(labels, s, WORK);
  }

  /** A whole clean-up that drops no pending entry. */
  lemma {:induction false} Tidy(labels: seq<Label>, s: State, todo: seq<Cleanup>) returns (more: seq<Label>, t: State)
    requires After("context", labels) == Some(Tidies(s, todo))
    requires Drop !in todo
    ensures After("context", more) == Some(Tidies(t, [])) && t.asked == s.asked && t.delivered == s.delivered
    decreases |todo|
  {
    hide After;
    if todo == [] {
      more, t := labels, s;
    } else {
      assert todo[0] in todo;
      var next := Clean(Tidies(s, todo), todo[0]);
      more := GoTidy(labels, s, todo, next);
      more, t := Tidy(more, next, todo[1..]);
    }
  }

  /** Some run pauses, delivers the answer to its question and publishes its closing. */
  lemma SomeRunAnswersAndCloses()
    ensures exists labels :: After("context", labels).Some? && After("context", labels).value.delivered == [ANSWER] &&
                             After("context", labels).value.asked == [Q] && After("context", labels).value.closed
  {
    hide After;
    var labels, s := RunsToEndOfWork();
    var t := Tidies(s, []).(closed := true, waiters := map[0 := Tidying([], [], false)]);
    assert [AgentDone][1..] == [];
    labels := GoWait(labels, Tidies(s, []), WaiterGoesOn(0, 0), Tidying([], [AgentDone], false), Tidying([], [], false), t);
  }

  // ---- A run through the window ----

  /** A cancel came while the record was being saved, and has finished. */
  const CANCELED := SAVING.(tables := Tables(None, None, None, true, false), ownerSaved := false, canceller := Quitting,
                            cancels := map[0 := Cancelled], live := false)

  /** The save takes effect after all. */
  const OUTLIVED := CANCELED.(record := Some(Q), token := InStore, exec := StartingWaiter)

  /** The step of the only cancel. */
  lemma GoCancel(labels: seq<Label>, s: State, c: Cancel, d: Cancel, t: State) returns (more: seq<Label>)
    requires After("context", labels) == Some(s) && s.cancels == map[0 := c]
    requires CancelRuns(s, 0) == Some(t.(cancels := s.cancels[0 := d])) && t.cancels == map[0 := d]
    ensures After("context", more) == Some(t)
  {
    hide CancelRuns;
    assert map[0 := c][0 := d] == map[0 := d];
    assert t.(cancels := map[0 := d]) == t;
    more := Go(labels, s, CancelGoesOn(0), t);
  }

  /** The cancel has these store operations left. */
  function Cancels(ownerSaved: bool, todo: seq<Cleanup>): State {
    CANCELED.(ownerSaved := ownerSaved, cancels := map[0 := Cancelling(todo)])
  }

  lemma RunsToCancel() returns (labels: seq<Label>)
    ensures After("context", labels) == Some(Cancels(true, [ShutDown, RemoveRecord, RemoveOwner]))
  {
    hide After;
    labels := RunsToSave();
    var s1 := SAVING.(cancels := map[0 := Looking(true)]);
    var s2 := SAVING.(cancels := map[0 := Found(true, false)]);
    var s3 := Cancels(true, [ShutDown, RemoveRecord, RemoveOwner]);
    labels := Go(labels, SAVING, CancelComes(0, true), s1);
    labels := GoCancel(labels, s1, s1.cancels[0], s2.cancels[0], s2);
    labels := GoCancel(labels, s2, s2.cancels[0], s3.cancels[0], s3);
  }

  /** One action of the cancel. */
  lemma GoClear(labels: seq<Label>, saved: bool, todo: seq<Cleanup>) returns (more: seq<Label>)
    requires After("context", labels) == Some(Cancels(saved, todo)) && todo != []
    requires todo[0].ShutDown? || todo[0].RemoveRecord? || todo[0].RemoveOwner?
    ensures After("context", more) == Some(Cancels(saved && !todo[0].RemoveOwner?, todo[1..]))
  {
    hide After;
    more := GoCancel(labels, Cancels(saved, todo), Cancelling(todo), Cancelling(todo[1..]),
                     Cancels(saved && !todo[0].RemoveOwner?, todo[1..]));
  }

  lemma RunsToOutlived() returns (labels: seq<Label>)
    ensures After("context", labels) == Some(OUTLIVED)
  {
    hide After;
    labels := RunsToCancel();
    labels := GoClear(labels, true, [ShutDown, RemoveRecord, RemoveOwner]);
    assert [ShutDown, RemoveRecord, RemoveOwner][1..] == [RemoveRecord, RemoveOwner];
    labels := GoClear(labels, true, [RemoveRecord, RemoveOwner]);
    assert [RemoveRecord, RemoveOwner][1..] == [RemoveOwner];
    labels := GoClear(labels, true, [RemoveOwner]);
    assert [RemoveOwner][1..] == [];
    labels := GoCancel(labels, Cancels(false, []), Cancelling([]), Cancelled, CANCELED);
    labels := Go(labels, CANCELED, ExecGoesOn(0), OUTLIVED);
  }

  /** In some run a record is stored after the cancel that removed it and its entry is over. */
  lemma SomeRecordOutlivesItsEntry()
    ensures exists labels :: After("context", labels).Some? &&
              var s := After("context", labels).value;
              s.record == Some(Q) && s.tables.pending.None? && s.cancels == map[0 := Cancelled]
  {
    hide After;
    var labels := RunsToOutlived();
  }

  /** In some run a client claims that record and its reply is sent and handed out, but
      reaches no queue, and nobody is left who could deliver it. */
  lemma SomeReplyIsLost()
    ensures exists labels :: After("context", labels).Some? &&
              var s := After("context", labels).value;
              && s.forwarders == map[0 := Sent] && s.mail == map[] && s.record.None?
              && s.asked == [Q] && s.delivered == [] && s.waiters == map[0 := Finishing]
  {
    hide After;
    var labels := RunsToOutlived();
    var s1 := OUTLIVED.(tables := OUTLIVED.tables.StartWaiter(0), waiters := map[0 := Waiting], exec := Yielding);
    labels := Go(labels, OUTLIVED, ExecGoesOn(0), s1);
    labels := RunsToClaim(labels, s1);
    var s2 := s1.(record := None, forwarders := map[0 := Sent], waiters := map[0 := Got(ANSWER)], token := AtWaiter(0));
    assert Mailed(s1).mail - {0} == map[];
    labels := GoWait(labels, Mailed(s1), WaiterReads(0, 0), Waiting, Got(ANSWER), s2);
    var s3 := s2.(waiters := map[0 := Finishing], token := Nowhere);
    labels := GoWait(labels, s2, WaiterGoesOn(0, 0), Got(ANSWER), Finishing, s3);
  }
}
