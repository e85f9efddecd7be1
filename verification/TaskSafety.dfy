/** What the clients of an A2A task can rely on, over every interleaving of its
    coroutines on all replicas. */
module TaskSafety {
  import opened Wrappers
  import opened TaskSystem
  import opened TaskInvariant

  lemma StepInv(s: State, l: Label)
    requires Inv(s) && Next(s, l).Some?
    ensures Inv(Next(s, l).value)
  {
    hide Inv, ExecRuns, ExecReceives, ExecRaises, ExecKilled, WaiterRuns, WaiterTakes, WaiterTimesOut, WaiterReceives, WaiterRaises;
    hide CancellerRuns, CancellerRaises, CancelRuns, ForwarderRuns, ForwarderRaises, DropRecord;
    match l
    case ExecGoesOn(newId) => ExecRunsInv(s, newId);
    case ExecIsGiven(input) => ExecReceivesInv(s, input);
    case ExecFails => ExecRaisesInv(s);
    case ExecIsCancelled => ExecKilledInv(s);
    case WaiterGoesOn(w, newId) => WaiterRunsInv(s, w, newId);
    case WaiterIsGiven(w, input) => WaiterReceivesInv(s, w, input);
    case WaiterReads(w, m) => WaiterTakesInv(s, w, m);
    case WaiterExpires(w) => WaiterTimesOutInv(s, w);
    case WaiterFails(w) => WaiterRaisesInv(s, w);
    case CancellerGoesOn => CancellerRunsInv(s);
    case CancellerExpires => CancellerExpiresInv(s);
    case CancellerFails => CancellerRaisesInv(s);
    case CancelComes(c, here) => CancelMovesInv(s, c, Looking(here));
    case CancelGoesOn(c) => CancelRunsInv(s, c);
    case CancelFails(c) => CancelMovesInv(s, c, Cancelled);
    case FeedbackComes(f, contextId, feedbackId, response) =>
      ForwarderMovesInv(s, f, Getting(contextId, feedbackId, response), false);
    case FeedbackGoesOn(f, m, topic) => ForwarderRunsInv(s, f, m, topic);
    case FeedbackFails(f) => ForwarderRaisesInv(s, f);
    case RecordExpires => DropRecordInv(s);
    case OwnerExpires => RemoveOwnerInv(s);
    case MailIsLost(m) => MailIsLostInv(s, m);
    case CancelMailIsLost => CancelMailInv(s, false);
  }

  lemma CancellerExpiresInv(s: State)
    requires Inv(s) && CancellerTimesOut(s).Some?
    ensures Inv(CancellerTimesOut(s).value)
  {
    hide Inv;
    CancellerMovesInv(s, Renewing);
  }

  lemma {:induction false} RunInv(contextId: string, labels: seq<Label>)
    requires After(contextId, labels).Some?
    ensures Inv(After(contextId, labels).value)
    decreases |labels|
  {
    hide Inv, Next;
    if labels == [] {
      InitialInv(contextId);
    } else {
      var before := labels[..|labels| - 1];
      RunInv(contextId, before);
      StepInv(After(contextId, before).value, labels[|labels| - 1]);
    }
  }

  // ---- Delivery ----

  /** Reply number i answers question number i: it carries that question's request id, and
      its client claimed it with that question's feedback id. So no question is answered
      twice, and none out of order. */
  lemma EveryReplyAnswersItsQuestion(contextId: string, labels: seq<Label>)
    requires After(contextId, labels).Some?
    ensures var s := After(contextId, labels).value;
            && |s.delivered| <= |s.asked|
            && forall i :: 0 <= i < |s.delivered| ==>
                 && s.delivered[i].number == i
                 && s.delivered[i].feedbackId == s.asked[i].feedbackId
                 && s.delivered[i].requestId == s.asked[i].requestId
  {
    hide After, OneToken, OneDriver, CancellerOk, LiveOk, ClosesInOrder;
    RunInv(contextId, labels);
  }

  /** Feedback ids that are all different reach the owner's queue at most once each. */
  lemma EachFeedbackIdIsDeliveredOnce(contextId: string, labels: seq<Label>)
    requires After(contextId, labels).Some?
    requires var asked := After(contextId, labels).value.asked;
             forall i, j :: 0 <= i < j < |asked| ==> asked[i].feedbackId != asked[j].feedbackId
    ensures var delivered := After(contextId, labels).value.delivered;
            forall i, j :: 0 <= i < j < |delivered| ==> delivered[i].feedbackId != delivered[j].feedbackId
  {
    hide After;
    EveryReplyAnswersItsQuestion(contextId, labels);
  }

  /** While a reply is on its way, by a claim, in the mail or at the owner, it is alone,
      nobody can claim another, and it is one to the last question. */
  lemma OneReplyAtATime(contextId: string, labels: seq<Label>)
    requires After(contextId, labels).Some?
    ensures var s := After(contextId, labels).value;
            && (forall m, n :: m in s.mail && n in s.mail ==> m == n)
            && (forall f, g :: f in s.forwarders && g in s.forwarders && s.forwarders[f].Claimed? && s.forwarders[g].Claimed? ==> f == g)
            && (s.record.Some? ==> s.mail == map[] && forall f :: f in s.forwarders ==> !s.forwarders[f].Claimed?)
            && (s.mail != map[] ==> |s.delivered| + 1 == |s.asked|)
  {
    hide After, OneDriver, CancellerOk, LiveOk, ClosesInOrder, WaitersToken;
    RunInv(contextId, labels);
    var s := After(contextId, labels).value;
    assert s.mail != map[] ==> exists m :: m in s.mail;
  }

  /** The stored record and the owner's entry never contradict each other. */
  lemma RecordAgreesWithEntry(contextId: string, labels: seq<Label>)
    requires After(contextId, labels).Some?
    ensures var s := After(contextId, labels).value;
            s.record.Some? && s.tables.pending.Some? ==> s.record == s.tables.pending
  {
    hide After, Numbered, OneDriver, CancellerOk, LiveOk, ClosesInOrder, MailToken, ForwardersToken, WaitersToken;
    RunInv(contextId, labels);
  }

  // ---- Life of a task ----

  /** From registration until its owner handles an end, a failure, an expiry or a
      cancellation, a task is in the active or the pending table, and its lease is
      refreshed unless the refresher itself failed. */
  lemma LiveTaskIsKept(contextId: string, labels: seq<Label>)
    requires After(contextId, labels).Some? && After(contextId, labels).value.live
    ensures var s := After(contextId, labels).value;
            && (s.tables.active || s.tables.pending.Some?)
            && (Runs(s.canceller) || s.failed)
            && (Runs(s.canceller) ==> s.tables.canceller == Some(CANCELLER))
  {
    hide After, Numbered, OneToken, OneDriver, ClosesInOrder;
    RunInv(contextId, labels);
  }

  /** No two coroutines read the response stream, write its records or await its reply. */
  lemma OneCoroutineDrives(contextId: string, labels: seq<Label>)
    requires After(contextId, labels).Some?
    ensures var s := After(contextId, labels).value;
            && (Early(s.exec) || s.exec.Cleaning? ==> NoDriver(s.waiters))
            && forall v, w :: v in s.waiters && w in s.waiters && Drives(s.waiters[v]) && Drives(s.waiters[w]) ==> v == w
  {
    hide After, Numbered, OneToken, CancellerOk, LiveOk, ClosesInOrder;
    RunInv(contextId, labels);
  }

  /** Some coroutine stands at its closing event, or one was already emitted. */
  predicate AtClosing(s: State) {
    || s.closed
    || (s.exec.Cleaning? && s.exec.todo == [] && s.exec.closing.Some?)
    || exists w :: w in s.waiters && Closes(s.waiters[w]) && s.waiters[w].todo == []
  }

  /** Before a closing event is emitted or published the lease refresher is stopped and
      the owner record removed, and neither ever comes back. */
  lemma ClosingComesLast(contextId: string, labels: seq<Label>)
    requires After(contextId, labels).Some? && AtClosing(After(contextId, labels).value)
    ensures var s := After(contextId, labels).value;
            !s.ownerSaved && !Runs(s.canceller) && NoDriver(s.waiters)
  {
    hide After, Numbered, OneToken, CancellerOk, LiveOk, Runs, NoDriver;
    RunInv(contextId, labels);
  }

  // ---- A window the code leaves open ----

  /** While the task is live, a stored record has its entry: a record can outlive its entry
      only once an end, a failure, an expiry or a cancellation was handled. */
  lemma LiveRecordHasEntry(contextId: string, labels: seq<Label>)
    requires After(contextId, labels).Some? && After(contextId, labels).value.live
    ensures var s := After(contextId, labels).value;
            s.record.Some? ==> s.tables.pending == s.record
  {
    hide After, Numbered, CancellerOk, ClosesInOrder, MailToken, ForwardersToken, WaitersToken, DriverIsListed;
    RunInv(contextId, labels);
  }

  /** While the task is live, a reply that reaches its waiter goes to the receiver's queue,
      as the answer to the pending question. */
  lemma LiveReplyIsTaken(contextId: string, labels: seq<Label>, w: nat, newId: nat)
    requires After(contextId, labels).Some? && After(contextId, labels).value.live
    requires var s := After(contextId, labels).value; w in s.waiters && s.waiters[w].Got?
    ensures var s := After(contextId, labels).value;
            && Next(s, WaiterGoesOn(w, newId)).Some?
            && Next(s, WaiterGoesOn(w, newId)).value.waiters[w] == Putting(s.waiters[w].reply)
            && s.tables.pending.Some? && RepliesTo(s.waiters[w].reply, s.tables.pending.value)
  {
    hide After, Numbered, CancellerOk, ClosesInOrder, MailToken, ForwardersToken, DriverIsListed;
    RunInv(contextId, labels);
  }
}
