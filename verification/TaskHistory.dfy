/** Where what reaches the owner comes from: every question was asked by the response
    stream, and every reply in the receiver's queue is what a client sent, word for word. */
module TaskHistory {
  import opened Wrappers
  import opened Answers
  import opened Relay
  import opened TaskTables
  import opened TaskSystem
  import opened TaskInvariant
  import opened TaskSafety

  // ---- What the steps of a run were given ----

  /** The step is given an answer that asks this question. */
  predicate Asks(l: Label, q: Question) {
    && (l.ExecIsGiven? || l.WaiterIsGiven?) && l.input.Gives? && IsPause(l.input.answer)
    && l.input.answer.feedback.value.feedbackId == q.feedbackId
    && l.input.answer.feedback.value.requestId == q.requestId
  }

  /** The client's feedback comes to a replica. */
  predicate Comes(l: Label, f: nat, contextId: string, feedbackId: string, response: string) {
    l == FeedbackComes(f, contextId, feedbackId, response)
  }

  /** The client's feedback comes with the text of the reply, and goes on with its topic. */
  predicate Sends(come: Label, go: Label, contextId: string, r: Reply) {
    && come.FeedbackComes? && go.FeedbackGoesOn? && go.f == come.f
    && come.contextId == contextId && come.feedbackId == r.feedbackId && come.response == r.response
    && go.topic == r.topic
  }

  predicate WasAsked(labels: seq<Label>, q: Question) {
    exists j :: 0 <= j < |labels| && Asks(labels[j], q)
  }

  predicate Came(labels: seq<Label>, f: nat, contextId: string, feedbackId: string, response: string) {
    exists j :: 0 <= j < |labels| && Comes(labels[j], f, contextId, feedbackId, response)
  }

  predicate WasSent(labels: seq<Label>, contextId: string, r: Reply) {
    exists j, k :: 0 <= j < k < |labels| && Sends(labels[j], labels[k], contextId, r)
  }

  // ---- What a state holds of it ----

  /** The client's words a forwarder carries. */
  predicate Carries(labels: seq<Label>, contextId: string, f: nat, forwarder: Forwarder) {
    match forwarder
    case Getting(c, feedbackId, response) => Came(labels, f, c, feedbackId, response)
    case Matched(c, feedbackId, response) => Came(labels, f, c, feedbackId, response)
    case Claimed(_, feedbackId, response) => Came(labels, f, contextId, feedbackId, response)
    case _ => true
  }

  function Held(w: Waiter): Option<Reply> {
    match w
    case Got(r) => Some(r)
    case Putting(r) => Some(r)
    case _ => None
  }

  predicate ForwardersCarry(labels: seq<Label>, contextId: string, forwarders: map<nat, Forwarder>) {
    forall f :: f in forwarders ==> Carries(labels, contextId, f, forwarders[f])
  }

  predicate MailWasSent(labels: seq<Label>, contextId: string, mail: map<nat, Reply>) {
    forall m :: m in mail ==> WasSent(labels, contextId, mail[m])
  }

  predicate HeldWasSent(labels: seq<Label>, contextId: string, waiters: map<nat, Waiter>) {
    forall w :: w in waiters && Held(waiters[w]).Some? ==> WasSent(labels, contextId, Held(waiters[w]).value)
  }

  predicate DeliveredWasSent(labels: seq<Label>, contextId: string, delivered: seq<Reply>) {
    forall i :: 0 <= i < |delivered| ==> WasSent(labels, contextId, delivered[i])
  }

  predicate QuestionsWereAsked(labels: seq<Label>, contextId: string, asked: seq<Question>) {
    forall i :: 0 <= i < |asked| ==> asked[i].contextId == contextId && WasAsked(labels, asked[i])
  }

  predicate Recorded(labels: seq<Label>, contextId: string, s: State) {
    && s.contextId == contextId
    && QuestionsWereAsked(labels, contextId, s.asked)
    && ForwardersCarry(labels, contextId, s.forwarders)
    && MailWasSent(labels, contextId, s.mail)
    && HeldWasSent(labels, contextId, s.waiters)
    && DeliveredWasSent(labels, contextId, s.delivered)
  }

  // ---- A longer run ----

  lemma OneMore(labels: seq<Label>, l: Label, contextId: string, s: State)
    requires Recorded(labels, contextId, s)
    ensures Recorded(labels + [l], contextId, s)
  {
    hide Asks, Comes, Sends;
    var more := labels + [l];
    forall q | WasAsked(labels, q) ensures WasAsked(more, q) {
      var j :| 0 <= j < |labels| && Asks(labels[j], q);
      assert Asks(more[j], q);
    }
    forall f, c, feedbackId, response | Came(labels, f, c, feedbackId, response) ensures Came(more, f, c, feedbackId, response) {
      var j :| 0 <= j < |labels| && Comes(labels[j], f, c, feedbackId, response);
      assert Comes(more[j], f, c, feedbackId, response);
    }
    forall r | WasSent(labels, contextId, r) ensures WasSent(more, contextId, r) {
      var j, k :| 0 <= j < k < |labels| && Sends(labels[j], labels[k], contextId, r);
      assert Sends(more[j], more[k], contextId, r);
    }
  }

  // ---- One step ----

  predicate HeldKept(before: map<nat, Waiter>, after: map<nat, Waiter>) {
    forall w :: w in after && Held(after[w]).Some? ==> w in before && Held(before[w]) == Held(after[w])
  }

  /** The step takes nothing from a client and gives nothing to the owner. */
  predicate Kept(s: State, t: State) {
    && t.contextId == s.contextId && t.asked == s.asked && t.forwarders == s.forwarders && t.delivered == s.delivered
    && (forall m :: m in t.mail ==> m in s.mail && t.mail[m] == s.mail[m])
    && HeldKept(s.waiters, t.waiters)
  }

  lemma KillKeeps(s: State, victim: Option<nat>)
    ensures Kept(s, Kill(s, victim))
  {
  }

  lemma CleanKeeps(s: State, a: Cleanup)
    ensures Kept(s, Clean(s, a)) && Clean(s, a).waiters == s.waiters
  {
    hide CleanTables, Stopped;
  }

  lemma StopWaiterKeeps(s: State)
    ensures Kept(s, StopWaiter(s))
  {
  }

  lemma BeginCancelKeeps(s: State, byCanceller: bool)
    ensures Kept(s, BeginCancel(s, byCanceller))
  {
    hide CancelWork, Stopped;
  }

  /** A waiter that holds no reply changes nothing of this. */
  lemma SetKeeps(s: State, t: State, w: nat, waiter: Waiter)
    requires Kept(s, t) && (Held(waiter).None? || (w in s.waiters && Held(s.waiters[w]) == Held(waiter)))
    ensures Kept(s, t.(waiters := t.waiters[w := waiter]))
  {
  }

  /** What else a step changes does not matter. */
  lemma RestKeeps(s: State, tables: Tables, ownerSaved: bool, record: Option<Question>, exec: Exec, canceller: Canceller,
                  token: Token, live: bool, closed: bool)
    ensures Kept(s, s.(tables := tables, ownerSaved := ownerSaved, record := record, exec := exec, canceller := canceller,
                       token := token, live := live, closed := closed))
  {
  }

  lemma CancelRestKeeps(s: State, ownerSaved: bool, record: Option<Question>, cancelMail: bool, canceller: Canceller,
                        cancels: map<nat, Cancel>, token: Token, failed: bool)
    ensures Kept(s, s.(ownerSaved := ownerSaved, record := record, cancelMail := cancelMail, canceller := canceller,
                       cancels := cancels, token := token, failed := failed))
  {
  }

  lemma ExecRunsKeeps(s: State, newId: nat)
    requires ExecRuns(s, newId).Some?
    ensures Kept(s, ExecRuns(s, newId).value)
  {
    hide Kept, Clean, StopWaiter, LeftAfter, Kill;
    var e := s.exec;
    match e
    case SavingOwner => RestKeeps(s, s.tables, true, s.record, Registering, s.canceller, s.token, s.live, s.closed);
    case Registering =>
      RestKeeps(s, s.tables.Register(CANCELLER), s.ownerSaved, s.record, Streaming, Checking, s.token, true, s.closed);
    case Showing => RestKeeps(s, s.tables, s.ownerSaved, s.record, Streaming, s.canceller, s.token, s.live, s.closed);
    case SavingPending(q) =>
      RestKeeps(s, s.tables, s.ownerSaved, Some(q), StartingWaiter, s.canceller, InStore, s.live, s.closed);
    case StartingWaiter => ExecStartsKeeps(s, newId);
    case Yielding => RestKeeps(s, s.tables, s.ownerSaved, s.record, Asking, s.canceller, s.token, s.live, s.closed);
    case Asking => RestKeeps(s, s.tables, s.ownerSaved, s.record, Leaving, s.canceller, s.token, s.live, s.closed);
    case Cleaning(todo, closing, handling) =>
      if todo == [] {
        RestKeeps(s, s.tables, s.ownerSaved, s.record, Leaving, s.canceller, s.token, s.live, s.closed || closing.Some?);
      } else {
        ExecCleansKeeps(s, todo[0], Cleaning(LeftAfter(s, todo), closing, handling));
      }
    case Leaving => RestKeeps(s, s.tables.LeaveExecute(), s.ownerSaved, s.record, Ended, s.canceller, s.token, s.live, s.closed);
  }

  lemma ExecStartsKeeps(s: State, newId: nat)
    ensures var t := StopWaiter(s);
            Kept(s, t.(tables := t.tables.StartWaiter(newId), waiters := t.waiters[newId := Waiting], exec := Yielding))
  {
    StopWaiterKeeps(s);
  }

  lemma ExecCleansKeeps(s: State, a: Cleanup, e: Exec)
    ensures Kept(s, Clean(s, a).(exec := e))
  {
    hide CleanTables, Stopped;
  }

  lemma ExecRaisesKeeps(s: State)
    requires ExecRaises(s).Some?
    ensures Kept(s, ExecRaises(s).value)
  {
    hide Kept, StopWaiter, ExecLoses;
    var t := ExecRaises(s).value;
    if Unregistered(s.exec) || (s.exec.Cleaning? && s.exec.handling) {
      RestKeeps(s, s.tables, s.ownerSaved, s.record, t.exec, s.canceller, s.token, s.live, s.closed);
    } else {
      ExecHandlesKeeps(s, t.exec);
    }
  }

  lemma ExecHandlesKeeps(s: State, e: Exec)
    ensures Kept(s, ExecLoses(StopWaiter(s.(live := false))).(exec := e))
  {
    StopWaiterKeeps(s.(live := false));
  }

  lemma ExecKilledKeeps(s: State)
    requires ExecKilled(s).Some?
    ensures Kept(s, ExecKilled(s).value)
  {
    hide Kept;
    if Unregistered(s.exec) {
      RestKeeps(s, s.tables, s.ownerSaved, s.record, Ended, s.canceller, s.token, s.live, s.closed);
    } else {
      RestKeeps(s, s.tables, s.ownerSaved, s.record, Leaving, s.canceller, ExecLoses(s).token, false, s.closed);
    }
  }

  // ---- The waiters ----

  lemma WaiterRestKeeps(s: State, w: nat, waiter: Waiter, tables: Tables, ownerSaved: bool, record: Option<Question>, token: Token,
                        live: bool, closed: bool)
    requires w in s.waiters && !waiter.Got? && !waiter.Putting?
    ensures Kept(s, Set(s, w, waiter).(tables := tables, ownerSaved := ownerSaved, record := record, token := token, live := live, closed := closed))
  {
  }

  /** A waiter that is not putting its reply in the queue. */
  lemma WaiterRunsKeeps(s: State, w: nat, newId: nat)
    requires WaiterRuns(s, w, newId).Some? && !s.waiters[w].Putting?
    ensures Kept(s, WaiterRuns(s, w, newId).value)
  {
    hide Kept, Clean, Kill, LeftAfter, Held, Set;
    match s.waiters[w]
    case Got(reply) => WaiterGotKeeps(s, w);
    case Publishing => WaiterMoves(s, w, Relaying);
    case RenewingOwner(q) =>
      WaiterRenewsKeeps(s, w, q);
    case SavingRecord(q) =>
      WaiterSavesKeeps(s, w, q);
    case StartingNext => WaiterStartsNextKeeps(s, w, newId);
    case YieldingNext => WaiterMoves(s, w, AskingNext);
    case AskingNext => WaiterMoves(s, w, Finishing);
    case Tidying(todo, closing, handling) => WaiterTidiesKeeps(s, w, newId);
    case Finishing =>
      WaiterLeavesKeeps(s, w);
  }

  lemma WaiterMoves(s: State, w: nat, waiter: Waiter)
    requires w in s.waiters && !waiter.Got? && (waiter.Putting? ==> s.waiters[w] == Got(waiter.reply))
    ensures Kept(s, Set(s, w, waiter))
  {
  }

  lemma WaiterGotKeeps(s: State, w: nat)
    requires w in s.waiters && s.waiters[w].Got?
    ensures Kept(s, if s.tables.pending.Some? then Set(s, w, Putting(s.waiters[w].reply)) else Set(s, w, Finishing).(token := Nowhere))
  {
  }

  lemma WaiterRenewsKeeps(s: State, w: nat, q: Question)
    requires w in s.waiters
    ensures Kept(s, Set(s, w, SavingRecord(q)).(ownerSaved := true))
  {
  }

  lemma WaiterSavesKeeps(s: State, w: nat, q: Question)
    requires w in s.waiters
    ensures Kept(s, Set(s, w, StartingNext).(record := Some(q), token := InStore))
  {
  }

  lemma WaiterLeavesKeeps(s: State, w: nat)
    requires w in s.waiters
    ensures Kept(s, Set(s, w, Dead).(tables := s.tables.WaiterLeaves(w)))
  {
  }

  lemma WaiterTidiesKeeps(s: State, w: nat, newId: nat)
    requires w in s.waiters && s.waiters[w].Tidying?
    ensures Kept(s, WaiterRuns(s, w, newId).value)
  {
    hide Kept, Clean, LeftAfter, Held;
    var Tidying(todo, closing, handling) := s.waiters[w];
    if todo != [] {
      WaiterCleansKeeps(s, w, todo[0], Tidying(LeftAfter(s, todo), closing, handling));
    } else if closing != [] {
      WaiterRestKeeps(s, w, Tidying([], closing[1..], handling), s.tables, s.ownerSaved, s.record, s.token, s.live, true);
    } else {
      WaiterMoves(s, w, Finishing);
    }
  }

  lemma WaiterStartsNextKeeps(s: State, w: nat, newId: nat)
    requires w in s.waiters
    ensures var s1 := Kill(s, Victim(s.tables.waiter, Some(w)));
            Kept(s, Set(Set(s1, w, YieldingNext), newId, Waiting).(tables := s.tables.StartWaiter(newId)))
  {
    KillKeeps(s, Victim(s.tables.waiter, Some(w)));
  }

  lemma WaiterCleansKeeps(s: State, w: nat, a: Cleanup, waiter: Waiter)
    requires w in s.waiters && !waiter.Got? && !waiter.Putting?
    ensures Kept(s, Set(Clean(s, a), w, waiter))
  {
    hide CleanTables, Stopped;
  }

  lemma WaiterStopsKeeps(s: State, w: nat)
    ensures WaiterTimesOut(s, w).Some? ==> Kept(s, WaiterTimesOut(s, w).value)
    ensures WaiterRaises(s, w).Some? ==> Kept(s, WaiterRaises(s, w).value)
  {
    hide Kept, Held;
    if w in s.waiters {
      var tidy, fail := Tidying(DISCARD + FINISH, [], false), Tidying(DISCARD + FINISH, [], true);
      WaiterRestKeeps(s, w, tidy, s.tables, s.ownerSaved, s.record, s.token, false, s.closed);
      WaiterRestKeeps(s, w, fail, s.tables, s.ownerSaved, s.record, Without(s.token, w), false, s.closed);
      WaiterRestKeeps(s, w, Finishing, s.tables, s.ownerSaved, s.record, s.token, s.live, s.closed);
    }
  }

  // ---- Cancelling, expiring, losing ----

  lemma CancellerRunsKeeps(s: State)
    requires CancellerRuns(s).Some?
    ensures Kept(s, CancellerRuns(s).value)
  {
    hide Kept, Clean, BeginCancel, LeftAfter;
    var t := CancellerRuns(s).value;
    match s.canceller
    case Notified => BeginCancelKeeps(s, true);
    case Stopping(todo) =>
      if todo == [] { CancellerMoves(s, Quitting); } else { CancellerCleansKeeps(s, todo[0], Stopping(LeftAfter(s, todo))); }
    case Quitting => RestKeeps(s, s.tables.CancellerLeaves(CANCELLER), s.ownerSaved, s.record, s.exec, Gone, s.token, s.live, s.closed);
    case Checking => CancellerMoves(s, if s.tables.InUse() then Receiving else Quitting);
    case Receiving => CancelRestKeeps(s, s.ownerSaved, s.record, false, Notified, s.cancels, s.token, s.failed);
    case Renewing => CancelRestKeeps(s, true, s.record, s.cancelMail, Checking, s.cancels, s.token, s.failed);
  }

  lemma CancellerMoves(s: State, c: Canceller)
    ensures Kept(s, s.(canceller := c))
  {
  }

  lemma CancellerCleansKeeps(s: State, a: Cleanup, c: Canceller)
    ensures Kept(s, Clean(s, a).(canceller := c))
  {
    hide CleanTables, Stopped;
  }

  lemma CancellerStopsKeeps(s: State)
    ensures CancellerTimesOut(s).Some? ==> Kept(s, CancellerTimesOut(s).value)
    ensures CancellerRaises(s).Some? ==> Kept(s, CancellerRaises(s).value)
  {
    hide Kept;
    CancelRestKeeps(s, s.ownerSaved, s.record, s.cancelMail, Renewing, s.cancels, s.token, s.failed);
    CancelRestKeeps(s, s.ownerSaved, s.record, s.cancelMail, Quitting, s.cancels, s.token, true);
  }

  lemma CancelMoves(s: State, c: nat, to: Cancel, cancelMail: bool)
    ensures Kept(s, s.(cancels := s.cancels[c := to], cancelMail := cancelMail))
  {
  }

  lemma CancelRunsKeeps(s: State, c: nat)
    requires CancelRuns(s, c).Some?
    ensures Kept(s, CancelRuns(s, c).value)
  {
    hide Kept, Clean, BeginCancel, CancelWork, LeftAfter;
    match s.cancels[c]
    case Looking(here) => CancelMoves(s, c, Found(here, s.ownerSaved && !here), s.cancelMail);
    case Found(here, remote) =>
      if remote { CancelMoves(s, c, Sending, s.cancelMail); }
      else if here { CancelBeginsKeeps(s, c, Cancelling(CancelWork(s))); }
      else { CancelMoves(s, c, Cancelling([RemoveRecord, RemoveOwner]), s.cancelMail); }
    case Sending => CancelMoves(s, c, Cancelled, true);
    case Cancelling(todo) =>
      if todo == [] { CancelMoves(s, c, Cancelled, s.cancelMail); } else { CancelCleansKeeps(s, todo[0], c, Cancelling(LeftAfter(s, todo))); }
  }

  lemma CancelBeginsKeeps(s: State, c: nat, to: Cancel)
    ensures Kept(s, BeginCancel(s, false).(cancels := s.cancels[c := to]))
  {
    BeginCancelKeeps(s, false);
  }

  lemma CancelCleansKeeps(s: State, a: Cleanup, c: nat, to: Cancel)
    ensures Kept(s, Clean(s, a).(cancels := s.cancels[c := to]))
  {
    hide CleanTables, Stopped;
  }

  lemma LossKeeps(s: State, m: nat)
    ensures Kept(s, DropRecord(s)) && Kept(s, s.(ownerSaved := false)) && Kept(s, s.(cancelMail := false))
    ensures Kept(s, s.(mail := s.mail - {m}, token := if s.token == InMail(m) then Nowhere else s.token))
  {
  }

  // ---- The steps that take and give ----

  lemma KeptRecorded(labels: seq<Label>, contextId: string, s: State, t: State)
    requires Recorded(labels, contextId, s) && Kept(s, t)
    ensures Recorded(labels, contextId, t)
  {
    hide WasAsked, Carries, WasSent;
  }

  lemma PauseRecorded(labels: seq<Label>, contextId: string, s: State, feedback: Feedback, token: Token)
    requires Recorded(labels, contextId, s) && labels != []
    requires Asks(labels[|labels| - 1], Pauses(s, feedback, token).1)
    ensures Recorded(labels, contextId, Pauses(s, feedback, token).0)
  {
    hide Asks, Carries, WasSent;
    assert WasAsked(labels, Pauses(s, feedback, token).1);
  }

  lemma ReadsRecorded(labels: seq<Label>, contextId: string, s: State, w: nat, m: nat)
    requires Recorded(labels, contextId, s) && WaiterTakes(s, w, m).Some?
    ensures Recorded(labels, contextId, WaiterTakes(s, w, m).value)
  {
    hide WasAsked, Carries, WasSent;
  }

  lemma PutsRecorded(labels: seq<Label>, contextId: string, s: State, w: nat)
    requires Recorded(labels, contextId, s) && w in s.waiters && s.waiters[w].Putting?
    ensures Recorded(labels, contextId, Set(s, w, Relaying).(delivered := s.delivered + [s.waiters[w].reply], token := Nowhere))
  {
    hide WasAsked, Carries, WasSent;
    assert Held(s.waiters[w]) == Some(s.waiters[w].reply);
  }

  lemma ExecReceivesRecorded(labels: seq<Label>, contextId: string, s: State, input: Input)
    requires ExecReceives(s, input).Some?
    requires Recorded(labels, contextId, s) && labels != [] && labels[|labels| - 1] == ExecIsGiven(input)
    ensures Recorded(labels, contextId, ExecReceives(s, input).value)
  {
    hide Recorded, Kept, Pauses;
    if !s.tables.cancelled && input.Gives? && IsPause(input.answer) && input.answer.operation != Error {
      PauseAsks(s, labels[|labels| - 1], input.answer, AtExec);
      PauseRecorded(labels, contextId, s, input.answer.feedback.value, AtExec);
      ExecMovesRecorded(labels, contextId, Pauses(s, input.answer.feedback.value, AtExec).0,
                        SavingPending(Pauses(s, input.answer.feedback.value, AtExec).1));
    } else {
      ExecReceivesKeeps(s, input);
      KeptRecorded(labels, contextId, s, ExecReceives(s, input).value);
    }
  }

  lemma ExecReceivesKeeps(s: State, input: Input)
    requires ExecReceives(s, input).Some?
    requires s.tables.cancelled || input.Ends? || !React(input.answer).Pause?
    ensures Kept(s, ExecReceives(s, input).value)
  {
    hide Kept, React;
    if s.tables.cancelled {
      ExecTidies(s, FINISH, None);
    } else {
      match input
      case Ends => ExecTidies(s, DISCARD + FINISH, Some(Failed(ENDED)));
      case Gives(a) =>
        match React(a)
        case Fail(detail) => ExecTidies(s, FINISH, Some(Failed(detail)));
        case Finish => ExecTidies(s, REMOVE + FINISH, Some(Completed));
        case Show(events) => ExecShows(s);
    }
  }

  lemma ExecTidies(s: State, todo: seq<Cleanup>, closing: Option<Event>)
    ensures Kept(s, s.(live := false, exec := Cleaning(todo, closing, false)))
  {
  }

  lemma ExecShows(s: State)
    ensures Kept(s, s) && Kept(s, s.(exec := Showing))
  {
  }

  lemma PauseAsks(s: State, l: Label, a: AragAnswer, token: Token)
    requires IsPause(a) && (l == ExecIsGiven(Gives(a)) || (l.WaiterIsGiven? && l.input == Gives(a)))
    ensures Asks(l, Pauses(s, a.feedback.value, token).1)
  {
  }

  lemma ExecMovesRecorded(labels: seq<Label>, contextId: string, s: State, e: Exec)
    requires Recorded(labels, contextId, s)
    ensures Recorded(labels, contextId, s.(exec := e))
  {
    hide WasAsked, Carries, WasSent;
  }

  lemma WaiterReceivesRecorded(labels: seq<Label>, contextId: string, s: State, w: nat, input: Input)
    requires WaiterReceives(s, w, input).Some?
    requires Recorded(labels, contextId, s) && labels != [] && labels[|labels| - 1] == WaiterIsGiven(w, input)
    ensures Recorded(labels, contextId, WaiterReceives(s, w, input).value)
  {
    hide Recorded, Kept, Pauses, Set;
    if !s.tables.cancelled && input.Gives? && IsPause(input.answer) && input.answer.operation != Error {
      PauseAsks(s, labels[|labels| - 1], input.answer, AtSaver(w));
      PauseRecorded(labels, contextId, s, input.answer.feedback.value, AtSaver(w));
      var (s1, q) := Pauses(s, input.answer.feedback.value, AtSaver(w));
      WaiterMovesRecorded(labels, contextId, s1, w, RenewingOwner(q));
    } else {
      WaiterReceivesKeeps(s, w, input);
      KeptRecorded(labels, contextId, s, WaiterReceives(s, w, input).value);
    }
  }

  lemma WaiterReceivesKeeps(s: State, w: nat, input: Input)
    requires WaiterReceives(s, w, input).Some?
    requires s.tables.cancelled || input.Ends? || !React(input.answer).Pause?
    ensures Kept(s, WaiterReceives(s, w, input).value)
  {
    hide Kept, React, Published, Set;
    if s.tables.cancelled {
      WaiterTidies(s, w, FINISH, []);
    } else {
      match input
      case Ends => WaiterTidies(s, w, DISCARD + FINISH, [AgentAnswer(EndAnswer), AgentDone]);
      case Gives(a) =>
        match React(a)
        case Fail(_) => WaiterTidies(s, w, [Pop] + FINISH, Published(a).0);
        case Finish => WaiterTidies(s, w, REMOVE + FINISH, Published(a).0);
        case Show(_) => WaiterMoves(s, w, Publishing);
    }
  }

  lemma WaiterTidies(s: State, w: nat, todo: seq<Cleanup>, closing: seq<Message>)
    requires w in s.waiters
    ensures Kept(s, Set(s, w, Tidying(todo, closing, false)).(live := false))
  {
  }

  lemma WaiterMovesRecorded(labels: seq<Label>, contextId: string, s: State, w: nat, waiter: Waiter)
    requires Recorded(labels, contextId, s) && Held(waiter).None?
    ensures Recorded(labels, contextId, Set(s, w, waiter))
  {
    hide WasAsked, Carries, WasSent;
  }

  // ---- The forwarders ----

  lemma ForwarderMovesRecorded(labels: seq<Label>, contextId: string, s: State, f: nat, to: Forwarder, token: Token)
    requires Recorded(labels, contextId, s) && Carries(labels, contextId, f, to)
    ensures Recorded(labels, contextId, s.(forwarders := s.forwarders[f := to], token := token))
  {
    hide WasAsked, Carries, WasSent;
  }

  lemma ForwarderArrivesRecorded(labels: seq<Label>, contextId: string, s: State, f: nat, c: string, feedbackId: string, response: string)
    requires Recorded(labels, contextId, s) && labels != [] && labels[|labels| - 1] == FeedbackComes(f, c, feedbackId, response)
    ensures Recorded(labels, contextId, s.(forwarders := s.forwarders[f := Getting(c, feedbackId, response)]))
  {
    assert Comes(labels[|labels| - 1], f, c, feedbackId, response);
    ForwarderMovesRecorded(labels, contextId, s, f, Getting(c, feedbackId, response), s.token);
  }

  /** The forwarder claims a record, which is one of the task's questions. */
  lemma ForwarderClaimsRecorded(labels: seq<Label>, contextId: string, s: State, f: nat, c: string, feedbackId: string, response: string)
    requires Recorded(labels, contextId, s) && Inv(s)
    requires f in s.forwarders && s.forwarders[f] == Matched(c, feedbackId, response) && Matches(s.record, c, feedbackId)
    ensures Recorded(labels, contextId,
              s.(forwarders := s.forwarders[f := Claimed(s.record.value, feedbackId, response)], record := None, token := AtForwarder(f)))
  {
    hide Numbered, OneDriver, CancellerOk, LiveOk, ClosesInOrder, MailToken, ForwardersToken, WaitersToken, WasAsked, WasSent, Came;
    assert c == contextId;
    assert Carries(labels, contextId, f, s.forwarders[f]);
    ForwarderMovesRecorded(labels, contextId, s, f, Claimed(s.record.value, feedbackId, response), AtForwarder(f));
    RecordGoneRecorded(labels, contextId, s.(forwarders := s.forwarders[f := Claimed(s.record.value, feedbackId, response)], token := AtForwarder(f)));
  }

  lemma RecordGoneRecorded(labels: seq<Label>, contextId: string, s: State)
    requires Recorded(labels, contextId, s)
    ensures Recorded(labels, contextId, s.(record := None))
  {
    hide WasAsked, Carries, WasSent;
  }

  lemma ForwarderSendsRecorded(labels: seq<Label>, contextId: string, s: State, f: nat, m: nat, topic: string)
    requires Recorded(labels, contextId, s) && labels != [] && labels[|labels| - 1] == FeedbackGoesOn(f, m, topic)
    requires f in s.forwarders && s.forwarders[f].Claimed?
    ensures var Claimed(q, feedbackId, response) := s.forwarders[f];
            Recorded(labels, contextId,
              s.(forwarders := s.forwarders[f := Sent],
                 mail := s.mail[m := Reply(q.number, feedbackId, q.requestId, response, topic)], token := InMail(m)))
  {
    hide WasAsked, Asks;
    var Claimed(q, feedbackId, response) := s.forwarders[f];
    var k := |labels| - 1;
    assert Carries(labels, contextId, f, s.forwarders[f]);
    var j :| 0 <= j < |labels| && Comes(labels[j], f, contextId, feedbackId, response);
    assert Sends(labels[j], labels[k], contextId, Reply(q.number, feedbackId, q.requestId, response, topic));
    MailRecorded(labels, contextId, s, f, m, Reply(q.number, feedbackId, q.requestId, response, topic));
  }

  lemma MailRecorded(labels: seq<Label>, contextId: string, s: State, f: nat, m: nat, r: Reply)
    requires Recorded(labels, contextId, s) && WasSent(labels, contextId, r)
    ensures Recorded(labels, contextId, s.(forwarders := s.forwarders[f := Sent], mail := s.mail[m := r], token := InMail(m)))
  {
    hide WasAsked, Came, WasSent;
  }

  lemma ForwarderGoesRecorded(labels: seq<Label>, contextId: string, s: State, f: nat, m: nat, topic: string)
    requires Recorded(labels, contextId, s) && Inv(s) && ForwarderRuns(s, f, m, topic).Some?
    requires labels != [] && labels[|labels| - 1] == FeedbackGoesOn(f, m, topic)
    ensures Recorded(labels, contextId, ForwarderRuns(s, f, m, topic).value)
  {
    hide Recorded, Inv, Came, Matches, DropRecord;
    match s.forwarders[f]
    case Getting(c, feedbackId, response) => ForwarderLooksRecorded(labels, contextId, s, f);
    case Matched(c, feedbackId, response) =>
      if Matches(s.record, c, feedbackId) {
        ForwarderClaimsRecorded(labels, contextId, s, f, c, feedbackId, response);
      } else {
        ForwarderMovesRecorded(labels, contextId, s, f, Refused, s.token);
      }
    case Claimed(_, _, _) => ForwarderSendsRecorded(labels, contextId, s, f, m, topic);
    case Undelivered =>
      LossKeeps(s, 0);
      KeptRecorded(labels, contextId, s, DropRecord(s));
      DropKeepsForwarders(s);
      ForwarderMovesRecorded(labels, contextId, DropRecord(s), f, Refused, DropRecord(s).token);
    case Sent => ForwarderMovesRecorded(labels, contextId, s, f, Listening, s.token);
  }

  lemma DropKeepsForwarders(s: State)
    ensures DropRecord(s).forwarders == s.forwarders
  {
  }

  lemma ForwarderLooksRecorded(labels: seq<Label>, contextId: string, s: State, f: nat)
    requires Recorded(labels, contextId, s) && f in s.forwarders && s.forwarders[f].Getting?
    ensures var Getting(c, feedbackId, response) := s.forwarders[f];
            Recorded(labels, contextId, s.(forwarders := s.forwarders[f :=
              if Matches(s.record, c, feedbackId) then Matched(c, feedbackId, response) else Refused]))
  {
    hide WasAsked, Came, WasSent, Matches;
    assert Carries(labels, contextId, f, s.forwarders[f]);
  }

  lemma ForwarderFailsRecorded(labels: seq<Label>, contextId: string, s: State, f: nat)
    requires Recorded(labels, contextId, s) && ForwarderRaises(s, f).Some?
    ensures Recorded(labels, contextId, ForwarderRaises(s, f).value)
  {
    hide Recorded, Came;
    match s.forwarders[f]
    case Claimed(_, _, _) => ForwarderMovesRecorded(labels, contextId, s, f, Undelivered, Nowhere);
    case Sent => ForwarderMovesRecorded(labels, contextId, s, f, Undelivered, s.token);
    case _ => ForwarderMovesRecorded(labels, contextId, s, f, Refused, s.token);
  }

  // ---- Whole runs ----

  lemma StepRecorded(labels: seq<Label>, contextId: string, s: State, l: Label)
    requires Inv(s) && Recorded(labels, contextId, s) && Next(s, l).Some?
    ensures Recorded(labels + [l], contextId, Next(s, l).value)
  {
    hide Inv, Recorded, Kept, ExecRuns, ExecReceives, ExecRaises, ExecKilled, WaiterRuns, WaiterTakes, WaiterTimesOut, WaiterReceives, WaiterRaises;
    hide CancellerRuns, CancellerTimesOut, CancellerRaises, CancelRuns, ForwarderRuns, ForwarderRaises, DropRecord;
    OneMore(labels, l, contextId, s);
    var more := labels + [l];
    assert more[|more| - 1] == l;
    match l
    case ExecGoesOn(newId) => ExecRunsKeeps(s, newId); KeptRecorded(more, contextId, s, Next(s, l).value);
    case ExecIsGiven(input) => ExecReceivesRecorded(more, contextId, s, input);
    case ExecFails => ExecRaisesKeeps(s); KeptRecorded(more, contextId, s, Next(s, l).value);
    case ExecIsCancelled => ExecKilledKeeps(s); KeptRecorded(more, contextId, s, Next(s, l).value);
    case WaiterGoesOn(w, newId) => WaiterGoesRecorded(more, contextId, s, w, newId);
    case WaiterIsGiven(w, input) => WaiterReceivesRecorded(more, contextId, s, w, input);
    case WaiterReads(w, m) => ReadsRecorded(more, contextId, s, w, m);
    case WaiterExpires(w) => WaiterStopsKeeps(s, w); KeptRecorded(more, contextId, s, Next(s, l).value);
    case WaiterFails(w) => WaiterStopsKeeps(s, w); KeptRecorded(more, contextId, s, Next(s, l).value);
    case FeedbackComes(f, c, feedbackId, response) => ForwarderArrivesRecorded(more, contextId, s, f, c, feedbackId, response);
    case FeedbackGoesOn(f, m, topic) => ForwarderGoesRecorded(more, contextId, s, f, m, topic);
    case FeedbackFails(f) => ForwarderFailsRecorded(more, contextId, s, f);
    case _ => OtherStepKeeps(s, l); KeptRecorded(more, contextId, s, Next(s, l).value);
  }

  lemma WaiterGoesRecorded(labels: seq<Label>, contextId: string, s: State, w: nat, newId: nat)
    requires Recorded(labels, contextId, s) && WaiterRuns(s, w, newId).Some?
    ensures Recorded(labels, contextId, WaiterRuns(s, w, newId).value)
  {
    hide Recorded, Kept, Set, Clean, Kill, LeftAfter;
    if s.waiters[w].Putting? {
      PutsRecorded(labels, contextId, s, w);
    } else {
      WaiterRunsKeeps(s, w, newId);
      KeptRecorded(labels, contextId, s, WaiterRuns(s, w, newId).value);
    }
  }

  /** The steps of cancelling, expiring and losing. */
  lemma OtherStepKeeps(s: State, l: Label)
    requires l.CancellerGoesOn? || l.CancellerExpires? || l.CancellerFails?
             || l.CancelComes? || l.CancelGoesOn? || l.CancelFails?
             || l.RecordExpires? || l.OwnerExpires? || l.MailIsLost? || l.CancelMailIsLost?
    requires Next(s, l).Some?
    ensures Kept(s, Next(s, l).value)
  {
    hide Kept, CancellerRuns, CancellerTimesOut, CancellerRaises, CancelRuns, DropRecord;
    match l
    case CancellerGoesOn => CancellerRunsKeeps(s);
    case CancellerExpires => CancellerStopsKeeps(s);
    case CancellerFails => CancellerStopsKeeps(s);
    case CancelComes(c, here) => CancelMoves(s, c, Looking(here), s.cancelMail);
    case CancelGoesOn(c) => CancelRunsKeeps(s, c);
    case CancelFails(c) => CancelMoves(s, c, Cancelled, s.cancelMail);
    case RecordExpires => LossKeeps(s, 0);
    case OwnerExpires => LossKeeps(s, 0);
    case MailIsLost(m) => LossKeeps(s, m);
    case CancelMailIsLost => LossKeeps(s, 0);
  }

  lemma {:induction false} RunRecorded(contextId: string, labels: seq<Label>)
    requires After(contextId, labels).Some?
    ensures Recorded(labels, contextId, After(contextId, labels).value)
    decreases |labels|
  {
    hide Inv, Next;
    if labels != [] {
      hide Recorded;
      var n := |labels| - 1;
      RunRecorded(contextId, labels[..n]);
      RunInv(contextId, labels[..n]);
      StepRecorded(labels[..n], contextId, After(contextId, labels[..n]).value, labels[n]);
      assert labels[..n] + [labels[n]] == labels;
    }
  }

  /** The answer to question number i in the owner's queue is a client's, word for word: a
      feedback came with the task's context, that question's feedback id and this response,
      and went on with the topic the reply names. */
  lemma EveryReplyIsAClients(contextId: string, labels: seq<Label>, i: nat)
    requires After(contextId, labels).Some? && i < |After(contextId, labels).value.delivered|
    ensures var s := After(contextId, labels).value;
            && i < |s.asked|
            && exists j, k :: 0 <= j < k < |labels|
                 && labels[j].FeedbackComes? && labels[k].FeedbackGoesOn? && labels[k].f == labels[j].f
                 && labels[j].contextId == contextId && labels[j].feedbackId == s.asked[i].feedbackId
                 && labels[j].response == s.delivered[i].response && labels[k].topic == s.delivered[i].topic
  {
    hide After;
    RunRecorded(contextId, labels);
    EveryReplyAnswersItsQuestion(contextId, labels);
    var s := After(contextId, labels).value;
    var j, k :| 0 <= j < k < |labels| && Sends(labels[j], labels[k], contextId, s.delivered[i]);
  }

  /** Every question of the task was asked by the response stream, with these ids. */
  lemma EveryQuestionIsTheStreams(contextId: string, labels: seq<Label>, i: nat)
    requires After(contextId, labels).Some? && i < |After(contextId, labels).value.asked|
    ensures var q := After(contextId, labels).value.asked[i];
            q.contextId == contextId && WasAsked(labels, q)
  {
    hide After, WasAsked;
    RunRecorded(contextId, labels);
  }
}
