/** A closing event leaves nothing of the task behind: neither the owner's entry nor the
    stored record. */
module TaskClosing {
  import opened Wrappers
  import opened Answers
  import opened Relay
  import opened TaskTables
  import opened TaskSystem
  import opened TaskInvariant
  import opened TaskSafety

  /** What is left to do takes the record and the entry away, where they are there. */
  predicate Empties(todo: seq<Cleanup>, record: Option<Question>, pending: Option<Question>) {
    (record.Some? ==> RemoveRecord in todo) && (pending.Some? ==> Pop in todo || Drop in todo)
  }

  predicate ExecEmpties(exec: Exec, record: Option<Question>, pending: Option<Question>) {
    exec.Cleaning? && exec.closing.Some? ==> Empties(exec.todo, record, pending)
  }

  predicate WaitersEmpty(waiters: map<nat, Waiter>, record: Option<Question>, pending: Option<Question>) {
    forall w :: w in waiters && Closes(waiters[w]) ==> Empties(waiters[w].todo, record, pending)
  }

  predicate EmptiesOk(s: State) {
    && ExecEmpties(s.exec, s.record, s.tables.pending)
    && WaitersEmpty(s.waiters, s.record, s.tables.pending)
    && (s.closed ==> s.record.None? && s.tables.pending.None?)
  }

  // ---- Steps that take away at most ----

  predicate Less(now: Option<Question>, before: Option<Question>) { now.None? || now == before }

  predicate ClosesAsBefore(before: map<nat, Waiter>, after: map<nat, Waiter>) {
    forall w :: w in after && Closes(after[w]) ==> w in before && before[w] == after[w]
  }

  /** No new closing, no new record, no new entry. */
  predicate Quiet(s: State, t: State) {
    && Less(t.record, s.record) && Less(t.tables.pending, s.tables.pending) && t.closed == s.closed
    && (t.exec.Cleaning? && t.exec.closing.Some? ==> t.exec == s.exec)
    && ClosesAsBefore(s.waiters, t.waiters)
  }

  lemma QuietEmpties(s: State, t: State)
    requires EmptiesOk(s) && Quiet(s, t)
    ensures EmptiesOk(t)
  {
  }

  /** While somebody drives the task, or before anybody could, nothing closes. */
  lemma NothingCloses(s: State)
    requires Inv(s) && (Early(s.exec) || exists w :: w in s.waiters && Drives(s.waiters[w]))
    ensures !s.exec.Cleaning? && !s.closed && forall w :: w in s.waiters ==> !Closes(s.waiters[w])
  {
    hide Numbered, OneToken, CancellerOk, LiveOk, Finishes;
  }

  /** No closing, so nothing to say. */
  lemma OpenIsOk(s: State)
    requires !s.exec.Cleaning? && !s.closed && forall w :: w in s.waiters ==> !Closes(s.waiters[w])
    ensures EmptiesOk(s)
  {
  }

  /** Before the first question there is neither record nor entry. */
  lemma NothingYet(s: State)
    requires Inv(s) && Reading(s.exec)
    ensures s.record.None? && s.tables.pending.None?
  {
    hide Numbered, CancellerOk, LiveOk, ClosesInOrder, MailToken, ForwardersToken, WaitersToken;
  }

  /** Once the last question is answered its record is gone. */
  lemma NoRecordLeft(s: State, w: nat)
    requires Inv(s) && w in s.waiters && s.waiters[w] == Relaying
    ensures s.record.None?
  {
    hide Numbered, CancellerOk, LiveOk, ClosesInOrder, MailToken, ForwardersToken, DriverIsListed;
    assert WaiterToken(w, s.waiters[w], s.token, s.asked, Fresh(s.asked, s.delivered));
  }

  // ---- `execute` ----

  lemma ExecMoves(s: State, tables: Tables, ownerSaved: bool, exec: Exec, canceller: Canceller, token: Token, live: bool)
    requires Less(tables.pending, s.tables.pending) && (exec.Cleaning? && exec.closing.Some? ==> exec == s.exec)
    ensures Quiet(s, s.(tables := tables, ownerSaved := ownerSaved, exec := exec, canceller := canceller, token := token, live := live))
  {
  }

  lemma CleanEmpties(s: State, todo: seq<Cleanup>)
    requires todo != [] && Empties(todo, s.record, s.tables.pending)
    ensures Empties(LeftAfter(s, todo), Clean(s, todo[0]).record, Clean(s, todo[0]).tables.pending)
  {
    assert todo == [todo[0]] + todo[1..];
    hide Stopped;
  }

  lemma CleanTakes(s: State, a: Cleanup)
    ensures Quiet(s, Clean(s, a)) && Clean(s, a).waiters == s.waiters
  {
    hide Stopped;
  }

  lemma LessEmpties(todo: seq<Cleanup>, s: State, t: State)
    requires Empties(todo, s.record, s.tables.pending) && Less(t.record, s.record) && Less(t.tables.pending, s.tables.pending)
    ensures Empties(todo, t.record, t.tables.pending)
  {
  }

  lemma ExecCleansEmpties(s: State)
    requires EmptiesOk(s) && s.exec.Cleaning? && s.exec.todo != []
    ensures EmptiesOk(Clean(s, s.exec.todo[0]).(exec := s.exec.(todo := LeftAfter(s, s.exec.todo))))
  {
    hide Clean, LeftAfter, Empties;
    var t := Clean(s, s.exec.todo[0]);
    CleanTakes(s, s.exec.todo[0]);
    QuietEmpties(s, t);
    if s.exec.closing.Some? { CleanEmpties(s, s.exec.todo); }
  }

  lemma ExecClosesEmpties(s: State, closes: bool)
    requires EmptiesOk(s) && s.exec.Cleaning? && s.exec.todo == [] && closes == s.exec.closing.Some?
    ensures EmptiesOk(s.(closed := s.closed || closes, exec := Leaving))
  {
  }

  lemma ExecSavesEmpties(s: State, q: Question)
    requires Inv(s) && s.exec == SavingPending(q)
    ensures EmptiesOk(s.(record := Some(q), token := InStore, exec := StartingWaiter))
  {
    hide Inv, EmptiesOk;
    NothingCloses(s);
    OpenIsOk(s.(record := Some(q), token := InStore, exec := StartingWaiter));
  }

  lemma ExecStartsEmpties(s: State, newId: nat)
    requires EmptiesOk(s) && s.exec == StartingWaiter
    ensures var s1 := StopWaiter(s);
            EmptiesOk(s1.(tables := s1.tables.StartWaiter(newId), waiters := s1.waiters[newId := Waiting], exec := Yielding))
  {
    hide Empties;
  }

  lemma ExecRunsEmpties(s: State, newId: nat)
    requires Inv(s) && EmptiesOk(s) && ExecRuns(s, newId).Some?
    ensures EmptiesOk(ExecRuns(s, newId).value)
  {
    hide Inv, EmptiesOk, Quiet, StopWaiter, Clean, LeftAfter;
    match s.exec
    case SavingOwner => ExecMoves(s, s.tables, true, Registering, s.canceller, s.token, s.live); QuietEmpties(s, ExecRuns(s, newId).value);
    case Registering =>
      ExecMoves(s, s.tables.Register(CANCELLER), s.ownerSaved, Streaming, Checking, s.token, true); QuietEmpties(s, ExecRuns(s, newId).value);
    case Showing => ExecMoves(s, s.tables, s.ownerSaved, Streaming, s.canceller, s.token, s.live); QuietEmpties(s, ExecRuns(s, newId).value);
    case SavingPending(q) => ExecSavesEmpties(s, q);
    case StartingWaiter => ExecStartsEmpties(s, newId);
    case Yielding => ExecMoves(s, s.tables, s.ownerSaved, Asking, s.canceller, s.token, s.live); QuietEmpties(s, ExecRuns(s, newId).value);
    case Asking => ExecMoves(s, s.tables, s.ownerSaved, Leaving, s.canceller, s.token, s.live); QuietEmpties(s, ExecRuns(s, newId).value);
    case Cleaning(todo, closing, handling) =>
      if todo == [] { ExecClosesEmpties(s, closing.Some?); } else { ExecCleansEmpties(s); }
    case Leaving => ExecMoves(s, s.tables.LeaveExecute(), s.ownerSaved, Ended, s.canceller, s.token, s.live); QuietEmpties(s, ExecRuns(s, newId).value);
  }

  lemma ExecTidiesEmpties(s: State, todo: seq<Cleanup>, closing: Option<Event>)
    requires EmptiesOk(s) && (closing.Some? ==> Empties(todo, s.record, s.tables.pending))
    ensures EmptiesOk(s.(live := false, exec := Cleaning(todo, closing, false)))
  {
    hide Empties;
  }

  lemma ExecPausesEmpties(s: State, feedback: Feedback)
    requires Inv(s) && s.exec == Streaming
    ensures var (s1, q) := Pauses(s, feedback, AtExec); EmptiesOk(s1.(exec := SavingPending(q)))
  {
    hide Inv;
    NothingCloses(s);
  }

  lemma ExecReceivesEmpties(s: State, input: Input)
    requires Inv(s) && EmptiesOk(s) && ExecReceives(s, input).Some?
    ensures EmptiesOk(ExecReceives(s, input).value)
  {
    hide Inv, EmptiesOk, Pauses, React, Quiet;
    NothingYet(s);
    if s.tables.cancelled {
      ExecTidiesEmpties(s, FINISH, None);
    } else {
      match input
      case Ends => ExecTidiesEmpties(s, DISCARD + FINISH, Some(Failed(ENDED)));
      case Gives(a) =>
        match React(a)
        case Fail(detail) => ExecTidiesEmpties(s, FINISH, Some(Failed(detail)));
        case Pause(feedback) => ExecPausesEmpties(s, feedback);
        case Finish => ExecTidiesEmpties(s, REMOVE + FINISH, Some(Completed));
        case Show(events) =>
          if events != [] {
            ExecMoves(s, s.tables, s.ownerSaved, Showing, s.canceller, s.token, s.live);
            QuietEmpties(s, s.(exec := Showing));
          }
    }
  }

  lemma DiscardEmpties(record: Option<Question>, pending: Option<Question>)
    ensures Empties(DISCARD + FINISH, record, pending) && Empties(REMOVE + FINISH, record, pending)
    ensures record.None? ==> Empties([Pop] + FINISH, record, pending)
  {
    assert (DISCARD + FINISH)[0] == Drop && (DISCARD + FINISH)[1] == RemoveRecord;
    assert (REMOVE + FINISH)[0] == Pop && (REMOVE + FINISH)[1] == RemoveRecord;
    assert ([Pop] + FINISH)[0] == Pop;
  }

  lemma ExecHandlesEmpties(s: State, closing: Option<Event>)
    requires EmptiesOk(s)
    ensures EmptiesOk(ExecLoses(StopWaiter(s.(live := false))).(exec := Cleaning(DISCARD + FINISH, closing, true)))
  {
    hide Empties;
    DiscardEmpties(s.record, s.tables.pending);
  }

  lemma ExecRaisesEmpties(s: State)
    requires EmptiesOk(s) && ExecRaises(s).Some?
    ensures EmptiesOk(ExecRaises(s).value)
  {
    hide EmptiesOk, Quiet, StopWaiter, ExecLoses;
    if Unregistered(s.exec) || (s.exec.Cleaning? && s.exec.handling) {
      var e := ExecRaises(s).value.exec;
      ExecMoves(s, s.tables, s.ownerSaved, e, s.canceller, s.token, s.live);
      QuietEmpties(s, s.(exec := e));
    } else {
      ExecHandlesEmpties(s, ExecRaises(s).value.exec.closing);
    }
  }

  lemma ExecKilledEmpties(s: State)
    requires EmptiesOk(s) && ExecKilled(s).Some?
    ensures EmptiesOk(ExecKilled(s).value)
  {
    hide EmptiesOk, Quiet;
    if Unregistered(s.exec) {
      ExecMoves(s, s.tables, s.ownerSaved, Ended, s.canceller, s.token, s.live);
      QuietEmpties(s, s.(exec := Ended));
    } else {
      ExecMoves(s, s.tables, s.ownerSaved, Leaving, s.canceller, ExecLoses(s).token, false);
      QuietEmpties(s, ExecLoses(s.(live := false)).(exec := Leaving));
    }
  }

  // ---- The waiters ----

  lemma WaiterGoes(s: State, w: nat, waiter: Waiter)
    requires EmptiesOk(s) && w in s.waiters && !Closes(waiter)
    ensures EmptiesOk(Set(s, w, waiter))
  {
    hide Empties;
  }

  lemma WaiterGotEmpties(s: State, w: nat)
    requires EmptiesOk(s) && w in s.waiters && s.waiters[w].Got?
    ensures EmptiesOk(if s.tables.pending.Some? then Set(s, w, Putting(s.waiters[w].reply)) else Set(s, w, Finishing).(token := Nowhere))
  {
    hide Empties;
  }

  lemma WaiterPutsEmpties(s: State, w: nat)
    requires EmptiesOk(s) && w in s.waiters && s.waiters[w].Putting?
    ensures EmptiesOk(Set(s, w, Relaying).(delivered := s.delivered + [s.waiters[w].reply], token := Nowhere))
  {
    hide Empties;
  }

  lemma WaiterRenewsEmpties(s: State, w: nat, q: Question)
    requires EmptiesOk(s) && w in s.waiters
    ensures EmptiesOk(Set(s, w, SavingRecord(q)).(ownerSaved := true))
  {
    hide Empties;
  }

  lemma WaiterSavesEmpties(s: State, w: nat, q: Question)
    requires Inv(s) && w in s.waiters && s.waiters[w] == SavingRecord(q)
    ensures EmptiesOk(Set(s, w, StartingNext).(record := Some(q), token := InStore))
  {
    hide Inv;
    NothingCloses(s);
  }

  lemma WaiterStartsNextEmpties(s: State, w: nat, newId: nat)
    requires EmptiesOk(s) && w in s.waiters
    ensures var s1 := Kill(s, Victim(s.tables.waiter, Some(w)));
            EmptiesOk(Set(Set(s1, w, YieldingNext), newId, Waiting).(tables := s.tables.StartWaiter(newId)))
  {
    hide Empties;
  }

  lemma WaiterCleansEmpties(s: State, w: nat)
    requires EmptiesOk(s) && w in s.waiters && s.waiters[w].Tidying? && s.waiters[w].todo != []
    ensures var Tidying(todo, closing, handling) := s.waiters[w];
            EmptiesOk(Set(Clean(s, todo[0]), w, Tidying(LeftAfter(s, todo), closing, handling)))
  {
    hide Clean, LeftAfter, Empties;
    var Tidying(todo, closing, handling) := s.waiters[w];
    var t := Clean(s, todo[0]);
    CleanTakes(s, todo[0]);
    QuietEmpties(s, t);
    if closing != [] { CleanEmpties(s, todo); }
  }

  lemma WaiterClosesEmpties(s: State, w: nat)
    requires EmptiesOk(s) && w in s.waiters && s.waiters[w].Tidying? && s.waiters[w].todo == [] && s.waiters[w].closing != []
    ensures var Tidying(todo, closing, handling) := s.waiters[w];
            EmptiesOk(Set(s, w, Tidying([], closing[1..], handling)).(closed := true))
  {
    assert Closes(s.waiters[w]);
  }

  lemma WaiterLeavesEmpties(s: State, w: nat)
    requires EmptiesOk(s) && w in s.waiters
    ensures EmptiesOk(Set(s, w, Dead).(tables := s.tables.WaiterLeaves(w)))
  {
    hide Empties;
  }

  lemma WaiterRunsEmpties(s: State, w: nat, newId: nat)
    requires Inv(s) && EmptiesOk(s) && WaiterRuns(s, w, newId).Some?
    ensures EmptiesOk(WaiterRuns(s, w, newId).value)
  {
    hide Inv, EmptiesOk, Clean, Kill, LeftAfter, Set;
    match s.waiters[w]
    case Got(reply) => WaiterGotEmpties(s, w);
    case Putting(reply) => WaiterPutsEmpties(s, w);
    case Publishing => WaiterGoes(s, w, Relaying);
    case RenewingOwner(q) => WaiterRenewsEmpties(s, w, q);
    case SavingRecord(q) => WaiterSavesEmpties(s, w, q);
    case StartingNext => WaiterStartsNextEmpties(s, w, newId);
    case YieldingNext => WaiterGoes(s, w, AskingNext);
    case AskingNext => WaiterGoes(s, w, Finishing);
    case Tidying(todo, closing, handling) =>
      if todo != [] { WaiterCleansEmpties(s, w); }
      else if closing == [] { WaiterGoes(s, w, Finishing); }
      else { WaiterClosesEmpties(s, w); }
    case Finishing => WaiterLeavesEmpties(s, w);
  }

  lemma WaiterTidiesEmpties(s: State, w: nat, todo: seq<Cleanup>, closing: seq<Message>)
    requires EmptiesOk(s) && w in s.waiters && (closing != [] ==> Empties(todo, s.record, s.tables.pending))
    ensures EmptiesOk(Set(s, w, Tidying(todo, closing, false)).(live := false))
  {
    hide Empties;
  }

  lemma WaiterPausesEmpties(s: State, w: nat, feedback: Feedback)
    requires Inv(s) && w in s.waiters && s.waiters[w] == Relaying
    ensures var (s1, q) := Pauses(s, feedback, AtSaver(w)); EmptiesOk(Set(s1, w, RenewingOwner(q)))
  {
    hide Inv;
    NothingCloses(s);
  }

  lemma WaiterReceivesEmpties(s: State, w: nat, input: Input)
    requires Inv(s) && EmptiesOk(s) && WaiterReceives(s, w, input).Some?
    ensures EmptiesOk(WaiterReceives(s, w, input).value)
  {
    hide Inv, EmptiesOk, Pauses, React, Published, Set, Empties;
    NoRecordLeft(s, w);
    DiscardEmpties(s.record, s.tables.pending);
    if s.tables.cancelled {
      WaiterTidiesEmpties(s, w, FINISH, []);
    } else {
      match input
      case Ends => WaiterTidiesEmpties(s, w, DISCARD + FINISH, [AgentAnswer(EndAnswer), AgentDone]);
      case Gives(a) =>
        match React(a)
        case Fail(_) => WaiterTidiesEmpties(s, w, [Pop] + FINISH, Published(a).0);
        case Pause(feedback) => WaiterPausesEmpties(s, w, feedback);
        case Finish => WaiterTidiesEmpties(s, w, REMOVE + FINISH, Published(a).0);
        case Show(_) => WaiterGoes(s, w, Publishing);
    }
  }

  lemma WaiterReadsEmpties(s: State, w: nat, m: nat)
    requires EmptiesOk(s) && WaiterTakes(s, w, m).Some?
    ensures EmptiesOk(WaiterTakes(s, w, m).value)
  {
    hide Empties;
  }

  lemma WaiterStopsEmpties(s: State, w: nat)
    requires EmptiesOk(s)
    ensures WaiterTimesOut(s, w).Some? ==> EmptiesOk(WaiterTimesOut(s, w).value)
    ensures WaiterRaises(s, w).Some? ==> EmptiesOk(WaiterRaises(s, w).value)
  {
    hide EmptiesOk, Set;
    if w in s.waiters {
      WaiterTidiesEmpties(s, w, DISCARD + FINISH, []);
      WaiterGoes(s, w, Finishing);
      WaiterHandlesEmpties(s, w);
    }
  }

  lemma WaiterHandlesEmpties(s: State, w: nat)
    requires EmptiesOk(s) && w in s.waiters
    ensures EmptiesOk(Set(s, w, Tidying(DISCARD + FINISH, [], true)).(live := false, token := Without(s.token, w)))
  {
    hide Empties;
  }

  // ---- Everybody else ----

  lemma BeginCancelTakes(s: State, byCanceller: bool)
    ensures Quiet(s, BeginCancel(s, byCanceller))
  {
    hide CancelWork, Stopped;
  }

  lemma CancellerTakes(s: State)
    requires CancellerRuns(s).Some?
    ensures Quiet(s, CancellerRuns(s).value)
  {
    hide Quiet, Clean, BeginCancel, LeftAfter;
    match s.canceller
    case Notified => BeginCancelTakes(s, true);
    case Stopping(todo) =>
      if todo == [] { CancellerMoves(s, s.tables, s.ownerSaved, s.cancelMail, Quitting); }
      else { CancellerCleanTakes(s, todo[0], Stopping(LeftAfter(s, todo))); }
    case Quitting => CancellerMoves(s, s.tables.CancellerLeaves(CANCELLER), s.ownerSaved, s.cancelMail, Gone);
    case Checking => CancellerMoves(s, s.tables, s.ownerSaved, s.cancelMail, if s.tables.InUse() then Receiving else Quitting);
    case Receiving => CancellerMoves(s, s.tables, s.ownerSaved, false, Notified);
    case Renewing => CancellerMoves(s, s.tables, true, s.cancelMail, Checking);
  }

  lemma CancellerMoves(s: State, tables: Tables, ownerSaved: bool, cancelMail: bool, canceller: Canceller)
    requires Less(tables.pending, s.tables.pending)
    ensures Quiet(s, s.(tables := tables, ownerSaved := ownerSaved, cancelMail := cancelMail, canceller := canceller))
  {
  }

  lemma CancellerCleanTakes(s: State, a: Cleanup, canceller: Canceller)
    ensures Quiet(s, Clean(s, a).(canceller := canceller))
  {
    hide Stopped;
  }

  lemma CancellerStopsTakes(s: State)
    ensures CancellerTimesOut(s).Some? ==> Quiet(s, CancellerTimesOut(s).value)
    ensures CancellerRaises(s).Some? ==> Quiet(s, CancellerRaises(s).value)
  {
    hide Quiet;
    CancellerMoves(s, s.tables, s.ownerSaved, s.cancelMail, Renewing);
    CancellerQuits(s);
  }

  lemma CancellerQuits(s: State)
    ensures Quiet(s, s.(canceller := Quitting, failed := true))
  {
  }

  lemma CancelMoves(s: State, cancels: map<nat, Cancel>, cancelMail: bool)
    ensures Quiet(s, s.(cancels := cancels, cancelMail := cancelMail))
  {
  }

  lemma CancelBegins(s: State, cancels: map<nat, Cancel>)
    ensures Quiet(s, BeginCancel(s, false).(cancels := cancels))
  {
    hide CancelWork, Stopped;
  }

  lemma CancelCleans(s: State, a: Cleanup, cancels: map<nat, Cancel>)
    ensures Quiet(s, Clean(s, a).(cancels := cancels))
  {
    hide Stopped;
  }

  lemma CancelTakes(s: State, c: nat)
    requires CancelRuns(s, c).Some?
    ensures Quiet(s, CancelRuns(s, c).value)
  {
    hide Quiet, Clean, BeginCancel, CancelWork, LeftAfter;
    match s.cancels[c]
    case Looking(here) => CancelMoves(s, s.cancels[c := Found(here, s.ownerSaved && !here)], s.cancelMail);
    case Found(here, remote) =>
      if remote { CancelMoves(s, s.cancels[c := Sending], s.cancelMail); }
      else if here { CancelBegins(s, s.cancels[c := Cancelling(CancelWork(s))]); }
      else { CancelMoves(s, s.cancels[c := Cancelling([RemoveRecord, RemoveOwner])], s.cancelMail); }
    case Sending => CancelMoves(s, s.cancels[c := Cancelled], true);
    case Cancelling(todo) =>
      if todo == [] { CancelMoves(s, s.cancels[c := Cancelled], s.cancelMail); }
      else { CancelCleans(s, todo[0], s.cancels[c := Cancelling(LeftAfter(s, todo))]); }
  }

  lemma ForwarderMoves(s: State, forwarders: map<nat, Forwarder>, record: Option<Question>, mail: map<nat, Reply>, token: Token)
    requires Less(record, s.record)
    ensures Quiet(s, s.(forwarders := forwarders, record := record, mail := mail, token := token))
  {
  }

  lemma ForwarderTakes(s: State, f: nat, m: nat, topic: string)
    requires ForwarderRuns(s, f, m, topic).Some?
    ensures Quiet(s, ForwarderRuns(s, f, m, topic).value)
  {
    hide Quiet, Matches, DropRecord;
    match s.forwarders[f]
    case Getting(contextId, feedbackId, response) =>
      ForwarderMoves(s, s.forwarders[f := if Matches(s.record, contextId, feedbackId) then Matched(contextId, feedbackId, response) else Refused],
                     s.record, s.mail, s.token);
    case Matched(contextId, feedbackId, response) =>
      if Matches(s.record, contextId, feedbackId) {
        MatchesSome(s.record, contextId, feedbackId);
        ForwarderMoves(s, s.forwarders[f := Claimed(s.record.value, feedbackId, response)], None, s.mail, AtForwarder(f));
      } else {
        ForwarderMoves(s, s.forwarders[f := Refused], s.record, s.mail, s.token);
      }
    case Claimed(q, feedbackId, response) =>
      ForwarderMoves(s, s.forwarders[f := Sent], s.record, s.mail[m := Reply(q.number, feedbackId, q.requestId, response, topic)], InMail(m));
    case Undelivered => ForwarderDrops(s, s.forwarders[f := Refused]);
    case Sent => ForwarderMoves(s, s.forwarders[f := Listening], s.record, s.mail, s.token);
  }

  lemma MatchesSome(record: Option<Question>, contextId: string, feedbackId: string)
    requires Matches(record, contextId, feedbackId)
    ensures record.Some?
  {
  }

  lemma ForwarderDrops(s: State, forwarders: map<nat, Forwarder>)
    ensures Quiet(s, DropRecord(s).(forwarders := forwarders))
  {
  }

  lemma ForwarderFailsTakes(s: State, f: nat)
    requires ForwarderRaises(s, f).Some?
    ensures Quiet(s, ForwarderRaises(s, f).value)
  {
    hide Quiet;
    match s.forwarders[f]
    case Claimed(_, _, _) => ForwarderMoves(s, s.forwarders[f := Undelivered], s.record, s.mail, Nowhere);
    case Sent => ForwarderMoves(s, s.forwarders[f := Undelivered], s.record, s.mail, s.token);
    case _ => ForwarderMoves(s, s.forwarders[f := Refused], s.record, s.mail, s.token);
  }

  lemma LossTakes(s: State)
    ensures Quiet(s, DropRecord(s)) && Quiet(s, s.(ownerSaved := false)) && Quiet(s, s.(cancelMail := false))
  {
  }

  lemma MailLossTakes(s: State, m: nat)
    ensures Quiet(s, s.(mail := s.mail - {m}, token := if s.token == InMail(m) then Nowhere else s.token))
  {
  }

  // ---- Whole runs ----

  lemma StepEmpties(s: State, l: Label)
    requires Inv(s) && EmptiesOk(s) && Next(s, l).Some?
    ensures EmptiesOk(Next(s, l).value)
  {
    hide Inv, EmptiesOk, Quiet, ExecRuns, ExecReceives, ExecRaises, ExecKilled, WaiterRuns, WaiterTakes, WaiterTimesOut, WaiterReceives, WaiterRaises;
    hide CancellerRuns, CancellerTimesOut, CancellerRaises, CancelRuns, ForwarderRuns, ForwarderRaises, DropRecord;
    match l
    case ExecGoesOn(newId) => ExecRunsEmpties(s, newId);
    case ExecIsGiven(input) => ExecReceivesEmpties(s, input);
    case ExecFails => ExecRaisesEmpties(s);
    case ExecIsCancelled => ExecKilledEmpties(s);
    case WaiterGoesOn(w, newId) => WaiterRunsEmpties(s, w, newId);
    case WaiterIsGiven(w, input) => WaiterReceivesEmpties(s, w, input);
    case WaiterReads(w, m) => WaiterReadsEmpties(s, w, m);
    case WaiterExpires(w) => WaiterStopsEmpties(s, w);
    case WaiterFails(w) => WaiterStopsEmpties(s, w);
    case _ => OthersTake(s, l); QuietEmpties(s, Next(s, l).value);
  }

  lemma OthersTake(s: State, l: Label)
    requires l.CancellerGoesOn? || l.CancellerExpires? || l.CancellerFails?
             || l.CancelComes? || l.CancelGoesOn? || l.CancelFails?
             || l.FeedbackComes? || l.FeedbackGoesOn? || l.FeedbackFails?
             || l.RecordExpires? || l.OwnerExpires? || l.MailIsLost? || l.CancelMailIsLost?
    requires Next(s, l).Some?
    ensures Quiet(s, Next(s, l).value)
  {
    hide Quiet, CancellerRuns, CancellerTimesOut, CancellerRaises, CancelRuns, ForwarderRuns, ForwarderRaises, DropRecord;
    match l
    case CancellerGoesOn => CancellerTakes(s);
    case CancellerExpires => CancellerStopsTakes(s);
    case CancellerFails => CancellerStopsTakes(s);
    case CancelComes(c, here) => CancelMoves(s, s.cancels[c := Looking(here)], s.cancelMail);
    case CancelGoesOn(c) => CancelTakes(s, c);
    case CancelFails(c) => CancelMoves(s, s.cancels[c := Cancelled], s.cancelMail);
    case FeedbackComes(f, contextId, feedbackId, response) =>
      ForwarderMoves(s, s.forwarders[f := Getting(contextId, feedbackId, response)], s.record, s.mail, s.token);
    case FeedbackGoesOn(f, m, topic) => ForwarderTakes(s, f, m, topic);
    case FeedbackFails(f) => ForwarderFailsTakes(s, f);
    case RecordExpires => LossTakes(s);
    case OwnerExpires => LossTakes(s);
    case MailIsLost(m) => MailLossTakes(s, m);
    case CancelMailIsLost => LossTakes(s);
  }

  lemma {:induction false} RunEmpties(contextId: string, labels: seq<Label>)
    requires After(contextId, labels).Some?
    ensures EmptiesOk(After(contextId, labels).value)
    decreases |labels|
  {
    hide Inv, Next;
    if labels != [] {
      hide EmptiesOk;
      var n := |labels| - 1;
      RunEmpties(contextId, labels[..n]);
      RunInv(contextId, labels[..n]);
      StepEmpties(After(contextId, labels[..n]).value, labels[n]);
    }
  }

  /** When a closing event is emitted or published, the task's entry and its stored record are
      gone, and neither comes back. */
  lemma ClosingLeavesNothing(contextId: string, labels: seq<Label>)
    requires After(contextId, labels).Some? && AtClosing(After(contextId, labels).value)
    ensures var s := After(contextId, labels).value; s.record.None? && s.tables.pending.None?
  {
    hide After;
    RunEmpties(contextId, labels);
  }
}
