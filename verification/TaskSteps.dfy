/** What some steps in a row do: a cancel, on the owner's replica or another, a renewal of the
    lease; and that the loops of the protocol react as the streams of `Relay` do. */
module TaskSteps {
  import opened Wrappers
  import opened Answers
  import opened Relay
  import opened TaskTables
  import opened TaskSystem
  import opened TaskInvariant

  /** The state some steps lead to, if each can be taken. */
  function Run(s: State, labels: seq<Label>): Option<State>
    decreases |labels|
  {
    if labels == [] then Some(s)
    else match Next(s, labels[0])
      case None => None
      case Some(t) => Run(t, labels[1..])
  }

  lemma OneStep(s: State, l: Label, rest: seq<Label>)
    requires Next(s, l).Some?
    ensures Run(s, [l] + rest) == Run(Next(s, l).value, rest)
  {
    hide Next;
    assert ([l] + rest)[1..] == rest;
  }

  lemma NoStep(s: State)
    ensures Run(s, []) == Some(s)
  {
  }

  // ---- Cancelling from another replica ----

  /** A cancel on a replica that is not the owner's sends a message to the owner, and does
      nothing else. */
  lemma RemoteCancelIsSent(s: State, c: nat)
    requires c in s.cancels && s.cancels[c] == Looking(false) && s.ownerSaved
    ensures Run(s, [CancelGoesOn(c), CancelGoesOn(c), CancelGoesOn(c)]) ==
            Some(s.(cancelMail := true, cancels := s.cancels[c := Cancelled]))
  {
    hide Next, BeginCancel, CancelWork;
    var l := CancelGoesOn(c);
    var s1 := s.(cancels := s.cancels[c := Found(false, true)]);
    var s2 := s.(cancels := s.cancels[c := Sending]);
    var s3 := s.(cancelMail := true, cancels := s.cancels[c := Cancelled]);
    CancelStep(s, c, Found(false, true));
    assert s1.cancels[c := Sending] == s2.cancels;
    CancelStep(s1, c, Sending);
    assert s2.cancels[c := Cancelled] == s3.cancels;
    SendStep(s2, c);
    OneStep(s, l, [l, l]);
    OneStep(s1, l, [l]);
    OneStep(s2, l, []);
    NoStep(s3);
    assert [l] + [l, l] == [l, l, l] && [l] + [l] == [l, l] && [l] + [] == [l];
  }

  lemma CancelStep(s: State, c: nat, to: Cancel)
    requires c in s.cancels
    requires (s.cancels[c] == Looking(false) && s.ownerSaved && to == Found(false, true)) || (s.cancels[c] == Found(false, true) && to == Sending)
    ensures Next(s, CancelGoesOn(c)) == Some(s.(cancels := s.cancels[c := to]))
  {
  }

  lemma SendStep(s: State, c: nat)
    requires c in s.cancels && s.cancels[c] == Sending
    ensures Next(s, CancelGoesOn(c)) == Some(s.(cancelMail := true, cancels := s.cancels[c := Cancelled]))
  {
  }

  /** The owner's listener that finds the message takes all the task's entries away, marks the
      task cancelled, and stops its waiter. */
  lemma OwnerHearsCancel(s: State)
    requires s.cancelMail && s.canceller == Receiving
    ensures Run(s, [CancellerGoesOn, CancellerGoesOn]).Some?
    ensures var t := Run(s, [CancellerGoesOn, CancellerGoesOn]).value;
            && t.tables == Tables(None, None, None, true, false) && !t.live && !t.cancelMail
            && t.canceller.Stopping? && RemoveRecord in t.canceller.todo && RemoveOwner in t.canceller.todo
            && (ShutDown in t.canceller.todo <==> s.tables.InUse())
            && (s.tables.waiter.Some? && s.tables.waiter.value in s.waiters ==>
                  t.waiters[s.tables.waiter.value] in {Finishing, Dead})
  {
    hide Next;
    var l := CancellerGoesOn;
    var s1 := s.(canceller := Notified, cancelMail := false);
    assert Next(s, l) == Some(s1) by { HearStep(s); }
    assert Next(s1, l) == Some(BeginCancel(s1, true)) by { NotifiedStep(s1); }
    OneStep(s, l, [l]);
    OneStep(s1, l, []);
    NoStep(BeginCancel(s1, true));
    assert [l] + [l] == [l, l] && [l] + [] == [l];
  }

  lemma HearStep(s: State)
    requires s.cancelMail && s.canceller == Receiving
    ensures Next(s, CancellerGoesOn) == Some(s.(canceller := Notified, cancelMail := false))
  {
  }

  lemma NotifiedStep(s: State)
    requires s.canceller == Notified
    ensures Next(s, CancellerGoesOn) == Some(BeginCancel(s, true))
  {
    hide BeginCancel;
  }

  // ---- Cancelling on the owner's replica ----

  function Times(l: Label, n: nat): seq<Label> { if n == 0 then [] else [l] + Times(l, n - 1) }

  /** A clean-up that only waits for a receiver and the store, and forgets the mark. */
  predicate IsCancelWork(todo: seq<Cleanup>) {
    forall a :: a in todo ==> a.ShutDown? || a.RemoveRecord? || a.RemoveOwner? || a.Forget?
  }

  /** The state after such a clean-up of a cancel. */
  function Cleared(s: State, c: nat, todo: seq<Cleanup>): State {
    s.(record := if RemoveRecord in todo then None else s.record,
       token := if RemoveRecord in todo && s.token == InStore then Nowhere else s.token,
       ownerSaved := s.ownerSaved && RemoveOwner !in todo,
       tables := s.tables.(cancelled := s.tables.cancelled && Forget !in todo),
       cancels := s.cancels[c := Cancelled])
  }

  lemma ClearStep(s: State, c: nat, todo: seq<Cleanup>)
    requires c in s.cancels && s.cancels[c] == Cancelling(todo) && todo != []
    requires todo[0].ShutDown? || todo[0].RemoveRecord? || todo[0].RemoveOwner? || todo[0].Forget?
    ensures Next(s, CancelGoesOn(c)) == Some(Clean(s, todo[0]).(cancels := s.cancels[c := Cancelling(todo[1..])]))
  {
    hide Clean;
  }

  lemma LastClearStep(s: State, c: nat)
    requires c in s.cancels && s.cancels[c] == Cancelling([])
    ensures Next(s, CancelGoesOn(c)) == Some(Cleared(s, c, []))
  {
  }

  lemma ClearedOnce(s: State, c: nat, todo: seq<Cleanup>)
    requires todo != [] && IsCancelWork(todo)
    ensures Cleared(Clean(s, todo[0]).(cancels := s.cancels[c := Cancelling(todo[1..])]), c, todo[1..]) == Cleared(s, c, todo)
  {
    assert todo == [todo[0]] + todo[1..];
    assert todo[0] in todo;
    assert s.cancels[c := Cancelling(todo[1..])][c := Cancelled] == s.cancels[c := Cancelled];
  }

  lemma {:induction false} ClearsAll(s: State, c: nat, todo: seq<Cleanup>)
    requires c in s.cancels && s.cancels[c] == Cancelling(todo) && IsCancelWork(todo)
    ensures Run(s, Times(CancelGoesOn(c), |todo| + 1)) == Some(Cleared(s, c, todo))
    decreases |todo|
  {
    hide Next, Clean, Cleared;
    var l := CancelGoesOn(c);
    if todo == [] {
      LastClearStep(s, c);
      OneStep(s, l, []);
      NoStep(Cleared(s, c, []));
      assert Times(l, 1) == [l] + [];
    } else {
      assert todo[0] in todo && IsCancelWork(todo[1..]);
      ClearStep(s, c, todo);
      var t := Clean(s, todo[0]).(cancels := s.cancels[c := Cancelling(todo[1..])]);
      OneStep(s, l, Times(l, |todo|));
      ClearsAll(t, c, todo[1..]);
      ClearedOnce(s, c, todo);
    }
  }

  /** A cancel on the owner's replica, once it is through, has taken away the task's entries,
      its record and its owner record, and stopped its lease, which `CancellerOk` says is
      listed. The mark is left where `execute`
      still runs, which will take it away; a receiver was told if there was one. */
  lemma LocalCancelClears(s: State, c: nat)
    requires CancellerOk(s) && c in s.cancels && s.cancels[c] == Looking(true)
    ensures exists n: nat :: Run(s, Times(CancelGoesOn(c), n)).Some? &&
              var t := Run(s, Times(CancelGoesOn(c), n)).value;
              && c in t.cancels && t.cancels[c] == Cancelled
              && !t.live && t.record.None? && !t.ownerSaved && !Runs(t.canceller)
              && t.tables == Tables(None, None, None, s.tables.active, false)
    ensures ShutDown in CancelWork(s) <==> s.tables.InUse()
  {
    hide Next, BeginCancel, CancelWork, Run, Cleared;
    var l := CancelGoesOn(c);
    var s1 := s.(cancels := s.cancels[c := Found(true, false)]);
    var todo := CancelWork(s);
    assert CancelWork(s1) == todo by { SameWork(s, s1); }
    var s2 := BeginCancel(s1, false).(cancels := s1.cancels[c := Cancelling(todo)]);
    LocalStep(s, c);
    BeginStep(s1, c);
    WorkIsCancelWork(s);
    assert s2.cancels[c] == Cancelling(todo);
    ClearsAll(s2, c, todo);
    OneStep(s, l, Times(l, |todo| + 2));
    OneStep(s1, l, Times(l, |todo| + 1));
    assert Times(l, |todo| + 3) == [l] + Times(l, |todo| + 2) && Times(l, |todo| + 2) == [l] + Times(l, |todo| + 1);
    BegunIsCleared(s, s1, c, todo);
    assert Run(s, Times(l, |todo| + 3)).Some?;
  }

  lemma LocalStep(s: State, c: nat)
    requires c in s.cancels && s.cancels[c] == Looking(true)
    ensures Next(s, CancelGoesOn(c)) == Some(s.(cancels := s.cancels[c := Found(true, false)]))
  {
  }

  lemma BeginStep(s: State, c: nat)
    requires c in s.cancels && s.cancels[c] == Found(true, false)
    ensures Next(s, CancelGoesOn(c)) == Some(BeginCancel(s, false).(cancels := s.cancels[c := Cancelling(CancelWork(s))]))
  {
    hide BeginCancel, CancelWork;
  }

  lemma SameWork(s: State, t: State)
    requires t.tables == s.tables
    ensures CancelWork(t) == CancelWork(s)
  {
  }

  lemma WorkIsCancelWork(s: State)
    ensures IsCancelWork(CancelWork(s)) && RemoveRecord in CancelWork(s) && RemoveOwner in CancelWork(s)
    ensures Forget in CancelWork(s) <==> !s.tables.active
    ensures ShutDown in CancelWork(s) <==> s.tables.InUse()
  {
  }

  lemma BegunIsCleared(s: State, s1: State, c: nat, todo: seq<Cleanup>)
    requires CancellerOk(s) && s1 == s.(cancels := s.cancels[c := Found(true, false)])
    requires RemoveRecord in todo && RemoveOwner in todo && (Forget in todo <==> !s.tables.active)
    ensures var t := Cleared(BeginCancel(s1, false).(cancels := s1.cancels[c := Cancelling(todo)]), c, todo);
            && c in t.cancels && t.cancels[c] == Cancelled && !t.live && t.record.None? && !t.ownerSaved
            && t.tables == Tables(None, None, None, s.tables.active, false)
            && !Runs(t.canceller)
  {
    hide Killed, CancelWork;
  }

  // ---- Renewing the lease ----

  /** A refresher that runs while the task is in use, and hears no cancel, saves the owner
      record again, by its own steps and without touching anything else. */
  lemma LeaseIsRenewed(s: State)
    requires (s.canceller == Checking && s.tables.InUse()) || s.canceller == Receiving || s.canceller == Renewing
    ensures exists labels: seq<Label> ::
              && (forall l :: l in labels ==> l.CancellerGoesOn? || l.CancellerExpires?)
              && Run(s, labels) == Some(s.(ownerSaved := true, canceller := Checking))
  {
    hide Next;
    var t := s.(ownerSaved := true, canceller := Checking);
    var r := s.(canceller := Renewing);
    assert Next(r, CancellerGoesOn) == Some(t) by { RenewStep(r); }
    OneStep(r, CancellerGoesOn, []);
    NoStep(t);
    assert [CancellerGoesOn] + [] == [CancellerGoesOn];
    if s.canceller == Renewing {
      assert s == r;
      assert Run(s, [CancellerGoesOn]) == Some(t);
    } else {
      var w := s.(canceller := Receiving);
      assert Next(w, CancellerExpires) == Some(r) by { ExpireStep(w); }
      OneStep(w, CancellerExpires, [CancellerGoesOn]);
      var labels := [CancellerExpires] + [CancellerGoesOn];
      if s.canceller == Receiving {
        assert s == w;
        assert Run(s, labels) == Some(t);
      } else {
        assert Next(s, CancellerGoesOn) == Some(w) by { ListenStep(s); }
        OneStep(s, CancellerGoesOn, labels);
        assert Run(s, [CancellerGoesOn] + labels) == Some(t);
      }
    }
  }

  lemma RenewStep(s: State)
    requires s.canceller == Renewing
    ensures Next(s, CancellerGoesOn) == Some(s.(ownerSaved := true, canceller := Checking))
  {
  }

  lemma ExpireStep(s: State)
    requires s.canceller == Receiving
    ensures Next(s, CancellerExpires) == Some(s.(canceller := Renewing))
  {
  }

  lemma ListenStep(s: State)
    requires s.canceller == Checking && s.tables.InUse()
    ensures Next(s, CancellerGoesOn) == Some(s.(canceller := Receiving))
  {
  }

  // ---- The loops react as the streams do ----

  /** Where an answer takes `execute`. */
  lemma ExecReacts(s: State, a: AragAnswer)
    requires s.exec == Streaming && !s.tables.cancelled
    ensures ExecReceives(s, Gives(a)).Some?
    ensures ExecReceives(s, Gives(a)).value.exec ==
            match React(a)
            case Fail(detail) => Cleaning(FINISH, Some(Failed(detail)), false)
            case Pause(feedback) => SavingPending(Question(|s.asked|, s.contextId, feedback.feedbackId, feedback.requestId))
            case Finish => Cleaning(REMOVE + FINISH, Some(Completed), false)
            case Show(events) => if events == [] then Streaming else Showing
  {
    hide React, Pauses;
    match React(a)
    case Fail(detail) => assert ExecReceives(s, Gives(a)) == Some(s.(live := false, exec := Cleaning(FINISH, Some(Failed(detail)), false)));
    case Pause(feedback) => PauseIs(s, feedback, AtExec);
    case Finish => assert ExecReceives(s, Gives(a)) == Some(s.(live := false, exec := Cleaning(REMOVE + FINISH, Some(Completed), false)));
    case Show(events) => assert ExecReceives(s, Gives(a)) == Some(if events == [] then s else s.(exec := Showing));
  }

  lemma PauseIs(s: State, feedback: Feedback, token: Token)
    ensures Pauses(s, feedback, token).1 == Question(|s.asked|, s.contextId, feedback.feedbackId, feedback.requestId)
  {
  }

  lemma ExecEnds(s: State)
    requires s.exec == Streaming && !s.tables.cancelled
    ensures ExecReceives(s, Ends).Some?
    ensures ExecReceives(s, Ends).value.exec == Cleaning(DISCARD + FINISH, Some(Failed(ENDED)), false)
  {
  }

  lemma Reacts(a: AragAnswer)
    ensures React(a).Pause? ==> a.feedback == Some(React(a).feedback)
    ensures React(a).Show? ==> React(a).events == Shown(a)
  {
  }

  /** What `execute` does with what its stream gives is what `Streamed` shows its client: the
      closing event it prepares is that of the stream, the question it saves is the one that
      is asked, and anything else leaves it reading. */
  lemma ExecuteShowsTheStream(s: State, a: AragAnswer, rest: seq<AragAnswer>)
    requires s.exec == Streaming && !s.tables.cancelled
    ensures var t := ExecReceives(s, Ends);
            t.Some? && t.value.exec.Cleaning? && t.value.exec.closing.Some? && Streamed([]) == [t.value.exec.closing.value]
    ensures var t := ExecReceives(s, Gives(a));
            && t.Some?
            && match t.value.exec
               case Cleaning(_, Some(event), _) => Streamed([a] + rest) == [event]
               case SavingPending(q) =>
                 && a.feedback.Some? && Streamed([a] + rest) == [RequiresInput(a.feedback.value)]
                 && q.feedbackId == a.feedback.value.feedbackId && q.requestId == a.feedback.value.requestId
               case Showing => Shown(a) != [] && Streamed([a] + rest) == Shown(a) + Streamed(rest)
               case Streaming => Streamed([a] + rest) == Streamed(rest)
               case _ => false
  {
    hide ExecReceives, React, Shown;
    ExecEnds(s);
    ExecReacts(s, a);
    Reacts(a);
    assert ([a] + rest)[0] == a && ([a] + rest)[1..] == rest;
  }

  /** Where an answer takes a waiter. */
  lemma WaiterReacts(s: State, w: nat, a: AragAnswer)
    requires w in s.waiters && s.waiters[w] == Relaying && !s.tables.cancelled
    ensures WaiterReceives(s, w, Gives(a)).Some? && w in WaiterReceives(s, w, Gives(a)).value.waiters
    ensures WaiterReceives(s, w, Gives(a)).value.waiters[w] ==
            match React(a)
            case Fail(_) => Tidying([Pop] + FINISH, Published(a).0, false)
            case Pause(feedback) => RenewingOwner(Question(|s.asked|, s.contextId, feedback.feedbackId, feedback.requestId))
            case Finish => Tidying(REMOVE + FINISH, Published(a).0, false)
            case Show(_) => Publishing
  {
    hide React, Published, Pauses, Set;
    match React(a)
    case Fail(_) => SetShows(s, w, Tidying([Pop] + FINISH, Published(a).0, false));
    case Pause(feedback) =>
      PauseIs(s, feedback, AtSaver(w));
      SetShows(Pauses(s, feedback, AtSaver(w)).0, w, RenewingOwner(Pauses(s, feedback, AtSaver(w)).1));
    case Finish => SetShows(s, w, Tidying(REMOVE + FINISH, Published(a).0, false));
    case Show(_) => SetShows(s, w, Publishing);
  }

  lemma SetShows(s: State, w: nat, waiter: Waiter)
    ensures w in Set(s, w, waiter).waiters && Set(s, w, waiter).waiters[w] == waiter
  {
  }

  lemma WaiterEnds(s: State, w: nat)
    requires w in s.waiters && s.waiters[w] == Relaying && !s.tables.cancelled
    ensures WaiterReceives(s, w, Ends).Some? && w in WaiterReceives(s, w, Ends).value.waiters
    ensures WaiterReceives(s, w, Ends).value.waiters[w] == Tidying(DISCARD + FINISH, [AgentAnswer(EndAnswer), AgentDone], false)
  {
  }

  /** What a waiter does with it is what `Relayed` puts on the topic. */
  lemma WaiterRelaysTheStream(s: State, w: nat, a: AragAnswer, rest: seq<AragAnswer>)
    requires w in s.waiters && s.waiters[w] == Relaying && !s.tables.cancelled
    ensures var t := WaiterReceives(s, w, Ends);
            t.Some? && w in t.value.waiters && t.value.waiters[w].Tidying? && Relayed([]) == t.value.waiters[w].closing
    ensures var t := WaiterReceives(s, w, Gives(a));
            && t.Some? && w in t.value.waiters
            && match t.value.waiters[w]
               case Tidying(_, messages, _) => messages != [] && Relayed([a] + rest) == messages
               case RenewingOwner(q) =>
                 && a.feedback.Some? && Relayed([a] + rest) == [AgentAnswer(a)]
                 && q.feedbackId == a.feedback.value.feedbackId && q.requestId == a.feedback.value.requestId
               case Publishing => Relayed([a] + rest) == [AgentAnswer(a)] + Relayed(rest)
               case _ => false
  {
    hide WaiterReceives, React;
    WaiterEnds(s, w);
    WaiterReacts(s, w, a);
    Reacts(a);
    assert ([a] + rest)[0] == a && ([a] + rest)[1..] == rest;
  }

  // ---- Clean-ups ----

  /** The state after some actions; telling a receiver changes nothing here. */
  function Cleaned(s: State, todo: seq<Cleanup>): State
    decreases |todo|
  {
    if todo == [] then s else Cleaned(Clean(s, todo[0]), todo[1..])
  }

  lemma CleanSet(s: State, a: Cleanup, w: nat, waiter: Waiter)
    ensures Clean(Set(s, w, waiter), a) == Set(Clean(s, a), w, waiter)
  {
    hide CleanTables, Stopped;
  }

  lemma TidyStep(s: State, w: nat, newId: nat, todo: seq<Cleanup>, closing: seq<Message>, handling: bool)
    requires w in s.waiters && s.waiters[w] == Tidying(todo, closing, handling) && todo != []
    ensures Next(s, WaiterGoesOn(w, newId)) == Some(Set(Clean(s, todo[0]), w, Tidying(LeftAfter(s, todo), closing, handling)))
  {
    hide Clean, LeftAfter, Set;
  }

  lemma SetTwice(s: State, w: nat, a: Waiter, b: Waiter)
    ensures Set(Set(s, w, a), w, b) == Set(s, w, b)
  {
    assert s.waiters[w := a][w := b] == s.waiters[w := b];
  }

  lemma SetHas(s: State, w: nat, a: Waiter)
    ensures w in Set(s, w, a).waiters && Set(s, w, a).waiters[w] == a
    ensures s.waiters[w := a] == s.waiters ==> Set(s, w, a) == s
  {
  }

  /** A waiter that only goes on does all that is left to do, one action at a time. */
  lemma {:induction false} TidiesAll(s: State, w: nat, newId: nat, todo: seq<Cleanup>, closing: seq<Message>, handling: bool)
    ensures exists n: nat :: Run(Set(s, w, Tidying(todo, closing, handling)), Times(WaiterGoesOn(w, newId), n)) ==
                             Some(Set(Cleaned(s, todo), w, Tidying([], closing, handling)))
    decreases |todo|, if todo != [] && todo[0].Drop? then 1 else 0
  {
    hide Next, Clean, Set, LeftAfter, Run;
    var l := WaiterGoesOn(w, newId);
    var at := Set(s, w, Tidying(todo, closing, handling));
    if todo == [] {
      NoStep(at);
      assert Run(at, Times(l, 0)) == Some(at);
    } else {
      SetHas(s, w, Tidying(todo, closing, handling));
      TidyStep(at, w, newId, todo, closing, handling);
      CleanSet(s, todo[0], w, Tidying(todo, closing, handling));
      var left := LeftAfter(at, todo);
      SetTwice(Clean(s, todo[0]), w, Tidying(todo, closing, handling), Tidying(left, closing, handling));
      var next := Set(Clean(s, todo[0]), w, Tidying(left, closing, handling));
      LeftIsLess(at, todo);
      TidiesAll(Clean(s, todo[0]), w, newId, left, closing, handling);
      var n: nat :| Run(next, Times(l, n)) == Some(Set(Cleaned(Clean(s, todo[0]), left), w, Tidying([], closing, handling)));
      ToldIsSame(Clean(s, todo[0]), at, todo);
      OneStep(at, l, Times(l, n));
      assert Run(at, Times(l, n + 1)) == Run(next, Times(l, n));
    }
  }

  lemma LeftIsLess(s: State, todo: seq<Cleanup>)
    requires todo != []
    ensures LeftAfter(s, todo) == todo[1..] || (todo[0].Drop? && LeftAfter(s, todo) == [ShutDown] + todo[1..])
  {
  }

  lemma ToldIsSame(t: State, s: State, todo: seq<Cleanup>)
    requires todo != []
    ensures Cleaned(t, LeftAfter(s, todo)) == Cleaned(t, todo[1..])
  {
    hide Clean;
    if LeftAfter(s, todo) != todo[1..] {
      assert ([ShutDown] + todo[1..])[1..] == todo[1..];
      TellingChangesNothing(t);
    }
  }

  lemma TellingChangesNothing(s: State)
    ensures Clean(s, ShutDown) == s
  {
  }

  /** What a clean-up that stops the lease and removes the owner record leaves. */
  predicate Finished(s: State, t: State) {
    && !t.ownerSaved && t.tables.canceller.None? && !t.tables.cancelled && t.canceller == Stopped(s.canceller, s.tables.canceller)
  }

  lemma FinishCleans(s: State)
    ensures Finished(s, Cleaned(s, FINISH))
    ensures Cleaned(s, FINISH).record == s.record && Cleaned(s, FINISH).tables.pending == s.tables.pending
  {
    assert FINISH[1..] == [RemoveOwner, Forget] && FINISH[1..][1..] == [Forget] && FINISH[1..][1..][1..] == [];
  }

  lemma {:induction false} CleanedConcat(s: State, a: seq<Cleanup>, b: seq<Cleanup>)
    ensures Cleaned(s, a + b) == Cleaned(Cleaned(s, a), b)
    decreases |a|
  {
    hide Clean;
    if a == [] {
      assert a + b == b;
    } else {
      assert (a + b)[1..] == a[1..] + b;
      CleanedConcat(Clean(s, a[0]), a[1..], b);
    }
  }

  /** What a clean-up that takes the entry away leaves, and the record if it removes that. */
  predicate EntryTaken(s: State, t: State, removes: bool) {
    && t.tables.pending.None? && t.record == (if removes then None else s.record)
    && t.tables.canceller == s.tables.canceller && t.canceller == s.canceller
  }

  lemma OneClean(s: State, a: Cleanup)
    ensures Cleaned(s, [a]) == Clean(s, a)
  {
    hide Clean;
    assert [a][1..] == [] && Cleaned(Clean(s, a), []) == Clean(s, a);
  }

  lemma TakesEntry(s: State)
    ensures EntryTaken(s, Cleaned(s, DISCARD), true) && EntryTaken(s, Cleaned(s, REMOVE), true)
    ensures EntryTaken(s, Cleaned(s, [Pop]), false)
  {
    hide Cleaned;
    OneClean(s, Pop);
    OneClean(s, Drop);
    OneClean(Clean(s, Pop), RemoveRecord);
    OneClean(Clean(s, Drop), RemoveRecord);
    CleanedConcat(s, [Drop], [RemoveRecord]);
    CleanedConcat(s, [Pop], [RemoveRecord]);
    assert DISCARD == [Drop] + [RemoveRecord] && REMOVE == [Pop] + [RemoveRecord];
  }

  /** A finished, an ended and an expired task leave neither entry nor record, and a failed
      stream no entry; and each of them stops the lease and removes the owner record. */
  lemma WorkCleans(s: State)
    ensures Finished(s, Cleaned(s, DISCARD + FINISH)) && Finished(s, Cleaned(s, REMOVE + FINISH)) && Finished(s, Cleaned(s, [Pop] + FINISH))
    ensures Cleaned(s, DISCARD + FINISH).record.None? && Cleaned(s, DISCARD + FINISH).tables.pending.None?
    ensures Cleaned(s, REMOVE + FINISH).record.None? && Cleaned(s, REMOVE + FINISH).tables.pending.None?
    ensures Cleaned(s, [Pop] + FINISH).tables.pending.None?
  {
    hide Cleaned, Stopped;
    CleanedConcat(s, DISCARD, FINISH);
    CleanedConcat(s, REMOVE, FINISH);
    CleanedConcat(s, [Pop], FINISH);
    TakesEntry(s);
    FinishCleans(Cleaned(s, DISCARD));
    FinishCleans(Cleaned(s, REMOVE));
    FinishCleans(Cleaned(s, [Pop]));
  }

  /** A waiter whose task expires, once it is through, has taken away the entry and the record,
      and finished. */
  lemma ExpiryClears(s: State, w: nat, newId: nat)
    requires w in s.waiters && s.waiters[w] == Waiting
    ensures exists n: nat :: Run(s, [WaiterExpires(w)] + Times(WaiterGoesOn(w, newId), n)).Some? &&
              var t := Run(s, [WaiterExpires(w)] + Times(WaiterGoesOn(w, newId), n)).value;
              && !t.live && t.record.None? && t.tables.pending.None? && Finished(s, t)
              && t.waiters == s.waiters[w := Tidying([], [], false)]
  {
    hide Next, Run, Cleaned, Set, Stopped;
    var d := s.(live := false);
    var todo := DISCARD + FINISH;
    assert Next(s, WaiterExpires(w)) == Some(Set(d, w, Tidying(todo, [], false))) by { ExpireWaiterStep(s, w); }
    TidiesAll(d, w, newId, todo, [], false);
    var n: nat :| Run(Set(d, w, Tidying(todo, [], false)), Times(WaiterGoesOn(w, newId), n)) ==
                  Some(Set(Cleaned(d, todo), w, Tidying([], [], false)));
    OneStep(s, WaiterExpires(w), Times(WaiterGoesOn(w, newId), n));
    WorkCleans(d);
    CleanedKeeps(d, todo);
    SetOnly(Cleaned(d, todo), w, Tidying([], [], false));
  }

  lemma ExpireWaiterStep(s: State, w: nat)
    requires w in s.waiters && s.waiters[w] == Waiting
    ensures Next(s, WaiterExpires(w)) == Some(Set(s.(live := false), w, Tidying(DISCARD + FINISH, [], false)))
  {
  }

  lemma SetOnly(s: State, w: nat, waiter: Waiter)
    ensures var t := Set(s, w, waiter);
            && t.live == s.live && t.record == s.record && t.tables == s.tables && t.ownerSaved == s.ownerSaved
            && t.canceller == s.canceller && t.waiters == s.waiters[w := waiter]
  {
  }

  lemma {:induction false} CleanedKeeps(s: State, todo: seq<Cleanup>)
    ensures Cleaned(s, todo).live == s.live && Cleaned(s, todo).waiters == s.waiters
    decreases |todo|
  {
    hide CleanTables, Stopped;
    if todo != [] {
      CleanedKeeps(Clean(s, todo[0]), todo[1..]);
    }
  }

  // ---- Failures ----

  /** A reply that could not be sent, before or after it was, leaves no record to claim. */
  lemma FailedSendLeavesNoRecord(s: State, f: nat, m: nat, topic: string)
    requires f in s.forwarders && (s.forwarders[f].Claimed? || s.forwarders[f].Sent?)
    ensures Run(s, [FeedbackFails(f), FeedbackGoesOn(f, m, topic)]).Some?
    ensures var t := Run(s, [FeedbackFails(f), FeedbackGoesOn(f, m, topic)]).value;
            t.record.None? && f in t.forwarders && t.forwarders[f] == Refused
  {
    hide Next, DropRecord;
    SendFailsStep(s, f);
    var s1 := Next(s, FeedbackFails(f)).value;
    var t := DropRecord(s1).(forwarders := s1.forwarders[f := Refused]);
    assert Next(s1, FeedbackGoesOn(f, m, topic)) == Some(t) by { UndeliveredStep(s1, f, m, topic); }
    OneStep(s, FeedbackFails(f), [FeedbackGoesOn(f, m, topic)]);
    OneStep(s1, FeedbackGoesOn(f, m, topic), []);
    NoStep(t);
    assert [FeedbackGoesOn(f, m, topic)] + [] == [FeedbackGoesOn(f, m, topic)];
    assert [FeedbackFails(f)] + [FeedbackGoesOn(f, m, topic)] == [FeedbackFails(f), FeedbackGoesOn(f, m, topic)];
    DropsRecord(s1);
  }

  lemma DropsRecord(s: State)
    ensures DropRecord(s).record.None?
  {
  }

  lemma SendFailsStep(s: State, f: nat)
    requires f in s.forwarders && (s.forwarders[f].Claimed? || s.forwarders[f].Sent?)
    ensures Next(s, FeedbackFails(f)).Some?
    ensures var t := Next(s, FeedbackFails(f)).value; f in t.forwarders && t.forwarders[f] == Undelivered
  {
  }

  lemma UndeliveredStep(s: State, f: nat, m: nat, topic: string)
    requires f in s.forwarders && s.forwarders[f] == Undelivered
    ensures Next(s, FeedbackGoesOn(f, m, topic)) == Some(DropRecord(s).(forwarders := s.forwarders[f := Refused]))
  {
    hide DropRecord;
  }

  /** When an operation of `execute` fails while it reads its stream, it will clear the task
      away as for one that ended, and tell its client so unless the task was cancelled. */
  lemma FailureIsShown(s: State)
    requires s.exec == Streaming || s.exec == Showing || s.exec.SavingPending? || s.exec == StartingWaiter || s.exec == Yielding || s.exec == Asking
    ensures ExecRaises(s).Some? && !ExecRaises(s).value.live
    ensures ExecRaises(s).value.exec ==
            Cleaning(DISCARD + FINISH, if s.tables.cancelled then None else Some(Failed("Internal A2A error")), true)
  {
    hide Killed;
  }

  /** When an operation of a waiter fails, it clears the task away as well, but publishes nothing. */
  lemma WaiterFailureIsSilent(s: State, w: nat)
    requires w in s.waiters && Drives(s.waiters[w])
    ensures WaiterRaises(s, w).Some? && !WaiterRaises(s, w).value.live
    ensures WaiterRaises(s, w).value.waiters == s.waiters[w := Tidying(DISCARD + FINISH, [], true)]
  {
  }
}
