/** What every interleaving of an A2A task's coroutines keeps: the invariant, and its
    proof step by step. */
module TaskInvariant {
  import opened Wrappers
  import opened Answers
  import opened Relay
  import opened TaskTables
  import opened TaskSystem

  // ---- The invariant ----

  predicate IsLast(asked: seq<Question>, q: Question) {
    asked != [] && q == asked[|asked| - 1]
  }

  /** A reply to the last question, claimed with that question's feedback id. */
  predicate Replies(asked: seq<Question>, r: Reply) {
    asked != [] && RepliesTo(r, asked[|asked| - 1])
  }

  predicate RepliesTo(r: Reply, q: Question) {
    r.number == q.number && r.feedbackId == q.feedbackId && r.requestId == q.requestId
  }

  /** Replies are delivered in the order of the questions, all but perhaps the last. */
  predicate Numbered(asked: seq<Question>, delivered: seq<Reply>) {
    && (forall i :: 0 <= i < |asked| ==> asked[i].number == i)
    && |delivered| <= |asked| <= |delivered| + 1
    && (forall i :: 0 <= i < |delivered| ==> RepliesTo(delivered[i], asked[i]))
  }

  predicate Fresh(asked: seq<Question>, delivered: seq<Reply>) { |asked| == |delivered| + 1 }

  predicate WaiterToken(w: nat, waiter: Waiter, token: Token, asked: seq<Question>, open: bool) {
    match waiter
    case Got(r) => token == AtWaiter(w) && Replies(asked, r)
    case Putting(r) => token == AtWaiter(w) && Replies(asked, r)
    case RenewingOwner(q) => token == AtSaver(w) && IsLast(asked, q)
    case SavingRecord(q) => token == AtSaver(w) && IsLast(asked, q)
    case Relaying => !open
    case Publishing => !open
    case _ => true
  }

  predicate ForwarderToken(f: nat, forwarder: Forwarder, token: Token, asked: seq<Question>) {
    forwarder.Claimed? ==>
      && token == AtForwarder(f) && IsLast(asked, forwarder.question)
      && forwarder.feedbackId == forwarder.question.feedbackId
  }

  /** Whoever may still answer the last question is where the token is. */
  predicate OneToken(s: State) {
    && (s.token != Nowhere ==> Fresh(s.asked, s.delivered))
    && (s.record.Some? ==> s.token == InStore && IsLast(s.asked, s.record.value))
    && (s.exec.SavingPending? ==> s.token == AtExec && IsLast(s.asked, s.exec.question))
    && (s.tables.pending.Some? ==> IsLast(s.asked, s.tables.pending.value))
    && MailToken(s.mail, s.token, s.asked)
    && ForwardersToken(s.forwarders, s.token, s.asked)
    && WaitersToken(s.waiters, s.token, s.asked, Fresh(s.asked, s.delivered))
  }

  predicate MailToken(mail: map<nat, Reply>, token: Token, asked: seq<Question>) {
    forall m :: m in mail ==> token == InMail(m) && Replies(asked, mail[m])
  }

  predicate ForwardersToken(forwarders: map<nat, Forwarder>, token: Token, asked: seq<Question>) {
    forall f :: f in forwarders ==> ForwarderToken(f, forwarders[f], token, asked)
  }

  predicate WaitersToken(waiters: map<nat, Waiter>, token: Token, asked: seq<Question>, open: bool) {
    forall w :: w in waiters ==> WaiterToken(w, waiters[w], token, asked, open)
  }

  /** Before `execute` starts the first feedback waiter. */
  predicate Early(e: Exec) {
    Unregistered(e) || Reading(e) || e.SavingPending? || e.StartingWaiter?
  }

  predicate Unregistered(e: Exec) { e.SavingOwner? || e.Registering? }

  predicate Reading(e: Exec) { e.Streaming? || e.Showing? }

  predicate Left(e: Exec) { e.Leaving? || e.Ended? }

  /** A feedback waiter that may still read the stream or write the store's records. */
  predicate Drives(w: Waiter) {
    !w.YieldingNext? && !w.AskingNext? && !w.Tidying? && !w.Finishing? && !w.Dead?
  }

  predicate NoDriver(waiters: map<nat, Waiter>) {
    forall w :: w in waiters ==> !Drives(waiters[w])
  }

  predicate DriverIsListed(waiters: map<nat, Waiter>, entry: Option<nat>) {
    forall w :: w in waiters && Drives(waiters[w]) ==> entry == Some(w)
  }

  /** One coroutine at most drives the task, and a waiter that does is in the table. */
  predicate OneDriver(s: State) {
    && (Early(s.exec) ==> s.waiters == map[])
    && (Unregistered(s.exec) || Reading(s.exec) ==> s.asked == [])
    && (s.exec.Cleaning? ==> NoDriver(s.waiters))
    && DriverIsListed(s.waiters, s.tables.waiter)
  }

  predicate Runs(c: Canceller) { c.Checking? || c.Receiving? || c.Notified? || c.Renewing? }

  predicate CancellerOk(s: State) {
    && (Unregistered(s.exec) ==> s.canceller == Unstarted)
    && (Runs(s.canceller) ==> s.tables.canceller == Some(CANCELLER))
    && (s.canceller.Unstarted? ==> s.tables.canceller.None?)
    && (s.canceller.Stopping? ==> OnlyStores(s.canceller.todo))
    && (forall c :: c in s.cancels && s.cancels[c].Cancelling? ==> OnlyStores(s.cancels[c].todo))
  }

  /** A clean-up that stops no coroutine and drops no pending entry. */
  predicate OnlyStores(todo: seq<Cleanup>) {
    forall i :: 0 <= i < |todo| ==> IsStore(todo[i])
  }

  /** A live task has a receiver or a pending entry at every moment, and its lease is
      refreshed unless refreshing failed. */
  predicate LiveOk(s: State) {
    s.live ==>
      && !Unregistered(s.exec) && !s.exec.Cleaning?
      && (!Left(s.exec) ==> s.tables.active)
      && (!Reading(s.exec) ==> s.tables.pending.Some?)
      && (Runs(s.canceller) || s.failed)
      && forall w :: w in s.waiters ==> !s.waiters[w].Tidying?
  }

  predicate Removes(todo: seq<Cleanup>) {
    todo != [] && (todo[0].RemoveOwner? || Removes(todo[1..]))
  }

  /** The canceller is stopped, and only then the owner record removed. */
  predicate StopsAndRemoves(todo: seq<Cleanup>) {
    todo != [] && if todo[0].StopCanceller? then Removes(todo[1..]) else StopsAndRemoves(todo[1..])
  }

  /** What is left to do stops the lease and removes the owner record for good. */
  predicate Finishes(todo: seq<Cleanup>, canceller: Canceller, ownerSaved: bool) {
    (Runs(canceller) ==> StopsAndRemoves(todo)) && (ownerSaved ==> Removes(todo))
  }

  lemma {:induction false} StopsRemoves(todo: seq<Cleanup>)
    requires StopsAndRemoves(todo)
    ensures Removes(todo)
  {
    if !todo[0].StopCanceller? {
      StopsRemoves(todo[1..]);
    }
  }

  predicate Settled(s: State) {
    !s.ownerSaved && !Runs(s.canceller) && NoDriver(s.waiters) && !Early(s.exec)
  }

  predicate ClosesInOrder(s: State) {
    && (s.exec.Cleaning? ==> Finishes(s.exec.todo, s.canceller, s.ownerSaved))
    && (forall w :: w in s.waiters && Closes(s.waiters[w]) ==>
          Finishes(s.waiters[w].todo, s.canceller, s.ownerSaved) && NoDriver(s.waiters) && !Early(s.exec))
    && (s.closed ==> Settled(s))
  }

  /** A waiter that will publish a closing message. */
  predicate Closes(w: Waiter) { w.Tidying? && w.closing != [] }

  predicate Inv(s: State) {
    Numbered(s.asked, s.delivered) && OneToken(s) && OneDriver(s) && CancellerOk(s) && LiveOk(s) && ClosesInOrder(s)
  }

  lemma InitialInv(contextId: string)
    ensures Inv(Initial(contextId))
  {
  }

  // ---- Moves that steps are made of ----

  lemma DimInv(s: State)
    requires Inv(s)
    ensures Inv(s.(live := false))
  {
    hide Numbered, MailToken, ForwardersToken, WaitersToken, DriverIsListed, Runs, Finishes, NoDriver;
  }

  /** A waiter gives up whatever it could do, and the token if it has it. */
  lemma RetireInv(s: State, w: nat, to: Waiter, loses: bool)
    requires Inv(s) && w in s.waiters && !Drives(to) && !Closes(to) && (to.Tidying? ==> !s.live)
    ensures Inv(Retired(s, w, to, loses))
  {
    hide Numbered, OneToken, Runs, Finishes;
    RetireToken(s, w, to, loses);
  }

  function Retired(s: State, w: nat, to: Waiter, loses: bool): State {
    Set(s, w, to).(token := if loses then Without(s.token, w) else s.token)
  }

  lemma RetireToken(s: State, w: nat, to: Waiter, loses: bool)
    requires OneToken(s) && w in s.waiters && !Drives(to)
    ensures OneToken(Retired(s, w, to, loses))
  {
    hide IsLast, Replies, Fresh;
  }

  lemma KillInv(s: State, victim: Option<nat>)
    requires Inv(s)
    ensures Inv(Kill(s, victim))
  {
    hide Inv;
    if victim.Some? && victim.value in s.waiters {
      var w := victim.value;
      RetireInv(s, w, if s.waiters[w] == Dead then Dead else Finishing, true);
      assert s.waiters[w] == Dead ==> s.waiters[w := Dead] == s.waiters;
    }
  }

  /** Stopping the listed waiter leaves nobody who drives. */
  lemma StopWaiterInv(s: State)
    requires Inv(s)
    ensures Inv(StopWaiter(s)) && NoDriver(StopWaiter(s).waiters)
  {
    hide Inv;
    KillInv(s, s.tables.waiter);
    KilledDrives(s);
    UnlistInv(Kill(s, s.tables.waiter));
    assert StopWaiter(s) == Unlisted(Kill(s, s.tables.waiter));
  }

  function Unlisted(s: State): State { s.(tables := s.tables.StopWaiter()) }

  lemma KilledDrives(s: State)
    requires Inv(s)
    ensures NoDriver(Kill(s, s.tables.waiter).waiters)
  {
    hide Numbered, OneToken, CancellerOk, LiveOk, ClosesInOrder;
  }

  lemma UnlistInv(s: State)
    requires Inv(s) && NoDriver(s.waiters)
    ensures Inv(Unlisted(s))
  {
    hide Numbered, MailToken, ForwardersToken, WaitersToken, Runs, Finishes;
  }

  lemma DropPendingInv(s: State)
    requires Inv(s) && !s.live
    ensures Inv(s.(tables := s.tables.DropPending()))
  {
    hide Numbered, MailToken, ForwardersToken, WaitersToken, DriverIsListed, Runs, Finishes, NoDriver;
  }

  lemma StopCancellerInv(s: State)
    requires Inv(s) && !s.live
    ensures var t := Clean(s, StopCanceller); Inv(t) && !Runs(t.canceller)
  {
    hide Numbered, MailToken, ForwardersToken, WaitersToken, DriverIsListed, NoDriver;
  }

  lemma DropRecordInv(s: State)
    requires Inv(s)
    ensures Inv(DropRecord(s))
  {
    hide Numbered, IsLast, Replies, DriverIsListed, Runs, Finishes, NoDriver;
  }

  lemma RemoveOwnerInv(s: State)
    requires Inv(s)
    ensures Inv(s.(ownerSaved := false))
  {
    hide Numbered, MailToken, ForwardersToken, WaitersToken, DriverIsListed, NoDriver, Runs;
  }

  lemma ForgetInv(s: State)
    requires Inv(s)
    ensures Inv(s.(tables := s.tables.Forget()))
  {
    hide Numbered, MailToken, ForwardersToken, WaitersToken, DriverIsListed, NoDriver, Runs, Finishes;
  }

  /** An action that stops no coroutine and drops no pending entry. */
  predicate IsStore(a: Cleanup) { !a.Pop? && !a.Drop? && !a.StopCanceller? }

  lemma CleanInv(s: State, a: Cleanup)
    requires Inv(s) && (IsStore(a) || !s.live)
    ensures Inv(Clean(s, a))
  {
    hide Inv;
    match a
    case Pop => DropPendingInv(s);
    case Drop => DropPendingInv(s);
    case ShutDown =>
    case RemoveRecord => DropRecordInv(s);
    case StopCanceller => StopCancellerInv(s);
    case RemoveOwner => RemoveOwnerInv(s);
    case Forget => ForgetInv(s);
  }

  lemma CleanFinishes(s: State, todo: seq<Cleanup>)
    requires todo != [] && Finishes(todo, s.canceller, s.ownerSaved)
    requires Runs(s.canceller) ==> s.tables.canceller == Some(CANCELLER)
    ensures Finishes(LeftAfter(s, todo), Clean(s, todo[0]).canceller, Clean(s, todo[0]).ownerSaved)
  {
    var rest := todo[1..];
    assert ([ShutDown] + rest)[1..] == rest;
  }

  /** `_cancel_local_task` up to its first await. */
  lemma BeginCancelInv(s: State, byCanceller: bool)
    requires Inv(s) && (byCanceller ==> s.canceller == Notified)
    ensures Inv(BeginCancel(s, byCanceller))
  {
    hide Numbered, MailToken, ForwardersToken, WaitersToken, StopsAndRemoves, Removes, Killed;
    DimInv(s);
    StopWaiterInv(s.(live := false));
    CancelWorkStores(s);
  }

  lemma CancelWorkStores(s: State)
    ensures OnlyStores(CancelWork(s))
  {
  }

  // ---- Steps of `execute` ----

  lemma ExecReceivesInv(s: State, input: Input)
    requires Inv(s) && ExecReceives(s, input).Some?
    ensures Inv(ExecReceives(s, input).value)
  {
    hide Inv, React, Pauses;
    if s.tables.cancelled {
      ReadingTidies(s, FINISH, None);
    } else {
      match input
      case Ends => ReadingTidies(s, DISCARD + FINISH, Some(Failed(ENDED)));
      case Gives(a) =>
        match React(a)
        case Fail(detail) => ReadingTidies(s, FINISH, Some(Failed(detail)));
        case Pause(feedback) => ExecPausesInv(s, feedback);
        case Finish => ReadingTidies(s, REMOVE + FINISH, Some(Completed));
        case Show(events) => ReadingInv(s, Showing);
    }
  }

  predicate IsWork(todo: seq<Cleanup>) {
    todo == FINISH || todo == DISCARD + FINISH || todo == REMOVE + FINISH || todo == [Pop] + FINISH
  }

  lemma ReadingTidies(s: State, todo: seq<Cleanup>, closing: Option<Event>)
    requires Inv(s) && s.exec == Streaming && IsWork(todo)
    ensures Inv(s.(live := false, exec := Cleaning(todo, closing, false)))
  {
    hide Inv, IsWork;
    DimInv(s);
    WorkFinishes(todo, s.canceller, s.ownerSaved);
    EarlyHasNoDriver(s);
    ExecTidiesInv(s.(live := false), todo, closing, false);
  }

  lemma EarlyHasNoDriver(s: State)
    requires Inv(s) && Early(s.exec)
    ensures s.waiters == map[] && NoDriver(s.waiters)
  {
    hide OneToken, CancellerOk, LiveOk, ClosesInOrder, Numbered;
  }

  /** The clean-ups of the code stop the lease and then remove the owner record. */
  lemma WorkFinishes(todo: seq<Cleanup>, canceller: Canceller, ownerSaved: bool)
    requires IsWork(todo)
    ensures Finishes(todo, canceller, ownerSaved)
  {
    hide Runs;
    assert FINISH[1..] == [RemoveOwner, Forget];
    assert StopsAndRemoves(FINISH);
    var n := |todo| - 3;
    assert n <= 2 && todo[n..] == FINISH;
    if n >= 1 { assert todo[1..][n - 1..] == FINISH; }
    if n == 2 { assert todo[1..][1..] == FINISH; }
    StopsRemoves(todo);
  }

  lemma ExecTidiesInv(s: State, todo: seq<Cleanup>, closing: Option<Event>, handling: bool)
    requires Inv(s) && !s.live && NoDriver(s.waiters) && (s.exec.Cleaning? || s.exec.Yielding? || s.exec.Asking? || Reading(s.exec))
    requires Finishes(todo, s.canceller, s.ownerSaved)
    ensures Inv(s.(exec := Cleaning(todo, closing, handling)))
  {
    hide Numbered, MailToken, ForwardersToken, WaitersToken, DriverIsListed, Runs, Finishes;
  }

  lemma ReadingInv(s: State, e: Exec)
    requires Inv(s) && Reading(s.exec) && Reading(e)
    ensures Inv(s.(exec := e))
  {
    hide Numbered, MailToken, ForwardersToken, WaitersToken, DriverIsListed, Runs, Finishes;
  }

  lemma ExecPausesInv(s: State, feedback: Feedback)
    requires Inv(s) && s.exec == Streaming
    ensures var (s1, q) := Pauses(s, feedback, AtExec);
            Inv(s1.(exec := SavingPending(q)))
  {
    hide Runs, Finishes;
  }

  lemma ExecRaisesInv(s: State)
    requires Inv(s) && ExecRaises(s).Some?
    ensures Inv(ExecRaises(s).value)
  {
    hide Inv, StopWaiter;
    match s.exec
    case SavingOwner => ExecEndsInv(s);
    case Registering => ExecEndsInv(s);
    case Cleaning(_, _, handling) =>
      if handling { ExecCleanedInv(s, false); } else { ExecHandlesInv(s); }
    case Leaving =>
    case Ended =>
    case _ => ExecHandlesInv(s);
  }

  /** `execute` fails before it has registered anything. */
  lemma ExecEndsInv(s: State)
    requires Inv(s) && Unregistered(s.exec)
    ensures Inv(s.(exec := Ended))
  {
    hide Numbered, MailToken, ForwardersToken, WaitersToken, Finishes;
  }

  lemma ExecCleanedInv(s: State, closes: bool)
    requires Inv(s) && s.exec.Cleaning? && (closes ==> s.exec.todo == [])
    ensures Inv(s.(closed := s.closed || closes, exec := Leaving))
  {
    hide Numbered, MailToken, ForwardersToken, WaitersToken, DriverIsListed;
  }

  /** The handler of `execute`: it cancels the waiter before anything else. */
  lemma ExecHandlesInv(s: State)
    requires Inv(s) && !Unregistered(s.exec) && !Left(s.exec)
    ensures Inv(ExecLoses(StopWaiter(s.(live := false))).(exec := Cleaning(DISCARD + FINISH,
                  if s.tables.cancelled then None else Some(Failed("Internal A2A error")), true)))
  {
    hide Inv, Killed, ExecLoses;
    var closing := if s.tables.cancelled then None else Some(Failed("Internal A2A error"));
    var s1 := s.(live := false);
    DimInv(s);
    StopWaiterInv(s1);
    var s2 := StopWaiter(s1);
    WorkFinishes(DISCARD + FINISH, s2.canceller, s2.ownerSaved);
    ExecDropsInv(s2, DISCARD + FINISH, closing, true);
  }

  lemma ExecDropsInv(s: State, todo: seq<Cleanup>, closing: Option<Event>, handling: bool)
    requires Inv(s) && !s.live && NoDriver(s.waiters) && !Unregistered(s.exec)
    requires Finishes(todo, s.canceller, s.ownerSaved)
    ensures Inv(ExecLoses(s).(exec := Cleaning(todo, closing, handling)))
  {
    hide Numbered, OneToken, DriverIsListed, Runs, Finishes;
    ExecLosesToken(s, Cleaning(todo, closing, handling));
  }

  lemma ExecLosesToken(s: State, e: Exec)
    requires OneToken(s) && !e.SavingPending?
    ensures OneToken(ExecLoses(s).(exec := e))
  {
    hide IsLast, Replies, Fresh;
  }

  lemma ExecKilledInv(s: State)
    requires Inv(s) && ExecKilled(s).Some?
    ensures Inv(ExecKilled(s).value)
  {
    hide Inv, ExecLoses;
    if Unregistered(s.exec) {
      ExecEndsInv(s);
    } else {
      DimInv(s);
      ExecAbandonsInv(s.(live := false));
    }
  }

  lemma ExecAbandonsInv(s: State)
    requires Inv(s) && !s.live && !Unregistered(s.exec) && !Left(s.exec)
    ensures Inv(ExecLoses(s).(exec := Leaving))
  {
    hide Numbered, OneToken, DriverIsListed, Runs, Finishes;
    ExecLosesToken(s, Leaving);
  }

  lemma ExecRunsInv(s: State, newId: nat)
    requires Inv(s) && ExecRuns(s, newId).Some?
    ensures Inv(ExecRuns(s, newId).value)
  {
    hide Inv, StopWaiter, Clean, LeftAfter;
    match s.exec
    case SavingOwner => ExecSavesOwnerInv(s);
    case Registering => ExecRegistersInv(s);
    case Showing => ReadingInv(s, Streaming);
    case SavingPending(q) => ExecSavesPendingInv(s);
    case StartingWaiter =>
      EarlyHasNoDriver(s);
      StopWaiterInv(s);
      ExecStartsWaiterInv(s, newId);
    case Yielding => ExecAsksInv(s, Asking);
    case Asking => ExecAsksInv(s, Leaving);
    case Cleaning(todo, closing, handling) =>
      if todo == [] { ExecCleanedInv(s, closing.Some?); } else { ExecCleansInv(s); }
    case Leaving => ExecLeavesInv(s);
  }

  lemma ExecSavesOwnerInv(s: State)
    requires Inv(s) && s.exec == SavingOwner
    ensures Inv(s.(ownerSaved := true, exec := Registering))
  {
    hide Numbered, MailToken, ForwardersToken, WaitersToken, Finishes;
  }

  lemma ExecRegistersInv(s: State)
    requires Inv(s) && s.exec == Registering
    ensures Inv(s.(tables := s.tables.Register(CANCELLER), canceller := Checking, live := true, exec := Streaming))
  {
    hide Numbered, MailToken, ForwardersToken, WaitersToken, Finishes;
  }

  lemma ExecSavesPendingInv(s: State)
    requires Inv(s) && s.exec.SavingPending?
    ensures Inv(s.(record := Some(s.exec.question), token := InStore, exec := StartingWaiter))
  {
    hide Numbered, IsLast, Replies, Fresh, Finishes, Runs;
  }

  lemma ExecStartsWaiterInv(s: State, newId: nat)
    requires Inv(s) && s.exec == StartingWaiter && s.waiters == map[]
    ensures var s1 := StopWaiter(s);
            Inv(s1.(tables := s1.tables.StartWaiter(newId), waiters := s1.waiters[newId := Waiting], exec := Yielding))
  {
    hide Numbered, MailToken, ForwardersToken, IsLast, Fresh, Finishes, Runs;
  }

  lemma ExecAsksInv(s: State, e: Exec)
    requires Inv(s) && if e == Asking then s.exec == Yielding else s.exec == Asking && e == Leaving
    ensures Inv(s.(exec := e))
  {
    hide Numbered, MailToken, ForwardersToken, WaitersToken, DriverIsListed, Runs, Finishes, NoDriver;
  }

  lemma ExecCleansInv(s: State)
    requires Inv(s) && s.exec.Cleaning? && s.exec.todo != []
    ensures Inv(Clean(s, s.exec.todo[0]).(exec := s.exec.(todo := LeftAfter(s, s.exec.todo))))
  {
    hide Inv, LeftAfter, Finishes, CleanTables;
    var t := Clean(s, s.exec.todo[0]);
    ExecCleaningOk(s);
    CleanInv(s, s.exec.todo[0]);
    CleanFinishes(s, s.exec.todo);
    ExecTidiesInv(t, LeftAfter(s, s.exec.todo), s.exec.closing, s.exec.handling);
  }

  lemma ExecCleaningOk(s: State)
    requires Inv(s) && s.exec.Cleaning?
    ensures !s.live && NoDriver(s.waiters) && Finishes(s.exec.todo, s.canceller, s.ownerSaved)
    ensures Runs(s.canceller) ==> s.tables.canceller == Some(CANCELLER)
  {
    hide Numbered, OneToken, Finishes;
  }

  lemma ExecLeavesInv(s: State)
    requires Inv(s) && s.exec == Leaving
    ensures Inv(s.(tables := s.tables.LeaveExecute(), exec := Ended))
  {
    hide Numbered, MailToken, ForwardersToken, WaitersToken, DriverIsListed, Runs, Finishes, NoDriver;
  }

  // ---- Steps of `_wait_for_feedback` ----

  lemma WaiterTakesInv(s: State, w: nat, m: nat)
    requires Inv(s) && WaiterTakes(s, w, m).Some?
    ensures Inv(WaiterTakes(s, w, m).value)
  {
    hide Numbered, OneToken, Runs, Finishes;
    WaiterTakesToken(s, w, m);
  }

  lemma WaiterTakesToken(s: State, w: nat, m: nat)
    requires OneToken(s) && WaiterTakes(s, w, m).Some?
    ensures OneToken(WaiterTakes(s, w, m).value)
  {
    hide IsLast, Replies, Fresh;
  }

  lemma WaiterTimesOutInv(s: State, w: nat)
    requires Inv(s) && WaiterTimesOut(s, w).Some?
    ensures Inv(WaiterTimesOut(s, w).value)
  {
    hide Inv;
    WaiterGivesUp(s, w, DISCARD + FINISH, false, false);
  }

  /** A waiter that will publish nothing cleans up. */
  lemma WaiterGivesUp(s: State, w: nat, todo: seq<Cleanup>, handling: bool, loses: bool)
    requires Inv(s) && w in s.waiters
    ensures Inv(Retired(s.(live := false), w, Tidying(todo, [], handling), loses))
  {
    hide Inv;
    DimInv(s);
    RetireInv(s.(live := false), w, Tidying(todo, [], handling), loses);
  }

  lemma WaiterReceivesInv(s: State, w: nat, input: Input)
    requires Inv(s) && WaiterReceives(s, w, input).Some?
    ensures Inv(WaiterReceives(s, w, input).value)
  {
    hide Inv, React, Pauses, Published;
    if s.tables.cancelled {
      WaiterGivesUp(s, w, FINISH, false, false);
    } else {
      match input
      case Ends => RelayingTidies(s, w, DISCARD + FINISH, [AgentAnswer(EndAnswer), AgentDone]);
      case Gives(a) =>
        match React(a)
        case Fail(_) => RelayingTidies(s, w, [Pop] + FINISH, Published(a).0);
        case Pause(feedback) => WaiterPausesInv(s, w, feedback);
        case Finish => RelayingTidies(s, w, REMOVE + FINISH, Published(a).0);
        case Show(_) => RelayInv(s, w, Publishing);
    }
  }

  /** The relay ends: nobody else drives the task, so it may publish its closing. */
  lemma RelayingTidies(s: State, w: nat, todo: seq<Cleanup>, closing: seq<Message>)
    requires Inv(s) && w in s.waiters && s.waiters[w] == Relaying && IsWork(todo)
    ensures Inv(Set(s, w, Tidying(todo, closing, false)).(live := false))
  {
    hide Numbered, MailToken, ForwardersToken, WaitersToken, IsLast, Fresh, Runs, Finishes, IsWork;
    RetireToken(s, w, Tidying(todo, closing, false), false);
    WorkFinishes(todo, s.canceller, s.ownerSaved);
  }

  lemma RelayInv(s: State, w: nat, to: Waiter)
    requires Inv(s) && w in s.waiters
    requires (s.waiters[w].Relaying? || s.waiters[w].Publishing?) && (to.Relaying? || to.Publishing?)
    ensures Inv(Set(s, w, to))
  {
    hide Numbered, IsLast, Replies, Fresh, Runs, Finishes;
  }

  lemma WaiterPausesInv(s: State, w: nat, feedback: Feedback)
    requires Inv(s) && w in s.waiters && s.waiters[w] == Relaying
    ensures var (s1, q) := Pauses(s, feedback, AtSaver(w));
            Inv(Set(s1, w, RenewingOwner(q)))
  {
    hide Runs, Finishes, OneToken, IsLast;
    NothingOpen(s, w);
    WaiterPausesToken(s, w, feedback);
  }

  /** While the stream is read nobody may answer. */
  lemma NothingOpen(s: State, w: nat)
    requires OneToken(s) && OneDriver(s) && Numbered(s.asked, s.delivered) && w in s.waiters && s.waiters[w] == Relaying
    ensures s.token == Nowhere && |s.asked| == |s.delivered| && s.record.None? && s.mail == map[] && !s.exec.SavingPending?
    ensures forall f :: f in s.forwarders ==> !s.forwarders[f].Claimed?
    ensures forall v :: v in s.waiters && v != w ==> !Drives(s.waiters[v])
  {
    assert WaiterToken(w, s.waiters[w], s.token, s.asked, Fresh(s.asked, s.delivered));
    if m :| m in s.mail { assert false; }
  }

  lemma WaiterPausesToken(s: State, w: nat, feedback: Feedback)
    requires s.token == Nowhere && |s.asked| == |s.delivered| && s.record.None? && s.mail == map[] && !s.exec.SavingPending?
    requires forall f :: f in s.forwarders ==> !s.forwarders[f].Claimed?
    requires forall v :: v in s.waiters && v != w ==> !Drives(s.waiters[v])
    ensures var (s1, q) := Pauses(s, feedback, AtSaver(w));
            OneToken(Set(s1, w, RenewingOwner(q)))
  {
  }

  lemma WaiterRaisesInv(s: State, w: nat)
    requires Inv(s) && WaiterRaises(s, w).Some?
    ensures Inv(WaiterRaises(s, w).value)
  {
    hide Inv;
    if s.waiters[w].Tidying? && s.waiters[w].handling {
      RetireInv(s, w, Finishing, false);
    } else {
      WaiterGivesUp(s, w, DISCARD + FINISH, true, true);
    }
  }

  lemma WaiterRunsInv(s: State, w: nat, newId: nat)
    requires Inv(s) && WaiterRuns(s, w, newId).Some?
    ensures Inv(WaiterRuns(s, w, newId).value)
  {
    hide Inv, Kill, Clean, LeftAfter;
    match s.waiters[w]
    case Got(reply) => WaiterGotInv(s, w);
    case Putting(reply) => WaiterDeliversInv(s, w);
    case Publishing => RelayInv(s, w, Relaying);
    case RenewingOwner(q) => WaiterRenewsInv(s, w);
    case SavingRecord(q) => WaiterSavesInv(s, w);
    case StartingNext => WaiterStartsNextInv(s, w, newId);
    case YieldingNext => RetireInv(s, w, AskingNext, false);
    case AskingNext => RetireInv(s, w, Finishing, false);
    case Tidying(todo, closing, handling) =>
      if todo != [] { WaiterCleansInv(s, w); }
      else if closing == [] { RetireInv(s, w, Finishing, false); }
      else { WaiterClosesInv(s, w); }
    case Finishing => WaiterLeavesInv(s, w);
  }

  lemma WaiterGotInv(s: State, w: nat)
    requires Inv(s) && w in s.waiters && s.waiters[w].Got?
    ensures Inv(if s.tables.pending.Some? then Set(s, w, Putting(s.waiters[w].reply))
                else Set(s, w, Finishing).(token := Nowhere))
  {
    hide Numbered, IsLast, Replies, Fresh, Runs, Finishes;
    if s.tables.pending.None? {
      RetireInv(s, w, Finishing, true);
      assert Without(s.token, w) == Nowhere;
    }
  }

  lemma WaiterDeliversInv(s: State, w: nat)
    requires Inv(s) && w in s.waiters && s.waiters[w].Putting?
    ensures Inv(Set(s, w, Relaying).(delivered := s.delivered + [s.waiters[w].reply], token := Nowhere))
  {
    hide OneToken, Runs, Finishes;
    WaiterDeliversToken(s, w);
  }

  lemma WaiterDeliversToken(s: State, w: nat)
    requires OneToken(s) && OneDriver(s) && w in s.waiters && s.waiters[w].Putting?
    ensures Replies(s.asked, s.waiters[w].reply) && Fresh(s.asked, s.delivered)
    ensures OneToken(Set(s, w, Relaying).(delivered := s.delivered + [s.waiters[w].reply], token := Nowhere))
  {
    hide IsLast, Replies;
  }

  lemma WaiterRenewsInv(s: State, w: nat)
    requires Inv(s) && w in s.waiters && s.waiters[w].RenewingOwner?
    ensures Inv(Set(s, w, SavingRecord(s.waiters[w].question)).(ownerSaved := true))
  {
    hide Numbered, IsLast, Replies, Fresh, Runs;
  }

  lemma WaiterSavesInv(s: State, w: nat)
    requires Inv(s) && w in s.waiters && s.waiters[w].SavingRecord?
    ensures Inv(Set(s, w, StartingNext).(record := Some(s.waiters[w].question), token := InStore))
  {
    hide Numbered, IsLast, Replies, Fresh, Runs, Finishes;
  }

  /** The new waiter takes the old one's place in the table. */
  lemma WaiterStartsNextInv(s: State, w: nat, newId: nat)
    requires Inv(s) && w in s.waiters && s.waiters[w] == StartingNext && newId !in s.waiters
    ensures Inv(WaiterRuns(s, w, newId).value)
  {
    hide Inv;
    DriverListed(s, w);
    var s1 := Retired(s, w, YieldingNext, false);
    RetireInv(s, w, YieldingNext, false);
    OthersIdle(s, w);
    ListInv(s1, newId);
  }

  lemma DriverListed(s: State, w: nat)
    requires Inv(s) && w in s.waiters && Drives(s.waiters[w])
    ensures s.tables.waiter == Some(w) && !Early(s.exec)
  {
    hide Numbered, OneToken, CancellerOk, LiveOk, ClosesInOrder;
  }

  lemma OthersIdle(s: State, w: nat)
    requires Inv(s) && w in s.waiters && Drives(s.waiters[w])
    ensures NoDriver(s.waiters[w := YieldingNext]) && !s.exec.Cleaning? && !s.closed && !Early(s.exec)
    ensures forall v :: v in s.waiters ==> !Closes(s.waiters[v])
  {
    hide Numbered, OneToken, CancellerOk, LiveOk;
  }

  lemma ListInv(s: State, newId: nat)
    requires Inv(s) && newId !in s.waiters && NoDriver(s.waiters) && !s.exec.Cleaning? && !s.closed && !Early(s.exec)
    requires forall v :: v in s.waiters ==> !Closes(s.waiters[v])
    ensures Inv(Set(s, newId, Waiting).(tables := s.tables.StartWaiter(newId)))
  {
    hide Numbered, IsLast, Replies, Fresh, Runs, Finishes;
  }

  lemma WaiterCleansInv(s: State, w: nat)
    requires Inv(s) && w in s.waiters && s.waiters[w].Tidying? && s.waiters[w].todo != []
    ensures Inv(Set(Clean(s, s.waiters[w].todo[0]), w, s.waiters[w].(todo := LeftAfter(s, s.waiters[w].todo))))
  {
    hide Inv, LeftAfter, Finishes, CleanTables;
    var (todo, closing, handling) := (s.waiters[w].todo, s.waiters[w].closing, s.waiters[w].handling);
    var t := Clean(s, todo[0]);
    TidyingOk(s, w);
    CleanInv(s, todo[0]);
    if closing == [] {
      RetireInv(t, w, Tidying(LeftAfter(s, todo), [], handling), false);
    } else {
      CleanFinishes(s, todo);
      StillClosesInv(t, w, Tidying(LeftAfter(s, todo), closing, handling));
    }
  }

  lemma TidyingOk(s: State, w: nat)
    requires Inv(s) && w in s.waiters && s.waiters[w].Tidying?
    ensures !s.live && (Runs(s.canceller) ==> s.tables.canceller == Some(CANCELLER))
    ensures Closes(s.waiters[w]) ==> Finishes(s.waiters[w].todo, s.canceller, s.ownerSaved)
  {
    hide Numbered, OneToken, Finishes, OneDriver;
  }

  lemma StillClosesInv(s: State, w: nat, to: Waiter)
    requires Inv(s) && w in s.waiters && Closes(s.waiters[w]) && Closes(to)
    requires Finishes(to.todo, s.canceller, s.ownerSaved)
    ensures Inv(Set(s, w, to))
  {
    hide Numbered, OneToken, Runs, Finishes;
    RetireToken(s, w, to, false);
  }

  /** Publishing a closing message: the lease has stopped and the owner record is gone. */
  lemma WaiterClosesInv(s: State, w: nat)
    requires Inv(s) && w in s.waiters && Closes(s.waiters[w]) && s.waiters[w].todo == []
    ensures Settled(s)
    ensures Inv(Set(s, w, s.waiters[w].(closing := s.waiters[w].closing[1..])).(closed := true))
  {
    hide Numbered, MailToken, ForwardersToken, WaitersToken, IsLast, Fresh, Runs;
    RetireToken(s, w, s.waiters[w].(closing := s.waiters[w].closing[1..]), false);
  }

  lemma WaiterLeavesInv(s: State, w: nat)
    requires Inv(s) && w in s.waiters && s.waiters[w] == Finishing
    ensures Inv(Set(s, w, Dead).(tables := s.tables.WaiterLeaves(w)))
  {
    hide Numbered, MailToken, ForwardersToken, WaitersToken, IsLast, Fresh, Runs, Finishes;
    RetireToken(s, w, Dead, false);
  }

  // ---- Steps of `_wait_for_cancel` and `cancel` ----

  lemma CancellerRunsInv(s: State)
    requires Inv(s) && CancellerRuns(s).Some?
    ensures Inv(CancellerRuns(s).value)
  {
    hide Inv, Clean, LeftAfter, BeginCancel;
    match s.canceller
    case Checking => CancellerMovesInv(s, if s.tables.InUse() then Receiving else Quitting);
    case Receiving => CancellerNotifiedInv(s);
    case Notified => BeginCancelInv(s, true);
    case Renewing => CancellerRenewsInv(s);
    case Stopping(todo) =>
      if todo == [] { CancellerMovesInv(s, Quitting); } else { CancellerCleansInv(s); }
    case Quitting => CancellerLeavesInv(s);
  }

  /** Without a live task the canceller may stop; with one it goes on. */
  lemma CancellerMovesInv(s: State, to: Canceller)
    requires Inv(s) && !s.canceller.Unstarted? && (Runs(s.canceller) || !Runs(to)) && !to.Stopping? && !to.Unstarted?
    requires Runs(to) || !Runs(s.canceller) || (s.canceller.Checking? && !s.tables.InUse())
    ensures Inv(s.(canceller := to))
  {
    hide Numbered, MailToken, ForwardersToken, WaitersToken, DriverIsListed, NoDriver, StopsAndRemoves, Removes;
  }

  lemma CancellerNotifiedInv(s: State)
    requires Inv(s) && s.canceller == Receiving
    ensures Inv(s.(canceller := Notified, cancelMail := false))
  {
    hide Numbered, MailToken, ForwardersToken, WaitersToken, DriverIsListed, NoDriver, StopsAndRemoves, Removes;
  }

  lemma CancellerRenewsInv(s: State)
    requires Inv(s) && s.canceller == Renewing
    ensures Inv(s.(ownerSaved := true, canceller := Checking))
  {
    hide Numbered, MailToken, ForwardersToken, WaitersToken, DriverIsListed, NoDriver, StopsAndRemoves, Removes;
    forall todo | StopsAndRemoves(todo) ensures Removes(todo) {
      StopsRemoves(todo);
    }
  }

  lemma CancellerCleansInv(s: State)
    requires Inv(s) && s.canceller.Stopping? && s.canceller.todo != []
    ensures Inv(Clean(s, s.canceller.todo[0]).(canceller := Stopping(LeftAfter(s, s.canceller.todo))))
  {
    hide Numbered, MailToken, ForwardersToken, WaitersToken, DriverIsListed, NoDriver, StopsAndRemoves, Removes, CleanTables;
    CleanInv(s, s.canceller.todo[0]);
  }

  lemma CancellerLeavesInv(s: State)
    requires Inv(s) && s.canceller == Quitting
    ensures Inv(s.(tables := s.tables.CancellerLeaves(CANCELLER), canceller := Gone))
  {
    hide Numbered, MailToken, ForwardersToken, WaitersToken, DriverIsListed, NoDriver, StopsAndRemoves, Removes;
  }

  lemma CancellerRaisesInv(s: State)
    requires Inv(s) && CancellerRaises(s).Some?
    ensures Inv(CancellerRaises(s).value)
  {
    hide Numbered, MailToken, ForwardersToken, WaitersToken, DriverIsListed, NoDriver, StopsAndRemoves, Removes;
  }

  lemma CancelMovesInv(s: State, c: nat, to: Cancel)
    requires Inv(s) && (to.Cancelling? ==> OnlyStores(to.todo))
    ensures Inv(s.(cancels := s.cancels[c := to]))
  {
    hide Numbered, MailToken, ForwardersToken, WaitersToken, DriverIsListed, NoDriver, Finishes, Runs, OnlyStores;
  }

  lemma CancelMailInv(s: State, mail: bool)
    requires Inv(s)
    ensures Inv(s.(cancelMail := mail))
  {
    hide Numbered, MailToken, ForwardersToken, WaitersToken, DriverIsListed, NoDriver, Finishes, Runs;
  }

  lemma CancelRunsInv(s: State, c: nat)
    requires Inv(s) && CancelRuns(s, c).Some?
    ensures Inv(CancelRuns(s, c).value)
  {
    hide Inv, Clean, LeftAfter, BeginCancel, CancelWork;
    match s.cancels[c]
    case Looking(here) => CancelMovesInv(s, c, Found(here, s.ownerSaved && !here));
    case Found(here, remote) =>
      if remote {
        CancelMovesInv(s, c, Sending);
      } else if here {
        BeginCancelInv(s, false);
        CancelWorkStores(s);
        CancelBeginsInv(s, c);
      } else {
        CancelMovesInv(s, c, Cancelling([RemoveRecord, RemoveOwner]));
      }
    case Sending =>
      CancelMailInv(s, true);
      CancelMovesInv(s.(cancelMail := true), c, Cancelled);
    case Cancelling(todo) =>
      if todo == [] { CancelMovesInv(s, c, Cancelled); } else { CancelCleansInv(s, c); }
  }

  lemma CancelBeginsInv(s: State, c: nat)
    requires Inv(BeginCancel(s, false)) && OnlyStores(CancelWork(s))
    ensures Inv(BeginCancel(s, false).(cancels := s.cancels[c := Cancelling(CancelWork(s))]))
  {
    hide Inv, Killed, CancelWork, OnlyStores;
    CancelMovesInv(BeginCancel(s, false), c, Cancelling(CancelWork(s)));
  }

  lemma CancelCleansInv(s: State, c: nat)
    requires Inv(s) && c in s.cancels && s.cancels[c].Cancelling? && s.cancels[c].todo != []
    ensures Inv(Clean(s, s.cancels[c].todo[0]).(cancels := s.cancels[c := Cancelling(LeftAfter(s, s.cancels[c].todo))]))
  {
    hide Inv, CleanTables;
    var todo := s.cancels[c].todo;
    assert OnlyStores(todo) by { CancelsOnlyStore(s, c); }
    CleanInv(s, todo[0]);
    CancelMovesInv(Clean(s, todo[0]), c, Cancelling(LeftAfter(s, todo)));
  }

  lemma CancelsOnlyStore(s: State, c: nat)
    requires Inv(s) && c in s.cancels && s.cancels[c].Cancelling?
    ensures OnlyStores(s.cancels[c].todo)
  {
    hide OnlyStores;
  }

  // ---- Steps of `_forward_feedback` ----

  /** A forwarder moves to a place where it has no claim. */
  lemma ForwarderMovesInv(s: State, f: nat, to: Forwarder, loses: bool)
    requires Inv(s) && !to.Claimed? && (loses ==> f in s.forwarders && s.forwarders[f].Claimed?)
    ensures Inv(s.(forwarders := s.forwarders[f := to], token := if loses then Nowhere else s.token))
  {
    hide Numbered, IsLast, Replies, Fresh, DriverIsListed, NoDriver, Finishes, Runs;
  }

  lemma ForwarderRunsInv(s: State, f: nat, m: nat, topic: string)
    requires Inv(s) && ForwarderRuns(s, f, m, topic).Some?
    ensures Inv(ForwarderRuns(s, f, m, topic).value)
  {
    hide Inv, Matches;
    match s.forwarders[f]
    case Getting(contextId, feedbackId, response) =>
      ForwarderMovesInv(s, f, if Matches(s.record, contextId, feedbackId) then Matched(contextId, feedbackId, response) else Refused, false);
    case Matched(contextId, feedbackId, response) =>
      if Matches(s.record, contextId, feedbackId) {
        ForwarderClaimsInv(s, f);
      } else {
        ForwarderMovesInv(s, f, Refused, false);
      }
    case Claimed(q, feedbackId, response) => ForwarderSendsInv(s, f, m, topic);
    case Sent => ForwarderMovesInv(s, f, Listening, false);
    case Undelivered =>
      DropRecordInv(s);
      ForwarderMovesInv(DropRecord(s), f, Refused, false);
  }

  lemma ForwarderClaimsInv(s: State, f: nat)
    requires Inv(s) && f in s.forwarders && s.forwarders[f].Matched?
    requires Matches(s.record, s.forwarders[f].contextId, s.forwarders[f].feedbackId)
    ensures Inv(s.(forwarders := s.forwarders[f := Claimed(s.record.value, s.forwarders[f].feedbackId, s.forwarders[f].response)],
                   record := None, token := AtForwarder(f)))
  {
    hide Numbered, IsLast, Replies, Fresh, DriverIsListed, NoDriver, Finishes, Runs;
  }

  lemma ForwarderSendsInv(s: State, f: nat, m: nat, topic: string)
    requires Inv(s) && f in s.forwarders && s.forwarders[f].Claimed? && m !in s.mail
    ensures var c := s.forwarders[f];
            Inv(s.(forwarders := s.forwarders[f := Sent],
                   mail := s.mail[m := Reply(c.question.number, c.feedbackId, c.question.requestId, c.response, topic)],
                   token := InMail(m)))
  {
    hide Numbered, Fresh, DriverIsListed, NoDriver, Finishes, Runs;
  }

  lemma ForwarderRaisesInv(s: State, f: nat)
    requires Inv(s) && ForwarderRaises(s, f).Some?
    ensures Inv(ForwarderRaises(s, f).value)
  {
    hide Inv;
    match s.forwarders[f]
    case Claimed(_, _, _) => ForwarderMovesInv(s, f, Undelivered, true);
    case Sent => ForwarderMovesInv(s, f, Undelivered, false);
    case _ => ForwarderMovesInv(s, f, Refused, false);
  }

  lemma MailIsLostInv(s: State, m: nat)
    requires Inv(s)
    ensures Inv(s.(mail := s.mail - {m}, token := if s.token == InMail(m) then Nowhere else s.token))
  {
    hide Numbered, IsLast, Replies, Fresh, DriverIsListed, NoDriver, Finishes, Runs;
  }
}
