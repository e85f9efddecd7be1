/** One A2A task over all replicas. The coroutines that work on the task take turns at
    their awaits: every `await` is a scheduling point, an awaited store or broker
    operation takes effect at some moment between the segment before it and the segment
    after it, and it may fail before or after its effect.

    Only the owner replica has table entries for the task, so other replicas appear
    through what they do to the store and the broker. */
module TaskSystem {
  import opened Wrappers
  import opened Answers
  import opened Relay
  import opened TaskTables

  // ---- Coroutines ----

  /** What is left of `_discard_pending_task`, `_finish_owned_task` and the like. */
  datatype Cleanup = Pop | Drop | ShutDown | RemoveRecord | StopCanceller | RemoveOwner | Forget

  const FINISH: seq<Cleanup> := [StopCanceller, RemoveOwner, Forget]
  const DISCARD: seq<Cleanup> := [Drop, RemoveRecord]
  const REMOVE: seq<Cleanup> := [Pop, RemoveRecord]

  /** `execute`, in the owner replica. Each constructor is an await, or the moment
      after one, when its effect has happened. */
  datatype Exec =
    | SavingOwner | Registering
    | Streaming | Showing
    | SavingPending(question: Question) | StartingWaiter | Yielding | Asking
    | Cleaning(todo: seq<Cleanup>, closing: Option<Event>, handling: bool)
    | Leaving | Ended

  /** A reply on its way to the owner. The payload is the request id, the response and
      the relay topic; the pause's number and the feedback id its client gave are history. */
  datatype Reply = Reply(number: nat, feedbackId: string, requestId: string, response: string, topic: string)

  /** `_wait_for_feedback` with `_relay_until_pause`, in the owner replica. */
  datatype Waiter =
    | Waiting | Got(reply: Reply) | Putting(reply: Reply)
    | Relaying | Publishing
    | RenewingOwner(question: Question) | SavingRecord(question: Question) | StartingNext | YieldingNext | AskingNext
    | Tidying(todo: seq<Cleanup>, closing: seq<Message>, handling: bool)
    | Finishing | Dead

  /** `_wait_for_cancel`, in the owner replica. */
  datatype Canceller =
    | Unstarted | Checking | Receiving | Notified | Renewing
    | Stopping(todo: seq<Cleanup>)
    | Quitting | Gone

  /** `cancel`, on the owner's replica (`here`) or another. */
  datatype Cancel =
    | Looking(here: bool) | Found(here: bool, remote: bool) | Sending | Cancelling(todo: seq<Cleanup>) | Cancelled

  /** `_forward_feedback`, on any replica. */
  datatype Forwarder =
    | Getting(contextId: string, feedbackId: string, response: string)
    | Matched(contextId: string, feedbackId: string, response: string)
    | Claimed(question: Question, feedbackId: string, response: string)
    | Sent | Listening | Undelivered | Refused

  /** The number the owner's canceller goes by in the tables. */
  const CANCELLER: nat := 0

  // ---- The state ----

  /** Where the right to answer the last question is; it exists at most once. */
  datatype Token =
    | Nowhere | AtExec | AtSaver(saver: nat) | InStore | AtForwarder(forwarder: nat) | InMail(mail: nat) | AtWaiter(waiter: nat)

  datatype State = State(
    contextId: string,
    tables: Tables,
    ownerSaved: bool,            // store: the owner record
    record: Option<Question>,    //        the pending record
    mail: map<nat, Reply>,       // broker: replies to the owner, each handed out once
    cancelMail: bool,            //         a cancel message to the owner
    exec: Exec,
    waiters: map<nat, Waiter>,
    canceller: Canceller,
    cancels: map<nat, Cancel>,
    forwarders: map<nat, Forwarder>,
    asked: seq<Question>,        // history: every pause of the response stream
    delivered: seq<Reply>,       //          every reply put in the receiver's queue
    token: Token,
    live: bool,                  //          registered; no end, failure, expiry or cancellation handled yet
    failed: bool,                //          the canceller raised
    closed: bool)                //          a closing event was emitted or published

  function Initial(contextId: string): State {
    State(contextId, NO_ENTRIES, false, None, map[], false, SavingOwner, map[], Unstarted, map[], map[],
          [], [], Nowhere, false, false, false)
  }

  /** What a response stream gives: an answer, or its end. */
  datatype Input = Gives(answer: AragAnswer) | Ends

  // ---- Shared pieces ----

  /** A cancelled coroutine runs only its `finally`; a reply or an unsaved record it holds is lost. */
  function Kill(s: State, victim: Option<nat>): State {
    s.(waiters := Killed(s.waiters, victim),
       token := if victim.Some? && victim.value in s.waiters then Without(s.token, victim.value) else s.token)
  }

  function Killed(waiters: map<nat, Waiter>, victim: Option<nat>): map<nat, Waiter> {
    if victim.Some? && victim.value in waiters && waiters[victim.value] != Dead
    then waiters[victim.value := Finishing] else waiters
  }

  function Without(token: Token, waiter: nat): Token {
    if token == AtWaiter(waiter) || token == AtSaver(waiter) then Nowhere else token
  }

  function StopWaiter(s: State): State {
    Kill(s.(tables := s.tables.StopWaiter()), s.tables.waiter)
  }

  /** `_cancel_cancel_waiter`, by another coroutine. */
  function Stopped(canceller: Canceller, entry: Option<nat>): Canceller {
    if entry.Some? && !canceller.Gone? then Quitting else canceller
  }

  /** One action of a clean-up. */
  function Clean(s: State, a: Cleanup): State {
    s.(tables := CleanTables(s.tables, a),
       ownerSaved := s.ownerSaved && !a.RemoveOwner?,
       record := if a.RemoveRecord? then None else s.record,
       token := if a.RemoveRecord? && s.token == InStore then Nowhere else s.token,
       canceller := if a.StopCanceller? then Stopped(s.canceller, s.tables.canceller) else s.canceller)
  }

  function CleanTables(tables: Tables, a: Cleanup): Tables {
    match a
    case Pop => tables.DropPending()
    case Drop => tables.DropPending()
    case StopCanceller => tables.StopCanceller()
    case Forget => tables.Forget()
    case _ => tables
  }

  /** What is left to do after it: a dropped entry's receiver is told to shut down. */
  function LeftAfter(s: State, todo: seq<Cleanup>): seq<Cleanup>
    requires todo != []
  {
    if todo[0].Drop? && s.tables.pending.Some? then [ShutDown] + todo[1..] else todo[1..]
  }

  function DropRecord(s: State): State {
    s.(record := None, token := if s.token == InStore then Nowhere else s.token)
  }

  /** `_cancel_local_task` up to its first await. */
  function BeginCancel(s: State, byCanceller: bool): State {
    Kill(s, s.tables.waiter).(
      tables := s.tables.BeginCancel(), live := false,
      canceller := if byCanceller then Stopping(CancelWork(s)) else Stopped(s.canceller, s.tables.canceller))
  }

  /** The rest of `_cancel_local_task`. */
  function CancelWork(s: State): seq<Cleanup> {
    if s.tables.active then [ShutDown, RemoveRecord, RemoveOwner]
    else if s.tables.pending.Some? then [ShutDown, RemoveRecord, RemoveOwner, Forget]
    else [RemoveRecord, RemoveOwner, Forget]
  }

  /** The pause a stream asks for: a new entry in the pending table. */
  function Pauses(s: State, feedback: Feedback, token: Token): (State, Question) {
    var q := Question(|s.asked|, s.contextId, feedback.feedbackId, feedback.requestId);
    (s.(asked := s.asked + [q], tables := s.tables.Ask(q), token := token), q)
  }

  // ---- `execute` ----

  function ExecRuns(s: State, newId: nat): Option<State> {
    match s.exec
    case SavingOwner => Some(s.(ownerSaved := true, exec := Registering))
    case Registering =>
      Some(s.(tables := s.tables.Register(CANCELLER), canceller := Checking, live := true, exec := Streaming))
    case Streaming => None
    case Showing => Some(s.(exec := Streaming))
    case SavingPending(q) => Some(s.(record := Some(q), token := InStore, exec := StartingWaiter))
    case StartingWaiter =>
      if newId in s.waiters then None else
      var s1 := StopWaiter(s);
      Some(s1.(tables := s1.tables.StartWaiter(newId), waiters := s1.waiters[newId := Waiting], exec := Yielding))
    case Yielding => Some(s.(exec := Asking))
    case Asking => Some(s.(exec := Leaving))
    case Cleaning(todo, closing, handling) =>
      if todo == [] then Some(s.(closed := s.closed || closing.Some?, exec := Leaving)) else
      Some(Clean(s, todo[0]).(exec := Cleaning(LeftAfter(s, todo), closing, handling)))
    case Leaving => Some(s.(tables := s.tables.LeaveExecute(), exec := Ended))
    case Ended => None
  }

  /** The body of the loop in `_stream_until_pause`, and what follows the loop. */
  function ExecReceives(s: State, input: Input): Option<State> {
    if s.exec != Streaming then None
    else if s.tables.cancelled then Some(s.(live := false, exec := Cleaning(FINISH, None, false)))
    else match input
      case Ends => Some(s.(live := false, exec := Cleaning(DISCARD + FINISH, Some(Failed(ENDED)), false)))
      case Gives(a) => match React(a)
        case Fail(detail) => Some(s.(live := false, exec := Cleaning(FINISH, Some(Failed(detail)), false)))
        case Pause(feedback) =>
          var (s1, q) := Pauses(s, feedback, AtExec);
          Some(s1.(exec := SavingPending(q)))
        case Finish => Some(s.(live := false, exec := Cleaning(REMOVE + FINISH, Some(Completed), false)))
        case Show(events) => Some(if events == [] then s else s.(exec := Showing))
  }

  function ExecLoses(s: State): State {
    s.(token := if s.token == AtExec then Nowhere else s.token)
  }

  /** An awaited operation raises: the handler of `execute`, or out of `execute`. */
  function ExecRaises(s: State): Option<State> {
    match s.exec
    case SavingOwner => Some(s.(exec := Ended))
    case Registering => Some(s.(exec := Ended))
    case Leaving => None
    case Ended => None
    case Cleaning(_, _, true) => Some(s.(exec := Leaving))
    case _ =>
      var closing := if s.tables.cancelled then None else Some(Failed("Internal A2A error"));
      Some(ExecLoses(StopWaiter(s.(live := false))).(exec := Cleaning(DISCARD + FINISH, closing, true)))
  }

  /** The server cancels the coroutine that runs `execute`. */
  function ExecKilled(s: State): Option<State> {
    match s.exec
    case SavingOwner => Some(s.(exec := Ended))
    case Registering => Some(s.(exec := Ended))
    case Leaving => None
    case Ended => None
    case _ => Some(ExecLoses(s.(live := false)).(exec := Leaving))
  }

  // ---- `_wait_for_feedback` ----

  function Set(s: State, w: nat, waiter: Waiter): State { s.(waiters := s.waiters[w := waiter]) }

  function WaiterRuns(s: State, w: nat, newId: nat): Option<State> {
    if w !in s.waiters then None else
    match s.waiters[w]
    case Waiting => None
    case Got(reply) =>
      Some(if s.tables.pending.Some? then Set(s, w, Putting(reply)) else Set(s, w, Finishing).(token := Nowhere))
    case Putting(reply) => Some(Set(s, w, Relaying).(delivered := s.delivered + [reply], token := Nowhere))
    case Relaying => None
    case Publishing => Some(Set(s, w, Relaying))
    case RenewingOwner(q) => Some(Set(s, w, SavingRecord(q)).(ownerSaved := true))
    case SavingRecord(q) => Some(Set(s, w, StartingNext).(record := Some(q), token := InStore))
    case StartingNext =>
      if newId in s.waiters then None else
      var s1 := Kill(s, Victim(s.tables.waiter, Some(w)));
      Some(Set(Set(s1, w, YieldingNext), newId, Waiting).(tables := s.tables.StartWaiter(newId)))
    case YieldingNext => Some(Set(s, w, AskingNext))
    case AskingNext => Some(Set(s, w, Finishing))
    case Tidying(todo, closing, handling) =>
      if todo == [] && closing == [] then Some(Set(s, w, Finishing)) else
      if todo == [] then Some(Set(s, w, Tidying([], closing[1..], handling)).(closed := true)) else
      Some(Set(Clean(s, todo[0]), w, Tidying(LeftAfter(s, todo), closing, handling)))
    case Finishing => Some(Set(s, w, Dead).(tables := s.tables.WaiterLeaves(w)))
    case Dead => None
  }

  /** `receive_reply` hands out a reply. */
  function WaiterTakes(s: State, w: nat, m: nat): Option<State> {
    if w in s.waiters && s.waiters[w] == Waiting && m in s.mail then
      Some(Set(s, w, Got(s.mail[m])).(mail := s.mail - {m}, token := AtWaiter(w)))
    else None
  }

  /** `receive_reply` gives up: the task has expired. */
  function WaiterTimesOut(s: State, w: nat): Option<State> {
    if w in s.waiters && s.waiters[w] == Waiting then
      Some(Set(s, w, Tidying(DISCARD + FINISH, [], false)).(live := false))
    else None
  }

  /** The body of the loop in `_relay_until_pause`, and what follows the loop. */
  function WaiterReceives(s: State, w: nat, input: Input): Option<State> {
    if w !in s.waiters || s.waiters[w] != Relaying then None
    else if s.tables.cancelled then Some(Set(s, w, Tidying(FINISH, [], false)).(live := false))
    else match input
      case Ends => Some(Set(s, w, Tidying(DISCARD + FINISH, [AgentAnswer(EndAnswer), AgentDone], false)).(live := false))
      case Gives(a) => match React(a)
        case Fail(_) => Some(Set(s, w, Tidying([Pop] + FINISH, Published(a).0, false)).(live := false))
        case Pause(feedback) =>
          var (s1, q) := Pauses(s, feedback, AtSaver(w));
          Some(Set(s1, w, RenewingOwner(q)))
        case Finish => Some(Set(s, w, Tidying(REMOVE + FINISH, Published(a).0, false)).(live := false))
        case Show(_) => Some(Set(s, w, Publishing))
  }

  /** An awaited operation raises: the handler, which publishes nothing, or out of it. */
  function WaiterRaises(s: State, w: nat): Option<State> {
    if w !in s.waiters then None else
    match s.waiters[w]
    case Finishing => None
    case Dead => None
    case Tidying(_, _, true) => Some(Set(s, w, Finishing))
    case _ =>
      Some(Set(s, w, Tidying(DISCARD + FINISH, [], true)).(live := false, token := Without(s.token, w)))
  }

  // ---- `_wait_for_cancel` ----

  function CancellerRuns(s: State): Option<State> {
    match s.canceller
    case Unstarted => None
    case Checking => Some(s.(canceller := if s.tables.InUse() then Receiving else Quitting))
    case Receiving => if s.cancelMail then Some(s.(canceller := Notified, cancelMail := false)) else None
    case Notified => Some(BeginCancel(s, true))
    case Renewing => Some(s.(ownerSaved := true, canceller := Checking))
    case Stopping(todo) =>
      if todo == [] then Some(s.(canceller := Quitting)) else
      Some(Clean(s, todo[0]).(canceller := Stopping(LeftAfter(s, todo))))
    case Quitting => Some(s.(tables := s.tables.CancellerLeaves(CANCELLER), canceller := Gone))
    case Gone => None
  }

  function CancellerTimesOut(s: State): Option<State> {
    if s.canceller == Receiving then Some(s.(canceller := Renewing)) else None
  }

  function CancellerRaises(s: State): Option<State> {
    if s.canceller.Unstarted? || s.canceller.Quitting? || s.canceller.Gone? then None else Some(s.(canceller := Quitting, failed := true))
  }

  // ---- `cancel` ----

  function CancelArrives(s: State, c: nat, here: bool): Option<State> {
    if c in s.cancels then None else Some(s.(cancels := s.cancels[c := Looking(here)]))
  }

  /** A local cancel on another replica finds nothing in that replica's tables. */
  function CancelRuns(s: State, c: nat): Option<State> {
    if c !in s.cancels then None else
    match s.cancels[c]
    case Looking(here) => Some(s.(cancels := s.cancels[c := Found(here, s.ownerSaved && !here)]))
    case Found(here, remote) =>
      if remote then Some(s.(cancels := s.cancels[c := Sending]))
      else if here then Some(BeginCancel(s, false).(cancels := s.cancels[c := Cancelling(CancelWork(s))]))
      else Some(s.(cancels := s.cancels[c := Cancelling([RemoveRecord, RemoveOwner])]))
    case Sending => Some(s.(cancelMail := true, cancels := s.cancels[c := Cancelled]))
    case Cancelling(todo) =>
      if todo == [] then Some(s.(cancels := s.cancels[c := Cancelled])) else
      Some(Clean(s, todo[0]).(cancels := s.cancels[c := Cancelling(LeftAfter(s, todo))]))
    case Cancelled => None
  }

  function CancelRaises(s: State, c: nat): Option<State> {
    if c in s.cancels then Some(s.(cancels := s.cancels[c := Cancelled])) else None
  }

  // ---- `_forward_feedback` ----

  function ForwarderArrives(s: State, f: nat, contextId: string, feedbackId: string, response: string): Option<State> {
    if f in s.forwarders then None
    else Some(s.(forwarders := s.forwarders[f := Getting(contextId, feedbackId, response)]))
  }

  /** What `get_pending` and `claim_pending` compare. */
  predicate Matches(record: Option<Question>, contextId: string, feedbackId: string) {
    record.Some? && record.value.contextId == contextId && record.value.feedbackId == feedbackId
  }

  /** `m` numbers the reply a forwarder sends, on a relay topic of its own. */
  function ForwarderRuns(s: State, f: nat, m: nat, topic: string): Option<State> {
    if f !in s.forwarders then None else
    match s.forwarders[f]
    case Getting(contextId, feedbackId, response) =>
      Some(s.(forwarders := s.forwarders[f :=
        if Matches(s.record, contextId, feedbackId) then Matched(contextId, feedbackId, response) else Refused]))
    case Matched(contextId, feedbackId, response) =>
      Some(if Matches(s.record, contextId, feedbackId) then
             s.(forwarders := s.forwarders[f := Claimed(s.record.value, feedbackId, response)], record := None, token := AtForwarder(f))
           else s.(forwarders := s.forwarders[f := Refused]))
    case Claimed(q, feedbackId, response) =>
      if m in s.mail then None else
      Some(s.(forwarders := s.forwarders[f := Sent],
              mail := s.mail[m := Reply(q.number, feedbackId, q.requestId, response, topic)],
              token := InMail(m)))
    case Undelivered => Some(DropRecord(s).(forwarders := s.forwarders[f := Refused]))
    case Sent => Some(s.(forwarders := s.forwarders[f := Listening]))
    case Listening => None
    case Refused => None
  }

  /** A failure of `send_reply`, before it had an effect or after it, makes the
      forwarder remove the task's record; every other failure just ends it. */
  function ForwarderRaises(s: State, f: nat): Option<State> {
    if f !in s.forwarders then None else
    match s.forwarders[f]
    case Claimed(_, _, _) => Some(s.(forwarders := s.forwarders[f := Undelivered], token := Nowhere))
    case Sent => Some(s.(forwarders := s.forwarders[f := Undelivered]))
    case _ => Some(s.(forwarders := s.forwarders[f := Refused]))
  }

  // ---- Runs ----

  datatype Label =
    | ExecGoesOn(newId: nat) | ExecIsGiven(input: Input) | ExecFails | ExecIsCancelled
    | WaiterGoesOn(w: nat, newId: nat) | WaiterIsGiven(w: nat, input: Input) | WaiterReads(w: nat, m: nat)
    | WaiterExpires(w: nat) | WaiterFails(w: nat)
    | CancellerGoesOn | CancellerExpires | CancellerFails
    | CancelComes(c: nat, here: bool) | CancelGoesOn(c: nat) | CancelFails(c: nat)
    | FeedbackComes(f: nat, contextId: string, feedbackId: string, response: string)
    | FeedbackGoesOn(f: nat, m: nat, topic: string) | FeedbackFails(f: nat)
    | RecordExpires | OwnerExpires | MailIsLost(m: nat) | CancelMailIsLost

  function Next(s: State, l: Label): Option<State> {
    match l
    case ExecGoesOn(newId) => ExecRuns(s, newId)
    case ExecIsGiven(input) => ExecReceives(s, input)
    case ExecFails => ExecRaises(s)
    case ExecIsCancelled => ExecKilled(s)
    case WaiterGoesOn(w, newId) => WaiterRuns(s, w, newId)
    case WaiterIsGiven(w, input) => WaiterReceives(s, w, input)
    case WaiterReads(w, m) => WaiterTakes(s, w, m)
    case WaiterExpires(w) => WaiterTimesOut(s, w)
    case WaiterFails(w) => WaiterRaises(s, w)
    case CancellerGoesOn => CancellerRuns(s)
    case CancellerExpires => CancellerTimesOut(s)
    case CancellerFails => CancellerRaises(s)
    case CancelComes(c, here) => CancelArrives(s, c, here)
    case CancelGoesOn(c) => CancelRuns(s, c)
    case CancelFails(c) => CancelRaises(s, c)
    case FeedbackComes(f, contextId, feedbackId, response) => ForwarderArrives(s, f, contextId, feedbackId, response)
    case FeedbackGoesOn(f, m, topic) => ForwarderRuns(s, f, m, topic)
    case FeedbackFails(f) => ForwarderRaises(s, f)
    case RecordExpires => Some(DropRecord(s))
    case OwnerExpires => Some(s.(ownerSaved := false))
    case MailIsLost(m) =>
      Some(s.(mail := s.mail - {m}, token := if s.token == InMail(m) then Nowhere else s.token))
    case CancelMailIsLost => Some(s.(cancelMail := false))
  }

  /** The state a sequence of steps leads to, if each can be taken. */
  function After(contextId: string, labels: seq<Label>): Option<State> {
    if labels == [] then Some(Initial(contextId)) else
    match After(contextId, labels[..|labels| - 1])
    case None => None
    case Some(s) => Next(s, labels[|labels| - 1])
  }
}
