/** The five tables `HyperforgeA2AExecutor` keeps in a replica. Between two awaits a
    coroutine changes them without interruption; each function below is one such
    change to the entries of one task, and the class makes it on the tables. */
module TaskTables {
  import opened Wrappers

  /** A pause of a task: what a pending entry and a stored record say about it. The
      number counts the task's pauses; it is not part of the code's data and only
      the statements use it. */
  datatype Question = Question(number: nat, contextId: string, feedbackId: string, requestId: string)

  /** One task's entries. A waiter is named by a number. */
  datatype Tables = Tables(pending: Option<Question>, waiter: Option<nat>, canceller: Option<nat>,
                           cancelled: bool, active: bool)
  {
    /** `execute` once the owner is saved. */
    function Register(canceller: nat): Tables {
      this.(active := true, canceller := Some(canceller))
    }

    function Ask(question: Question): Tables { this.(pending := Some(question)) }

    function DropPending(): Tables { this.(pending := None) }

    /** `_cancel_feedback_waiter` and `_cancel_cancel_waiter`: the entry goes, and
        the coroutine it names is cancelled unless it is the one running. */
    function StopWaiter(): Tables { this.(waiter := None) }

    function StopCanceller(): Tables { this.(canceller := None) }

    function StartWaiter(waiter: nat): Tables { this.(waiter := Some(waiter)) }

    /** `_cancel_local_task` up to its first await. */
    function BeginCancel(): Tables {
      Tables(None, None, None, true, false)
    }

    function Forget(): Tables { this.(cancelled := false) }

    function LeaveExecute(): Tables { this.(active := false) }

    /** The `finally` blocks: a coroutine takes out its own entry only. */
    function WaiterLeaves(waiter: nat): Tables {
      if this.waiter == Some(waiter) then this.(waiter := None) else this
    }

    function CancellerLeaves(canceller: nat): Tables {
      if this.canceller == Some(canceller) then this.(canceller := None) else this
    }

    /** The loop guard of `_wait_for_cancel`. */
    predicate InUse() { active || pending.Some? }
  }

  const NO_ENTRIES := Tables(None, None, None, false, false)

  /** The coroutine a popped entry cancels. */
  function Victim(entry: Option<nat>, current: Option<nat>): Option<nat> {
    if entry == current then None else entry
  }

  class HyperforgeA2AExecutor {
    var pendingTasks: map<string, Question>
    var pendingWaiters: map<string, nat>
    var cancelWaiters: map<string, nat>
    var cancelledTasks: set<string>
    var activeReceivers: set<string>

    /** The entries of one task. */
    function Slice(task: string): Tables
      reads this
    {
      Tables(if task in pendingTasks then Some(pendingTasks[task]) else None,
             if task in pendingWaiters then Some(pendingWaiters[task]) else None,
             if task in cancelWaiters then Some(cancelWaiters[task]) else None,
             task in cancelledTasks, task in activeReceivers)
    }

    /** No other task's entries changed. */
    twostate predicate Only(task: string)
      reads this
    {
      forall other :: other != task ==> Slice(other) == old(Slice(other))
    }

    constructor ()
      ensures forall task :: Slice(task) == NO_ENTRIES
    {
      pendingTasks, pendingWaiters, cancelWaiters, cancelledTasks, activeReceivers := map[], map[], map[], {}, {};
    }

    method CancelFeedbackWaiter(task: string, current: Option<nat>) returns (cancelled: Option<nat>)
      modifies this`pendingWaiters
      ensures Slice(task) == old(Slice(task)).StopWaiter() && Only(task)
      ensures cancelled == Victim(old(Slice(task)).waiter, current)
    {
      cancelled := None;
      if task in pendingWaiters {
        var waiter := pendingWaiters[task];
        pendingWaiters := pendingWaiters - {task};
        if Some(waiter) != current {
          cancelled := Some(waiter);
        }
      }
    }

    method StartFeedbackWaiter(task: string, waiter: nat, current: Option<nat>) returns (cancelled: Option<nat>)
      modifies this`pendingWaiters
      ensures Slice(task) == old(Slice(task)).StartWaiter(waiter) && Only(task)
      ensures cancelled == Victim(old(Slice(task)).waiter, current)
    {
      cancelled := CancelFeedbackWaiter(task, current);
      pendingWaiters := pendingWaiters[task := waiter];
    }

    method CancelCancelWaiter(task: string, current: Option<nat>) returns (cancelled: Option<nat>)
      modifies this`cancelWaiters
      ensures Slice(task) == old(Slice(task)).StopCanceller() && Only(task)
      ensures cancelled == Victim(old(Slice(task)).canceller, current)
    {
      cancelled := None;
      if task in cancelWaiters {
        var waiter := cancelWaiters[task];
        cancelWaiters := cancelWaiters - {task};
        if Some(waiter) != current {
          cancelled := Some(waiter);
        }
      }
    }

    method StartCancelWaiter(task: string, waiter: nat) returns (cancelled: Option<nat>)
      modifies this`cancelWaiters
      ensures Slice(task) == old(Slice(task)).(canceller := Some(waiter)) && Only(task)
      ensures cancelled == old(Slice(task)).canceller
    {
      cancelled := CancelCancelWaiter(task, None);
      cancelWaiters := cancelWaiters[task := waiter];
    }

    /** `execute` between saving the owner and reading the stream. */
    method Register(task: string, waiter: nat) returns (cancelled: Option<nat>)
      modifies this`activeReceivers, this`cancelWaiters
      ensures Slice(task) == old(Slice(task)).Register(waiter) && Only(task)
    {
      activeReceivers := activeReceivers + {task};
      cancelled := StartCancelWaiter(task, waiter);
    }

    method Ask(task: string, question: Question)
      modifies this`pendingTasks
      ensures Slice(task) == old(Slice(task)).Ask(question) && Only(task)
    {
      pendingTasks := pendingTasks[task := question];
    }

    /** The pop in `_discard_pending_task`; `shutDown` when its receiver must be told. */
    method DropPending(task: string) returns (shutDown: bool)
      modifies this`pendingTasks
      ensures Slice(task) == old(Slice(task)).DropPending() && Only(task)
      ensures shutDown == old(Slice(task)).pending.Some?
    {
      shutDown := task in pendingTasks;
      pendingTasks := pendingTasks - {task};
    }

    /** `_cancel_local_task` up to its first await: what it cancels, whether a receiver
        must be told, and whether it will drop the cancellation mark itself. */
    method BeginCancel(task: string, current: Option<nat>)
      returns (canceller: Option<nat>, waiter: Option<nat>, shutDown: bool, forgets: bool)
      modifies this
      ensures Slice(task) == old(Slice(task)).BeginCancel() && Only(task)
      ensures canceller == Victim(old(Slice(task)).canceller, current) && waiter == old(Slice(task)).waiter
      ensures shutDown == old(Slice(task)).InUse() && forgets == !old(Slice(task)).active
    {
      cancelledTasks := cancelledTasks + {task};
      assert Only(task);
      canceller := CancelCancelWaiter(task, current);
      assert Only(task) && Slice(task) == old(Slice(task)).(cancelled := true, canceller := None);
      var pending := task in pendingTasks;
      pendingTasks := pendingTasks - {task};
      var receiver := task in activeReceivers;
      activeReceivers := activeReceivers - {task};
      assert Only(task) && Slice(task) == old(Slice(task)).BeginCancel().(waiter := old(Slice(task)).waiter);
      waiter := CancelFeedbackWaiter(task, None);
      shutDown, forgets := pending || receiver, !receiver;
    }

    method Forget(task: string)
      modifies this`cancelledTasks
      ensures Slice(task) == old(Slice(task)).Forget() && Only(task)
    {
      cancelledTasks := cancelledTasks - {task};
    }

    method LeaveExecute(task: string)
      modifies this`activeReceivers
      ensures Slice(task) == old(Slice(task)).LeaveExecute() && Only(task)
    {
      activeReceivers := activeReceivers - {task};
    }

    method WaiterLeaves(task: string, waiter: nat)
      modifies this`pendingWaiters
      ensures Slice(task) == old(Slice(task)).WaiterLeaves(waiter) && Only(task)
    {
      if task in pendingWaiters && pendingWaiters[task] == waiter {
        pendingWaiters := pendingWaiters - {task};
      }
    }

    method CancellerLeaves(task: string, waiter: nat)
      modifies this`cancelWaiters
      ensures Slice(task) == old(Slice(task)).CancellerLeaves(waiter) && Only(task)
    {
      if task in cancelWaiters && cancelWaiters[task] == waiter {
        cancelWaiters := cancelWaiters - {task};
      }
    }
  }
}
