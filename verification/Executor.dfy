/** `Task` and `TaskExecutor`, step by step.  Cancels from other threads land at the points
    of `at`; how the handler ends is part of the script of the attempt. */
module Executor {
  import opened Lifecycle
  import opened Execution

  class Task {
    const id: TaskId
    const typ: TaskType
    var status: Status
    var error: Option<Message>
    var result: Option<Result>
    var blockedBy: Option<TaskId>

    constructor (id: TaskId, typ: TaskType)
      ensures this.id == id && this.typ == typ && Snapshot() == Snap(Pending, None, None, None)
    {
      this.id, this.typ := id, typ;
      status, error, result, blockedBy := Pending, None, None, None;
    }

    function Snapshot(): Snap
      reads this
    {
      Snap(status, error, result, blockedBy)
    }

    /** False stands for the ValueError of a transition that is not allowed. */
    method TransitionTo(next: Status, error: Option<Message>) returns (ok: bool)
      modifies this
      ensures ok <==> old(status).CanBecome(next)
      ensures !ok ==> unchanged(this)
      ensures ok ==> status == next && this.error == (if next in {Running, Succeeded} then None else error)
      ensures ok ==> if next.Running? then result == None && blockedBy == None
                     else result == old(result) && blockedBy == old(blockedBy)
      ensures Snapshot() == if ok then Transitioned(old(Snapshot()), next, error) else old(Snapshot())
    {
      if !status.CanBecome(next) { return false; }
      this.error := if next in {Running, Succeeded} then None else error;
      status := next;
      if next.Running? {
        result := None;
        blockedBy := None;
      }
      return true;
    }

    /** Idempotent, and keeps the error text. */
    method Cancel()
      modifies this
      ensures status == (if old(status).Succeeded? then Succeeded else Cancelled)
      ensures error == old(error) && result == old(result) && blockedBy == old(blockedBy)
    {
      if status in {Succeeded, Cancelled} { return; }
      var _ := TransitionTo(Cancelled, error);
    }

    method SetResult(r: Option<Result>)
      modifies this`result
      ensures result == r
    {
      result := r;
    }

    method SetBlockedBy(parent: Option<TaskId>)
      modifies this`blockedBy
      ensures blockedBy == parent
    {
      blockedBy := parent;
    }
  }

  class TaskExecutor {
    var handlers: set<TaskType>
    var events: seq<Event>
    var store: Option<map<TaskId, Snap>>
    var saves: nat
    var persistenceErrors: seq<TaskId>
    const fails: nat -> bool

    constructor (store: Option<map<TaskId, Snap>>, fails: nat -> bool)
      ensures this.store == store && events == [] && persistenceErrors == [] && handlers == {}
    {
      handlers, events, persistenceErrors, saves := {}, [], [], 0;
      this.store, this.fails := store, fails;
    }

    method Register(typ: TaskType)
      modifies this`handlers
      ensures handlers == old(handlers) + {typ}
    {
      handlers := handlers + {typ};
    }

    /** The task with what its executor holds, as a value. */
    function View(task: Task): World
      reads this, task
    {
      World(task.id, task.Snapshot(), Bus(events, store, saves, persistenceErrors, fails))
    }

    method Persist(task: Task)
      modifies this`events, this`store, this`saves, this`persistenceErrors
      ensures View(task) == Persisted(old(View(task)))
    {
      if store.None? { return; }
      var failed := fails(saves);
      saves := saves + 1;
      if failed {
        persistenceErrors := persistenceErrors + [task.id];
        events := events + [Event(OnPersistenceFailed, task.id, None, task.status, Some(SaveFailed),
            task.Snapshot(), Stored(task))];
      } else {
        store := Some(store.value[task.id := task.Snapshot()]);
      }
    }

    function Stored(task: Task): Option<Snap>
      reads this, task
    {
      if store.Some? && task.id in store.value then Some(store.value[task.id]) else None
    }

    /** `at` and `p`: a cancel may land between the save and the delivery. */
    method Emit(task: Task, kind: Kind, previous: Status, error: Option<Message>, at: set<Point>, p: Point)
      modifies task, this`events, this`store, this`saves, this`persistenceErrors
      ensures View(task) == EmittedAt(old(View(task)), kind, previous, error, at, p)
      decreases at != {}, 1
    {
      hide WithCancel, Persisted;
      Persist(task);
      Interrupt(task, at, p);
      events := events + [Event(kind, task.id, Some(previous), task.status, error, task.Snapshot(), Stored(task))];
    }

    /** Another thread's `cancel`, when it lands at point `p`. */
    method Interrupt(task: Task, at: set<Point>, p: Point)
      modifies task, this`events, this`store, this`saves, this`persistenceErrors
      ensures View(task) == CancelAt(old(View(task)), at, p)
      decreases at != {}, 0
    {
      if p in at { Cancel(task); }
    }

    /** False stands for the ValueError of the transition. */
    method Terminalize(task: Task, r: Result, previous: Status, kind: Kind, error: Option<Message>, at: set<Point>)
      returns (ok: bool)
      modifies task, this`events, this`store, this`saves, this`persistenceErrors
      ensures var t := Terminalized(old(View(task)), r, previous, kind, error, at);
              View(task) == t.world && ok == t.Done?
      decreases at != {}, 2
    {
      hide EmittedAt, CancelAt;
      Interrupt(task, at, AfterCheck);
      task.SetResult(Some(r));
      Interrupt(task, at, AfterAttach);
      if task.status != r.status {
        Interrupt(task, at, AfterCompare);
        ok := task.TransitionTo(r.status, error);
        if !ok { return; }
        Interrupt(task, at, AfterTransition);
      }
      Emit(task, kind, previous, error, at, AfterSave);
      ok := true;
    }

    method Cancel(task: Task)
      modifies task, this`events, this`store, this`saves, this`persistenceErrors
      ensures View(task) == WithCancel(old(View(task)))
      decreases false, 3
    {
      if task.status.Succeeded? { return; }
      var previous := task.status;
      task.Cancel();
      if previous in {Pending, Failed, Blocked} {
        var _ := Terminalize(task, CancelledResult(task.id, JustCancelled), previous, OnCancelled,
            Some(JustCancelled), {});
      }
    }

    method MarkBlocked(task: Task, parent: Option<TaskId>, at: set<Point>) returns (ok: bool)
      modifies task, this`events, this`store, this`saves, this`persistenceErrors
      ensures View(task) == MarkedBlocked(old(View(task)), parent, at)
      ensures ok <==> old(task.status).Pending? && AfterCheck !in at
    {
      hide EmittedAt, Emitted;
      var previous := task.status;
      Interrupt(task, at, AfterCheck);
      ok := task.TransitionTo(Blocked, None);
      if !ok { return; }
      Interrupt(task, at, AfterTransition);
      task.SetBlockedBy(parent);
      Interrupt(task, at, AfterBlame);
      Emit(task, OnBlocked, previous, None, at, AfterSave);
    }

    /** The `except TaskCancelled` branch. */
    method FinishCancelled(task: Task, m: Message, at: set<Point>) returns (outcome: Outcome)
      modifies task, this`events, this`store, this`saves, this`persistenceErrors
      ensures Ended(View(task), outcome) == Aborted(old(View(task)), m, at)
    {
      hide Terminalized;
      var ok := Terminalize(task, CancelledResult(task.id, m), Running, OnCancelled, Some(m), at);
      outcome := if ok then TaskCancelled(m) else NotAllowed(task.status, Cancelled);
    }

    /** The `except Exception` branch. */
    method FinishRaised(task: Task, f: Failure, at: set<Point>) returns (outcome: Outcome)
      modifies task, this`events, this`store, this`saves, this`persistenceErrors
      ensures Ended(View(task), outcome) == Raised(old(View(task)), f, at)
    {
      hide Terminalized;
      var ok;
      if task.status.Cancelled? {
        ok := Terminalize(task, CancelledResult(task.id, f.message), Running, OnCancelled, Some(f.message), at);
        outcome := if ok then TaskCancelled(WasCancelled(task.id)) else NotAllowed(task.status, Cancelled);
      } else {
        ok := Terminalize(task, FailureResult(task.id, f), Running, OnFailed, Some(f.message), at);
        outcome := if ok then Error(f) else NotAllowed(task.status, Failed);
      }
    }

    /** The rest of the `try` block after the handler returned. */
    method FinishReturned(task: Task, raw: Raw, at: set<Point>) returns (outcome: Outcome)
      modifies task, this`events, this`store, this`saves, this`persistenceErrors
      ensures Ended(View(task), outcome) == Returned(old(View(task)), raw, at)
    {
      hide Terminalized, Aborted, Raised;
      if task.status.Cancelled? {
        outcome := FinishCancelled(task, WasCancelled(task.id), at);
        return;
      }
      var r := FromRaw(task.id, raw);
      var ok := Terminalize(task, r, Running, OnSucceeded, None, at);
      if ok {
        outcome := Value(r);
      } else {
        outcome := FinishRaised(task, Plain(CannotTransition(task.status, Succeeded)), at);
      }
    }

    method FailUnhandled(task: Task, at: set<Point>) returns (outcome: Outcome)
      modifies task, this`events, this`store, this`saves, this`persistenceErrors
      ensures Ended(View(task), outcome) == Unhandled(old(View(task)), task.typ, at)
    {
      hide Terminalized;
      var m, previous := NoHandler(task.typ), task.status;
      var ok := true;
      if !task.status.CanBecome(Failed) { ok := task.TransitionTo(Running, None); }
      if !ok { return NotAllowed(task.status, Running); }
      ok := Terminalize(task, FailureResult(task.id, Plain(m)), previous, OnFailed, Some(m), at);
      outcome := if ok then Error(Plain(m)) else NotAllowed(task.status, Failed);
    }

    /** `_execute_once`. */
    method ExecuteOnce(task: Task, script: Script) returns (outcome: Outcome)
      modifies task, this`events, this`store, this`saves, this`persistenceErrors
      ensures Ended(View(task), outcome)
           == Attempt(old(View(task)), if task.typ in handlers then Present(script.end) else Missing(task.typ),
                      script.at)
    {
      hide CancelAt, EmittedAt, Aborted, Raised, Returned, Unhandled;
      var at := script.at;
      Interrupt(task, at, BeforeEntry);
      if !task.status.CanBecome(Running) { return Error(Plain(CannotExecute(task.status))); }
      Interrupt(task, at, AfterEntry);
      if task.typ !in handlers {
        outcome := FailUnhandled(task, at);
        return;
      }
      var previous := task.status;
      var ok := task.TransitionTo(Running, None);
      if !ok { return NotAllowed(previous, Running); }
      Interrupt(task, at, AfterStart);
      Emit(task, OnStarted, previous, None, at, AfterStartSave);
      Interrupt(task, at, InHandler);
      match script.end {
        case Returns(raw) => outcome := FinishReturned(task, raw, at);
        case Raises(f) => outcome := FinishRaised(task, f, at);
        case Aborts(m) => outcome := FinishCancelled(task, m, at);
      }
    }

    /** `execute` with `max_attempts = n`.  The loop always ends by returning or raising:
        its counter never reaches `n`. */
    method Execute(task: Task, n: nat, scripts: nat -> Script) returns (outcome: Outcome)
      requires n >= 1
      modifies task, this`events, this`store, this`saves, this`persistenceErrors
      ensures Ended(View(task), outcome)
          == Execution.Execute(old(View(task)), task.typ, task.typ in handlers, n, scripts)
    {
      hide Attempt, CancelAt;
      if n == 1 || task.typ !in handlers {
        outcome := ExecuteOnce(task, scripts(0));
        return;
      }
      outcome := Error(Plain(JustCancelled));
      var attempt, over := 0, false;
      while !over
        invariant over ==> Ended(View(task), outcome) == Retry(old(View(task)), n, scripts, 0)
        invariant !over ==>
          attempt < n && Retry(View(task), n, scripts, attempt) == Retry(old(View(task)), n, scripts, 0)
        decreases !over, n - attempt
      {
        var at := scripts(attempt).at;
        outcome := ExecuteOnce(task, scripts(attempt));
        over := !outcome.Error?;
        if !over {
          Interrupt(task, at, AfterAttempt);
          if task.status.Cancelled? {
            outcome, over := TaskCancelled(WasCancelled(task.id)), true;
          } else {
            Interrupt(task, at, BetweenChecks);
            if attempt + 1 >= n || !task.status.Failed? {
              over := true;
            } else {
              Interrupt(task, at, InBackoff);
              if task.status.Cancelled? {
                outcome, over := TaskCancelled(WasCancelled(task.id)), true;
              } else {
                attempt := attempt + 1;
              }
            }
          }
        }
      }
    }
  }
}
