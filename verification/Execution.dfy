/** What `TaskExecutor` does to one task, its events and its stored copy, as functions on
    values.  The class of module `Executor` performs the same changes step by step.

    An external `executor.cancel` may land between any two steps of an attempt; the set
    of `Point`s at which it does is an input, and so is the way the handler ends. */
module Execution {
  import opened Lifecycle

  datatype TaskType = Bash | PowerShell | Prompt | Agent

  /** Error texts, by what they say. */
  datatype Message =
    | Text(text: string)
    | CannotExecute(status: Status)
    | CannotTransition(from: Status, to: Status)
    | NoHandler(typ: TaskType)
    | WasCancelled(task: TaskId)
    | JustCancelled
    | SaveFailed

  datatype Reason = ExitCode | TimedOut | CancelSignal | HandlerError

  /** A `TaskResult` without its time stamps and raw value; `reason` is None for success. */
  datatype Result = Result(task: TaskId, status: Status, output: string, error: Option<Message>,
                           returncode: Option<int>, reason: Option<Reason>)

  /** A handler's return value: a completed process, a string, or anything else. */
  datatype Raw = Completed(stdout: string, stderr: string, code: int) | Output(text: string) | Opaque

  /** The errors a handler may raise (other than `TaskCancelled`). */
  datatype Failure =
    | Plain(message: Message)
    | Execution(message: Message, stdout: string, stderr: string, code: int)
    | Timeout(message: Message, stdout: string, code: int)

  datatype HandlerEnd = Returns(raw: Raw) | Raises(failure: Failure) | Aborts(message: Message)

  /** What a caller of `execute` sees. */
  datatype Outcome = Value(result: Result) | Error(failure: Failure) | TaskCancelled(message: Message)

  // ---- Results ---------------------------------------------------------------------

  function NonEmpty(s: string): Option<Message> {
    if s == "" then None else Some(Text(s))
  }

  /** `TaskResult.from_raw`, for a success. */
  function FromRaw(id: TaskId, raw: Raw): Result {
    match raw
    case Completed(stdout, stderr, code) => Result(id, Succeeded, stdout, NonEmpty(stderr), Some(code), None)
    case Output(text) => Result(id, Succeeded, text, None, None, None)
    case Opaque => Result(id, Succeeded, "", None, None, None)
  }

  function FailureResult(id: TaskId, f: Failure): Result {
    match f
    case Plain(m) => Result(id, Failed, "", Some(m), None, Some(HandlerError))
    case Execution(m, stdout, stderr, code) =>
      Result(id, Failed, stdout, Some(if stderr == "" then m else Text(stderr)), Some(code), Some(ExitCode))
    case Timeout(m, stdout, code) => Result(id, Failed, stdout, Some(m), Some(code), Some(TimedOut))
  }

  function CancelledResult(id: TaskId, m: Message): Result {
    Result(id, Cancelled, "", Some(m), None, Some(CancelSignal))
  }

  // ---- The task --------------------------------------------------------------------

  /** The mutable fields of a `Task`. */
  datatype Snap = Snap(status: Status, error: Option<Message>, result: Option<Result>, blockedBy: Option<TaskId>)

  /** `Task.transition_to`, where it is allowed. */
  function Transitioned(s: Snap, next: Status, error: Option<Message>): Snap
    requires s.status.CanBecome(next)
  {
    match next
    case Running => Snap(Running, None, None, None)
    case Succeeded => s.(status := Succeeded, error := None)
    case _ => s.(status := next, error := error)
  }

  // ---- The executor ----------------------------------------------------------------

  datatype Kind = OnStarted | OnSucceeded | OnFailed | OnCancelled | OnBlocked | OnPersistenceFailed {
    function Reaches(): Status {
      match this
      case OnStarted => Running
      case OnSucceeded => Succeeded
      case OnFailed => Failed
      case OnCancelled => Cancelled
      case OnBlocked => Blocked
      case OnPersistenceFailed => Pending
    }

    predicate IsLifecycle() {
      !OnPersistenceFailed?
    }
  }

  /** An event, with what a subscriber finds at its delivery: the live task and its stored copy. */
  datatype Event = Event(kind: Kind, task: TaskId, previous: Option<Status>, status: Status, error: Option<Message>,
                         live: Snap, stored: Option<Snap>)

  /** The executor's logs and the store.  `fails(n)` tells whether the n-th save raises. */
  datatype Bus = Bus(log: seq<Event>, store: Option<map<TaskId, Snap>>, saves: nat, lost: seq<TaskId>,
      fails: nat -> bool)

  datatype World = World(id: TaskId, task: Snap, bus: Bus)

  function StoredCopy(b: Bus, id: TaskId): Option<Snap> {
    if b.store.Some? && id in b.store.value then Some(b.store.value[id]) else None
  }

  /** `_persist`: a failing save is recorded and announced, never raised. */
  function Persisted(w: World): World {
    var b := w.bus;
    if b.store.None? then w
    else if b.fails(b.saves) then
      w.(bus := b.(saves := b.saves + 1, lost := b.lost + [w.id],
                   log := b.log + [Event(OnPersistenceFailed, w.id, None, w.task.status, Some(SaveFailed), w.task,
                       StoredCopy(b, w.id))]))
    else w.(bus := b.(saves := b.saves + 1, store := Some(b.store.value[w.id := w.task])))
  }

  /** Subscribers see the live task and its stored copy as they are by then. */
  function Deliver(w: World, kind: Kind, previous: Status, error: Option<Message>): World {
    w.(bus := w.bus.(log := w.bus.log +
      [Event(kind, w.id, Some(previous), w.task.status, error, w.task, StoredCopy(w.bus, w.id))]))
  }

  /** `_emit`: persist, then deliver. */
  function Emitted(w: World, kind: Kind, previous: Status, error: Option<Message>): World {
    Deliver(Persisted(w), kind, previous, error)
  }

  function Attach(w: World, r: Result): World {
    w.(task := w.task.(result := Some(r)))
  }

  /** `executor.cancel`: a RUNNING task is only marked, its attempt owns the terminal event. */
  function WithCancel(w: World): (r: World)
    ensures r.id == w.id && r.task.status == if w.task.status.IsSink() then w.task.status else Cancelled
  {
    var s := w.task.status;
    if s.IsSink() then w
    else
      var w' := w.(task := w.task.(status := Cancelled));
      if s.Running? then w'
      else Emitted(Attach(w', CancelledResult(w.id, JustCancelled)), OnCancelled, s, Some(JustCancelled))
  }

  /** Where an external cancel may land: around the entry check, before STARTED is emitted and
      inside that emission, while the handler is at work, after the exception handler (or
      `mark_blocked`) has looked at the status, inside a terminal write (result attached, status
      compared, transition made), inside `mark_blocked` after the parent is recorded, inside
      the emission of the last event, after the attempt, between the two checks of the retry
      loop, and during the backoff. */
  datatype Point =
    | BeforeEntry | AfterEntry | AfterStart | AfterStartSave | InHandler
    | AfterCheck | AfterAttach | AfterCompare | AfterTransition | AfterBlame | AfterSave
    | AfterAttempt | BetweenChecks | InBackoff

  function CancelAt(w: World, at: set<Point>, p: Point): World {
    if p in at then WithCancel(w) else w
  }

  /** `_emit` with a cancel that may land at `p`, between the save and the delivery. */
  function EmittedAt(w: World, kind: Kind, previous: Status, error: Option<Message>, at: set<Point>, p: Point): World {
    Deliver(CancelAt(Persisted(w), at, p), kind, previous, error)
  }

  /** `mark_blocked`, which only a PENDING task accepts. */
  function MarkedBlocked(w: World, parent: Option<TaskId>, at: set<Point>): World {
    var w0 := CancelAt(w, at, AfterCheck);
    if !w0.task.status.CanBecome(Blocked) then w0
    else
      var w1 := CancelAt(w0.(task := Transitioned(w0.task, Blocked, None)), at, AfterTransition);
      var w2 := CancelAt(w1.(task := w1.task.(blockedBy := parent)), at, AfterBlame);
      EmittedAt(w2, OnBlocked, w.task.status, None, at, AfterSave)
  }

  /** The end of a terminal write; the transition is refused when a cancel came between. */
  datatype Written = Done(world: World) | Refused(world: World)

  /** `_terminalize`: attach the result, move the status unless it is already there, emit. */
  function Terminalized(w: World, r: Result, previous: Status, kind: Kind, error: Option<Message>,
      at: set<Point>): Written {
    var w1 := CancelAt(Attach(CancelAt(w, at, AfterCheck), r), at, AfterAttach);
    if w1.task.status == r.status then Done(EmittedAt(w1, kind, previous, error, at, AfterSave))
    else
      var w2 := CancelAt(w1, at, AfterCompare);
      if !w2.task.status.CanBecome(r.status) then Refused(w2)
      else
        var w3 := CancelAt(w2.(task := Transitioned(w2.task, r.status, error)), at, AfterTransition);
        Done(EmittedAt(w3, kind, previous, error, at, AfterSave))
  }

  /** An attempt's effect and what its caller sees. */
  datatype Ended = Ended(world: World, outcome: Outcome)

  function NotAllowed(s: Status, next: Status): Outcome {
    Error(Plain(CannotTransition(s, next)))
  }

  /** The `except TaskCancelled` branch. */
  function Aborted(w: World, m: Message, at: set<Point>): Ended {
    match Terminalized(w, CancelledResult(w.id, m), Running, OnCancelled, Some(m), at)
    case Done(w') => Ended(w', TaskCancelled(m))
    case Refused(w') => Ended(w', NotAllowed(w'.task.status, Cancelled))
  }

  /** The `except Exception` branch. */
  function Raised(w: World, f: Failure, at: set<Point>): Ended {
    var m := f.message;
    if w.task.status.Cancelled? then
      match Terminalized(w, CancelledResult(w.id, m), Running, OnCancelled, Some(m), at)
      case Done(w') => Ended(w', TaskCancelled(WasCancelled(w.id)))
      case Refused(w') => Ended(w', NotAllowed(w'.task.status, Cancelled))
    else
      match Terminalized(w, FailureResult(w.id, f), Running, OnFailed, Some(m), at)
      case Done(w') => Ended(w', Error(f))
      case Refused(w') => Ended(w', NotAllowed(w'.task.status, Failed))
  }

  /** The handler returned: cancelled meanwhile, succeeded, or lost the race at the transition. */
  function Returned(w: World, raw: Raw, at: set<Point>): Ended {
    if w.task.status.Cancelled? then Aborted(w, WasCancelled(w.id), at)
    else
      match Terminalized(w, FromRaw(w.id, raw), Running, OnSucceeded, None, at)
      case Done(w') => Ended(w', Value(FromRaw(w.id, raw)))
      case Refused(w') => Raised(w', Plain(CannotTransition(w'.task.status, Succeeded)), at)
  }

  /** No handler for the type: FAILED, from RUNNING when the status does not allow it directly. */
  function Unhandled(w: World, typ: TaskType, at: set<Point>): Ended {
    var s := w.task.status;
    if !s.CanBecome(Failed) && !s.CanBecome(Running) then Ended(w, NotAllowed(s, Running))
    else
      var w1 := if s.CanBecome(Failed) then w else w.(task := Transitioned(w.task, Running, None));
      match Terminalized(w1, FailureResult(w.id, Plain(NoHandler(typ))), s, OnFailed, Some(NoHandler(typ)), at)
      case Done(w') => Ended(w', Error(Plain(NoHandler(typ))))
      case Refused(w') => Ended(w', NotAllowed(w'.task.status, Failed))
  }

  /** The task enters RUNNING, STARTED is emitted, the handler is at work. */
  function Started(w: World, at: set<Point>): World
    requires w.task.status.CanBecome(Running)
  {
    var w1 := CancelAt(w.(task := Transitioned(w.task, Running, None)), at, AfterStart);
    CancelAt(EmittedAt(w1, OnStarted, w.task.status, None, at, AfterStartSave), at, InHandler)
  }

  function Handled(w: World, end: HandlerEnd, at: set<Point>): Ended
    requires w.task.status.CanBecome(Running)
  {
    match end
    case Returns(raw) => Returned(Started(w, at), raw, at)
    case Raises(f) => Raised(Started(w, at), f, at)
    case Aborts(m) => Aborted(Started(w, at), m, at)
  }

  /** The type's handler, or its absence. */
  datatype Handler = Missing(typ: TaskType) | Present(end: HandlerEnd)

  /** `_execute_once`. */
  function Attempt(w: World, h: Handler, at: set<Point>): Ended {
    var w0 := CancelAt(w, at, BeforeEntry);
    if !w0.task.status.CanBecome(Running) then Ended(w0, Error(Plain(CannotExecute(w0.task.status))))
    else
      var w1 := CancelAt(w0, at, AfterEntry);
      match h
      case Missing(typ) => Unhandled(w1, typ, at)
      case Present(end) =>
        if !w1.task.status.CanBecome(Running) then Ended(w1, NotAllowed(w1.task.status, Running))
        else Handled(w1, end, at)
  }

  // ---- Retries ---------------------------------------------------------------------

  /** What happens during one attempt: how the handler ends and when cancels arrive. */
  datatype Script = Script(end: HandlerEnd, at: set<Point>)

  /** The retry loop of `execute`, from attempt `i` of `n`. */
  function Retry(w: World, n: nat, scripts: nat -> Script, i: nat): Ended
    requires i < n
    decreases n - i
  {
    var at := scripts(i).at;
    var e := Attempt(w, Present(scripts(i).end), at);
    if !e.outcome.Error? then e
    else
      var w1 := CancelAt(e.world, at, AfterAttempt);
      if w1.task.status.Cancelled? then Ended(w1, TaskCancelled(WasCancelled(w.id)))
      else
        var w2 := CancelAt(w1, at, BetweenChecks);
        if i + 1 >= n || !w2.task.status.Failed? then Ended(w2, e.outcome)
        else
          var w3 := CancelAt(w2, at, InBackoff);
          if w3.task.status.Cancelled? then Ended(w3, TaskCancelled(WasCancelled(w.id)))
          else Retry(w3, n, scripts, i + 1)
  }

  /** `execute` with `max_attempts = n`; a policy has at least one attempt. */
  function Execute(w: World, typ: TaskType, handled: bool, n: nat, scripts: nat -> Script): Ended
    requires n >= 1
  {
    if n == 1 || !handled then
      Attempt(w, if handled then Present(scripts(0).end) else Missing(typ), scripts(0).at)
    else Retry(w, n, scripts, 0)
  }
}
