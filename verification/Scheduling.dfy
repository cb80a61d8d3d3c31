/** One run of a task graph (`TaskGraph._run_inner`) as a step relation.

    A run interleaves three kinds of threads.  Workers start a queued task, settle its
    status and resolve its future.  Whoever holds the lock executes `schedule()`, one
    loop iteration at a time, with a stack of activations because a future that is
    already done when its callback is added re-enters `schedule()` on the spot.  The
    main thread shuts the pool down once `done` is set.  Worker steps may fall between
    any two steps of the lock holder. */
module Scheduling {
  import opened Lifecycle

  /** How a handler ends: it returns, raises an error, or raises `TaskCancelled`. */
  datatype Outcome = Returned | Raised | Aborted {
    function Verdict(): Status {
      match this
      case Returned => Succeeded
      case Raised => Failed
      case Aborted => Cancelled
    }
  }

  /** What a run is given: the graph in insertion order, the statuses it enters with,
      the handlers (arbitrary functions of the upstream statuses they read), the tasks
      whose type has no handler, and the pool size.  `rank` is the topological ranking
      whose existence validation establishes. */
  datatype Plan = Plan(
    order: seq<TaskId>,
    deps: map<TaskId, seq<TaskId>>,
    finals: set<TaskId>,
    entry: map<TaskId, Status>,
    unhandled: set<TaskId>,
    handler: (TaskId, map<TaskId, Status>) -> Outcome,
    workers: nat,
    ghost rank: map<TaskId, nat>)
  {
    ghost predicate Validated() {
      && (forall t {:trigger t in order} :: t in order <==> t in deps)
      && entry.Keys == deps.Keys
      && (forall t :: t in deps ==> !entry[t].Running?)
      && Ranked(deps, rank)
      && workers >= 1
    }

    /** Every task enters PENDING or in a sink. */
    ghost predicate Fresh() {
      forall t :: t in entry ==> entry[t].Pending? || entry[t].IsSink()
    }

    function Result(t: TaskId, upstream: map<TaskId, Status>): Status {
      if t in unhandled then Failed else handler(t, upstream).Verdict()
    }
  }

  /** All dependencies are registered and rank below their dependents. */
  ghost predicate Ranked(deps: map<TaskId, seq<TaskId>>, rank: map<TaskId, nat>) {
    rank.Keys == deps.Keys &&
    forall t, d {:trigger d in deps[t]} :: t in deps && d in deps[t] ==> d in deps && rank[d] < rank[t]
  }

  // ---- State -----------------------------------------------------------------

  /** A future: queued in the pool, its handler at work, its task's status settled but
      the future not yet done, or done (with or without an exception). */
  datatype Stage = Queued | Working | Settled | Resolved(raised: bool)

  /** The done callback of a future: not yet added, added, or `on_finish` entered. */
  datatype Hook = Unregistered | Registered | Entered

  datatype Job = Job(stage: Stage, hook: Hook)

  /** An activation of `schedule()`: at iteration `i` of the pass, inside `submit`
      between `pool.submit` and `add_done_callback`, or about to look for live futures. */
  datatype Frame = Scan(i: nat, changed: bool) | Attach(i: nat, tid: TaskId) | Probe

  datatype State = State(
    status: map<TaskId, Status>,
    jobs: map<TaskId, Job>,          // the futures dictionary
    errors: set<TaskId>,             // keys of _errors
    blame: map<TaskId, TaskId>,      // blocked_by, as recorded during this run
    stack: seq<Frame>,               // activations of schedule(); [] when the lock is free
    kickoff: bool,                   // the main thread is still inside its first schedule()
    done: bool,
    guard: bool,                     // scheduler_error is set
    closed: bool,                    // the pool has been shut down
    refused: set<TaskId>,            // history: submissions the closed pool rejected
    log: seq<TaskId>,                // history: accepted submissions, in order
    late: set<TaskId>)               // history: tasks that settled or resolved under the held lock

  datatype Step =
    | Start(tid: TaskId) | Reject(tid: TaskId) | Settle(tid: TaskId) | Resolve(tid: TaskId)
    | Callback(tid: TaskId) | Advance | Close

  function Init(p: Plan): State {
    State(p.entry, map[], {}, map[], [Scan(0, false)], true, false, false, false, {}, [], {})
  }

  ghost predicate Fits(p: Plan, s: State) {
    && p.Validated()
    && s.status.Keys == p.deps.Keys
    && s.jobs.Keys <= p.deps.Keys
    && (s.stack != [] && Top(s).Attach? ==> Top(s).tid in s.jobs && Top(s).i < |p.order|)
  }

  function Top(s: State): Frame
    requires s.stack != []
  {
    s.stack[|s.stack| - 1]
  }

  function Retop(s: State, f: Frame): State
    requires s.stack != []
  {
    s.(stack := s.stack[..|s.stack| - 1] + [f])
  }

  function Pop(s: State): State
    requires s.stack != []
  {
    if |s.stack| > 1 then s.(stack := s.stack[..|s.stack| - 1]) else s.(stack := [], kickoff := false)
  }

  // ---- What schedule() reads -------------------------------------------------

  predicate Done(s: State, t: TaskId)
    requires t in s.jobs
  {
    s.jobs[t].stage.Resolved?
  }

  /** BLOCKED since this run began: no retry, unlike a task that entered BLOCKED. */
  predicate BlockedNow(p: Plan, s: State, t: TaskId)
    requires t in s.status && t in p.entry
  {
    s.status[t].Blocked? && !p.entry[t].Blocked?
  }

  predicate Retryable(p: Plan, s: State, t: TaskId)
    requires t in s.status && t in p.entry
  {
    t !in s.jobs && s.status[t].CanBecome(Running) && !BlockedNow(p, s, t)
  }

  predicate Inactive(p: Plan, s: State, t: TaskId)
    requires t in s.status && t in p.entry
  {
    if t in s.jobs then Done(s, t)
    else (s.status[t].IsTerminal() && !Retryable(p, s, t)) || t in s.errors
  }

  ghost predicate Ready(p: Plan, s: State, t: TaskId)
    requires Fits(p, s) && t in p.deps
  {
    if t in p.finals then forall d :: d in p.deps[t] ==> Inactive(p, s, d)
    else forall d :: d in p.deps[t] ==> s.status[d].Succeeded?
  }

  /** Whether `d` blocks its ordinary dependents for the rest of the run. */
  predicate BadParent(p: Plan, s: State, d: TaskId)
    requires d in s.status && d in p.entry
  {
    !(d in s.jobs && !Done(s, d)) &&
    (d in s.errors || (s.status[d].IsBad() && !Retryable(p, s, d)))
  }

  /** The first blocking dependency in declaration order. */
  function FirstBad(p: Plan, s: State, ds: seq<TaskId>): (r: Option<TaskId>)
    requires forall d :: d in ds ==> d in s.status && d in p.entry
    ensures r.Some? ==> r.value in ds && BadParent(p, s, r.value)
    ensures r.None? ==> forall d :: d in ds ==> !BadParent(p, s, d)
  {
    if ds == [] then None
    else if BadParent(p, s, ds[0]) then Some(ds[0])
    else FirstBad(p, s, ds[1..])
  }

  /** No earlier dependency blocks. */
  lemma {:induction false} FirstBadIsFirst(p: Plan, s: State, ds: seq<TaskId>) returns (k: nat)
    requires forall d :: d in ds ==> d in s.status && d in p.entry
    requires FirstBad(p, s, ds).Some?
    ensures k < |ds| && FirstBad(p, s, ds) == Some(ds[k]) && BadParent(p, s, ds[k])
    ensures forall j :: 0 <= j < k ==> !BadParent(p, s, ds[j])
  {
    if BadParent(p, s, ds[0]) {
      k := 0;
    } else {
      var rest := FirstBadIsFirst(p, s, ds[1..]);
      k := rest + 1;
      assert forall j :: 0 < j < k ==> ds[j] == ds[1..][j - 1];
    }
  }

  predicate Finished(s: State, t: TaskId)
    requires t in s.status
  {
    s.status[t].IsTerminal() || (t in s.jobs && Done(s, t))
  }

  ghost predicate AllFinished(p: Plan, s: State)
    requires Fits(p, s)
  {
    forall t :: t in p.deps ==> Finished(s, t)
  }

  ghost predicate Live(s: State) {
    exists t :: t in s.jobs && !Done(s, t)
  }

  // ---- Steps of the lock holder ----------------------------------------------

  /** `schedule()` passes over `t` without looking at its parents. */
  predicate Skipped(p: Plan, s: State, t: TaskId)
    requires t in s.status && t in p.entry
  {
    t in s.jobs || s.status[t].IsSink() || BlockedNow(p, s, t)
  }

  ghost predicate Blocks(p: Plan, s: State, t: TaskId)
    requires Fits(p, s) && t in p.deps
  {
    !Skipped(p, s, t) && t !in p.finals && FirstBad(p, s, p.deps[t]).Some? && s.status[t].Pending?
  }

  ghost predicate Submits(p: Plan, s: State, t: TaskId)
    requires Fits(p, s) && t in p.deps
  {
    && !Skipped(p, s, t)
    && (t in p.finals || FirstBad(p, s, p.deps[t]).None?)
    && Ready(p, s, t) && s.status[t].CanBecome(Running)
  }

  /** Visiting `t` would change something. */
  ghost predicate CanAct(p: Plan, s: State, t: TaskId)
    requires Fits(p, s) && t in p.deps
  {
    Blocks(p, s, t) || Submits(p, s, t)
  }

  /** One iteration of the `for` loop.  A closed pool makes `submit` raise, which ends
      this activation; the callback machinery swallows the exception. */
  ghost function Visit(p: Plan, s: State, i: nat, changed: bool): State
    requires Fits(p, s) && s.stack != [] && i < |p.order|
  {
    var t := p.order[i];
    assert t in p.order;
    if Blocks(p, s, t) then
      Retop(s, Scan(i + 1, true))
        .(status := s.status[t := Blocked], blame := s.blame[t := FirstBad(p, s, p.deps[t]).value])
    else if !Submits(p, s, t) then Retop(s, Scan(i + 1, changed))
    else if s.closed then Pop(s).(refused := s.refused + {t})
    else Retop(s, Attach(i, t)).(jobs := s.jobs[t := Job(Queued, Unregistered)], log := s.log + [t])
  }

  /** `on_finish`: record the exception, then a nested or fresh `schedule()`. */
  function OnFinish(s: State, t: TaskId): State
    requires t in s.jobs && Done(s, t)
  {
    s.(errors := if s.jobs[t].stage.raised then s.errors + {t} else s.errors,
       jobs := s.jobs[t := s.jobs[t].(hook := Entered)],
       stack := s.stack + [Scan(0, false)])
  }

  /** `add_done_callback`: re-enters when the future is already done. */
  function AttachHook(s: State, i: nat, t: TaskId): State
    requires s.stack != [] && t in s.jobs
  {
    var s' := Retop(s, Scan(i + 1, true));
    if Done(s, t) then OnFinish(s', t)
    else s'.(jobs := s'.jobs[t := s'.jobs[t].(hook := Registered)])
  }

  ghost function Advanced(p: Plan, s: State): State
    requires Fits(p, s) && s.stack != []
  {
    match Top(s)
    case Scan(i, changed) =>
      if i < |p.order| then Visit(p, s, i, changed)
      else if changed then Retop(s, Scan(0, false))
      else if AllFinished(p, s) then Pop(s).(done := true)
      else Retop(s, Probe)
    case Attach(i, t) => AttachHook(s, i, t)
    case Probe => if Live(s) then Pop(s) else Pop(s).(done := true, guard := true)
  }

  // ---- Steps of workers and of the main thread --------------------------------

  /** Tasks that hold a pool thread: running, or waiting for the lock in `on_finish`. */
  function Busy(s: State): set<TaskId> {
    set t | t in s.jobs && !s.jobs[t].stage.Queued? && !(Done(s, t) && !s.jobs[t].hook.Registered?)
  }

  /** The threads in use: those of busy tasks, and the one that executes `on_finish` when it is
      not the main thread that holds the lock. */
  function Occupied(s: State): nat {
    |Busy(s)| + if s.stack != [] && !s.kickoff then 1 else 0
  }

  /** `x` stands before `t`. */
  predicate Precedes(log: seq<TaskId>, x: TaskId, t: TaskId) {
    exists i, j :: 0 <= i < j < |log| && log[i] == x && log[j] == t
  }

  /** The queued tasks that the pool has accepted before `t`. */
  function Ahead(s: State, t: TaskId): set<TaskId> {
    set x | x in s.jobs && s.jobs[x].stage.Queued? && Precedes(s.log, x, t)
  }

  /** The threads that `t` has to leave to others.  The pool hands out tasks in the order of
      submission, so every task ahead of `t` has one by the time `t` gets its own. */
  function Claimed(s: State, t: TaskId): nat {
    Occupied(s) + |Ahead(s, t)|
  }

  function Upstream(p: Plan, s: State, t: TaskId): map<TaskId, Status>
    requires t in p.deps && forall d :: d in p.deps[t] ==> d in s.status
  {
    map d | d in p.deps[t] :: s.status[d]
  }

  function Restage(s: State, t: TaskId, stage: Stage, status: Status): State
    requires t in s.jobs
  {
    s.(status := s.status[t := status], jobs := s.jobs[t := s.jobs[t].(stage := stage)])
  }

  function Marked(s: State, t: TaskId): set<TaskId> {
    if s.stack == [] then s.late else s.late + {t}
  }

  ghost predicate CanStep(p: Plan, s: State, l: Step) {
    Fits(p, s) &&
    match l
    case Start(t) =>
      t in s.jobs && s.jobs[t].stage.Queued? && Claimed(s, t) < p.workers
      && !(t in p.unhandled && s.status[t].Pending?)
    case Reject(t) =>
      t in s.jobs && s.jobs[t].stage.Queued? && Claimed(s, t) < p.workers
      && t in p.unhandled && s.status[t].Pending?
    case Settle(t) => t in s.jobs && s.jobs[t].stage.Working?
    case Resolve(t) => t in s.jobs && s.jobs[t].stage.Settled?
    case Callback(t) => t in s.jobs && Done(s, t) && s.jobs[t].hook.Registered? && s.stack == []
    case Advance => s.stack != []
    case Close => s.done && !s.closed && !s.kickoff
  }

  /** `Start` enters RUNNING; `Reject` is the handler-less PENDING -> FAILED path;
      `Settle` writes the handler's verdict; `Resolve` completes the future, which
      raises exactly when the task did not succeed (`WorkerContract.WorkerStepsAreAnAttempt`). */
  ghost function Next(p: Plan, s: State, l: Step): State
    requires CanStep(p, s, l)
  {
    match l
    case Start(t) => Restage(s, t, Working, Running)
    case Reject(t) => Restage(s, t, Settled, Failed).(late := Marked(s, t))
    case Settle(t) => Restage(s, t, Settled, p.Result(t, Upstream(p, s, t))).(late := Marked(s, t))
    case Resolve(t) =>
      Restage(s, t, Resolved(!s.status[t].Succeeded?), s.status[t]).(late := Marked(s, t))
    case Callback(t) => OnFinish(s, t).(late := {})
    case Advance => Advanced(p, s)
    case Close => s.(closed := true)
  }

  /** `ls` leads from `s` to `s'`. */
  ghost predicate Follows(p: Plan, s: State, ls: seq<Step>, s': State)
    decreases |ls|
  {
    if ls == [] then s == s'
    else CanStep(p, s, ls[0]) && Follows(p, Next(p, s, ls[0]), ls[1..], s')
  }

  /** Some interleaving of a validated run leads to `s`.  (`Fits` holds of every such
      state; it is stated so that properties of `s` can be.) */
  ghost predicate Reachable(p: Plan, s: State) {
    Fits(p, s) && exists ls :: Follows(p, Init(p), ls, s)
  }

  /** Nothing is left to do: the lock is free, every callback has run, the pool is closed. */
  ghost predicate Quiescent(s: State) {
    s.stack == [] && s.closed && forall t :: t in s.jobs ==> s.jobs[t].hook.Entered?
  }

  // ---- The reference evaluator -----------------------------------------------

  /** The status a task ends with and whether this run executes it. */
  datatype Fate = Fate(status: Status, ran: bool)

  /** A settled dependency can no longer change; others are carried-over or stuck. */
  predicate Settles(p: Plan, t: TaskId, f: Fate)
    requires t in p.entry
  {
    f.ran || p.entry[t].IsSink() || (f.status.Blocked? && !p.entry[t].Blocked?)
  }

  /** The outcome of a run by recursion over the graph, without any scheduling. */
  ghost function FateOf(p: Plan, t: TaskId): Fate
    requires p.Validated() && t in p.deps
    decreases p.rank[t]
  {
    var ds := p.deps[t];
    var e := p.entry[t];
    if e.IsSink() then Fate(e, false)
    else if if t in p.finals then forall d :: d in ds ==> Settles(p, d, FateOf(p, d))
            else forall d :: d in ds ==> FateOf(p, d).status.Succeeded?
    then Fate(p.Result(t, map d | d in ds :: FateOf(p, d).status), true)
    else if e.Pending? && t !in p.finals
            && exists d :: d in ds && Settles(p, d, FateOf(p, d)) && FateOf(p, d).status.IsBad()
    then Fate(Blocked, false)
    else Fate(e, false)
  }
}
