/** `TaskGraph._run_inner` in its own, imperative form: the same loops over the same
    mutable dictionaries, with demonic workers that may step wherever the step relation of
    `Scheduling` lets them.  Ghost fields record the activations of `schedule()` and the
    steps taken; `Valid` says that those steps lead from the start of the run to here. */
module SchedulerRun {
  import opened Lifecycle
  import opened Scheduling
  import opened Safety
  import opened Control
  import opened Confluence
  import opened Termination

  type ValidPlan = p: Plan | p.Validated()
    witness Plan([], map[], {}, map[], {}, (t, up) => Returned, 1, map[])

  /** `steps` lead from the start of the run to `s`. */
  ghost predicate Sound(p: ValidPlan, steps: seq<Step>, s: State) {
    Follows(p, Init(p), steps, s)
  }

  /** While the lock is held, `main` tells whether the main thread holds it. */
  ghost predicate HolderIs(s: State, main: bool) {
    s.stack != [] ==> s.kickoff == main
  }

  /** What holds wherever a run has got to. */
  lemma Known(p: ValidPlan, steps: seq<Step>, s: State)
    requires Sound(p, steps, s)
    ensures Inv(p, s) && Fits(p, s) && p.entry.Keys == p.deps.Keys && Reachable(p, s)
  {
    hide FateOf;
    InitInv(p);
    RunKeeps(p, Init(p), steps, s);
  }

  /** One more step: what every method below appeals to after each of its actions. */
  lemma Took(p: ValidPlan, steps: seq<Step>, s: State, l: Step, s': State)
    requires Sound(p, steps, s) && CanStep(p, s, l) && s' == Next(p, s, l)
    ensures Sound(p, steps + [l], s') && Measure(p, s') < Measure(p, s)
  {
    hide FateOf, Inv, Next, CanStep, Follows, Measure, Init;
    Known(p, steps, s);
    Extend(p, Init(p), steps, s, l);
    StepDecreases(p, s, l);
  }

  lemma TookAdvance(p: ValidPlan, steps: seq<Step>, s: State, s': State)
    requires Sound(p, steps, s) && s.stack != [] && Fits(p, s) && s' == Advanced(p, s)
    ensures Sound(p, steps + [Advance], s') && Measure(p, s') < Measure(p, s)
  {
    hide FateOf, Sound, Measure, Advanced, Plan.Validated;
    Took(p, steps, s, Advance, s');
  }

  /** `l` has been taken from `s` to `s'`. */
  ghost predicate Stepped(p: ValidPlan, steps: seq<Step>, s: State, l: Step, s': State) {
    Sound(p, steps + [l], s') && Measure(p, s') < Measure(p, s)
  }

  // ---- What each action of the code must establish -----------------------------------------

  lemma TookStart(p: ValidPlan, steps: seq<Step>, s: State, t: TaskId, s': State)
    requires Sound(p, steps, s) && Fits(p, s)
    requires t in s.jobs && s.jobs[t].stage.Queued? && Claimed(s, t) < p.workers
    requires !(t in p.unhandled && s.status[t].Pending?)
    requires s' == s.(status := s.status[t := Running], jobs := s.jobs[t := s.jobs[t].(stage := Working)])
    ensures Stepped(p, steps, s, Start(t), s')
  {
    hide FateOf, Claimed, Sound, Measure;
    Took(p, steps, s, Start(t), s');
  }

  lemma TookReject(p: ValidPlan, steps: seq<Step>, s: State, t: TaskId, s': State)
    requires Sound(p, steps, s) && Fits(p, s)
    requires t in s.jobs && s.jobs[t].stage.Queued? && Claimed(s, t) < p.workers
    requires t in p.unhandled && s.status[t].Pending?
    requires s' ==
      s.(status := s.status[t := Failed], jobs := s.jobs[t := s.jobs[t].(stage := Settled)], late := Marked(s, t))
    ensures Stepped(p, steps, s, Reject(t), s')
  {
    hide FateOf, Claimed, Sound, Measure;
    Took(p, steps, s, Reject(t), s');
  }

  lemma TookSettle(p: ValidPlan, steps: seq<Step>, s: State, t: TaskId, v: Status, s': State)
    requires Sound(p, steps, s) && Fits(p, s)
    requires t in s.jobs && s.jobs[t].stage.Working? && v == p.Result(t, Upstream(p, s, t))
    requires s' ==
      s.(status := s.status[t := v], jobs := s.jobs[t := s.jobs[t].(stage := Settled)], late := Marked(s, t))
    ensures Stepped(p, steps, s, Settle(t), s')
  {
    hide FateOf, Claimed, Sound, Measure;
    Took(p, steps, s, Settle(t), s');
  }

  lemma TookResolve(p: ValidPlan, steps: seq<Step>, s: State, t: TaskId, raised: bool, s': State)
    requires Sound(p, steps, s) && Fits(p, s)
    requires t in s.jobs && s.jobs[t].stage.Settled? && (raised <==> !s.status[t].Succeeded?)
    requires s' == s.(jobs := s.jobs[t := s.jobs[t].(stage := Resolved(raised))], late := Marked(s, t))
    ensures Stepped(p, steps, s, Resolve(t), s')
  {
    hide FateOf, Claimed, Sound, Measure;
    assert s.status[t := s.status[t]] == s.status;
    Took(p, steps, s, Resolve(t), s');
  }

  lemma TookCallback(p: ValidPlan, steps: seq<Step>, s: State, t: TaskId, es: set<TaskId>, s': State)
    requires Sound(p, steps, s) && Fits(p, s)
    requires s.stack == [] && t in s.jobs && Done(s, t) && s.jobs[t].hook.Registered?
    requires es == if s.jobs[t].stage.raised then s.errors + {t} else s.errors
    requires s' ==
      s.(errors := es, jobs := s.jobs[t := s.jobs[t].(hook := Entered)], stack := [Scan(0, false)], late := {})
    ensures Stepped(p, steps, s, Callback(t), s')
  {
    hide FateOf, Claimed, Sound, Measure;
    Took(p, steps, s, Callback(t), s');
  }

  lemma TookClose(p: ValidPlan, steps: seq<Step>, s: State, s': State)
    requires Sound(p, steps, s) && s.stack == [] && s.done && !s.closed
    requires s' == s.(closed := true)
    ensures Stepped(p, steps, s, Close, s')
  {
    hide FateOf, Claimed, Sound, Measure;
    Known(p, steps, s);
    FreeLock(p, s);
    Took(p, steps, s, Close, s');
  }

  lemma TookBlock(p: ValidPlan, steps: seq<Step>, s: State, i: nat, changed: bool, t: TaskId, b: TaskId, s': State)
    requires Sound(p, steps, s) && Fits(p, s)
    requires s.stack != [] && Top(s) == Scan(i, changed) && i < |p.order| && p.order[i] == t && t in p.deps
    requires Blocks(p, s, t) && FirstBad(p, s, p.deps[t]) == Some(b)
    requires s' == s.(status := s.status[t := Blocked], blame := s.blame[t := b],
                          stack := s.stack[..|s.stack| - 1] + [Scan(i + 1, true)])
    ensures Stepped(p, steps, s, Advance, s')
  {
    hide FateOf, Plan.Validated, Ranked, Blocks, Submits, FirstBad, Sound, Measure;
    assert Advanced(p, s) == s.(status := s.status[t := Blocked], blame := s.blame[t := b],
                                stack := s.stack[..|s.stack| - 1] + [Scan(i + 1, true)]);
    TookAdvance(p, steps, s, s');
  }

  lemma PopCommutes(s: State, r: set<TaskId>)
    requires s.stack != []
    ensures Pop(s.(refused := r)) == Pop(s).(refused := r)
    ensures Pop(s.(done := true)) == Pop(s).(done := true)
    ensures Pop(s.(done := true, guard := true)) == Pop(s).(done := true, guard := true)
  {
    if |s.stack| > 1 {}
  }

  lemma TookRefusal(p: ValidPlan, steps: seq<Step>, s: State, i: nat, changed: bool, t: TaskId, s': State)
    requires Sound(p, steps, s) && Fits(p, s)
    requires s.stack != [] && Top(s) == Scan(i, changed) && i < |p.order| && p.order[i] == t && t in p.deps
    requires Submits(p, s, t) && !Blocks(p, s, t) && s.closed
    requires s' == Pop(s.(refused := s.refused + {t}))
    ensures Stepped(p, steps, s, Advance, s')
  {
    hide FateOf, Plan.Validated, Ranked, Blocks, Submits, FirstBad, Sound, Measure, Pop;
    assert Advanced(p, s) == Pop(s).(refused := s.refused + {t});
    PopCommutes(s, s.refused + {t});
    TookAdvance(p, steps, s, s');
  }

  lemma TookSubmit(p: ValidPlan, steps: seq<Step>, s: State, i: nat, changed: bool, t: TaskId, s': State)
    requires Sound(p, steps, s) && Fits(p, s)
    requires s.stack != [] && Top(s) == Scan(i, changed) && i < |p.order| && p.order[i] == t && t in p.deps
    requires Submits(p, s, t) && !Blocks(p, s, t) && !s.closed
    requires s' == s.(jobs := s.jobs[t := Job(Queued, Unregistered)], log := s.log + [t],
                          stack := s.stack[..|s.stack| - 1] + [Attach(i, t)])
    ensures Stepped(p, steps, s, Advance, s')
  {
    hide FateOf, Plan.Validated, Ranked, Blocks, Submits, FirstBad, Sound, Measure;
    assert Advanced(p, s) == s.(jobs := s.jobs[t := Job(Queued, Unregistered)], log := s.log + [t],
                                stack := s.stack[..|s.stack| - 1] + [Attach(i, t)]);
    TookAdvance(p, steps, s, s');
  }

  lemma TookPass(p: ValidPlan, steps: seq<Step>, s: State, i: nat, changed: bool, t: TaskId, s': State)
    requires Sound(p, steps, s) && Fits(p, s)
    requires s.stack != [] && Top(s) == Scan(i, changed) && i < |p.order| && p.order[i] == t && t in p.deps
    requires !CanAct(p, s, t)
    requires s' == s.(stack := s.stack[..|s.stack| - 1] + [Scan(i + 1, changed)])
    ensures Stepped(p, steps, s, Advance, s')
  {
    hide FateOf, Plan.Validated, Ranked, Blocks, Submits, FirstBad, Sound, Measure;
    assert Advanced(p, s) == s.(stack := s.stack[..|s.stack| - 1] + [Scan(i + 1, changed)]);
    TookAdvance(p, steps, s, s');
  }

  lemma TookRestart(p: ValidPlan, steps: seq<Step>, s: State, s': State)
    requires Sound(p, steps, s) && Fits(p, s) && s.stack != [] && Top(s) == Scan(|p.order|, true)
    requires s' == s.(stack := s.stack[..|s.stack| - 1] + [Scan(0, false)])
    ensures Stepped(p, steps, s, Advance, s')
  {
    hide FateOf, Plan.Validated, Ranked, Sound, Measure;
    TookAdvance(p, steps, s, s');
  }

  lemma TookFinish(p: ValidPlan, steps: seq<Step>, s: State, s': State)
    requires Sound(p, steps, s) && Fits(p, s) && s.stack != [] && Top(s) == Scan(|p.order|, false)
    requires AllFinished(p, s) && s' == Pop(s.(done := true))
    ensures Stepped(p, steps, s, Advance, s')
  {
    hide FateOf, Plan.Validated, Ranked, AllFinished, Sound, Measure, Pop;
    PopCommutes(s, {});
    TookAdvance(p, steps, s, s');
  }

  lemma TookProbe(p: ValidPlan, steps: seq<Step>, s: State, s': State)
    requires Sound(p, steps, s) && Fits(p, s) && s.stack != [] && Top(s) == Scan(|p.order|, false)
    requires !AllFinished(p, s) && s' == s.(stack := s.stack[..|s.stack| - 1] + [Probe])
    ensures Stepped(p, steps, s, Advance, s')
  {
    hide FateOf, Plan.Validated, Ranked, AllFinished, Sound, Measure;
    TookAdvance(p, steps, s, s');
  }

  lemma TookVerdict(p: ValidPlan, steps: seq<Step>, s: State, live: bool, s': State)
    requires Sound(p, steps, s) && Fits(p, s) && s.stack != [] && Top(s) == Probe
    requires live <==> Live(s)
    requires s' == Pop(if live then s else s.(done := true, guard := true))
    ensures Stepped(p, steps, s, Advance, s')
  {
    hide FateOf, Plan.Validated, Ranked, Live, Sound, Measure, Pop;
    PopCommutes(s, {});
    TookAdvance(p, steps, s, s');
  }

  lemma TookRegister(p: ValidPlan, steps: seq<Step>, s: State, i: nat, t: TaskId, s': State)
    requires Sound(p, steps, s) && Fits(p, s) && s.stack != [] && Top(s) == Attach(i, t)
    requires t in s.jobs && !Done(s, t)
    requires s' == s.(jobs := s.jobs[t := s.jobs[t].(hook := Registered)],
                          stack := s.stack[..|s.stack| - 1] + [Scan(i + 1, true)])
    ensures Stepped(p, steps, s, Advance, s')
  {
    hide FateOf, Plan.Validated, Ranked, Sound, Measure;
    TookAdvance(p, steps, s, s');
  }

  lemma TookReentry(p: ValidPlan, steps: seq<Step>, s: State, i: nat, t: TaskId, es: set<TaskId>, s': State)
    requires Sound(p, steps, s) && Fits(p, s) && s.stack != [] && Top(s) == Attach(i, t)
    requires t in s.jobs && Done(s, t) && es == if s.jobs[t].stage.raised then s.errors + {t} else s.errors
    requires s' == s.(errors := es, jobs := s.jobs[t := s.jobs[t].(hook := Entered)],
                          stack := s.stack[..|s.stack| - 1] + [Scan(i + 1, true)] + [Scan(0, false)])
    ensures Stepped(p, steps, s, Advance, s')
  {
    hide FateOf, Plan.Validated, Ranked, Sound, Measure;
    TookAdvance(p, steps, s, s');
  }

  class Scheduler {
    const plan: ValidPlan
    var status: map<TaskId, Status>
    var jobs: map<TaskId, Job>
    var errors: set<TaskId>
    var blame: map<TaskId, TaskId>
    var done: bool
    var guard: bool
    var closed: bool
    var log: seq<TaskId>              // the pool's submissions, in order
    var first: bool                   // the main thread has not left its first schedule()
    ghost var stack: seq<Frame>
    ghost var kickoff: bool
    ghost var refused: set<TaskId>
    ghost var late: set<TaskId>
    ghost var steps: seq<Step>

    ghost function Abs(): State
      reads this
    {
      State(status, jobs, errors, blame, stack, kickoff, done, guard, closed, refused, log, late)
    }

    /** The run so far is a run of the plan, and whoever holds the lock is known. */
    ghost predicate Good()
      reads this
    {
      Sound(plan, steps, Abs()) && HolderIs(Abs(), first)
    }

    lemma Here()
      requires Good()
      ensures Fits(plan, Abs()) && plan.entry.Keys == plan.deps.Keys
    {
      Known(plan, steps, Abs());
    }

    constructor (p: ValidPlan)
      ensures plan == p && Abs() == Init(p) && first && Good() && steps == []
    {
      plan := p;
      status, jobs, errors, blame := p.entry, map[], {}, map[];
      done, guard, closed, log, first := false, false, false, [], true;
      stack, kickoff, refused, late, steps := [Scan(0, false)], true, {}, {}, [];
    }

    // ---- What schedule() reads -------------------------------------------------------

    predicate IsRetryable(t: TaskId)
      requires t in status && t in plan.entry
      reads this
      ensures IsRetryable(t) <==> Retryable(plan, Abs(), t)
    {
      t !in jobs && status[t].CanBecome(Running) && (!status[t].Blocked? || plan.entry[t].Blocked?)
    }

    predicate IsInactive(t: TaskId)
      requires t in status && t in plan.entry
      reads this
      ensures IsInactive(t) <==> Inactive(plan, Abs(), t)
    {
      if t in jobs then jobs[t].stage.Resolved?
      else (status[t].IsTerminal() && !IsRetryable(t)) || t in errors
    }

    predicate IsReady(t: TaskId)
      requires Fits(plan, Abs()) && t in plan.deps
      reads this
      ensures IsReady(t) <==> Ready(plan, Abs(), t)
    {
      if t in plan.finals then forall d | d in plan.deps[t] :: IsInactive(d)
      else forall d | d in plan.deps[t] :: status[d].Succeeded?
    }

    predicate IsFinished(t: TaskId)
      requires t in status
      reads this
      ensures IsFinished(t) <==> Finished(Abs(), t)
    {
      status[t].IsTerminal() || (t in jobs && jobs[t].stage.Resolved?)
    }

    method FirstBadParent(t: TaskId) returns (bad: Option<TaskId>)
      requires Fits(plan, Abs()) && t in plan.deps
      ensures bad == FirstBad(plan, Abs(), plan.deps[t])
    {
      var ds := plan.deps[t];
      var k := 0;
      while k < |ds|
        invariant k <= |ds| && forall d :: d in ds[k..] ==> d in ds
        invariant FirstBad(plan, Abs(), ds) == FirstBad(plan, Abs(), ds[k..])
      {
        var d := ds[k];
        assert d in ds && ds[k..][0] == d && ds[k..][1..] == ds[k + 1..];
        if d in jobs && !jobs[d].stage.Resolved? {
          k := k + 1;
          continue;
        }
        if d in errors { return Some(d); }
        if status[d].IsBad() && !IsRetryable(d) { return Some(d); }
        k := k + 1;
      }
      return None;
    }

    // ---- Workers -----------------------------------------------------------------------

    function BusyTasks(): set<TaskId>
      reads this
      ensures BusyTasks() == Busy(Abs())
    {
      set t | t in jobs && !jobs[t].stage.Queued? && !(jobs[t].stage.Resolved? && !jobs[t].hook.Registered?)
    }

    /** `held` tells whether somebody is executing `schedule()`. */
    function ThreadsInUse(held: bool): nat
      reads this
      ensures HolderIs(Abs(), first) && held == (stack != []) ==> ThreadsInUse(held) == Occupied(Abs())
    {
      |BusyTasks()| + if held && !first then 1 else 0
    }

    function TasksAhead(t: TaskId): set<TaskId>
      reads this
      ensures TasksAhead(t) == Ahead(Abs(), t)
    {
      set x | x in jobs && jobs[x].stage.Queued? && Precedes(log, x, t)
    }

    predicate WorkerCanMove(t: TaskId, held: bool)
      reads this
    {
      && t in jobs && !jobs[t].stage.Resolved?
      && (jobs[t].stage.Queued? ==> ThreadsInUse(held) + |TasksAhead(t)| < plan.workers)
    }

    /** Ghost bookkeeping after every action. */
    ghost method Record(s: State, l: Step)
      requires Stepped(plan, steps, s, l, Abs())
      modifies this`steps
      ensures Sound(plan, steps, Abs()) && Measure(plan, Abs()) < Measure(plan, s) && old(steps) <= steps
    {
      hide Sound, Measure;
      steps := steps + [l];
    }

    /** A worker takes `t` one stage further: start (or fail without a handler), settle
        its status, or resolve its future. */
    method WorkerStep(t: TaskId, held: bool)
      requires Good() && held == (stack != []) && WorkerCanMove(t, held)
      modifies this`status, this`jobs, this`late, this`steps
      ensures Good() && Measure(plan, Abs()) < old(Measure(plan, Abs())) && old(steps) <= steps
      ensures jobs.Keys == old(jobs).Keys && forall x :: x in jobs ==> jobs[x].hook == old(jobs)[x].hook
    {
      hide Inv, Sound, Measure, Stepped, Reachable, Occupied, Ahead;
      Known(plan, steps, Abs());
      assert jobs[t].stage.Queued? ==> Claimed(Abs(), t) < plan.workers;
      match jobs[t].stage {
        case Queued => Begin(t);
        case Working => EndHandler(t);
        case Settled => Complete(t);
      }
    }

    method Begin(t: TaskId)
      requires Good() && Fits(plan, Abs()) && Claimed(Abs(), t) < plan.workers && t in jobs && jobs[t].stage.Queued?
      modifies this`status, this`jobs, this`late, this`steps
      ensures Good() && Measure(plan, Abs()) < old(Measure(plan, Abs())) && old(steps) <= steps
      ensures jobs.Keys == old(jobs).Keys && forall x :: x in jobs ==> jobs[x].hook == old(jobs)[x].hook
    {
      hide Good, Measure, Claimed;
      if t in plan.unhandled && status[t].Pending? { FailUnhandled(t); } else { EnterRunning(t); }
    }

    method FailUnhandled(t: TaskId)
      requires Good() && Fits(plan, Abs()) && Claimed(Abs(), t) < plan.workers && t in jobs && jobs[t].stage.Queued?
      requires t in plan.unhandled && status[t].Pending?
      modifies this`status, this`jobs, this`late, this`steps
      ensures Good() && Measure(plan, Abs()) < old(Measure(plan, Abs())) && old(steps) <= steps
      ensures jobs.Keys == old(jobs).Keys && forall x :: x in jobs ==> jobs[x].hook == old(jobs)[x].hook
    {
      hide Inv, Sound, Measure, Stepped, Reachable, Plan.Validated, Ranked, Claimed;
      ghost var s := Abs();
      status, jobs := status[t := Failed], jobs[t := jobs[t].(stage := Settled)];
      late := Marked(s, t);
      TookReject(plan, steps, s, t, Abs());
      Record(s, Reject(t));
    }

    method EnterRunning(t: TaskId)
      requires Good() && Fits(plan, Abs()) && Claimed(Abs(), t) < plan.workers && t in jobs && jobs[t].stage.Queued?
      requires !(t in plan.unhandled && status[t].Pending?)
      modifies this`status, this`jobs, this`steps
      ensures Good() && Measure(plan, Abs()) < old(Measure(plan, Abs())) && old(steps) <= steps
      ensures jobs.Keys == old(jobs).Keys && forall x :: x in jobs ==> jobs[x].hook == old(jobs)[x].hook
    {
      hide Inv, Sound, Measure, Stepped, Reachable, Plan.Validated, Ranked, Claimed;
      ghost var s := Abs();
      status, jobs := status[t := Running], jobs[t := jobs[t].(stage := Working)];
      TookStart(plan, steps, s, t, Abs());
      Record(s, Start(t));
    }

    method EndHandler(t: TaskId)
      requires Good() && Fits(plan, Abs()) && t in jobs && jobs[t].stage.Working?
      modifies this`status, this`jobs, this`late, this`steps
      ensures Good() && Measure(plan, Abs()) < old(Measure(plan, Abs())) && old(steps) <= steps
      ensures jobs.Keys == old(jobs).Keys && forall x :: x in jobs ==> jobs[x].hook == old(jobs)[x].hook
    {
      hide Inv, Sound, Measure, Stepped, Reachable, Plan.Validated, Ranked, Plan.Result, Upstream;
      ghost var s := Abs();
      DependenciesKnown(plan, s, t);
      var verdict := RunHandler(t);
      status, jobs := status[t := verdict], jobs[t := jobs[t].(stage := Settled)];
      late := Marked(s, t);
      TookSettle(plan, steps, s, t, verdict, Abs());
      Record(s, Settle(t));
    }

    /** The handler reads the statuses of its upstream tasks. */
    method RunHandler(t: TaskId) returns (verdict: Status)
      requires t in plan.deps && forall d :: d in plan.deps[t] ==> d in status
      ensures verdict == plan.Result(t, Upstream(plan, Abs(), t))
    {
      var upstream := map d | d in plan.deps[t] :: status[d];
      assert upstream == Upstream(plan, Abs(), t);
      return plan.Result(t, upstream);
    }

    method Complete(t: TaskId)
      requires Good() && Fits(plan, Abs()) && t in jobs && jobs[t].stage.Settled?
      modifies this`jobs, this`late, this`steps
      ensures Good() && Measure(plan, Abs()) < old(Measure(plan, Abs())) && old(steps) <= steps
      ensures jobs.Keys == old(jobs).Keys && forall x :: x in jobs ==> jobs[x].hook == old(jobs)[x].hook
    {
      hide Inv, Sound, Measure, Stepped, Reachable, Plan.Validated, Ranked;
      ghost var s := Abs();
      var raised := !status[t].Succeeded?;
      jobs := jobs[t := jobs[t].(stage := Resolved(raised))];
      late := Marked(s, t);
      TookResolve(plan, steps, s, t, raised, Abs());
      Record(s, Resolve(t));
    }

    /** Any number of worker steps, chosen by the environment. */
    method Interfere()
      requires Good() && stack != []
      modifies this`status, this`jobs, this`late, this`steps
      ensures Good() && Measure(plan, Abs()) <= old(Measure(plan, Abs())) && old(steps) <= steps
      ensures jobs.Keys == old(jobs).Keys && forall x :: x in jobs ==> jobs[x].hook == old(jobs)[x].hook
    {
      hide Inv, Sound, Measure;
      while *
        invariant Good() && Measure(plan, Abs()) <= old(Measure(plan, Abs())) && old(steps) <= steps
        invariant jobs.Keys == old(jobs).Keys && forall x :: x in jobs ==> jobs[x].hook == old(jobs)[x].hook
        decreases Measure(plan, Abs())
      {
        var movable := set t | t in jobs && WorkerCanMove(t, true);
        if movable == {} { return; }
        var t :| t in movable;
        WorkerStep(t, true);
      }
    }

    // ---- schedule() ----------------------------------------------------------------------

    /** `executor.mark_blocked`. */
    method MarkBlocked(t: TaskId, parent: TaskId, ghost i: nat, ghost changed: bool)
      requires Good() && Fits(plan, Abs())
      requires stack != [] && Top(Abs()) == Scan(i, changed) && i < |plan.order| && plan.order[i] == t && t in plan.deps
      requires Blocks(plan, Abs(), t) && FirstBad(plan, Abs(), plan.deps[t]) == Some(parent)
      modifies this`status, this`blame, this`stack, this`steps
      ensures Good() && Measure(plan, Abs()) < old(Measure(plan, Abs())) && old(steps) <= steps
      ensures stack == old(stack)[..|old(stack)| - 1] + [Scan(i + 1, true)]
    {
      hide Inv, Sound, Measure, Stepped, Fits, Blocks, FirstBad;
      ghost var s := Abs();
      status := status[t := Blocked];
      blame := blame[t := parent];
      stack := stack[..|stack| - 1] + [Scan(i + 1, true)];
      TookBlock(plan, steps, s, i, changed, t, parent, Abs());
      Record(s, Advance);
    }

    /** The loop passes over `t`. */
    ghost method PassOver(t: TaskId, i: nat, changed: bool)
      requires Good() && Fits(plan, Abs())
      requires stack != [] && Top(Abs()) == Scan(i, changed) && i < |plan.order| && plan.order[i] == t && t in plan.deps
      requires !CanAct(plan, Abs(), t)
      modifies this`stack, this`steps
      ensures Good() && Measure(plan, Abs()) < old(Measure(plan, Abs())) && old(steps) <= steps
      ensures stack == old(stack)[..|old(stack)| - 1] + [Scan(i + 1, changed)]
    {
      hide Inv, Sound, Measure, Stepped, Fits, CanAct;
      ghost var s := Abs();
      stack := stack[..|stack| - 1] + [Scan(i + 1, changed)];
      TookPass(plan, steps, s, i, changed, t, Abs());
      Record(s, Advance);
    }

    /** `submit`: a closed pool raises; otherwise the future is recorded and its callback
        added, which runs at once, re-entering `schedule()`, if the future is done by then. */
    method Submit(t: TaskId, ghost i: nat, ghost changed: bool) returns (raised: bool)
      requires Good() && Fits(plan, Abs())
      requires stack != [] && Top(Abs()) == Scan(i, changed) && i < |plan.order| && plan.order[i] == t && t in plan.deps
      requires Submits(plan, Abs(), t) && !Blocks(plan, Abs(), t)
      modifies this
      ensures first == old(first)
      ensures Good() && Measure(plan, Abs()) < old(Measure(plan, Abs())) && old(steps) <= steps
      ensures stack == old(stack)[..|old(stack)| - 1] + if raised then [] else [Scan(i + 1, true)]
      decreases Measure(plan, Abs()), 0
    {
      hide Inv, Sound, Measure, Stepped, Fits, Blocks, Submits, HolderIs;
      ghost var s := Abs();
      ghost var below := stack[..|stack| - 1];
      if closed {
        Refuse(t, i, changed, below);
        return true;
      }
      jobs, log := jobs[t := Job(Queued, Unregistered)], log + [t];
      Accept(s, t, i, changed, below);
      Interfere();
      AddDoneCallback(t, i, below);
      return false;
    }

    ghost method Refuse(t: TaskId, i: nat, changed: bool, below: seq<Frame>)
      requires Good() && Fits(plan, Abs())
      requires stack != [] && Top(Abs()) == Scan(i, changed) && i < |plan.order| && plan.order[i] == t && t in plan.deps
      requires Submits(plan, Abs(), t) && !Blocks(plan, Abs(), t) && closed && below == stack[..|stack| - 1]
      modifies this`stack, this`kickoff, this`refused, this`steps
      ensures Good() && Measure(plan, Abs()) < old(Measure(plan, Abs())) && old(steps) <= steps
      ensures stack == below
    {
      hide Inv, Sound, Measure, Stepped, Fits, Blocks, Submits, Pop;
      ghost var s := Abs();
      refused := refused + {t};
      Leave(below);
      TookRefusal(plan, steps, s, i, changed, t, Abs());
      Record(s, Advance);
    }

    ghost method Accept(s: State, t: TaskId, i: nat, changed: bool, below: seq<Frame>)
      requires Sound(plan, steps, s) && HolderIs(s, first) && Fits(plan, s)
      requires s.stack != [] && Top(s) == Scan(i, changed) && i < |plan.order| && plan.order[i] == t && t in plan.deps
      requires Submits(plan, s, t) && !Blocks(plan, s, t) && !s.closed && below == s.stack[..|s.stack| - 1]
      requires Abs() == s.(jobs := s.jobs[t := Job(Queued, Unregistered)], log := s.log + [t])
      modifies this`stack, this`steps
      ensures Good() && Measure(plan, Abs()) < Measure(plan, s) && old(steps) <= steps
      ensures stack == below + [Attach(i, t)]
    {
      hide Inv, Sound, Measure, Stepped, Fits, Blocks, Submits;
      stack := below + [Attach(i, t)];
      TookSubmit(plan, steps, s, i, changed, t, Abs());
      Record(s, Advance);
    }

    /** `add_done_callback`: a future that is already done runs `on_finish` on the spot. */
    method AddDoneCallback(t: TaskId, ghost i: nat, ghost below: seq<Frame>)
      requires Good() && stack == below + [Attach(i, t)] && t in jobs
      modifies this
      ensures first == old(first)
      ensures Good() && Measure(plan, Abs()) < old(Measure(plan, Abs())) && old(steps) <= steps
      ensures stack == below + [Scan(i + 1, true)]
      decreases Measure(plan, Abs()), 0
    {
      hide Inv, Sound, Measure, Stepped, Fits, Reachable;
      ghost var s := Abs();
      Known(plan, steps, s);
      if jobs[t].stage.Resolved? {
        NoteCompletion(t);
        Reenter(s, t, i, below);
        Schedule();
        assert stack == below + [Scan(i + 1, true)];
      } else {
        jobs := jobs[t := jobs[t].(hook := Registered)];
        Register(s, t, i, below);
      }
    }

    /** `on_finish` has begun: an exception of the future is recorded. */
    method NoteCompletion(t: TaskId)
      requires t in jobs && jobs[t].stage.Resolved?
      modifies this`errors, this`jobs
      ensures errors == if old(jobs)[t].stage.raised then old(errors) + {t} else old(errors)
      ensures Abs() == old(Abs()).(errors := errors, jobs := old(jobs)[t := old(jobs)[t].(hook := Entered)])
    {
      if jobs[t].stage.raised { errors := errors + {t}; }
      jobs := jobs[t := jobs[t].(hook := Entered)];
    }

    ghost method Reenter(s: State, t: TaskId, i: nat, below: seq<Frame>)
      requires Sound(plan, steps, s) && HolderIs(s, first) && Fits(plan, s)
      requires s.stack == below + [Attach(i, t)] && t in s.jobs && Done(s, t)
      requires errors == if s.jobs[t].stage.raised then s.errors + {t} else s.errors
      requires Abs() == s.(errors := errors, jobs := s.jobs[t := s.jobs[t].(hook := Entered)])
      modifies this`stack, this`steps
      ensures Good() && Measure(plan, Abs()) < Measure(plan, s) && old(steps) <= steps
      ensures stack == below + [Scan(i + 1, true)] + [Scan(0, false)]
    {
      hide Inv, Sound, Measure, Stepped, Fits, Reachable;
      assert Top(s) == Attach(i, t) && s.stack[..|s.stack| - 1] == below;
      stack := below + [Scan(i + 1, true)] + [Scan(0, false)];
      TookReentry(plan, steps, s, i, t, errors, Abs());
      Record(s, Advance);
    }

    ghost method Register(s: State, t: TaskId, i: nat, below: seq<Frame>)
      requires Sound(plan, steps, s) && HolderIs(s, first) && Fits(plan, s)
      requires s.stack == below + [Attach(i, t)] && t in s.jobs && !Done(s, t)
      requires Abs() == s.(jobs := s.jobs[t := s.jobs[t].(hook := Registered)])
      modifies this`stack, this`steps
      ensures Good() && Measure(plan, Abs()) < Measure(plan, s) && old(steps) <= steps
      ensures stack == below + [Scan(i + 1, true)]
    {
      hide Inv, Sound, Measure, Stepped, Fits, Reachable;
      assert Top(s) == Attach(i, t) && s.stack[..|s.stack| - 1] == below;
      stack := below + [Scan(i + 1, true)];
      TookRegister(plan, steps, s, i, t, Abs());
      Record(s, Advance);
    }

    /** The body of the `for` loop of `schedule()`. */
    method Visit(i: nat, changed: bool) returns (changed': bool, raised: bool)
      requires Good() && stack != [] && Top(Abs()) == Scan(i, changed) && i < |plan.order|
      modifies this
      ensures first == old(first)
      ensures Good() && Measure(plan, Abs()) < old(Measure(plan, Abs())) && old(steps) <= steps
      ensures stack == old(stack)[..|old(stack)| - 1] + if raised then [] else [Scan(i + 1, changed')]
      decreases Measure(plan, Abs()), 1
    {
      hide Good, Inv, Measure, Reachable, Plan.Validated, Ranked, Ready, FirstBad;
      var t := plan.order[i];
      Here();
      InOrder(plan, Abs(), i);
      changed', raised := changed, false;
      if t in jobs || status[t].IsSink() || (status[t].Blocked? && !plan.entry[t].Blocked?) {
        PassOver(t, i, changed);
        return;
      }
      if t !in plan.finals {
        var bad := FirstBadParent(t);
        if bad.Some? {
          if status[t].Pending? {
            MarkBlocked(t, bad.value, i, changed);
            changed' := true;
          } else {
            PassOver(t, i, changed);
          }
          return;
        }
      }
      if IsReady(t) && status[t].CanBecome(Running) {
        raised := Submit(t, i, changed);
        changed' := true;
      } else {
        PassOver(t, i, changed);
      }
    }

    /** `schedule()`: passes until nothing changes, then the completion test and the
        no-progress guard. */
    method Schedule()
      requires Good() && stack != [] && Top(Abs()) == Scan(0, false)
      modifies this
      ensures first == old(first)
      ensures Good() && Measure(plan, Abs()) < old(Measure(plan, Abs())) && old(steps) <= steps
      ensures stack == old(stack)[..|old(stack)| - 1]
      decreases Measure(plan, Abs()), 2
    {
      hide Inv, Sound, Measure, Stepped, Fits, Reachable;
      ghost var below := stack[..|stack| - 1];
      assert stack == below + [Scan(0, false)];
      var changed := true;
      while changed
        invariant Good() && first == old(first)
        invariant Measure(plan, Abs()) <= old(Measure(plan, Abs())) && old(steps) <= steps
        invariant stack == below + [Scan(if changed then 0 else |plan.order|, false)]
        decreases Measure(plan, Abs()), changed
      {
        ghost var start := Measure(plan, Abs());
        changed := false;
        var i := 0;
        while i < |plan.order|
          invariant i <= |plan.order| && Good() && first == old(first)
          invariant Measure(plan, Abs()) <= start && old(steps) <= steps
          invariant stack == below + [Scan(i, changed)]
          decreases Measure(plan, Abs())
        {
          Interfere();
          var raised: bool;
          changed, raised := Visit(i, changed);
          if raised { return; }
          i := i + 1;
        }
        if changed { StartOver(below); }
      }
      Interfere();
      Judge(below);
    }

    /** `changed` was set: another pass. */
    ghost method StartOver(below: seq<Frame>)
      requires Good() && stack == below + [Scan(|plan.order|, true)]
      modifies this`stack, this`steps
      ensures Good() && Measure(plan, Abs()) < old(Measure(plan, Abs())) && old(steps) <= steps
          && stack == below + [Scan(0, false)]
    {
      hide Inv, Sound, Measure, Stepped, Fits, Reachable;
      ghost var s := Abs();
      Known(plan, steps, s);
      assert Top(s) == Scan(|plan.order|, true) && s.stack[..|s.stack| - 1] == below;
      stack := below + [Scan(0, false)];
      TookRestart(plan, steps, s, Abs());
      Record(s, Advance);
    }

    /** `all(finished(tid) ...)`, and if not, the no-progress guard. */
    method Judge(ghost below: seq<Frame>)
      requires Good() && stack == below + [Scan(|plan.order|, false)]
      modifies this
      ensures first == old(first)
      ensures Good() && Measure(plan, Abs()) < old(Measure(plan, Abs())) && old(steps) <= steps
          && stack == below
      decreases Measure(plan, Abs()), 0
    {
      hide Inv, Sound, Measure, Stepped, Reachable, Fits, AllFinished, Pop;
      ghost var s := Abs();
      Known(plan, steps, s);
      assert Top(s) == Scan(|plan.order|, false) && s.stack[..|s.stack| - 1] == below;
      var finished := AllTasksFinished();
      if finished {
        done := true;
        LeaveFinished(s, below);
      } else {
        GoProbe(s, below);
        Interfere();
        TestLive(below);
      }
    }

    ghost method LeaveFinished(s: State, below: seq<Frame>)
      requires Sound(plan, steps, s) && HolderIs(s, first) && Fits(plan, s) && AllFinished(plan, s)
      requires s.stack == below + [Scan(|plan.order|, false)] && Abs() == s.(done := true)
      modifies this`stack, this`kickoff, this`steps
      ensures Good() && Measure(plan, Abs()) < Measure(plan, s) && old(steps) <= steps
      ensures stack == below
    {
      hide Inv, Sound, Measure, Stepped, Fits, Reachable, AllFinished, Pop;
      assert Top(s) == Scan(|plan.order|, false) && s.stack[..|s.stack| - 1] == below;
      Leave(below);
      TookFinish(plan, steps, s, Abs());
      Record(s, Advance);
    }

    ghost method GoProbe(s: State, below: seq<Frame>)
      requires Sound(plan, steps, s) && HolderIs(s, first) && Fits(plan, s) && Abs() == s && !AllFinished(plan, s)
      requires s.stack == below + [Scan(|plan.order|, false)]
      modifies this`stack, this`steps
      ensures Good() && Measure(plan, Abs()) < Measure(plan, s) && old(steps) <= steps
      ensures stack == below + [Probe]
    {
      hide Inv, Sound, Measure, Stepped, Fits, Reachable, AllFinished;
      assert Top(s) == Scan(|plan.order|, false) && s.stack[..|s.stack| - 1] == below;
      stack := below + [Probe];
      TookProbe(plan, steps, s, Abs());
      Record(s, Advance);
    }

    method AnyLive() returns (live: bool)
      ensures live <==> Live(Abs())
    {
      live := exists t | t in jobs :: !jobs[t].stage.Resolved?;
    }

    method AllTasksFinished() returns (finished: bool)
      requires Fits(plan, Abs())
      ensures finished <==> AllFinished(plan, Abs())
    {
      finished := forall t | t in plan.deps :: IsFinished(t);
    }

    /** No live future to wait for: the guard raises its error. */
    method TestLive(ghost below: seq<Frame>)
      requires Good() && stack == below + [Probe]
      modifies this`done, this`guard, this`stack, this`kickoff, this`steps
      ensures Good() && Measure(plan, Abs()) < old(Measure(plan, Abs())) && old(steps) <= steps
      ensures stack == below
    {
      hide Sound, Measure, Live;
      ghost var s := Abs();
      var live := AnyLive();
      if !live { done, guard := true, true; }
      LeaveProbe(s, live, below);
    }

    ghost method LeaveProbe(s: State, live: bool, below: seq<Frame>)
      requires Sound(plan, steps, s) && HolderIs(s, first) && s.stack == below + [Probe] && (live <==> Live(s))
      requires Abs() == if live then s else s.(done := true, guard := true)
      modifies this`stack, this`kickoff, this`steps
      ensures Good() && Measure(plan, Abs()) < Measure(plan, s) && old(steps) <= steps
      ensures stack == below
    {
      hide Inv, Sound, Measure, Stepped, Fits, Reachable, Live, Pop;
      Known(plan, steps, s);
      assert Top(s) == Probe && s.stack[..|s.stack| - 1] == below;
      Leave(below);
      TookVerdict(plan, steps, s, live, Abs());
      Record(s, Advance);
    }

    /** This activation returns. */
    ghost method Leave(below: seq<Frame>)
      requires stack != [] && stack[..|stack| - 1] == below
      modifies this`stack, this`kickoff
      ensures Abs() == Pop(old(Abs())) && stack == below && (stack != [] ==> kickoff == old(kickoff))
    {
      kickoff := if |stack| > 1 then kickoff else false;
      stack := below;
    }

    /** `on_finish`, called by a worker once it gets the lock. */
    method OnFinish(t: TaskId)
      requires Good() && !first && stack == [] && t in jobs && jobs[t].stage.Resolved?
          && jobs[t].hook.Registered?
      modifies this
      ensures first == old(first)
      ensures Good() && Measure(plan, Abs()) < old(Measure(plan, Abs())) && old(steps) <= steps
          && stack == []
    {
      hide Inv, Sound, Measure, Stepped, Fits, Reachable;
      ghost var s := Abs();
      Known(plan, steps, s);
      FreeLock(plan, s);
      NoteCompletion(t);
      EnterCallback(s, t);
      Schedule();
    }

    ghost method EnterCallback(s: State, t: TaskId)
      requires Sound(plan, steps, s) && !s.kickoff && !first && Fits(plan, s)
      requires s.stack == [] && t in s.jobs && Done(s, t) && s.jobs[t].hook.Registered?
      requires errors == if s.jobs[t].stage.raised then s.errors + {t} else s.errors
      requires Abs() == s.(errors := errors, jobs := s.jobs[t := s.jobs[t].(hook := Entered)])
      modifies this`stack, this`late, this`steps
      ensures Good() && Measure(plan, Abs()) < Measure(plan, s) && old(steps) <= steps
      ensures stack == [Scan(0, false)]
    {
      hide Inv, Sound, Measure, Stepped, Fits, Reachable;
      stack, late := [Scan(0, false)], {};
      TookCallback(plan, steps, s, t, errors, Abs());
      Record(s, Callback(t));
    }

    predicate Movable(t: TaskId)
      reads this
    {
      t in jobs && if jobs[t].stage.Resolved? then jobs[t].hook.Registered? else WorkerCanMove(t, false)
    }

    /** The run: a first `schedule()` by the main thread, then workers and the main thread
        in any order until the pool is closed and every callback has run.  It always comes
        to an end; it agrees with the evaluator exactly if no submission was rejected; and
        from a fresh entry, unless it raises the guard's error, with the simple one. */
    method Run()
      requires Good() && first && Abs() == Init(plan)
      modifies this
      ensures Good() && Quiescent(Abs()) && done && Reachable(plan, Abs())
      ensures (forall t :: t in plan.deps ==> Agrees(plan, Abs(), t)) <==> refused == {}
      ensures plan.Fresh() && !guard ==> forall t :: t in plan.deps ==> status[t] == Eval(plan, t)
    {
      hide Inv, Sound, Measure, Stepped, Plan.Validated, Ranked, Agrees, FateOf, Eval;
      assert Top(Abs()) == Scan(0, false);
      Schedule();
      first := false;
      while !closed || exists t | t in jobs :: !jobs[t].hook.Entered?
        invariant Good() && stack == [] && !first
        decreases Measure(plan, Abs())
      {
        var movable := set t | t in jobs && Movable(t);
        var early: bool := *;
        if done && !closed && (movable == {} || early) {
          ghost var s := Abs();
          closed := true;
          TookClose(plan, steps, s, Abs());
          Record(s, Close);
        } else {
          var x := MovableExists();
          assert x in movable;
          var t :| t in movable;
          if jobs[t].stage.Resolved? { OnFinish(t); } else { WorkerStep(t, false); }
        }
      }
      Known(plan, steps, Abs());
      FinalFacts(plan, Abs());
    }

    /** With the lock free and the run not over, a task can move unless only closing is left. */
    lemma MovableExists() returns (x: TaskId)
      requires Good() && stack == [] && (!closed || exists t :: t in jobs && !jobs[t].hook.Entered?)
      requires !(done && !closed && forall t :: t in jobs ==> !Movable(t))
      ensures x in jobs && Movable(x)
    {
      hide FateOf;
      Known(plan, steps, Abs());
      if y :| y in jobs && !jobs[y].hook.Entered? {
        var l := OutstandingCanMove(plan, Abs(), y);
        x := l.tid;
        if !Done(Abs(), x) { UndoneIsOwed(plan, Abs(), x); }
      } else {
        forall t | t in jobs ensures !Movable(t) { if !Done(Abs(), t) { UndoneIsOwed(plan, Abs(), t); } }
        assert false;
      }
    }
  }

  lemma FinalFacts(p: Plan, s: State)
    requires Reachable(p, s) && Inv(p, s) && Quiescent(s)
    ensures (forall t :: t in p.deps ==> Agrees(p, s, t)) <==> s.refused == {}
    ensures p.Fresh() && !s.guard ==> forall t :: t in p.deps ==> s.status[t] == Eval(p, t)
    ensures s.done
  {
    hide FateOf, Eval, Agrees;
    FinalIffNothingRefused(p, s);
    if p.Fresh() && !s.guard { FreshConfluence(p, s); }
  }
}
