/** The executor's side of the bargain that the scheduler relies on: a worker's steps on a
    submitted task have the effect of one attempt of the executor. */
module WorkerContract {
  import opened Lifecycle
  import opened Scheduling
  import Confluence
  import E = Execution
  import C = Cancellation

  /** A cancel lands at a point from which an attempt with this end is CANCELLED. */
  predicate Interrupted(end: E.HandlerEnd, at: set<E.Point>) {
    || E.BeforeEntry in at || E.AfterEntry in at || C.Early(at) || C.HitEarly(at) || E.AfterCompare in at
    || (end.Raises? && C.HitLast(at))
  }

  /** The plan says of task `t`, with these upstream statuses, what its handler and the cancels
      do: a cancelled attempt is one that aborts, any other ends as its handler does.  No plan
      can say that a task without handler is cancelled during its attempt. */
  predicate Plays(p: Plan, t: TaskId, upstream: map<TaskId, Status>, h: E.Handler, at: set<E.Point>) {
    match h
    case Missing(_) => t in p.unhandled && E.BeforeEntry !in at && E.AfterEntry !in at && !C.Late(at)
    case Present(end) =>
      && t !in p.unhandled
      && if Interrupted(end, at) then p.handler(t, upstream).Aborted?
         else match end
           case Returns(_) => p.handler(t, upstream).Returned?
           case Raises(_) => p.handler(t, upstream).Raised?
           case Aborts(_) => p.handler(t, upstream).Aborted?
  }

  /** Then the status the plan gives is the one the attempt ends with. */
  lemma PlayedStatus(p: Plan, t: TaskId, upstream: map<TaskId, Status>, h: E.Handler, at: set<E.Point>)
    requires Plays(p, t, upstream, h, at)
    ensures p.Result(t, upstream) == C.AttemptStatus(h, at)
  {
  }

  /** The steps a worker takes: a task that has no handler and is PENDING is rejected, any other
      is started and settled; then the future is resolved. */
  function WorkerSteps(p: Plan, s: State, t: TaskId): seq<Step>
    requires t in s.status
  {
    if t in p.unhandled && s.status[t].Pending? then [Reject(t), Resolve(t)] else [Start(t), Settle(t), Resolve(t)]
  }

  /** `s'` is `s` after the attempt: the task's status is the attempt's, its future is done and
      has raised exactly when the attempt did, and no other task or future has changed. */
  ghost predicate HasAttempted(s: State, t: TaskId, e: E.Ended, s': State) {
    && s'.status == s.status[t := e.world.task.status]
    && t in s.jobs && s'.jobs == s.jobs[t := Job(Resolved(!e.outcome.Value?), s.jobs[t].hook)]
  }

  lemma RejectedIsAttempt(p: Plan, s: State, t: TaskId, w: E.World, h: E.Handler, at: set<E.Point>)
    requires CanStep(p, s, Reject(t)) && w.task.status == s.status[t]
    requires C.AttemptStatus(h, at) == p.Result(t, Upstream(p, s, t))
    ensures var s1 := Next(p, s, Reject(t));
            CanStep(p, s1, Resolve(t)) && HasAttempted(s, t, E.Attempt(w, h, at), Next(p, s1, Resolve(t)))
  {
    hide FateOf, E.Attempt, Ranked, Claimed, Marked;
    C.AttemptKeepsContract(w, h, at);
  }

  lemma SettledAndResolved(p: Plan, s: State, t: TaskId, v: Status)
    requires CanStep(p, s, Settle(t)) && p.Result(t, Upstream(p, s, t)) == v
    ensures var s1 := Next(p, s, Settle(t));
            CanStep(p, s1, Resolve(t)) &&
            var s2 := Next(p, s1, Resolve(t));
            && s2.status == s.status[t := v]
            && s2.jobs == s.jobs[t := Job(Resolved(!v.Succeeded?), s.jobs[t].hook)]
  {
    hide FateOf, Upstream, Claimed, Marked, Plan.Validated, Ranked, Plan.Result;
  }

  lemma StartedOnly(p: Plan, s: State, t: TaskId)
    requires CanStep(p, s, Start(t))
    ensures var s1 := Next(p, s, Start(t));
            && CanStep(p, s1, Settle(t)) && t in s.jobs && t in s1.jobs
            && s1.status == s.status[t := Running] && s1.jobs == s.jobs[t := s.jobs[t].(stage := Working)]
  {
    hide FateOf, Claimed, Plan.Validated, Ranked;
  }

  lemma StartedIsAttempt(p: Plan, s: State, t: TaskId, w: E.World, h: E.Handler, at: set<E.Point>)
    requires CanStep(p, s, Start(t)) && w.task.status == s.status[t] && s.status[t].CanBecome(Running)
    requires C.AttemptStatus(h, at) == p.Result(t, Upstream(p, s, t))
    ensures var s1 := Next(p, s, Start(t));
            CanStep(p, s1, Settle(t)) &&
            var s2 := Next(p, s1, Settle(t));
            CanStep(p, s2, Resolve(t)) && HasAttempted(s, t, E.Attempt(w, h, at), Next(p, s2, Resolve(t)))
  {
    hide FateOf, E.Attempt, C.AttemptStatus, Scheduling.Next, CanStep, Fits, Upstream, Plan.Result;
    UpstreamStays(p, s, t);
    StartedOnly(p, s, t);
    SettledAndResolved(p, Next(p, s, Start(t)), t, C.AttemptStatus(h, at));
    C.AttemptKeepsContract(w, h, at);
  }

  /** No task is upstream of itself. */
  lemma UpstreamStays(p: Plan, s: State, t: TaskId)
    requires CanStep(p, s, Start(t))
    ensures var s1 := Next(p, s, Start(t)); Fits(p, s1) && Upstream(p, s1, t) == Upstream(p, s, t)
    ensures forall d :: d in p.deps[t] ==> d in s.status && d in Next(p, s, Start(t)).status
  {
    hide FateOf, Claimed;
    var s1 := Next(p, s, Start(t));
    forall d | d in p.deps[t] ensures d in s.status && s1.status[d] == s.status[d] { assert p.rank[d] < p.rank[t]; }
  }

  /** Once a worker has a free thread for a queued task, its steps can be taken one after the
      other and have the effect of one attempt, provided that the plan says of the task
      what its handler and the cancels do. */
  lemma WorkerStepsAreAnAttempt(p: Plan, s: State, t: TaskId, w: E.World, h: E.Handler, at: set<E.Point>)
    returns (s': State)
    requires Reachable(p, s) && t in s.jobs && s.jobs[t].stage.Queued? && Claimed(s, t) < p.workers
    requires t in s.status && w.task.status == s.status[t]
    requires Plays(p, t, Upstream(p, s, t), h, at)
    ensures Follows(p, s, WorkerSteps(p, s, t), s') && HasAttempted(s, t, E.Attempt(w, h, at), s')
  {
    hide FateOf, E.Attempt, HasAttempted, Scheduling.Next, Claimed, Upstream;
    PlayedStatus(p, t, Upstream(p, s, t), h, at);
    Confluence.SubmittedOnceAndStartable(p, s);
    if t in p.unhandled && s.status[t].Pending? {
      assert CanStep(p, s, Reject(t));
      RejectedIsAttempt(p, s, t, w, h, at);
      s' := Next(p, Next(p, s, Reject(t)), Resolve(t));
      TwoSteps(p, s, Reject(t), Resolve(t));
    } else {
      assert CanStep(p, s, Start(t));
      StartedIsAttempt(p, s, t, w, h, at);
      var s1 := Next(p, s, Start(t));
      s' := Next(p, Next(p, s1, Settle(t)), Resolve(t));
      TwoSteps(p, s1, Settle(t), Resolve(t));
      assert [Start(t), Settle(t), Resolve(t)][1..] == [Settle(t), Resolve(t)];
    }
  }

  lemma TwoSteps(p: Plan, s: State, a: Step, b: Step)
    requires CanStep(p, s, a) && CanStep(p, Next(p, s, a), b)
    ensures Follows(p, s, [a, b], Next(p, Next(p, s, a), b))
  {
    hide FateOf, CanStep, Scheduling.Next;
    var s1 := Next(p, s, a);
    assert [a, b][1..] == [b] && [b][1..] == [];
    assert Follows(p, Next(p, s1, b), [], Next(p, s1, b));
    assert Follows(p, s1, [b], Next(p, s1, b));
  }
}
