/** What every run of a graph comes to, whatever the interleaving and insertion order. */
module Confluence {
  import opened Lifecycle
  import opened Scheduling
  import opened Safety
  import opened Control

  // ---- Safety over whole runs ------------------------------------------------------

  /** Whatever is inactive at some point keeps its status to the end of the run. */
  lemma {:induction false} InactiveIsStable(p: Plan, s: State, ls: seq<Step>, s': State, d: TaskId)
    requires Inv(p, s) && Follows(p, s, ls, s') && d in p.deps
    ensures Inv(p, s')
    ensures Inactive(p, s, d) ==> Inactive(p, s', d) && s'.status[d] == s.status[d]
    ensures s.status[d].Succeeded? ==> s'.status[d].Succeeded?
    decreases |ls|
  {
    hide FateOf;
    if ls != [] {
      StepKeeps(p, s, ls[0]);
      assert Persists(p, s, Next(p, s, ls[0]), d);
      InactiveIsStable(p, Next(p, s, ls[0]), ls[1..], s', d);
    }
  }

  /** From its submission on, a task sees the statuses its dependencies end the run with;
      for an ordinary task they are all SUCCEEDED. */
  lemma SubmittedSeesFinalStatuses(p: Plan, s: State, ls: seq<Step>, s': State, t: TaskId, d: TaskId)
    requires Reachable(p, s) && Follows(p, s, ls, s') && t in s.jobs && t in p.deps && d in p.deps[t]
    ensures d in s.status && d in s'.status && s'.status[d] == s.status[d]
    ensures t !in p.finals ==> s'.status[d].Succeeded?
  {
    ReachableInv(p, s);
    assert TaskInv(p, s, t);
    InactiveIsStable(p, s, ls, s', d);
  }

  /** The status of `t` is what its handler's end means, given the statuses upstream. */
  ghost predicate AsHandled(p: Plan, status: map<TaskId, Status>, t: TaskId) {
    t in status && t in p.deps && (forall d :: d in p.deps[t] ==> d in status) &&
    var s, upstream := status[t], map d | d in p.deps[t] :: status[d];
    && (s.Succeeded? <==> t !in p.unhandled && p.handler(t, upstream).Returned?)
    && (s.Failed? <==> t in p.unhandled || p.handler(t, upstream).Raised?)
    && (s.Cancelled? <==> t !in p.unhandled && p.handler(t, upstream).Aborted?)
  }

  /** A finished future's task has the status that its handler's end means: SUCCEEDED after a
      return, FAILED after an error or for want of a handler, CANCELLED after `TaskCancelled`;
      and the handler saw the statuses with which its dependencies end the run. */
  lemma HandlerDecides(p: Plan, s: State, t: TaskId)
    requires Reachable(p, s) && t in s.jobs && Done(s, t)
    ensures AsHandled(p, s.status, t)
  {
    ReachableInv(p, s);
    UpstreamIsFinal(p, s, t);
    assert TaskInv(p, s, t);
    assert Upstream(p, s, t) == map d | d in p.deps[t] :: s.status[d];
  }

  /** After a finished run that holds of every task that was submitted. */
  lemma FinishedAsHandled(p: Plan, s: State)
    requires Reachable(p, s) && Quiescent(s)
    ensures forall t :: t in s.jobs ==> AsHandled(p, s.status, t)
  {
    hide FateOf, AsHandled;
    ReachableInv(p, s);
    QuiescentFixpoint(p, s);
    forall t | t in s.jobs ensures AsHandled(p, s.status, t) { HandlerDecides(p, s, t); }
  }

  /** Each task is submitted at most once, and its worker finds a startable status. */
  lemma SubmittedOnceAndStartable(p: Plan, s: State)
    requires Reachable(p, s)
    ensures forall i, j :: 0 <= i < j < |s.log| ==> s.log[i] != s.log[j]
    ensures forall t :: t in s.log <==> t in s.jobs
    ensures forall t :: t in s.jobs && s.jobs[t].stage.Queued? ==>
              t in s.status && s.status[t].CanBecome(Running)
  {
    ReachableInv(p, s);
    forall t | t in s.jobs && s.jobs[t].stage.Queued?
      ensures t in s.status && s.status[t].CanBecome(Running)
    {
      assert TaskInv(p, s, t);
    }
  }

  /** `path` climbs from `path[0]` along dependencies without passing through a finally task. */
  ghost predicate OrdinaryPath(p: Plan, path: seq<TaskId>) {
    && |path| > 0 && path[0] in p.deps
    && (forall k :: 0 <= k < |path| - 1 ==> path[k] in p.deps && path[k] !in p.finals)
    && (forall k :: 0 <= k < |path| - 1 ==> path[k + 1] in p.deps[path[k]])
  }

  /** From an all-PENDING entry, a submitted task's ancestors have all succeeded, up to
      and including the first finally task on each path. */
  lemma {:induction false} AncestorsSucceeded(p: Plan, s: State, path: seq<TaskId>)
    requires Reachable(p, s) && (forall t :: t in p.deps ==> p.entry[t].Pending?)
    requires OrdinaryPath(p, path) && path[0] in s.jobs && |path| > 1
    ensures path[|path| - 1] in s.status && s.status[path[|path| - 1]].Succeeded?
    decreases |path|
  {
    hide FateOf;
    ReachableInv(p, s);
    var t, d := path[0], path[1];
    assert TaskInv(p, s, t);
    assert d in p.deps[path[0]] && s.status[d].Succeeded?;
    assert TaskInv(p, s, d);
    if |path| > 2 {
      var rest := path[1..];
      forall k | 0 <= k < |rest| - 1
        ensures rest[k] in p.deps && rest[k] !in p.finals && rest[k + 1] in p.deps[rest[k]]
      {
        assert rest[k] == path[k + 1] && rest[k + 1] == path[k + 2];
      }
      AncestorsSucceeded(p, s, rest);
    }
  }

  // ---- Blame -------------------------------------------------------------------------

  /** One link of the chain: a direct dependency that is final and bad, and that is
      itself on the chain when it is BLOCKED. */
  lemma BlameLink(p: Plan, s: State, t: TaskId)
    requires Reachable(p, s) && t in p.deps && BlockedNow(p, s, t)
    ensures t in s.blame && s.blame[t] in p.deps[t] && s.blame[t] in p.deps
    ensures p.rank[s.blame[t]] < p.rank[t]
    ensures Inactive(p, s, s.blame[t]) && s.status[s.blame[t]].IsBad()
    ensures s.status[s.blame[t]].Blocked? ==> BlockedNow(p, s, s.blame[t])
  {
    ReachableInv(p, s);
    assert TaskInv(p, s, t) && TaskInv(p, s, s.blame[t]);
  }

  /** `path` follows `blocked_by` along direct dependencies, through tasks that this run has
      blocked, to a task that is FAILED or CANCELLED. */
  ghost predicate BlameChain(p: Plan, s: State, path: seq<TaskId>) {
    && |path| > 1
    && (forall k {:trigger path[k]} :: 0 <= k < |path| - 1 ==>
          && path[k] in p.deps && path[k] in s.status && path[k] in p.entry && BlockedNow(p, s, path[k])
          && path[k] in s.blame && s.blame[path[k]] == path[k + 1] && path[k + 1] in p.deps[path[k]])
    && path[|path| - 1] in s.status && s.status[path[|path| - 1]] in {Failed, Cancelled}
  }

  /** From every task blocked in this run such a chain leads to its root cause. */
  lemma {:induction false} RootCause(p: Plan, s: State, t: TaskId) returns (path: seq<TaskId>)
    requires Reachable(p, s) && t in p.deps && BlockedNow(p, s, t)
    ensures BlameChain(p, s, path) && path[0] == t
    decreases p.rank[t]
  {
    hide FateOf, Follows;
    BlameLink(p, s, t);
    var b := s.blame[t];
    if s.status[b].Blocked? {
      var rest := RootCause(p, s, b);
      path := [t] + rest;
      assert forall k :: 0 < k < |path| ==> path[k] == rest[k - 1];
    } else {
      path := [t, b];
    }
  }

  // ---- Confluence ----------------------------------------------------------------------

  /** The run agrees with the evaluator on `t`. */
  ghost predicate Agrees(p: Plan, s: State, t: TaskId)
    requires Fits(p, s) && t in p.deps
  {
    s.status[t] == FateOf(p, t).status && (t in s.jobs <==> FateOf(p, t).ran)
  }

  /** Nothing can act and nothing is outstanding: every task has met its fate. */
  lemma {:induction false} FixpointIsFate(p: Plan, s: State, t: TaskId)
    requires Safe(p, s) && t in p.deps
    requires forall x :: x in s.jobs ==> Done(s, x)
    requires forall x {:trigger CanAct(p, s, x)} :: x in p.deps ==> !CanAct(p, s, x)
    ensures Agrees(p, s, t)
    decreases p.rank[t]
  {
    assert TaskInv(p, s, t) && !CanAct(p, s, t);
    forall d | d in p.deps[t]
      ensures Agrees(p, s, d) && (Inactive(p, s, d) <==> Settles(p, d, FateOf(p, d)))
    {
      FixpointIsFate(p, s, d);
      assert TaskInv(p, s, d);
    }
    if t !in s.jobs && !p.entry[t].IsSink() && t !in s.blame {
      assert !Skipped(p, s, t);
      if FateOf(p, t).ran {
        assert Ready(p, s, t);
        forall d | d in p.deps[t] && t !in p.finals ensures !BadParent(p, s, d) {
          assert TaskInv(p, s, d);
        }
      } else if FateOf(p, t).status.Blocked? && p.entry[t].Pending? {
        var d :| d in p.deps[t] && Settles(p, d, FateOf(p, d)) && FateOf(p, d).status.IsBad();
        assert BadParent(p, s, d);
      }
    }
  }

  lemma QuiescentFixpoint(p: Plan, s: State)
    requires Inv(p, s) && Quiescent(s)
    ensures forall x :: x in s.jobs ==> Done(s, x)
    ensures s.refused == {} ==> forall x {:trigger CanAct(p, s, x)} :: x in p.deps ==> !CanAct(p, s, x)
  {
    hide FateOf;
    forall x | x in s.jobs ensures Done(s, x) { assert TaskInv(p, s, x); }
  }

  /** Confluence, for every entry and every interleaving: a finished run agrees with the
      recursive evaluator on every task if and only if the closed pool never had to
      reject a submission. */
  lemma ConfluenceIffNothingRefused(p: Plan, s: State)
    requires Reachable(p, s) && Quiescent(s)
    ensures (forall t :: t in p.deps ==> Agrees(p, s, t)) <==> s.refused == {}
  {
    ReachableInv(p, s);
    FinalIffNothingRefused(p, s);
  }

  lemma FinalIffNothingRefused(p: Plan, s: State)
    requires Inv(p, s) && Quiescent(s)
    ensures (forall t :: t in p.deps ==> Agrees(p, s, t)) <==> s.refused == {}
  {
    QuiescentFixpoint(p, s);
    if s.refused == {} {
      forall t | t in p.deps ensures Agrees(p, s, t) { FixpointIsFate(p, s, t); }
    } else {
      var t :| t in s.refused;
      assert !Agrees(p, s, t);
    }
  }

  // ---- Fresh entries ---------------------------------------------------------------------

  /** The evaluator for fresh entries: a sink keeps its status, a finally task gets its
      handler's verdict, any other task gets it only if all its dependencies succeed. */
  ghost function Eval(p: Plan, t: TaskId): Status
    requires p.Validated() && t in p.deps
    decreases p.rank[t]
  {
    var ds := p.deps[t];
    if p.entry[t].IsSink() then p.entry[t]
    else if t in p.finals || forall d :: d in ds ==> Eval(p, d).Succeeded?
    then p.Result(t, map d | d in ds :: Eval(p, d))
    else Blocked
  }

  lemma {:induction false} FreshFate(p: Plan, t: TaskId)
    requires p.Validated() && p.Fresh() && t in p.deps
    ensures FreshFateAt(p, t)
    decreases p.rank[t]
  {
    hide Plan.Fresh, FreshFateAt;
    forall d | d in p.deps[t] ensures FreshFateAt(p, d) { FreshFate(p, d); }
    if p.entry[t].IsSink() || t in p.finals || forall d :: d in p.deps[t] ==> Eval(p, d).Succeeded? {
      FreshRuns(p, t);
    } else {
      FreshBlocks(p, t);
    }
  }

  /** What `FreshFate` establishes: the two evaluators agree, and on a final status. */
  ghost predicate FreshFateAt(p: Plan, t: TaskId)
    requires p.Validated() && t in p.deps
  {
    && FateOf(p, t).status == Eval(p, t) && Settles(p, t, FateOf(p, t))
    && Eval(p, t) in {Succeeded, Failed, Cancelled, Blocked}
  }

  lemma FreshRuns(p: Plan, t: TaskId)
    requires p.Validated() && t in p.deps
    requires forall d {:trigger FreshFateAt(p, d)} {:trigger d in p.deps[t]} :: d in p.deps[t] ==> FreshFateAt(p, d)
    requires p.entry[t].IsSink() || t in p.finals || forall d :: d in p.deps[t] ==> Eval(p, d).Succeeded?
    ensures FreshFateAt(p, t)
  {
    if !p.entry[t].IsSink() {
      forall d | d in p.deps[t] ensures Eval(p, d) == FateOf(p, d).status && Settles(p, d, FateOf(p, d)) {
        assert FreshFateAt(p, d);
      }
      var up := map d | d in p.deps[t] :: Eval(p, d);
      var up' := map d | d in p.deps[t] :: FateOf(p, d).status;
      assert up == up';
      assert Eval(p, t) == p.Result(t, up);
      assert FateOf(p, t) == Fate(p.Result(t, up'), true);
    }
  }

  lemma FreshBlocks(p: Plan, t: TaskId)
    requires p.Validated() && p.Fresh() && t in p.deps
    requires forall d {:trigger FreshFateAt(p, d)} {:trigger d in p.deps[t]} :: d in p.deps[t] ==> FreshFateAt(p, d)
    requires !p.entry[t].IsSink() && t !in p.finals && !(forall d :: d in p.deps[t] ==> Eval(p, d).Succeeded?)
    ensures FreshFateAt(p, t)
  {
    var d :| d in p.deps[t] && !Eval(p, d).Succeeded?;
    assert FreshFateAt(p, d);
    assert Settles(p, d, FateOf(p, d)) && FateOf(p, d).status.IsBad();
    assert FateOf(p, t) == Fate(Blocked, false);
  }

  lemma FreshFinal(p: Plan, s: State)
    requires Inv(p, s) && Quiescent(s) && p.Fresh()
    ensures (forall t :: t in p.deps ==> s.status[t] == Eval(p, t)) <==> s.refused == {}
  {
    FinalIffNothingRefused(p, s);
    forall t | t in p.deps ensures FateOf(p, t).status == Eval(p, t) { FreshFate(p, t); }
    if s.refused == {} {
      forall t | t in p.deps ensures s.status[t] == Eval(p, t) { assert Agrees(p, s, t); }
    } else {
      var t :| t in s.refused;
      assert TaskInv(p, s, t);
      FreshFate(p, t);
      assert s.status[t].Pending?;
    }
  }

  /** From a fresh entry, `done` without the guard means every task is terminal, so the
      pool cannot reject anything. */
  ghost predicate FreshInv(p: Plan, s: State)
    requires Fits(p, s)
  {
    p.Fresh() && s.done && !s.guard ==>
      s.refused == {} && forall t {:trigger s.status[t]} :: t in p.deps && t in s.status ==> s.status[t].IsTerminal()
  }

  lemma TerminalFreshIsIdle(p: Plan, s: State, t: TaskId)
    requires Inv(p, s) && p.Fresh() && t in p.deps && s.status[t].IsTerminal()
    ensures Skipped(p, s, t)
    ensures t in s.jobs ==> s.jobs[t].stage.Settled? || s.jobs[t].stage.Resolved?
  {
    assert TaskInv(p, s, t);
  }

  /** `s'` differs from `s` only in the lock holder's position, flags and callbacks. */
  ghost predicate OnlyControl(s: State, s': State) {
    && s'.status == s.status && s'.refused == s.refused && s'.closed == s.closed
    && s'.jobs.Keys == s.jobs.Keys
    && forall x :: x in s.jobs ==> s'.jobs[x].stage == s.jobs[x].stage
  }

  lemma RetopOnlyControl(s: State, f: Frame)
    requires s.stack != []
    ensures OnlyControl(s, Retop(s, f))
  {
  }

  lemma PopOnlyControl(s: State)
    requires s.stack != []
    ensures OnlyControl(s, Pop(s))
    ensures OnlyControl(s, Pop(s).(done := true)) && OnlyControl(s, Pop(s).(done := true, guard := true))
  {
    hide Pop;
    PopFields(s);
  }

  lemma HookOnlyControl(s: State, t: TaskId, h: Hook)
    requires t in s.jobs
    ensures OnlyControl(s, s.(jobs := s.jobs[t := s.jobs[t].(hook := h)]))
  {
  }

  lemma OnFinishOnlyControl(s: State, t: TaskId)
    requires t in s.jobs && Done(s, t)
    ensures OnlyControl(s, OnFinish(s, t))
  {
    HookOnlyControl(s, t, Entered);
  }

  lemma OnlyControlTrans(s: State, s1: State, s': State)
    requires OnlyControl(s, s1) && OnlyControl(s1, s')
    ensures OnlyControl(s, s')
  {
  }

  lemma AttachOnlyControl(s: State, i: nat, t: TaskId)
    requires s.stack != [] && t in s.jobs
    ensures OnlyControl(s, AttachHook(s, i, t))
  {
    hide OnlyControl, OnFinish;
    var s1 := Retop(s, Scan(i + 1, true));
    RetopOnlyControl(s, Scan(i + 1, true));
    if Done(s, t) { OnFinishOnlyControl(s1, t); } else { HookOnlyControl(s1, t, Registered); }
    OnlyControlTrans(s, s1, AttachHook(s, i, t));
  }

  /** With nothing to act on, the lock holder only moves through its passes. */
  lemma IdleAdvance(p: Plan, s: State)
    requires Fits(p, s) && s.stack != [] && (Top(s).Scan? && Top(s).i < |p.order| ==> p.order[Top(s).i] in p.deps)
    requires forall x {:trigger CanAct(p, s, x)} :: x in p.deps ==> !CanAct(p, s, x)
    ensures OnlyControl(s, Advanced(p, s))
  {
    hide FateOf, Plan.Validated, Ranked, Skipped, Ready, FirstBad, AllFinished, Live, OnlyControl, AttachHook, Pop,
        Retop;
    match Top(s)
    case Scan(i, changed) =>
      if i < |p.order| {
        assert !CanAct(p, s, p.order[i]);
        RetopOnlyControl(s, Scan(i + 1, changed));
      } else {
        RetopOnlyControl(s, Scan(0, false));
        RetopOnlyControl(s, Probe);
        PopOnlyControl(s);
      }
    case Attach(i, t) => AttachOnlyControl(s, i, t);
    case Probe => PopOnlyControl(s);
  }

  /** Once every task is terminal, steps change no status and submit nothing. */
  lemma FreshDoneStep(p: Plan, s: State, l: Step)
    requires Inv(p, s) && p.Fresh() && CanStep(p, s, l)
    requires forall t {:trigger s.status[t]} :: t in p.deps && t in s.status ==> s.status[t].IsTerminal()
    ensures Next(p, s, l).status == s.status && Next(p, s, l).refused == s.refused
  {
    hide FateOf, Ranked, TaskInv, Ready, Inactive, BadParent, StackInv, ExitInv, RefusedInv, Visit, AttachHook;
    forall t | t in p.deps
      ensures Skipped(p, s, t)
      ensures t in s.jobs ==> s.jobs[t].stage.Settled? || s.jobs[t].stage.Resolved?
    {
      assert s.status[t].IsTerminal();
      TerminalFreshIsIdle(p, s, t);
    }
    match l
    case Advance =>
      if Top(s).Scan? && Top(s).i < |p.order| { assert p.order[Top(s).i] in p.order; }
      IdleAdvance(p, s);
    case Resolve(t) => assert s.status[t := s.status[t]] == s.status;
    case Close =>
    case Callback(t) =>
    case _ => assert false;
  }

  /** How `done` comes to be set: all tasks finished, or the guard found nothing live. */
  lemma HowDone(p: Plan, s: State, l: Step)
    requires CanStep(p, s, l) && ((!s.done && Next(p, s, l).done) || (!s.guard && Next(p, s, l).guard))
    requires s.guard ==> s.done
    ensures l.Advance? && OnlyControl(s, Next(p, s, l))
    ensures if Next(p, s, l).guard && !s.guard then Top(s).Probe? && !Live(s)
            else Top(s).Scan? && Top(s).i >= |p.order| && !Top(s).changed && AllFinished(p, s)
  {
    hide FateOf, Plan.Validated, Ranked, Visit, Live, AllFinished, OnlyControl, Retop, Pop, AttachHook;
    if l.Advance? {
      PopOnlyControl(s);
      StackFlags(s, Scan(0, false));
      StackFlags(s, Probe);
      if Top(s).Attach? { AttachFlags(s, Top(s).i, Top(s).tid); }
      if Top(s).Scan? && Top(s).i < |p.order| { InOrder(p, s, Top(s).i); VisitFlags(p, s, Top(s).i, Top(s).changed); }
    }
  }

  lemma FreshStep(p: Plan, s: State, l: Step)
    requires Inv(p, s) && FreshInv(p, s) && CanStep(p, s, l)
    ensures Inv(p, Next(p, s, l)) && FreshInv(p, Next(p, s, l))
  {
    hide FateOf, Ranked, TaskInv, Ready, Inactive, BadParent, StackInv, ExitInv, RefusedInv, Advanced;
    StepKeeps(p, s, l);
    var s' := Next(p, s, l);
    if p.Fresh() && s'.done && !s'.guard {
      if s.done {
        FlagsStay(p, s, l);
        FreshDoneStep(p, s, l);
      } else {
        HowDone(p, s, l);
        NothingRefusedBeforeDone(p, s);
        forall t | t in p.deps ensures s.status[t].IsTerminal() {
          assert Finished(s, t);
          if t in s.jobs && Done(s, t) { DoneIsTerminal(p, s, t); }
        }
      }
    }
  }

  /** Moving within or out of an activation leaves the flags alone. */
  lemma StackFlags(s: State, f: Frame)
    requires s.stack != []
    ensures Retop(s, f).done == s.done && Retop(s, f).guard == s.guard
    ensures Pop(s).done == s.done && Pop(s).guard == s.guard
  {
  }

  lemma VisitFlags(p: Plan, s: State, i: nat, changed: bool)
    requires Fits(p, s) && s.stack != [] && i < |p.order| && p.order[i] in p.deps
    ensures Visit(p, s, i, changed).done == s.done && Visit(p, s, i, changed).guard == s.guard
  {
    hide FateOf, Plan.Validated, Ranked, Blocks, Submits, FirstBad, Retop, Pop;
    StackFlags(s, Scan(i + 1, true));
    StackFlags(s, Scan(i + 1, changed));
    StackFlags(s, Attach(i, p.order[i]));
  }

  lemma AttachFlags(s: State, i: nat, t: TaskId)
    requires s.stack != [] && t in s.jobs
    ensures AttachHook(s, i, t).done == s.done && AttachHook(s, i, t).guard == s.guard
  {
    hide Retop;
    StackFlags(s, Scan(i + 1, true));
  }

  lemma FlagsStay(p: Plan, s: State, l: Step)
    requires CanStep(p, s, l)
    ensures (s.done ==> Next(p, s, l).done) && (s.guard ==> Next(p, s, l).guard)
  {
    hide FateOf, Plan.Validated, Ranked, Visit, Live, AllFinished, Inactive, Claimed, Upstream, Marked, Retop, Pop,
        AttachHook;
    match l
    case Advance =>
      StackFlags(s, Scan(0, false));
      StackFlags(s, Probe);
      match Top(s) {
        case Scan(i, changed) => if i < |p.order| { InOrder(p, s, i); VisitFlags(p, s, i, changed); }
        case Attach(i, t) => AttachFlags(s, i, t);
        case Probe =>
      }
    case _ =>
  }

  lemma NothingRefusedBeforeDone(p: Plan, s: State)
    requires Inv(p, s) && !s.done
    ensures s.refused == {}
  {
    hide FateOf;
  }

  lemma DoneIsTerminal(p: Plan, s: State, t: TaskId)
    requires Safe(p, s) && t in s.jobs && Done(s, t)
    ensures t in s.status && s.status[t] in {Succeeded, Failed, Cancelled}
  {
    hide FateOf;
    assert TaskInv(p, s, t);
  }

  lemma {:induction false} FreshRun(p: Plan, s: State, ls: seq<Step>, s': State)
    requires Inv(p, s) && FreshInv(p, s) && Follows(p, s, ls, s')
    ensures Inv(p, s') && FreshInv(p, s')
    decreases |ls|
  {
    hide FateOf;
    if ls != [] {
      FreshStep(p, s, ls[0]);
      FreshRun(p, Next(p, s, ls[0]), ls[1..], s');
    }
  }

  /** Confluence from a fresh entry: unless the no-progress guard fired, every
      interleaving ends with exactly the statuses of the recursive evaluator. */
  lemma FreshConfluence(p: Plan, s: State)
    requires Reachable(p, s) && Quiescent(s) && p.Fresh()
    ensures (forall t :: t in p.deps ==> s.status[t] == Eval(p, t)) <==> s.refused == {}
    ensures !s.guard ==> s.refused == {}
  {
    hide FateOf;
    ReachableInv(p, s);
    FreshFinal(p, s);
    var ls :| Follows(p, Init(p), ls, s);
    InitInv(p);
    FreshRun(p, Init(p), ls, s);
  }
}
