/** Per-task invariants of a run: what every step keeps, for every entry. */
module Safety {
  import opened Lifecycle
  import opened Scheduling

  /** The dependencies a submitted task relies on are final. */
  ghost predicate Grounded(p: Plan, s: State, t: TaskId)
    requires Fits(p, s) && t in p.deps
  {
    if t in p.finals then forall d :: d in p.deps[t] ==> Inactive(p, s, d)
    else forall d :: d in p.deps[t] ==> s.status[d].Succeeded?
  }

  /** A submitted task. */
  ghost predicate JobInv(p: Plan, s: State, t: TaskId)
    requires Fits(p, s) && t in p.deps && t in s.jobs
  {
    var job := s.jobs[t];
    && p.entry[t].CanBecome(Running)
    && Grounded(p, s, t)
    && FateOf(p, t).ran
    && t !in s.blame
    && (job.stage.Queued? ==> s.status[t] == p.entry[t])
    && (job.stage.Working? ==> s.status[t].Running?)
    && (job.stage.Settled? || job.stage.Resolved? ==>
          s.status[t] in {Succeeded, Failed, Cancelled} && s.status[t] == FateOf(p, t).status)
    && (job.stage.Resolved? ==> job.stage.raised == !s.status[t].Succeeded?)
    && (job.hook.Entered? ==> job.stage.Resolved?)
    && (t in s.errors <==> job.hook.Entered? && !s.status[t].Succeeded?)
  }

  /** A task not submitted so far. */
  ghost predicate IdleInv(p: Plan, s: State, t: TaskId)
    requires Fits(p, s) && t in p.deps && t !in s.jobs
  {
    && t !in s.errors
    && (t !in s.blame ==> s.status[t] == p.entry[t])
    && (t in s.blame ==>
          && p.entry[t].Pending? && s.status[t].Blocked? && t !in p.finals
          && FateOf(p, t) == Fate(Blocked, false)
          && s.blame[t] in p.deps[t]
          && Inactive(p, s, s.blame[t]) && s.status[s.blame[t]].IsBad())
  }

  ghost predicate TaskInv(p: Plan, s: State, t: TaskId)
    requires Fits(p, s) && t in p.deps
  {
    if t in s.jobs then JobInv(p, s, t) else IdleInv(p, s, t)
  }

  ghost predicate Safe(p: Plan, s: State) {
    Fits(p, s) && forall t {:trigger TaskInv(p, s, t)} :: t in p.deps ==> TaskInv(p, s, t)
  }

  // ---- Stability ---------------------------------------------------------------

  /** What can no longer change stays as it is: the heart of finally safety. */
  ghost predicate Persists(p: Plan, s: State, s': State, d: TaskId)
    requires Fits(p, s) && Fits(p, s') && d in p.deps
  {
    && (Inactive(p, s, d) ==> Inactive(p, s', d) && s'.status[d] == s.status[d])
    && (s.status[d].Succeeded? ==> s'.status[d].Succeeded?)
  }

  ghost predicate Monotone(p: Plan, s: State, s': State)
    requires Fits(p, s) && Fits(p, s')
  {
    forall d {:trigger Persists(p, s, s', d)} :: d in p.deps ==> Persists(p, s, s', d)
  }

  /** Everything the invariant of `t` says about `t` itself is unchanged. */
  ghost predicate Untouched(s: State, s': State, t: TaskId)
    requires t in s.status && t in s'.status
  {
    && s'.status[t] == s.status[t]
    && (t in s.jobs <==> t in s'.jobs)
    && (t in s.jobs ==> s'.jobs[t].stage == s.jobs[t].stage
                        && (s'.jobs[t].hook.Entered? <==> s.jobs[t].hook.Entered?))
    && (t in s.errors <==> t in s'.errors)
    && (t in s.blame <==> t in s'.blame)
    && (t in s.blame ==> s'.blame[t] == s.blame[t])
  }

  lemma UntouchedKeepsInv(p: Plan, s: State, s': State, t: TaskId)
    requires Safe(p, s) && Fits(p, s') && Monotone(p, s, s')
    requires t in p.deps && Untouched(s, s', t)
    ensures TaskInv(p, s', t)
  {
    assert TaskInv(p, s, t);
    if t !in s.jobs && t in s.blame {
      assert Persists(p, s, s', s.blame[t]);
    } else if t in s.jobs {
      forall d | d in p.deps[t] ensures Persists(p, s, s', d) {}
      assert Grounded(p, s', t);
    }
  }

  /** A step that touches at most `x`. */
  lemma OneTaskStep(p: Plan, s: State, s': State, x: TaskId)
    requires Safe(p, s) && Fits(p, s') && Monotone(p, s, s')
    requires x in p.deps && TaskInv(p, s', x)
    requires forall t {:trigger Untouched(s, s', t)} :: t in p.deps && t != x ==> Untouched(s, s', t)
    ensures Safe(p, s')
  {
    forall t | t in p.deps ensures TaskInv(p, s', t) {
      if t != x { UntouchedKeepsInv(p, s, s', t); }
    }
  }

  lemma NoTaskStep(p: Plan, s: State, s': State)
    requires Safe(p, s) && Fits(p, s')
    requires forall t {:trigger Untouched(s, s', t)} :: t in p.deps ==> Untouched(s, s', t)
    ensures Safe(p, s') && Monotone(p, s, s')
  {
    forall d | d in p.deps ensures Persists(p, s, s', d) { assert Untouched(s, s', d); }
    forall t | t in p.deps ensures TaskInv(p, s', t) { UntouchedKeepsInv(p, s, s', t); }
  }

  // ---- Fates of what schedule() sees ---------------------------------------------

  /** An inactive task already has its fate. */
  lemma InactiveIsFate(p: Plan, s: State, d: TaskId)
    requires Safe(p, s) && d in p.deps
    requires Inactive(p, s, d) || s.status[d].Succeeded?
    ensures FateOf(p, d).status == s.status[d] && Settles(p, d, FateOf(p, d))
  {
    assert TaskInv(p, s, d);
  }

  lemma SubmittedIsFated(p: Plan, s: State, t: TaskId)
    requires Safe(p, s) && t in p.deps && t !in s.jobs && Grounded(p, s, t)
    requires p.entry[t].CanBecome(Running)
    ensures FateOf(p, t).ran
  {
    forall d | d in p.deps[t]
      ensures if t in p.finals then Settles(p, d, FateOf(p, d)) else FateOf(p, d).status.Succeeded?
    {
      InactiveIsFate(p, s, d);
    }
  }

  /** A handler reads the statuses its upstream tasks end with. */
  lemma UpstreamIsFinal(p: Plan, s: State, t: TaskId)
    requires Safe(p, s) && t in s.jobs
    ensures FateOf(p, t) == Fate(p.Result(t, Upstream(p, s, t)), true)
  {
    assert TaskInv(p, s, t);
    forall d | d in p.deps[t] ensures FateOf(p, d).status == s.status[d] {
      InactiveIsFate(p, s, d);
    }
    assert Upstream(p, s, t) == map d | d in p.deps[t] :: FateOf(p, d).status;
  }

  lemma BlockedIsFated(p: Plan, s: State, t: TaskId)
    requires Safe(p, s) && t in p.deps && Blocks(p, s, t)
    ensures p.entry[t].Pending? && FateOf(p, t) == Fate(Blocked, false)
    ensures var b := FirstBad(p, s, p.deps[t]).value;
            b in p.deps[t] && b in p.deps && Inactive(p, s, b) && s.status[b].IsBad()
  {
    assert TaskInv(p, s, t);
    var b := FirstBad(p, s, p.deps[t]).value;
    assert TaskInv(p, s, b);
    assert s.status[b].IsBad() && Inactive(p, s, b);
    InactiveIsFate(p, s, b);
  }

  // ---- Every step keeps the invariant --------------------------------------------

  /** `s'` differs from `s` at most in what concerns `x`. */
  ghost predicate OnlyAt(p: Plan, s: State, s': State, x: TaskId)
    requires Fits(p, s) && Fits(p, s')
  {
    forall t {:trigger Untouched(s, s', t)} :: t in p.deps && t != x ==> Untouched(s, s', t)
  }

  lemma ActiveChangeIsMonotone(p: Plan, s: State, s': State, x: TaskId)
    requires Safe(p, s) && Fits(p, s') && x in p.deps && OnlyAt(p, s, s', x)
    requires !Inactive(p, s, x) && !s.status[x].Succeeded?
    ensures Monotone(p, s, s')
  {
    forall d | d in p.deps ensures Persists(p, s, s', d) {
      assert d != x ==> Untouched(s, s', d);
    }
  }

  lemma GroundedStays(p: Plan, s: State, s': State, t: TaskId)
    requires Fits(p, s) && Fits(p, s') && Monotone(p, s, s')
    requires t in p.deps && Grounded(p, s, t)
    ensures Grounded(p, s', t)
  {
    forall d | d in p.deps[t] ensures Persists(p, s, s', d) {}
  }

  lemma StartSafe(p: Plan, s: State, t: TaskId)
    requires Safe(p, s) && CanStep(p, s, Start(t))
    ensures Safe(p, Next(p, s, Start(t))) && Monotone(p, s, Next(p, s, Start(t)))
  {
    hide FateOf, Plan.Validated, Ranked;
    var s' := Next(p, s, Start(t));
    assert TaskInv(p, s, t);
    assert OnlyAt(p, s, s', t);
    ActiveChangeIsMonotone(p, s, s', t);
    GroundedStays(p, s, s', t);
    OneTaskStep(p, s, s', t);
  }

  lemma SettledSafe(p: Plan, s: State, t: TaskId, s': State)
    requires Safe(p, s) && t in s.jobs && Fits(p, s')
    requires s.jobs[t].stage.Queued? || s.jobs[t].stage.Working?
    requires s' == Restage(s, t, Settled, p.Result(t, Upstream(p, s, t))).(late := Marked(s, t))
    ensures Safe(p, s') && Monotone(p, s, s')
  {
    hide FateOf, Plan.Validated, Ranked;
    UpstreamIsFinal(p, s, t);
    assert TaskInv(p, s, t);
    assert OnlyAt(p, s, s', t);
    ActiveChangeIsMonotone(p, s, s', t);
    GroundedStays(p, s, s', t);
    OneTaskStep(p, s, s', t);
  }

  /** Completing the future of `t`: the only step after which `t` is inactive. */
  lemma ResolveSafe(p: Plan, s: State, t: TaskId)
    requires Safe(p, s) && CanStep(p, s, Resolve(t))
    ensures Safe(p, Next(p, s, Resolve(t))) && Monotone(p, s, Next(p, s, Resolve(t)))
  {
    hide FateOf, Plan.Validated, Ranked;
    var s' := Next(p, s, Resolve(t));
    assert TaskInv(p, s, t);
    assert OnlyAt(p, s, s', t);
    forall d | d in p.deps ensures Persists(p, s, s', d) { assert d != t ==> Untouched(s, s', d); }
    GroundedStays(p, s, s', t);
    OneTaskStep(p, s, s', t);
  }

  lemma WorkerStepSafe(p: Plan, s: State, l: Step)
    requires Safe(p, s) && CanStep(p, s, l)
    requires l.Start? || l.Reject? || l.Settle? || l.Resolve?
    ensures Safe(p, Next(p, s, l)) && Monotone(p, s, Next(p, s, l))
  {
    hide FateOf, Plan.Validated, Ranked;
    match l
    case Start(t) => StartSafe(p, s, t);
    case Resolve(t) => ResolveSafe(p, s, t);
    case Reject(t) => SettledSafe(p, s, t, Next(p, s, l));
    case Settle(t) => SettledSafe(p, s, t, Next(p, s, l));
  }

  lemma OnFinishSafe(p: Plan, s: State, t: TaskId)
    requires Safe(p, s) && t in s.jobs && Done(s, t) && !s.jobs[t].hook.Entered?
    ensures Safe(p, OnFinish(s, t)) && Monotone(p, s, OnFinish(s, t))
  {
    hide FateOf, Plan.Validated, Ranked;
    var s' := OnFinish(s, t);
    assert TaskInv(p, s, t);
    assert Top(s') == Scan(0, false);
    assert OnlyAt(p, s, s', t);
    forall d | d in p.deps ensures Persists(p, s, s', d) { assert d != t ==> Untouched(s, s', d); }
    GroundedStays(p, s, s', t);
    OneTaskStep(p, s, s', t);
  }

  lemma BlockSafe(p: Plan, s: State, t: TaskId, s': State)
    requires Safe(p, s) && t in p.deps && Blocks(p, s, t) && Fits(p, s')
    requires s'.status == s.status[t := Blocked] && s'.jobs == s.jobs && s'.errors == s.errors
    requires s'.blame == s.blame[t := FirstBad(p, s, p.deps[t]).value]
    ensures Safe(p, s') && Monotone(p, s, s')
  {
    hide FateOf, Plan.Validated, Ranked;
    BlockedIsFated(p, s, t);
    assert TaskInv(p, s, t);
    assert OnlyAt(p, s, s', t);
    ActiveChangeIsMonotone(p, s, s', t);
    assert Persists(p, s, s', s'.blame[t]);
    OneTaskStep(p, s, s', t);
  }

  lemma SubmitSafe(p: Plan, s: State, t: TaskId, s': State)
    requires Safe(p, s) && t in p.deps && Submits(p, s, t) && Fits(p, s')
    requires s'.status == s.status && s'.jobs == s.jobs[t := Job(Queued, Unregistered)]
    requires s'.errors == s.errors && s'.blame == s.blame
    ensures Safe(p, s') && Monotone(p, s, s')
  {
    hide FateOf, Plan.Validated, Ranked;
    assert TaskInv(p, s, t);
    SubmittedIsFated(p, s, t);
    assert OnlyAt(p, s, s', t);
    ActiveChangeIsMonotone(p, s, s', t);
    GroundedStays(p, s, s', t);
    OneTaskStep(p, s, s', t);
  }

  /** Steps that only move control leave every task alone. */
  lemma ControlStepSafe(p: Plan, s: State, s': State)
    requires Safe(p, s) && Fits(p, s')
    requires s'.status == s.status && s'.jobs.Keys == s.jobs.Keys
    requires forall t :: t in s.jobs ==> s'.jobs[t].stage == s.jobs[t].stage
    requires forall t :: t in s.jobs ==> (s'.jobs[t].hook.Entered? <==> s.jobs[t].hook.Entered?)
    requires s'.errors == s.errors && s'.blame == s.blame
    ensures Safe(p, s') && Monotone(p, s, s')
  {
    hide FateOf, Plan.Validated, Ranked;
    NoTaskStep(p, s, s');
  }
}
