/** Which reruns are certain to recover, told from the entry statuses alone. */
module Recovery {
  import opened Lifecycle
  import opened Scheduling
  import opened Guard
  import opened FirstSchedule
  import opened EntryConfluence
  import Races

  /** No task still to be executed depends directly on another one. */
  ghost predicate Independent(p: Plan) {
    forall t, d {:trigger d in p.deps[t]} ::
      t in p.deps && d in p.deps[t] && t in p.entry && d in p.entry && !p.entry[t].Succeeded? ==> p.entry[d].Succeeded?
  }

  ghost predicate AllSucceeded(p: Plan, s: State) {
    forall t :: t in p.deps ==> t in s.status && s.status[t].Succeeded?
  }

  /** A rerun executes exactly what has not succeeded, finally tasks included. */
  lemma IndependentIsUnchained(p: Plan)
    requires p.Validated() && Recovering(p)
    ensures PlainFinals(p) && (Independent(p) <==> Unchained(p))
  {
    hide FateOf, Recovering;
    forall t | t in p.deps ensures FateOf(p, t) == Fate(Succeeded, !p.entry[t].Succeeded?) { RecoveringFate(p, t); }
  }

  /** An independent rerun, from any mix of PENDING, SUCCEEDED, FAILED and BLOCKED, never has
      a submission rejected, whatever the interleaving and the pool; so it recovers completely. */
  lemma IndependentRerunsRecover(p: Plan, s: State)
    requires Reachable(p, s) && Recovering(p) && Independent(p)
    ensures s.refused == {}
    ensures Quiescent(s) ==> AllSucceeded(p, s)
  {
    hide FateOf, Independent, PlainFinals, Unchained, RunsFirst, Recovering, Follows;
    IndependentIsUnchained(p);
    RunsFirstIffUnchained(p);
    RunsFirstAreConfluent(p, s);
    if Quiescent(s) { RecoveryIffNothingRefused(p, s); }
  }

  ghost predicate NothingPending(p: Plan) {
    forall t :: t in p.entry ==> !p.entry[t].Pending?
  }

  /** When one task to be executed depends on another, some run ends with it left behind, provided
      that nothing enters PENDING, or that there are two threads, or one for every task that can be
      submitted at once.  In the first case every task looks finished after the first pass, and
      the pool closes before a worker has started; in the second the other task is held back in
      the queue until the first `schedule()` ends. */
  lemma DependentRerunCanStop(p: Plan, t: TaskId, d: TaskId) returns (s: State)
    requires p.Validated() && Recovering(p)
    requires NothingPending(p) || p.workers >= 2 || |FirstBatch(p)| <= p.workers
    requires t in p.deps && d in p.deps[t] && t in p.entry && !p.entry[t].Succeeded?
    requires d in p.entry && !p.entry[d].Succeeded?
    ensures Reachable(p, s) && Quiescent(s) && s.refused != {} && !AllSucceeded(p, s)
  {
    hide FateOf, Recovering, Reachable, Follows, SettledFirst, PlainFinals, Unchained, Quiescent;
    IndependentIsUnchained(p);
    RecoveringFate(p, t);
    RecoveringFate(p, d);
    NotSubmittedFirst(p, t, d);
    s := LateTaskCanBeLost(p, t);
    RecoveryIffNothingRefused(p, s);
    ReachableFits(p, s);
  }

  lemma NotSubmittedFirst(p: Plan, t: TaskId, d: TaskId)
    requires p.Validated() && t in p.deps && d in p.deps[t] && d in p.deps && FateOf(p, d).ran
    ensures !SubmittedFirst(p, t)
  {
    EnteredFate(p, d);
    if SettledFirst(p, d) { SettledFirstFate(p, d); }
  }

  /** Recovery, told before the run: when nothing enters PENDING, or there are two threads, or one
      for every task that can be submitted at once, every run of a rerun ends all SUCCEEDED if and
      only if no task to be executed depends directly on another one. */
  lemma RecoveryIffIndependent(p: Plan)
    requires p.Validated() && Recovering(p)
    requires NothingPending(p) || p.workers >= 2 || |FirstBatch(p)| <= p.workers
    ensures (forall s :: Reachable(p, s) && Quiescent(s) ==> AllSucceeded(p, s)) <==> Independent(p)
  {
    hide FateOf, Reachable, Recovering, NothingPending, FirstBatch;
    if Independent(p) {
      forall s | Reachable(p, s) && Quiescent(s) ensures AllSucceeded(p, s) { IndependentRerunsRecover(p, s); }
    } else {
      var t, d :| t in p.deps && d in p.deps[t] && t in p.entry && d in p.entry
                  && !p.entry[t].Succeeded? && !p.entry[d].Succeeded?;
      var s := DependentRerunCanStop(p, t, d);
    }
  }

  /** The rerun of two FAILED tasks, one depending on the other, is an instance. */
  lemma PairIsDependent()
    ensures var p := Races.Pair(Failed);
            && p.Validated() && Recovering(p) && NothingPending(p) && !Independent(p)
            && exists s :: Reachable(p, s) && Quiescent(s) && !AllSucceeded(p, s)
  {
    hide FateOf, Reachable, Quiescent;
    var p := Races.Pair(Failed);
    Races.PairRecovers();
    assert p.deps[1] == [0];
    assert 0 in p.deps[1];
    RecoveryIffIndependent(p);
  }
}
