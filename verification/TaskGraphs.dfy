/** `TaskGraph` as its callers see it: registration, validation and `run`. */
module TaskGraphs {
  import opened Lifecycle
  import opened Scheduling
  import opened Confluence
  import opened Guard
  import opened SchedulerRun

  // ---- Registration ------------------------------------------------------------------

  /** First occurrences only, in order. */
  function Dedup(s: seq<TaskId>): seq<TaskId> {
    if s == [] then []
    else
      var r := Dedup(s[..|s| - 1]);
      if s[|s| - 1] in r then r else r + [s[|s| - 1]]
  }

  ghost predicate Distinct(s: seq<TaskId>) {
    forall i, j :: 0 <= i < j < |s| ==> s[i] != s[j]
  }

  /** Deduplication loses no dependency, keeps none twice, and keeps declaration order. */
  lemma {:induction false} DedupKeepsAll(s: seq<TaskId>)
    ensures Distinct(Dedup(s)) && (forall d :: d in Dedup(s) <==> d in s)
    ensures Distinct(s) ==> Dedup(s) == s
  {
    if s != [] {
      var front, last := s[..|s| - 1], s[|s| - 1];
      DedupKeepsAll(front);
      assert s == front + [last];
      assert forall d :: d in s <==> d in front || d == last;
      if Distinct(s) {
        assert last !in front;
        assert Distinct(front);
      }
    }
  }

  /** Where `d` occurs first. */
  function FirstAt(s: seq<TaskId>, d: TaskId): (i: nat)
    requires d in s
    ensures i < |s| && s[i] == d && d !in s[..i]
  {
    if s[0] == d then 0
    else
      var i := FirstAt(s[1..], d) + 1;
      assert s[..i] == [s[0]] + s[1..][..i - 1];
      i
  }

  /** The dependencies stand in the order in which the list names them first. */
  lemma {:induction false} DedupKeepsOrder(s: seq<TaskId>, i: nat, j: nat)
    requires i < j < |Dedup(s)|
    ensures Dedup(s)[i] in s && Dedup(s)[j] in s && FirstAt(s, Dedup(s)[i]) < FirstAt(s, Dedup(s)[j])
  {
    DedupKeepsAll(s);
    var r, front := Dedup(s), s[..|s| - 1];
    var kept := Dedup(front);
    assert r[i] in r && r[j] in r;
    DedupKeepsAll(front);
    assert r[i] == kept[i] && kept[i] in kept;
    FirstInFront(s, r[i]);
    if j < |kept| {
      DedupKeepsOrder(front, i, j);
      assert r[j] == kept[j] && kept[j] in kept;
      FirstInFront(s, r[j]);
    } else {
      assert r[j] == s[|s| - 1] && r[j] !in front;
      NotInFront(s, r[j]);
    }
  }

  lemma {:induction false} FirstIsLeast(s: seq<TaskId>, d: TaskId, k: nat)
    requires k < |s| && s[k] == d
    ensures d in s && FirstAt(s, d) <= k
  {
    if s[0] != d { FirstIsLeast(s[1..], d, k - 1); }
  }

  lemma FirstInFront(s: seq<TaskId>, d: TaskId)
    requires s != [] && d in s[..|s| - 1]
    ensures d in s && FirstAt(s, d) == FirstAt(s[..|s| - 1], d)
  {
    var front := s[..|s| - 1];
    var i := FirstAt(front, d);
    FirstIsLeast(s, d, i);
    FirstIsLeast(front, d, FirstAt(s, d));
  }

  lemma NotInFront(s: seq<TaskId>, d: TaskId)
    requires s != [] && d in s && d !in s[..|s| - 1]
    ensures FirstAt(s, d) == |s| - 1
  {
    assert s[FirstAt(s, d)] == d;
    assert forall k :: 0 <= k < |s| - 1 ==> s[..|s| - 1][k] == s[k];
  }

  /** Appending a new element. */
  lemma DistinctAppend(s: seq<TaskId>, x: TaskId)
    ensures Distinct(s + [x]) <==> Distinct(s) && x !in s
    ensures forall y :: y in s + [x] <==> y in s || y == x
  {
    var r := s + [x];
    if Distinct(r) {
      forall i, j | 0 <= i < j < |s| ensures s[i] != s[j] { assert r[i] != r[j]; }
      forall i | 0 <= i < |s| ensures s[i] != x { assert r[i] != r[|s|]; }
    }
  }

  function Elements(s: seq<TaskId>): set<TaskId> {
    set d | d in s
  }

  /** A list without repetitions is as long as the set of its elements. */
  lemma {:induction false} DistinctLength(s: seq<TaskId>)
    requires Distinct(s)
    ensures |Elements(s)| == |s|
  {
    hide Distinct;
    if s != [] {
      var front, last := s[..|s| - 1], s[|s| - 1];
      assert s == front + [last];
      DistinctAppend(front, last);
      DistinctLength(front);
      assert Elements(s) == Elements(front) + {last};
    }
  }

  // ---- Validation ----------------------------------------------------------------------

  datatype Validity =
    | Valid
    | StaleRunning(task: TaskId)
    | MissingDependency(task: TaskId, dep: TaskId)
    | Cyclic

  ghost predicate DependenciesRegistered(deps: map<TaskId, seq<TaskId>>) {
    forall t, d {:trigger d in deps[t]} :: t in deps && d in deps[t] ==> d in deps
  }

  ghost predicate HasRanking(deps: map<TaskId, seq<TaskId>>) {
    exists rank :: Ranked(deps, rank)
  }

  /** The dependencies Kahn's algorithm has not visited: what `indeg` counts. */
  function Unmet(ds: seq<TaskId>, visited: set<TaskId>): set<TaskId> {
    set d | d in ds && d !in visited
  }

  lemma VisitLowersInDegree(ds: seq<TaskId>, visited: set<TaskId>, cur: TaskId)
    requires cur !in visited
    ensures |Unmet(ds, visited + {cur})| == |Unmet(ds, visited)| - if cur in ds then 1 else 0
  {
    if cur in ds {
      assert Unmet(ds, visited) == Unmet(ds, visited + {cur}) + {cur};
    } else {
      assert Unmet(ds, visited) == Unmet(ds, visited + {cur});
    }
  }

  ghost predicate WaitsIn(deps: map<TaskId, seq<TaskId>>, rest: set<TaskId>, u: TaskId) {
    u in deps && exists d :: d in deps[u] && d in rest
  }

  /** Among unvisited tasks that all wait for another unvisited one, no ranking exists. */
  lemma {:induction false} NoRankingAmong(deps: map<TaskId, seq<TaskId>>, rank: map<TaskId, nat>, rest: set<TaskId>,
      t: TaskId)
    requires Ranked(deps, rank) && rest <= deps.Keys && t in rest
    requires forall u {:trigger WaitsIn(deps, rest, u)} {:trigger u in rest} :: u in rest ==> WaitsIn(deps, rest, u)
    ensures false
    decreases rank[t]
  {
    assert WaitsIn(deps, rest, t);
    var d :| d in deps[t] && d in rest;
    NoRankingAmong(deps, rank, rest, d);
  }

  // ---- Kahn's algorithm ------------------------------------------------------------------

  /** The in-degrees and the queue agree with the unmet dependencies, counted from `after`
      for the tasks in `seen` and from `before` for the others. */
  ghost predicate Counts(deps: map<TaskId, seq<TaskId>>, indeg: map<TaskId, nat>, queue: seq<TaskId>,
                         before: set<TaskId>, after: set<TaskId>, seen: seq<TaskId>) {
    && indeg.Keys == deps.Keys && Distinct(queue)
    && (forall t {:trigger indeg[t]} :: t in deps ==> indeg[t] == |Unmet(deps[t], if t in seen then after else before)|)
    && (forall t {:trigger t in queue} :: t in queue <==> t in deps && t !in after && indeg[t] == 0)
  }

  /** The visiting order ranks the visited tasks, which are closed under dependencies. */
  ghost predicate RankedSoFar(deps: map<TaskId, seq<TaskId>>, visited: set<TaskId>, rank: map<TaskId, nat>) {
    && visited <= deps.Keys && rank.Keys == visited
    && (forall t {:trigger rank[t]} :: t in visited ==> rank[t] < |visited|)
    && (forall t, d {:trigger d in deps[t]} :: t in visited && d in deps[t] ==> d in visited && rank[d] < rank[t])
  }

  lemma KahnStarts(deps: map<TaskId, seq<TaskId>>, indeg: map<TaskId, nat>, queue: seq<TaskId>)
    requires indeg == map t | t in deps :: |deps[t]|
    requires forall t {:trigger deps[t]} :: t in deps ==> Distinct(deps[t])
    requires Distinct(queue) && forall t {:trigger t in queue} :: t in queue <==> t in deps && indeg[t] == 0
    ensures Counts(deps, indeg, queue, {}, {}, []) && RankedSoFar(deps, {}, map[])
  {
    forall t | t in deps ensures indeg[t] == |Unmet(deps[t], {})| {
      DistinctLength(deps[t]);
      assert Unmet(deps[t], {}) == Elements(deps[t]);
    }
  }

  /** A queued task has all its dependencies visited and is in none of the visited tasks' lists. */
  lemma VisitBegins(deps: map<TaskId, seq<TaskId>>, cur: TaskId, indeg: map<TaskId, nat>, queue: seq<TaskId>,
                    visited: set<TaskId>, rank: map<TaskId, nat>)
    requires Counts(deps, indeg, queue + [cur], visited, visited, []) && RankedSoFar(deps, visited, rank)
    ensures Counts(deps, indeg, queue, visited, visited + {cur}, [])
    ensures cur in deps && cur !in visited && |visited + {cur}| == |visited| + 1 <= |deps|
    ensures forall t :: t in deps && cur in deps[t] ==> t !in visited + {cur}
    ensures RankedSoFar(deps, visited + {cur}, rank[cur := |visited|])
  {
    hide Distinct, RankedSoFar;
    DistinctAppend(queue, cur);
    assert cur in queue + [cur];
    assert Unmet(deps[cur], visited) == {};
    forall d | d in deps[cur] ensures d in visited { assert d !in Unmet(deps[cur], visited); }
    RankingGrows(deps, visited, rank, cur);
  }

  lemma VisitedFit(deps: map<TaskId, seq<TaskId>>, visited: set<TaskId>)
    requires visited <= deps.Keys
    ensures |visited| <= |deps| && (|visited| == |deps| ==> visited == deps.Keys)
  {
    assert deps.Keys == visited + (deps.Keys - visited) && |deps.Keys| == |deps|;
  }

  lemma RankingGrows(deps: map<TaskId, seq<TaskId>>, visited: set<TaskId>, rank: map<TaskId, nat>, cur: TaskId)
    requires RankedSoFar(deps, visited, rank) && cur in deps && cur !in visited
    requires forall d :: d in deps[cur] ==> d in visited
    ensures RankedSoFar(deps, visited + {cur}, rank[cur := |visited|])
    ensures forall t :: t in deps && cur in deps[t] ==> t !in visited + {cur}
    ensures |visited + {cur}| == |visited| + 1 <= |deps|
  {
    VisitedFit(deps, visited + {cur});
  }

  /** The update of one task: one unmet dependency fewer, and queued if that was its last. */
  lemma VisitUpdates(deps: map<TaskId, seq<TaskId>>, cur: TaskId, indeg: map<TaskId, nat>, queue: seq<TaskId>,
                     visited: set<TaskId>, seen: seq<TaskId>, t: TaskId)
    requires Counts(deps, indeg, queue, visited, visited + {cur}, seen) && t in deps && t !in seen && cur !in visited
    requires cur in deps[t] ==> t !in visited + {cur}
    ensures cur in deps[t] ==> indeg[t] > 0
    ensures if cur in deps[t] then
              var indeg' := indeg[t := indeg[t] - 1];
              Counts(deps, indeg', if indeg'[t] == 0 then queue + [t] else queue, visited, visited + {cur}, seen + [t])
            else Counts(deps, indeg, queue, visited, visited + {cur}, seen + [t])
  {
    VisitLowersInDegree(deps[t], visited, cur);
    DistinctAppend(queue, t);
    DistinctAppend(seen, t);
    if cur in deps[t] { assert cur in Unmet(deps[t], visited); }
  }

  lemma VisitEnds(deps: map<TaskId, seq<TaskId>>, indeg: map<TaskId, nat>, queue: seq<TaskId>,
                  before: set<TaskId>, after: set<TaskId>, order: seq<TaskId>)
    requires Counts(deps, indeg, queue, before, after, order) && forall t :: t in deps ==> t in order
    ensures Counts(deps, indeg, queue, after, after, [])
  {
  }

  /** All visited: the visiting order ranks the graph. */
  lemma AllVisited(deps: map<TaskId, seq<TaskId>>, visited: set<TaskId>, rank: map<TaskId, nat>)
    requires RankedSoFar(deps, visited, rank) && |visited| == |deps|
    ensures Ranked(deps, rank) && HasRanking(deps)
  {
    VisitedFit(deps, visited);
  }

  /** Otherwise every unvisited task waits for an unvisited one, so nothing ranks them. */
  lemma SomeUnvisited(deps: map<TaskId, seq<TaskId>>, indeg: map<TaskId, nat>, visited: set<TaskId>,
                      rank: map<TaskId, nat>)
    requires DependenciesRegistered(deps) && Counts(deps, indeg, [], visited, visited, [])
    requires RankedSoFar(deps, visited, rank) && |visited| != |deps|
    ensures !HasRanking(deps)
  {
    hide Counts, DependenciesRegistered, Ranked, WaitsIn;
    var rest := deps.Keys - visited;
    assert deps.Keys == visited + rest && |deps| == |deps.Keys|;
    forall u | u in rest ensures WaitsIn(deps, rest, u) { WaitsForUnvisited(deps, indeg, visited, u); }
    var t :| t in rest;
    if r :| Ranked(deps, r) {
      NoRankingAmong(deps, r, rest, t);
    }
  }

  lemma WaitsForUnvisited(deps: map<TaskId, seq<TaskId>>, indeg: map<TaskId, nat>, visited: set<TaskId>, u: TaskId)
    requires DependenciesRegistered(deps) && Counts(deps, indeg, [], visited, visited, []) && u in deps && u !in visited
    ensures WaitsIn(deps, deps.Keys - visited, u)
  {
    assert u !in [] && indeg[u] == |Unmet(deps[u], visited)|;
    var d :| d in Unmet(deps[u], visited);
    assert d in deps[u] && d in deps.Keys - visited;
  }

  datatype RunResult =
    | InvalidWorkers
    | InvalidGraph(validity: Validity)
    | NoProgress
    | Completed

  class TaskGraph {
    var order: seq<TaskId>
    var deps: map<TaskId, seq<TaskId>>
    var status: map<TaskId, Status>   // of the registered Task objects
    var finals: set<TaskId>
    var optional: set<TaskId>
    var errors: set<TaskId>

    ghost predicate WellFormed()
      reads this
    {
      && Distinct(order) && (forall t {:trigger t in order} :: t in order <==> t in deps)
      && status.Keys == deps.Keys
      && optional <= finals <= deps.Keys
      && forall t {:trigger deps[t]} :: t in deps ==> Distinct(deps[t])
    }

    constructor ()
      ensures WellFormed() && order == [] && deps == map[]
    {
      order, deps, status, finals, optional, errors := [], map[], map[], {}, {}, {};
    }

    /** The loop of `add` over the listed dependencies. */
    method DistinctIds(after: seq<TaskId>) returns (ds: seq<TaskId>)
      ensures ds == Dedup(after) && Distinct(ds)
    {
      ds := [];
      var k := 0;
      while k < |after|
        invariant k <= |after| && ds == Dedup(after[..k])
      {
        assert after[..k + 1][..k] == after[..k];
        if after[k] !in ds { ds := ds + [after[k]]; }
        k := k + 1;
      }
      assert after[..k] == after;
      DedupKeepsAll(after);
    }

    /** `add`: registers `t`, or registers it anew in its old position. */
    method Add(t: TaskId, st: Status, after: seq<TaskId>, isFinally: bool, required: bool) returns (ok: bool)
      requires WellFormed()
      modifies this`order, this`deps, this`status, this`finals, this`optional
      ensures WellFormed() && (ok <==> required || isFinally)
      ensures !ok ==> order == old(order) && deps == old(deps) && status == old(status)
                      && finals == old(finals) && optional == old(optional)
      ensures ok ==> order == (if t in old(deps) then old(order) else old(order) + [t])
                     && deps == old(deps)[t := Dedup(after)] && status == old(status)[t := st]
                     && finals == (if isFinally then old(finals) + {t} else old(finals) - {t})
                     && optional == (if isFinally && !required then old(optional) + {t} else old(optional) - {t})
    {
      if !required && !isFinally { return false; }
      status := status[t := st];
      var ds := DistinctIds(after);
      DistinctAppend(order, t);
      if t !in deps { order := order + [t]; }
      deps := deps[t := ds];
      if isFinally {
        finals := finals + {t};
        optional := if required then optional - {t} else optional + {t};
      } else {
        finals := finals - {t};
        optional := optional - {t};
      }
      return true;
    }

    /** `_validate`: accepts exactly the graphs without a RUNNING task whose dependencies
        are all registered and have a topological ranking, and names the defect otherwise. */
    method Validate() returns (v: Validity, ghost rank: map<TaskId, nat>)
      requires WellFormed()
      ensures v.Valid? <==> (forall t :: t in deps ==> !status[t].Running?) && HasRanking(deps)
      ensures v.Valid? ==> Ranked(deps, rank)
      ensures v.StaleRunning? ==> v.task in deps && status[v.task].Running?
      ensures v.MissingDependency? ==> v.task in deps && v.dep in deps[v.task] && v.dep !in deps
      ensures v.Cyclic? ==> DependenciesRegistered(deps) && !HasRanking(deps)
    {
      rank := map[];
      var i := 0;
      while i < |order|
        invariant i <= |order| && forall j :: 0 <= j < i ==> order[j] in deps && !status[order[j]].Running?
      {
        assert order[i] in order;
        if status[order[i]].Running? { return StaleRunning(order[i]), rank; }
        i := i + 1;
      }
      i := 0;
      while i < |order|
        invariant i <= |order|
        invariant forall j, d :: 0 <= j < i && order[j] in deps && d in deps[order[j]] ==> d in deps
      {
        var t := order[i];
        assert t in order;
        var k := 0;
        while k < |deps[t]|
          invariant k <= |deps[t]| && forall m :: 0 <= m < k ==> deps[t][m] in deps
        {
          if deps[t][k] !in deps {
            v := MissingDependency(t, deps[t][k]);
            MissingHasNoRanking(t, deps[t][k]);
            return;
          }
          k := k + 1;
        }
        i := i + 1;
      }
      assert forall t :: t in deps ==> t in order;
      assert DependenciesRegistered(deps);
      var acyclic;
      acyclic, rank := Kahn();
      v := if acyclic then Valid else Cyclic;
    }

    lemma MissingHasNoRanking(t: TaskId, d: TaskId)
      requires t in deps && d in deps[t] && d !in deps
      ensures !HasRanking(deps)
    {
    }

    /** Kahn's algorithm, visiting the most recently enabled task first. */
    method Kahn() returns (acyclic: bool, ghost rank: map<TaskId, nat>)
      requires WellFormed() && DependenciesRegistered(deps)
      ensures acyclic <==> HasRanking(deps)
      ensures acyclic ==> Ranked(deps, rank)
    {
      hide Counts, RankedSoFar, Distinct, DependenciesRegistered, HasRanking, Ranked;
      var indeg: map<TaskId, nat> := map t | t in deps :: |deps[t]|;
      var queue := InitialQueue(indeg);
      ghost var visited: set<TaskId> := {};
      rank := map[];
      KahnStarts(deps, indeg, queue);
      var count := 0;
      while queue != []
        invariant Counts(deps, indeg, queue, visited, visited, []) && RankedSoFar(deps, visited, rank)
        invariant indeg.Keys == deps.Keys && count == |visited| <= |deps|
        decreases |deps| - count
      {
        var cur, rest := queue[|queue| - 1], queue[..|queue| - 1];
        assert queue == rest + [cur];
        VisitBegins(deps, cur, indeg, rest, visited, rank);
        count := count + 1;
        indeg, queue := VisitTask(cur, indeg, rest, visited);
        rank := rank[cur := |visited|];
        visited := visited + {cur};
      }
      acyclic := count == |deps|;
      if acyclic { AllVisited(deps, visited, rank); } else { SomeUnvisited(deps, indeg, visited, rank); }
    }

    /** The tasks without dependencies, in insertion order. */
    method InitialQueue(indeg: map<TaskId, nat>) returns (queue: seq<TaskId>)
      requires WellFormed() && indeg.Keys == deps.Keys
      ensures Distinct(queue) && forall t {:trigger t in queue} :: t in queue <==> t in deps && indeg[t] == 0
    {
      queue := [];
      var i := 0;
      while i < |order|
        invariant i <= |order| && Distinct(queue)
        invariant forall t {:trigger t in queue} :: t in queue <==> t in order[..i] && t in deps && indeg[t] == 0
      {
        assert order[i] in order && order[..i + 1] == order[..i] + [order[i]];
        assert order[i] !in order[..i];
        DistinctAppend(queue, order[i]);
        if indeg[order[i]] == 0 { queue := queue + [order[i]]; }
        i := i + 1;
      }
      assert order[..i] == order;
    }

    /** The visit of `cur`: every dependent loses one unmet dependency, and joins the queue
        when that was its last. */
    method VisitTask(cur: TaskId, indeg0: map<TaskId, nat>, queue0: seq<TaskId>, ghost visited: set<TaskId>)
      returns (indeg: map<TaskId, nat>, queue: seq<TaskId>)
      requires WellFormed() && cur !in visited && indeg0.Keys == deps.Keys
          && Counts(deps, indeg0, queue0, visited, visited + {cur}, [])
      requires forall t :: t in deps && cur in deps[t] ==> t !in visited + {cur}
      ensures indeg.Keys == deps.Keys && Counts(deps, indeg, queue, visited + {cur}, visited + {cur}, [])
    {
      hide Counts;
      indeg, queue := indeg0, queue0;
      var i := 0;
      while i < |order|
        invariant i <= |order| && Counts(deps, indeg, queue, visited, visited + {cur}, order[..i])
        invariant indeg.Keys == deps.Keys
      {
        var t := order[i];
        assert t in order && order[..i + 1] == order[..i] + [t];
        assert t !in order[..i];
        VisitUpdates(deps, cur, indeg, queue, visited, order[..i], t);
        if cur in deps[t] {
          indeg := indeg[t := indeg[t] - 1];
          if indeg[t] == 0 { queue := queue + [t]; }
        }
        i := i + 1;
      }
      assert order[..i] == order;
      VisitEnds(deps, indeg, queue, visited, visited + {cur}, order);
    }

    /** `_run_inner` on a validated graph: the final statuses are those of a finished run,
        and for a fresh entry a normal return has those of the evaluator. */
    method RunInner(maxWorkers: int, handler: (TaskId, map<TaskId, Status>) -> Outcome, unhandled: set<TaskId>,
                    ghost rank: map<TaskId, nat>)
      returns (noProgress: bool, ghost plan: Plan, ghost final: State)
      requires WellFormed() && maxWorkers > 0 && Ranked(deps, rank) && forall t :: t in deps ==> !status[t].Running?
      modifies this`status, this`errors
      ensures WellFormed() && plan.Validated()
          && plan == Plan(order, deps, finals, old(status), unhandled, handler, maxWorkers, rank)
      ensures Reachable(plan, final) && Quiescent(final)
      ensures status == final.status && errors == final.errors && noProgress == final.guard
      ensures !noProgress && plan.Fresh() ==> forall t :: t in deps ==> status[t] == Eval(plan, t)
    {
      hide FateOf, Eval, Follows, Scheduling.Next, CanStep, Distinct;
      var p := Plan(order, deps, finals, status, unhandled, handler, maxWorkers, rank);
      assert p.Validated();
      var s := new Scheduler(p);
      s.Run();
      plan, final := p, s.Abs();
      status, errors, noProgress := s.status, s.errors, s.guard;
    }

    /** `run`: rejects a bad pool size or a bad graph without touching any task, and
        otherwise runs it. */
    method Run(maxWorkers: int, handler: (TaskId, map<TaskId, Status>) -> Outcome, unhandled: set<TaskId>)
      returns (r: RunResult, ghost plan: Plan, ghost final: State)
      requires WellFormed()
      modifies this`status, this`errors
      ensures WellFormed()
      ensures r.InvalidWorkers? <==> maxWorkers <= 0
      ensures r.InvalidGraph? || r.NoProgress? || r.Completed? ==>
                (r.InvalidGraph? <==> !((forall t :: t in deps ==> !old(status)[t].Running?) && HasRanking(deps)))
      ensures r.InvalidGraph? ==>
                match r.validity
                case Valid => false
                case StaleRunning(t) => t in deps && old(status)[t].Running?
                case MissingDependency(t, d) => t in deps && d in deps[t] && d !in deps
                case Cyclic => DependenciesRegistered(deps) && !HasRanking(deps)
      ensures r.InvalidWorkers? || r.InvalidGraph? ==> status == old(status) && errors == old(errors)
      ensures r.NoProgress? || r.Completed? ==>
                && plan.Validated() && plan.order == order && plan.deps == deps && plan.finals == finals
                && plan.entry == old(status) && plan.handler == handler && plan.unhandled == unhandled
                && plan.workers == maxWorkers && Reachable(plan, final) && Quiescent(final)
                && status == final.status && errors == final.errors && (r.NoProgress? <==> final.guard)
      ensures r.NoProgress? || r.Completed? ==> forall t :: t in final.jobs ==> AsHandled(plan, status, t)
      ensures r.Completed? && plan.Fresh() ==> forall t :: t in deps ==> status[t] == Eval(plan, t)
    {
      hide Eval, Reachable, Quiescent, Distinct, Ranked, AsHandled;
      plan := Plan([], map[], {}, map[], {}, handler, 1, map[]);
      final := Init(plan);
      if maxWorkers <= 0 { return InvalidWorkers, plan, final; }
      var v;
      ghost var rank;
      v, rank := Validate();
      if !v.Valid? { return InvalidGraph(v), plan, final; }
      var noProgress;
      noProgress, plan, final := RunInner(maxWorkers, handler, unhandled, rank);
      FinishedAsHandled(plan, final);
      r := if noProgress then NoProgress else Completed;
    }

    /** `ok`: true iff every task that is not optional has SUCCEEDED without an error. */
    method IsOk() returns (ok: bool)
      requires WellFormed()
      ensures ok <==> Ok(deps.Keys, status, errors, optional)
    {
      hide Distinct;
      var i := 0;
      while i < |order|
        invariant i <= |order|
        invariant forall t {:trigger t in order[..i]} ::
          t in order[..i] && t !in optional ==> t in status && status[t].Succeeded? && t !in errors
      {
        var t := order[i];
        assert t in order && order[..i + 1] == order[..i] + [t];
        if t !in optional && !(status[t].Succeeded? && t !in errors) { return false; }
        i := i + 1;
      }
      assert order[..i] == order;
      forall t | t in deps && t !in optional ensures status[t].Succeeded? && t !in errors { assert t in order; }
      ok := true;
    }
  }
}
