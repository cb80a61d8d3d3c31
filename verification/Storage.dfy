/** What the store promises: round trips, and integrity over any history of saves and deletes. */
module Storage {
  import opened Lifecycle
  import opened Tables
  import Execution
  import TG = TaskGraphs

  // ---- Tasks -------------------------------------------------------------------------

  lemma TextsRoundTrip(s: Status)
    ensures ParseStatus(StatusText(s)) == Some(s)
  {
    match s
    case Pending => case Running => case Succeeded => case Failed => case Cancelled => case Blocked =>
  }

  /** The columns hold the values of the enumerations, and a text that is none of them is refused. */
  lemma StoredTexts(t: string)
    ensures ParseStatus("pending") == Some(Pending) && ParseStatus("running") == Some(Running)
    ensures ParseStatus("succeeded") == Some(Succeeded) && ParseStatus("failed") == Some(Failed)
    ensures ParseStatus("cancelled") == Some(Cancelled) && ParseStatus("blocked") == Some(Blocked)
    ensures ParseType("bash") == Some(Execution.Bash) && ParseType("powershell") == Some(Execution.PowerShell)
    ensures ParseType("prompt") == Some(Execution.Prompt) && ParseType("agent") == Some(Execution.Agent)
    ensures ParseStatus(t).Some? ==> t == StatusText(ParseStatus(t).value)
    ensures ParseType(t).Some? ==> t == TypeText(ParseType(t).value)
  {
  }

  /** The rows of a task whose result is its own. */
  ghost predicate Holds(s: Database, t: Task) {
    && t.id in s.tasks && s.tasks[t.id] == RowOf(t)
    && (t.result.None? ==> t.id !in s.results)
    && (t.result.Some? ==> t.id in s.results && s.results[t.id] == ResultRowOf(t.result.value))
  }

  /** The rows of `u` are the same in both. */
  ghost predicate SameRows(s: Database, s': Database, u: TaskId) {
    && (u in s'.tasks <==> u in s.tasks) && (u in s.tasks ==> s'.tasks[u] == s.tasks[u])
    && (u in s'.results <==> u in s.results) && (u in s.results ==> s'.results[u] == s.results[u])
  }

  lemma HeldLoads(s: Database, t: Task)
    requires Holds(s, t) && t.Constructible() && t.OwnsResult()
    ensures LoadTask(s, t.id) == Ok(t.Detached())
  {
    TextsRoundTrip(t.status);
    if t.result.Some? { TextsRoundTrip(t.result.value.status); }
  }

  lemma UpsertEffect(s: Database, t: Task)
    requires t.OwnsResult()
    ensures var r := Upsert(s, t);
            && r.Ok? && Holds(r.value, t) && forall u {:trigger SameRows(s, r.value, u)} :: u != t.id ==>
                SameRows(s, r.value, u)
    ensures var s' := Upsert(s, t).value; s'.graphs == s.graphs && s'.members == s.members && s'.edges == s.edges
  {
  }

  /** An upsert is refused exactly when the result belongs to a task that is not stored; a result
      that belongs to another stored task becomes that task's. */
  lemma UpsertRefusal(s: Database, t: Task)
    ensures Upsert(s, t).Fails? <==>
              t.result.Some? && t.result.value.taskId != t.id && t.result.value.taskId !in s.tasks
    ensures Upsert(s, t).Fails? ==> Upsert(s, t) == Fails(IntegrityError)
    ensures Upsert(s, t).Ok? ==>
              var s' := Upsert(s, t).value;
              && t.id in s'.tasks && s'.tasks[t.id] == RowOf(t)
              && (t.result.Some? ==>
                    var r := t.result.value; r.taskId in s'.results && s'.results[r.taskId] == ResultRowOf(r))
  {
  }

  /** Saving and loading a task gives back everything but the raw value, if and only if the
      timeout is acceptable to the constructor and the result is the task's own. */
  lemma TaskRoundTrip(s: Database, t: Task)
    requires Upsert(s, t).Ok?
    ensures SameButRaw(t, t.Detached())
    ensures LoadTask(Upsert(s, t).value, t.id) == Ok(t.Detached()) <==> t.Constructible() && t.OwnsResult()
  {
    if t.Constructible() && t.OwnsResult() {
      UpsertEffect(s, t);
      HeldLoads(Upsert(s, t).value, t);
    }
  }

  // ---- Sorting -----------------------------------------------------------------------

  /** A list in the order of `ORDER BY position, id` is what sorting its elements gives. */
  lemma {:induction false} SortedIs(xs: seq<TaskId>, pos: map<TaskId, nat>)
    requires TG.Distinct(xs) && TG.Elements(xs) <= pos.Keys
    requires forall i, j {:trigger xs[i], xs[j]} :: 0 <= i < j < |xs| ==> Before(pos, xs[i], xs[j])
    ensures Sorted(TG.Elements(xs), pos) == xs
  {
    var ids := TG.Elements(xs);
    if xs != [] {
      assert xs[0] in ids;
      var m := Least(ids, pos);
      var i :| 0 <= i < |xs| && xs[i] == m;
      assert i == 0;
      var rest := xs[1..];
      assert forall k :: 0 <= k < |rest| ==> rest[k] == xs[k + 1];
      assert ids - {m} == TG.Elements(rest) by {
        assert xs == [m] + rest;
        assert m !in rest;
      }
      SortedIs(rest, pos);
    }
  }

  // ---- Saving a graph ----------------------------------------------------------------

  /** The rows of the listed tasks have been written, the others are as they were. */
  ghost predicate Upserted(s: Database, s': Database, g: Graph, done: seq<TaskId>) {
    && s'.graphs == s.graphs && s'.members == s.members && s'.edges == s.edges
    && (forall t {:trigger t in done} :: t in done && t in g.tasks ==> Holds(s', g.tasks[t]))
    && (forall u {:trigger SameRows(s, s', u)} :: u !in done ==> SameRows(s, s', u))
  }

  lemma {:induction false} UpsertFirstEffect(s: Database, g: Graph, k: nat)
    requires g.WellFormed() && g.Proper() && k <= |g.order|
    ensures UpsertFirst(s, g, k).Ok? && Upserted(s, UpsertFirst(s, g, k).value, g, g.order[..k])
  {
    hide Holds, SameRows, Upsert, Upserted;
    if k == 0 {
      NothingUpserted(s, g);
    } else {
      UpsertFirstEffect(s, g, k - 1);
      var s1, t := UpsertFirst(s, g, k - 1).value, g.order[k - 1];
      assert t in g.order;
      UpsertEffect(s1, g.tasks[t]);
      assert g.order[..k] == g.order[..k - 1] + [t];
      assert t !in g.order[..k - 1];
      OneUpserted(s, s1, Upsert(s1, g.tasks[t]).value, g, g.order[..k - 1], t);
    }
  }

  lemma NothingUpserted(s: Database, g: Graph)
    ensures Upserted(s, s, g, g.order[..0])
  {
  }

  lemma OneUpserted(s: Database, s1: Database, s2: Database, g: Graph, done: seq<TaskId>, t: TaskId)
    requires Upserted(s, s1, g, done) && t !in done && t in g.tasks && Holds(s2, g.tasks[t])
    requires g.WellFormed() && forall u {:trigger SameRows(s1, s2, u)} :: u != t ==> SameRows(s1, s2, u)
    requires s2.graphs == s1.graphs && s2.members == s1.members && s2.edges == s1.edges
    ensures Upserted(s, s2, g, done + [t])
  {
    forall u | u in done + [t] && u in g.tasks ensures Holds(s2, g.tasks[u]) {
      if u != t {
        assert u in done && g.tasks[u].id == u;
        assert SameRows(s1, s2, u);
      }
    }
    forall u | u !in done + [t] ensures SameRows(s, s2, u) {
      assert u !in done && t in done + [t];
      assert SameRows(s, s1, u) && SameRows(s1, s2, u);
    }
  }

  /** Rows of other graphs. */
  ghost predicate OtherMembersSame(m: map<MemberKey, MemberRow>, m': map<MemberKey, MemberRow>, g: GraphId) {
    forall key: MemberKey {:trigger key in m'} {:trigger key in m} :: key.graph != g ==>
      (key in m' <==> key in m) && (key in m ==> m'[key] == m[key])
  }

  ghost predicate OtherEdgesSame(e: map<EdgeKey, nat>, e': map<EdgeKey, nat>, g: GraphId) {
    forall key: EdgeKey {:trigger key in e'} {:trigger key in e} :: key.graph != g ==>
      (key in e' <==> key in e) && (key in e ==> e'[key] == e[key])
  }

  /** The member rows of a graph of which the listed tasks have been written. */
  ghost predicate MembersOf(m: map<MemberKey, MemberRow>, g: Graph, done: seq<TaskId>) {
    && (forall t {:trigger MemberKey(g.id, t)} :: MemberKey(g.id, t) in m <==> t in done)
    && (forall i {:trigger done[i]} :: 0 <= i < |done| ==>
          MemberKey(g.id, done[i]) in m
              && m[MemberKey(g.id, done[i])] == MemberRow(done[i] in g.finals, done[i] in g.optional, i))
  }

  lemma {:induction false} InsertMembersEffect(m: map<MemberKey, MemberRow>, g: Graph, k: nat)
    requires TG.Distinct(g.order) && k <= |g.order| && MembersOf(m, g, [])
    ensures MembersOf(InsertMembers(m, g, k), g, g.order[..k]) && OtherMembersSame(m, InsertMembers(m, g, k), g.id)
  {
    if k > 0 {
      InsertMembersEffect(m, g, k - 1);
      var t, before := g.order[k - 1], g.order[..k - 1];
      assert g.order[..k] == before + [t];
      assert t !in before;
      MemberAdded(InsertMembers(m, g, k - 1), g, before, t);
    }
  }

  lemma MemberAdded(m: map<MemberKey, MemberRow>, g: Graph, before: seq<TaskId>, t: TaskId)
    requires MembersOf(m, g, before) && t !in before
    ensures MembersOf(m[MemberKey(g.id, t) := MemberRow(t in g.finals, t in g.optional, |before|)], g, before + [t])
  {
  }

  /** The edge rows of one task of a graph, of which the listed dependencies have been written. */
  ghost predicate DepsOf(e: map<EdgeKey, nat>, g: GraphId, t: TaskId, ds: seq<TaskId>) {
    && (forall d {:trigger EdgeKey(g, t, d)} :: EdgeKey(g, t, d) in e <==> d in ds)
    && (forall i {:trigger ds[i]} :: 0 <= i < |ds| ==> EdgeKey(g, t, ds[i]) in e && e[EdgeKey(g, t, ds[i])] == i)
  }

  ghost predicate OtherTasksSame(e: map<EdgeKey, nat>, e': map<EdgeKey, nat>, g: GraphId, t: TaskId) {
    forall key: EdgeKey {:trigger key in e'} {:trigger key in e} :: key.graph != g || key.task != t ==>
      (key in e' <==> key in e) && (key in e ==> e'[key] == e[key])
  }

  lemma {:induction false} InsertDepsEffect(e: map<EdgeKey, nat>, g: GraphId, t: TaskId, ds: seq<TaskId>, j: nat)
    requires TG.Distinct(ds) && j <= |ds| && DepsOf(e, g, t, [])
    ensures DepsOf(InsertDeps(e, g, t, ds, j), g, t, ds[..j]) && OtherTasksSame(e, InsertDeps(e, g, t, ds, j), g, t)
  {
    if j > 0 {
      InsertDepsEffect(e, g, t, ds, j - 1);
      assert ds[..j] == ds[..j - 1] + [ds[j - 1]];
      assert ds[j - 1] !in ds[..j - 1];
    }
  }

  /** The edge rows of a graph of which the listed tasks have been written. */
  ghost predicate EdgesOf(e: map<EdgeKey, nat>, g: Graph, done: seq<TaskId>) {
    forall t {:trigger t in done} {:trigger DepsOf(e, g.id, t, [])} ::
      if t in done && t in g.deps then DepsOf(e, g.id, t, g.deps[t]) else DepsOf(e, g.id, t, [])
  }

  lemma {:induction false} InsertEdgesEffect(e: map<EdgeKey, nat>, g: Graph, k: nat)
    requires g.WellFormed() && k <= |g.order| && EdgesOf(e, g, [])
    ensures EdgesOf(InsertEdges(e, g, k), g, g.order[..k]) && OtherEdgesSame(e, InsertEdges(e, g, k), g.id)
  {
    hide DepsOf, OtherTasksSame, OtherEdgesSame, EdgesOf;
    if k == 0 {
      EdgesSame(e, g);
    } else {
      InsertEdgesEffect(e, g, k - 1);
      var t, before, e1 := g.order[k - 1], g.order[..k - 1], InsertEdges(e, g, k - 1);
      assert t in g.order && g.order[..k] == before + [t];
      assert t !in before;
      UnwrittenDeps(e1, g, before, t);
      InsertDepsEffect(e1, g.id, t, g.deps[t], |g.deps[t]|);
      assert g.deps[t][..|g.deps[t]|] == g.deps[t];
      TaskWritten(e1, InsertEdges(e, g, k), g, before, t);
      OthersStay(e, e1, InsertEdges(e, g, k), g.id, t);
    }
  }

  lemma EdgesSame(e: map<EdgeKey, nat>, g: Graph)
    ensures OtherEdgesSame(e, e, g.id) && g.order[..0] == []
  {
  }

  lemma UnwrittenDeps(e: map<EdgeKey, nat>, g: Graph, before: seq<TaskId>, t: TaskId)
    requires EdgesOf(e, g, before) && t !in before
    ensures DepsOf(e, g.id, t, [])
  {
  }

  lemma TaskWritten(e: map<EdgeKey, nat>, e': map<EdgeKey, nat>, g: Graph, before: seq<TaskId>, t: TaskId)
    requires EdgesOf(e, g, before) && t !in before && t in g.deps
    requires DepsOf(e', g.id, t, g.deps[t]) && OtherTasksSame(e, e', g.id, t)
    ensures EdgesOf(e', g, before + [t])
  {
    forall u
      ensures if u in before + [t] && u in g.deps then DepsOf(e', g.id, u, g.deps[u]) else DepsOf(e', g.id, u, [])
    {
      if u != t {
        assert u in before + [t] <==> u in before;
        DepsKept(e, e', g.id, t, u, if u in before && u in g.deps then g.deps[u] else []);
      }
    }
  }

  lemma DepsKept(e: map<EdgeKey, nat>, e': map<EdgeKey, nat>, g: GraphId, t: TaskId, u: TaskId, ds: seq<TaskId>)
    requires DepsOf(e, g, u, ds) && OtherTasksSame(e, e', g, t) && u != t
    ensures DepsOf(e', g, u, ds)
  {
  }

  lemma OthersStay(e: map<EdgeKey, nat>, e1: map<EdgeKey, nat>, e2: map<EdgeKey, nat>, g: GraphId, t: TaskId)
    requires OtherEdgesSame(e, e1, g) && OtherTasksSame(e1, e2, g, t)
    ensures OtherEdgesSame(e, e2, g)
  {
  }

  /** The rows of a graph that has just been saved. */
  ghost predicate Saved(s: Database, g: Graph) {
    && g.id in s.graphs && s.graphs[g.id] == GraphRow(g.title, g.createdAt)
    && (forall t {:trigger t in g.order} :: t in g.order && t in g.tasks ==> Holds(s, g.tasks[t]))
    && MembersOf(s.members, g, g.order) && EdgesOf(s.edges, g, g.order)
  }

  /** Everything of the other graphs, and of the tasks that are not members. */
  ghost predicate OthersUntouched(s: Database, s': Database, g: Graph) {
    && (forall h {:trigger h in s'.graphs} {:trigger h in s.graphs} :: h != g.id ==>
          (h in s'.graphs <==> h in s.graphs) && (h in s.graphs ==> s'.graphs[h] == s.graphs[h]))
    && OtherMembersSame(s.members, s'.members, g.id) && OtherEdgesSame(s.edges, s'.edges, g.id)
    && (forall u {:trigger SameRows(s, s', u)} :: u !in g.order ==> SameRows(s, s', u))
  }

  /** A graph is accepted exactly when its dependencies are registered; what it held before,
      under an older version, is replaced. */
  lemma SaveEffect(s: Database, g: Graph)
    requires g.WellFormed() && g.Proper()
    ensures SaveGraph(s, g).Ok? <==> g.Closed()
    ensures !g.Closed() ==> SaveGraph(s, g) == Fails(KeyError)
    ensures SaveGraph(s, g).Ok? ==> Saved(SaveGraph(s, g).value, g) && OthersUntouched(s, SaveGraph(s, g).value, g)
  {
    hide Holds, SameRows, Upserted, UpsertFirst, OtherMembersSame, OtherEdgesSame, EdgesOf, MembersOf;
    var n := |g.order|;
    UpsertFirstEffect(s, g, n);
    RegisteredIffClosed(g);
    if g.Closed() {
      var s1, s' := UpsertFirst(s, g, n).value, SaveGraph(s, g).value;
      var m, e := DropMembers(s1.members, g.id), DropEdges(s1.edges, g.id);
      assert g.order[..n] == g.order;
      UpsertedFacts(s, s1, g);
      DroppedRows(s1, g);
      InsertMembersEffect(m, g, n);
      InsertEdgesEffect(e, g, n);
      SameAcross(s1, m, s'.members, e, s'.edges, g.id);
      HeldStays(s1, s', g);
    }
  }

  lemma RegisteredIffClosed(g: Graph)
    requires g.WellFormed()
    ensures AllRegistered(g) <==> g.Closed()
  {
    if AllRegistered(g) {
      forall t, d | t in g.deps && d in g.deps[t] ensures d in g.deps {
        assert t in g.order;
        var i :| 0 <= i < |g.order| && g.order[i] == t;
        assert d in g.deps[g.order[i]];
      }
    }
  }

  lemma UpsertedFacts(s: Database, s1: Database, g: Graph)
    requires Upserted(s, s1, g, g.order)
    ensures s1.graphs == s.graphs && s1.members == s.members && s1.edges == s.edges
    ensures forall t {:trigger t in g.order} :: t in g.order && t in g.tasks ==> Holds(s1, g.tasks[t])
    ensures forall u {:trigger SameRows(s, s1, u)} :: u !in g.order ==> SameRows(s, s1, u)
  {
  }

  lemma DroppedRows(s: Database, g: Graph)
    ensures MembersOf(DropMembers(s.members, g.id), g, [])
        && OtherMembersSame(s.members, DropMembers(s.members, g.id), g.id)
    ensures EdgesOf(DropEdges(s.edges, g.id), g, []) && OtherEdgesSame(s.edges, DropEdges(s.edges, g.id), g.id)
  {
  }

  lemma SameAcross(s: Database, m: map<MemberKey, MemberRow>, m': map<MemberKey, MemberRow>,
                   e: map<EdgeKey, nat>, e': map<EdgeKey, nat>, g: GraphId)
    requires OtherMembersSame(s.members, m, g) && OtherMembersSame(m, m', g)
    requires OtherEdgesSame(s.edges, e, g) && OtherEdgesSame(e, e', g)
    ensures OtherMembersSame(s.members, m', g) && OtherEdgesSame(s.edges, e', g)
  {
  }

  lemma HeldStays(s1: Database, s': Database, g: Graph)
    requires s'.tasks == s1.tasks && s'.results == s1.results
    ensures forall t {:trigger g.tasks[t]} :: t in g.tasks && Holds(s1, g.tasks[t]) ==> Holds(s', g.tasks[t])
    ensures forall s, u {:trigger SameRows(s, s', u)} :: SameRows(s, s1, u) ==> SameRows(s, s', u)
  {
  }

  // ---- Loading it again ----------------------------------------------------------------

  lemma MemberOrderIs(s: Database, g: Graph)
    requires g.WellFormed() && MembersOf(s.members, g, g.order)
    ensures MemberOrder(s, g.id) == g.order
  {
    var pos := Positions(s, g.id);
    forall t ensures t in pos <==> t in g.order {
      assert MemberKey(g.id, t) in s.members <==> t in g.order;
      if t in pos { var k :| k in s.members && k.graph == g.id && k.task == t; assert k == MemberKey(g.id, t); }
      if t in g.order { assert MemberKey(g.id, t).task == t; }
    }
    assert pos.Keys == TG.Elements(g.order);
    forall i | 0 <= i < |g.order| ensures pos[g.order[i]] == i {
      assert MemberKey(g.id, g.order[i]).task == g.order[i];
    }
    SortedIs(g.order, pos);
  }

  lemma DepOrderIs(s: Database, g: Graph, t: TaskId)
    requires g.WellFormed() && t in g.deps && DepsOf(s.edges, g.id, t, g.deps[t])
    ensures DepOrder(s, g.id, t) == g.deps[t]
  {
    var pos, ds := DepPositions(s, g.id, t), g.deps[t];
    forall d ensures d in pos <==> d in ds {
      assert EdgeKey(g.id, t, d) in s.edges <==> d in ds;
      if d in pos {
        var k :| k in s.edges && k.graph == g.id && k.task == t && k.dep == d;
        assert k == EdgeKey(g.id, t, d);
      }
      if d in ds { assert EdgeKey(g.id, t, d).dep == d; }
    }
    assert pos.Keys == TG.Elements(ds);
    forall i | 0 <= i < |ds| ensures pos[ds[i]] == i { assert EdgeKey(g.id, t, ds[i]).dep == ds[i]; }
    SortedIs(ds, pos);
  }

  function FlagsIn(flags: set<TaskId>, done: seq<TaskId>): set<TaskId> {
    set t | t in done && t in flags
  }

  function TasksIn(g: Graph, done: seq<TaskId>): map<TaskId, Task> {
    map t | t in done && t in g.tasks :: g.tasks[t].Detached()
  }

  function DepsIn(g: Graph, done: seq<TaskId>): map<TaskId, seq<TaskId>> {
    map t | t in done && t in g.deps :: g.deps[t]
  }

  /** A graph as a store gives it back. */
  function DetachedGraph(g: Graph, done: seq<TaskId>): Graph {
    Graph(g.id, g.title, g.createdAt, done, TasksIn(g, done), DepsIn(g, done), FlagsIn(g.finals, done),
        FlagsIn(g.optional, done))
  }

  lemma AddedNext(g: Graph, done: seq<TaskId>, t: TaskId)
    requires g.WellFormed() && t in g.deps && t !in done
    ensures DetachedGraph(g, done).Add(g.tasks[t].Detached(), g.deps[t], t in g.finals,
        !(t in g.finals && t in g.optional))
         == DetachedGraph(g, done + [t])
  {
    hide TG.Dedup, TG.Distinct, Task.Detached, FlagsIn, TasksIn, DepsIn;
    TG.DedupKeepsAll(g.deps[t]);
    DetachedKeepsId(g.tasks[t]);
    FlagsNext(g.finals, done, t);
    FlagsNext(g.optional, done, t);
    MapsNext(g, done, t);
  }

  lemma DetachedKeepsId(t: Task)
    ensures t.Detached().id == t.id
  {
  }

  lemma FlagsNext(flags: set<TaskId>, done: seq<TaskId>, t: TaskId)
    requires t !in done
    ensures FlagsIn(flags, done + [t]) == if t in flags then FlagsIn(flags, done) + {t} else FlagsIn(flags, done) - {t}
  {
    assert forall u :: u in done + [t] <==> u in done || u == t;
  }

  lemma MapsNext(g: Graph, done: seq<TaskId>, t: TaskId)
    requires t in g.tasks && t in g.deps
    ensures TasksIn(g, done + [t]) == TasksIn(g, done)[t := g.tasks[t].Detached()]
    ensures DepsIn(g, done + [t]) == DepsIn(g, done)[t := g.deps[t]]
    ensures t in DepsIn(g, done) <==> t in done
  {
    hide Task.Detached;
    assert forall u :: u in done + [t] <==> u in done || u == t;
  }

  lemma {:induction false} AllLoad(s: Database, ids: seq<TaskId>)
    requires forall t {:trigger t in ids} :: t in ids ==> LoadTask(s, t).Ok?
    ensures LoadAll(s, ids) == None
  {
    if ids != [] {
      var front := ids[..|ids| - 1];
      assert ids[|ids| - 1] in ids && forall t :: t in front ==> t in ids;
      AllLoad(s, front);
    }
  }

  lemma MembersLoad(s: Database, g: Graph, t: TaskId)
    requires Saved(s, g) && g.WellFormed() && g.Proper() && t in g.deps
    ensures LoadTask(s, t) == Ok(g.tasks[t].Detached())
  {
    assert t in g.order && g.tasks[t].id == t;
    HeldLoads(s, g.tasks[t]);
  }

  lemma {:induction false} RebuiltIs(s: Database, g: Graph, k: nat)
    requires Saved(s, g) && g.WellFormed() && g.Proper() && g.Closed() && k <= |g.order|
    requires g.id in s.graphs && forall i :: 0 <= i < |g.order| ==> MemberKey(g.id, g.order[i]) in s.members
    ensures Rebuilt(s, g.id, g.order, k) == Ok(DetachedGraph(g, g.order[..k]))
  {
    hide Holds, EdgesOf, MembersOf, LoadTask, DepOrder, Saved, Graph.Add, DetachedGraph, Task.Detached, DepsOf;
    if k > 0 {
      RebuiltIs(s, g, k - 1);
      var t := g.order[k - 1];
      assert t in g.order && g.order[..k] == g.order[..k - 1] + [t] && t !in g.order[..k - 1];
      SavedParts(s, g, k - 1);
      DepOrderIs(s, g, t);
      MembersLoad(s, g, t);
      forall d | d in g.deps[t] ensures LoadTask(s, d).Ok? { MembersLoad(s, g, d); }
      AllLoad(s, g.deps[t]);
      AddedNext(g, g.order[..k - 1], t);
    } else {
      EmptyStart(s, g);
    }
  }

  lemma EmptyStart(s: Database, g: Graph)
    requires Saved(s, g)
    ensures g.id in s.graphs
    ensures DetachedGraph(g, g.order[..0])
        == Graph(g.id, s.graphs[g.id].title, s.graphs[g.id].createdAt, [], map[], map[], {}, {})
  {
  }

  lemma SavedParts(s: Database, g: Graph, i: nat)
    requires Saved(s, g) && g.WellFormed() && i < |g.order|
    ensures var t := g.order[i];
            && DepsOf(s.edges, g.id, t, g.deps[t])
            && s.members[MemberKey(g.id, t)] == MemberRow(t in g.finals, t in g.optional, i)
  {
    assert g.order[i] in g.order;
  }

  /** Saving a graph, whatever the tables held, and loading it gives the same graph back: id,
      title, time, task order, ordered dependencies, flags, tasks and results (without raw
      values). */
  lemma GraphRoundTrip(s: Database, g: Graph)
    requires g.WellFormed() && g.Proper() && g.Closed()
    ensures SaveGraph(s, g).Ok?
    ensures LoadGraph(SaveGraph(s, g).value, g.id) == Ok(DetachedGraph(g, g.order))
    ensures OthersUntouched(s, SaveGraph(s, g).value, g)
  {
    hide Holds, EdgesOf, MembersOf, LoadTask, SaveGraph, OthersUntouched, Rebuilt, DetachedGraph, MemberOrder,
        TG.Distinct;
    SaveEffect(s, g);
    var s' := SaveGraph(s, g).value;
    SavedMembers(s', g);
    MemberOrderIs(s', g);
    RebuiltIs(s', g, |g.order|);
    assert g.order[..|g.order|] == g.order;
  }

  /** The same task, with the result but for its raw value. */
  predicate SameButRaw(t: Task, u: Task) {
    && u.id == t.id && u.title == t.title && u.description == t.description && u.payload == t.payload
    && u.typ == t.typ && u.status == t.status && u.error == t.error && u.timeout == t.timeout
    && u.blockedBy == t.blockedBy && u.createdAt == t.createdAt && (u.result.Some? <==> t.result.Some?)
    && (t.result.Some? ==>
          var r, r' := t.result.value, u.result.value;
          && r'.taskId == r.taskId && r'.status == r.status && r'.startedAt == r.startedAt
          && r'.finishedAt == r.finishedAt && r'.duration == r.duration && r'.output == r.output
          && r'.error == r.error && r'.returncode == r.returncode && r'.reason == r.reason && r'.raw == None)
  }

  /** The round trip, part by part: a saved graph comes back with the same identity, title and time,
      the same tasks in the same order, the same ordered dependencies and the same flags. */
  lemma GraphComesBack(s: Database, g: Graph)
    requires g.WellFormed() && g.Proper() && g.Closed()
    ensures SaveGraph(s, g).Ok? && LoadGraph(SaveGraph(s, g).value, g.id).Ok?
    ensures var d := LoadGraph(SaveGraph(s, g).value, g.id).value;
            && d.id == g.id && d.title == g.title && d.createdAt == g.createdAt && d.order == g.order
            && d.deps == g.deps && d.finals == g.finals && d.optional == g.optional && d.tasks.Keys == g.tasks.Keys
            && forall t {:trigger d.tasks[t]} :: t in g.tasks ==> SameButRaw(g.tasks[t], d.tasks[t])
  {
    hide LoadGraph, SaveGraph, OthersUntouched;
    GraphRoundTrip(s, g);
    assert FlagsIn(g.finals, g.order) == g.finals && FlagsIn(g.optional, g.order) == g.optional;
    assert DepsIn(g, g.order) == g.deps;
  }

  lemma SavedMembers(s: Database, g: Graph)
    requires Saved(s, g) && g.WellFormed()
    ensures EdgesHaveMembers(s, g.id) && forall i :: 0 <= i < |g.order| ==> MemberKey(g.id, g.order[i]) in s.members
  {
    forall k | k in s.edges && k.graph == g.id ensures MemberKey(g.id, k.task) in s.members {
      assert k == EdgeKey(g.id, k.task, k.dep);
      if k.task !in g.order { assert false; }
    }
  }
}
