/** Referential integrity over any history of saves and deletes, and `ok` after a reload. */
module Integrity {
  import opened Lifecycle
  import opened Tables
  import opened Storage
  import TG = TaskGraphs
  import S = Scheduling
  import Guard

  /** Rows that convert back. */
  predicate ValidRow(r: TaskRow) {
    ParseType(r.typ).Some? && ParseStatus(r.status).Some? && (r.timeout.Some? ==> r.timeout.value > 0.0)
  }

  ghost predicate RowsValid(s: Database) {
    && s.results.Keys <= s.tasks.Keys
    && (forall t {:trigger s.tasks[t]} :: t in s.tasks ==> ValidRow(s.tasks[t]))
    && (forall t {:trigger s.results[t]} :: t in s.results ==> ParseStatus(s.results[t].status).Some?)
  }

  /** No row refers to a missing one, and the edges of a graph join its members. */
  ghost predicate Sound(s: Database) {
    && RowsValid(s)
    && (forall k {:trigger k in s.members} :: k in s.members ==>
          k.graph in s.graphs && k.task in s.tasks && (s.members[k].isOptional ==> s.members[k].isFinal))
    && (forall k {:trigger k in s.edges} :: k in s.edges ==>
          MemberKey(k.graph, k.task) in s.members && MemberKey(k.graph, k.dep) in s.members)
  }

  datatype Op = PutTask(task: Task) | DropTask(taskId: TaskId) | PutGraph(graph: Graph) | DropGraph(graphId: GraphId)

  /** What the library's own objects satisfy; a result may still name another task. */
  ghost predicate Admissible(op: Op) {
    match op
    case PutTask(t) => t.Constructible()
    case PutGraph(g) => g.WellFormed() && forall t {:trigger g.tasks[t]} :: t in g.tasks ==> g.tasks[t].Constructible()
    case _ => true
  }

  function Attempted(s: Database, op: Op): Reply<Database>
    requires op.PutGraph? ==>
      forall t {:trigger t in op.graph.order} ::
        t in op.graph.order ==> t in op.graph.deps && t in op.graph.tasks
  {
    match op
    case PutTask(t) => Upsert(s, t)
    case DropTask(id) => DeleteTask(s, id)
    case PutGraph(g) => SaveGraph(s, g)
    case DropGraph(g) => DeleteGraph(s, g)
  }

  /** A failing operation is rolled back. */
  function Apply(s: Database, op: Op): Database
    requires op.PutGraph? ==>
      forall t {:trigger t in op.graph.order} ::
        t in op.graph.order ==> t in op.graph.deps && t in op.graph.tasks
  {
    match Attempted(s, op) case Ok(s') => s' case Fails(_) => s
  }

  ghost predicate Leads(s: Database, ops: seq<Op>, s': Database)
    decreases |ops|
  {
    if ops == [] then s == s' else Admissible(ops[0]) && Leads(Apply(s, ops[0]), ops[1..], s')
  }

  lemma UpsertKeepsRows(s: Database, t: Task)
    requires RowsValid(s) && t.Constructible() && Upsert(s, t).Ok?
    ensures var s' := Upsert(s, t).value;
            && RowsValid(s') && s'.tasks.Keys == s.tasks.Keys + {t.id}
            && s'.graphs == s.graphs && s'.members == s.members && s'.edges == s.edges
  {
    TextsRoundTrip(t.status);
    if t.result.Some? { TextsRoundTrip(t.result.value.status); }
  }

  lemma {:induction false} UpsertFirstKeepsRows(s: Database, g: Graph, k: nat)
    requires RowsValid(s) && g.WellFormed() && k <= |g.order| && UpsertFirst(s, g, k).Ok?
    requires forall t {:trigger g.tasks[t]} :: t in g.tasks ==> g.tasks[t].Constructible()
    ensures var s' := UpsertFirst(s, g, k).value;
            && RowsValid(s') && s'.tasks.Keys == s.tasks.Keys + TG.Elements(g.order[..k])
            && s'.graphs == s.graphs && s'.members == s.members && s'.edges == s.edges
  {
    hide Upsert, RowsValid;
    if k > 0 {
      UpsertFirstKeepsRows(s, g, k - 1);
      var t := g.order[k - 1];
      assert t in g.order && g.order[..k] == g.order[..k - 1] + [t] && g.tasks[t].id == t;
      UpsertKeepsRows(UpsertFirst(s, g, k - 1).value, g.tasks[t]);
      assert TG.Elements(g.order[..k]) == TG.Elements(g.order[..k - 1]) + {t};
    }
  }

  lemma SaveKeepsSound(s: Database, g: Graph)
    requires Sound(s) && Admissible(PutGraph(g)) && SaveGraph(s, g).Ok?
    ensures Sound(SaveGraph(s, g).value)
  {
    hide UpsertFirst, MembersOf, EdgesOf, OtherMembersSame, OtherEdgesSame, RowsValid, InsertMembers, InsertEdges;
    var n := |g.order|;
    UpsertFirstKeepsRows(s, g, n);
    RegisteredIffClosed(g);
    var s1, s' := UpsertFirst(s, g, n).value, SaveGraph(s, g).value;
    assert g.order[..n] == g.order;
    DroppedRows(s1, g);
    InsertMembersEffect(DropMembers(s1.members, g.id), g, n);
    InsertEdgesEffect(DropEdges(s1.edges, g.id), g, n);
    SameAcross(s1, DropMembers(s1.members, g.id), s'.members, DropEdges(s1.edges, g.id), s'.edges, g.id);
    SameValidity(s1, s');
    RowsJoin(s, s', g);
  }

  lemma SameValidity(s: Database, s': Database)
    requires RowsValid(s) && s'.tasks == s.tasks && s'.results == s.results
    ensures RowsValid(s')
  {
  }

  lemma RowsJoin(s: Database, s': Database, g: Graph)
    requires Sound(s) && RowsValid(s') && g.WellFormed() && g.Closed()
    requires s'.tasks.Keys == s.tasks.Keys + TG.Elements(g.order) && s'.graphs.Keys == s.graphs.Keys + {g.id}
    requires MembersOf(s'.members, g, g.order) && EdgesOf(s'.edges, g, g.order)
    requires OtherMembersSame(s.members, s'.members, g.id) && OtherEdgesSame(s.edges, s'.edges, g.id)
    ensures Sound(s')
  {
    hide RowsValid;
    forall k | k in s'.members
      ensures k.graph in s'.graphs && k.task in s'.tasks && (s'.members[k].isOptional ==> s'.members[k].isFinal)
    {
      if k.graph == g.id {
        assert k == MemberKey(g.id, k.task);
        var i :| 0 <= i < |g.order| && g.order[i] == k.task;
      }
    }
    forall k | k in s'.edges
      ensures MemberKey(k.graph, k.task) in s'.members && MemberKey(k.graph, k.dep) in s'.members
    {
      if k.graph == g.id { EdgeJoinsMembers(s', g, k); } else { assert k in s.edges; }
    }
  }

  lemma EdgeJoinsMembers(s: Database, g: Graph, k: EdgeKey)
    requires g.WellFormed() && g.Closed() && MembersOf(s.members, g, g.order) && EdgesOf(s.edges, g, g.order)
    requires k in s.edges && k.graph == g.id
    ensures MemberKey(k.graph, k.task) in s.members && MemberKey(k.graph, k.dep) in s.members
  {
    assert k == EdgeKey(g.id, k.task, k.dep);
    if k.task !in g.order { assert false; }
    assert k.dep in g.deps[k.task] && k.dep in g.order;
  }

  lemma ApplyKeepsSound(s: Database, op: Op)
    requires Sound(s) && Admissible(op)
    ensures Sound(Apply(s, op))
  {
    hide Upsert, SaveGraph, RowsValid;
    match op {
      case PutTask(t) => if Upsert(s, t).Ok? { UpsertKeepsRows(s, t); }
      case PutGraph(g) => if SaveGraph(s, g).Ok? { SaveKeepsSound(s, g); }
      case DropTask(id) => if id in s.tasks { DropKeepsRows(s, id); }
      case DropGraph(g) => if g in s.graphs { SameValidity(s, DeleteGraph(s, g).value); }
    }
  }

  lemma DropKeepsRows(s: Database, id: TaskId)
    requires RowsValid(s) && id in s.tasks
    ensures RowsValid(DeleteTask(s, id).value)
  {
  }

  lemma {:induction false} HistoryKeepsSound(s: Database, ops: seq<Op>, s': Database)
    requires Sound(s) && Leads(s, ops, s')
    ensures Sound(s')
    decreases |ops|
  {
    hide Sound, Apply;
    if ops != [] {
      ApplyKeepsSound(s, ops[0]);
      HistoryKeepsSound(Apply(s, ops[0]), ops[1..], s');
    }
  }

  // ---- Loading from sound tables -----------------------------------------------------------

  lemma SoundTasksLoad(s: Database, t: TaskId)
    requires RowsValid(s) && t in s.tasks
    ensures LoadTask(s, t).Ok? && LoadTask(s, t).value.id == t
    ensures LoadTask(s, t).value.Constructible() && LoadTask(s, t).value.OwnsResult()
  {
  }

  lemma DepOrderHolds(s: Database, g: GraphId, t: TaskId)
    ensures TG.Distinct(DepOrder(s, g, t))
    ensures forall d {:trigger d in DepOrder(s, g, t)} :: d in DepOrder(s, g, t) <==> EdgeKey(g, t, d) in s.edges
  {
    var pos := DepPositions(s, g, t);
    SortedDistinct(pos.Keys, pos);
    SortedHolds(pos.Keys, pos);
    forall d ensures d in pos <==> EdgeKey(g, t, d) in s.edges {
      if d in pos { var k :| k in s.edges && k.graph == g && k.task == t && k.dep == d; assert k == EdgeKey(g, t, d); }
      if EdgeKey(g, t, d) in s.edges { assert EdgeKey(g, t, d).dep == d; }
    }
  }

  /** A load fails with a KeyError for a missing task, and with a ValueError for a row or a result
      row that does not convert back. */
  lemma LoadProblems(s: Database, t: TaskId)
    ensures LoadTask(s, t) == Fails(KeyError) <==> t !in s.tasks
    ensures LoadTask(s, t) == Fails(ValueError)
       <==> t in s.tasks && !(ValidRow(s.tasks[t]) && (t in s.results ==> ParseStatus(s.results[t].status).Some?))
    ensures LoadTask(s, t) != Fails(IntegrityError)
  {
  }

  /** The dependencies of a member are loaded, too, and the first that does not load is the
      problem reported. */
  lemma {:induction false} LoadAllStops(s: Database, ids: seq<TaskId>)
    ensures LoadAll(s, ids) == None <==> forall i :: 0 <= i < |ids| ==> LoadTask(s, ids[i]).Ok?
    ensures forall e :: LoadAll(s, ids) == Some(e) ==>
              exists i {:trigger ids[i]} :: 0 <= i < |ids| && LoadTask(s, ids[i]) == Fails(e)
                && forall j :: 0 <= j < i ==> LoadTask(s, ids[j]).Ok?
  {
    hide LoadTask;
    if ids != [] {
      var front := ids[..|ids| - 1];
      LoadAllStops(s, front);
      forall e | LoadAll(s, ids) == Some(e)
        ensures exists i {:trigger ids[i]} :: 0 <= i < |ids| && LoadTask(s, ids[i]) == Fails(e)
                  && forall j :: 0 <= j < i ==> LoadTask(s, ids[j]).Ok?
      {
        if LoadAll(s, front) == Some(e) {
          var i :| 0 <= i < |front| && LoadTask(s, front[i]) == Fails(e)
              && forall j :: 0 <= j < i ==> LoadTask(s, front[j]).Ok?;
          assert ids[i] == front[i];
        } else {
          assert LoadTask(s, ids[|ids| - 1]) == Fails(e);
        }
      }
    }
  }

  /** Whatever the tables hold, a graph loads only if its edges start at members, its members load,
      and so do all their dependencies. */
  lemma GraphNeedsRows(s: Database, g: GraphId)
    ensures LoadGraph(s, g).Ok? ==>
              && g in s.graphs && EdgesHaveMembers(s, g)
              && forall t {:trigger MemberKey(g, t)} :: MemberKey(g, t) in s.members ==>
                   LoadTask(s, t).Ok? && forall d :: EdgeKey(g, t, d) in s.edges ==> LoadTask(s, d).Ok?
    ensures g !in s.graphs || !EdgesHaveMembers(s, g) ==> LoadGraph(s, g) == Fails(KeyError)
  {
    hide LoadTask, Rebuilt, EdgesHaveMembers;
    if LoadGraph(s, g).Ok? {
      MemberOrderHolds(s, g);
      var order := MemberOrder(s, g);
      forall i | 0 <= i < |order| ensures MemberKey(g, order[i]) in s.members { assert order[i] in order; }
      forall t | MemberKey(g, t) in s.members
        ensures LoadTask(s, t).Ok? && forall d :: EdgeKey(g, t, d) in s.edges ==> LoadTask(s, d).Ok?
      {
        assert t in order;
        var i :| 0 <= i < |order| && order[i] == t;
        RebuiltNeedsRows(s, g, order, |order|, i);
        DepOrderHolds(s, g, t);
        forall d | EdgeKey(g, t, d) in s.edges ensures LoadTask(s, d).Ok? {
          assert d in DepOrder(s, g, t);
          LoadAllStops(s, DepOrder(s, g, t));
        }
      }
    }
  }

  lemma {:induction false} RebuiltNeedsRows(s: Database, g: GraphId, order: seq<TaskId>, k: nat, i: nat)
    requires g in s.graphs && i < k <= |order| && forall i :: 0 <= i < |order| ==> MemberKey(g, order[i]) in s.members
    requires Rebuilt(s, g, order, k).Ok?
    ensures LoadTask(s, order[i]).Ok? && LoadAll(s, DepOrder(s, g, order[i])) == None
  {
    hide LoadTask, LoadAll, DepOrder, Graph.Add;
    if i < k - 1 { RebuiltNeedsRows(s, g, order, k - 1, i); }
  }

  /** The rebuilt graph mirrors its rows. */
  ghost predicate Mirrors(s: Database, g: GraphId, done: seq<TaskId>, graph: Graph) {
    && graph.order == done && graph.deps.Keys == TG.Elements(done) && graph.tasks.Keys == TG.Elements(done)
    && graph.optional <= graph.finals <= TG.Elements(done)
    && (forall t {:trigger graph.deps[t]} :: t in done ==> graph.deps[t] == DepOrder(s, g, t))
    && (forall t {:trigger graph.tasks[t]} :: t in done ==> LoadTask(s, t) == Ok(graph.tasks[t]))
  }

  lemma MirrorsNext(s: Database, g: GraphId, done: seq<TaskId>, graph: Graph, t: TaskId, task: Task, isFinal: bool,
      required: bool)
    requires Mirrors(s, g, done, graph) && t !in done && LoadTask(s, t) == Ok(task) && task.id == t
    ensures Mirrors(s, g, done + [t], graph.Add(task, DepOrder(s, g, t), isFinal, required))
  {
    hide LoadTask, DepOrder, TG.Dedup;
    DepOrderHolds(s, g, t);
    TG.DedupKeepsAll(DepOrder(s, g, t));
    assert TG.Elements(done + [t]) == TG.Elements(done) + {t};
  }

  lemma {:induction false} RebuiltMirrors(s: Database, g: GraphId, order: seq<TaskId>, k: nat)
    requires Sound(s) && g in s.graphs && k <= |order| && TG.Distinct(order)
    requires forall i :: 0 <= i < |order| ==> MemberKey(g, order[i]) in s.members
    ensures Rebuilt(s, g, order, k).Ok? && Mirrors(s, g, order[..k], Rebuilt(s, g, order, k).value)
  {
    hide Mirrors, LoadTask, DepOrder, Graph.Add, RowsValid;
    if k == 0 {
      EmptyMirrors(s, g, order);
    } else {
      RebuiltMirrors(s, g, order, k - 1);
      var t := order[k - 1];
      assert MemberKey(g, t) in s.members && order[..k] == order[..k - 1] + [t] && t !in order[..k - 1];
      DepsLoad(s, g, t);
      var row := s.members[MemberKey(g, t)];
      MirrorsNext(s, g, order[..k - 1], Rebuilt(s, g, order, k - 1).value, t, LoadTask(s, t).value,
                  row.isFinal, !(row.isFinal && row.isOptional));
    }
  }

  lemma DepsLoad(s: Database, g: GraphId, t: TaskId)
    requires Sound(s) && MemberKey(g, t) in s.members
    ensures LoadTask(s, t).Ok? && LoadTask(s, t).value.id == t && LoadAll(s, DepOrder(s, g, t)) == None
  {
    hide LoadTask, DepOrder, RowsValid;
    SoundTasksLoad(s, t);
    DepOrderHolds(s, g, t);
    forall d | d in DepOrder(s, g, t) ensures LoadTask(s, d).Ok? {
      assert EdgeKey(g, t, d) in s.edges;
      assert MemberKey(g, d) in s.members;
      SoundTasksLoad(s, d);
    }
    AllLoad(s, DepOrder(s, g, t));
  }

  lemma EmptyMirrors(s: Database, g: GraphId, order: seq<TaskId>)
    requires g in s.graphs
    ensures Mirrors(s, g, order[..0], Graph(g, s.graphs[g].title, s.graphs[g].createdAt, [], map[], map[], {}, {}))
  {
  }

  /** Every stored graph loads, without a missing key, as a graph that is well formed, closed
      under dependencies and fit to be saved again. */
  lemma SoundGraphsLoad(s: Database, g: GraphId)
    requires Sound(s) && g in s.graphs
    ensures LoadGraph(s, g).Ok?
    ensures var graph := LoadGraph(s, g).value; graph.WellFormed() && graph.Closed() && graph.Proper()
  {
    hide LoadTask, DepOrder, Rebuilt, Mirrors;
    var order := MemberOrder(s, g);
    MemberOrderHolds(s, g);
    SortedDistinct(Positions(s, g).Keys, Positions(s, g));
    forall i | 0 <= i < |order| ensures MemberKey(g, order[i]) in s.members { assert order[i] in order; }
    RebuiltMirrors(s, g, order, |order|);
    assert order[..|order|] == order;
    MirrorIsWellFormed(s, g, order, LoadGraph(s, g).value);
  }

  lemma MirrorIsWellFormed(s: Database, g: GraphId, order: seq<TaskId>, graph: Graph)
    requires Sound(s) && Mirrors(s, g, order, graph) && TG.Distinct(order)
    requires forall t {:trigger t in order} :: t in order <==> MemberKey(g, t) in s.members
    ensures graph.WellFormed() && graph.Closed() && graph.Proper()
  {
    hide LoadTask, DepOrder;
    forall t | t in order
      ensures t in graph.deps && TG.Distinct(graph.deps[t]) && (forall d :: d in graph.deps[t] ==> d in graph.deps)
      ensures graph.tasks[t].id == t && graph.tasks[t].Constructible() && graph.tasks[t].OwnsResult()
    {
      SoundTasksLoad(s, t);
      DepOrderHolds(s, g, t);
      forall d | d in graph.deps[t] ensures d in graph.deps {
        assert EdgeKey(g, t, d) in s.edges;
        assert MemberKey(g, d) in s.members && d in order;
      }
    }
  }

  /** After any history from the empty store, every stored graph loads. */
  lemma StoredGraphsLoad(ops: seq<Op>, s: Database, g: GraphId)
    requires Leads(EMPTY, ops, s) && g in s.graphs
    ensures LoadGraph(s, g).Ok?
    ensures var graph := LoadGraph(s, g).value; graph.WellFormed() && graph.Closed() && graph.Proper()
  {
    HistoryKeepsSound(EMPTY, ops, s);
    SoundGraphsLoad(s, g);
  }

  lemma RebuiltId(s: Database, g: GraphId, order: seq<TaskId>, k: nat)
    requires g in s.graphs && k <= |order| && forall i :: 0 <= i < |order| ==> MemberKey(g, order[i]) in s.members
    ensures Rebuilt(s, g, order, k).Ok? ==> Rebuilt(s, g, order, k).value.id == g
  {
    hide LoadTask, DepOrder, LoadAll;
    if k > 0 { RebuiltId(s, g, order, k - 1); }
  }

  lemma MirrorIsDetached(s: Database, g: GraphId, graph: Graph)
    requires Mirrors(s, g, graph.order, graph)
    ensures DetachedGraph(graph, graph.order) == graph
  {
    hide DepOrder, LoadTask, Task.Detached;
    forall t | t in graph.tasks ensures graph.tasks[t].Detached() == graph.tasks[t] {
      assert t in graph.order;
      LoadedHasNoRaw(s, t, graph.tasks[t]);
    }
    assert TasksIn(graph, graph.order) == graph.tasks;
    assert DepsIn(graph, graph.order) == graph.deps;
    assert FlagsIn(graph.finals, graph.order) == graph.finals;
    assert FlagsIn(graph.optional, graph.order) == graph.optional;
  }

  lemma LoadedHasNoRaw(s: Database, t: TaskId, task: Task)
    requires LoadTask(s, t) == Ok(task)
    ensures task.Detached() == task
  {
  }

  lemma LoadedIsDetached(s: Database, g: GraphId)
    requires Sound(s) && g in s.graphs
    ensures LoadGraph(s, g).Ok? && LoadGraph(s, g).value.id == g
    ensures DetachedGraph(LoadGraph(s, g).value, LoadGraph(s, g).value.order) == LoadGraph(s, g).value
  {
    hide LoadTask, DepOrder, Rebuilt, Mirrors, DetachedGraph;
    var order := MemberOrder(s, g);
    MemberOrderHolds(s, g);
    SortedDistinct(Positions(s, g).Keys, Positions(s, g));
    forall i | 0 <= i < |order| ensures MemberKey(g, order[i]) in s.members { assert order[i] in order; }
    RebuiltMirrors(s, g, order, |order|);
    RebuiltId(s, g, order, |order|);
    assert order[..|order|] == order;
    MirrorOrder(s, g, order, LoadGraph(s, g).value);
    MirrorIsDetached(s, g, LoadGraph(s, g).value);
  }

  lemma MirrorOrder(s: Database, g: GraphId, order: seq<TaskId>, graph: Graph)
    requires Mirrors(s, g, order, graph)
    ensures graph.order == order
  {
  }

  /** What a load returns, saved once more into any store, loads as the very same graph. */
  lemma ReloadIsStable(ops: seq<Op>, s: Database, g: GraphId, other: Database)
    requires Leads(EMPTY, ops, s) && g in s.graphs
    ensures LoadGraph(s, g).Ok? && LoadGraph(s, g).value.WellFormed() && SaveGraph(other, LoadGraph(s, g).value).Ok?
    ensures LoadGraph(SaveGraph(other, LoadGraph(s, g).value).value, g) == LoadGraph(s, g)
  {
    hide LoadGraph, SaveGraph, DetachedGraph, Leads;
    StoredGraphsLoad(ops, s, g);
    HistoryKeepsSound(EMPTY, ops, s);
    LoadedIsDetached(s, g);
    GraphRoundTrip(other, LoadGraph(s, g).value);
  }

  // ---- Deleting --------------------------------------------------------------------------

  /** Deleting a graph keeps every task, and every other graph loads as before. */
  lemma DeleteGraphKeepsTheRest(s: Database, g: GraphId)
    ensures g !in s.graphs ==> DeleteGraph(s, g) == Fails(KeyError) && LoadGraph(s, g) == Fails(KeyError)
    ensures g in s.graphs ==>
            DeleteGraph(s, g).Ok? &&
            var s' := DeleteGraph(s, g).value;
            && s'.tasks == s.tasks && s'.results == s.results
            && LoadGraph(s', g) == Fails(KeyError)
            && forall h {:trigger LoadGraph(s', h)} :: h != g ==> LoadGraph(s', h) == LoadGraph(s, h)
  {
    hide LoadGraph;
    if g in s.graphs {
      var s' := DeleteGraph(s, g).value;
      GoneGraph(s', g);
      forall h | h != g ensures LoadGraph(s', h) == LoadGraph(s, h) {
        DroppedRowsOf(s, g);
        SameGraphLoads(s, s', h);
      }
    } else {
      GoneGraph(s, g);
    }
  }

  lemma GoneGraph(s: Database, g: GraphId)
    requires g !in s.graphs
    ensures LoadGraph(s, g) == Fails(KeyError)
  {
  }

  lemma DroppedRowsOf(s: Database, g: GraphId)
    ensures OtherMembersSame(s.members, DropMembers(s.members, g), g)
        && OtherEdgesSame(s.edges, DropEdges(s.edges, g), g)
  {
  }

  /** The rows of graph `h` are the same in both. */
  ghost predicate SameGraphRows(s: Database, s': Database, h: GraphId) {
    && (forall k: MemberKey {:trigger k in s'.members} {:trigger k in s.members} :: k.graph == h ==>
          (k in s'.members <==> k in s.members) && (k in s.members ==> s'.members[k] == s.members[k]))
    && (forall k: EdgeKey {:trigger k in s'.edges} {:trigger k in s.edges} :: k.graph == h ==>
          (k in s'.edges <==> k in s.edges) && (k in s.edges ==> s'.edges[k] == s.edges[k]))
  }

  lemma SameMemberRows(s: Database, s': Database, h: GraphId)
    requires SameGraphRows(s, s', h)
    ensures EdgesHaveMembers(s', h) <==> EdgesHaveMembers(s, h)
    ensures MemberOrder(s', h) == MemberOrder(s, h)
  {
    hide Sorted;
    assert Positions(s', h) == Positions(s, h);
  }

  lemma SameDepOrder(s: Database, s': Database, h: GraphId, t: TaskId)
    requires SameGraphRows(s, s', h)
    ensures DepOrder(s', h, t) == DepOrder(s, h, t)
  {
    hide Sorted;
    assert DepPositions(s', h, t) == DepPositions(s, h, t);
  }

  lemma SameMember(s: Database, s': Database, h: GraphId, t: TaskId)
    requires SameGraphRows(s, s', h) && MemberKey(h, t) in s.members
    ensures MemberKey(h, t) in s'.members && s'.members[MemberKey(h, t)] == s.members[MemberKey(h, t)]
  {
  }

  /** The rows of `h` and of the tasks decide what `h` loads as. */
  lemma SameGraphLoads(s: Database, s': Database, h: GraphId)
    requires s'.tasks == s.tasks && s'.results == s.results && SameGraphRows(s, s', h)
    requires (h in s'.graphs <==> h in s.graphs) && (h in s.graphs ==> s'.graphs[h] == s.graphs[h])
    ensures LoadGraph(s', h) == LoadGraph(s, h)
  {
    hide Rebuilt, MemberOrder, DepOrder, SameGraphRows, EdgesHaveMembers;
    SameMemberRows(s, s', h);
    if h in s.graphs && EdgesHaveMembers(s, h) {
      MemberOrderHolds(s, h);
      var order := MemberOrder(s, h);
      forall i | 0 <= i < |order|
        ensures MemberKey(h, order[i]) in s.members && MemberKey(h, order[i]) in s'.members
        ensures s'.members[MemberKey(h, order[i])] == s.members[MemberKey(h, order[i])]
      {
        assert order[i] in order;
        SameMember(s, s', h, order[i]);
      }
      forall t ensures DepOrder(s', h, t) == DepOrder(s, h, t) { SameDepOrder(s, s', h, t); }
      SameRebuilt(s, s', h, order, |order|);
    }
  }

  lemma {:induction false} SameLoadAll(s: Database, s': Database, ids: seq<TaskId>)
    requires s'.tasks == s.tasks && s'.results == s.results
    ensures LoadAll(s', ids) == LoadAll(s, ids)
  {
    if ids != [] { SameLoadAll(s, s', ids[..|ids| - 1]); }
  }

  lemma {:induction false} SameRebuilt(s: Database, s': Database, h: GraphId, order: seq<TaskId>, k: nat)
    requires s'.tasks == s.tasks && s'.results == s.results && h in s.graphs && h in s'.graphs
        && s'.graphs[h] == s.graphs[h]
    requires k <= |order| && forall i :: 0 <= i < |order| ==>
      MemberKey(h, order[i]) in s.members && MemberKey(h, order[i]) in s'.members
    requires forall i :: 0 <= i < |order| ==> s'.members[MemberKey(h, order[i])] == s.members[MemberKey(h, order[i])]
    requires forall t {:trigger DepOrder(s', h, t)} {:trigger DepOrder(s, h, t)} ::
        DepOrder(s', h, t) == DepOrder(s, h, t)
    ensures Rebuilt(s', h, order, k) == Rebuilt(s, h, order, k)
  {
    hide DepOrder, LoadAll, Graph.Add;
    if k > 0 {
      SameRebuilt(s, s', h, order, k - 1);
      SameLoadAll(s, s', DepOrder(s, h, order[k - 1]));
    }
  }

  // ---- `ok` after a reload -----------------------------------------------------------------

  function Statuses(g: Graph): map<TaskId, Status> {
    map t | t in g.tasks :: g.tasks[t].status
  }

  lemma DetachedKeepsStatuses(g: Graph)
    requires g.WellFormed()
    ensures var d := DetachedGraph(g, g.order);
            && d.deps == g.deps && d.optional == g.optional && Statuses(d) == Statuses(g)
            && Statuses(g).Keys == g.deps.Keys
  {
    assert DepsIn(g, g.order) == g.deps;
    assert FlagsIn(g.optional, g.order) == g.optional;
  }

  /** A graph saved after a run has the same `ok` when it is loaded again, although the
      recorded errors are not stored. */
  lemma OkSurvivesReload(p: S.Plan, run: S.State, g: Graph, s: Database)
    requires S.Reachable(p, run) && g.WellFormed() && g.Proper() && g.Closed()
    requires g.order == p.order && g.deps == p.deps && g.finals == p.finals && Statuses(g) == run.status
    ensures SaveGraph(s, g).Ok? && LoadGraph(SaveGraph(s, g).value, g.id).Ok?
    ensures var loaded := LoadGraph(SaveGraph(s, g).value, g.id).value;
            && Statuses(loaded).Keys == loaded.deps.Keys == p.deps.Keys
            && (Guard.Ok(loaded.deps.Keys, Statuses(loaded), {}, loaded.optional)
                <==> Guard.Ok(p.deps.Keys, run.status, run.errors, g.optional))
  {
    hide SaveGraph, LoadGraph, Statuses, DetachedGraph, S.Reachable, Graph.WellFormed, Graph.Proper, Graph.Closed,
        Guard.Ok;
    GraphRoundTrip(s, g);
    DetachedKeepsStatuses(g);
    Guard.ErrorsAreRedundant(p, run, g.optional);
  }
}
