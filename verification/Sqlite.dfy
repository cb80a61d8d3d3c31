/** The collections of `SQLiteStore`, statement by statement.  A map comprehension stands for
    one DELETE with its cascades, a map update for one upsert; a failing save restores the
    tables, as the transaction does. */
module Sqlite {
  import opened Lifecycle
  import opened Tables
  import TG = TaskGraphs

  /** The dependencies of `t` among edge rows, in row order. */
  function Picked(rows: seq<EdgeKey>, t: TaskId): seq<TaskId> {
    if rows == [] then []
    else
      var row, rest := rows[|rows| - 1], Picked(rows[..|rows| - 1], t);
      if row.task == t then rest + [row.dep] else rest
  }

  function EdgesFrom(g: GraphId, t: TaskId, ds: seq<TaskId>): seq<EdgeKey> {
    if ds == [] then [] else EdgesFrom(g, t, ds[..|ds| - 1]) + [EdgeKey(g, t, ds[|ds| - 1])]
  }

  lemma {:induction false} PickedFrom(rows: seq<EdgeKey>, g: GraphId, t: TaskId, ds: seq<TaskId>, u: TaskId)
    ensures Picked(rows + EdgesFrom(g, t, ds), u) == if u == t then Picked(rows, u) + ds else Picked(rows, u)
    decreases |ds|
  {
    if ds == [] {
      assert rows + [] == rows;
    } else {
      var front := ds[..|ds| - 1];
      PickedFrom(rows, g, t, front, u);
      var all := rows + EdgesFrom(g, t, ds);
      assert all[..|all| - 1] == rows + EdgesFrom(g, t, front);
      assert all[|all| - 1] == EdgeKey(g, t, ds[|ds| - 1]);
      assert ds == front + [ds[|ds| - 1]];
    }
  }

  class SqliteStore {
    var tasks: map<TaskId, TaskRow>
    var results: map<TaskId, ResultRow>
    var graphs: map<GraphId, GraphRow>
    var members: map<MemberKey, MemberRow>
    var edges: map<EdgeKey, nat>

    constructor ()
      ensures Rows() == EMPTY
    {
      tasks, results, graphs, members, edges := map[], map[], map[], map[], map[];
    }

    function Rows(): Database
      reads this
    {
      Database(tasks, results, graphs, members, edges)
    }

    method Rollback(s: Database)
      modifies this
      ensures Rows() == s
    {
      tasks, results, graphs, members, edges := s.tasks, s.results, s.graphs, s.members, s.edges;
    }

    // ---- Tasks -------------------------------------------------------------------------

    method UpsertTask(task: Task) returns (problem: Option<Problem>)
      modifies this`tasks, this`results
      ensures match Upsert(old(Rows()), task)
        case Ok(s) => problem == None && Rows() == s
        case Fails(e) => problem == Some(e)
    {
      tasks := tasks[task.id := RowOf(task)];
      if task.result.None? {
        results := results - {task.id};
      } else if task.result.value.taskId in tasks {
        results := results[task.result.value.taskId := ResultRowOf(task.result.value)];
      } else {
        return Some(IntegrityError);
      }
      return None;
    }

    method SaveTask(task: Task) returns (problem: Option<Problem>)
      modifies this
      ensures match Upsert(old(Rows()), task)
        case Ok(s) => problem == None && Rows() == s
        case Fails(e) => problem == Some(e) && Rows() == old(Rows())
    {
      var before := Rows();
      problem := UpsertTask(task);
      if problem.Some? { Rollback(before); }
    }

    method DeleteTask(id: TaskId) returns (problem: Option<Problem>)
      modifies this
      ensures match Tables.DeleteTask(old(Rows()), id)
        case Ok(s) => problem == None && Rows() == s
        case Fails(e) => problem == Some(e) && Rows() == old(Rows())
    {
      if id !in tasks { return Some(KeyError); }
      tasks := tasks - {id};
      results := results - {id};
      members := map k | k in members && k.task != id :: members[k];
      edges := map k | k in edges && k.task != id && k.dep != id :: edges[k];
      return None;
    }

    method LoadTask(id: TaskId) returns (r: Reply<Task>)
      ensures r == Tables.LoadTask(Rows(), id)
    {
      if id !in tasks { return Fails(KeyError); }
      var result := None;
      if id in results {
        result := ResultFromRow(id, results[id]);
        if result.None? { return Fails(ValueError); }
      }
      var task := TaskFromRow(id, tasks[id], result);
      r := if task.Some? then Ok(task.value) else Fails(ValueError);
    }

    // ---- Saving a graph ------------------------------------------------------------------

    method UpsertMembers(g: Graph) returns (problem: Option<Problem>)
      requires forall t {:trigger t in g.order} :: t in g.order ==> t in g.deps && t in g.tasks
      modifies this`tasks, this`results
      ensures match UpsertFirst(old(Rows()), g, |g.order|)
        case Ok(s) => problem == None && Rows() == s
        case Fails(e) => problem == Some(e)
    {
      hide Upsert;
      problem := None;
      var i := 0;
      while i < |g.order|
        invariant i <= |g.order| && problem == None && UpsertFirst(old(Rows()), g, i) == Ok(Rows())
      {
        assert g.order[i] in g.order;
        problem := UpsertTask(g.tasks[g.order[i]]);
        if problem.Some? {
          FailureStays(old(Rows()), g, i + 1, |g.order|);
          return;
        }
        i := i + 1;
      }
    }

    lemma {:induction false} FailureStays(s: Database, g: Graph, i: nat, n: nat)
      requires forall t {:trigger t in g.order} :: t in g.order ==> t in g.deps && t in g.tasks
      requires i <= n <= |g.order| && UpsertFirst(s, g, i).Fails?
      ensures UpsertFirst(s, g, n) == UpsertFirst(s, g, i)
    {
      if i < n { FailureStays(s, g, i, n - 1); }
    }

    method InsertMemberRows(g: Graph)
      requires forall t {:trigger t in g.order} :: t in g.order ==> t in g.deps && t in g.tasks
      modifies this`members
      ensures members == InsertMembers(old(members), g, |g.order|)
    {
      for position := 0 to |g.order|
        invariant members == InsertMembers(old(members), g, position)
      {
        var t := g.order[position];
        members := members[MemberKey(g.id, t) := MemberRow(t in g.finals, t in g.optional, position)];
      }
    }

    /** False stands for the KeyError of `dependencies`. */
    method InsertEdgeRows(g: Graph) returns (ok: bool)
      requires forall t {:trigger t in g.order} :: t in g.order ==> t in g.deps && t in g.tasks
      modifies this`edges
      ensures ok <==> AllRegistered(g)
      ensures ok ==> edges == InsertEdges(old(edges), g, |g.order|)
    {
      var i := 0;
      while i < |g.order|
        invariant i <= |g.order| && edges == InsertEdges(old(edges), g, i)
        invariant forall k, d {:trigger d in g.deps[g.order[k]]} ::
          0 <= k < i && g.order[k] in g.deps && d in g.deps[g.order[k]] ==> d in g.deps
      {
        var t := g.order[i];
        assert t in g.order;
        var ds := g.deps[t];
        for j := 0 to |ds|
          invariant forall d :: d in ds[..j] ==> d in g.deps
        {
          assert ds[..j + 1] == ds[..j] + [ds[j]];
          if ds[j] !in g.deps {
            assert ds[j] in g.deps[g.order[i]];
            return false;
          }
        }
        assert ds[..|ds|] == ds;
        ghost var start := edges;
        for position := 0 to |ds|
          invariant edges == InsertDeps(start, g.id, t, ds, position)
        {
          edges := edges[EdgeKey(g.id, t, ds[position]) := position];
        }
        i := i + 1;
      }
      ok := true;
    }

    method SaveGraph(g: Graph) returns (problem: Option<Problem>)
      requires forall t {:trigger t in g.order} :: t in g.order ==> t in g.deps && t in g.tasks
      modifies this
      ensures match Tables.SaveGraph(old(Rows()), g)
        case Ok(s) => problem == None && Rows() == s
        case Fails(e) => problem == Some(e) && Rows() == old(Rows())
    {
      hide UpsertFirst, InsertMembers, InsertEdges, AllRegistered;
      var before := Rows();
      problem := UpsertMembers(g);
      if problem.Some? {
        Rollback(before);
        return;
      }
      graphs := graphs[g.id := GraphRow(g.title, g.createdAt)];
      edges := DropEdges(edges, g.id);
      members := DropMembers(members, g.id);
      InsertMemberRows(g);
      var ok := InsertEdgeRows(g);
      if !ok {
        Rollback(before);
        problem := Some(KeyError);
      }
    }

    method DeleteGraph(g: GraphId) returns (problem: Option<Problem>)
      modifies this
      ensures match Tables.DeleteGraph(old(Rows()), g)
        case Ok(s) => problem == None && Rows() == s
        case Fails(e) => problem == Some(e) && Rows() == old(Rows())
    {
      if g !in graphs { return Some(KeyError); }
      graphs := graphs - {g};
      members := DropMembers(members, g);
      edges := DropEdges(edges, g);
      return None;
    }

    // ---- Loading a graph -----------------------------------------------------------------

    /** `ORDER BY position, id`. */
    static method SelectOrdered(pos: map<TaskId, nat>) returns (xs: seq<TaskId>)
      ensures xs == Sorted(pos.Keys, pos)
    {
      var rest := pos.Keys;
      xs := [];
      while rest != {}
        invariant rest <= pos.Keys && Sorted(pos.Keys, pos) == xs + Sorted(rest, pos)
        decreases rest
      {
        var m :| m in rest;
        var todo := rest - {m};
        while todo != {}
          invariant todo <= rest && m in rest && m !in todo
          invariant forall y :: y in rest && y !in todo && y != m ==> Before(pos, m, y)
          decreases todo
        {
          var x :| x in todo;
          if Before(pos, x, m) { m := x; }
          todo := todo - {x};
        }
        LeastIs(rest, pos, m);
        assert xs + ([m] + Sorted(rest - {m}, pos)) == (xs + [m]) + Sorted(rest - {m}, pos);
        xs, rest := xs + [m], rest - {m};
      }
    }

    /** The edge rows of a graph, `ORDER BY task_id, position, dependency_id`. */
    method SelectEdges(g: GraphId) returns (rows: seq<EdgeKey>)
      ensures forall t {:trigger Picked(rows, t)} :: Picked(rows, t) == DepOrder(Rows(), g, t)
      ensures forall k {:trigger k in rows} :: k in rows <==> k in edges && k.graph == g
    {
      hide Sorted;
      var from := set k | k in edges && k.graph == g :: k.task;
      var sources: map<TaskId, nat> := map t | t in from :: 0;
      var ids := SelectOrdered(sources);
      SortedHolds(sources.Keys, sources);
      SortedDistinct(sources.Keys, sources);
      rows := [];
      var i := 0;
      while i < |ids|
        invariant i <= |ids|
        invariant forall t {:trigger Picked(rows, t)} ::
            Picked(rows, t) == if t in ids[..i] then DepOrder(Rows(), g, t) else []
        invariant forall k {:trigger k in rows} :: k in rows <==> k in edges && k.graph == g && k.task in ids[..i]
      {
        var t := ids[i];
        var ds := SelectOrdered(DepPositions(Rows(), g, t));
        assert ids[..i + 1] == ids[..i] + [t] && t !in ids[..i];
        forall u
          ensures Picked(rows + EdgesFrom(g, t, ds), u) == if u in ids[..i + 1] then DepOrder(Rows(), g, u) else []
        {
          PickedFrom(rows, g, t, ds, u);
        }
        SelectedEdges(Rows(), g, t, ds);
        rows := rows + EdgesFrom(g, t, ds);
        i := i + 1;
      }
      assert ids[..i] == ids;
      forall t ensures Picked(rows, t) == DepOrder(Rows(), g, t) { NoEdges(Rows(), g, t, t in ids); }
      forall k | k in edges && k.graph == g ensures k.task in ids {}
    }

    lemma SelectedEdges(s: Database, g: GraphId, t: TaskId, ds: seq<TaskId>)
      requires ds == DepOrder(s, g, t)
      ensures forall k {:trigger k in EdgesFrom(g, t, ds)} ::
        k in EdgesFrom(g, t, ds) <==> k in s.edges && k.graph == g && k.task == t
    {
      var pos := DepPositions(s, g, t);
      SortedHolds(pos.Keys, pos);
      EdgesFromHolds(g, t, ds);
      forall k | k in s.edges && k.graph == g && k.task == t ensures k.dep in pos && k == EdgeKey(g, t, k.dep) {}
      forall d | d in pos ensures EdgeKey(g, t, d) in s.edges {
        var k :| k in s.edges && k.graph == g && k.task == t && k.dep == d;
        assert k == EdgeKey(g, t, d);
      }
    }

    lemma NoEdges(s: Database, g: GraphId, t: TaskId, some: bool)
      requires some <==> exists k {:trigger k in s.edges} :: k in s.edges && k.graph == g && k.task == t
      ensures !some ==> DepOrder(s, g, t) == []
    {
      if !some { assert DepPositions(s, g, t) == map[]; }
    }

    /** `graphs[g]`: member rows and edge rows are read, the edges grouped by task, and the
        graph rebuilt with one `add` per member row. */
    method LoadGraph(g: GraphId) returns (r: Reply<Graph>)
      ensures r == Tables.LoadGraph(Rows(), g)
    {
      hide Sorted, Tables.LoadTask, LoadAll, Graph.Add;
      if g !in graphs { return Fails(KeyError); }
      var order := SelectOrdered(Positions(Rows(), g));
      MemberOrderHolds(Rows(), g);
      var rows := SelectEdges(g);
      var depsByTask: map<TaskId, seq<TaskId>> := map t | t in order :: [];
      var i := 0;
      while i < |rows|
        invariant i <= |rows| && forall t {:trigger t in depsByTask} :: t in depsByTask <==> t in order
        invariant forall t {:trigger depsByTask[t]} :: t in order ==> depsByTask[t] == Picked(rows[..i], t)
        invariant forall j {:trigger rows[j]} :: 0 <= j < i ==> rows[j].task in order
      {
        var row := rows[i];
        assert row in rows;
        assert rows[..i + 1][..i] == rows[..i] && rows[..i + 1][i] == row;
        if row.task !in depsByTask { return Fails(KeyError); }
        depsByTask := depsByTask[row.task := depsByTask[row.task] + [row.dep]];
        i := i + 1;
      }
      assert rows[..i] == rows;
      forall k | k in edges && k.graph == g ensures MemberKey(g, k.task) in members { assert k in rows; }
      forall j | 0 <= j < |order| ensures MemberKey(g, order[j]) in members { assert order[j] in order; }
      r := Rebuild(g, order, depsByTask);
    }

    method Rebuild(g: GraphId, order: seq<TaskId>, depsByTask: map<TaskId, seq<TaskId>>) returns (r: Reply<Graph>)
      requires g in graphs && forall i {:trigger order[i]} :: 0 <= i < |order| ==> MemberKey(g, order[i]) in members
      requires forall t {:trigger depsByTask[t]} {:trigger t in order} ::
        t in order ==> t in depsByTask && depsByTask[t] == DepOrder(Rows(), g, t)
      ensures r == Rebuilt(Rows(), g, order, |order|)
    {
      hide Tables.LoadTask, LoadAll, Graph.Add, DepOrder;
      var graph := Graph(g, graphs[g].title, graphs[g].createdAt, [], map[], map[], {}, {});
      var i := 0;
      while i < |order|
        invariant i <= |order| && Rebuilt(Rows(), g, order, i) == Ok(graph)
      {
        var t := order[i];
        assert t in order;
        var task := LoadTask(t);
        var problem := if task.Fails? then Some(task.problem) else None;
        if problem.None? { problem := LoadEach(depsByTask[t]); }
        if problem.Some? {
          RebuildFails(Rows(), g, order, i + 1, |order|);
          return Fails(problem.value);
        }
        var row := members[MemberKey(g, t)];
        graph := if row.isFinal then graph.Add(task.value, depsByTask[t], true, !row.isOptional)
                 else graph.Add(task.value, depsByTask[t], false, true);
        i := i + 1;
      }
      r := Ok(graph);
    }

    method LoadEach(ids: seq<TaskId>) returns (problem: Option<Problem>)
      ensures problem == LoadAll(Rows(), ids)
    {
      hide Tables.LoadTask;
      problem := None;
      var i := 0;
      while i < |ids|
        invariant i <= |ids| && problem == None && LoadAll(Rows(), ids[..i]) == None
      {
        assert ids[..i + 1][..i] == ids[..i];
        var task := LoadTask(ids[i]);
        if task.Fails? {
          problem := Some(task.problem);
          LoadFails(Rows(), ids, i + 1);
          return;
        }
        i := i + 1;
      }
      assert ids[..i] == ids;
    }

    lemma {:induction false} LoadFails(s: Database, ids: seq<TaskId>, i: nat)
      requires i <= |ids| && LoadAll(s, ids[..i]).Some?
      ensures LoadAll(s, ids) == LoadAll(s, ids[..i])
    {
      if i == |ids| {
        assert ids[..i] == ids;
      } else {
        var front := ids[..|ids| - 1];
        assert front[..i] == ids[..i];
        LoadFails(s, front, i);
      }
    }

    lemma {:induction false} RebuildFails(s: Database, g: GraphId, order: seq<TaskId>, i: nat, n: nat)
      requires g in s.graphs && i <= n <= |order| && forall k :: 0 <= k < |order| ==>
          MemberKey(g, order[k]) in s.members
      requires Rebuilt(s, g, order, i).Fails?
      ensures Rebuilt(s, g, order, n) == Rebuilt(s, g, order, i)
    {
      if i < n { RebuildFails(s, g, order, i, n - 1); }
    }
  }

  lemma {:induction false} EdgesFromHolds(g: GraphId, t: TaskId, ds: seq<TaskId>)
    ensures forall k {:trigger k in EdgesFrom(g, t, ds)} ::
      k in EdgesFrom(g, t, ds) <==> k.graph == g && k.task == t && k.dep in ds
  {
    if ds != [] {
      var front, last := ds[..|ds| - 1], ds[|ds| - 1];
      EdgesFromHolds(g, t, front);
      assert ds == front + [last];
    }
  }
}
