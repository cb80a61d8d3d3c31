/** What deleting a task does to the rest of the store. */
module Deletion {
  import opened Lifecycle
  import opened Tables
  import opened Integrity
  import TG = TaskGraphs

  /** The list without `x`. */
  function Omit(xs: seq<TaskId>, x: TaskId): seq<TaskId> {
    if xs == [] then [] else (if xs[0] == x then [] else [xs[0]]) + Omit(xs[1..], x)
  }

  lemma {:induction false} OmitHolds(xs: seq<TaskId>, x: TaskId)
    ensures forall y :: y in Omit(xs, x) <==> y in xs && y != x
    ensures x !in xs ==> Omit(xs, x) == xs
    ensures TG.Distinct(xs) ==> TG.Distinct(Omit(xs, x))
  {
    if xs != [] {
      var rest := xs[1..];
      OmitHolds(rest, x);
      assert xs == [xs[0]] + rest;
      assert forall y :: y in xs <==> y == xs[0] || y in rest;
      if TG.Distinct(xs) {
        assert TG.Distinct(rest) && xs[0] !in rest;
        var r := Omit(xs, x);
        if xs[0] != x {
          forall i, j | 0 <= i < j < |r| ensures r[i] != r[j] {
            assert r[j] == Omit(rest, x)[j - 1] && r[j] in Omit(rest, x);
            if i > 0 { assert r[i] == Omit(rest, x)[i - 1]; }
          }
        }
      }
    }
  }

  lemma {:induction false} OmitAppend(xs: seq<TaskId>, y: TaskId, x: TaskId)
    ensures Omit(xs + [y], x) == if y == x then Omit(xs, x) else Omit(xs, x) + [y]
  {
    if xs == [] {
      assert (xs + [y])[1..] == [];
    } else {
      assert (xs + [y])[1..] == xs[1..] + [y];
      OmitAppend(xs[1..], y, x);
    }
  }

  /** The graph without one of its tasks: gone from the members and from every dependency list. */
  function Without(g: Graph, x: TaskId): Graph {
    g.(order := Omit(g.order, x), tasks := g.tasks - {x}, deps := DepsLeft(g.deps, x), finals := g.finals - {x},
       optional := g.optional - {x})
  }

  function DepsLeft(deps: map<TaskId, seq<TaskId>>, x: TaskId): map<TaskId, seq<TaskId>> {
    map t | t in deps && t != x :: Omit(deps[t], x)
  }

  /** A graph that does not hold the task stays as it is. */
  lemma WithoutAbsent(g: Graph, x: TaskId)
    requires g.WellFormed() && g.Closed() && x !in g.deps
    ensures Without(g, x) == g
  {
    OmitHolds(g.order, x);
    forall t | t in g.deps ensures Omit(g.deps[t], x) == g.deps[t] {
      OmitHolds(g.deps[t], x);
      assert x !in g.deps[t];
    }
  }

  // ---- Sorting without a task --------------------------------------------------------------------

  ghost predicate SamePositions(ids: set<TaskId>, pos: map<TaskId, nat>, pos': map<TaskId, nat>) {
    ids <= pos.Keys && ids <= pos'.Keys && forall t :: t in ids ==> pos'[t] == pos[t]
  }

  lemma {:induction false} SortedSame(ids: set<TaskId>, pos: map<TaskId, nat>, pos': map<TaskId, nat>)
    requires SamePositions(ids, pos, pos')
    ensures Sorted(ids, pos') == Sorted(ids, pos)
  {
    if ids != {} {
      var m := Least(ids, pos);
      LeastIs(ids, pos', m);
      SortedSame(ids - {m}, pos, pos');
    }
  }

  lemma {:induction false} SortedWithout(ids: set<TaskId>, pos: map<TaskId, nat>, pos': map<TaskId, nat>, x: TaskId)
    requires ids <= pos.Keys && SamePositions(ids - {x}, pos, pos')
    ensures Sorted(ids - {x}, pos') == Omit(Sorted(ids, pos), x)
  {
    if ids != {} {
      var m := Least(ids, pos);
      var rest := Sorted(ids - {m}, pos);
      assert Sorted(ids, pos)[1..] == rest;
      if m == x {
        SortedSame(ids - {x}, pos, pos');
        SortedHolds(ids - {x}, pos);
        OmitHolds(rest, x);
      } else {
        LeastIs(ids - {x}, pos', m);
        SortedWithout(ids - {m}, pos, pos', x);
        assert ids - {x} - {m} == ids - {m} - {x};
      }
    }
  }

  // ---- The rows that are left ----------------------------------------------------------------------

  lemma OrdersWithout(s: Database, x: TaskId, g: GraphId)
    requires x in s.tasks
    ensures MemberOrder(DeleteTask(s, x).value, g) == Omit(MemberOrder(s, g), x)
  {
    var s' := DeleteTask(s, x).value;
    var pos, pos' := Positions(s, g), Positions(s', g);
    forall t ensures t in pos' <==> t in pos && t != x {
      if t in pos' { var k :| k in s'.members && k.graph == g && k.task == t; assert k in s.members; }
      if t in pos && t != x { var k :| k in s.members && k.graph == g && k.task == t; assert k in s'.members; }
    }
    forall t | t in pos' ensures pos'[t] == pos[t] {
      var k :| k in s'.members && k.graph == g && k.task == t;
      assert k == MemberKey(g, t);
    }
    assert pos'.Keys == pos.Keys - {x};
    SortedWithout(pos.Keys, pos, pos', x);
  }

  lemma DepsWithout(s: Database, x: TaskId, g: GraphId, t: TaskId)
    requires x in s.tasks && t != x
    ensures DepOrder(DeleteTask(s, x).value, g, t) == Omit(DepOrder(s, g, t), x)
  {
    var s' := DeleteTask(s, x).value;
    var pos, pos' := DepPositions(s, g, t), DepPositions(s', g, t);
    forall d ensures d in pos' <==> d in pos && d != x {
      if d in pos' {
        var k :| k in s'.edges && k.graph == g && k.task == t && k.dep == d;
        assert k in s.edges;
      }
      if d in pos && d != x {
        var k :| k in s.edges && k.graph == g && k.task == t && k.dep == d;
        assert k in s'.edges;
      }
    }
    forall d | d in pos' ensures pos'[d] == pos[d] {
      var k :| k in s'.edges && k.graph == g && k.task == t && k.dep == d;
      assert k == EdgeKey(g, t, d);
    }
    assert pos'.Keys == pos.Keys - {x};
    SortedWithout(pos.Keys, pos, pos', x);
  }

  /** A deleted task is gone, and every other one loads as before. */
  lemma DeletedTaskIsGone(s: Database, x: TaskId)
    ensures x !in s.tasks ==> DeleteTask(s, x) == Fails(KeyError) && LoadTask(s, x) == Fails(KeyError)
    ensures x in s.tasks ==>
              && DeleteTask(s, x).Ok?
              && LoadTask(DeleteTask(s, x).value, x) == Fails(KeyError)
              && DeleteTask(s, x).value.graphs == s.graphs
              && forall u {:trigger LoadTask(DeleteTask(s, x).value, u)} :: u != x ==>
                   LoadTask(DeleteTask(s, x).value, u) == LoadTask(s, u)
  {
  }

  // ---- Rebuilding ------------------------------------------------------------------------------------

  lemma {:induction false} RebuiltPrefix(s: Database, g: GraphId, order: seq<TaskId>, more: seq<TaskId>, k: nat)
    requires g in s.graphs && k <= |order| && forall i :: 0 <= i < |more| ==> MemberKey(g, more[i]) in s.members
    requires order <= more
    ensures forall i :: 0 <= i < |order| ==> MemberKey(g, order[i]) in s.members
    ensures Rebuilt(s, g, order, k) == Rebuilt(s, g, more, k)
  {
    hide LoadTask, LoadAll, DepOrder, Graph.Add;
    forall i | 0 <= i < |order| ensures MemberKey(g, order[i]) in s.members { assert order[i] == more[i]; }
    if k > 0 { RebuiltPrefix(s, g, order, more, k - 1); }
  }

  /** Adding the task that is to go changes nothing in what is left. */
  lemma AddedThenOmitted(graph: Graph, task: Task, ds: seq<TaskId>, isFinal: bool, required: bool)
    ensures Without(graph.Add(task, ds, isFinal, required), task.id) == Without(graph, task.id)
  {
    hide TG.Dedup, DepsLeft;
    OmitAppend(graph.order, task.id, task.id);
    DepsAdded(graph.deps, task.id, TG.Dedup(ds), task.id);
    assert graph.tasks[task.id := task] - {task.id} == graph.tasks - {task.id};
  }

  lemma DepsAdded(deps: map<TaskId, seq<TaskId>>, t: TaskId, ds: seq<TaskId>, x: TaskId)
    ensures DepsLeft(deps[t := ds], x) == if t == x then DepsLeft(deps, x) else DepsLeft(deps, x)[t := Omit(ds, x)]
    ensures t != x ==> (t in DepsLeft(deps, x) <==> t in deps)
  {
  }

  lemma AddedWithout(graph: Graph, task: Task, ds: seq<TaskId>, isFinal: bool, required: bool, x: TaskId)
    requires task.id != x && TG.Distinct(ds)
    ensures Without(graph, x).Add(task, Omit(ds, x), isFinal, required)
         == Without(graph.Add(task, ds, isFinal, required), x)
  {
    hide TG.Dedup, TG.Distinct, DepsLeft, Omit;
    OmitAppend(graph.order, task.id, x);
    OmitHolds(ds, x);
    TG.DedupKeepsAll(ds);
    TG.DedupKeepsAll(Omit(ds, x));
    DepsAdded(graph.deps, task.id, ds, x);
    assert graph.tasks[task.id := task] - {x} == (graph.tasks - {x})[task.id := task];
    SetsAdded(graph.finals, task.id, x);
    SetsAdded(graph.optional, task.id, x);
  }

  lemma SetsAdded(a: set<TaskId>, t: TaskId, x: TaskId)
    requires t != x
    ensures a + {t} - {x} == a - {x} + {t} && a - {t} - {x} == a - {x} - {t}
  {
  }

  /** The member `order[k]` is rebuilt next. */
  lemma RebuiltNext(s: Database, g: GraphId, order: seq<TaskId>, k: nat)
    requires Sound(s) && g in s.graphs && k < |order|
    requires forall i :: 0 <= i < |order| ==> MemberKey(g, order[i]) in s.members
    requires Rebuilt(s, g, order, k).Ok?
    ensures LoadTask(s, order[k]).Ok? && LoadTask(s, order[k]).value.id == order[k]
    ensures var row := s.members[MemberKey(g, order[k])];
            Rebuilt(s, g, order, k + 1)
            == Ok(Rebuilt(s, g, order, k).value.Add(LoadTask(s, order[k]).value, DepOrder(s, g, order[k]),
                                                    row.isFinal, !(row.isFinal && row.isOptional)))
  {
    hide LoadTask, DepOrder, Graph.Add, Sound;
    assert MemberKey(g, order[k]) in s.members;
    DepsLoad(s, g, order[k]);
  }

  lemma {:induction false} RebuiltWithout(s: Database, x: TaskId, g: GraphId, order: seq<TaskId>, k: nat)
    requires Sound(s) && x in s.tasks && Sound(DeleteTask(s, x).value) && g in s.graphs && k <= |order|
        && TG.Distinct(order)
    requires forall i :: 0 <= i < |order| ==> MemberKey(g, order[i]) in s.members
    ensures var s', left := DeleteTask(s, x).value, Omit(order[..k], x);
            && g in s'.graphs && (forall i :: 0 <= i < |left| ==> MemberKey(g, left[i]) in s'.members)
            && Rebuilt(s, g, order, k).Ok?
            && Rebuilt(s', g, left, |left|) == Ok(Without(Rebuilt(s, g, order, k).value, x))
  {
    hide LoadTask, DepOrder, Graph.Add, Sound, Without, TG.Distinct, Rebuilt;
    var s', left := DeleteTask(s, x).value, Omit(order[..k], x);
    LeftAreMembers(s, x, g, order, k);
    if k == 0 {
      NothingRebuilt(s, x, g, order);
    } else {
      RebuiltWithout(s, x, g, order, k - 1);
      var t, before := order[k - 1], Omit(order[..k - 1], x);
      assert order[..k] == order[..k - 1] + [t];
      OmitAppend(order[..k - 1], t, x);
      RebuiltNext(s, g, order, k - 1);
      var row, task, ds := s.members[MemberKey(g, t)], LoadTask(s, t).value, DepOrder(s, g, t);
      var graph := Rebuilt(s, g, order, k - 1).value;
      if t == x {
        AddedThenOmitted(graph, task, ds, row.isFinal, !(row.isFinal && row.isOptional));
      } else {
        RebuiltPrefix(s', g, before, left, |before|);
        RebuiltNext(s', g, left, |before|);
        DepsWithout(s, x, g, t);
        DeletedTaskIsGone(s, x);
        DepOrderHolds(s, g, t);
        assert s'.members[MemberKey(g, t)] == row;
        AddedWithout(graph, task, ds, row.isFinal, !(row.isFinal && row.isOptional), x);
      }
    }
  }

  lemma LeftAreMembers(s: Database, x: TaskId, g: GraphId, order: seq<TaskId>, k: nat)
    requires x in s.tasks && k <= |order| && forall i :: 0 <= i < |order| ==> MemberKey(g, order[i]) in s.members
    ensures var s', left := DeleteTask(s, x).value, Omit(order[..k], x);
            s'.graphs == s.graphs && forall i :: 0 <= i < |left| ==> MemberKey(g, left[i]) in s'.members
  {
    OmitHolds(order[..k], x);
    var s', left := DeleteTask(s, x).value, Omit(order[..k], x);
    forall i | 0 <= i < |left| ensures MemberKey(g, left[i]) in s'.members {
      assert left[i] in left && left[i] in order[..k];
    }
  }

  lemma NothingRebuilt(s: Database, x: TaskId, g: GraphId, order: seq<TaskId>)
    requires x in s.tasks && g in s.graphs
    requires forall i :: 0 <= i < |order| ==> MemberKey(g, order[i]) in s.members
    ensures var s' := DeleteTask(s, x).value;
            && Omit(order[..0], x) == [] && g in s'.graphs && Rebuilt(s, g, order, 0).Ok?
            && Rebuilt(s', g, [], 0) == Ok(Without(Rebuilt(s, g, order, 0).value, x))
  {
    assert order[..0] == [];
    var empty := Graph(g, s.graphs[g].title, s.graphs[g].createdAt, [], map[], map[], {}, {});
    assert DepsLeft(empty.deps, x) == map[];
    assert Without(empty, x) == empty;
  }

  /** In sound tables, deleting a task takes it out of every graph that holds it, whose other
      tasks keep their order, flags and remaining dependencies, and leaves all other graphs as
      they were. */
  lemma DeleteTaskKeepsTheRest(s: Database, x: TaskId, g: GraphId)
    requires Sound(s) && x in s.tasks && g in s.graphs
    ensures LoadGraph(s, g).Ok?
    ensures LoadGraph(DeleteTask(s, x).value, g) == Ok(Without(LoadGraph(s, g).value, x))
    ensures x !in LoadGraph(s, g).value.deps ==> LoadGraph(DeleteTask(s, x).value, g) == LoadGraph(s, g)
  {
    hide LoadTask, DepOrder, Rebuilt, Without, Sound;
    var s' := DeleteTask(s, x).value;
    DropKeepsSound(s, x);
    SoundGraphsLoad(s, g);
    SoundGraphsLoad(s', g);
    MemberOrderHolds(s, g);
    var order := MemberOrder(s, g);
    SortedDistinct(Positions(s, g).Keys, Positions(s, g));
    forall i | 0 <= i < |order| ensures MemberKey(g, order[i]) in s.members { assert order[i] in order; }
    RebuiltWithout(s, x, g, order, |order|);
    assert order[..|order|] == order;
    OrdersWithout(s, x, g);
    if x !in LoadGraph(s, g).value.deps { WithoutAbsent(LoadGraph(s, g).value, x); }
  }

  lemma DropKeepsSound(s: Database, x: TaskId)
    requires Sound(s) && x in s.tasks
    ensures Sound(DeleteTask(s, x).value)
  {
    ApplyKeepsSound(s, DropTask(x));
  }
}
