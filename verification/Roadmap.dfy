/** The dependency graph of a roadmap and the depth-first check for cycles. */
module Roadmap {
  import opened Prelude

  type TaskId = string

  type Graph = map<TaskId, seq<TaskId>>

  /** Every dependency is a known task; the check before this one sees to it. */
  ghost predicate Closed(g: Graph) {
    forall t, d :: t in g && d in g[t] ==> d in g
  }

  /** Each task of the path depends on the next. */
  ghost predicate Path(g: Graph, p: seq<TaskId>) {
    && (forall i :: 0 <= i < |p| ==> p[i] in g)
    && (forall i :: 0 <= i < |p| - 1 ==> p[i + 1] in g[p[i]])
  }

  ghost predicate Cyclic(g: Graph) {
    exists p :: 2 <= |p| && Path(g, p) && p[0] == p[|p| - 1]
  }

  /** Dependencies come before their dependents. */
  ghost predicate Topological(g: Graph, order: seq<TaskId>) {
    && Distinct(order)
    && forall i :: 0 <= i < |order| ==> order[i] in g && forall d :: d in g[order[i]] ==> d in order[..i]
  }

  ghost function Position(order: seq<TaskId>, t: TaskId): (i: nat)
    requires t in order
    ensures i < |order| && order[i] == t
  {
    var i :| 0 <= i < |order| && order[i] == t;
    i
  }

  lemma EdgeGoesBack(g: Graph, order: seq<TaskId>, t: TaskId, d: TaskId)
    requires Topological(g, order) && t in order && t in g && d in g[t]
    ensures d in order && Position(order, d) < Position(order, t)
  {
    var i := Position(order, t);
    assert d in order[..i];
    var j :| 0 <= j < i && order[..i][j] == d;
    assert order[j] == d;
    var k := Position(order, d);
    if j != k {
      assert order[j] == order[k];
    }
  }

  lemma {:induction false} PathGoesBack(g: Graph, order: seq<TaskId>, p: seq<TaskId>)
    requires Topological(g, order) && Path(g, p) && 2 <= |p| && p[0] in order
    ensures p[|p| - 1] in order && Position(order, p[|p| - 1]) < Position(order, p[0])
    decreases |p|
  {
    EdgeGoesBack(g, order, p[0], p[1]);
    if |p| > 2 { PathGoesBack(g, order, p[1..]); }
  }

  lemma OrderedIsAcyclic(g: Graph, order: seq<TaskId>)
    requires Topological(g, order) && forall t :: t in g ==> t in order
    ensures !Cyclic(g)
  {
    forall p | 2 <= |p| && Path(g, p) ensures p[0] != p[|p| - 1] {
      PathGoesBack(g, order, p);
    }
  }

  lemma KnownDependencies(g: Graph, t: TaskId)
    requires Closed(g) && t in g
    ensures forall d :: d in g[t] ==> d in g
  {
  }

  class CycleCheck {
    const tasks: Graph
    var visiting: set<TaskId>
    var visited: set<TaskId>
    /** The tasks being visited, outermost first, and the visited ones in the order they were finished. */
    ghost var stack: seq<TaskId>
    ghost var order: seq<TaskId>

    ghost predicate Valid()
      reads this
    {
      && Closed(tasks)
      && (forall t :: t in visiting <==> t in stack)
      && (forall t :: t in visited <==> t in order)
      && visiting !! visited
      && visiting <= tasks.Keys
      && Path(tasks, stack)
      && Topological(tasks, order)
    }

    constructor (g: Graph)
      requires Closed(g)
      ensures Valid() && tasks == g && visiting == {} && visited == {} && stack == []
    {
      tasks := g;
      visiting, visited := {}, {};
      stack, order := [], [];
    }

    lemma StackCloses(t: TaskId)
      requires Valid() && t in visiting && stack != [] && t in tasks[stack[|stack| - 1]]
      ensures Cyclic(tasks)
    {
      var i :| 0 <= i < |stack| && stack[i] == t;
      var p := stack[i..] + [t];
      assert forall k :: 0 <= k < |p| - 1 ==> p[k] == stack[i + k];
      assert Path(tasks, p);
    }

    /** Visits one task; on a cycle it stops there. */
    method Visit(t: TaskId) returns (cycle: bool)
      requires Valid() && t in tasks
      requires stack != [] ==> t in tasks[stack[|stack| - 1]]
      modifies this
      ensures cycle ==> Cyclic(tasks)
      ensures !cycle ==>
                && Valid() && visiting == old(visiting) && stack == old(stack)
                && old(visited) <= visited && t in visited
      decreases tasks.Keys - visiting
    {
      hide Closed, Path, Topological, Cyclic;
      if t in visited {
        return false;
      }
      if t in visiting {
        StackCloses(t);
        return true;
      }
      assert t !in stack;
      Enter(t);
      var deps := tasks[t];
      assert forall d :: d in deps ==> d in tasks by { KnownDependencies(tasks, t); }
      var i := 0;
      while i < |deps|
        invariant i <= |deps| && Valid()
        invariant visiting == old(visiting) + {t} && stack == old(stack) + [t]
        invariant old(visited) <= visited
        invariant forall k :: 0 <= k < i ==> deps[k] in visited
      {
        cycle := Visit(deps[i]);
        if cycle { return; }
        i := i + 1;
      }
      assert stack[..|stack| - 1] == old(stack);
      Leave(t);
      return false;
    }

    method Enter(t: TaskId)
      requires Valid() && t in tasks && t !in visiting && t !in visited
      requires stack != [] ==> t in tasks[stack[|stack| - 1]]
      modifies this`visiting, this`stack
      ensures Valid() && visiting == old(visiting) + {t} && stack == old(stack) + [t]
      ensures tasks.Keys - visiting < tasks.Keys - old(visiting)
    {
      visiting := visiting + {t};
      stack := stack + [t];
      PathExtends(old(stack), t);
      assert t in tasks.Keys - old(visiting) && t !in tasks.Keys - visiting;
    }

    method Leave(t: TaskId)
      requires Valid() && t in visiting && stack != [] && stack[|stack| - 1] == t && t !in stack[..|stack| - 1]
      requires forall d :: d in tasks[t] ==> d in visited
      modifies this`visiting, this`visited, this`stack, this`order
      ensures Valid() && visiting == old(visiting) - {t} && visited == old(visited) + {t}
      ensures stack == old(stack)[..|old(stack)| - 1]
    {
      visiting := visiting - {t};
      visited := visited + {t};
      FinishedNext(t);
      order := order + [t];
      stack := stack[..|stack| - 1];
      assert old(stack) == stack + [t];
    }

    lemma PathExtends(before: seq<TaskId>, t: TaskId)
      requires Path(tasks, before) && t in tasks
      requires before != [] ==> t in tasks[before[|before| - 1]]
      ensures Path(tasks, before + [t])
    {
    }

    lemma FinishedNext(t: TaskId)
      requires Topological(tasks, order) && t in tasks && t !in order
      requires forall d :: d in tasks[t] ==> d in order
      ensures Topological(tasks, order + [t])
    {
      var after := order + [t];
      forall i | 0 <= i < |after| ensures forall d :: d in tasks[after[i]] ==> d in after[..i] {
        if i < |order| {
          assert after[..i] == order[..i];
        } else {
          assert after[..i] == order;
        }
      }
    }
  }

  /** Accepts exactly the acyclic graphs, and always ends. */
  method CheckCycles(g: Graph) returns (ok: bool)
    requires Closed(g)
    ensures ok <==> !Cyclic(g)
  {
    var check := new CycleCheck(g);
    var left := g.Keys;
    while left != {}
      invariant left <= g.Keys && check.tasks == g && fresh(check)
      invariant check.Valid() && check.stack == []
      invariant g.Keys - left <= check.visited
      decreases |left|
    {
      var t :| t in left;
      var cycle := check.Visit(t);
      if cycle { return false; }
      left := left - {t};
    }
    OrderedIsAcyclic(g, check.order);
    return true;
  }
}
