/** Plan.Validate: a three-colour depth-first search over the parent relation. */
module PlanValidation {
  import opened Options
  import opened PlanModel

  datatype Color = Gray | Black  // a node without a colour is white

  datatype ValidationError =
    | NoTasks
    | Dangling(task: string, parent: string)
    | SelfLoop(task: string)
    | Cycle(task: string)

  /** What each error message claims about the plan. */
  ghost predicate Justified(tasks: seq<Task>, e: ValidationError) {
    match e
    case NoTasks => tasks == []
    case Dangling(id, pid) => DependsOn(tasks, id, pid) && !IsTask(tasks, pid)
    case SelfLoop(id) => DependsOn(tasks, id, id)
    case Cycle(id) => ParentsExist(tasks) && exists c :: IsCycle(tasks, c) && id in c
  }

  type Graph = map<string, seq<string>>

  function Parents(graph: Graph, id: string): seq<string> {
    if id in graph then graph[id] else []
  }

  ghost predicate IsGraphOf(graph: Graph, tasks: seq<Task>) {
    forall id, pid :: pid in Parents(graph, id) <==> DependsOn(tasks, id, pid)
  }

  ghost predicate IsPath(graph: Graph, p: seq<string>) {
    forall i :: 0 <= i < |p| - 1 ==> p[i + 1] in Parents(graph, p[i])
  }

  /** Each node's parents come before it. */
  ghost predicate ParentsFirst(graph: Graph, order: seq<string>) {
    forall i, p :: 0 <= i < |order| && p in Parents(graph, order[i]) ==> p in order[..i]
  }

  /** The search's state: the gray nodes are the recursion stack, which is a path along
      the parent relation; the black nodes are listed in order of completion. */
  ghost predicate Searching(graph: Graph, nodes: set<string>, color: map<string, Color>,
                            stack: seq<string>, order: seq<string>)
  {
    && color.Keys <= nodes
    && (forall v :: v in stack <==> v in color && color[v] == Gray)
    && (forall v :: v in order <==> v in color && color[v] == Black)
    && IsPath(graph, stack)
    && ParentsFirst(graph, order)
  }

  lemma PushKeepsSearching(graph: Graph, nodes: set<string>, color: map<string, Color>,
                           stack: seq<string>, order: seq<string>, id: string)
    requires Searching(graph, nodes, color, stack, order)
    requires id in nodes && id !in color && IsPath(graph, stack + [id])
    ensures Searching(graph, nodes, color[id := Gray], stack + [id], order)
  {
    assert (stack + [id])[|stack|] == id;
  }

  lemma PopKeepsSearching(graph: Graph, nodes: set<string>, color: map<string, Color>,
                          stack: seq<string>, order: seq<string>, id: string)
    requires Searching(graph, nodes, color, stack + [id], order) && id !in stack && id !in order
    requires forall p :: p in Parents(graph, id) ==> p in order
    ensures Searching(graph, nodes, color[id := Black], stack, order + [id])
  {
    var longer := order + [id];
    assert longer[|order|] == id;
    assert forall i :: 0 <= i < |stack| ==> (stack + [id])[i] == stack[i];
    forall i, p | 0 <= i < |longer| && p in Parents(graph, longer[i])
      ensures p in longer[..i]
    {
      assert longer[..i] == order[..i];
      assert i == |order| ==> order[..i] == order;
    }
  }

  lemma Colors(graph: Graph, nodes: set<string>, color: map<string, Color>, stack: seq<string>,
               order: seq<string>, v: string)
    requires Searching(graph, nodes, color, stack, order)
    ensures v in stack <==> v in color && color[v] == Gray
    ensures v in order <==> v in color && color[v] == Black
    ensures color.Keys <= nodes && IsPath(graph, stack) && ParentsFirst(graph, order)
  {
  }

  lemma PathExtends(graph: Graph, stack: seq<string>, id: string, parent: string)
    requires IsPath(graph, stack + [id]) && parent in Parents(graph, id)
    ensures IsPath(graph, stack + [id] + [parent])
  {
  }

  /** A gray parent closes the part of the stack above it into a cycle. */
  lemma GrayParentIsCycle(tasks: seq<Task>, graph: Graph, stack: seq<string>, parent: string)
    requires IsGraphOf(graph, tasks) && IsPath(graph, stack) && |stack| > 0
    requires parent in stack && parent in Parents(graph, stack[|stack| - 1])
    ensures exists c :: IsCycle(tasks, c) && parent in c
  {
    hide DependsOn, IsPath, IsGraphOf;
    var k :| 0 <= k < |stack| && stack[k] == parent;
    ClosingPath(graph, stack, k, parent);
    var c := stack[k..] + [parent];
    PathIsWalk(tasks, graph, c);
    assert c[0] == parent;
  }

  lemma ClosingPath(graph: Graph, stack: seq<string>, k: nat, parent: string)
    requires IsPath(graph, stack) && k < |stack| && parent in Parents(graph, stack[|stack| - 1])
    ensures IsPath(graph, stack[k..] + [parent])
  {
    hide Parents;
  }

  lemma PathIsWalk(tasks: seq<Task>, graph: Graph, c: seq<string>)
    requires IsGraphOf(graph, tasks) && IsPath(graph, c) && |c| >= 2 && c[0] == c[|c| - 1]
    ensures IsCycle(tasks, c)
  {
    hide DependsOn, Parents;
    forall i | 0 <= i < |c| - 1 ensures DependsOn(tasks, c[i], c[i + 1]) {
      assert c[i + 1] in Parents(graph, c[i]);
    }
  }

  /** Visits a white node: the recursive dfs closure of Validate. */
  method Visit(ghost tasks: seq<Task>, graph: Graph, ghost nodes: set<string>, id: string,
               color0: map<string, Color>, ghost stack: seq<string>, ghost order0: seq<string>)
    returns (cycle: Option<string>, color: map<string, Color>, ghost order: seq<string>)
    requires IsGraphOf(graph, tasks) && forall v, p :: p in Parents(graph, v) ==> p in nodes
    requires Searching(graph, nodes, color0, stack, order0)
    requires id in nodes && id !in color0 && IsPath(graph, stack + [id])
    ensures cycle.Some? ==> exists c :: IsCycle(tasks, c) && cycle.value in c
    ensures cycle.None? ==> Searching(graph, nodes, color, stack, order)
    ensures cycle.None? ==> order0 <= order && id in order && color0.Keys <= color.Keys
    decreases nodes - color0.Keys
  {
    hide Searching;
    Colors(graph, nodes, color0, stack, order0, id);
    PushKeepsSearching(graph, nodes, color0, stack, order0, id);
    color, order, cycle := color0[id := Gray], order0, None;
    ghost var path := stack + [id];
    var parents := Parents(graph, id);
    for i := 0 to |parents|
      invariant Searching(graph, nodes, color, path, order) && cycle.None?
      invariant order0 <= order && color0.Keys < color.Keys <= nodes
      invariant forall j :: 0 <= j < i ==> parents[j] in order
    {
      var parent := parents[i];
      Colors(graph, nodes, color, path, order, parent);
      if parent in color && color[parent] == Gray {
        GrayParentIsCycle(tasks, graph, path, parent);
        return Some(parent), color, order;
      }
      if parent !in color {
        PathExtends(graph, stack, id, parent);
        Colors(graph, nodes, color, path, order, id);
        cycle, color, order := Visit(tasks, graph, nodes, parent, color, path, order);
        if cycle.Some? { return; }
        Colors(graph, nodes, color, path, order, parent);
      }
    }
    assert path[|stack|] == id;
    Colors(graph, nodes, color, path, order, id);
    Colors(graph, nodes, color0, stack, order0, id);
    PopKeepsSearching(graph, nodes, color, stack, order, id);
    color, order := color[id := Black], order + [id];
  }

  // ---- From the finished search to acyclicity ----

  function Position(order: seq<string>, v: string): (i: nat)
    requires v in order
    ensures i < |order| && order[i] == v && v !in order[..i]
  {
    if order[0] == v then 0 else 1 + Position(order[1..], v)
  }

  /** Along the parent relation the position in the completion order strictly falls. */
  lemma {:induction false} WalksDescend(tasks: seq<Task>, graph: Graph, order: seq<string>, c: seq<string>, n: nat)
    requires IsGraphOf(graph, tasks) && ParentsFirst(graph, order)
    requires IsCycle(tasks, c) && c[0] in order && n < |c|
    ensures c[n] in order && Position(order, c[n]) + n <= Position(order, c[0])
  {
    if n > 0 {
      WalksDescend(tasks, graph, order, c, n - 1);
      assert DependsOn(tasks, c[n - 1], c[n - 1 + 1]);
      assert c[n] in order[..Position(order, c[n - 1])];
    }
  }

  lemma CompletionOrderIsAcyclic(tasks: seq<Task>, graph: Graph, order: seq<string>)
    requires IsGraphOf(graph, tasks) && ParentsFirst(graph, order)
    requires forall id :: IsTask(tasks, id) ==> id in order
    ensures Acyclic(tasks)
  {
    forall c ensures !IsCycle(tasks, c) {
      if IsCycle(tasks, c) {
        assert DependsOn(tasks, c[0], c[0 + 1]);
        WalksDescend(tasks, graph, order, c, |c| - 1);
        assert false;
      }
    }
  }

  // ---- Building the parent graph ----

  ghost predicate Names(t: Task, id: string, pid: string) {
    t.id == id && pid in SplitParentIDs(t.parentTaskID)
  }

  lemma DependsOnPrefix(tasks: seq<Task>, i: nat, id: string, pid: string)
    requires i < |tasks|
    ensures DependsOn(tasks[..i + 1], id, pid) <==> DependsOn(tasks[..i], id, pid) || Names(tasks[i], id, pid)
  {
    hide SplitParentIDs;
    var some, more := tasks[..i], tasks[..i + 1];
    assert more == some + [tasks[i]];
    if Names(tasks[i], id, pid) { assert more[i] == tasks[i]; }
    if DependsOn(some, id, pid) {
      var j :| 0 <= j < |some| && some[j].id == id && pid in SplitParentIDs(some[j].parentTaskID);
      assert more[j] == some[j];
    }
  }

  /** The edges of the tasks before i, and the first j parents of task i. */
  ghost predicate PartGraph(graph: Graph, tasks: seq<Task>, i: nat, j: nat)
    requires i <= |tasks| && (i == |tasks| ==> j == 0)
    requires i < |tasks| ==> j <= |SplitParentIDs(tasks[i].parentTaskID)|
  {
    forall id, pid :: pid in Parents(graph, id) <==>
      DependsOn(tasks[..i], id, pid) ||
      (i < |tasks| && id == tasks[i].id && pid in SplitParentIDs(tasks[i].parentTaskID)[..j])
  }

  lemma PartGraphStep(graph: Graph, tasks: seq<Task>, i: nat, j: nat)
    requires i < |tasks| && j < |SplitParentIDs(tasks[i].parentTaskID)| && PartGraph(graph, tasks, i, j)
    ensures PartGraph(graph[tasks[i].id := Parents(graph, tasks[i].id) + [SplitParentIDs(tasks[i].parentTaskID)[j]]],
                      tasks, i, j + 1)
  {
    var parents := SplitParentIDs(tasks[i].parentTaskID);
    assert parents[..j + 1] == parents[..j] + [parents[j]];
  }

  lemma PartGraphTask(graph: Graph, tasks: seq<Task>, i: nat)
    requires i < |tasks| && PartGraph(graph, tasks, i, |SplitParentIDs(tasks[i].parentTaskID)|)
    ensures PartGraph(graph, tasks, i + 1, 0)
  {
    var parents := SplitParentIDs(tasks[i].parentTaskID);
    assert parents[..|parents|] == parents;
    forall id, pid ensures pid in Parents(graph, id) <==> DependsOn(tasks[..i + 1], id, pid) {
      DependsOnPrefix(tasks, i, id, pid);
    }
  }

  ghost predicate EdgesChecked(graph: Graph, taskIDs: set<string>) {
    forall id, pid {:trigger pid in Parents(graph, id)} :: pid in Parents(graph, id) ==> pid in taskIDs && pid != id
  }

  lemma AddCheckedEdge(graph: Graph, taskIDs: set<string>, id: string, pid: string)
    requires EdgesChecked(graph, taskIDs) && pid in taskIDs && pid != id
    ensures EdgesChecked(graph[id := Parents(graph, id) + [pid]], taskIDs)
  {
    var graph' := graph[id := Parents(graph, id) + [pid]];
    forall v, p {:trigger p in Parents(graph', v)} | p in Parents(graph', v) ensures p in taskIDs && p != v {
      assert p in Parents(graph, v) || (v == id && p == pid);
    }
  }

  /** The first loop of Validate: checks each parent and collects the edges. */
  method BuildGraph(tasks: seq<Task>, taskIDs: set<string>) returns (err: Option<ValidationError>, graph: Graph)
    requires forall id :: id in taskIDs <==> IsTask(tasks, id)
    ensures err.Some? ==> Justified(tasks, err.value)
    ensures err.None? ==> IsGraphOf(graph, tasks) && ParentsExist(tasks)
  {
    graph, err := map[], None;
    hide PartGraph, IsTask, DependsOn, EdgesChecked, ParentsExist, SplitParentIDs, IsGraphOf;
    EmptyChecked(taskIDs);
    EmptyPartGraph(tasks);
    for i := 0 to |tasks|
      invariant err.None? && PartGraph(graph, tasks, i, 0)
      invariant EdgesChecked(graph, taskIDs)
    {
      var t := tasks[i];
      var parents := SplitParents(t.parentTaskID);
      for j := 0 to |parents|
        invariant PartGraph(graph, tasks, i, j)
        invariant EdgesChecked(graph, taskIDs)
      {
        var pid := parents[j];
        ListedParent(tasks, i, pid);
        if pid !in taskIDs { return Some(Dangling(t.id, pid)), graph; }
        if pid == t.id { return Some(SelfLoop(t.id)), graph; }
        PartGraphStep(graph, tasks, i, j);
        AddCheckedEdge(graph, taskIDs, t.id, pid);
        graph := graph[t.id := Parents(graph, t.id) + [pid]];
      }
      PartGraphTask(graph, tasks, i);
    }
    FullPartGraph(graph, tasks);
    CheckedEdgesExist(graph, tasks, taskIDs);
  }

  lemma EmptyPartGraph(tasks: seq<Task>)
    ensures PartGraph(map[], tasks, 0, 0)
  {
  }

  lemma EmptyChecked(taskIDs: set<string>)
    ensures EdgesChecked(map[], taskIDs)
  {
  }

  lemma CheckedEdgesExist(graph: Graph, tasks: seq<Task>, taskIDs: set<string>)
    requires IsGraphOf(graph, tasks) && EdgesChecked(graph, taskIDs)
    requires forall id :: id in taskIDs <==> IsTask(tasks, id)
    ensures ParentsExist(tasks)
  {
    hide IsTask, DependsOn, Parents;
    forall id, pid | DependsOn(tasks, id, pid) ensures IsTask(tasks, pid) && pid != id {
      assert pid in Parents(graph, id);
    }
  }

  lemma FullPartGraph(graph: Graph, tasks: seq<Task>)
    requires PartGraph(graph, tasks, |tasks|, 0)
    ensures IsGraphOf(graph, tasks)
  {
    assert tasks[..|tasks|] == tasks;
  }

  lemma ListedParent(tasks: seq<Task>, i: nat, pid: string)
    requires i < |tasks| && pid in SplitParentIDs(tasks[i].parentTaskID)
    ensures DependsOn(tasks, tasks[i].id, pid)
  {
  }

  method CollectIDs(tasks: seq<Task>) returns (taskIDs: set<string>)
    ensures forall id :: id in taskIDs <==> IsTask(tasks, id)
  {
    taskIDs := {};
    for i := 0 to |tasks|
      invariant forall id :: id in taskIDs <==> exists j :: 0 <= j < i && tasks[j].id == id
    {
      taskIDs := taskIDs + {tasks[i].id};
    }
  }

  /** Plan.Validate. The outer loop may take the ids in any order, as Go's map iteration does. */
  method Validate(tasks: seq<Task>) returns (err: Option<ValidationError>)
    ensures err.None? <==> WellFormed(tasks)
    ensures err.Some? ==> Justified(tasks, err.value)
  {
    if |tasks| == 0 { return Some(NoTasks); }
    var taskIDs := CollectIDs(tasks);
    var graph: Graph;
    err, graph := BuildGraph(tasks, taskIDs);
    if err.Some? { JustifiedErrorsAreFaults(tasks, err.value); return; }
    hide Searching, IsTask, DependsOn, Acyclic;
    var color: map<string, Color> := map[];
    ghost var order: seq<string> := [];
    StartSearching(graph, taskIDs);
    var todo := taskIDs;
    while todo != {}
      invariant todo <= taskIDs && err.None?
      invariant Searching(graph, taskIDs, color, [], order)
      invariant forall id :: id in taskIDs && id !in todo ==> id in order
    {
      var id :| id in todo;
      todo := todo - {id};
      Colors(graph, taskIDs, color, [], order, id);
      if id !in color {
        ghost var before := order;
        var cycle: Option<string>;
        SingletonPath(graph, id);
        cycle, color, order := Visit(tasks, graph, taskIDs, id, color, [], order);
        if cycle.Some? {
          JustifiedErrorsAreFaults(tasks, Cycle(cycle.value));
          return Some(Cycle(cycle.value));
        }
      }
    }
    Colors(graph, taskIDs, color, [], order, "");
    CompletionOrderIsAcyclic(tasks, graph, order);
  }

  lemma SingletonPath(graph: Graph, id: string)
    ensures IsPath(graph, [] + [id])
  {
  }

  lemma StartSearching(graph: Graph, nodes: set<string>)
    ensures Searching(graph, nodes, map[], [], [])
  {
  }

  lemma JustifiedErrorsAreFaults(tasks: seq<Task>, e: ValidationError)
    requires Justified(tasks, e)
    ensures !WellFormed(tasks)
  {
  }
}
