/** Building the task graph of one process: the compute, pack, send, receive and unpack tasks of all its subgrids. */
module JacobiGraph {
  import opened Scheduler
  import opened SchedulerInvariant
  import opened SchedulerSetup
  import opened SchedulerTheorems
  import opened TaskRuntime
  import opened JacobiGrid
  import opened JacobiTopology
  import Exchange = JacobiProtocol

  type Task = Exchange.Task

  /** The edges into the wired tasks are their dependencies, and those into task q so far come from `linked`. */
  ghost predicate Linking(T: Topology, g: Graph, tasks: seq<Task>, wired: set<nat>, q: nat, linked: set<Task>) {
    && |g.out| == |tasks| && q !in wired
    && (forall p, k :: 0 <= p < |g.out| && 0 <= k < |g.out[p]| ==> EdgeOk(T, g, tasks, wired, q, linked, p, g.out[p][k]))
    && (forall p, e :: 0 <= p < |g.out| && e in wired ==> WiredOk(T, g, tasks, p, e))
    && (forall p :: 0 <= p < |g.out| && tasks[p] in linked ==> q in g.out[p])
  }

  ghost predicate EdgeOk(T: Topology, g: Graph, tasks: seq<Task>, wired: set<nat>, q: nat, linked: set<Task>, p: nat, e: nat)
    requires p < |tasks|
  {
    if e == q then tasks[p] in linked else e in wired && e < |tasks| && Exchange.DependsOn(T, tasks[e], tasks[p])
  }

  ghost predicate WiredOk(T: Topology, g: Graph, tasks: seq<Task>, p: nat, e: nat)
    requires p < |g.out| == |tasks|
  {
    e < |tasks| && (Exchange.DependsOn(T, tasks[e], tasks[p]) ==> e in g.out[p])
  }

  /** The graph holds exactly the dependencies of the wired tasks on the tasks created so far. */
  ghost predicate Wired(T: Topology, g: Graph, tasks: seq<Task>, wired: set<nat>) {
    && |g.out| == |tasks|
    && (forall p, k :: 0 <= p < |g.out| && 0 <= k < |g.out[p]| ==>
          g.out[p][k] in wired && g.out[p][k] < |tasks| && Exchange.DependsOn(T, tasks[g.out[p][k]], tasks[p]))
    && (forall p, e :: 0 <= p < |g.out| && e in wired ==> WiredOk(T, g, tasks, p, e))
  }

  /** The map of tasks by name: ids are positions in `tasks`. */
  predicate Named(ids: map<Task, nat>, tasks: seq<Task>) {
    && (forall t :: t in ids ==> ids[t] < |tasks| && tasks[ids[t]] == t)
    && (forall q :: 0 <= q < |tasks| ==> tasks[q] in ids && ids[tasks[q]] == q)
  }

  /** What stays the same while dependencies are added. */
  ghost predicate Untouched(s: State, s': State) {
    s'.affinity == s.affinity && s'.pending == s.pending && s'.pc == s.pc && s'.place == s.place
  }

  method AddTaskDependency(rt: Runtime, T: Topology, ids: map<Task, nat>, t: Task, p: Task,
                           ghost tasks: seq<Task>, ghost wired: set<nat>, ghost linked: set<Task>)
    requires Setup(rt.View(), rt.added) && Named(ids, tasks) && t in ids && p in ids && ids[t] !in rt.added
    requires Linking(T, rt.View().g, tasks, wired, ids[t], linked)
    modifies rt
    ensures Setup(rt.View(), rt.added) && rt.added == old(rt.added) && Untouched(old(rt.View()), rt.View())
    ensures Linking(T, rt.View().g, tasks, wired, ids[t], linked + {p})
  {
    ghost var g := rt.View().g;
    rt.AddDependency(ids[t], ids[p]);
    LinkOneMore(T, g, rt.View().g, tasks, wired, ids[t], linked, ids[p]);
  }

  lemma LinkOneMore(T: Topology, g: Graph, g': Graph, tasks: seq<Task>, wired: set<nat>, q: nat, linked: set<Task>, i: nat)
    requires Linking(T, g, tasks, wired, q, linked) && i < |tasks|
    requires g'.out == g.out[i := g.out[i] + [q]]
    requires forall p :: 0 <= p < |tasks| && tasks[p] == tasks[i] ==> p == i
    ensures Linking(T, g', tasks, wired, q, linked + {tasks[i]})
  {
    forall p, k | 0 <= p < |g'.out| && 0 <= k < |g'.out[p]| ensures EdgeOk(T, g', tasks, wired, q, linked + {tasks[i]}, p, g'.out[p][k]) {
      if k < |g.out[p]| { assert EdgeOk(T, g, tasks, wired, q, linked, p, g.out[p][k]); }
    }
    forall p, e | 0 <= p < |g'.out| && e in wired ensures WiredOk(T, g', tasks, p, e) { assert WiredOk(T, g, tasks, p, e); }
  }

  lemma StartLinking(T: Topology, g: Graph, tasks: seq<Task>, wired: set<nat>, q: nat)
    requires Wired(T, g, tasks, wired) && q !in wired
    ensures Linking(T, g, tasks, wired, q, {})
  {
    forall p, k | 0 <= p < |g.out| && 0 <= k < |g.out[p]| ensures EdgeOk(T, g, tasks, wired, q, {}, p, g.out[p][k]) {
      assert g.out[p][k] in wired;
    }
  }

  lemma EndLinking(T: Topology, g: Graph, tasks: seq<Task>, wired: set<nat>, q: nat, linked: set<Task>)
    requires Linking(T, g, tasks, wired, q, linked) && q < |tasks|
    requires forall p :: 0 <= p < |tasks| ==> (tasks[p] in linked <==> Exchange.DependsOn(T, tasks[q], tasks[p]))
    ensures Wired(T, g, tasks, wired + {q})
  {
    forall p, k | 0 <= p < |g.out| && 0 <= k < |g.out[p]|
      ensures g.out[p][k] in wired + {q} && g.out[p][k] < |tasks| && Exchange.DependsOn(T, tasks[g.out[p][k]], tasks[p])
    {
      assert EdgeOk(T, g, tasks, wired, q, linked, p, g.out[p][k]);
    }
    forall p, e | 0 <= p < |g.out| && e in wired + {q} ensures WiredOk(T, g, tasks, p, e) {
      if e in wired { assert WiredOk(T, g, tasks, p, e); }
    }
  }

  // ---------------------------------------------------------------------------------------------------------
  // The dependencies of a task, in the order in which they are added
  // ---------------------------------------------------------------------------------------------------------

  const FACES: seq<Face> := [Face(X, false), Face(X, true), Face(Y, false), Face(Y, true), Face(Z, false), Face(Z, true)]

  /** The compute tasks of the local neighbours across the first n faces. */
  function LocalNeighbors(T: Topology, s: Subgrid, it: nat, n: nat): seq<Task>
    requires n <= |FACES|
  {
    if n == 0 then []
    else LocalNeighbors(T, s, it, n - 1)
         + if KindOf(T, s, FACES[n - 1]) == LOCAL then [Exchange.Task(Exchange.Compute, Neighbor(T, s, FACES[n - 1]), it)] else []
  }

  function Dependencies(T: Topology, t: Task): seq<Task> {
    match t.work
    case Compute =>
      if t.it == 0 then []
      else LocalNeighbors(T, t.s, t.it - 1, |FACES|)
           + [Exchange.Task(Exchange.Compute, t.s, t.it - 1), Exchange.Task(Exchange.Pack, t.s, t.it - 1),
              Exchange.Task(Exchange.Unpack, t.s, t.it - 1)]
    case Receive => if t.it == 0 then [] else [Exchange.Task(Exchange.Unpack, t.s, t.it - 1)]
    case Unpack => [Exchange.Task(Exchange.Receive, t.s, t.it), Exchange.Task(Exchange.Compute, t.s, t.it)]
    case Pack =>
      [Exchange.Task(Exchange.Compute, t.s, t.it)] + if t.it == 0 then [] else [Exchange.Task(Exchange.Send, t.s, t.it - 1)]
    case Send => [Exchange.Task(Exchange.Pack, t.s, t.it)]
  }

  lemma {:induction false} NeighborsListed(T: Topology, s: Subgrid, it: nat, n: nat, p: Task)
    requires n <= |FACES|
    ensures p in LocalNeighbors(T, s, it, n) <==>
      p.work == Exchange.Compute && p.it == it && exists i: nat :: i < n && KindOf(T, s, FACES[i]) == LOCAL && p.s == Neighbor(T, s, FACES[i])
    decreases n
  {
    if n > 0 { NeighborsListed(T, s, it, n - 1, p); }
  }

  lemma DependenciesListed(T: Topology, t: Task, p: Task)
    ensures p in Dependencies(T, t) <==> Exchange.DependsOn(T, t, p)
  {
    if t.work == Exchange.Compute && t.it > 0 {
      NeighborsListed(T, t.s, t.it - 1, |FACES|, p);
      forall f: Face ensures FaceIndex(f) < |FACES| && FACES[FaceIndex(f)] == f {}
      if f :| KindOf(T, t.s, f) == LOCAL && p.s == Neighbor(T, t.s, f) {
        assert KindOf(T, t.s, FACES[FaceIndex(f)]) == LOCAL;
      }
    }
  }

  // ---------------------------------------------------------------------------------------------------------
  // One task
  // ---------------------------------------------------------------------------------------------------------

  /** No task has an affinity or a pending operation, and the tasks without predecessors are in the common queue. */
  predicate Unused(s: State) {
    && (forall q :: 0 <= q < |s.affinity| ==> s.affinity[q] == -1)
    && (forall q :: 0 <= q < |s.pending| ==> s.pending[q] == [])
    && (forall q :: 0 <= q < |s.place| && s.place[q].Queued? ==> s.place[q] == Queued(Common(s)))
  }

  /** All tasks created so far are wired and added; their dependencies are among them. */
  ghost predicate Built(rt: Runtime, T: Topology, ids: map<Task, nat>, tasks: seq<Task>)
    reads rt
  {
    && Setup(rt.View(), rt.added) && Named(ids, tasks)
    && Wired(T, rt.View().g, tasks, rt.added)
    && (forall q: nat :: q in rt.added <==> q < |tasks|)
    && Unused(rt.View())
    && Closed(T, tasks)
  }

  ghost predicate Closed(T: Topology, tasks: seq<Task>) {
    forall t, p :: t in tasks && Exchange.DependsOn(T, t, p) ==> p in tasks
  }

  lemma NewTaskWired(T: Topology, g: Graph, tasks: seq<Task>, wired: set<nat>, t: Task)
    requires Wired(T, g, tasks, wired) && Closed(T, tasks) && t !in tasks && forall q: nat :: q in wired ==> q < |tasks|
    ensures Wired(T, Graph(g.out + [[]]), tasks + [t], wired)
  {
    var g' := Graph(g.out + [[]]);
    forall p, e | 0 <= p < |g'.out| && e in wired ensures WiredOk(T, g', tasks + [t], p, e) {
      if p < |tasks| { assert WiredOk(T, g, tasks, p, e); } else { assert tasks[e] in tasks; }
    }
  }

  /** Adds the dependencies of the newest task. */
  method WireTask(rt: Runtime, T: Topology, ids: map<Task, nat>, t: Task, ghost tasks: seq<Task>)
    requires Setup(rt.View(), rt.added) && Named(ids, tasks) && t in ids && ids[t] !in rt.added
    requires Wired(T, rt.View().g, tasks, rt.added)
    requires forall p :: p in Dependencies(T, t) ==> p in ids
    modifies rt
    ensures Setup(rt.View(), rt.added) && rt.added == old(rt.added) && Untouched(old(rt.View()), rt.View())
    ensures Wired(T, rt.View().g, tasks, rt.added + {ids[t]})
  {
    var ps := Dependencies(T, t);
    ghost var linked: set<Task> := {};
    StartLinking(T, rt.View().g, tasks, rt.added, ids[t]);
    for n := 0 to |ps|
      invariant Setup(rt.View(), rt.added) && rt.added == old(rt.added) && Untouched(old(rt.View()), rt.View())
      invariant Linking(T, rt.View().g, tasks, rt.added, ids[t], linked)
      invariant forall p :: p in linked <==> p in ps[..n]
    {
      AddTaskDependency(rt, T, ids, t, ps[n], tasks, rt.added, linked);
      linked := linked + {ps[n]};
      assert ps[..n + 1] == ps[..n] + [ps[n]];
    }
    assert ps[..|ps|] == ps;
    forall p ensures p in ps <==> Exchange.DependsOn(T, t, p) { DependenciesListed(T, t, p); }
    EndLinking(T, rt.View().g, tasks, rt.added, ids[t], linked);
  }

  /** Creates task t, adds its dependencies, which exist already, and adds it to the runtime. */
  method BuildTask(rt: Runtime, T: Topology, ids: map<Task, nat>, t: Task, ghost tasks: seq<Task>)
    returns (ids': map<Task, nat>, ghost tasks': seq<Task>)
    requires Built(rt, T, ids, tasks) && t !in ids && forall p :: p in Dependencies(T, t) ==> p in ids
    modifies rt
    ensures Built(rt, T, ids', tasks') && ids'.Keys == ids.Keys + {t} && tasks' == tasks + [t]
    ensures |rt.View().pc| == old(|rt.View().pc|)
  {
    assert forall q :: 0 <= q < |tasks| ==> tasks[q] in ids;
    NewTaskWired(T, rt.View().g, tasks, rt.added, t);
    var q := rt.NewTask(-1);
    tasks' := tasks + [t];
    ids' := ids[t := q];
    WireTask(rt, T, ids', t, tasks');
    ClosedWithTask(T, ids, tasks, t);
    AddBuiltTask(rt, T, ids', q, tasks');
  }

  lemma ClosedWithTask(T: Topology, ids: map<Task, nat>, tasks: seq<Task>, t: Task)
    requires Named(ids, tasks) && Closed(T, tasks) && forall p :: p in Dependencies(T, t) ==> p in ids
    ensures Closed(T, tasks + [t])
  {
    forall u, p | u in tasks + [t] && Exchange.DependsOn(T, u, p) ensures p in tasks + [t] {
      DependenciesListed(T, u, p);
      if u == t { assert tasks[ids[p]] == p; } else { assert u in tasks; }
    }
  }

  method AddBuiltTask(rt: Runtime, T: Topology, ids: map<Task, nat>, q: nat, ghost tasks: seq<Task>)
    requires Setup(rt.View(), rt.added) && Named(ids, tasks) && Closed(T, tasks) && q + 1 == |tasks| == Tasks(rt.View())
    requires Wired(T, rt.View().g, tasks, rt.added + {q}) && forall u: nat :: u in rt.added <==> u < q
    requires Unused(rt.View())
    modifies rt
    ensures Built(rt, T, ids, tasks) && |rt.View().pc| == old(|rt.View().pc|)
  {
    ghost var s := rt.View();
    AddedTaskKeepsSetup(s, rt.added, q);
    assert rt.workerAffinity[q] == -1 by { assert s.affinity[q] == -1; }
    var outcome := rt.AddTask(q);
  }

  // ---------------------------------------------------------------------------------------------------------
  // The loops
  // ---------------------------------------------------------------------------------------------------------

  /** The tasks of process P: compute tasks of all n iterations, the others of all but the last. */
  predicate IsTask(T: Topology, n: nat, P: Vec<int>, t: Task) {
    IsSubgrid(T, t.s) && ProcessOf(t.s) == P && (t.it + 1 < n || (t.it < n && t.work == Exchange.Compute))
  }

  /** The subgrid at local position l comes before the one at (i, j, k) in the loops. */
  predicate Earlier(l: Vec<int>, i: int, j: int, k: int) {
    l.x < i || (l.x == i && (l.y < j || (l.y == j && l.z < k)))
  }

  predicate CreatedBefore(t: Task, it: nat, i: int, j: int, k: int) {
    t.it < it || (t.it == it && Earlier(LocalOf(t.s), i, j, k))
  }

  ghost predicate CreatedUpTo(T: Topology, n: nat, P: Vec<int>, ids: map<Task, nat>, it: nat, i: int, j: int, k: int) {
    forall t :: t in ids <==> IsTask(T, n, P, t) && CreatedBefore(t, it, i, j, k)
  }

  lemma LocalDependencies(T: Topology, n: nat, P: Vec<int>, ids: map<Task, nat>, t: Task, p: Task, it: nat, i: int, j: int, k: int)
    requires T.Valid() && CreatedUpTo(T, n, P, ids, it, i, j, k) && IsTask(T, n, P, t) && t.it == it
    requires p in Dependencies(T, t) && (p.it == it ==> p in ids)
    ensures p in ids
  {
    DependenciesListed(T, t, p);
    if p.it < it && p.s != t.s {
      var f :| KindOf(T, t.s, f) == LOCAL && p.s == Neighbor(T, t.s, f);
      NeighborBack(T, t.s, f);
      SameProcess(T, t.s, f);
    }
  }

  /** The tasks of one subgrid in one iteration. */
  method BuildSubgrid(rt: Runtime, T: Topology, n: nat, P: Vec<int>, s: Subgrid, it: nat, ids: map<Task, nat>, ghost tasks: seq<Task>)
    returns (ids': map<Task, nat>, ghost tasks': seq<Task>)
    requires T.Valid() && IsSubgrid(T, s) && ProcessOf(s) == P && it < n && Built(rt, T, ids, tasks)
    requires CreatedUpTo(T, n, P, ids, it, LocalOf(s).x, LocalOf(s).y, LocalOf(s).z)
    modifies rt
    ensures Built(rt, T, ids', tasks') && |rt.View().pc| == old(|rt.View().pc|)
    ensures CreatedUpTo(T, n, P, ids', it, LocalOf(s).x, LocalOf(s).y, LocalOf(s).z + 1)
  {
    ids', tasks' := ids, tasks;
    var works := Works(n, it);
    for m := 0 to |works|
      invariant Built(rt, T, ids', tasks') && |rt.View().pc| == old(|rt.View().pc|)
      invariant SomeCreated(ids, ids', s, it, works[..m])
    {
      TaskMayBeBuilt(T, n, P, ids, ids', s, it, m);
      ids', tasks' := BuildTask(rt, T, ids', Exchange.Task(works[m], s, it), tasks');
      assert works[..m + 1] == works[..m] + [works[m]];
    }
    assert works[..|works|] == works;
    SubgridCreated(T, n, P, ids, ids', s, it);
  }

  /** The tasks of a subgrid in an iteration, in the order of their creation. */
  function Works(n: nat, it: nat): seq<Exchange.Work> {
    [Exchange.Compute] + if it + 1 < n then [Exchange.Pack, Exchange.Send, Exchange.Receive, Exchange.Unpack] else []
  }

  ghost predicate SomeCreated(ids: map<Task, nat>, ids': map<Task, nat>, s: Subgrid, it: nat, works: seq<Exchange.Work>) {
    forall t :: t in ids' <==> t in ids || (t.s == s && t.it == it && t.work in works)
  }

  lemma TaskMayBeBuilt(T: Topology, n: nat, P: Vec<int>, ids: map<Task, nat>, ids': map<Task, nat>, s: Subgrid, it: nat, m: nat)
    requires T.Valid() && IsSubgrid(T, s) && ProcessOf(s) == P && it < n && m < |Works(n, it)|
    requires CreatedUpTo(T, n, P, ids, it, LocalOf(s).x, LocalOf(s).y, LocalOf(s).z)
    requires SomeCreated(ids, ids', s, it, Works(n, it)[..m])
    ensures var t := Exchange.Task(Works(n, it)[m], s, it); t !in ids' && forall p :: p in Dependencies(T, t) ==> p in ids'
  {
    var works := Works(n, it);
    var t := Exchange.Task(works[m], s, it);
    assert forall i :: 0 <= i < m ==> works[i] != works[m];
    forall p | p in Dependencies(T, t) ensures p in ids' {
      DependenciesListed(T, t, p);
      if p.it == it {
        WorkOrder(works, m, p.work);
      } else {
        LocalDependencies(T, n, P, ids, t, p, it, LocalOf(s).x, LocalOf(s).y, LocalOf(s).z);
      }
    }
  }

  function WorkIndex(w: Exchange.Work): nat {
    match w case Compute => 0 case Pack => 1 case Send => 2 case Receive => 3 case Unpack => 4
  }

  lemma SubgridCreated(T: Topology, n: nat, P: Vec<int>, ids: map<Task, nat>, ids': map<Task, nat>, s: Subgrid, it: nat)
    requires IsSubgrid(T, s) && ProcessOf(s) == P && it < n
    requires CreatedUpTo(T, n, P, ids, it, LocalOf(s).x, LocalOf(s).y, LocalOf(s).z)
    requires SomeCreated(ids, ids', s, it, Works(n, it))
    ensures CreatedUpTo(T, n, P, ids', it, LocalOf(s).x, LocalOf(s).y, LocalOf(s).z + 1)
  {
    forall t | IsTask(T, n, P, t) && t.it == it && LocalOf(t.s) == LocalOf(s) ensures t.s == s && t.work in Works(n, it) {
      assert t.it + 1 < n ==> Works(n, it)[WorkIndex(t.work)] == t.work;
      assert Works(n, it)[0] == Exchange.Compute;
      assert t.s.x == Pos(P.x, LocalOf(s).x) && t.s.y == Pos(P.y, LocalOf(s).y) && t.s.z == Pos(P.z, LocalOf(s).z);
    }
  }

  /** Within an iteration the tasks of a subgrid are created after those they depend on. */
  lemma WorkOrder(works: seq<Exchange.Work>, m: nat, w: Exchange.Work)
    requires works == [Exchange.Compute, Exchange.Pack, Exchange.Send, Exchange.Receive, Exchange.Unpack] || works == [Exchange.Compute]
    requires m < |works|
    requires || (works[m] == Exchange.Pack && w == Exchange.Compute) || (works[m] == Exchange.Send && w == Exchange.Pack)
             || (works[m] == Exchange.Unpack && (w == Exchange.Receive || w == Exchange.Compute))
    ensures w in works[..m]
  {
    var i := if w == Exchange.Compute then 0 else if w == Exchange.Pack then 1 else 3;
    assert works[..m][i] == w;
  }

  /** The graph holds the tasks of process P, no others, and exactly their dependencies. */
  ghost predicate IsGraphOf(T: Topology, n: nat, P: Vec<int>, g: Graph, tasks: seq<Task>) {
    && (forall t :: t in tasks ==> IsTask(T, n, P, t)) && (forall t :: IsTask(T, n, P, t) ==> t in tasks)
    && Closed(T, tasks) && Wired(T, g, tasks, Below(|tasks|))
  }

  function Below(n: nat): (r: set<nat>)
    ensures forall q: nat :: q in r <==> q < n
  {
    if n == 0 then {} else Below(n - 1) + {n - 1}
  }

  /** Builds the graph of process P: all its tasks, the dependencies of each, and nothing else. */
  method Jacobi3d(rt: Runtime, T: Topology, n: nat, P: Vec<int>) returns (ids: map<Task, nat>, ghost tasks: seq<Task>)
    requires T.Valid() && Within(ProcessCounts(T), P)
    requires Setup(rt.View(), rt.added) && Tasks(rt.View()) == 0 && rt.added == {}
    modifies rt
    ensures Init(rt.View()) && |rt.View().pc| == old(|rt.View().pc|) && IsGraphOf(T, n, P, rt.View().g, tasks)
    ensures Unused(rt.View()) && forall q, r :: 0 <= q < r < |tasks| ==> tasks[q] != tasks[r]
    ensures Named(ids, tasks) && (forall t :: t in ids <==> IsTask(T, n, P, t))
    ensures Closed(T, tasks) && Wired(T, rt.View().g, tasks, rt.added) && forall q: nat :: q in rt.added <==> q < |tasks|
  {
    ids, tasks := map[], [];
    var lt := SubgridCounts(T);
    NothingCreated(T, n, P);
    for it := 0 to n
      invariant Built(rt, T, ids, tasks) && |rt.View().pc| == old(|rt.View().pc|) && CreatedUpTo(T, n, P, ids, it, 0, 0, 0)
    {
      for i := 0 to lt.x
        invariant Built(rt, T, ids, tasks) && |rt.View().pc| == old(|rt.View().pc|) && CreatedUpTo(T, n, P, ids, it, i, 0, 0)
      {
        for j := 0 to lt.y
          invariant Built(rt, T, ids, tasks) && |rt.View().pc| == old(|rt.View().pc|) && CreatedUpTo(T, n, P, ids, it, i, j, 0)
        {
          for k := 0 to lt.z
            invariant Built(rt, T, ids, tasks) && |rt.View().pc| == old(|rt.View().pc|) && CreatedUpTo(T, n, P, ids, it, i, j, k)
          {
            var s := SubgridAt(P, Vec(i, j, k));
            InProcess(T, P, Vec(i, j, k));
            ids, tasks := BuildSubgrid(rt, T, n, P, s, it, ids, tasks);
          }
          NextPosition(T, n, P, ids, it, i, j, lt.z, it, i, j + 1, 0);
        }
        NextPosition(T, n, P, ids, it, i, lt.y, 0, it, i + 1, 0, 0);
      }
      NextPosition(T, n, P, ids, it, lt.x, 0, 0, it + 1, 0, 0, 0);
    }
    SetupInit(rt.View(), rt.added);
    assert rt.added == Below(|tasks|);
    forall t | IsTask(T, n, P, t) ensures t in tasks { assert tasks[ids[t]] == t; }
  }

  lemma NothingCreated(T: Topology, n: nat, P: Vec<int>)
    ensures CreatedUpTo(T, n, P, map[], 0, 0, 0, 0)
  {
    forall t | IsTask(T, n, P, t) ensures !CreatedBefore(t, 0, 0, 0, 0) {
      assert IsPos(T.sizes.At(X), t.s.At(X)) && IsPos(T.sizes.At(Y), t.s.At(Y)) && IsPos(T.sizes.At(Z), t.s.At(Z));
    }
  }

  lemma InProcess(T: Topology, P: Vec<int>, l: Vec<int>)
    requires Within(ProcessCounts(T), P) && Within(SubgridCounts(T), l)
    ensures IsSubgrid(T, SubgridAt(P, l)) && ProcessOf(SubgridAt(P, l)) == P && LocalOf(SubgridAt(P, l)) == l
  {}

  /** The end of a loop is the beginning of the next round of the loop around it. */
  lemma NextPosition(T: Topology, n: nat, P: Vec<int>, ids: map<Task, nat>, it: nat, i: nat, j: nat, k: nat, it': nat, i': nat, j': nat, k': nat)
    requires CreatedUpTo(T, n, P, ids, it, i, j, k)
    requires || (k == T.sizes.z.lt && (it', i', j', k') == (it, i, j + 1, 0))
             || (j == T.sizes.y.lt && k == 0 && (it', i', j', k') == (it, i + 1, 0, 0))
             || (i == T.sizes.x.lt && j == k == 0 && (it', i', j', k') == (it + 1, 0, 0, 0))
    ensures CreatedUpTo(T, n, P, ids, it', i', j', k')
  {
    forall t | IsTask(T, n, P, t) ensures CreatedBefore(t, it, i, j, k) == CreatedBefore(t, it', i', j', k') {
      assert IsPos(T.sizes.At(X), t.s.At(X)) && IsPos(T.sizes.At(Y), t.s.At(Y)) && IsPos(T.sizes.At(Z), t.s.At(Z));
    }
  }

  // ---------------------------------------------------------------------------------------------------------
  // What the scheduler makes of the graph
  // ---------------------------------------------------------------------------------------------------------

  /** Tasks in the order in which their iteration makes them possible. */
  function Ranks(tasks: seq<Task>): seq<nat> {
    seq(|tasks|, q requires 0 <= q < |tasks| => 5 * tasks[q].it + WorkIndex(tasks[q].work))
  }

  /** The graph has no cycle: the iteration and the kind of a task give it a rank that rises along every dependency. */
  lemma GraphOrdered(T: Topology, g: Graph, tasks: seq<Task>, wired: set<nat>)
    requires Wired(T, g, tasks, wired)
    ensures g.Ordered(Ranks(tasks))
  {
    forall p, k | 0 <= p < |g.out| && 0 <= k < |g.out[p]| ensures g.out[p][k] < |tasks| && Ranks(tasks)[p] < Ranks(tasks)[g.out[p][k]] {
      assert Exchange.DependsOn(T, tasks[g.out[p][k]], tasks[p]);
    }
  }

  /** On this graph a task is ready or running only when the bodies of all its predecessors in the exchange have run to their
      end. */
  lemma RunsWhenReady(T: Topology, n: nat, P: Vec<int>, tasks: seq<Task>, s: State, q: nat, p: Task) returns (e: nat)
    requires Inv(s) && IsGraphOf(T, n, P, s.g, tasks) && q < |tasks| && !s.place[q].Blocked?
    requires Exchange.DependsOn(T, tasks[q], p)
    ensures e < |tasks| && tasks[e] == p && BodyDone(s, e)
  {
    assert tasks[q] in tasks;
    e :| 0 <= e < |tasks| && tasks[e] == p;
    assert WiredOk(T, s.g, tasks, e, q);
    var k :| 0 <= k < |s.g.out[e]| && s.g.out[e][k] == q;
    ReadyAfterPredecessors(s, q, e, k);
  }
}
