/** The same loop nest building a task graph: a grid remembers the tasks that write each block. */
module CholeskyGraph {
  import opened Scheduler
  import opened SchedulerSetup
  import opened TaskRuntime
  import opened CholeskyProgram

  /** The graph holds the dependencies between the operations, each once; task ids are positions in ops. */
  predicate GraphMatches(g: Graph, ops: seq<Op>) {
    && |g.out| == |ops|
    && (forall p, k :: 0 <= p < |g.out| && 0 <= k < |g.out[p]| ==> DependsOn(ops, g.out[p][k], p))
    && (forall p, q :: 0 <= p < |g.out| && 0 <= q < |ops| && DependsOn(ops, q, p) ==> q in g.out[p])
    && (forall p :: 0 <= p < |g.out| ==> NoDuplicates(g.out[p]))
  }

  /** The operations that write block b. */
  function Writers(ops: seq<Op>, b: Block): set<nat> {
    set p: nat | p < |ops| && Target(ops[p]) == b
  }

  ghost predicate GridMatches(grid: array2<set<nat>>, ops: seq<Op>)
    reads grid
  {
    forall r, c :: 0 <= r < grid.Length0 && 0 <= c < grid.Length1 ==> grid[r, c] == Writers(ops, At(r, c))
  }

  /** Graph g is g0 with a new task t that depends on the tasks in `linked`. */
  predicate Linked(g: Graph, g0: Graph, linked: set<nat>) {
    && |g.out| == |g0.out| + 1
    && g.out[|g0.out|] == []
    && forall p :: 0 <= p < |g0.out| ==> g.out[p] == g0.out[p] + if p in linked then [|g0.out|] else []
  }

  /** The tasks on which operation o depends through the first n blocks it accesses. */
  function WritersOfFirst(ops: seq<Op>, o: Op, n: nat): set<nat>
    requires n <= |Accesses(o)|
  {
    set p: nat | p < |ops| && Target(ops[p]) in Accesses(o)[..n]
  }

  lemma LinkedMatches(g: Graph, g0: Graph, ops: seq<Op>, o: Op)
    requires GraphMatches(g0, ops) && Linked(g, g0, WritersOfFirst(ops, o, |Accesses(o)|))
    ensures GraphMatches(g, ops + [o])
  {
    var all := ops + [o];
    forall p, k | 0 <= p < |g.out| && 0 <= k < |g.out[p]| ensures DependsOn(all, g.out[p][k], p) {
      if k < |g0.out[p]| { assert DependsOn(ops, g0.out[p][k], p); }
    }
    forall p, q | 0 <= p < |g.out| && 0 <= q < |all| && DependsOn(all, q, p) ensures q in g.out[p] {
      if q < |ops| { assert DependsOn(ops, q, p); }
    }
  }

  /** Adds the tasks that write block b to the dependencies of task t. */
  method AddTaskDependency(rt: Runtime, grid: array2<set<nat>>, t: nat, b: Block, ghost g0: Graph, ghost linked: set<nat>)
    requires Setup(rt.View(), rt.added) && t == |g0.out| && t !in rt.added && Linked(rt.View().g, g0, linked)
    requires b.row < grid.Length0 && b.column < grid.Length1
    requires linked !! grid[b.row, b.column] && forall p :: p in grid[b.row, b.column] ==> p < t
    modifies rt
    ensures Setup(rt.View(), rt.added) && rt.added == old(rt.added)
    ensures Linked(rt.View().g, g0, linked + grid[b.row, b.column])
    ensures rt.View().affinity == old(rt.View().affinity) && rt.View().pc == old(rt.View().pc)
    ensures rt.View().pending == old(rt.View().pending)
  {
    var dependencies := grid[b.row, b.column];
    ghost var writers := dependencies;
    while dependencies != {}
      invariant dependencies <= writers
      invariant Setup(rt.View(), rt.added) && rt.added == old(rt.added)
      invariant Linked(rt.View().g, g0, linked + (writers - dependencies))
      invariant rt.View().affinity == old(rt.View().affinity) && rt.View().pc == old(rt.View().pc)
      invariant rt.View().pending == old(rt.View().pending)
    {
      var d :| d in dependencies;
      rt.AddDependency(t, d);
      dependencies := dependencies - {d};
    }
    assert writers - dependencies == writers;
  }

  /** The graph and the grid after the operations of ops, all added, without affinities or pending operations. */
  ghost predicate Built(rt: Runtime, grid: array2<set<nat>>, ops: seq<Op>)
    reads rt, grid
  {
    && Setup(rt.View(), rt.added)
    && GraphMatches(rt.View().g, ops)
    && GridMatches(grid, ops)
    && (forall t: nat :: t in rt.added <==> t < |ops|)
    && (forall t :: 0 <= t < |rt.View().affinity| ==> rt.View().affinity[t] == -1)
    && (forall t :: 0 <= t < |rt.View().pending| ==> rt.View().pending[t] == [])
  }

  /** Creates the task of operation o and adds its dependencies. */
  method CreateTask(rt: Runtime, grid: array2<set<nat>>, o: Op, ghost ops: seq<Op>) returns (t: nat)
    requires Setup(rt.View(), rt.added) && Tasks(rt.View()) == |ops| && GridMatches(grid, ops)
    requires ValidOp(o, grid.Length0) && grid.Length0 == grid.Length1
    modifies rt
    ensures Setup(rt.View(), rt.added) && rt.added == old(rt.added) && t == |ops| && t !in rt.added
    ensures Linked(rt.View().g, old(rt.View().g), WritersOfFirst(ops, o, |Accesses(o)|))
    ensures rt.View().affinity == old(rt.View().affinity) + [-1] && rt.View().pc == old(rt.View().pc)
    ensures rt.View().pending == old(rt.View().pending) + [[]]
  {
    ghost var g0 := rt.View().g;
    t := rt.NewTask(-1);
    var blocks := Accesses(o);
    for n := 0 to |blocks|
      invariant Setup(rt.View(), rt.added) && rt.added == old(rt.added) && GridMatches(grid, ops)
      invariant Linked(rt.View().g, g0, WritersOfFirst(ops, o, n))
      invariant rt.View().affinity == old(rt.View().affinity) + [-1] && rt.View().pc == old(rt.View().pc)
      invariant rt.View().pending == old(rt.View().pending) + [[]]
    {
      FirstWriters(ops, o, n, grid.Length0);
      AddTaskDependency(rt, grid, t, blocks[n], g0, WritersOfFirst(ops, o, n));
    }
  }

  /** Records the task as a writer of the block. */
  method UpdateDependencyGrid(grid: array2<set<nat>>, t: nat, o: Op, ghost ops: seq<Op>)
    requires t == |ops| && GridMatches(grid, ops) && ValidOp(o, grid.Length0) && grid.Length0 == grid.Length1
    modifies grid
    ensures GridMatches(grid, ops + [o])
  {
    var b := CholeskyProgram.Target(o);
    grid[b.row, b.column] := grid[b.row, b.column] + {t};
    forall c ensures Writers(ops + [o], c) == Writers(ops, c) + if c == b then {t} else {} {}
  }

  /** Records the created task as a writer and adds it to the runtime. */
  method AddCreatedTask(rt: Runtime, grid: array2<set<nat>>, t: nat, o: Op, ghost ops: seq<Op>)
    requires ValidOp(o, grid.Length0) && grid.Length0 == grid.Length1 && GridMatches(grid, ops)
    requires Setup(rt.View(), rt.added) && t == |ops| && GraphMatches(rt.View().g, ops + [o])
    requires forall u: nat :: u in rt.added <==> u < t
    requires forall u :: 0 <= u < |rt.View().affinity| ==> rt.View().affinity[u] == -1
    requires forall u :: 0 <= u < |rt.View().pending| ==> rt.View().pending[u] == []
    modifies rt, grid
    ensures Built(rt, grid, ops + [o]) && |rt.View().pc| == old(|rt.View().pc|)
  {
    UpdateDependencyGrid(grid, t, o, ops);
    ghost var s := rt.View();
    AddedTaskKeepsSetup(s, rt.added, t);
    assert rt.workerAffinity[t] == -1 by { assert s.affinity[t] == -1; }
    var outcome := rt.AddTask(t);
  }

  /** Creates the task of operation o, adds its dependencies, records it as a writer and adds it to the runtime. */
  method InsertTask(rt: Runtime, grid: array2<set<nat>>, o: Op, ghost ops: seq<Op>)
    requires Built(rt, grid, ops) && ValidOp(o, grid.Length0) && grid.Length0 == grid.Length1
    modifies rt, grid
    ensures Built(rt, grid, ops + [o]) && |rt.View().pc| == old(|rt.View().pc|)
  {
    ghost var s0 := rt.View();
    var t := CreateTask(rt, grid, o, ops);
    LinkedMatches(rt.View().g, s0.g, ops, o);
    AddCreatedTask(rt, grid, t, o, ops);
  }

  lemma FirstWriters(ops: seq<Op>, o: Op, n: nat, size: nat)
    requires n < |Accesses(o)| && ValidOp(o, size)
    ensures Accesses(o)[n].row < size && Accesses(o)[n].column < size
    ensures WritersOfFirst(ops, o, n) !! Writers(ops, Accesses(o)[n])
    ensures WritersOfFirst(ops, o, n + 1) == WritersOfFirst(ops, o, n) + Writers(ops, Accesses(o)[n])
  {
    assert Accesses(o)[..n + 1] == Accesses(o)[..n] + [Accesses(o)[n]];
  }

  /** Builds the task graph: the loop nest of the sequential factorization, with a task for each kernel call. */
  method Cholesky(rt: Runtime, blocks: nat) returns (grid: array2<set<nat>>)
    requires Setup(rt.View(), rt.added) && Tasks(rt.View()) == 0 && rt.added == {}
    modifies rt
    ensures Init(rt.View()) && GraphMatches(rt.View().g, Program(blocks)) && |rt.View().pc| == old(|rt.View().pc|)
    ensures forall t :: 0 <= t < |rt.View().pending| ==> rt.View().pending[t] == []
  {
    grid := new set<nat>[blocks, blocks]((_, _) => {});
    ghost var done: seq<Op> := [];
    assert Built(rt, grid, done) by { forall b ensures Writers([], b) == {} {} }
    ghost var workers := |rt.View().pc|;
    for i := 0 to blocks
      invariant done == Iterations(i, blocks) && Built(rt, grid, done) && |rt.View().pc| == workers
    {
      InsertTask(rt, grid, Potrf(i), done);
      done := done + [Potrf(i)];

      ghost var start := done;
      for j := i + 1 to blocks
        invariant done == Trsms(start, i, j) && Built(rt, grid, done) && |rt.View().pc| == workers
      {
        InsertTask(rt, grid, Trsm(i, j), done);
        done := done + [Trsm(i, j)];
      }

      start := done;
      for j := i + 1 to blocks
        invariant done == Updates(start, i, j) && Built(rt, grid, done) && |rt.View().pc| == workers
      {
        ghost var before := done;
        for k := i + 1 to j
          invariant done == Gemms(before, i, k, j) && Built(rt, grid, done) && |rt.View().pc| == workers
        {
          InsertTask(rt, grid, Gemm(i, k, j), done);
          done := done + [Gemm(i, k, j)];
        }
        InsertTask(rt, grid, Syrk(i, j), done);
        done := done + [Syrk(i, j)];
      }
    }
    SetupInit(rt.View(), rt.added);
  }

  /** Ids order the graph: it has no cycle. */
  lemma GraphOrdered(g: Graph, ops: seq<Op>)
    requires GraphMatches(g, ops)
    ensures g.Closed() && g.Ordered(seq(|ops|, i requires 0 <= i => i))
  {
    forall p, k | 0 <= p < |g.out| && 0 <= k < |g.out[p]| ensures p < g.out[p][k] < |g.out| {
      assert DependsOn(ops, g.out[p][k], p);
    }
  }
}
