/**
The halo exchange executed by the schedulers of all processes. A body step of the exchange is taken by a running task, and a
body ends only when its task is finished; that a task runs only when it is ready is no longer a guard, but what the
scheduler guarantees.
*/
module JacobiExecution {
  import opened Scheduler
  import opened SchedulerInvariant
  import opened SchedulerTheorems
  import opened SchedulerAccounting
  import opened JacobiGrid
  import opened JacobiSweeps
  import opened JacobiGraph
  import opened JacobiTopology
  import Exchange = JacobiProtocol
  import JacobiInvariant
  import JacobiTheorems

  /** Every process has a scheduler, and all take part in the exchange. */
  datatype Execution<!V> = Execution(nodes: map<Vec<int>, State>, x: Exchange.State<V>)

  /** A step of the scheduler of process P, or of a body that worker w of process P runs. */
  datatype Move = Schedule(P: Vec<int>, l: Label) | Body(P: Vec<int>, w: nat, m: Exchange.Move)

  /** The tasks of every process, by their ids. */
  type Tasks = map<Vec<int>, seq<Task>>

  /** The task to which the step m belongs when it is taken in state x. */
  function TaskOf<V>(x: Exchange.State<V>, m: Exchange.Move): Task {
    match m
    case StartCompute(s) => Exchange.Task(Exchange.Compute, s, Exchange.Computed(x, s))
    case WriteCell(c) => Exchange.Task(Exchange.Compute, Owner(c), Exchange.Computed(x, Owner(c)))
    case EndCompute(s) => Exchange.Task(Exchange.Compute, s, Exchange.Computed(x, s))
    case PackCell(p, _) => Exchange.Task(Exchange.Pack, p.s, Exchange.Packed(x, p))
    case EndPack(p) => Exchange.Task(Exchange.Pack, p.s, Exchange.Packed(x, p))
    case Push(p) => Exchange.Task(Exchange.Send, p.s, Exchange.Sent(x, p))
    case Peek(p) => Exchange.Task(Exchange.Receive, p.s, Exchange.Received(x, p))
    case UnpackCell(p, _) => Exchange.Task(Exchange.Unpack, p.s, Exchange.Unpacked(x, p))
    case Pop(p) => Exchange.Task(Exchange.Unpack, p.s, Exchange.Unpacked(x, p))
  }

  /** The port and its turn within the task. */
  ghost predicate AtPort<V>(T: Topology, x: Exchange.State<V>, work: Exchange.Work, p: Port) {
    IsPort(T, p) && Exchange.Turn(T, x, work, p, Exchange.Count(x, work, p))
  }

  /** What the code of the task itself looks at before the step: nothing about other tasks, but whether a channel is full or
      empty. */
  ghost predicate BodyMay<V>(T: Topology, x: Exchange.State<V>, m: Exchange.Move) {
    match m
    case StartCompute(s) => s !in x.busy
    case WriteCell(c) => InDomain(T, c) && Owner(c) in x.busy && c !in x.written
    case EndCompute(s) => s in x.busy && forall c :: Owns(T, s, c) ==> c in x.written
    case PackCell(p, c) => AtPort(T, x, Exchange.Pack, p) && InSlab(T, p.s, p.f, c) && Exchange.Slot(p, c) !in x.packing
    case EndPack(p) => AtPort(T, x, Exchange.Pack, p) && forall c :: InSlab(T, p.s, p.f, c) ==> Exchange.Slot(p, c) in x.packing
    case Push(p) => AtPort(T, x, Exchange.Send, p) && |Exchange.Channel(x, Peer(T, p))| < Exchange.CHANNEL_DEPTH
    case Peek(p) => AtPort(T, x, Exchange.Receive, p) && Exchange.Channel(x, p) != []
    case UnpackCell(p, c) =>
      && AtPort(T, x, Exchange.Unpack, p) && InGhost(T, p.s, p.f, c) && Exchange.Slot(p, c) !in x.unpacking
      && Exchange.Channel(x, p) != []
    case Pop(p) =>
      && AtPort(T, x, Exchange.Unpack, p) && (forall c :: InGhost(T, p.s, p.f, c) ==> Exchange.Slot(p, c) in x.unpacking)
      && Exchange.Channel(x, p) != []
  }

  /** Worker w of process P runs the task. */
  predicate Runs<V>(e: Execution<V>, tasks: Tasks, P: Vec<int>, w: nat, t: Task) {
    && P in e.nodes && P in tasks && w < |e.nodes[P].pc| && e.nodes[P].pc[w].Running?
    && e.nodes[P].pc[w].t < |tasks[P]| && tasks[P][e.nodes[P].pc[w].t] == t
  }

  /** The channel at a face, for whose state a suspended send or receive task waits, is in that state. */
  predicate IsOpen<V>(T: Topology, x: Exchange.State<V>, t: Task, face: nat)
    requires face < |FACES|
  {
    var p := Port(t.s, FACES[face]);
    if t.work == Exchange.Receive then Exchange.Channel(x, p) != [] else |Exchange.Channel(x, Peer(T, p))| < Exchange.CHANNEL_DEPTH
  }

  /** The task comes to the face, and finds the channel there full or empty. */
  ghost predicate HasToWait<V>(T: Topology, x: Exchange.State<V>, t: Task, face: nat) {
    && face < |FACES| && (t.work == Exchange.Send || t.work == Exchange.Receive)
    && AtPort(T, x, t.work, Port(t.s, FACES[face])) && Exchange.Count(x, t.work, Port(t.s, FACES[face])) == t.it
    && !IsOpen(T, x, t, face)
  }

  /** The choices of a scheduler step that the tasks and the channels determine: a body suspends when a channel makes it wait,
      with the face as its pending operation, and ends when it is through; the operation asks for the state of the channel. */
  ghost predicate TaskDecides<V>(T: Topology, ts: seq<Task>, s: State, x: Exchange.State<V>, w: nat, c: Choice)
    requires w < |s.pc|
  {
    && (s.pc[w].Running? ==>
          && s.pc[w].t < |ts|
          && if c.suspends then |c.ops| == 1 && HasToWait(T, x, ts[s.pc[w].t], c.ops[0])
             else Exchange.Finished(T, x, ts[s.pc[w].t]))
    && (s.pc[w].Polling? && s.pc[w].t < |s.pending| && s.pending[s.pc[w].t] != [] ==>
          && s.pc[w].t < |ts|
          && (s.pending[s.pc[w].t][0] < |FACES| ==> (c.ok <==> IsOpen(T, x, ts[s.pc[w].t], s.pending[s.pc[w].t][0]))))
  }

  ghost predicate CanMove<V>(T: Topology, tasks: Tasks, e: Execution<V>, m: Move) {
    match m
    case Schedule(P, l) =>
      && P in e.nodes && P in tasks && Basic(e.nodes[P]) && Enabled(e.nodes[P], l) && !l.ForceTermination?
      && (l.Act? ==> TaskDecides(T, tasks[P], e.nodes[P], e.x, l.w, l.choice))
    case Body(P, w, b) => BodyMay(T, e.x, b) && Runs(e, tasks, P, w, TaskOf(e.x, b))
  }

  ghost function DoMove<V>(T: Topology, R: Rules<V>, tasks: Tasks, e: Execution<V>, m: Move): Execution<V>
    requires CanMove(T, tasks, e, m)
  {
    match m
    case Schedule(P, l) => e.(nodes := e.nodes[P := Apply(e.nodes[P], l)])
    case Body(_, _, b) => e.(x := Exchange.Effect(T, R, e.x, b))
  }

  // ---------------------------------------------------------------------------------------------------------
  // Invariants
  // ---------------------------------------------------------------------------------------------------------

  /** The scheduler of process P executes the process's graph, and a body that has ended has finished its task. */
  ghost predicate NodeOk<V>(T: Topology, n: nat, P: Vec<int>, ts: seq<Task>, s: State, x: Exchange.State<V>) {
    && Inv(s) && !s.force && IsGraphOf(T, n, P, s.g, ts)
    && forall q :: 0 <= q < |ts| && BodyDone(s, q) ==> Exchange.Finished(T, x, ts[q])
  }

  ghost predicate NodesOk<V>(T: Topology, n: nat, tasks: Tasks, nodes: map<Vec<int>, State>, x: Exchange.State<V>) {
    && nodes.Keys == tasks.Keys
    && forall P :: P in nodes && P in tasks ==> NodeOk(T, n, P, tasks[P], nodes[P], x)
  }

  ghost predicate Good<V>(T: Topology, n: nat, R: Rules<V>, tasks: Tasks, e: Execution<V>) {
    T.Valid() && EveryProcess(T, tasks) && NodesOk(T, n, tasks, e.nodes, e.x) && Exchange.Inv(T, n, R, e.x)
  }

  ghost predicate EveryProcess(T: Topology, tasks: Tasks) {
    forall P :: Within(ProcessCounts(T), P) ==> P in tasks
  }

  /** A running task is ready: the scheduler has started it after everything it depends on was finished. */
  lemma NodeRunsReady<V>(T: Topology, n: nat, P: Vec<int>, ts: seq<Task>, s: State, x: Exchange.State<V>, w: nat)
    requires NodeOk(T, n, P, ts, s, x) && w < |s.pc| && s.pc[w].Running?
    ensures s.pc[w].t < |ts| && IsTask(T, n, P, ts[s.pc[w].t]) && Exchange.Ready(T, x, ts[s.pc[w].t])
  {
    assert WorkerOk(s, w);
    var q := s.pc[w].t;
    assert ts[q] in ts;
    forall p | Exchange.DependsOn(T, ts[q], p) ensures Exchange.Finished(T, x, p) {
      var d := RunsWhenReady(T, n, P, ts, s, q, p);
      assert Exchange.Finished(T, x, ts[d]);
    }
  }

  lemma RunningIsReady<V>(T: Topology, n: nat, R: Rules<V>, tasks: Tasks, e: Execution<V>, P: Vec<int>, w: nat, t: Task)
    requires Good(T, n, R, tasks, e) && Runs(e, tasks, P, w, t)
    ensures IsTask(T, n, P, t) && Exchange.Ready(T, e.x, t)
  {
    NodeRunsReady(T, n, P, tasks[P], e.nodes[P], e.x, w);
  }

  /** A step that the code of a ready task may take is a step of the exchange. */
  lemma ReadyMayMove<V>(T: Topology, n: nat, x: Exchange.State<V>, P: Vec<int>, m: Exchange.Move)
    requires BodyMay(T, x, m) && Exchange.Ready(T, x, TaskOf(x, m)) && IsTask(T, n, P, TaskOf(x, m))
    ensures Exchange.CanMove(T, n, x, m)
  {}

  /** So every step of a running body is one. */
  lemma BodyMoves<V>(T: Topology, n: nat, R: Rules<V>, tasks: Tasks, e: Execution<V>, P: Vec<int>, w: nat, m: Exchange.Move)
    requires Good(T, n, R, tasks, e) && BodyMay(T, e.x, m) && Runs(e, tasks, P, w, TaskOf(e.x, m))
    ensures Exchange.CanMove(T, n, e.x, m)
  {
    RunningIsReady(T, n, R, tasks, e, P, w, TaskOf(e.x, m));
    ReadyMayMove(T, n, e.x, P, m);
  }

  lemma FinishedStays<V>(T: Topology, n: nat, R: Rules<V>, x: Exchange.State<V>, m: Exchange.Move, t: Task)
    requires Exchange.CanMove(T, n, x, m) && Exchange.Finished(T, x, t)
    ensures Exchange.Finished(T, Exchange.DoMove(T, n, R, x, m), t)
  {
    var x' := Exchange.DoMove(T, n, R, x, m);
    CountsGrow(T, n, R, x, m, t.s);
    forall f | KindOf(T, t.s, f) == REMOTE && t.work != Exchange.Compute ensures Exchange.Count(x', t.work, Port(t.s, f)) > t.it {
      PortCountsGrow(T, n, R, x, m, t.work, Port(t.s, f));
      assert Exchange.Count(x, t.work, Port(t.s, f)) > t.it;
    }
  }

  lemma CountsGrow<V>(T: Topology, n: nat, R: Rules<V>, x: Exchange.State<V>, m: Exchange.Move, s: Subgrid)
    requires Exchange.CanMove(T, n, x, m)
    ensures Exchange.Computed(Exchange.DoMove(T, n, R, x, m), s) >= Exchange.Computed(x, s)
  {}

  lemma PortCountsGrow<V>(T: Topology, n: nat, R: Rules<V>, x: Exchange.State<V>, m: Exchange.Move, work: Exchange.Work, p: Port)
    requires Exchange.CanMove(T, n, x, m) && work != Exchange.Compute
    ensures Exchange.Count(Exchange.DoMove(T, n, R, x, m), work, p) >= Exchange.Count(x, work, p)
  {}

  lemma ScheduleNode<V>(T: Topology, n: nat, tasks: Tasks, e: Execution<V>, P: Vec<int>, l: Label)
    requires CanMove(T, tasks, e, Schedule(P, l)) && NodeOk(T, n, P, tasks[P], e.nodes[P], e.x)
    ensures NodeOk(T, n, P, tasks[P], Apply(e.nodes[P], l), e.x)
  {
    var s := e.nodes[P];
    StepInv(s, l);
    forall q | 0 <= q < |tasks[P]| && BodyDone(Apply(s, l), q) ensures Exchange.Finished(T, e.x, tasks[P][q]) {
      StepAges(s, l, q);
    }
  }

  lemma OneNode<V>(T: Topology, n: nat, tasks: Tasks, nodes: map<Vec<int>, State>, x: Exchange.State<V>, P: Vec<int>, s: State)
    requires NodesOk(T, n, tasks, nodes, x) && P in nodes && P in tasks && NodeOk(T, n, P, tasks[P], s, x)
    ensures NodesOk(T, n, tasks, nodes[P := s], x)
  {}

  lemma BodyNode<V>(T: Topology, n: nat, R: Rules<V>, P: Vec<int>, ts: seq<Task>, s: State, x: Exchange.State<V>, m: Exchange.Move)
    requires Exchange.CanMove(T, n, x, m) && NodeOk(T, n, P, ts, s, x)
    ensures NodeOk(T, n, P, ts, s, Exchange.DoMove(T, n, R, x, m))
  {
    forall q | 0 <= q < |ts| && BodyDone(s, q) ensures Exchange.Finished(T, Exchange.DoMove(T, n, R, x, m), ts[q]) {
      FinishedStays(T, n, R, x, m, ts[q]);
    }
  }

  lemma BodyNodes<V>(T: Topology, n: nat, R: Rules<V>, tasks: Tasks, nodes: map<Vec<int>, State>, x: Exchange.State<V>, m: Exchange.Move)
    requires NodesOk(T, n, tasks, nodes, x) && Exchange.CanMove(T, n, x, m)
    ensures NodesOk(T, n, tasks, nodes, Exchange.DoMove(T, n, R, x, m))
  {
    forall P | P in nodes && P in tasks ensures NodeOk(T, n, P, tasks[P], nodes[P], Exchange.DoMove(T, n, R, x, m)) {
      BodyNode(T, n, R, P, tasks[P], nodes[P], x, m);
    }
  }

  lemma MoveGood<V>(T: Topology, n: nat, R: Rules<V>, tasks: Tasks, e: Execution<V>, m: Move)
    requires Good(T, n, R, tasks, e) && CanMove(T, tasks, e, m)
    ensures Good(T, n, R, tasks, DoMove(T, R, tasks, e, m))
  {
    match m
    case Schedule(P, l) =>
      ScheduleNode(T, n, tasks, e, P, l);
      OneNode(T, n, tasks, e.nodes, e.x, P, Apply(e.nodes[P], l));
    case Body(P, w, b) =>
      BodyMoves(T, n, R, tasks, e, P, w, b);
      BodyNodes(T, n, R, tasks, e.nodes, e.x, b);
      JacobiInvariant.MoveInv(T, n, R, e.x, b);
  }

  // ---------------------------------------------------------------------------------------------------------
  // Runs
  // ---------------------------------------------------------------------------------------------------------

  /** Every process has built its graph and added it, the grids are reset, and nothing has run. */
  ghost predicate Start<V>(T: Topology, n: nat, R: Rules<V>, tasks: Tasks, e: Execution<V>) {
    && T.Valid() && Exchange.Init(T, R, e.x)
    && e.nodes.Keys == tasks.Keys
    && EveryProcess(T, tasks)
    && (forall P :: P in e.nodes && P in tasks ==> Init(e.nodes[P]) && IsGraphOf(T, n, P, e.nodes[P].g, tasks[P]))
  }

  ghost predicate Step<V>(T: Topology, R: Rules<V>, tasks: Tasks, e: Execution<V>, e': Execution<V>) {
    exists m :: CanMove(T, tasks, e, m) && e' == DoMove(T, R, tasks, e, m)
  }

  ghost predicate StepAt<V>(T: Topology, R: Rules<V>, tasks: Tasks, tr: seq<Execution<V>>, i: nat)
    requires i + 1 < |tr|
  {
    Step(T, R, tasks, tr[i], tr[i + 1])
  }

  ghost predicate IsExecution<V>(T: Topology, n: nat, R: Rules<V>, tasks: Tasks, tr: seq<Execution<V>>) {
    && |tr| > 0
    && Start(T, n, R, tasks, tr[0])
    && forall i :: 0 <= i < |tr| - 1 ==> StepAt(T, R, tasks, tr, i)
  }

  lemma StartGood<V>(T: Topology, n: nat, R: Rules<V>, tasks: Tasks, e: Execution<V>)
    requires Start(T, n, R, tasks, e)
    ensures Good(T, n, R, tasks, e)
  {
    JacobiTheorems.InitInv(T, n, R, e.x);
    forall P | P in e.nodes && P in tasks ensures NodeOk(T, n, P, tasks[P], e.nodes[P], e.x) {
      InitInv(e.nodes[P]);
      forall q | 0 <= q < |tasks[P]| ensures !BodyDone(e.nodes[P], q) {
        assert e.nodes[P].place[q].Blocked? || e.nodes[P].place[q].Queued?;
      }
    }
  }

  lemma StepGood<V>(T: Topology, n: nat, R: Rules<V>, tasks: Tasks, e: Execution<V>, e': Execution<V>)
    requires Good(T, n, R, tasks, e) && Step(T, R, tasks, e, e')
    ensures Good(T, n, R, tasks, e')
  {
    var m :| CanMove(T, tasks, e, m) && e' == DoMove(T, R, tasks, e, m);
    MoveGood(T, n, R, tasks, e, m);
  }

  ghost predicate KeepsAt<S>(good: S -> bool, tr: seq<S>, j: nat)
    requires j + 1 < |tr|
  {
    good(tr[j]) ==> good(tr[j + 1])
  }

  lemma {:induction false} Kept<S>(good: S -> bool, tr: seq<S>, i: nat)
    requires i < |tr| && good(tr[0]) && forall j :: 0 <= j < |tr| - 1 ==> KeepsAt(good, tr, j)
    ensures good(tr[i])
    decreases i
  {
    if i > 0 {
      Kept(good, tr, i - 1);
      assert KeepsAt(good, tr, i - 1);
    }
  }

  lemma AlwaysGood<V>(T: Topology, n: nat, R: Rules<V>, tasks: Tasks, tr: seq<Execution<V>>, i: nat)
    requires IsExecution(T, n, R, tasks, tr) && i < |tr|
    ensures Good(T, n, R, tasks, tr[i])
  {
    var good := (e: Execution<V>) => Good(T, n, R, tasks, e);
    StartGood(T, n, R, tasks, tr[0]);
    forall j | 0 <= j < |tr| - 1 ensures KeepsAt(good, tr, j) {
      assert StepAt(T, R, tasks, tr, j);
      if good(tr[j]) { StepGood(T, n, R, tasks, tr[j], tr[j + 1]); }
    }
    Kept(good, tr, i);
  }

  /** The execution of all task graphs refines the exchange: each of its steps is a step of the exchange, or leaves it alone. */
  lemma Refines<V>(T: Topology, n: nat, R: Rules<V>, tasks: Tasks, tr: seq<Execution<V>>, i: nat)
    requires IsExecution(T, n, R, tasks, tr) && i + 1 < |tr|
    ensures Exchange.Init(T, R, tr[0].x)
    ensures tr[i + 1].x == tr[i].x || Exchange.Step(T, n, R, tr[i].x, tr[i + 1].x)
  {
    AlwaysGood(T, n, R, tasks, tr, i);
    assert StepAt(T, R, tasks, tr, i);
    StepRefines(T, n, R, tasks, tr[i], tr[i + 1]);
  }

  lemma StepRefines<V>(T: Topology, n: nat, R: Rules<V>, tasks: Tasks, e: Execution<V>, e': Execution<V>)
    requires Good(T, n, R, tasks, e) && Step(T, R, tasks, e, e')
    ensures e'.x == e.x || Exchange.Step(T, n, R, e.x, e'.x)
  {
    var m :| CanMove(T, tasks, e, m) && e' == DoMove(T, R, tasks, e, m);
    if m.Body? {
      BodyMoves(T, n, R, tasks, e, m.P, m.w, m.m);
      assert e'.x == Exchange.DoMove(T, n, R, e.x, m.m);
    }
  }

  lemma DoneIsSynchronous<V>(T: Topology, n: nat, R: Rules<V>, tasks: Tasks, e: Execution<V>, q: Vec<int>)
    requires Good(T, n, R, tasks, e) && InExtent(Extent(T), q) && forall P :: P in e.nodes ==> e.nodes[P].active == 0
    ensures var c := CellAt(T, q);
      && Exchange.At(R, e.x, n, ProcessOf(Owner(c)), c) == GlobalValue(Extent(T), T.depth, R, n, q)
      && (n > 0 ==> Exchange.At(R, e.x, n + 1, ProcessOf(Owner(c)), c) == GlobalValue(Extent(T), T.depth, R, n - 1, q))
  {
    forall s | IsSubgrid(T, s) ensures Exchange.Computed(e.x, s) == n { AllComputed(T, n, R, tasks, e, s); }
    JacobiTheorems.SweepsInBuffers(T, n, R, e.x, q);
  }

  /** When the schedulers of all processes have no active task left, one buffer holds n synchronous sweeps of the global grid
      and the other n - 1, whatever the interleaving of workers, processes and messages. */
  lemma ResultIsSynchronous<V>(T: Topology, n: nat, R: Rules<V>, tasks: Tasks, tr: seq<Execution<V>>, i: nat, q: Vec<int>)
    requires IsExecution(T, n, R, tasks, tr) && i < |tr| && InExtent(Extent(T), q)
    requires forall P :: P in tr[i].nodes ==> tr[i].nodes[P].active == 0
    ensures var c := CellAt(T, q);
      && Exchange.At(R, tr[i].x, n, ProcessOf(Owner(c)), c) == GlobalValue(Extent(T), T.depth, R, n, q)
      && (n > 0 ==> Exchange.At(R, tr[i].x, n + 1, ProcessOf(Owner(c)), c) == GlobalValue(Extent(T), T.depth, R, n - 1, q))
  {
    AlwaysGood(T, n, R, tasks, tr, i);
    DoneIsSynchronous(T, n, R, tasks, tr[i], q);
  }

  /** A process without active tasks has computed all iterations of its subgrids. */
  lemma AllComputed<V>(T: Topology, n: nat, R: Rules<V>, tasks: Tasks, e: Execution<V>, s: Subgrid)
    requires Good(T, n, R, tasks, e) && IsSubgrid(T, s) && forall P :: P in e.nodes ==> e.nodes[P].active == 0
    ensures Exchange.Computed(e.x, s) == n
  {
    assert Exchange.DriftOk(T, n, e.x, s);
    if n > 0 {
      var P := ProcessOf(s);
      SubgridProcess(T, s);
      assert P in e.nodes && NodeOk(T, n, P, tasks[P], e.nodes[P], e.x);
      NothingActive(e.nodes[P]);
      var t := Exchange.Task(Exchange.Compute, s, n - 1);
      assert IsTask(T, n, P, t);
      var q :| 0 <= q < |tasks[P]| && tasks[P][q] == t;
      assert Exchange.Finished(T, e.x, tasks[P][q]);
    }
  }

  lemma SubgridProcess(T: Topology, s: Subgrid)
    requires IsSubgrid(T, s)
    ensures Within(ProcessCounts(T), ProcessOf(s))
  {
    assert IsPos(T.sizes.At(X), s.At(X)) && IsPos(T.sizes.At(Y), s.At(Y)) && IsPos(T.sizes.At(Z), s.At(Z));
  }
}
