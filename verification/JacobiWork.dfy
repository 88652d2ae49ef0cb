/**
The halo exchange executed by the schedulers of all processes as a machine of all their workers: what holds in every state,
and how much is left to do.
*/
module JacobiWork {
  import opened Arithmetic
  import opened Scheduler
  import opened SchedulerInvariant
  import opened SchedulerTheorems
  import opened SchedulerAccounting
  import opened SchedulerPolling
  import SchedulerProgress
  import SchedulerFairness
  import Turns
  import opened Fairness
  import opened JacobiGrid
  import opened JacobiSweeps
  import opened JacobiGraph
  import opened JacobiTopology
  import Exchange = JacobiProtocol
  import JacobiInvariant
  import JacobiTheorems
  import opened JacobiExecution

  /** The grid and its processes, the tasks of each, and how many workers a process has at most. */
  datatype Job<!V> = Job(T: Topology, n: nat, R: Rules<V>, tasks: Tasks, procs: seq<Vec<int>>, width: nat)

  /** All processes are listed, each once, and no process has a task twice. */
  ghost predicate Listed<V>(j: Job<V>) {
    && j.width > 0
    && (forall P :: P in j.tasks <==> P in j.procs)
    && (forall k, l :: 0 <= k < l < |j.procs| ==> j.procs[k] != j.procs[l])
    && (forall P :: P in j.tasks ==> Distinct(j.tasks[P]))
  }

  predicate Distinct(ts: seq<Task>) { forall q, r :: 0 <= q < r < |ts| ==> ts[q] != ts[r] }

  // ---------------------------------------------------------------------------------------------------------
  // The machine: its workers are those of all processes
  // ---------------------------------------------------------------------------------------------------------

  /** The number of worker w of process k. */
  function Number<V>(j: Job<V>, k: nat, w: nat): nat { k * j.width + w }

  predicate IsNumber<V>(j: Job<V>, u: int, k: nat, w: nat) { k < |j.procs| && w < j.width && u == Number(j, k, w) }

  /** The move is one of worker w of process k. */
  predicate IsBy<V>(j: Job<V>, m: Move, k: nat, w: nat) {
    k < |j.procs| && j.procs[k] == m.P && match m case Schedule(_, l) => l.Act? && l.w == w case Body(_, v, _) => v == w
  }

  ghost predicate MovesTo<V>(j: Job<V>, e: Execution<V>, e': Execution<V>, u: int, m: Move, k: nat, w: nat) {
    CanMove(j.T, j.tasks, e, m) && e' == DoMove(j.T, j.R, j.tasks, e, m) && IsNumber(j, u, k, w) && IsBy(j, m, k, w)
  }

  ghost predicate GoesOn<V(!new)>(j: Job<V>, e: Execution<V>, e': Execution<V>, u: int) {
    (u < 0 && e' == e) || exists m, k, w :: MovesTo(j, e, e', u, m, k, w)
  }

  predicate AbleAt<V>(j: Job<V>, e: Execution<V>, k: nat, w: nat) {
    k < |j.procs| && j.procs[k] in e.nodes && SchedulerFairness.CanGoOn(e.nodes[j.procs[k]], w)
  }

  ghost predicate Able<V>(j: Job<V>, e: Execution<V>, u: nat) {
    exists k, w :: IsNumber(j, u, k, w) && AbleAt(j, e, k, w)
  }

  lemma SameNumber<V>(j: Job<V>, u: int, k: nat, w: nat, k': nat, w': nat)
    requires IsNumber(j, u, k, w) && IsNumber(j, u, k', w')
    ensures k == k' && w == w'
  {
    SameDigits(j.width, k, w, k', w');
  }

  // ---------------------------------------------------------------------------------------------------------
  // What holds in every state
  // ---------------------------------------------------------------------------------------------------------

  /** A pending operation is that of a receive task that has come to a port, and not been through it. */
  ghost predicate PendOk<V>(T: Topology, x: Exchange.State<V>, t: Task, pending: seq<nat>) {
    || pending == []
    || (&& |pending| == 1 && pending[0] < |FACES| && t.work == Exchange.Receive
        && var p := Port(t.s, FACES[pending[0]]);
           IsPort(T, p) && Exchange.Received(x, p) == t.it <= Exchange.Unpacked(x, p))
  }

  ghost predicate Waiting<V>(T: Topology, ts: seq<Task>, s: State, x: Exchange.State<V>) {
    && |s.pending| == |ts|
    && (forall q :: 0 <= q < |ts| ==> PendOk(T, x, ts[q], s.pending[q]))
    && (forall w :: 0 <= w < |s.pc| ==> PolledOk(s, w))
  }

  predicate Usual(s: State, width: nat) { 0 < |s.pc| <= width && Turns.AllCommon(s) && Turns.Orderly(s) }

  ghost predicate NodeSound<V>(j: Job<V>, P: Vec<int>, s: State, x: Exchange.State<V>)
    requires P in j.tasks
  {
    NodeOk(j.T, j.n, P, j.tasks[P], s, x) && Usual(s, j.width) && Waiting(j.T, j.tasks[P], s, x)
  }

  ghost predicate Sound<V>(j: Job<V>, e: Execution<V>) {
    && Good(j.T, j.n, j.R, j.tasks, e) && Listed(j)
    && forall P :: P in e.nodes && P in j.tasks ==> NodeSound(j, P, e.nodes[P], e.x)
  }

  /** A port of a ready task has been through all earlier iterations. */
  lemma ReadyCount<V>(T: Topology, n: nat, x: Exchange.State<V>, t: Task, f: Face)
    requires Exchange.CountsOk(T, n, x) && Exchange.Ready(T, x, t) && IsSubgrid(T, t.s) && KindOf(T, t.s, f) == REMOTE
    ensures Exchange.Count(x, t.work, Port(t.s, f)) >= t.it
    ensures t.work == Exchange.Receive ==> Exchange.Unpacked(x, Port(t.s, f)) >= t.it
  {
    var p := Port(t.s, f);
    assert Exchange.ChainOk(T, n, x, p);
    if t.it > 0 {
      match t.work
      case Compute => assert Exchange.Finished(T, x, Exchange.Task(Exchange.Compute, t.s, t.it - 1));
      case Pack => assert Exchange.Finished(T, x, Exchange.Task(Exchange.Send, t.s, t.it - 1));
      case Send => assert Exchange.Finished(T, x, Exchange.Task(Exchange.Pack, t.s, t.it));
      case Receive => assert Exchange.Finished(T, x, Exchange.Task(Exchange.Unpack, t.s, t.it - 1));
      case Unpack => assert Exchange.Finished(T, x, Exchange.Task(Exchange.Receive, t.s, t.it));
    }
  }

  /** A task that has to wait is a receive task whose message has not been sent: no channel is ever full. */
  lemma WaitsForMessage<V>(T: Topology, n: nat, x: Exchange.State<V>, t: Task, face: nat)
    requires T.Valid() && Exchange.CountsOk(T, n, x) && Exchange.Ready(T, x, t) && IsSubgrid(T, t.s) && HasToWait(T, x, t, face)
    ensures PendOk(T, x, t, [face]) && Exchange.Sent(x, Peer(T, Port(t.s, FACES[face]))) <= t.it
  {
    var p := Port(t.s, FACES[face]);
    PeerBack(T, p);
    JacobiTheorems.MessagesInFlight(T, n, x, Peer(T, p));
    ReadyCount(T, n, x, t, FACES[face]);
    assert Exchange.ChainOk(T, n, x, p);
  }

  /** The poll of a receive task succeeds once its message has been sent, and not before. */
  lemma OpensWhenSent<V>(T: Topology, n: nat, x: Exchange.State<V>, t: Task, face: nat)
    requires Exchange.CountsOk(T, n, x) && PendOk(T, x, t, [face])
    ensures IsOpen(T, x, t, face) <==> Exchange.Sent(x, Peer(T, Port(t.s, FACES[face]))) > t.it
  {
    assert Exchange.ChainOk(T, n, x, Port(t.s, FACES[face]));
  }

  // ---------------------------------------------------------------------------------------------------------
  // Moves keep it
  // ---------------------------------------------------------------------------------------------------------

  lemma ScheduleUsual(s: State, w: nat, c: Choice, width: nat)
    requires Inv(s) && Usual(s, width) && Enabled(s, Act(w, c))
    ensures Usual(WorkerStep(s, w, c), width)
  {
    Turns.AffinityStays(s, w, c);
    Turns.OrderlyStep(s, w, c);
  }

  lemma SchedulePending<V>(T: Topology, n: nat, P: Vec<int>, ts: seq<Task>, s: State, x: Exchange.State<V>, w: nat, c: Choice, q: nat)
    requires T.Valid() && Exchange.CountsOk(T, n, x) && NodeOk(T, n, P, ts, s, x) && Waiting(T, ts, s, x)
    requires Enabled(s, Act(w, c)) && TaskDecides(T, ts, s, x, w, c) && q < |ts|
    ensures q < |WorkerStep(s, w, c).pending| && PendOk(T, x, ts[q], WorkerStep(s, w, c).pending[q])
  {
    PendingStep(s, w, c, q);
    assert PendOk(T, x, ts[q], s.pending[q]) && PolledOk(s, w);
    if s.pc[w] == Running(q) && c.suspends {
      NodeRunsReady(T, n, P, ts, s, x, w);
      WaitsForMessage(T, n, x, ts[q], c.ops[0]);
      assert s.pending[q] + c.ops == [c.ops[0]];
    }
  }

  lemma ScheduleWaiting<V>(T: Topology, n: nat, P: Vec<int>, ts: seq<Task>, s: State, x: Exchange.State<V>, w: nat, c: Choice)
    requires T.Valid() && Exchange.CountsOk(T, n, x) && NodeOk(T, n, P, ts, s, x) && Waiting(T, ts, s, x)
    requires Enabled(s, Act(w, c)) && TaskDecides(T, ts, s, x, w, c)
    ensures Waiting(T, ts, WorkerStep(s, w, c), x)
  {
    var s' := WorkerStep(s, w, c);
    StepInv(s, Act(w, c));
    forall q | 0 <= q < |ts| ensures q < |s'.pending| && PendOk(T, x, ts[q], s'.pending[q]) {
      SchedulePending(T, n, P, ts, s, x, w, c, q);
    }
    forall v | 0 <= v < |s'.pc| ensures PolledOk(s', v) {
      assert PolledOk(s, v) && PolledOk(s, w);
      SchedulePolled(s, w, c, v);
    }
  }

  /** A message is peeked at only by the task that waits for it. */
  lemma PeeksOwn<V>(T: Topology, x: Exchange.State<V>, x': Exchange.State<V>, m: Exchange.Move, R: Rules<V>, p: Port)
    requires BodyMay(T, x, m) && x' == Exchange.Effect(T, R, x, m)
    ensures Exchange.Received(x', p) == Exchange.Received(x, p) || m == Exchange.Peek(p)
    ensures Exchange.Received(x', p) >= Exchange.Received(x, p) && Exchange.Unpacked(x', p) >= Exchange.Unpacked(x, p)
  {}

  lemma RunnerWaitsForNothing(s: State, ts: seq<Task>, w: nat, q: nat)
    requires Distinct(ts) && w < |s.pc| && PolledOk(s, w) && s.pc[w].Running? && q < |ts| == |s.pending|
    requires s.pc[w].t < |ts| && ts[s.pc[w].t] == ts[q]
    ensures s.pc[w] == Running(q) && s.pending[q] == []
  {}

  lemma TaskOfProcess<V>(T: Topology, n: nat, P: Vec<int>, ts: seq<Task>, s: State, x: Exchange.State<V>, q: nat)
    requires NodeOk(T, n, P, ts, s, x) && q < |ts|
    ensures IsTask(T, n, P, ts[q])
  {
    assert ts[q] in ts;
  }

  /** Only one worker of one process runs a task, and then the task waits for nothing. */
  lemma OnlyRunner<V>(j: Job<V>, e: Execution<V>, P0: Vec<int>, w0: nat, P: Vec<int>, q: nat)
    requires Sound(j, e) && P in e.nodes && P in j.tasks && q < |j.tasks[P]| && Runs(e, j.tasks, P0, w0, j.tasks[P][q])
    ensures P0 == P && e.nodes[P].pc[w0] == Running(q) && q < |e.nodes[P].pending| && e.nodes[P].pending[q] == []
  {
    assert NodeSound(j, P, e.nodes[P], e.x) && NodeSound(j, P0, e.nodes[P0], e.x);
    TaskOfProcess(j.T, j.n, P, j.tasks[P], e.nodes[P], e.x, q);
    TaskOfProcess(j.T, j.n, P0, j.tasks[P0], e.nodes[P0], e.x, e.nodes[P0].pc[w0].t);
    RunnerWaitsForNothing(e.nodes[P], j.tasks[P], w0, q);
  }

  lemma BodyPending<V>(T: Topology, R: Rules<V>, x: Exchange.State<V>, m: Exchange.Move, t: Task, pending: seq<nat>)
    requires BodyMay(T, x, m) && PendOk(T, x, t, pending) && (m.Peek? && TaskOf(x, m) == t ==> pending == [])
    ensures PendOk(T, Exchange.Effect(T, R, x, m), t, pending)
  {
    if pending != [] { PeeksOwn(T, x, Exchange.Effect(T, R, x, m), m, R, Port(t.s, FACES[pending[0]])); }
  }

  lemma BodySound<V>(j: Job<V>, e: Execution<V>, P0: Vec<int>, w0: nat, m: Exchange.Move)
    requires Sound(j, e) && CanMove(j.T, j.tasks, e, Body(P0, w0, m))
    ensures Sound(j, DoMove(j.T, j.R, j.tasks, e, Body(P0, w0, m)))
  {
    var e' := DoMove(j.T, j.R, j.tasks, e, Body(P0, w0, m));
    MoveGood(j.T, j.n, j.R, j.tasks, e, Body(P0, w0, m));
    forall P | P in e'.nodes && P in j.tasks ensures NodeSound(j, P, e'.nodes[P], e'.x) {
      BodyNodeSound(j, e, P0, w0, m, P);
    }
  }

  lemma BodyNodeSound<V>(j: Job<V>, e: Execution<V>, P0: Vec<int>, w0: nat, m: Exchange.Move, P: Vec<int>)
    requires Sound(j, e) && CanMove(j.T, j.tasks, e, Body(P0, w0, m)) && P in e.nodes && P in j.tasks
    requires Good(j.T, j.n, j.R, j.tasks, DoMove(j.T, j.R, j.tasks, e, Body(P0, w0, m)))
    ensures NodeSound(j, P, e.nodes[P], DoMove(j.T, j.R, j.tasks, e, Body(P0, w0, m)).x)
  {
    var s, x' := e.nodes[P], DoMove(j.T, j.R, j.tasks, e, Body(P0, w0, m)).x;
    assert NodeSound(j, P, s, e.x);
    forall q | 0 <= q < |j.tasks[P]| ensures PendOk(j.T, x', j.tasks[P][q], s.pending[q]) {
      if TaskOf(e.x, m) == j.tasks[P][q] { OnlyRunner(j, e, P0, w0, P, q); }
      BodyPending(j.T, j.R, e.x, m, j.tasks[P][q], s.pending[q]);
    }
  }

  lemma ScheduleSound<V>(j: Job<V>, e: Execution<V>, P0: Vec<int>, l: Label)
    requires Sound(j, e) && l.Act? && CanMove(j.T, j.tasks, e, Schedule(P0, l))
    ensures Sound(j, DoMove(j.T, j.R, j.tasks, e, Schedule(P0, l)))
  {
    MoveGood(j.T, j.n, j.R, j.tasks, e, Schedule(P0, l));
    assert NodeSound(j, P0, e.nodes[P0], e.x);
    ScheduleUsual(e.nodes[P0], l.w, l.choice, j.width);
    ScheduleWaiting(j.T, j.n, P0, j.tasks[P0], e.nodes[P0], e.x, l.w, l.choice);
  }

  // ---------------------------------------------------------------------------------------------------------
  // How much is left to do
  // ---------------------------------------------------------------------------------------------------------

  /** How often a receive task may still suspend and come back at a face: it suspends only before its message is sent. */
  ghost function Credit<V>(T: Topology, x: Exchange.State<V>, t: Task, pending: seq<nat>, face: nat): nat
    requires face < |FACES|
  {
    var p := Port(t.s, FACES[face]);
    if t.work != Exchange.Receive || !IsPort(T, p) || Exchange.Received(x, p) > t.it then 0
    else if pending == [face] then 1
    else if Exchange.Sent(x, Peer(T, p)) > t.it then 0
    else 2
  }

  ghost function Credits<V>(T: Topology, x: Exchange.State<V>, t: Task, pending: seq<nat>, n: nat): nat
    requires n <= |FACES|
    decreases n
  {
    if n == 0 then 0 else Credits(T, x, t, pending, n - 1) + Credit(T, x, t, pending, n - 1)
  }

  lemma {:induction false} FewerCredits<V>(T: Topology, x: Exchange.State<V>, x': Exchange.State<V>, t: Task, pending: seq<nat>, pending': seq<nat>,
                                           n: nat, face: nat)
    requires n <= |FACES| && forall f :: 0 <= f < n ==> Credit(T, x', t, pending', f) <= Credit(T, x, t, pending, f)
    ensures Credits(T, x', t, pending', n) <= Credits(T, x, t, pending, n)
    ensures face < n && Credit(T, x', t, pending', face) < Credit(T, x, t, pending, face) ==>
      Credits(T, x', t, pending', n) < Credits(T, x, t, pending, n)
    decreases n
  {
    if n > 0 { FewerCredits(T, x, x', t, pending, pending', n - 1, face); }
  }

  /** What task q still has before it, the steps of the exchange apart. */
  ghost function TaskLeft<V>(T: Topology, x: Exchange.State<V>, ts: seq<Task>, s: State, q: nat): nat
    requires q < |ts| == |s.place| == |s.pending|
  {
    TaskWork(s, q) + Credits(T, x, ts[q], s.pending[q], |FACES|)
  }

  ghost function TasksLeft<V>(T: Topology, x: Exchange.State<V>, ts: seq<Task>, s: State, n: nat): nat
    requires n <= |ts| == |s.place| == |s.pending|
    decreases n
  {
    if n == 0 then 0 else TasksLeft(T, x, ts, s, n - 1) + TaskLeft(T, x, ts, s, n - 1)
  }

  lemma {:induction false} FewerTasksLeft<V>(T: Topology, x: Exchange.State<V>, x': Exchange.State<V>, ts: seq<Task>, s: State, s': State, n: nat, q: nat)
    requires n <= |ts| == |s.place| == |s.pending| == |s'.place| == |s'.pending|
    requires forall r :: 0 <= r < n ==> TaskLeft(T, x', ts, s', r) <= TaskLeft(T, x, ts, s, r)
    ensures TasksLeft(T, x', ts, s', n) <= TasksLeft(T, x, ts, s, n)
    ensures q < n && TaskLeft(T, x', ts, s', q) < TaskLeft(T, x, ts, s, q) ==> TasksLeft(T, x', ts, s', n) < TasksLeft(T, x, ts, s, n)
    decreases n
  {
    if n > 0 { FewerTasksLeft(T, x, x', ts, s, s', n - 1, q); }
  }

  ghost function NodeLeft<V>(T: Topology, x: Exchange.State<V>, ts: seq<Task>, s: State): nat {
    if |ts| == |s.place| == |s.pending| then TasksLeft(T, x, ts, s, |ts|) + |SchedulerProgress.UnreleasedEdges(s)| else 0
  }

  ghost function NodeLeftAt<V>(j: Job<V>, e: Execution<V>, k: nat): nat
    requires k < |j.procs|
  {
    var P := j.procs[k];
    if P in e.nodes && P in j.tasks then NodeLeft(j.T, e.x, j.tasks[P], e.nodes[P]) else 0
  }

  /** What the first n processes have before them. */
  ghost function NodesLeft<V>(j: Job<V>, e: Execution<V>, n: nat): nat
    requires n <= |j.procs|
    decreases n
  {
    if n == 0 then 0 else NodesLeft(j, e, n - 1) + NodeLeftAt(j, e, n - 1)
  }

  lemma {:induction false} FewerNodesLeft<V>(j: Job<V>, e: Execution<V>, e': Execution<V>, n: nat, k: nat)
    requires n <= |j.procs| && forall l :: 0 <= l < n ==> NodeLeftAt(j, e', l) <= NodeLeftAt(j, e, l)
    ensures NodesLeft(j, e', n) <= NodesLeft(j, e, n)
    ensures k < n && NodeLeftAt(j, e', k) < NodeLeftAt(j, e, k) ==> NodesLeft(j, e', n) < NodesLeft(j, e, n)
    decreases n
  {
    if n > 0 { FewerNodesLeft(j, e, e', n - 1, k); }
  }

  /** The steps of the exchange that have not been taken, and what the schedulers have before them. */
  ghost function Work<V>(j: Job<V>, e: Execution<V>): nat {
    |JacobiTheorems.Events(j.T, j.n)| - JacobiTheorems.Taken(j.T, j.n, e.x) + NodesLeft(j, e, |j.procs|)
  }

  // ---------------------------------------------------------------------------------------------------------
  // Steps of bodies are work
  // ---------------------------------------------------------------------------------------------------------

  lemma BodyNodeLeft<V>(j: Job<V>, e: Execution<V>, e': Execution<V>, m: Exchange.Move, k: nat)
    requires e'.nodes == e.nodes && k < |j.procs| && Exchange.CanMove(j.T, j.n, e.x, m) && e'.x == Exchange.DoMove(j.T, j.n, j.R, e.x, m)
    ensures NodeLeftAt(j, e', k) <= NodeLeftAt(j, e, k)
  {
    var P := j.procs[k];
    if P in e.nodes && P in j.tasks {
      var s, ts := e.nodes[P], j.tasks[P];
      if |ts| == |s.place| == |s.pending| {
        forall q | 0 <= q < |ts| ensures TaskLeft(j.T, e'.x, ts, s, q) <= TaskLeft(j.T, e.x, ts, s, q) {
          BodyCredits(j.T, j.n, j.R, e.x, m, ts[q], s.pending[q]);
        }
        FewerTasksLeft(j.T, e.x, e'.x, ts, s, s, |ts|, 0);
      }
    }
  }

  lemma BodyCredits<V>(T: Topology, n: nat, R: Rules<V>, x: Exchange.State<V>, m: Exchange.Move, t: Task, pending: seq<nat>)
    requires Exchange.CanMove(T, n, x, m)
    ensures Credits(T, Exchange.DoMove(T, n, R, x, m), t, pending, |FACES|) <= Credits(T, x, t, pending, |FACES|)
  {
    var x' := Exchange.DoMove(T, n, R, x, m);
    forall f | 0 <= f < |FACES| ensures Credit(T, x', t, pending, f) <= Credit(T, x, t, pending, f) {
      PortCountsGrow(T, n, R, x, m, Exchange.Receive, Port(t.s, FACES[f]));
      PortCountsGrow(T, n, R, x, m, Exchange.Send, Peer(T, Port(t.s, FACES[f])));
    }
    FewerCredits(T, x, x', t, pending, pending, |FACES|, 0);
  }

  lemma BodyWorks<V>(j: Job<V>, e: Execution<V>, P: Vec<int>, w: nat, m: Exchange.Move)
    requires Sound(j, e) && CanMove(j.T, j.tasks, e, Body(P, w, m))
    ensures Work(j, DoMove(j.T, j.R, j.tasks, e, Body(P, w, m))) < Work(j, e)
  {
    var e' := DoMove(j.T, j.R, j.tasks, e, Body(P, w, m));
    BodyMoves(j.T, j.n, j.R, j.tasks, e, P, w, m);
    JacobiTheorems.MoveAddsEvent(j.T, j.n, j.R, e.x, m);
    forall k | 0 <= k < |j.procs| ensures NodeLeftAt(j, e', k) <= NodeLeftAt(j, e, k) { BodyNodeLeft(j, e, e', m, k); }
    FewerNodesLeft(j, e, e', |j.procs|, 0);
  }

  // ---------------------------------------------------------------------------------------------------------
  // Steps of a scheduler that advance a task are work
  // ---------------------------------------------------------------------------------------------------------

  lemma PollCredits<V>(T: Topology, n: nat, x: Exchange.State<V>, t: Task, pending: seq<nat>)
    requires Exchange.CountsOk(T, n, x) && PendOk(T, x, t, pending) && pending != [] && IsOpen(T, x, t, pending[0])
    ensures Credits(T, x, t, pending[1..], |FACES|) < Credits(T, x, t, pending, |FACES|)
  {
    var face := pending[0];
    assert pending == [face] && pending[1..] == [];
    OpensWhenSent(T, n, x, t, face);
    FewerCredits(T, x, x, t, pending, [], |FACES|, face);
  }

  lemma SuspendCredits<V>(T: Topology, n: nat, x: Exchange.State<V>, t: Task, face: nat)
    requires T.Valid() && Exchange.CountsOk(T, n, x) && Exchange.Ready(T, x, t) && IsSubgrid(T, t.s) && HasToWait(T, x, t, face)
    ensures Credits(T, x, t, [] + [face], |FACES|) < Credits(T, x, t, [], |FACES|)
  {
    WaitsForMessage(T, n, x, t, face);
    assert [] + [face] == [face];
    FewerCredits(T, x, x, t, [], [face], |FACES|, face);
  }

  /** A successful poll and a suspension each use up a credit. */
  lemma PendingCredits<V>(T: Topology, n: nat, P: Vec<int>, ts: seq<Task>, s: State, x: Exchange.State<V>, w: nat, c: Choice, q: nat)
    requires T.Valid() && Exchange.CountsOk(T, n, x) && NodeOk(T, n, P, ts, s, x) && Waiting(T, ts, s, x)
    requires Enabled(s, Act(w, c)) && TaskDecides(T, ts, s, x, w, c) && q < |ts|
    ensures q < |WorkerStep(s, w, c).pending|
    ensures Credits(T, x, ts[q], WorkerStep(s, w, c).pending[q], |FACES|) <= Credits(T, x, ts[q], s.pending[q], |FACES|)
    ensures (s.pc[w] == Polling(q) && s.pending[q] != [] && c.ok) || (s.pc[w] == Running(q) && c.suspends) ==>
      Credits(T, x, ts[q], WorkerStep(s, w, c).pending[q], |FACES|) < Credits(T, x, ts[q], s.pending[q], |FACES|)
  {
    PendingStep(s, w, c, q);
    assert PendOk(T, x, ts[q], s.pending[q]) && PolledOk(s, w);
    if s.pc[w] == Polling(q) && s.pending[q] != [] && c.ok {
      PollCredits(T, n, x, ts[q], s.pending[q]);
    } else if s.pc[w] == Running(q) && c.suspends {
      NodeRunsReady(T, n, P, ts, s, x, w);
      SuspendCredits(T, n, x, ts[q], c.ops[0]);
      assert c.ops == [c.ops[0]];
    }
  }

  lemma TaskAdvances<V>(T: Topology, n: nat, P: Vec<int>, ts: seq<Task>, s: State, x: Exchange.State<V>, w: nat, c: Choice)
    requires T.Valid() && Exchange.CountsOk(T, n, x) && NodeOk(T, n, P, ts, s, x) && Waiting(T, ts, s, x)
    requires Enabled(s, Act(w, c)) && TaskDecides(T, ts, s, x, w, c) && Turns.Advances(s, w, c) && !Decrements(s, w)
    ensures var s', q := WorkerStep(s, w, c), Advanced(s, w);
      q < |ts| == |s.place| == |s'.place| == |s'.pending| && TaskLeft(T, x, ts, s', q) < TaskLeft(T, x, ts, s, q)
  {
    var q := Advanced(s, w);
    StepInv(s, Act(w, c));
    assert WorkerOk(s, w);
    TaskWorkFalls(s, w, c, q);
    PendingCredits(T, n, P, ts, s, x, w, c, q);
    if Ends(s.pc[w]) { EndAdvances(s, w, c); }
  }

  lemma NodeStepLeft<V>(T: Topology, n: nat, P: Vec<int>, ts: seq<Task>, s: State, x: Exchange.State<V>, w: nat, c: Choice)
    requires T.Valid() && Exchange.CountsOk(T, n, x) && NodeOk(T, n, P, ts, s, x) && Waiting(T, ts, s, x)
    requires Enabled(s, Act(w, c)) && TaskDecides(T, ts, s, x, w, c)
    ensures NodeLeft(T, x, ts, WorkerStep(s, w, c)) <= NodeLeft(T, x, ts, s)
    ensures Turns.Advances(s, w, c) ==> NodeLeft(T, x, ts, WorkerStep(s, w, c)) < NodeLeft(T, x, ts, s)
  {
    var s' := WorkerStep(s, w, c);
    StepInv(s, Act(w, c));
    forall q | 0 <= q < |ts| ensures |s'.place| == |s'.pending| == |ts| && TaskLeft(T, x, ts, s', q) <= TaskLeft(T, x, ts, s, q) {
      TaskWorkFalls(s, w, c, q);
      PendingCredits(T, n, P, ts, s, x, w, c, q);
    }
    FewerTasksLeft(T, x, x, ts, s, s', |ts|, 0);
    SchedulerProgress.StepEdges(s, w, c);
    SchedulerProgress.StrictSubsetSize(SchedulerProgress.UnreleasedEdges(s'), SchedulerProgress.UnreleasedEdges(s));
    if Turns.Advances(s, w, c) && !Decrements(s, w) {
      TaskAdvances(T, n, P, ts, s, x, w, c);
      FewerTasksLeft(T, x, x, ts, s, s', |ts|, Advanced(s, w));
    }
  }

  /** Where one scheduler has no more before it, all have no more. */
  lemma OneNodeLeft<V>(j: Job<V>, e: Execution<V>, e': Execution<V>, P: Vec<int>)
    requires P in e.nodes && P in j.tasks && P in j.procs && e'.x == e.x && e'.nodes.Keys == e.nodes.Keys
    requires forall Q :: Q in e.nodes && Q != P ==> e'.nodes[Q] == e.nodes[Q]
    requires NodeLeft(j.T, e.x, j.tasks[P], e'.nodes[P]) <= NodeLeft(j.T, e.x, j.tasks[P], e.nodes[P])
    ensures Work(j, e') <= Work(j, e)
    ensures NodeLeft(j.T, e.x, j.tasks[P], e'.nodes[P]) < NodeLeft(j.T, e.x, j.tasks[P], e.nodes[P]) ==> Work(j, e') < Work(j, e)
  {
    var k :| 0 <= k < |j.procs| && j.procs[k] == P;
    FewerNodesLeft(j, e, e', |j.procs|, k);
  }

  lemma ScheduleWorks<V>(j: Job<V>, e: Execution<V>, P: Vec<int>, l: Label)
    requires Sound(j, e) && l.Act? && CanMove(j.T, j.tasks, e, Schedule(P, l))
    ensures Work(j, DoMove(j.T, j.R, j.tasks, e, Schedule(P, l))) <= Work(j, e)
    ensures Turns.Advances(e.nodes[P], l.w, l.choice) ==> Work(j, DoMove(j.T, j.R, j.tasks, e, Schedule(P, l))) < Work(j, e)
  {
    assert NodeSound(j, P, e.nodes[P], e.x);
    NodeWorks(j, e, P, l.w, l.choice);
  }

  lemma NodeWorks<V>(j: Job<V>, e: Execution<V>, P: Vec<int>, w: nat, c: Choice)
    requires P in e.nodes && P in j.tasks && P in j.procs && NodeSound(j, P, e.nodes[P], e.x) && j.T.Valid() && Exchange.CountsOk(j.T, j.n, e.x)
    requires Enabled(e.nodes[P], Act(w, c)) && TaskDecides(j.T, j.tasks[P], e.nodes[P], e.x, w, c)
    ensures var e' := e.(nodes := e.nodes[P := WorkerStep(e.nodes[P], w, c)]);
      Work(j, e') <= Work(j, e) && (Turns.Advances(e.nodes[P], w, c) ==> Work(j, e') < Work(j, e))
  {
    NodeStepLeft(j.T, j.n, P, j.tasks[P], e.nodes[P], e.x, w, c);
    OneNodeLeft(j, e, e.(nodes := e.nodes[P := WorkerStep(e.nodes[P], w, c)]), P);
  }

  lemma MoveSound<V>(j: Job<V>, e: Execution<V>, e': Execution<V>, u: int, m: Move, k: nat, w: nat)
    requires Sound(j, e) && MovesTo(j, e, e', u, m, k, w)
    ensures Sound(j, e') && Work(j, e') <= Work(j, e)
    ensures Work(j, e') == Work(j, e) ==> m.Schedule? && !Turns.Advances(e.nodes[m.P], m.l.w, m.l.choice)
  {
    match m
    case Schedule(P, l) =>
      ScheduleSound(j, e, P, l);
      ScheduleWorks(j, e, P, l);
    case Body(P, v, b) =>
      BodySound(j, e, P, v, b);
      BodyWorks(j, e, P, v, b);
  }

  ghost function Sweeping<V(!new)>(j: Job<V>): Machine<Execution<V>> {
    Machine((e, e', u) => GoesOn(j, e, e', u), (e, u) => Able(j, e, u), |j.procs| * j.width, e => Sound(j, e), e => Work(j, e))
  }

  lemma IsLawful<V(!new)>(j: Job<V>)
    ensures Lawful(Sweeping(j))
  {
    var f := Sweeping(j);
    forall e, e', u ensures LawfulStep(f, e, e', u) {
      if f.good(e) && f.follows(e, e', u) && !(u < 0 && e' == e) {
        var m, k, w :| MovesTo(j, e, e', u, m, k, w);
        MoveSound(j, e, e', u, m, k, w);
      }
    }
  }
}
