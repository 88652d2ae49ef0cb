/**
The halo exchange comes to its end: every fair execution of the schedulers of all processes finishes all tasks, although
receive tasks wait for messages of other processes.
*/
module JacobiFairness {
  import opened Arithmetic
  import opened Scheduler
  import opened SchedulerInvariant
  import opened SchedulerTheorems
  import opened SchedulerAccounting
  import opened SchedulerPolling
  import SchedulerProgress
  import SchedulerFairness
  import Turns
  import opened Fairness
  import opened JacobiGrid
  import opened JacobiSweeps
  import opened JacobiGraph
  import opened JacobiTopology
  import Exchange = JacobiProtocol
  import JacobiInvariant
  import JacobiTheorems
  import opened JacobiExecution
  import opened JacobiWork

  // ---------------------------------------------------------------------------------------------------------
  // Reasons for progress in one process
  // ---------------------------------------------------------------------------------------------------------

  /** In a step that does no work nobody moves, or a scheduler takes a step that advances no task. */
  ghost predicate QuietAt<V>(j: Job<V>, P: Vec<int>, s: State, s': State, x: Exchange.State<V>, w: nat, c: Choice) {
    P in j.tasks && Turns.Quiet(s, s', w, c) && TaskDecides(j.T, j.tasks[P], s, x, w, c)
  }

  ghost predicate QuietStep<V>(j: Job<V>, e: Execution<V>, e': Execution<V>, u: int, k: nat, w: nat, c: Choice) {
    || (u < 0 && e' == e)
    || (&& IsNumber(j, u, k, w) && j.procs[k] in e.nodes && j.procs[k] in e'.nodes && e' == e.(nodes := e'.nodes)
        && e'.nodes == e.nodes[j.procs[k] := e'.nodes[j.procs[k]]]
        && QuietAt(j, j.procs[k], e.nodes[j.procs[k]], e'.nodes[j.procs[k]], e.x, w, c))
  }

  lemma QuietMove<V(!new)>(j: Job<V>, e: Execution<V>, e': Execution<V>, u: int) returns (k: nat, w: nat, c: Choice)
    requires Sound(j, e) && GoesOn(j, e, e', u) && Work(j, e') == Work(j, e)
    ensures QuietStep(j, e, e', u, k, w, c) && Sound(j, e')
  {
    k, w, c := 0, 0, Choice(true, true, true, false, []);
    if !(u < 0 && e' == e) {
      var m;
      m, k, w :| MovesTo(j, e, e', u, m, k, w);
      MoveSound(j, e, e', u, m, k, w);
      c := m.l.choice;
      assert NodeSound(j, m.P, e.nodes[m.P], e.x);
    }
  }

  /** A plan of one process. */
  datatype NodePlan<!V> = NodePlan(near: (State, Exchange.State<V>) -> bool, far: State -> nat, moves: (State, int) -> bool)

  ghost predicate NodeLeadsStep<V>(j: Job<V>, P: Vec<int>, p: NodePlan<V>, s: State, s': State, x: Exchange.State<V>, w: nat, c: Choice) {
    P in j.tasks && NodeSound(j, P, s, x) && p.near(s, x) && QuietAt(j, P, s, s', x, w, c) && NodeSound(j, P, s', x) ==>
      && p.near(s', x) && p.far(s') <= p.far(s)
      && if p.moves(s, w) then p.far(s') < p.far(s) else forall v: nat :: IsCalled(p, s, v) ==> IsCalled(p, s', v)
  }

  predicate IsCalled<V>(p: NodePlan<V>, s: State, v: nat) { p.moves(s, v) && SchedulerFairness.CanGoOn(s, v) }

  ghost predicate NodeCalls<V>(j: Job<V>, P: Vec<int>, p: NodePlan<V>, s: State, x: Exchange.State<V>) {
    P in j.tasks && NodeSound(j, P, s, x) && p.near(s, x) ==> exists v: nat :: IsCalled(p, s, v)
  }

  ghost predicate NodeLeads<V(!new)>(j: Job<V>, P: Vec<int>, p: NodePlan<V>) {
    && (forall s, s', x, w, c :: NodeLeadsStep(j, P, p, s, s', x, w, c))
    && (forall s, x :: NodeCalls(j, P, p, s, x))
  }

  function FarIn<V>(p: NodePlan<V>, e: Execution<V>, P: Vec<int>): nat { if P in e.nodes then p.far(e.nodes[P]) else 0 }

  /** It is one of the whole execution. */
  ghost function Lifted<V>(j: Job<V>, k: nat, p: NodePlan<V>): Plan<Execution<V>>
    requires k < |j.procs|
  {
    var P := j.procs[k];
    Plan((e: Execution<V>) => P in e.nodes && p.near(e.nodes[P], e.x),
         (e: Execution<V>) => FarIn(p, e, P),
         (e: Execution<V>, u) => P in e.nodes && 0 <= u - k * j.width < j.width && p.moves(e.nodes[P], u - k * j.width))
  }

  lemma AbleNumber<V>(j: Job<V>, e: Execution<V>, u: nat, k: nat, w: nat)
    requires IsNumber(j, u, k, w)
    ensures Able(j, e, u) <==> AbleAt(j, e, k, w)
  {
    forall k', w' | IsNumber(j, u, k', w') ensures k' == k && w' == w { SameNumber(j, u, k, w, k', w'); }
  }

  lemma NumberInRange<V>(j: Job<V>, k: nat, w: nat)
    requires k < |j.procs| && w < j.width
    ensures Number(j, k, w) < |j.procs| * j.width && IsNumber(j, Number(j, k, w), k, w)
  {
    TimesGrowsBy(k, |j.procs|, j.width);
  }

  /** A worker called in the process is called in the execution, and conversely. */
  lemma CalledAt<V(!new)>(j: Job<V>, k: nat, p: NodePlan<V>, e: Execution<V>, w: nat)
    requires k < |j.procs| && w < j.width && j.procs[k] in e.nodes
    ensures Called(Sweeping(j), Lifted(j, k, p), e, Number(j, k, w)) <==> IsCalled(p, e.nodes[j.procs[k]], w)
  {
    NumberInRange(j, k, w);
    AbleNumber(j, e, Number(j, k, w), k, w);
  }

  /** What a quiet step of the process itself does to its plan. */
  lemma LiftedOwn<V(!new)>(j: Job<V>, k: nat, p: NodePlan<V>, e: Execution<V>, e': Execution<V>, u: int, w: nat, c: Choice)
    requires k < |j.procs| && NodeLeads(j, j.procs[k], p) && IsNumber(j, u, k, w) && Lifted(j, k, p).near(e)
    requires QuietStep(j, e, e', u, k, w, c) && j.procs[k] in j.tasks
    requires NodeSound(j, j.procs[k], e.nodes[j.procs[k]], e.x) && NodeSound(j, j.procs[k], e'.nodes[j.procs[k]], e'.x)
    ensures var q := Lifted(j, k, p);
      && q.near(e') && q.far(e') <= q.far(e)
      && if q.moves(e, u) then q.far(e') < q.far(e)
         else forall v: nat :: IsCalled(p, e.nodes[j.procs[k]], v) ==> IsCalled(p, e'.nodes[j.procs[k]], v)
  {
    assert NodeLeadsStep(j, j.procs[k], p, e.nodes[j.procs[k]], e'.nodes[j.procs[k]], e.x, w, c);
  }

  lemma LiftedCalled<V(!new)>(j: Job<V>, k: nat, p: NodePlan<V>, e: Execution<V>, e': Execution<V>, u: nat)
    requires k < |j.procs| && j.procs[k] in e.nodes && j.procs[k] in e'.nodes
    requires forall v: nat :: IsCalled(p, e.nodes[j.procs[k]], v) ==> IsCalled(p, e'.nodes[j.procs[k]], v)
    requires Called(Sweeping(j), Lifted(j, k, p), e, u)
    ensures Called(Sweeping(j), Lifted(j, k, p), e', u)
  {
    var w := u - k * j.width;
    CalledAt(j, k, p, e, w);
    CalledAt(j, k, p, e', w);
  }

  lemma LiftedStep<V(!new)>(j: Job<V>, k: nat, p: NodePlan<V>, e: Execution<V>, e': Execution<V>, u: int, l: nat, w: nat, c: Choice)
    requires k < |j.procs| && NodeLeads(j, j.procs[k], p) && Lifted(j, k, p).near(e) && QuietStep(j, e, e', u, l, w, c)
    requires j.procs[k] in j.tasks && (forall a, b :: 0 <= a < b < |j.procs| ==> j.procs[a] != j.procs[b])
    requires NodeSound(j, j.procs[k], e.nodes[j.procs[k]], e.x)
    requires j.procs[k] in e'.nodes && NodeSound(j, j.procs[k], e'.nodes[j.procs[k]], e'.x)
    ensures var q := Lifted(j, k, p);
      && q.near(e') && q.far(e') <= q.far(e)
      && if q.moves(e, u) then q.far(e') < q.far(e)
         else forall v: nat :: IsCalled(p, e.nodes[j.procs[k]], v) ==> IsCalled(p, e'.nodes[j.procs[k]], v)
  {
    if u >= 0 {
      if l == k { LiftedOwn(j, k, p, e, e', u, w, c); } else { OthersNumber(j, u, l, w, k); }
    }
  }

  lemma OthersNumber<V>(j: Job<V>, u: int, l: nat, w: nat, k: nat)
    requires IsNumber(j, u, l, w) && k < |j.procs| && l != k
    ensures !(0 <= u - k * j.width < j.width)
  {
    if 0 <= u - k * j.width < j.width { SameNumber(j, u, l, w, k, u - k * j.width); }
  }

  lemma LiftedLeads<V(!new)>(j: Job<V>, k: nat, p: NodePlan<V>)
    requires k < |j.procs| && NodeLeads(j, j.procs[k], p)
    ensures Leads(Sweeping(j), Lifted(j, k, p))
  {
    var f, q := Sweeping(j), Lifted(j, k, p);
    forall e, e', u ensures LeadsStep(f, q, e, e', u) {
      if f.good(e) && q.near(e) && f.follows(e, e', u) && f.work(e') == f.work(e) { LiftedLeadsStep(j, k, p, e, e', u); }
    }
    forall e ensures Calls(f, q, e) {
      if f.good(e) && q.near(e) { LiftedCalls(j, k, p, e); }
    }
  }

  lemma LiftedLeadsStep<V(!new)>(j: Job<V>, k: nat, p: NodePlan<V>, e: Execution<V>, e': Execution<V>, u: int)
    requires k < |j.procs| && NodeLeads(j, j.procs[k], p) && Lifted(j, k, p).near(e)
    requires Sound(j, e) && GoesOn(j, e, e', u) && Work(j, e') == Work(j, e)
    ensures LeadsStep(Sweeping(j), Lifted(j, k, p), e, e', u)
  {
    var l, w, c := QuietMove(j, e, e', u);
    assert NodeSound(j, j.procs[k], e.nodes[j.procs[k]], e.x) && NodeSound(j, j.procs[k], e'.nodes[j.procs[k]], e'.x);
    LiftedStep(j, k, p, e, e', u, l, w, c);
    if !Lifted(j, k, p).moves(e, u) {
      forall v: nat | Called(Sweeping(j), Lifted(j, k, p), e, v) ensures Called(Sweeping(j), Lifted(j, k, p), e', v) {
        LiftedCalled(j, k, p, e, e', v);
      }
    }
  }

  lemma LiftedCalls<V(!new)>(j: Job<V>, k: nat, p: NodePlan<V>, e: Execution<V>)
    requires k < |j.procs| && NodeLeads(j, j.procs[k], p) && Lifted(j, k, p).near(e) && Sound(j, e)
    ensures exists u: nat :: Called(Sweeping(j), Lifted(j, k, p), e, u)
  {
    var P := j.procs[k];
    assert NodeSound(j, P, e.nodes[P], e.x);
    assert NodeCalls(j, P, p, e.nodes[P], e.x);
    var v: nat :| IsCalled(p, e.nodes[P], v);
    CalledAt(j, k, p, e, v);
    assert Called(Sweeping(j), Lifted(j, k, p), e, Number(j, k, v));
  }

  // ---------------------------------------------------------------------------------------------------------
  // A worker that has run a body to its end, and a task that can go on once it is popped
  // ---------------------------------------------------------------------------------------------------------

  predicate IsEnding(s: State, v: nat) { v < |s.pc| && Ends(s.pc[v]) }

  ghost function EndingNode<V>(v: nat): NodePlan<V> {
    NodePlan((s: State, x: Exchange.State<V>) => IsEnding(s, v), _ => 0, (_, u) => u == v)
  }

  lemma EndingLeads<V(!new)>(j: Job<V>, P: Vec<int>, v: nat)
    ensures NodeLeads(j, P, EndingNode<V>(v))
  {
    var p := EndingNode<V>(v);
    forall s, s', x, w, c ensures NodeLeadsStep(j, P, p, s, s', x, w, c) {
      if P in j.tasks && NodeSound(j, P, s, x) && p.near(s, x) && QuietAt(j, P, s, s', x, w, c) { Turns.QuietFrame(s, s', w, c); }
    }
    forall s, x ensures NodeCalls(j, P, p, s, x) {
      if P in j.tasks && NodeSound(j, P, s, x) && p.near(s, x) { assert IsCalled(p, s, v); }
    }
  }

  /** The polls of task q will succeed. */
  predicate PollsWell<V>(T: Topology, x: Exchange.State<V>, ts: seq<Task>, s: State, q: nat) {
    && q < |ts| && q < |s.pending|
    && (s.pending[q] == [] || (s.pending[q][0] < |FACES| && IsOpen(T, x, ts[q], s.pending[q][0])))
  }

  predicate IsTarget<V>(T: Topology, x: Exchange.State<V>, ts: seq<Task>, s: State, q: nat) {
    Turns.OnItsWay(s, q) && PollsWell(T, x, ts, s, q)
  }

  ghost function TargetNode<V>(T: Topology, ts: seq<Task>, q: nat): NodePlan<V> {
    NodePlan((s: State, x: Exchange.State<V>) => IsTarget(T, x, ts, s, q), (s: State) => Turns.Far(s, q), (s: State, u: int) => Turns.Carries(s, q, u))
  }

  lemma TargetStep<V>(T: Topology, x: Exchange.State<V>, ts: seq<Task>, s: State, s': State, q: nat, w: nat, c: Choice, width: nat)
    requires Usual(s, width) && IsTarget(T, x, ts, s, q) && Turns.Quiet(s, s', w, c) && TaskDecides(T, ts, s, x, w, c)
    ensures IsTarget(T, x, ts, s', q) && Turns.Far(s', q) <= Turns.Far(s, q)
    ensures if Turns.Carries(s, q, w) then Turns.Far(s', q) < Turns.Far(s, q)
            else forall v: nat :: Turns.Carries(s, q, v) && SchedulerFairness.CanGoOn(s, v) ==>
                   Turns.Carries(s', q, v) && SchedulerFairness.CanGoOn(s', v)
  {
    Turns.QuietFrame(s, s', w, c);
    Turns.TurnStep(s, s', q, w, c);
    Turns.CommonIsOpen(s);
    if !Turns.Carries(s, q, w) {
      forall v: nat | Turns.Carries(s, q, v) && SchedulerFairness.CanGoOn(s, v)
        ensures Turns.Carries(s', q, v) && SchedulerFairness.CanGoOn(s', v)
      {
        Turns.CarriersStay(s, s', q, w, c, v);
      }
    }
  }

  lemma TargetLeads<V(!new)>(j: Job<V>, P: Vec<int>, q: nat)
    requires P in j.tasks
    ensures NodeLeads(j, P, TargetNode<V>(j.T, j.tasks[P], q))
  {
    var p := TargetNode<V>(j.T, j.tasks[P], q);
    forall s, s', x, w, c ensures NodeLeadsStep(j, P, p, s, s', x, w, c) {
      if NodeSound(j, P, s, x) && p.near(s, x) && QuietAt(j, P, s, s', x, w, c) {
        TargetStep(j.T, x, j.tasks[P], s, s', q, w, c, j.width);
      }
    }
    forall s, x ensures NodeCalls(j, P, p, s, x) {
      if NodeSound(j, P, s, x) && p.near(s, x) {
        Turns.CommonIsOpen(s);
        var v := Turns.CarrierCanGoOn(s, q);
        assert IsCalled(p, s, v);
      }
    }
  }

  // ---------------------------------------------------------------------------------------------------------
  // There is always a task that can go on
  // ---------------------------------------------------------------------------------------------------------

  ghost predicate NobodyEnds<V>(e: Execution<V>) { forall P, v: nat :: P in e.nodes ==> !IsEnding(e.nodes[P], v) }

  function RankOf(t: Task): nat { 5 * t.it + WorkIndex(t.work) }

  lemma EndsSomewhere(s: State, q: nat)
    requires Basic(s) && q < |s.place|
    ensures s.place[q].Woken? ==> IsEnding(s, s.place[q].w)
    ensures BodyDone(s, q) ==> s.place[q].Finished? || IsEnding(s, s.place[q].w)
  {
    assert TaskOk(s, q);
  }

  /** A task in an early stage waits for a task whose body is not done. */
  lemma WaitsForEarlier<V>(j: Job<V>, P: Vec<int>, s: State, x: Exchange.State<V>, q: nat) returns (p: nat)
    requires P in j.tasks && NodeSound(j, P, s, x) && q < |j.tasks[P]| && Stage(s, q) < 2 && forall v: nat :: !IsEnding(s, v)
    ensures p < |j.tasks[P]| && !BodyDone(s, p) && RankOf(j.tasks[P][p]) < RankOf(j.tasks[P][q])
  {
    var ts := j.tasks[P];
    EndsSomewhere(s, q);
    p := Predecessor(s, q);
    EndsSomewhere(s, p);
    assert Exchange.DependsOn(j.T, ts[q], ts[p]);
  }

  lemma Predecessor(s: State, q: nat) returns (p: nat)
    requires Inv(s) && q < |s.place| && s.place[q].Blocked?
    ensures p < |s.place| && p < |s.g.out| && q in s.g.out[p] && !s.place[p].Finished?
  {
    assert CounterOk(s, q);
    assert Unreleased(s, q) != {} by { assert |Unreleased(s, q)| > 0; }
    var e :| e in Unreleased(s, q);
    p := e.from;
    assert e.slot >= Released(s, p);
  }

  /** A task that is ready, and not at its end, is on its way. */
  lemma ReadyIsOnItsWay<V>(j: Job<V>, P: Vec<int>, s: State, x: Exchange.State<V>, q: nat)
    requires P in j.tasks && NodeSound(j, P, s, x) && q < |j.tasks[P]| && Stage(s, q) == 2
    ensures Turns.OnItsWay(s, q)
  {
    Turns.CommonIsOpen(s);
    assert TaskOk(s, q);
    if s.place[q].OnWorker? { assert !Draining(s.pc[s.place[q].w]); }
    assert q in ActiveTasks(s);
  }

  lemma WaitsUnsent<V>(T: Topology, n: nat, P: Vec<int>, ts: seq<Task>, s: State, x: Exchange.State<V>, q: nat) returns (p: Port)
    requires T.Valid() && Exchange.CountsOk(T, n, x) && NodeOk(T, n, P, ts, s, x) && Waiting(T, ts, s, x)
    requires q < |ts| && !PollsWell(T, x, ts, s, q)
    ensures ts[q].work == Exchange.Receive && ts[q].it + 1 < n && IsPort(T, p) && Exchange.Sent(x, Peer(T, p)) <= ts[q].it
  {
    assert PendOk(T, x, ts[q], s.pending[q]);
    TaskOfProcess(T, n, P, ts, s, x, q);
    var face := s.pending[q][0];
    assert s.pending[q] == [face];
    OpensWhenSent(T, n, x, ts[q], face);
    p := Port(ts[q].s, FACES[face]);
  }

  /** The send task of a message that has not been sent. */
  lemma SendTask<V>(T: Topology, n: nat, x: Exchange.State<V>, p: Port, it: nat)
    requires T.Valid() && IsPort(T, p) && it + 1 < n && Exchange.Sent(x, Peer(T, p)) <= it
    ensures var t := Exchange.Task(Exchange.Send, Peer(T, p).s, it);
      && IsTask(T, n, ProcessOf(t.s), t) && !Exchange.Finished(T, x, t) && Within(ProcessCounts(T), ProcessOf(t.s))
  {
    PeerBack(T, p);
    var r := Peer(T, p);
    SubgridProcess(T, r.s);
    assert r == Port(r.s, r.f);
  }

  lemma UndoneTask<V>(T: Topology, n: nat, P: Vec<int>, ts: seq<Task>, s: State, x: Exchange.State<V>, t: Task) returns (q: nat)
    requires NodeOk(T, n, P, ts, s, x) && IsTask(T, n, P, t) && !Exchange.Finished(T, x, t)
    ensures q < |ts| && ts[q] == t && !BodyDone(s, q)
  {
    q :| 0 <= q < |ts| && ts[q] == t;
  }

  /** The message for which a task waits is sent by a task of an earlier rank. */
  lemma EarlierSender<V>(T: Topology, n: nat, P: Vec<int>, ts: seq<Task>, s: State, x: Exchange.State<V>, q: nat) returns (t: Task)
    requires T.Valid() && Exchange.CountsOk(T, n, x) && NodeOk(T, n, P, ts, s, x) && Waiting(T, ts, s, x)
    requires q < |ts| && !PollsWell(T, x, ts, s, q)
    ensures IsTask(T, n, ProcessOf(t.s), t) && !Exchange.Finished(T, x, t) && Within(ProcessCounts(T), ProcessOf(t.s))
    ensures RankOf(t) < RankOf(ts[q])
  {
    var p := WaitsUnsent(T, n, P, ts, s, x, q);
    t := Exchange.Task(Exchange.Send, Peer(T, p).s, ts[q].it);
    SendTask(T, n, x, p, t.it);
  }

  lemma SenderIsEarlier<V>(j: Job<V>, e: Execution<V>, P: Vec<int>, q: nat) returns (P': Vec<int>, q': nat)
    requires Sound(j, e) && P in e.nodes && P in j.tasks && q < |j.tasks[P]| && !PollsWell(j.T, e.x, j.tasks[P], e.nodes[P], q)
    ensures P' in e.nodes && P' in j.tasks && q' < |j.tasks[P']| && !BodyDone(e.nodes[P'], q')
    ensures RankOf(j.tasks[P'][q']) < RankOf(j.tasks[P][q])
  {
    assert NodeSound(j, P, e.nodes[P], e.x);
    var t := EarlierSender(j.T, j.n, P, j.tasks[P], e.nodes[P], e.x, q);
    P' := ProcessOf(t.s);
    assert NodeOk(j.T, j.n, P', j.tasks[P'], e.nodes[P'], e.x);
    q' := UndoneTask(j.T, j.n, P', j.tasks[P'], e.nodes[P'], e.x, t);
  }

  /** Going back from what a task waits for, one comes to a task that waits for nothing. */
  lemma {:induction false} SomeTarget<V>(j: Job<V>, e: Execution<V>, P: Vec<int>, q: nat) returns (P': Vec<int>, q': nat)
    requires Sound(j, e) && NobodyEnds(e) && P in e.nodes && P in j.tasks && q < |j.tasks[P]| && !BodyDone(e.nodes[P], q)
    ensures P' in e.nodes && P' in j.tasks && IsTarget(j.T, e.x, j.tasks[P'], e.nodes[P'], q')
    decreases RankOf(j.tasks[P][q])
  {
    assert NodeSound(j, P, e.nodes[P], e.x);
    if Stage(e.nodes[P], q) < 2 {
      var p := WaitsForEarlier(j, P, e.nodes[P], e.x, q);
      P', q' := SomeTarget(j, e, P, p);
    } else if !PollsWell(j.T, e.x, j.tasks[P], e.nodes[P], q) {
      P', q' := SenderIsEarlier(j, e, P, q);
      P', q' := SomeTarget(j, e, P', q');
    } else {
      ReadyIsOnItsWay(j, P, e.nodes[P], e.x, q);
      P', q' := P, q;
    }
  }

  // ---------------------------------------------------------------------------------------------------------
  // Fair executions
  // ---------------------------------------------------------------------------------------------------------

  /** An execution in rounds: a worker of any process that stays able to go on takes a step, of its scheduler or of the body it
      runs. */
  ghost predicate FairExecution<V(!new)>(j: Job<V>, r: Run<Execution<V>>, cuts: seq<nat>) {
    IsRunOf(Sweeping(j), r) && Sound(j, r.states[0]) && InRounds(Sweeping(j), r, cuts)
  }

  ghost predicate NoneActive<V>(e: Execution<V>) { forall P :: P in e.nodes ==> e.nodes[P].active == 0 }

  function TaskCount<V>(j: Job<V>, n: nat): nat
    requires n <= |j.procs|
    decreases n
  {
    if n == 0 then 0 else TaskCount(j, n - 1) + if j.procs[n - 1] in j.tasks then |j.tasks[j.procs[n - 1]]| else 0
  }

  lemma {:induction false} OneOfAll<V>(j: Job<V>, n: nat, k: nat)
    requires k < n <= |j.procs| && j.procs[k] in j.tasks
    ensures |j.tasks[j.procs[k]]| <= TaskCount(j, n)
    decreases n
  {
    if k < n - 1 { OneOfAll(j, n - 1, k); }
  }

  /** Within so many rounds some task of some process takes a step of its own. */
  function Patience<V>(j: Job<V>): nat { 14 + 9 * (TaskCount(j, |j.procs|) + 1) + 8 * j.width }

  lemma NodeHasPlan<V(!new)>(j: Job<V>, e: Execution<V>, k: nat, p: NodePlan<V>)
    requires k < |j.procs| && j.procs[k] in e.nodes && NodeLeads(j, j.procs[k], p)
    requires p.near(e.nodes[j.procs[k]], e.x) && p.far(e.nodes[j.procs[k]]) < Patience(j)
    ensures HasPlan(Sweeping(j), e, Patience(j))
  {
    LiftedLeads(j, k, p);
    assert IsPlan(Sweeping(j), Lifted(j, k, p), e, Patience(j));
  }

  lemma EndingHasPlan<V(!new)>(j: Job<V>, e: Execution<V>, P: Vec<int>, v: nat)
    requires P in e.nodes && P in j.procs && IsEnding(e.nodes[P], v)
    ensures HasPlan(Sweeping(j), e, Patience(j))
  {
    var k :| 0 <= k < |j.procs| && j.procs[k] == P;
    EndingLeads(j, P, v);
    NodeHasPlan(j, e, k, EndingNode<V>(v));
  }

  lemma TargetHasPlan<V(!new)>(j: Job<V>, e: Execution<V>, P: Vec<int>, q: nat)
    requires P in e.nodes && P in j.procs && P in j.tasks && NodeSound(j, P, e.nodes[P], e.x)
    requires IsTarget(j.T, e.x, j.tasks[P], e.nodes[P], q)
    ensures HasPlan(Sweeping(j), e, Patience(j))
  {
    var k :| 0 <= k < |j.procs| && j.procs[k] == P;
    TargetLeads(j, P, q);
    Turns.FarBounded(e.nodes[P], q);
    OneOfAll(j, |j.procs|, k);
    NodeHasPlan(j, e, k, TargetNode<V>(j.T, j.tasks[P], q));
  }

  lemma UndoneOrEnding<V>(j: Job<V>, P: Vec<int>, s: State, x: Exchange.State<V>) returns (q: nat)
    requires P in j.tasks && NodeSound(j, P, s, x) && s.active != 0 && forall v: nat :: !IsEnding(s, v)
    ensures q < |j.tasks[P]| && !BodyDone(s, q)
  {
    assert ActiveTasks(s) != {};
    q :| q in ActiveTasks(s);
    EndsSomewhere(s, q);
  }

  lemma SomePlan<V(!new)>(j: Job<V>, e: Execution<V>)
    requires Sound(j, e) && !NoneActive(e)
    ensures HasPlan(Sweeping(j), e, Patience(j))
  {
    if P, v: nat :| P in e.nodes && IsEnding(e.nodes[P], v) {
      EndingHasPlan(j, e, P, v);
    } else {
      var P :| P in e.nodes && e.nodes[P].active != 0;
      assert NodeSound(j, P, e.nodes[P], e.x);
      var q := UndoneOrEnding(j, P, e.nodes[P], e.x);
      var P', q' := SomeTarget(j, e, P, q);
      assert NodeSound(j, P', e.nodes[P'], e.x);
      TargetHasPlan(j, e, P', q');
    }
  }

  lemma StaysInactive<V>(j: Job<V>, e: Execution<V>, e': Execution<V>, u: int, m: Move, k: nat, w: nat)
    requires Sound(j, e) && NoneActive(e) && MovesTo(j, e, e', u, m, k, w)
    ensures NoneActive(e')
  {
    if m.Schedule? {
      assert NodeSound(j, m.P, e.nodes[m.P], e.x);
      NodeStaysInactive(j, e, m.P, m.l);
    }
  }

  lemma NodeStaysInactive<V>(j: Job<V>, e: Execution<V>, P: Vec<int>, l: Label)
    requires NoneActive(e) && l.Act? && CanMove(j.T, j.tasks, e, Schedule(P, l)) && Inv(e.nodes[P])
    ensures NoneActive(DoMove(j.T, j.R, j.tasks, e, Schedule(P, l)))
  {
    StaysZero(e.nodes[P], l.w, l.choice);
  }

  lemma ExecutionProgresses<V(!new)>(j: Job<V>)
    ensures Progresses(Sweeping(j), NoneActive, Patience(j))
  {
    var f := Sweeping(j);
    IsLawful(j);
    forall e ensures GetsDone(f, NoneActive, Patience(j), e) {
      if f.good(e) && !NoneActive(e) { SomePlan(j, e); }
    }
    forall e, e', u ensures StaysDone(f, NoneActive, e, e', u) {
      if f.good(e) && NoneActive(e) && f.follows(e, e', u) && !(u < 0 && e' == e) {
        var m, k, w :| MovesTo(j, e, e', u, m, k, w);
        StaysInactive(j, e, e', u, m, k, w);
      }
    }
  }

  /** So many rounds finish the sweeps. */
  ghost function RoundsNeeded<V(!new)>(j: Job<V>, e: Execution<V>): nat { Enough(Sweeping(j), e, Patience(j)) }

  /** Every fair execution that has come so far has finished all tasks of all processes. */
  lemma FairExecutionsFinish<V(!new)>(j: Job<V>, r: Run<Execution<V>>, cuts: seq<nat>)
    requires FairExecution(j, r, cuts) && |cuts| > RoundsNeeded(j, r.states[0])
    ensures Sound(j, r.Last()) && forall P :: P in r.Last().nodes ==> r.Last().nodes[P].active == 0
  {
    ExecutionProgresses(j);
    FairRunsGetDone(Sweeping(j), NoneActive, Patience(j), r, cuts, 0);
  }

  /** And the two buffers hold n and n - 1 synchronous sweeps of the global grid. */
  lemma FairExecutionsSweep<V(!new)>(j: Job<V>, r: Run<Execution<V>>, cuts: seq<nat>, q: Vec<int>)
    requires FairExecution(j, r, cuts) && |cuts| > RoundsNeeded(j, r.states[0]) && InExtent(Extent(j.T), q)
    ensures var x, c := r.Last().x, CellAt(j.T, q);
      && Exchange.At(j.R, x, j.n, ProcessOf(Owner(c)), c) == GlobalValue(Extent(j.T), j.T.depth, j.R, j.n, q)
      && (j.n > 0 ==> Exchange.At(j.R, x, j.n + 1, ProcessOf(Owner(c)), c) == GlobalValue(Extent(j.T), j.T.depth, j.R, j.n - 1, q))
  {
    FairExecutionsFinish(j, r, cuts);
    DoneIsSynchronous(j.T, j.n, j.R, j.tasks, r.Last(), q);
  }

  // ---------------------------------------------------------------------------------------------------------
  // Once no task is active
  // ---------------------------------------------------------------------------------------------------------

  /** Worker w of process k is there, and terminates when it sees that no task is active. */
  predicate HasWorker<V>(j: Job<V>, e: Execution<V>, k: nat, w: nat) {
    && k < |j.procs| && w < j.width && j.procs[k] in e.nodes
    && w < |e.nodes[j.procs[k]].pc| && e.nodes[j.procs[k]].finishOnLast
  }

  lemma WorkerStays<V>(j: Job<V>, e: Execution<V>, e': Execution<V>, u: int, m: Move, l: nat, v: nat, k: nat, w: nat)
    requires MovesTo(j, e, e', u, m, l, v) && HasWorker(j, e, k, w)
    ensures HasWorker(j, e', k, w)
  {
    if m.Schedule? { SchedulerFairness.SameFlag(e.nodes[m.P], m.l.w, m.l.choice); }
  }

  ghost function Keeping<V(!new)>(j: Job<V>, k: nat, w: nat): Machine<Execution<V>> {
    Sweeping(j).(good := e => Sound(j, e) && HasWorker(j, e, k, w))
  }

  lemma KeepsWorker<V(!new)>(j: Job<V>, e: Execution<V>, e': Execution<V>, u: int, k: nat, w: nat)
    requires Sound(j, e) && HasWorker(j, e, k, w) && GoesOn(j, e, e', u)
    ensures LawfulStep(Keeping(j, k, w), e, e', u)
  {
    if !(u < 0 && e' == e) {
      var m, l, v :| MovesTo(j, e, e', u, m, l, v);
      MoveSound(j, e, e', u, m, l, v);
      WorkerStays(j, e, e', u, m, l, v, k, w);
    }
  }

  lemma KeepingIsLawful<V(!new)>(j: Job<V>, k: nat, w: nat)
    ensures Lawful(Keeping(j, k, w))
  {
    var f := Keeping(j, k, w);
    forall e, e', u ensures LawfulStep(f, e, e', u) {
      if f.good(e) && f.follows(e, e', u) { KeepsWorker(j, e, e', u, k, w); }
    }
  }

  lemma WorkerUntil<V(!new)>(j: Job<V>, r: Run<Execution<V>>, cuts: seq<nat>, k: nat, w: nat, q: nat)
    requires FairExecution(j, r, cuts) && HasWorker(j, r.states[0], k, w) && q < |cuts|
    ensures HasWorker(j, r.states[cuts[q]], k, w)
  {
    KeepingIsLawful(j, k, w);
    SameRuns(Sweeping(j), Keeping(j, k, w), r, cuts);
    GoodUntil(Keeping(j, k, w), r, 0, cuts[q]);
  }

  ghost predicate Over<V>(j: Job<V>, e: Execution<V>, k: nat, w: nat) { Sound(j, e) && NoneActive(e) && HasWorker(j, e, k, w) }

  predicate HasStopped<V>(j: Job<V>, e: Execution<V>, k: nat, w: nat) {
    k < |j.procs| && j.procs[k] in e.nodes && SchedulerFairness.HasStopped(e.nodes[j.procs[k]], w)
  }

  /** What is left to do is that the worker terminates. */
  ghost function Ending<V(!new)>(j: Job<V>, k: nat, w: nat): Machine<Execution<V>> {
    Machine(Sweeping(j).follows, Sweeping(j).able, Sweeping(j).workers, e => Over(j, e, k, w),
            (e: Execution<V>) => if HasStopped(j, e, k, w) then 0 else 1)
  }

  function ToStop<V>(j: Job<V>, e: Execution<V>, k: nat, w: nat): nat {
    if HasWorker(j, e, k, w) then SchedulerFairness.StepsToStop(e.nodes[j.procs[k]], w) else 0
  }

  ghost function StopPlan<V>(j: Job<V>, k: nat, w: nat): Plan<Execution<V>> {
    Plan((e: Execution<V>) => HasWorker(j, e, k, w) && !HasStopped(j, e, k, w), (e: Execution<V>) => ToStop(j, e, k, w),
         (_, u) => u == Number(j, k, w))
  }

  /** Nobody waits for a message any more. */
  lemma NobodyWaits<V>(j: Job<V>, P: Vec<int>, s: State, x: Exchange.State<V>)
    requires P in j.tasks && NodeSound(j, P, s, x) && s.active == 0
    ensures SchedulerProgress.Plain(s) && forall v :: 0 <= v < |s.pc| ==> !HoldsSome(s.pc[v])
  {
    NothingActive(s);
    forall q | 0 <= q < |s.pending| ensures s.pending[q] == [] {
      assert PendOk(j.T, x, j.tasks[P][q], s.pending[q]) && Exchange.Finished(j.T, x, j.tasks[P][q]);
    }
  }

  lemma NodeOver<V>(j: Job<V>, P: Vec<int>, s: State, x: Exchange.State<V>, v: nat, c: Choice, w: nat)
    requires P in j.tasks && NodeSound(j, P, s, x) && s.active == 0 && s.finishOnLast && Enabled(s, Act(v, c)) && w < |s.pc|
    ensures var s' := WorkerStep(s, v, c);
      && SchedulerFairness.StepsToStop(s', w) <= SchedulerFairness.StepsToStop(s, w)
      && (v == w ==> SchedulerFairness.StepsToStop(s', w) < SchedulerFairness.StepsToStop(s, w))
      && (SchedulerFairness.HasStopped(s, w) ==> SchedulerFairness.HasStopped(s', w))
  {
    NobodyWaits(j, P, s, x);
    SchedulerFairness.SearchStep(s, v, c);
    SchedulerFairness.StopsSooner(s, WorkerStep(s, v, c), v, w);
  }

  /** Every step is one of a search for tasks, and brings its worker nearer to its end. */
  lemma OverMove<V>(j: Job<V>, e: Execution<V>, e': Execution<V>, u: int, m: Move, l: nat, v: nat, k: nat, w: nat)
    requires MovesTo(j, e, e', u, m, l, v) && NoneActive(e) && HasWorker(j, e, k, w) && Listed(j)
    requires m.P in j.tasks && NodeSound(j, m.P, e.nodes[m.P], e.x)
    ensures ToStop(j, e', k, w) <= ToStop(j, e, k, w) && (u == Number(j, k, w) ==> ToStop(j, e', k, w) < ToStop(j, e, k, w))
    ensures HasStopped(j, e, k, w) ==> HasStopped(j, e', k, w)
  {
    WorkerStays(j, e, e', u, m, l, v, k, w);
    NobodyWaits(j, m.P, e.nodes[m.P], e.x);
    if u == Number(j, k, w) { SameNumber(j, u, l, v, k, w); }
    if l == k { NodeOver(j, m.P, e.nodes[m.P], e.x, v, m.l.choice, w); }
  }

  lemma OverStep<V(!new)>(j: Job<V>, e: Execution<V>, e': Execution<V>, u: int, k: nat, w: nat)
    requires Over(j, e, k, w) && GoesOn(j, e, e', u)
    ensures Over(j, e', k, w) && ToStop(j, e', k, w) <= ToStop(j, e, k, w)
    ensures u == Number(j, k, w) ==> ToStop(j, e', k, w) < ToStop(j, e, k, w)
    ensures HasStopped(j, e, k, w) ==> HasStopped(j, e', k, w)
  {
    if !(u < 0 && e' == e) {
      var m, l, v :| MovesTo(j, e, e', u, m, l, v);
      MoveSound(j, e, e', u, m, l, v);
      StaysInactive(j, e, e', u, m, l, v);
      assert NodeSound(j, m.P, e.nodes[m.P], e.x);
      WorkerStays(j, e, e', u, m, l, v, k, w);
      OverMove(j, e, e', u, m, l, v, k, w);
    }
  }

  lemma OverAble<V(!new)>(j: Job<V>, e: Execution<V>, k: nat, w: nat)
    requires Over(j, e, k, w) && !HasStopped(j, e, k, w)
    ensures Called(Ending(j, k, w), StopPlan(j, k, w), e, Number(j, k, w))
  {
    assert NodeSound(j, j.procs[k], e.nodes[j.procs[k]], e.x);
    AbleToStop(j, e, k, w);
  }

  lemma AbleToStop<V(!new)>(j: Job<V>, e: Execution<V>, k: nat, w: nat)
    requires HasWorker(j, e, k, w) && !HasStopped(j, e, k, w)
    requires Shape(e.nodes[j.procs[k]]) && e.nodes[j.procs[k]].active == 0
    ensures Called(Ending(j, k, w), StopPlan(j, k, w), e, Number(j, k, w))
  {
    NumberInRange(j, k, w);
    AbleNumber(j, e, Number(j, k, w), k, w);
  }

  lemma StopStep<V(!new)>(j: Job<V>, e: Execution<V>, e': Execution<V>, u: int, k: nat, w: nat)
    requires Over(j, e, k, w) && GoesOn(j, e, e', u)
    ensures LeadsStep(Ending(j, k, w), StopPlan(j, k, w), e, e', u) && LawfulStep(Ending(j, k, w), e, e', u)
  {
    OverStep(j, e, e', u, k, w);
    if !HasStopped(j, e', k, w) { OverAble(j, e', k, w); }
  }

  lemma StopLeads<V(!new)>(j: Job<V>, k: nat, w: nat)
    ensures Lawful(Ending(j, k, w)) && Leads(Ending(j, k, w), StopPlan(j, k, w))
  {
    var f, p := Ending(j, k, w), StopPlan<V>(j, k, w);
    forall e, e', u ensures LeadsStep(f, p, e, e', u) && LawfulStep(f, e, e', u) {
      if f.good(e) && f.follows(e, e', u) { StopStep(j, e, e', u, k, w); }
    }
    forall e ensures Calls(f, p, e) {
      if f.good(e) && p.near(e) { OverAble(j, e, k, w); }
    }
  }

  lemma InactiveAfter<V(!new)>(j: Job<V>, r: Run<Execution<V>>, cuts: seq<nat>, q: nat)
    requires FairExecution(j, r, cuts) && q == RoundsNeeded(j, r.states[0]) < |cuts|
    ensures Sound(j, r.states[cuts[q]]) && NoneActive(r.states[cuts[q]])
  {
    ExecutionProgresses(j);
    DoneAfter(Sweeping(j), r, cuts, Patience(j), q);
  }

  lemma DoneAfter<V(!new)>(f: Machine<Execution<V>>, r: Run<Execution<V>>, cuts: seq<nat>, n: nat, q: nat)
    requires Progresses(f, NoneActive, n) && IsRunOf(f, r) && InRounds(f, r, cuts) && f.good(r.states[0])
    requires q == Enough(f, r.states[0], n) < |cuts|
    ensures f.good(r.states[cuts[q]]) && NoneActive(r.states[cuts[q]])
  {
    FairRunsGetDone(f, NoneActive, n, r, cuts, 0);
  }

  lemma EndingRuns<V(!new)>(j: Job<V>, r: Run<Execution<V>>, cuts: seq<nat>, k: nat, w: nat)
    requires FairExecution(j, r, cuts)
    ensures IsRunOf(Ending(j, k, w), r) && InRounds(Ending(j, k, w), r, cuts)
  {
    SameRuns(Sweeping(j), Ending(j, k, w), r, cuts);
  }

  lemma StopIsPlan<V(!new)>(j: Job<V>, e: Execution<V>, k: nat, w: nat)
    requires Leads(Ending(j, k, w), StopPlan(j, k, w)) && HasWorker(j, e, k, w)
    ensures Ending(j, k, w).work(e) > 0 ==> IsPlan(Ending(j, k, w), StopPlan(j, k, w), e, 9)
  {}

  lemma EndingIsOver<V(!new)>(j: Job<V>, e: Execution<V>, k: nat, w: nat)
    requires Over(j, e, k, w)
    ensures Ending(j, k, w).good(e)
  {}

  lemma StoppedAtZero<V(!new)>(j: Job<V>, e: Execution<V>, k: nat, w: nat)
    ensures Ending(j, k, w).work(e) <= 1 && (Ending(j, k, w).work(e) == 0 <==> HasStopped(j, e, k, w))
  {}

  lemma EndsAfter<V(!new)>(j: Job<V>, r: Run<Execution<V>>, cuts: seq<nat>, k: nat, w: nat, q: nat)
    requires IsRunOf(Ending(j, k, w), r) && InRounds(Ending(j, k, w), r, cuts) && q + 9 < |cuts| && Over(j, r.states[cuts[q]], k, w)
    ensures HasStopped(j, r.Last(), k, w)
  {
    StopLeads(j, k, w);
    LastRounds(Ending(j, k, w), StopPlan(j, k, w), j, r, cuts, k, w, q);
    StoppedAtZero(j, r.Last(), k, w);
  }

  lemma LastRounds<V(!new)>(f: Machine<Execution<V>>, p: Plan<Execution<V>>, j: Job<V>, r: Run<Execution<V>>, cuts: seq<nat>, k: nat, w: nat, q: nat)
    requires f == Ending(j, k, w) && p == StopPlan(j, k, w) && Lawful(f) && Leads(f, p)
    requires IsRunOf(f, r) && InRounds(f, r, cuts) && q + 9 < |cuts| && Over(j, r.states[cuts[q]], k, w)
    ensures f.work(r.Last()) == 0
  {
    EndingIsOver(j, r.states[cuts[q]], k, w);
    StoppedAtZero(j, r.states[cuts[q]], k, w);
    StopIsPlan(j, r.states[cuts[q]], k, w);
    LastPieceOfWork(f, p, 9, r, cuts, q);
  }

  /** Nine rounds later every worker of every process has terminated that may. */
  lemma FairExecutionsEnd<V(!new)>(j: Job<V>, r: Run<Execution<V>>, cuts: seq<nat>, k: nat, w: nat)
    requires FairExecution(j, r, cuts) && |cuts| > RoundsNeeded(j, r.states[0]) + 9 && HasWorker(j, r.states[0], k, w)
    ensures HasStopped(j, r.Last(), k, w)
  {
    var q := RoundsNeeded(j, r.states[0]);
    InactiveAfter(j, r, cuts, q);
    WorkerUntil(j, r, cuts, k, w, q);
    EndingRuns(j, r, cuts, k, w);
    EndsAfter(j, r, cuts, k, w, q);
  }

  // ---------------------------------------------------------------------------------------------------------
  // Fair executions exist
  // ---------------------------------------------------------------------------------------------------------

  /** The next step of a ready compute task. */
  lemma ComputeGoesOn<V>(T: Topology, n: nat, P: Vec<int>, x: Exchange.State<V>, t: Task) returns (m: Exchange.Move)
    requires IsTask(T, n, P, t) && Exchange.Ready(T, x, t) && t.work == Exchange.Compute && !Exchange.Finished(T, x, t)
    ensures BodyMay(T, x, m) && TaskOf(x, m) == t
  {
    var s := t.s;
    if t.it > 0 { assert Exchange.Finished(T, x, Exchange.Task(Exchange.Compute, s, t.it - 1)); }
    if s !in x.busy { m := Exchange.StartCompute(s); }
    else if c :| Owns(T, s, c) && c !in x.written { m := Exchange.WriteCell(c); }
    else { m := Exchange.EndCompute(s); }
  }

  /** The next step of another ready task, unless it has to wait for a message. */
  lemma PortGoesOn<V>(T: Topology, n: nat, P: Vec<int>, x: Exchange.State<V>, t: Task) returns (m: Exchange.Move, face: nat)
    requires T.Valid() && Exchange.CountsOk(T, n, x)
    requires IsTask(T, n, P, t) && Exchange.Ready(T, x, t) && t.work != Exchange.Compute && !Exchange.Finished(T, x, t)
    ensures (BodyMay(T, x, m) && TaskOf(x, m) == t) || HasToWait(T, x, t, face)
  {
    var p := TurnOf(T, n, x, t);
    face := FaceIndex(p.f);
    assert FACES[face] == p.f && p == Port(t.s, p.f);
    match t.work
    case Pack =>
      if c :| InSlab(T, p.s, p.f, c) && Exchange.Slot(p, c) !in x.packing { m := Exchange.PackCell(p, c); } else { m := Exchange.EndPack(p); }
    case Send => m := Exchange.Push(p);
    case Receive => m := Exchange.Peek(p);
    case Unpack =>
      ToUnpack(T, n, x, t, p);
      if c :| InGhost(T, p.s, p.f, c) && Exchange.Slot(p, c) !in x.unpacking { m := Exchange.UnpackCell(p, c); } else { m := Exchange.Pop(p); }
  }

  /** The port whose turn it is. */
  lemma TurnOf<V>(T: Topology, n: nat, x: Exchange.State<V>, t: Task) returns (p: Port)
    requires Exchange.CountsOk(T, n, x) && IsSubgrid(T, t.s) && Exchange.Ready(T, x, t) && t.work != Exchange.Compute
    requires !Exchange.Finished(T, x, t)
    ensures AtPort(T, x, t.work, p) && p.s == t.s && Exchange.Count(x, t.work, p) == t.it
  {
    forall f | KindOf(T, t.s, f) == REMOTE ensures Exchange.Count(x, t.work, Port(t.s, f)) >= t.it { ReadyCount(T, n, x, t, f); }
    var f :| KindOf(T, t.s, f) == REMOTE && Exchange.Count(x, t.work, Port(t.s, f)) <= t.it;
    p := JacobiTheorems.SomeTurn(T, x, t.work, Port(t.s, f), t.it);
  }

  /** A ready unpack task finds its message at the head of the channel. */
  lemma ToUnpack<V>(T: Topology, n: nat, x: Exchange.State<V>, t: Task, p: Port)
    requires Exchange.CountsOk(T, n, x) && Exchange.Ready(T, x, t) && t.work == Exchange.Unpack && IsPort(T, p) && p.s == t.s
    requires Exchange.Unpacked(x, p) == t.it
    ensures Exchange.Channel(x, p) != []
  {
    assert Exchange.Finished(T, x, Exchange.Task(Exchange.Receive, t.s, t.it)) && p == Port(t.s, p.f);
    assert Exchange.ChainOk(T, n, x, p);
  }

  /** The next move of a worker that can go on: of the body it runs, or of its scheduler. */
  lemma NextMove<V>(T: Topology, n: nat, P: Vec<int>, ts: seq<Task>, s: State, x: Exchange.State<V>, w: nat)
    returns (m: Exchange.Move, c: Choice)
    requires T.Valid() && Exchange.CountsOk(T, n, x) && NodeOk(T, n, P, ts, s, x) && Waiting(T, ts, s, x) && SchedulerFairness.CanGoOn(s, w)
    ensures || (s.pc[w].Running? && s.pc[w].t < |ts| && BodyMay(T, x, m) && TaskOf(x, m) == ts[s.pc[w].t])
            || (Enabled(s, Act(w, c)) && TaskDecides(T, ts, s, x, w, c))
  {
    m, c := Exchange.Push(Port(Vec(Pos(0, 0), Pos(0, 0), Pos(0, 0)), FACES[0])), Choice(true, true, true, false, []);
    if s.pc[w].Running? {
      NodeRunsReady(T, n, P, ts, s, x, w);
      var t := ts[s.pc[w].t];
      if !Exchange.Finished(T, x, t) {
        if t.work == Exchange.Compute {
          m := ComputeGoesOn(T, n, P, x, t);
        } else {
          var face;
          m, face := PortGoesOn(T, n, P, x, t);
          c := Choice(true, true, true, true, [face]);
        }
      }
    } else if s.pc[w].Polling? {
      assert WorkerOk(s, w) && PendOk(T, x, ts[s.pc[w].t], s.pending[s.pc[w].t]);
      if s.pending[s.pc[w].t] != [] { c := c.(ok := IsOpen(T, x, ts[s.pc[w].t], s.pending[s.pc[w].t][0])); }
    }
  }

  lemma WorkerMove<V>(j: Job<V>, e: Execution<V>, k: nat, w: nat) returns (m: Move)
    requires AbleAt(j, e, k, w) && j.procs[k] in j.tasks && j.T.Valid() && Exchange.CountsOk(j.T, j.n, e.x)
    requires NodeSound(j, j.procs[k], e.nodes[j.procs[k]], e.x)
    ensures CanMove(j.T, j.tasks, e, m) && IsBy(j, m, k, w)
  {
    var P := j.procs[k];
    var b, c := NextMove(j.T, j.n, P, j.tasks[P], e.nodes[P], e.x, w);
    m := if Enabled(e.nodes[P], Act(w, c)) && TaskDecides(j.T, j.tasks[P], e.nodes[P], e.x, w, c) then Schedule(P, Act(w, c)) else Body(P, w, b);
  }

  lemma GoesTo<V(!new)>(j: Job<V>, e: Execution<V>, e': Execution<V>, u: nat, k: nat, w: nat, m: Move)
    requires MovesTo(j, e, e', u, m, k, w) && Sound(j, e')
    ensures Steps(Sweeping(j), e, u)
  {
    assert Sweeping(j).follows(e, e', u) && Sweeping(j).good(e');
  }

  lemma NextExecution<V>(j: Job<V>, e: Execution<V>, u: nat, k: nat, w: nat) returns (e': Execution<V>, m: Move)
    requires Sound(j, e) && IsNumber(j, u, k, w) && AbleAt(j, e, k, w)
    ensures MovesTo(j, e, e', u, m, k, w)
  {
    assert NodeSound(j, j.procs[k], e.nodes[j.procs[k]], e.x);
    m := WorkerMove(j, e, k, w);
    e' := DoMove(j.T, j.R, j.tasks, e, m);
  }

  lemma AbleGoes<V(!new)>(j: Job<V>, e: Execution<V>, u: nat)
    requires Sound(j, e) && Able(j, e, u)
    ensures Steps(Sweeping(j), e, u)
  {
    var k, w :| IsNumber(j, u, k, w) && AbleAt(j, e, k, w);
    var e', m := NextExecution(j, e, u, k, w);
    MoveSound(j, e, e', u, m, k, w);
    GoesTo(j, e, e', u, k, w, m);
  }

  /** From every reachable state there are fair executions of any length, so that what holds of all of them is not empty. */
  lemma FairExecutionFrom<V(!new)>(j: Job<V>, e: Execution<V>, i: nat) returns (r: Run<Execution<V>>, cuts: seq<nat>)
    requires Sound(j, e)
    ensures FairExecution(j, r, cuts) && r.states[0] == e && |cuts| == i + 1
  {
    var f := Sweeping(j);
    forall y, u: nat | f.good(y) && u < f.workers && f.able(y, u) ensures Steps(f, y, u) { AbleGoes(j, y, u); }
    r, cuts := FairRunExists(f, e, i);
  }

  /** From every reachable state the sweeps can be finished: some execution leads to no active task in any process. */
  lemma SweepsCanFinish<V(!new)>(j: Job<V>, e: Execution<V>) returns (r: Run<Execution<V>>)
    requires Sound(j, e)
    ensures IsRunOf(Sweeping(j), r) && r.states[0] == e
    ensures forall P :: P in r.Last().nodes ==> r.Last().nodes[P].active == 0
  {
    var cuts;
    r, cuts := FairExecutionFrom(j, e, RoundsNeeded(j, e));
    FairExecutionsFinish(j, r, cuts);
  }

  /** The executions that start with the graphs of all processes added, without affinities or pending operations, are of this
      kind. */
  lemma StartSound<V>(j: Job<V>, e: Execution<V>)
    requires Start(j.T, j.n, j.R, j.tasks, e) && Listed(j)
    requires forall P :: P in e.nodes ==> Fresh(e.nodes[P], j.width)
    ensures Sound(j, e)
  {
    StartGood(j.T, j.n, j.R, j.tasks, e);
    forall P | P in e.nodes && P in j.tasks ensures NodeSound(j, P, e.nodes[P], e.x) {
      var s := e.nodes[P];
      assert Fresh(s, j.width) && NodeOk(j.T, j.n, P, j.tasks[P], s, e.x);
      FreshIsUsual(s, j.width);
    }
  }

  /** The process has so many workers at most, and its tasks have no affinity and nothing pending. */
  predicate Fresh(s: State, width: nat) { 0 < |s.pc| <= width && Unused(s) }

  lemma FreshIsUsual(s: State, width: nat)
    requires Init(s) && Fresh(s, width)
    ensures Usual(s, width) && forall w :: 0 <= w < |s.pc| ==> PolledOk(s, w)
  {
    forall t | 0 <= t < |s.place| && s.place[t].Queued? ensures s.named[t] == QueueOf(s, t) {}
    Turns.InitOrderly(s);
    forall w | 0 <= w < |s.pc| ensures PolledOk(s, w) { assert s.pc[w] == Idle; }
  }
}
