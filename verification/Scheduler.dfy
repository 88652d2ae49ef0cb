/**
The dependency-driven scheduler as a state machine over atomic steps. A worker's program counter says where it
is inside the pull function, in a task's life, or in the finish callback; every access to an atomic counter or to
a concurrent queue is a step of its own, so all workers interleave at that grain.
*/
module Scheduler {

  /** One entry of a task's vector of dependents. */
  datatype Edge = Edge(from: nat, slot: nat)

  /** A static dependency graph: `out[p]` is task p's vector of dependents. Tasks are their ids. */
  datatype Graph = Graph(out: seq<seq<nat>>) {
    predicate Closed() {
      forall p, k :: 0 <= p < |out| && 0 <= k < |out[p]| ==> out[p][k] < |out|
    }

    function Edges(): set<Edge> {
      set p: nat, k: nat | p < |out| && k < |out[p]| :: Edge(p, k)
    }

    /** The edges that end in task t, repeated edges counted separately. */
    function Into(t: nat): set<Edge> {
      set e | e in Edges() && out[e.from][e.slot] == t
    }

    /** The rank gives a topological order: it rises along every edge. */
    predicate Ordered(rank: seq<nat>) {
      && |rank| == |out|
      && forall p, k :: 0 <= p < |out| && 0 <= k < |out[p]| && out[p][k] < |out| ==> rank[p] < rank[out[p][k]]
    }
  }

  /** Where a task is; `Queued(a)` is the ready queue with index a. */
  datatype Place =
    | Blocked                // added, in-counter above zero
    | Woken(w: nat)          // worker w brought the in-counter to zero and has not pushed the task yet
    | Queued(a: nat)
    | OnWorker(w: nat)       // popped, polled, running, suspending or finishing on worker w
    | Finished
    | Absent                 // not added, or popped by a forced termination

  datatype Pc =
    | Idle                             // between two calls of the pull function
    | DrainCommon | DrainOwn           // forced termination: emptying the queues
    | Discard(t: nat, common: bool)    // forced termination: task popped, counter not lowered yet
    | PopOwn | PopCommon
    | Polling(t: nat)                  // a task is held, its pending operations are polled
    | Requeue(t: nat)                  // a poll failed
    | LeaveWith(t: nat)
    | NoTask
    | CheckTermination(sleep: bool)
    | LeaveEmpty(sleep: bool, stop: bool)
    | Running(t: nat)
    | Yielded(t: nat)                  // suspended, the suspend callback comes next
    | Releasing(t: nat, k: nat)        // finish callback, the k-th dependent comes next
    | Pushing(t: nat, k: nat)          // the k-th dependent's in-counter was seen at zero
    | Decount(t: nat)                  // all dependents released, active counter not lowered yet
    | Asleep
    | Stopped

  /** What the environment decides in a step. */
  datatype Choice = Choice(
    ok: bool,              // the polled pending operation has finished
    expired: bool,         // the fail streak is longer than the inactivity time
    asked: bool,           // the worker was asked to resume explicitly
    suspends: bool,          // the task's body suspends (it finishes otherwise) ...
    ops: seq<nat>)         // ... after adding these pending operations

  datatype Label = Act(w: nat, choice: Choice) | ForceTermination | SetAffinity(t: nat, a: int)

  datatype State = State(
    g: Graph,
    ready: seq<seq<nat>>,       // ready queue of every worker, the common ready queue last
    dep: seq<int>,              // in-counter of every task
    pending: seq<seq<nat>>,     // pending operations of every task
    affinity: seq<int>,
    named: seq<nat>,            // history: the queue the task was last pushed to
    place: seq<Place>,          // history: where every task is
    pc: seq<Pc>,
    active: int,                // active task counter
    inside: int,                // active task worker counter
    minimum: nat,               // minimum number of active task workers
    finishOnLast: bool,
    force: bool)

  // ---------------------------------------------------------------------------------------------------------
  // Reading a state
  // ---------------------------------------------------------------------------------------------------------

  predicate Holds(pc: Pc, t: nat) {
    match pc
    case Discard(u, _) => u == t
    case Polling(u) => u == t
    case Requeue(u) => u == t
    case LeaveWith(u) => u == t
    case Running(u) => u == t
    case Yielded(u) => u == t
    case Releasing(u, _) => u == t
    case Pushing(u, _) => u == t
    case Decount(u) => u == t
    case _ => false
  }

  predicate HoldsSome(pc: Pc) {
    pc.Discard? || pc.Polling? || pc.Requeue? || pc.LeaveWith? || pc.Running? || pc.Yielded? || pc.Releasing?
    || pc.Pushing? || pc.Decount?
  }

  function Held(pc: Pc): nat
    requires HoldsSome(pc)
  {
    match pc
    case Discard(u, _) => u
    case Polling(u) => u
    case Requeue(u) => u
    case LeaveWith(u) => u
    case Running(u) => u
    case Yielded(u) => u
    case Releasing(u, _) => u
    case Pushing(u, _) => u
    case Decount(u) => u
  }

  /** Between the increment and the decrement of the worker counter in the pull function. */
  predicate Inside(pc: Pc) {
    pc.DrainCommon? || pc.DrainOwn? || pc.Discard? || pc.PopOwn? || pc.PopCommon? || pc.Polling? || pc.Requeue?
    || pc.LeaveWith? || pc.NoTask? || pc.CheckTermination? || pc.LeaveEmpty?
  }

  predicate Leaving(pc: Pc) {
    pc.Stopped? || (pc.LeaveEmpty? && pc.stop)
  }

  predicate IsActive(p: Place) {
    !p.Finished? && !p.Absent?
  }

  function Tasks(s: State): nat { |s.g.out| }

  function ActiveTasks(s: State): set<nat> {
    set t: nat | t < |s.place| && IsActive(s.place[t])
  }

  function InsideWorkers(s: State): set<nat> {
    set w: nat | w < |s.pc| && Inside(s.pc[w])
  }

  /** How many dependents a worker at pc has decremented for the task it holds, which has n dependents. */
  function Progress(pc: Pc, n: nat): nat {
    match pc
    case Releasing(_, k) => k
    case Pushing(_, k) => k + 1
    case Decount(_) => n
    case _ => 0
  }

  /** How many entries of task p's vector of dependents have been decremented. */
  function Released(s: State, p: nat): nat {
    if p < |s.place| && p < Tasks(s) then
      match s.place[p]
      case Finished => |s.g.out[p]|
      case OnWorker(w) => if w < |s.pc| then Progress(s.pc[w], |s.g.out[p]|) else 0
      case _ => 0
    else 0
  }

  /** The edges into t whose decrement has not happened. */
  function Unreleased(s: State, t: nat): set<Edge> {
    set e | e in s.g.Into(t) && e.slot >= Released(s, e.from)
  }

  /** The body of task t has run to its end. */
  predicate BodyDone(s: State, t: nat)
    requires t < |s.place|
  {
    || s.place[t].Finished?
    || (&& s.place[t].OnWorker?
        && s.place[t].w < |s.pc|
        && var pc := s.pc[s.place[t].w]; pc.Releasing? || pc.Pushing? || pc.Decount?)
  }

  /** The index of the common ready queue. */
  function Common(s: State): nat { |s.pc| }

  /** The condition on which a suspended worker wakes up. */
  predicate ResumeCheck(s: State, w: nat)
    requires w < |s.ready|
  {
    s.inside <= s.minimum || s.active == 0 || s.ready[w] != []
  }

  // ---------------------------------------------------------------------------------------------------------
  // Invariants
  // ---------------------------------------------------------------------------------------------------------

  predicate Shape(s: State) {
    && s.g.Closed()
    && |s.dep| == |s.pending| == |s.affinity| == |s.named| == |s.place| == Tasks(s)
    && |s.ready| == |s.pc| + 1
    && forall t :: 0 <= t < |s.affinity| ==> s.affinity[t] < |s.pc|
  }

  predicate NoDuplicates(q: seq<nat>) {
    forall i, j :: 0 <= i < j < |q| ==> q[i] != q[j]
  }

  /** A queue holds tasks placed in it, once each. */
  predicate QueueOk(s: State, a: nat)
    requires a < |s.ready|
  {
    && NoDuplicates(s.ready[a])
    && forall i :: 0 <= i < |s.ready[a]| ==> s.ready[a][i] < |s.place| && s.place[s.ready[a][i]] == Queued(a)
  }

  /** A task is where its place says. */
  predicate TaskOk(s: State, t: nat)
    requires t < |s.place|
  {
    match s.place[t]
    case Queued(a) => a < |s.ready| && t in s.ready[a]
    case OnWorker(w) => w < |s.pc| && Holds(s.pc[w], t)
    case Woken(w) => w < |s.pc| && PushesTask(s, w, t)
    case _ => true
  }

  predicate PushesTask(s: State, w: nat, t: nat)
    requires w < |s.pc|
  {
    && s.pc[w].Pushing?
    && s.pc[w].t < |s.g.out|
    && s.pc[w].k < |s.g.out[s.pc[w].t]|
    && s.g.out[s.pc[w].t][s.pc[w].k] == t
  }

  /** A worker holds the task placed on it; about to push a task, that task is placed with it as woken. */
  predicate WorkerOk(s: State, w: nat)
    requires w < |s.pc|
  {
    var pc := s.pc[w];
    && (HoldsSome(pc) ==> Held(pc) < |s.place| && Held(pc) < |s.g.out| && s.place[Held(pc)] == OnWorker(w))
    && (pc.Releasing? ==> pc.k <= |s.g.out[pc.t]|)
    && (pc.Pushing? ==>
          && pc.k < |s.g.out[pc.t]|
          && s.g.out[pc.t][pc.k] < |s.place|
          && s.place[s.g.out[pc.t][pc.k]] == Woken(w))
  }

  /** The in-counter is the number of predecessor edges not yet released; a task is blocked while it is positive. */
  predicate CounterOk(s: State, t: nat)
    requires t < |s.place| && t < |s.dep|
  {
    s.dep[t] == |Unreleased(s, t)| && (s.place[t].Blocked? <==> s.dep[t] > 0)
  }

  predicate CountersMatch(s: State) {
    forall t :: 0 <= t < |s.place| && t < |s.dep| ==> CounterOk(s, t)
  }

  /** A worker works on a task pushed to its own queue or to the common one. */
  predicate AffinityOk(s: State, t: nat)
    requires t < |s.place| && t < |s.named|
  {
    && (s.place[t].Queued? ==> s.named[t] == s.place[t].a)
    && (s.place[t].OnWorker? ==> s.named[t] == Common(s) || s.named[t] == s.place[t].w)
  }

  predicate AffinityMatches(s: State) {
    forall t :: 0 <= t < |s.place| && t < |s.named| ==> AffinityOk(s, t)
  }

  predicate ActiveMatches(s: State) { s.active == |ActiveTasks(s)| }

  predicate InsideMatches(s: State) { s.inside == |InsideWorkers(s)| }

  /** A worker terminates only when no task is active. */
  predicate StopsMatch(s: State) {
    forall w :: 0 <= w < |s.pc| && Leaving(s.pc[w]) ==> s.active == 0
  }

  predicate DrainsMatch(s: State) {
    && (!s.force ==> forall w :: 0 <= w < |s.pc| ==> !Draining(s.pc[w]))
    && (!s.force ==> forall t :: 0 <= t < |s.place| ==> !s.place[t].Absent?)
  }

  predicate Basic(s: State) {
    && Shape(s)
    && (forall a :: 0 <= a < |s.ready| ==> QueueOk(s, a))
    && (forall t :: 0 <= t < |s.place| ==> TaskOk(s, t))
    && (forall w :: 0 <= w < |s.pc| ==> WorkerOk(s, w))
  }

  predicate Inv(s: State) {
    && Basic(s)
    && CountersMatch(s)
    && AffinityMatches(s)
    && ActiveMatches(s)
    && InsideMatches(s)
    && StopsMatch(s)
    && DrainsMatch(s)
  }

  /** All tasks added before the workers start: those without predecessors are queued, the rest wait. */
  predicate Init(s: State) {
    && Basic(s)
    && (forall w :: 0 <= w < |s.pc| ==> s.pc[w] == Idle)
    && (forall t :: 0 <= t < Tasks(s) ==>
          && s.dep[t] == |s.g.Into(t)|
          && (s.place[t].Blocked? || s.place[t].Queued?)
          && (s.place[t].Blocked? <==> s.dep[t] > 0)
          && (s.place[t].Queued? ==> s.named[t] == s.place[t].a))
    && s.active == Tasks(s)
    && s.inside == 0
    && !s.force
  }

  // ---------------------------------------------------------------------------------------------------------
  // Steps
  // ---------------------------------------------------------------------------------------------------------

  predicate Draining(pc: Pc) {
    pc.DrainCommon? || pc.DrainOwn? || pc.Discard?
  }

  /** Only worker w moves, the active worker counter follows it in and out of the pull function, it turns to
      leaving only when no task is active and to draining only after a forced termination, pending operations change
      only while it polls or runs a task, and it queues tasks only where their affinity says. */
  predicate MovesOnly(s: State, r: State, w: nat) {
    && w < |s.pc|
    && |r.pc| == |s.pc| && r.pc == s.pc[w := r.pc[w]]
    && r.g == s.g && |r.place| == |s.place| && |r.named| == |s.named| && r.force == s.force
    && r.inside == s.inside + (if Inside(r.pc[w]) then 1 else 0) - (if Inside(s.pc[w]) then 1 else 0)
    && (Leaving(r.pc[w]) && !Leaving(s.pc[w]) ==> r.active == s.active == 0)
    && (Draining(r.pc[w]) ==> Draining(s.pc[w]) || s.force)
    && (!s.pc[w].Polling? && !s.pc[w].Running? ==> r.pending == s.pending)
    && (r.pc[w].LeaveWith? ==> s.pc[w].Polling?)
    && (r.pc[w].Running? ==> s.pc[w].LeaveWith?)
    && forall t :: 0 <= t < |s.place| && t < |s.affinity| && r.place[t].Queued? ==>
         r.place[t] == s.place[t] || r.place[t].a == QueueOf(s, t)
  }

  function Goto(s: State, w: nat, pc: Pc): State
    requires w < |s.pc|
  {
    s.(pc := s.pc[w := pc])
  }

  function Put(s: State, t: nat, p: Place): State
    requires t < |s.place|
  {
    s.(place := s.place[t := p])
  }

  /** The index of the queue that task t's affinity names: negative stands for the common queue. */
  function QueueOf(s: State, t: nat): nat
    requires t < |s.affinity|
  {
    if s.affinity[t] >= 0 then s.affinity[t] else Common(s)
  }

  /** A task whose in-counter is positive is left alone; another goes to the queue its affinity names. */
  function ResumeTask(s: State, t: nat): State
    requires t < |s.dep| == |s.place| == |s.affinity| == |s.named| && |s.ready| == |s.pc| + 1
    requires s.dep[t] > 0 || s.affinity[t] < |s.pc|
  {
    if s.dep[t] > 0 then s
    else
      var a := QueueOf(s, t);
      Put(s, t, Queued(a)).(ready := s.ready[a := s.ready[a] + [t]], named := s.named[t := a])
  }

  /** Pops the oldest task of queue a. */
  function Take(s: State, w: nat, a: nat, pc: Pc): State
    requires w < |s.pc| && a < |s.ready| && s.ready[a] != [] && s.ready[a][0] < |s.place|
  {
    Put(Goto(s, w, pc), s.ready[a][0], OnWorker(w)).(ready := s.ready[a := s.ready[a][1..]])
  }

  function Enter(s: State, w: nat): (r: State)
    requires w < |s.pc| && s.pc[w].Idle?
    ensures MovesOnly(s, r, w)
  {
    Goto(s, w, if s.force then DrainCommon else PopOwn).(inside := s.inside + 1)
  }

  function DrainStep(s: State, w: nat): (r: State)
    requires Basic(s) && w < |s.pc| && (s.pc[w].DrainCommon? || s.pc[w].DrainOwn?)
    ensures MovesOnly(s, r, w)
  {
    assert QueueOk(s, w) && QueueOk(s, Common(s));
    var a := if s.pc[w].DrainCommon? then Common(s) else w;
    if s.ready[a] == [] then Goto(s, w, if s.pc[w].DrainCommon? then DrainOwn else PopOwn)
    else Take(s, w, a, Discard(s.ready[a][0], s.pc[w].DrainCommon?))
  }

  function DiscardStep(s: State, w: nat): (r: State)
    requires Basic(s) && w < |s.pc| && s.pc[w].Discard?
    ensures MovesOnly(s, r, w)
  {
    assert WorkerOk(s, w);
    var pc := s.pc[w];
    Put(Goto(s, w, if pc.common then DrainCommon else DrainOwn), pc.t, Absent).(active := s.active - 1)
  }

  function PopStep(s: State, w: nat): (r: State)
    requires Basic(s) && w < |s.pc| && (s.pc[w].PopOwn? || s.pc[w].PopCommon?)
    ensures MovesOnly(s, r, w)
  {
    assert QueueOk(s, w) && QueueOk(s, Common(s));
    var a := if s.pc[w].PopOwn? then w else Common(s);
    if s.ready[a] == [] then Goto(s, w, if s.pc[w].PopOwn? then PopCommon else NoTask)
    else Take(s, w, a, Polling(s.ready[a][0]))
  }

  /** Polls the first pending operation: satisfied ones are removed, the first that is not sends the task back. */
  function PollStep(s: State, w: nat, ok: bool): (r: State)
    requires Basic(s) && w < |s.pc| && s.pc[w].Polling?
    ensures MovesOnly(s, r, w)
  {
    assert WorkerOk(s, w);
    var t := s.pc[w].t;
    if s.pending[t] == [] then Goto(s, w, LeaveWith(t))
    else if ok then s.(pending := s.pending[t := s.pending[t][1..]])
    else Goto(s, w, Requeue(t))
  }

  function RequeueStep(s: State, w: nat): (r: State)
    requires Basic(s) && w < |s.pc| && s.pc[w].Requeue?
    ensures MovesOnly(s, r, w)
  {
    assert WorkerOk(s, w);
    Goto(ResumeTask(s, s.pc[w].t), w, NoTask)
  }

  function LeaveWithStep(s: State, w: nat): (r: State)
    requires w < |s.pc| && s.pc[w].LeaveWith?
    ensures MovesOnly(s, r, w)
  {
    Goto(s, w, Running(s.pc[w].t)).(inside := s.inside - 1)
  }

  function SuspensionStep(s: State, w: nat, expired: bool): (r: State)
    requires w < |s.pc| && s.pc[w].NoTask?
    ensures MovesOnly(s, r, w)
  {
    Goto(s, w, CheckTermination(expired && s.inside > s.minimum))
  }

  function TerminationStep(s: State, w: nat): (r: State)
    requires w < |s.pc| && s.pc[w].CheckTermination?
    ensures MovesOnly(s, r, w)
  {
    Goto(s, w, LeaveEmpty(s.pc[w].sleep, s.finishOnLast && s.active == 0))
  }

  function LeaveEmptyStep(s: State, w: nat): (r: State)
    requires w < |s.pc| && s.pc[w].LeaveEmpty?
    ensures MovesOnly(s, r, w)
  {
    Goto(s, w, if s.pc[w].stop then Stopped else if s.pc[w].sleep then Asleep else Idle).(inside := s.inside - 1)
  }

  function BodyStep(s: State, w: nat, suspends: bool, ops: seq<nat>): (r: State)
    requires Basic(s) && w < |s.pc| && s.pc[w].Running?
    ensures MovesOnly(s, r, w)
  {
    assert WorkerOk(s, w);
    var t := s.pc[w].t;
    if suspends then Goto(s, w, Yielded(t)).(pending := s.pending[t := s.pending[t] + ops])
    else Goto(s, w, Releasing(t, 0))
  }

  function SuspendCallbackStep(s: State, w: nat): (r: State)
    requires Basic(s) && w < |s.pc| && s.pc[w].Yielded?
    ensures MovesOnly(s, r, w)
  {
    assert WorkerOk(s, w);
    Goto(ResumeTask(s, s.pc[w].t), w, Idle)
  }

  /** One decrement of the finish callback; whoever sees zero pushes the dependent next. */
  function ReleaseStep(s: State, w: nat): (r: State)
    requires Basic(s) && w < |s.pc| && s.pc[w].Releasing?
    ensures MovesOnly(s, r, w)
  {
    assert WorkerOk(s, w);
    var t, k := s.pc[w].t, s.pc[w].k;
    if k == |s.g.out[t]| then Goto(s, w, Decount(t))
    else
      var d := s.g.out[t][k];
      var s1 := s.(dep := s.dep[d := s.dep[d] - 1]);
      if s1.dep[d] == 0 then Put(Goto(s1, w, Pushing(t, k)), d, Woken(w))
      else Goto(s1, w, Releasing(t, k + 1))
  }

  function PushStep(s: State, w: nat): (r: State)
    requires Basic(s) && w < |s.pc| && s.pc[w].Pushing?
    ensures MovesOnly(s, r, w)
  {
    assert WorkerOk(s, w);
    var t, k := s.pc[w].t, s.pc[w].k;
    Goto(ResumeTask(s, s.g.out[t][k]), w, Releasing(t, k + 1))
  }

  function DecountStep(s: State, w: nat): (r: State)
    requires Basic(s) && w < |s.pc| && s.pc[w].Decount?
    ensures MovesOnly(s, r, w)
  {
    assert WorkerOk(s, w);
    Put(Goto(s, w, Idle), s.pc[w].t, Finished).(active := s.active - 1)
  }

  predicate Enabled(s: State, l: Label)
    requires Shape(s)
  {
    match l
    case Act(w, c) =>
      w < |s.pc| && !s.pc[w].Stopped? && (s.pc[w].Asleep? ==> c.asked || ResumeCheck(s, w))
    case ForceTermination => true
    case SetAffinity(t, a) => t < Tasks(s) && a < |s.pc|
  }

  function WorkerStep(s: State, w: nat, c: Choice): (r: State)
    requires Basic(s) && Enabled(s, Act(w, c))
    ensures MovesOnly(s, r, w)
  {
    match s.pc[w]
    case Idle => Enter(s, w)
    case DrainCommon => DrainStep(s, w)
    case DrainOwn => DrainStep(s, w)
    case Discard(_, _) => DiscardStep(s, w)
    case PopOwn => PopStep(s, w)
    case PopCommon => PopStep(s, w)
    case Polling(_) => PollStep(s, w, c.ok)
    case Requeue(_) => RequeueStep(s, w)
    case LeaveWith(_) => LeaveWithStep(s, w)
    case NoTask => SuspensionStep(s, w, c.expired)
    case CheckTermination(_) => TerminationStep(s, w)
    case LeaveEmpty(_, _) => LeaveEmptyStep(s, w)
    case Running(_) => BodyStep(s, w, c.suspends, c.ops)
    case Yielded(_) => SuspendCallbackStep(s, w)
    case Releasing(_, _) => ReleaseStep(s, w)
    case Pushing(_, _) => PushStep(s, w)
    case Decount(_) => DecountStep(s, w)
    case Asleep => Goto(s, w, Idle)
    case Stopped => s
  }

  function Apply(s: State, l: Label): State
    requires Basic(s) && Enabled(s, l)
  {
    match l
    case Act(w, c) => WorkerStep(s, w, c)
    case ForceTermination => s.(force := true)
    case SetAffinity(t, a) => s.(affinity := s.affinity[t := a])
  }

  ghost predicate Step(s: State, s': State) {
    Basic(s) && exists l :: Enabled(s, l) && s' == Apply(s, l)
  }

  ghost predicate StepAt(tr: seq<State>, i: nat)
    requires i + 1 < |tr|
  {
    Step(tr[i], tr[i + 1])
  }

  /** A run: consecutive states are related by steps, starting where all tasks have been added. */
  ghost predicate IsRun(tr: seq<State>) {
    && |tr| > 0
    && Init(tr[0])
    && forall i :: 0 <= i < |tr| - 1 ==> StepAt(tr, i)
  }
}
