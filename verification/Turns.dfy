/**
Taking turns in the ready queues, for affinities that do not change. A task whose polls will succeed is popped in its turn,
however many tasks that wait in vain go round in the queues, unless it is in the common queue and every worker is occupied
with tasks of its own.
*/
module Turns {
  import opened Scheduler
  import opened SchedulerInvariant
  import opened SchedulerTheorems
  import opened SchedulerAccounting
  import opened SchedulerPolling
  import opened SchedulerFairness

  // ---------------------------------------------------------------------------------------------------------
  // Affinities that do not change
  // ---------------------------------------------------------------------------------------------------------

  predicate AllCommon(s: State) { forall t :: 0 <= t < |s.affinity| ==> s.affinity[t] < 0 }

  predicate AllOwn(s: State) { forall t :: 0 <= t < |s.affinity| ==> s.affinity[t] >= 0 }

  /** Some task has worker w as its affinity. */
  predicate IsNamed(s: State, w: nat) { exists t :: 0 <= t < |s.affinity| && s.affinity[t] == w }

  function NamedWorkers(s: State): set<nat> { set w: nat | w < |s.pc| && IsNamed(s, w) }

  /** When the workers that no affinity names are all asleep, they may wake up: the workers are at most one more than the minimum
      that look for tasks, or those that affinities name are no more than this minimum. */
  predicate Awake(s: State) { |s.pc| <= s.minimum + 1 || |NamedWorkers(s)| <= s.minimum }

  /** The queue to which a task was pushed last is the one that its affinity names. */
  predicate AtHome(s: State, t: nat)
    requires t < |s.place| == |s.affinity| == |s.named|
  {
    s.place[t].Queued? || s.place[t].OnWorker? ==> s.named[t] == QueueOf(s, t)
  }

  predicate Orderly(s: State) {
    |s.place| == |s.affinity| == |s.named| && forall t :: 0 <= t < |s.place| ==> AtHome(s, t)
  }

  /** All tasks are added and wait in the queues that their affinities name. */
  lemma InitOrderly(s: State)
    requires Init(s) && forall t :: 0 <= t < |s.place| && s.place[t].Queued? ==> s.named[t] == QueueOf(s, t)
    ensures Orderly(s)
  {
    forall t | 0 <= t < |s.place| ensures !s.place[t].OnWorker? { assert s.place[t].Blocked? || s.place[t].Queued?; }
  }

  lemma AffinityStays(s: State, w: nat, c: Choice)
    requires Basic(s) && Enabled(s, Act(w, c))
    ensures var s' := WorkerStep(s, w, c);
      s'.affinity == s.affinity && s'.finishOnLast == s.finishOnLast && s'.minimum == s.minimum
  {
    assert WorkerOk(s, w);
    if s.pc[w].Releasing? || s.pc[w].Pushing? || s.pc[w].Requeue? || s.pc[w].Yielded? { HandoverAffinity(s, w, c); }
  }

  lemma HandoverAffinity(s: State, w: nat, c: Choice)
    requires Basic(s) && Enabled(s, Act(w, c))
    requires s.pc[w].Releasing? || s.pc[w].Pushing? || s.pc[w].Requeue? || s.pc[w].Yielded?
    ensures var s' := WorkerStep(s, w, c);
      s'.affinity == s.affinity && s'.finishOnLast == s.finishOnLast && s'.minimum == s.minimum
  {
    assert WorkerOk(s, w);
  }

  lemma SettingStays(s: State, w: nat, c: Choice)
    requires Basic(s) && Enabled(s, Act(w, c))
    ensures AllOwn(s) ==> AllOwn(WorkerStep(s, w, c))
    ensures Awake(s) ==> Awake(WorkerStep(s, w, c))
  {
    AffinityStays(s, w, c);
    assert NamedWorkers(WorkerStep(s, w, c)) == NamedWorkers(s);
  }

  /** A task comes to a worker only from a queue, with the name of that queue. */
  predicate Comes(s: State, s': State, w: nat, t: nat)
    requires t < |s.place| == |s'.place| == |s.named| == |s'.named| && w < |s.pc|
  {
    s'.place[t].OnWorker? ==>
      && s'.named[t] == s.named[t]
      && (s.place[t] == s'.place[t]
          || (s'.place[t].w == w && s.place[t].Queued? && (s.place[t].a == w || s.pc[w].PopCommon? || Draining(s.pc[w]))))
  }

  lemma QueueComes(s: State, w: nat, c: Choice, t: nat)
    requires Basic(s) && Enabled(s, Act(w, c)) && t < |s.place|
    requires s.pc[w].PopOwn? || s.pc[w].PopCommon? || s.pc[w].DrainOwn? || s.pc[w].DrainCommon?
    ensures Comes(s, WorkerStep(s, w, c), w, t)
  {
    assert QueueOk(s, w) && QueueOk(s, Common(s));
  }

  lemma HandoverComes(s: State, w: nat, c: Choice, t: nat)
    requires Basic(s) && Enabled(s, Act(w, c)) && t < |s.place|
    requires s.pc[w].Releasing? || s.pc[w].Pushing? || s.pc[w].Requeue? || s.pc[w].Yielded? || s.pc[w].Discard? || s.pc[w].Decount?
    ensures Comes(s, WorkerStep(s, w, c), w, t)
  {
    assert WorkerOk(s, w);
  }

  lemma StepComes(s: State, w: nat, c: Choice, t: nat)
    requires Basic(s) && Enabled(s, Act(w, c)) && t < |s.place|
    ensures Comes(s, WorkerStep(s, w, c), w, t)
  {
    var pc := s.pc[w];
    if pc.PopOwn? || pc.PopCommon? || pc.DrainOwn? || pc.DrainCommon? { QueueComes(s, w, c, t); }
    else if MovesNoTask(pc) && !pc.Releasing? { PlainMoves(s, w, c); }
    else { HandoverComes(s, w, c, t); }
  }

  lemma HomeStep(s: State, w: nat, c: Choice, t: nat)
    requires Inv(s) && Orderly(s) && Enabled(s, Act(w, c)) && t < |s.place|
    ensures var s' := WorkerStep(s, w, c); |s'.place| == |s'.affinity| == |s'.named| == |s.place| && AtHome(s', t)
  {
    var s' := WorkerStep(s, w, c);
    StepInv(s, Act(w, c));
    AffinityStays(s, w, c);
    StepComes(s, w, c, t);
    assert AffinityOk(s, t) && AffinityOk(s', t) && AtHome(s, t);
  }

  lemma OrderlyStep(s: State, w: nat, c: Choice)
    requires Inv(s) && Orderly(s) && Enabled(s, Act(w, c))
    ensures Orderly(WorkerStep(s, w, c))
  {
    var s' := WorkerStep(s, w, c);
    StepInv(s, Act(w, c));
    forall t | 0 <= t < |s.place| ensures |s'.place| == |s'.affinity| == |s'.named| == |s.place| && AtHome(s', t) { HomeStep(s, w, c, t); }
  }

  // ---------------------------------------------------------------------------------------------------------
  // Steps that advance no task
  // ---------------------------------------------------------------------------------------------------------

  /** The step advances a task: one in a body, in the finish callback, or of a poll that succeeds. */
  predicate Advances(s: State, w: nat, c: Choice) {
    && w < |s.pc|
    && match s.pc[w]
       case Running(_) => true
       case Releasing(_, _) => true
       case Pushing(_, _) => true
       case Decount(_) => true
       case Polling(t) => t < |s.pending| && s.pending[t] != [] && c.ok
       case _ => false
  }

  predicate Quiet(s: State, s': State, w: nat, c: Choice) {
    Inv(s) && !s.force && Enabled(s, Act(w, c)) && s' == WorkerStep(s, w, c) && !Advances(s, w, c)
  }

  lemma QuietFrame(s: State, s': State, w: nat, c: Choice)
    requires Quiet(s, s', w, c)
    ensures Inv(s') && !s'.force && s'.active == s.active && |s'.pc| == |s.pc| && |s'.place| == |s.place|
    ensures s'.pending == s.pending && s'.pc == s.pc[w := s'.pc[w]] && s'.affinity == s.affinity && s'.minimum == s.minimum
  {
    StepInv(s, Act(w, c));
    assert !Draining(s.pc[w]);
    WorkerStepActive(s, w, c);
    AffinityStays(s, w, c);
    forall t | 0 <= t < |s.pending| ensures |s'.pending| == |s.pending| && s'.pending[t] == s.pending[t] { PendingStep(s, w, c, t); }
    if s.pc[w].Polling? { assert WorkerOk(s, w); }
  }

  lemma CounterStays(s: State, w: nat, c: Choice)
    requires Basic(s) && Enabled(s, Act(w, c)) && !s.pc[w].Releasing?
    ensures WorkerStep(s, w, c).dep == s.dep
  {
    assert WorkerOk(s, w);
  }

  /** A quiet step leaves every task in its stage. */
  lemma SameStage(s: State, s': State, w: nat, c: Choice, t: nat)
    requires Quiet(s, s', w, c) && t < |s.place|
    ensures t < |s'.place| && Stage(s', t) == Stage(s, t)
  {
    QuietFrame(s, s', w, c);
    StepAges(s, Act(w, c), t);
    CounterStays(s, w, c);
    assert TaskOk(s, t) && CounterOk(s, t) && CounterOk(s', t);
    match s.place[t]
    case OnWorker(v) => if v != w { OthersStay(s, w, c, t); }
    case Woken(v) => assert WorkerOk(s', v);
    case _ =>
  }

  // ---------------------------------------------------------------------------------------------------------
  // Distances
  // ---------------------------------------------------------------------------------------------------------

  /** How many of its own steps a worker is at most from popping its own queue (`own`), or the common one, or advancing a task. */
  function Away(pc: Pc, own: bool): nat {
    match pc
    case PopOwn => 1
    case LeaveWith(_) => 1
    case Idle => 2
    case Yielded(_) => 3
    case Asleep => 3
    case LeaveEmpty(_, _) => 4
    case CheckTermination(_) => 5
    case NoTask => 6
    case Requeue(_) => 7
    case Polling(_) => 8
    case PopCommon => if own then 9 else 0
    case _ => 0
  }

  /** The distances of those among the first n workers that look at the common queue. */
  function AwayOf(s: State, n: nat): nat
    decreases n
  {
    if n == 0 then 0 else AwayOf(s, n - 1) + if n <= |s.pc| && Open(s, n - 1) then Away(s.pc[n - 1], false) else 0
  }

  lemma {:induction false} AwayBounded(s: State, n: nat)
    ensures AwayOf(s, n) <= 8 * n
    decreases n
  {
    if n > 0 { AwayBounded(s, n - 1); }
  }

  lemma {:induction false} AwayStep(s: State, s': State, w: nat, n: nat)
    requires w < |s.pc| == |s'.pc| && s'.pc == s.pc[w := s'.pc[w]] && forall v: nat :: Open(s', v) <==> Open(s, v)
    ensures AwayOf(s', n) == AwayOf(s, n) + if w < n && Open(s, w) then Away(s'.pc[w], false) - Away(s.pc[w], false) else 0
    decreases n
  {
    if n > 0 { AwayStep(s, s', w, n - 1); }
  }

  /** The position of t in the queue, or its length. */
  function Position(q: seq<nat>, t: nat): nat
    ensures Position(q, t) <= |q| && (t in q ==> Position(q, t) < |q| && q[Position(q, t)] == t)
    decreases |q|
  {
    if q == [] || q[0] == t then 0 else 1 + Position(q[1..], t)
  }

  lemma {:induction false} PositionBefore(q: seq<nat>, t: nat, more: seq<nat>)
    requires t in q
    ensures Position(q + more, t) == Position(q, t)
    decreases |q|
  {
    if q[0] != t {
      assert (q + more)[1..] == q[1..] + more;
      PositionBefore(q[1..], t, more);
    }
  }

  /** A queue that loses its oldest task, or gets more behind its last. */
  lemma NearerInQueue(q: seq<nat>, q': seq<nat>, t: nat)
    requires t in q
    ensures q != [] && q' == q[1..] && q[0] != t ==> t in q' && Position(q', t) + 1 == Position(q, t)
    ensures q <= q' ==> t in q' && Position(q', t) == Position(q, t)
  {
    if q <= q' {
      assert q' == q + q'[|q|..];
      PositionBefore(q, t, q'[|q|..]);
    }
    assert q == [q[0]] + q[1..];
  }

  lemma QueueBounded(s: State, a: nat)
    requires Basic(s) && a < |s.ready|
    ensures |s.ready[a]| <= |s.place|
  {
    assert QueueOk(s, a);
    DistinctSize(s.ready[a]);
    NumbersBelow(Elements(s.ready[a]), |s.place|);
  }

  lemma {:induction false} NumbersBelow(a: set<nat>, n: nat)
    requires forall t :: t in a ==> t < n
    ensures |a| <= n
    decreases n
  {
    if n > 0 {
      NumbersBelow(a - {n - 1}, n - 1);
      assert a <= (a - {n - 1}) + {n - 1};
      assert |a| <= |a - {n - 1}| + 1;
    } else {
      assert a == {};
    }
  }

  // ---------------------------------------------------------------------------------------------------------
  // Workers occupied with their own tasks
  // ---------------------------------------------------------------------------------------------------------

  /** A task of worker w is queued or held, before the end of its body. */
  predicate Occupies(s: State, w: nat, t: nat) { t < |s.place| && t < |s.affinity| && s.affinity[t] == w && Stage(s, t) == 2 }

  predicate Open(s: State, w: nat) { forall t :: 0 <= t < |s.place| ==> !Occupies(s, w, t) }

  predicate SomeoneOpen(s: State) { exists w :: 0 <= w < |s.pc| && Open(s, w) }

  /** Without affinities no worker is occupied, and all of them may sleep. */
  lemma CommonIsOpen(s: State)
    requires AllCommon(s) && |s.pc| > 0
    ensures Awake(s) && SomeoneOpen(s)
  {
    assert NamedWorkers(s) == {};
    assert Open(s, 0);
  }

  lemma SameOpen(s: State, s': State, w: nat, c: Choice, v: nat)
    requires Quiet(s, s', w, c)
    ensures Open(s', v) <==> Open(s, v)
  {
    QuietFrame(s, s', w, c);
    forall t | 0 <= t < |s.place| ensures Occupies(s', v, t) <==> Occupies(s, v, t) { SameStage(s, s', w, c, t); }
  }

  /** A worker that finds its own queue empty, and holds no task, is not occupied. */
  lemma EmptyIsOpen(s: State, w: nat)
    requires Inv(s) && !s.force && Orderly(s) && w < |s.pc| && s.ready[w] == [] && !HoldsSome(s.pc[w])
    ensures Open(s, w)
  {
    forall t | 0 <= t < |s.place| ensures !Occupies(s, w, t) { assert AtHome(s, t) && AffinityOk(s, t) && TaskOk(s, t); }
  }

  lemma OpenIsEmpty(s: State, w: nat)
    requires Inv(s) && Orderly(s) && Open(s, w) && w < |s.pc|
    ensures s.ready[w] == []
  {
    if s.ready[w] != [] {
      var t := s.ready[w][0];
      InQueue(s, w, t);
      assert AtHome(s, t) && AffinityOk(s, t) && Occupies(s, w, t);
    }
  }

  lemma InQueue(s: State, a: nat, t: nat)
    requires Basic(s) && a < |s.ready| && t in s.ready[a]
    ensures t < |s.place| && s.place[t] == Queued(a)
  {
    assert QueueOk(s, a);
  }

  /** Workers about to pop the common queue although they are occupied: a task came to them after they saw their own queue
      empty. */
  function Late(s: State): set<nat> { set w: nat | w < |s.pc| && s.pc[w].PopCommon? && !Open(s, w) }

  lemma FewerLate(s: State, s': State, w: nat, c: Choice)
    requires Quiet(s, s', w, c) && Orderly(s)
    ensures Late(s') <= Late(s) && w !in Late(s')
  {
    QuietFrame(s, s', w, c);
    forall v | v in Late(s') + {w} ensures v != w ==> v in Late(s) { SameOpen(s, s', w, c, v); }
    if s'.pc[w].PopCommon? {
      ComesToCommon(s, w, c);
      EmptyIsOpen(s, w);
      SameOpen(s, s', w, c, w);
    }
  }

  /** How a worker comes to look at the common queue. */
  lemma ComesToCommon(s: State, w: nat, c: Choice)
    requires Basic(s) && Enabled(s, Act(w, c)) && WorkerStep(s, w, c).pc[w].PopCommon?
    ensures s.pc[w].PopOwn? && s.ready[w] == []
  {
    assert WorkerOk(s, w);
  }

  // ---------------------------------------------------------------------------------------------------------
  // A task on its way
  // ---------------------------------------------------------------------------------------------------------

  /** Task t is queued, or held before the end of its body; for the common queue there is a worker that is not occupied. */
  predicate OnItsWay(s: State, t: nat) {
    && t < |s.place| && t < |s.affinity| && |s.ready| == |s.pc| + 1 && s.active > 0
    && match s.place[t]
       case Queued(a) => a < |s.ready| && t in s.ready[a] && (a == Common(s) ==> SomeoneOpen(s))
       case OnWorker(v) =>
         && v < |s.pc| && Holds(s.pc[v], t) && !Ends(s.pc[v]) && !s.pc[v].Discard?
         && (s.pc[v].Requeue? || s.pc[v].Yielded? ==> s.affinity[t] >= 0 || SomeoneOpen(s))
       case _ => false
  }

  predicate AllOpenAsleep(s: State) { forall w :: 0 <= w < |s.pc| && Open(s, w) ==> s.pc[w].Asleep? }

  /** Those whose steps bring task t nearer. */
  predicate Carries(s: State, t: nat, u: int) {
    t < |s.place| && match s.place[t]
      case Queued(a) =>
        if a == Common(s)
        then 0 <= u < |s.pc| && (s.pc[u].PopCommon? || (Open(s, u) && (s.pc[u].Asleep? ==> AllOpenAsleep(s))))
        else u == a
      case OnWorker(v) => u == v
      case _ => false
  }

  /** How far task t is from its next step, in steps of those who carry it. */
  function Far(s: State, t: nat): nat {
    if !OnItsWay(s, t) then 0
    else match s.place[t]
      case Queued(a) =>
        3 + 9 * (Position(s.ready[a], t) + 1) + (if a == Common(s) then AwayOf(s, |s.pc|) else Away(s.pc[a], true))
      case OnWorker(v) =>
        (match s.pc[v]
         case Polling(_) => 2
         case LeaveWith(_) => 1
         case Requeue(_) => Longest(s)
         case Yielded(_) => Longest(s)
         case _ => 0)
      case _ => 0
  }

  /** More than the distance of any queued task. */
  function Longest(s: State): nat { 13 + 9 * (|s.place| + 1) + 8 * |s.pc| }

  lemma FarBounded(s: State, t: nat)
    requires Basic(s)
    ensures Far(s, t) <= Longest(s)
    ensures OnItsWay(s, t) && s.place[t].Queued? ==> Far(s, t) < Longest(s)
  {
    if OnItsWay(s, t) && s.place[t].Queued? {
      QueueBounded(s, s.place[t].a);
      AwayBounded(s, |s.pc|);
    }
  }

  /** A quiet step pops the oldest task of a queue, or leaves the queues as they are but for tasks pushed to their ends, and
      brings the worker nearer to popping. */
  lemma QuietPops(s: State, s': State, u: nat, c: Choice)
    requires Quiet(s, s', u, c) && s.active > 0
    ensures u < |s.pc| && |s'.ready| == |s.ready| == |s.pc| + 1
    ensures s.pc[u].PopOwn? && s.ready[u] != [] ==>
      s'.ready == s.ready[u := s.ready[u][1..]] && s'.pc[u] == Polling(s.ready[u][0])
    ensures s.pc[u].PopCommon? && s.ready[Common(s)] != [] ==>
      s'.ready == s.ready[Common(s) := s.ready[Common(s)][1..]] && s'.pc[u] == Polling(s.ready[Common(s)][0])
    ensures s.pc[u].PopOwn? && s.ready[u] == [] ==> s'.ready == s.ready && s'.pc[u] == PopCommon
    ensures s.pc[u].PopCommon? && s.ready[Common(s)] == [] ==> s'.ready == s.ready && s'.pc[u] == NoTask
  {
    StepInv(s, Act(u, c));
    assert QueueOk(s, u) && QueueOk(s, Common(s));
    if s.pc[u].PopOwn? || s.pc[u].PopCommon? { assert s' == PopStep(s, u); }
  }

  lemma QuietPushes(s: State, s': State, u: nat, c: Choice, a: nat)
    requires Quiet(s, s', u, c) && s.active > 0 && !s.pc[u].PopOwn? && !s.pc[u].PopCommon? && a < |s.ready|
    ensures u < |s'.pc| && |s'.ready| == |s.ready| && s.ready[a] <= s'.ready[a]
    ensures !s'.pc[u].PopCommon? && Away(s'.pc[u], true) < Away(s.pc[u], true) && Away(s'.pc[u], false) < Away(s.pc[u], false)
  {
    if HoldsSome(s.pc[u]) {
      HolderPushes(s, s', u, c, a);
    } else {
      assert !Leaving(s.pc[u]) && !Draining(s.pc[u]);
    }
  }

  lemma HolderPushes(s: State, s': State, u: nat, c: Choice, a: nat)
    requires Quiet(s, s', u, c) && HoldsSome(s.pc[u]) && a < |s.ready|
    ensures u < |s'.pc| && |s'.ready| == |s.ready| && s.ready[a] <= s'.ready[a]
    ensures !s'.pc[u].PopCommon? && Away(s'.pc[u], true) < Away(s.pc[u], true) && Away(s'.pc[u], false) < Away(s.pc[u], false)
  {
    assert WorkerOk(s, u) && CounterOk(s, Held(s.pc[u])) && !Draining(s.pc[u]);
  }

  /** Popped, the task is held by the worker that polls it. */
  lemma PoppedTask(s: State, s': State, u: nat, c: Choice, t: nat)
    requires Quiet(s, s', u, c) && OnItsWay(s, t) && s'.pc[u] == Polling(t) && s.place[t].Queued?
    ensures OnItsWay(s', t) && Far(s', t) < Far(s, t)
  {
    QuietFrame(s, s', u, c);
    assert WorkerOk(s', u);
  }

  lemma OwnQueueTurn(s: State, s': State, t: nat, u: nat, c: Choice)
    requires Quiet(s, s', u, c) && Orderly(s) && OnItsWay(s, t) && s.place[t].Queued? && s.place[t].a != Common(s)
    ensures OnItsWay(s', t) && Far(s', t) <= Far(s, t)
    ensures u == s.place[t].a ==> Far(s', t) < Far(s, t)
    ensures u != s.place[t].a ==> s'.place[t] == s.place[t]
  {
    var a := s.place[t].a;
    QuietFrame(s, s', u, c);
    QuietPops(s, s', u, c);
    if !s.pc[u].PopOwn? && !s.pc[u].PopCommon? { QuietPushes(s, s', u, c, a); }
    if s.pc[u].PopOwn? && u == a && s.ready[a][0] == t {
      PoppedTask(s, s', u, c, t);
    } else {
      NearerInQueue(s.ready[a], s'.ready[a], t);
      InQueue(s', a, t);
    }
  }

  /** While task t is in the common queue, the steps of those who do not look at it change nothing for it. */
  lemma CommonQueueTurn(s: State, s': State, t: nat, u: nat, c: Choice)
    requires Quiet(s, s', u, c) && Orderly(s) && OnItsWay(s, t) && s.place[t] == Queued(Common(s))
    ensures OnItsWay(s', t) && Far(s', t) <= Far(s, t)
    ensures if Open(s, u) || s.pc[u].PopCommon? then Far(s', t) < Far(s, t) else s'.place[t] == s.place[t]
  {
    QuietFrame(s, s', u, c);
    QuietPops(s, s', u, c);
    if s.pc[u].PopCommon? && s.ready[Common(s)][0] == t {
      PoppedTask(s, s', u, c, t);
    } else {
      if !s.pc[u].PopOwn? && !s.pc[u].PopCommon? { QuietPushes(s, s', u, c, Common(s)); }
      StaysInCommon(s, s', t, u, c);
    }
  }

  lemma StaysInCommon(s: State, s': State, t: nat, u: nat, c: Choice)
    requires Quiet(s, s', u, c) && Orderly(s) && OnItsWay(s, t) && s.place[t] == Queued(Common(s)) && u < |s.pc| == |s'.pc|
    requires s'.pc == s.pc[u := s'.pc[u]] && |s'.ready| == |s.ready| && Inv(s') && s'.active == s.active && s'.affinity == s.affinity
    requires var q, q' := s.ready[Common(s)], s'.ready[Common(s)];
      if s.pc[u].PopCommon? then q != [] && q' == q[1..] && s'.pc[u] == Polling(q[0]) && q[0] != t
      else q <= q' && ((s.pc[u].PopOwn? && s.ready[u] != []) || Away(s'.pc[u], false) < Away(s.pc[u], false))
    ensures OnItsWay(s', t) && Far(s', t) <= Far(s, t) && s'.place[t] == s.place[t]
    ensures Open(s, u) || s.pc[u].PopCommon? ==> Far(s', t) < Far(s, t)
  {
    NearerInQueue(s.ready[Common(s)], s'.ready[Common(s)], t);
    InQueue(s', Common(s'), t);
    forall v: nat ensures Open(s', v) <==> Open(s, v) { SameOpen(s, s', u, c, v); }
    AwayStep(s, s', u, |s.pc|);
    var w :| 0 <= w < |s.pc| && Open(s, w);
    assert Open(s', w);
    if Open(s, u) { OpenIsEmpty(s, u); }
  }

  /** A held task stays as it is while others take steps. */
  lemma OthersTurn(s: State, s': State, t: nat, u: nat, c: Choice)
    requires Quiet(s, s', u, c) && OnItsWay(s, t) && s.place[t].OnWorker? && s.place[t].w != u
    ensures OnItsWay(s', t) && Far(s', t) == Far(s, t) && s'.place[t] == s.place[t]
  {
    QuietFrame(s, s', u, c);
    OthersStay(s, u, c, t);
    if SomeoneOpen(s) { StillSomeoneOpen(s, s', u, c); }
  }

  lemma StillSomeoneOpen(s: State, s': State, u: nat, c: Choice)
    requires Quiet(s, s', u, c) && SomeoneOpen(s)
    ensures SomeoneOpen(s')
  {
    QuietFrame(s, s', u, c);
    var w :| 0 <= w < |s.pc| && Open(s, w);
    SameOpen(s, s', u, c, w);
  }

  /** The worker that holds a task polls it, or puts it back into its queue. */
  lemma HeldTurn(s: State, s': State, t: nat, u: nat, c: Choice)
    requires Quiet(s, s', u, c) && Orderly(s) && OnItsWay(s, t) && s.place[t] == OnWorker(u)
    requires s.pc[u] == Polling(t) && s.pending[t] != [] ==> c.ok
    ensures OnItsWay(s', t) && Far(s', t) < Far(s, t)
  {
    QuietFrame(s, s', u, c);
    assert WorkerOk(s, u) && Held(s.pc[u]) == t;
    if s.pc[u].Requeue? || s.pc[u].Yielded? { BackInQueue(s, s', t, u, c); }
  }

  lemma BackInQueue(s: State, s': State, t: nat, u: nat, c: Choice)
    requires Quiet(s, s', u, c) && Orderly(s) && OnItsWay(s, t) && s.place[t] == OnWorker(u)
    requires (s.pc[u] == Requeue(t) || s.pc[u] == Yielded(t)) && Inv(s') && s'.active == s.active && |s'.pc| == |s.pc| && |s'.place| == |s.place|
    ensures OnItsWay(s', t) && Far(s', t) < Far(s, t)
  {
    assert CounterOk(s, t);
    if SomeoneOpen(s) { StillSomeoneOpen(s, s', u, c); }
    assert s'.place[t] == Queued(QueueOf(s, t));
    assert s'.ready[QueueOf(s, t)][|s.ready[QueueOf(s, t)]|] == t;
    FarBounded(s', t);
  }

  /** A quiet step leaves the task on its way; one of those who carry it brings it nearer, and the others leave it where
      it is. */
  lemma TurnStep(s: State, s': State, t: nat, u: nat, c: Choice)
    requires Quiet(s, s', u, c) && Orderly(s) && OnItsWay(s, t)
    requires s.pc[u] == Polling(t) && s.pending[t] != [] ==> c.ok
    ensures OnItsWay(s', t) && Far(s', t) <= Far(s, t)
    ensures if Carries(s, t, u) then Far(s', t) < Far(s, t) else s'.place[t] == s.place[t]
  {
    match s.place[t]
    case Queued(a) => if a == Common(s) { CommonQueueTurn(s, s', t, u, c); } else { OwnQueueTurn(s, s', t, u, c); }
    case OnWorker(v) => if v == u { HeldTurn(s, s', t, u, c); } else { OthersTurn(s, s', t, u, c); }
    case _ =>
  }

  // ---------------------------------------------------------------------------------------------------------
  // Those who carry a task can go on
  // ---------------------------------------------------------------------------------------------------------

  lemma SubsetSize(a: set<nat>, b: set<nat>)
    requires a <= b
    ensures |a| <= |b|
  {
    assert b == a + (b - a);
  }

  /** While all that are not occupied sleep, few enough workers look for tasks that they may wake up. */
  lemma FewInside(s: State)
    requires Inv(s) && Awake(s) && SomeoneOpen(s) && AllOpenAsleep(s)
    ensures s.inside <= s.minimum
  {
    var w :| 0 <= w < |s.pc| && Open(s, w);
    if |s.pc| <= s.minimum + 1 {
      NumbersBelow(InsideWorkers(s) + {w}, |s.pc|);
      assert |InsideWorkers(s) + {w}| == |InsideWorkers(s)| + 1;
    } else {
      forall v | v in InsideWorkers(s) ensures v in NamedWorkers(s) {
        var t :| 0 <= t < |s.place| && Occupies(s, v, t);
        assert IsNamed(s, v);
      }
      SubsetSize(InsideWorkers(s), NamedWorkers(s));
    }
  }

  lemma NotCommon(s: State, t: nat)
    requires Inv(s) && Orderly(s) && AllOwn(s) && t < |s.place|
    ensures s.place[t] != Queued(Common(s))
  {
    assert AtHome(s, t) && AffinityOk(s, t);
  }

  /** One of those who carry the task can go on. */
  lemma CarrierCanGoOn(s: State, t: nat) returns (w: nat)
    requires Inv(s) && Orderly(s) && (AllOwn(s) || Awake(s)) && OnItsWay(s, t)
    ensures Carries(s, t, w) && CanGoOn(s, w)
  {
    if s.place[t].OnWorker? {
      w := s.place[t].w;
    } else if s.place[t] != Queued(Common(s)) {
      w := s.place[t].a;
      assert !Leaving(s.pc[w]);
    } else {
      if AllOwn(s) { NotCommon(s, t); }
      w := OpenCanGoOn(s);
    }
  }

  lemma OpenCanGoOn(s: State) returns (w: nat)
    requires Inv(s) && s.active > 0 && Awake(s) && SomeoneOpen(s)
    ensures w < |s.pc| && Open(s, w) && (s.pc[w].Asleep? ==> AllOpenAsleep(s)) && CanGoOn(s, w)
  {
    if v: nat :| v < |s.pc| && Open(s, v) && !s.pc[v].Asleep? {
      w := v;
      assert !Leaving(s.pc[w]);
    } else {
      w :| w < |s.pc| && Open(s, w);
      FewInside(s);
    }
  }

  /** A step of another leaves those who carry the task able to go on. */
  lemma CarriersStay(s: State, s': State, t: nat, u: nat, c: Choice, w: nat)
    requires Quiet(s, s', u, c) && Orderly(s) && (AllOwn(s) || Awake(s)) && OnItsWay(s, t) && !Carries(s, t, u)
    requires OnItsWay(s', t) && s'.place[t] == s.place[t]
    requires Carries(s, t, w) && CanGoOn(s, w)
    ensures Carries(s', t, w) && CanGoOn(s', w)
  {
    QuietFrame(s, s', u, c);
    assert w != u && s'.pc[w] == s.pc[w] && !Leaving(s'.pc[w]);
    if s.place[t] == Queued(Common(s)) {
      if AllOwn(s) { NotCommon(s, t); }
      CommonCarriersStay(s, s', t, u, c, w);
    }
  }

  lemma CommonCarriersStay(s: State, s': State, t: nat, u: nat, c: Choice, w: nat)
    requires Quiet(s, s', u, c) && Awake(s) && OnItsWay(s, t) && !Carries(s, t, u) && s.place[t] == Queued(Common(s))
    requires OnItsWay(s', t) && s'.place[t] == s.place[t] && Inv(s') && s'.pc == s.pc[u := s'.pc[u]] && w != u
    requires s'.affinity == s.affinity && s'.minimum == s.minimum
    requires Carries(s, t, w) && CanGoOn(s, w)
    ensures Carries(s', t, w) && CanGoOn(s', w)
  {
    forall v: nat ensures Open(s', v) <==> Open(s, v) { SameOpen(s, s', u, c, v); }
    if s.pc[w].Asleep? {
      assert AllOpenAsleep(s');
      assert NamedWorkers(s') == NamedWorkers(s);
      FewInside(s');
    }
    assert !Leaving(s'.pc[w]);
  }
}
