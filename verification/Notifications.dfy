/** What a notification of one and a notification of all do to the waiting tasks, from the call to the return, in every run. */
module Notifications {
  import opened TaskMutex
  import opened Notices
  import opened ConditionVariable

  // ---------------------------------------------------------------------------------------------------------
  // A flag that has been raised stays raised
  // ---------------------------------------------------------------------------------------------------------

  /** Only flags of waits that have begun are raised. */
  predicate RaisedOk(n: Notices, local: seq<Local>) {
    forall f :: f in n.raised ==> f.task < |local| && f.wait <= local[f.task].wait
  }

  lemma PushRaised(x: State, t: nat)
    requires CanMove(x, PushFlag(t)) && RaisedOk(x.notices, x.local)
    ensures var x' := DoMove(x, PushFlag(t)); RaisedOk(x'.notices, x'.local) && x.notices.raised <= x'.notices.raised
  {}

  lemma PollRaised(x: State, t: nat)
    requires CanMove(x, Poll(t)) && RaisedOk(x.notices, x.local)
    ensures var x' := DoMove(x, Poll(t)); RaisedOk(x'.notices, x'.local) && x.notices.raised <= x'.notices.raised
  {}

  lemma MoveRaised(x: State, m: Move)
    requires CanMove(x, m) && RaisedOk(x.notices, x.local) && QueueOk(x.notices, x.local)
    ensures var x' := DoMove(x, m); RaisedOk(x'.notices, x'.local) && x.notices.raised <= x'.notices.raised
  {
    MoveFrame(x, m);
    if m.PushFlag? { PushRaised(x, m.t); } else if m.Poll? { PollRaised(x, m.t); }
  }

  lemma {:induction false} RunRaised(tr: seq<State>, i: nat)
    requires IsRun(tr) && i < |tr|
    ensures RaisedOk(tr[i].notices, tr[i].local)
    decreases i
  {
    if i > 0 {
      RunRaised(tr, i - 1);
      var m := RunMove(tr, i - 1);
      if !Passes(tr[i - 1], tr[i]) { MoveRaised(tr[i - 1], m); }
    }
  }

  lemma {:induction false} RaisedStays(tr: seq<State>, i: nat, j: nat)
    requires IsRun(tr) && i <= j < |tr|
    ensures tr[i].notices.raised <= tr[j].notices.raised
    decreases j
  {
    if i < j {
      RaisedStays(tr, i, j - 1);
      RunRaised(tr, j - 1);
      var m := RunMove(tr, j - 1);
      if !Passes(tr[j - 1], tr[j]) { MoveRaised(tr[j - 1], m); }
    }
  }

  /** A flag leaves the queue only by being raised. */
  lemma {:induction false} QueuedIsServed(tr: seq<State>, i: nat, j: nat, f: Flag)
    requires IsRun(tr) && i <= j < |tr| && f in tr[i].notices.waiting
    ensures f in tr[j].notices.waiting || f in tr[j].notices.raised
    decreases j
  {
    if i < j {
      QueuedIsServed(tr, i, j - 1, f);
      RaisedStays(tr, j - 1, j);
      QueueSteps(tr, j - 1);
    }
  }

  // ---------------------------------------------------------------------------------------------------------
  // The steps of a notification
  // ---------------------------------------------------------------------------------------------------------

  predicate Notifies(p: Point, all: bool) {
    p == Notifying(all) || p == NotifyingQueued(all) || p == Serving(all) || p.Served?
  }

  /** Task u has called the notification in step c, and step e is its return. */
  ghost predicate NotifyCall(tr: seq<State>, c: nat, e: nat, u: nat, all: bool) {
    && c < e && e + 1 < |tr| && MovesBy(tr, c, CallNotify(u, all))
    && (forall k :: c < k <= e ==> NotOutside(tr, k, u))
    && u < |tr[e + 1].point| && tr[e + 1].point[u] == Outside
  }

  predicate NotOutside(tr: seq<State>, k: nat, u: nat)
    requires k < |tr|
  {
    u < |tr[k].point| && tr[k].point[u] != Outside
  }

  /** A step takes no flag from the queue and adds none. */
  predicate SameQueue(x: State, x': State) { x'.notices == x.notices }

  /** A step raises the oldest flag and takes it out of the queue. */
  predicate TakesOldest(x: State, x': State) {
    var q := x.notices.waiting;
    q != [] && x'.notices == Notices(q[1..], x.notices.raised + {q[0]})
  }

  /** The moves of a task in a notification: it gets the internal mutex, serves, gives the mutex back. */
  lemma NotifyMove(x: State, m: Move, u: nat, all: bool)
    requires CanMove(x, m) && u < |x.point| && m.t == u && Notifies(x.point[u], all)
    ensures var x' := DoMove(x, m);
      && u < |x'.point|
      && match x.point[u]
         case Notifying(_) => SameQueue(x, x') && (x'.point[u] == NotifyingQueued(all) || x'.point[u] == Serving(all))
         case NotifyingQueued(_) => SameQueue(x, x') && x'.point[u] == Serving(all)
         case Serving(_) =>
           if x.notices.waiting == [] then SameQueue(x, x') && x'.point[u] == Served
           else TakesOldest(x, x') && x'.point[u] == if all then Serving(all) else Served
         case _ => SameQueue(x, x') && x'.point[u] == Outside
  {}

  /** In step i task u has served its notification. */
  ghost predicate ServedAt(tr: seq<State>, i: nat, u: nat, all: bool) {
    && i + 1 < |tr| && u < |tr[i].point| && u < |tr[i + 1].point|
    && tr[i].point[u] == Serving(all) && tr[i + 1].point[u] == Served
  }

  /** One step of a task in a notification: none, or the next. */
  lemma NotifyStep(tr: seq<State>, k: nat, u: nat, all: bool)
    requires IsRun(tr) && k + 1 < |tr| && u < |tr[k].point| && Notifies(tr[k].point[u], all)
    ensures u < |tr[k + 1].point|
    ensures || tr[k + 1].point[u] == tr[k].point[u]
            || (tr[k].point[u].Served? && tr[k + 1].point[u] == Outside)
            || (Notifies(tr[k + 1].point[u], all) && !tr[k].point[u].Served? && (tr[k + 1].point[u].Served? ==> tr[k].point[u] == Serving(all)))
  {
    var m := RunMove(tr, k);
    if !Passes(tr[k], tr[k + 1]) {
      MoveFrame(tr[k], m);
      if m.t == u { NotifyMove(tr[k], m, u, all); }
    }
  }

  /** A task that has called a notification stays in it, and before it returns it has served it. */
  lemma {:induction false} InNotification(tr: seq<State>, c: nat, k: nat, u: nat, all: bool) returns (i: nat)
    requires IsRun(tr) && c < k < |tr| && MovesBy(tr, c, CallNotify(u, all)) && forall l :: c < l <= k ==> NotOutside(tr, l, u)
    ensures u < |tr[k].point| && Notifies(tr[k].point[u], all)
    ensures tr[k].point[u].Served? ==> c < i < k && ServedAt(tr, i, u, all)
    ensures tr[k].point[u].Served? ==> forall l :: i < l <= k ==> AtPoint(tr, l, u, Served)
    ensures forall l :: c < l <= (if tr[k].point[u].Served? then i else k) ==> Unserved(tr, l, u, all)
    decreases k
  {
    assert NotOutside(tr, k, u);
    if k == c + 1 {
      i := 0;
    } else {
      i := InNotification(tr, c, k - 1, u, all);
      NotifyStep(tr, k - 1, u, all);
      if tr[k].point[u].Served? && !tr[k - 1].point[u].Served? { i := k - 1; }
    }
  }

  predicate AtPoint(tr: seq<State>, k: nat, u: nat, p: Point)
    requires k < |tr|
  {
    u < |tr[k].point| && tr[k].point[u] == p
  }

  predicate Unserved(tr: seq<State>, k: nat, u: nat, all: bool)
    requires k < |tr|
  {
    u < |tr[k].point| && Notifies(tr[k].point[u], all) && !tr[k].point[u].Served?
  }

  /** Before it returns, a notification has been served: in step i, and in no step after it. */
  lemma SomeService(tr: seq<State>, c: nat, e: nat, u: nat, all: bool) returns (i: nat)
    requires IsRun(tr) && NotifyCall(tr, c, e, u, all)
    ensures c < i < e && ServedAt(tr, i, u, all)
    ensures forall l :: c < l <= i ==> Unserved(tr, l, u, all)
    ensures forall l :: i < l <= e ==> AtPoint(tr, l, u, Served)
  {
    i := InNotification(tr, c, e, u, all);
    NotifyStep(tr, e, u, all);
  }

  // ---------------------------------------------------------------------------------------------------------
  // Notifying all, notifying one
  // ---------------------------------------------------------------------------------------------------------

  /** A notification of all finds the queue empty before it returns, at i; every flag that was in the queue after the call and
      up to then has been raised. */
  lemma NotifyAllServesAll(tr: seq<State>, c: nat, e: nat, u: nat) returns (i: nat)
    requires IsRun(tr) && NotifyCall(tr, c, e, u, true)
    ensures c < i < e && tr[i].notices.waiting == [] && u < |tr[i].point| && tr[i].point[u] == Serving(true)
    ensures forall k: nat, f: Flag :: c < k <= i && f in tr[k].notices.waiting ==> f in tr[e + 1].notices.raised
  {
    i := SomeService(tr, c, e, u, true);
    var m := RunMove(tr, i);
    if m.t != u { MoveFrame(tr[i], m); }
    NotifyMove(tr[i], m, u, true);
    forall k: nat, f: Flag | c < k <= i && f in tr[k].notices.waiting ensures f in tr[e + 1].notices.raised {
      QueuedIsServed(tr, k, i, f);
      RaisedStays(tr, i, e + 1);
    }
  }

  /** A notification of one raises the oldest flag of the queue in one step, i, if there is one, and does nothing else to the flags
      from the call to the return. */
  lemma NotifyOneServesOne(tr: seq<State>, c: nat, e: nat, u: nat) returns (i: nat)
    requires IsRun(tr) && NotifyCall(tr, c, e, u, false)
    ensures c < i < e
    ensures if tr[i].notices.waiting == [] then SameQueue(tr[i], tr[i + 1]) else TakesOldest(tr[i], tr[i + 1])
    ensures forall k: nat, m: Move | c <= k <= e && k != i && m.t == u && MovesBy(tr, k, m) :: SameQueue(tr[k], tr[k + 1])
  {
    i := SomeService(tr, c, e, u, false);
    var s := RunMove(tr, i);
    if s.t != u { MoveFrame(tr[i], s); }
    NotifyMove(tr[i], s, u, false);
    forall k: nat, m: Move | c <= k <= e && k != i && m.t == u && MovesBy(tr, k, m) ensures SameQueue(tr[k], tr[k + 1]) {
      OtherStep(tr, c, e, i, k, u, m);
    }
  }

  lemma OtherStep(tr: seq<State>, c: nat, e: nat, i: nat, k: nat, u: nat, m: Move)
    requires IsRun(tr) && NotifyCall(tr, c, e, u, false) && c < i < e && c <= k <= e && k != i && m.t == u && MovesBy(tr, k, m)
    requires forall l :: c < l <= i ==> Unserved(tr, l, u, false)
    requires forall l :: i < l <= e ==> AtPoint(tr, l, u, Served)
    ensures SameQueue(tr[k], tr[k + 1])
  {
    if k == c {
      MoveFrame(tr[k], m);
    } else {
      if k < i { assert Unserved(tr, k, u, false) && Unserved(tr, k + 1, u, false); } else { assert AtPoint(tr, k, u, Served); }
      NotifyMove(tr[k], m, u, false);
    }
  }

  // ---------------------------------------------------------------------------------------------------------
  // No lost wake-up
  // ---------------------------------------------------------------------------------------------------------

  ghost predicate HasResumed(tr: seq<State>, i: nat, k: nat, t: nat)
    requires k < |tr|
  {
    exists l :: i <= l <= k && t < |tr[l].point| && Resumed(tr[l].point[t])
  }

  /** When a notification of all returns, every task that was asleep when it was called has been resumed since, or its flag is
      raised. */
  lemma NotifyAllMissesNobody(tr: seq<State>, c: nat, e: nat, u: nat, t: nat)
    requires IsRun(tr) && NotifyCall(tr, c, e, u, true) && t < |tr[c].point| && tr[c].point[t].Asleep?
    ensures t < |tr[e + 1].point| && t < |tr[e + 1].local|
    ensures (tr[e + 1].point[t].Asleep? && Raised(tr[e + 1], t)) || HasResumed(tr, c, e + 1, t)
  {
    PointsStay(tr, c, e + 1);
    SleepsOrResumes(tr, c, e + 1, t);
    if tr[e + 1].point[t].Asleep? && !HasResumed(tr, c, e + 1, t) {
      var i := NotifyAllServesAll(tr, c, e, u);
      SleepsOrResumes(tr, c, i, t);
      RunInv(tr, i);
      assert FlagOk(tr[i], t);
      SameFlag(tr, c, i, e + 1, t);
      RaisedStays(tr, i, e + 1);
    }
  }

  /** A task that sleeps on sleeps in the same wait. */
  lemma {:induction false} SameFlag(tr: seq<State>, c: nat, i: nat, k: nat, t: nat)
    requires IsRun(tr) && c <= i <= k < |tr| && t < |tr[c].point| && tr[c].point[t].Asleep? && !HasResumed(tr, c, k, t)
    ensures t < |tr[i].local| && t < |tr[k].local| && t < |tr[k].point| && tr[k].point[t].Asleep?
    ensures Mine(tr[k], t) == Mine(tr[i], t)
    decreases k
  {
    SleepsOrResumes(tr, c, k, t);
    PointsStay(tr, c, k);
    PointsStay(tr, i, k);
    if i < k {
      assert !HasResumed(tr, c, k - 1, t);
      SameFlag(tr, c, i, k - 1, t);
      var m := RunMove(tr, k - 1);
      if !Passes(tr[k - 1], tr[k]) { MoveFrame(tr[k - 1], m); }
    }
  }

  /** No lost wake-up: task u owns the condition mutex at j, where it may change the condition, and afterwards calls a notification
      of all, which has returned in step e. Every task that was in a wait at j has by then been resumed, so that it evaluates the
      predicate after the change, or its flag is raised. */
  lemma NoLostWakeup(tr: seq<State>, j: nat, c: nat, e: nat, u: nat, t: nat)
    requires IsRun(tr) && j <= c && NotifyCall(tr, c, e, u, true) && u < |tr[j].point| && t < |tr[j].point| && u != t
    requires tr[j].outer.owner == OwnedBy(u) && InWait(tr[j].point[t])
    ensures t < |tr[e + 1].point| && t < |tr[e + 1].local|
    ensures (tr[e + 1].point[t].Asleep? && Raised(tr[e + 1], t)) || HasResumed(tr, j, e + 1, t)
  {
    PointsStay(tr, j, c);
    PointsStay(tr, c, e + 1);
    NoTaskInWindow(tr, j, u, t);
    if tr[j].point[t].Asleep? {
      SleepsOrResumes(tr, j, c, t);
      if tr[c].point[t].Asleep? { NotifyAllMissesNobody(tr, c, e, u, t); }
    } else {
      assert Resumed(tr[j].point[t]);
    }
  }
}
