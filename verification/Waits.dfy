/** What the four waits of a condition variable return, and when, in every run. */
module Waits {
  import opened TaskMutex
  import opened Notices
  import opened ConditionVariable

  // ---------------------------------------------------------------------------------------------------------
  // The time a wait begins
  // ---------------------------------------------------------------------------------------------------------

  function KindOf(p: Point): Kind
    requires InWait(p)
  {
    p.kind
  }

  /** The wait has taken the time. */
  predicate Started(p: Point) {
    InWait(p) && KindOf(p).timed
    && if KindOf(p).loop then !(p.Deciding? && p.first) else p.Releasing? || p.Asleep? || Resumed(p)
  }

  /** A wait takes the time after it has been called, no poll has found its flag raised before it is resumed, and only a wait
      with predicate evaluates one. */
  predicate TimeOk(x: State, t: nat)
    requires t < |x.point| == |x.local|
  {
    InWait(x.point[t]) ==>
      && x.local[t].called <= x.now
      && (Started(x.point[t]) ==> x.local[t].called <= x.local[t].start <= x.now)
      && (x.point[t].kind.loop || !Resumed(x.point[t]) ==> !x.local[t].isNotified)
      && (x.point[t].Deciding? ==> x.point[t].kind.loop)
  }

  lemma MoveTime(x: State, m: Move)
    requires CanMove(x, m) && TimeOk(x, m.t)
    ensures m.t < |DoMove(x, m).point| == |DoMove(x, m).local| && TimeOk(DoMove(x, m), m.t)
  {
    MoveFrame(x, m);
    if x.point[m.t].Outside? || m.Relock? || m.GotOuter? { CallTime(x, m); } else { WaitTime(x, m); }
  }

  lemma CallTime(x: State, m: Move)
    requires CanMove(x, m) && TimeOk(x, m.t) && (x.point[m.t].Outside? || m.Relock? || m.GotOuter?)
    requires m.t < |DoMove(x, m).point| == |DoMove(x, m).local|
    ensures TimeOk(DoMove(x, m), m.t)
  {
    if x.point[m.t].Outside? { BeginTime(x, m); } else { EndTime(x, m); }
  }

  lemma BeginTime(x: State, m: Move)
    requires CanMove(x, m) && x.point[m.t].Outside? && m.t < |DoMove(x, m).point| == |DoMove(x, m).local|
    ensures TimeOk(DoMove(x, m), m.t)
  {}

  lemma EndTime(x: State, m: Move)
    requires CanMove(x, m) && TimeOk(x, m.t) && !x.point[m.t].Outside? && (m.Relock? || m.GotOuter?)
    requires m.t < |DoMove(x, m).point| == |DoMove(x, m).local|
    ensures TimeOk(DoMove(x, m), m.t)
  {}

  lemma WaitTime(x: State, m: Move)
    requires CanMove(x, m) && TimeOk(x, m.t) && !(x.point[m.t].Outside? || m.Relock? || m.GotOuter?)
    requires m.t < |DoMove(x, m).point| == |DoMove(x, m).local|
    ensures TimeOk(DoMove(x, m), m.t)
  {
    if m.Evaluate? || m.Poll? { ChecksTime(x, m); } else { PassesTime(x, m); }
  }

  lemma ChecksTime(x: State, m: Move)
    requires CanMove(x, m) && TimeOk(x, m.t) && (m.Evaluate? || m.Poll?)
    requires m.t < |DoMove(x, m).point| == |DoMove(x, m).local|
    ensures TimeOk(DoMove(x, m), m.t)
  {}

  lemma PassesTime(x: State, m: Move)
    requires CanMove(x, m) && TimeOk(x, m.t) && !(x.point[m.t].Outside? || m.Relock? || m.GotOuter? || m.Evaluate? || m.Poll?)
    requires m.t < |DoMove(x, m).point| == |DoMove(x, m).local|
    ensures TimeOk(DoMove(x, m), m.t)
  {}

  lemma {:induction false} RunTime(tr: seq<State>, i: nat, t: nat)
    requires IsRun(tr) && i < |tr| && t < |tr[i].point|
    ensures |tr[i].point| == |tr[i].local| && TimeOk(tr[i], t)
    decreases i
  {
    RunInv(tr, i);
    if i > 0 {
      PointsStay(tr, i - 1, i);
      RunTime(tr, i - 1, t);
      var m := RunMove(tr, i - 1);
      if !Passes(tr[i - 1], tr[i]) {
        MoveFrame(tr[i - 1], m);
        if t == m.t { MoveTime(tr[i - 1], m); }
      }
    }
  }

  lemma {:induction false} TimeGrows(tr: seq<State>, i: nat, j: nat)
    requires IsRun(tr) && i <= j < |tr|
    ensures tr[i].now <= tr[j].now
    decreases j
  {
    if i < j {
      TimeGrows(tr, i, j - 1);
      var m := RunMove(tr, j - 1);
      if !Passes(tr[j - 1], tr[j]) { MoveFrame(tr[j - 1], m); }
    }
  }

  // ---------------------------------------------------------------------------------------------------------
  // The poll that resumed a wait
  // ---------------------------------------------------------------------------------------------------------

  predicate ResumedAt(tr: seq<State>, i: nat, t: nat)
    requires i < |tr|
  {
    t < |tr[i].point| && t < |tr[i].local| && Resumed(tr[i].point[t])
  }

  /** The poll of step j has resumed task t, which since then and up to i is on its way back from its wait; its variables are what
      the poll has left. */
  ghost predicate ResumedBy(tr: seq<State>, j: nat, i: nat, t: nat) {
    && j < i < |tr| && MovesBy(tr, j, Poll(t)) && t < |tr[j + 1].local|
    && (forall l :: j < l <= i ==> ResumedAt(tr, l, t))
    && ResumedAt(tr, i, t) && tr[i].point[t].kind == tr[j].point[t].kind
    && tr[i].local[t] == tr[j + 1].local[t]
  }

  lemma ResumedStep(x: State, m: Move, t: nat)
    requires CanMove(x, m) && t < |x.point| && t < |DoMove(x, m).point| && Resumed(DoMove(x, m).point[t])
    ensures || m == Poll(t)
            || (&& t < |DoMove(x, m).local| && Resumed(x.point[t]) && DoMove(x, m).point[t].kind == x.point[t].kind
                && DoMove(x, m).local[t] == x.local[t])
  {
    if t != m.t { MoveFrame(x, m); }
  }

  lemma PollStep(x: State, t: nat)
    requires CanMove(x, Poll(t))
    ensures var x' := DoMove(x, Poll(t));
      && t < |x'.point| && t < |x'.local| && x'.point[t] == Waking(x.point[t].kind)
      && x'.local[t].start == x.local[t].start && x'.local[t].timeout == x.local[t].timeout && x'.local[t].called == x.local[t].called
      && (x.point[t].kind == Kind(true, true) ==> x'.local[t].isTimeout == Expired(x, t))
      && (!x.point[t].kind.loop && !x.local[t].isNotified ==> x'.local[t].isNotified == Raised(x, t))
  {}

  lemma StaysResumed(tr: seq<State>, j: nat, i: nat, t: nat)
    requires i > 0 && ResumedBy(tr, j, i - 1, t) && i < |tr| && ResumedAt(tr, i, t)
    requires tr[i].point[t].kind == tr[i - 1].point[t].kind && tr[i].local[t] == tr[i - 1].local[t]
    ensures ResumedBy(tr, j, i, t)
  {}

  lemma JustResumed(tr: seq<State>, j: nat, t: nat)
    requires j + 1 < |tr| && MovesBy(tr, j, Poll(t))
    ensures ResumedBy(tr, j, j + 1, t)
  {
    PollStep(tr[j], t);
  }

  /** A wait comes back only through a successful poll. */
  lemma {:induction false} SomePoll(tr: seq<State>, i: nat, t: nat) returns (j: nat)
    requires IsRun(tr) && i < |tr| && t < |tr[i].point| && Resumed(tr[i].point[t])
    ensures ResumedBy(tr, j, i, t)
    decreases i
  {
    RunInv(tr, i);
    if i > 0 {
      PointsStay(tr, i - 1, i);
      var m := RunMove(tr, i - 1);
      if MovesBy(tr, i - 1, Poll(t)) {
        j := i - 1;
        JustResumed(tr, j, t);
      } else {
        if !Passes(tr[i - 1], tr[i]) { ResumedStep(tr[i - 1], m, t); }
        j := SomePoll(tr, i - 1, t);
        StaysResumed(tr, j, i, t);
      }
    }
  }

  // ---------------------------------------------------------------------------------------------------------
  // Returning
  // ---------------------------------------------------------------------------------------------------------

  /** Step i ends the wait in which task t is. */
  ghost predicate ReturnsAt(tr: seq<State>, i: nat, t: nat) {
    && i + 1 < |tr| && t < |tr[i].point| && t < |tr[i + 1].point| && t < |tr[i].local| && t < |tr[i + 1].local|
    && InWait(tr[i].point[t]) && tr[i + 1].point[t] == Outside
  }

  lemma MoveReturns(x: State, m: Move, t: nat)
    requires CanMove(x, m) && t < |x.point| && OuterOk(x, t) && InWait(x.point[t])
    requires t < |DoMove(x, m).point| && DoMove(x, m).point[t] == Outside
    ensures var x', p := DoMove(x, m), x.point[t];
      && m.t == t && x'.outer.owner == OwnedBy(t) && t < |x'.local|
      && (if p.Deciding? then x.outer.owner == OwnedBy(t) && x.condition && x'.condition
          else Resumed(p) && (p.kind.loop ==> p.kind.timed && x.local[t].isTimeout))
      && x'.local[t] == x.local[t].(result :=
           if !KindOf(p).timed then Done else if p.Deciding? then Returned(true)
           else Returned(!p.kind.loop && x.local[t].isNotified))
  {
    if t != m.t { MoveFrame(x, m); }
  }

  lemma RunReturns(tr: seq<State>, i: nat, t: nat) returns (m: Move)
    requires IsRun(tr) && ReturnsAt(tr, i, t)
    ensures MovesBy(tr, i, m) && OuterOk(tr[i], t) && m.t == t
    ensures tr[i + 1].outer.owner == OwnedBy(t)
  {
    m := RunMove(tr, i);
    assert OuterOk(tr[i], t);
    MoveReturns(tr[i], m, t);
  }

  /** Every wait returns only to the owner of the condition mutex; an untimed one with predicate, only when its task has just
      evaluated the predicate to true under that mutex, and one without, only after a poll has seen its flag raised. */
  lemma WaitReturns(tr: seq<State>, i: nat, t: nat)
    requires IsRun(tr) && ReturnsAt(tr, i, t)
    ensures tr[i + 1].outer.owner == OwnedBy(t)
    ensures !KindOf(tr[i].point[t]).timed ==>
      && tr[i + 1].local[t].result == Done
      && if KindOf(tr[i].point[t]).loop
         then tr[i].point[t].Deciding? && tr[i].outer.owner == OwnedBy(t) && tr[i].condition
         else exists j: nat :: ResumedBy(tr, j, i, t) && Raised(tr[j], t)
  {
    var m := RunReturns(tr, i, t);
    MoveReturns(tr[i], m, t);
    RunTime(tr, i, t);
    if !KindOf(tr[i].point[t]).timed && !KindOf(tr[i].point[t]).loop {
      var j := SomePoll(tr, i, t);
      assert Raised(tr[j], t);
    }
  }

  /** The timed wait with predicate returns true only when its task has just evaluated the predicate to true under the condition
      mutex, and false only after the poll that resumed it has found its time over: then more than the timeout has passed since
      the call. There is no third way to return. */
  lemma TimedWaitWithPredicate(tr: seq<State>, i: nat, t: nat)
    requires IsRun(tr) && ReturnsAt(tr, i, t) && KindOf(tr[i].point[t]) == Kind(true, true)
    ensures tr[i + 1].outer.owner == OwnedBy(t)
    ensures tr[i + 1].local[t].result == Returned(tr[i].point[t].Deciding?)
    ensures tr[i].point[t].Deciding? ==> tr[i].outer.owner == OwnedBy(t) && tr[i].condition
    ensures !tr[i].point[t].Deciding? ==>
      && (exists j: nat :: ResumedBy(tr, j, i, t) && Expired(tr[j], t))
      && tr[i + 1].now > tr[i].local[t].called + 1000 * tr[i].local[t].timeout
  {
    var m := RunReturns(tr, i, t);
    MoveReturns(tr[i], m, t);
    if !tr[i].point[t].Deciding? {
      var j := SomePoll(tr, i, t);
      PollStep(tr[j], t);
      assert Expired(tr[j], t);
      TimeOver(tr, j, i, t);
    }
  }

  lemma TimeOver(tr: seq<State>, j: nat, i: nat, t: nat)
    requires IsRun(tr) && i + 1 < |tr| && ResumedBy(tr, j, i, t) && tr[j].point[t].kind.timed && Expired(tr[j], t)
    ensures tr[i + 1].now > tr[i].local[t].called + 1000 * tr[i].local[t].timeout
  {
    PollStep(tr[j], t);
    RunTime(tr, j, t);
    TimeGrows(tr, j, i + 1);
  }

  /** A timed wait with predicate evaluates it again only if the poll that resumed it found its time not over. */
  lemma DecidesInTime(tr: seq<State>, i: nat, t: nat)
    requires IsRun(tr) && i + 1 < |tr| && t < |tr[i].point| && t < |tr[i + 1].point|
    requires Resumed(tr[i].point[t]) && tr[i].point[t].kind == Kind(true, true) && !Resumed(tr[i + 1].point[t])
    ensures exists j: nat :: ResumedBy(tr, j, i, t) && (Expired(tr[j], t) <==> tr[i + 1].point[t] == Outside)
    ensures tr[i + 1].point[t] != Outside ==> tr[i + 1].point[t] == Deciding(Kind(true, true), false)
  {
    var j := SomePoll(tr, i, t);
    PollStep(tr[j], t);
    var m := RunMove(tr, i);
    BackAgain(tr[i], m, t);
  }

  lemma BackAgain(x: State, m: Move, t: nat)
    requires CanMove(x, m) && t < |x.point| && t < |DoMove(x, m).point| && Resumed(x.point[t]) && !Resumed(DoMove(x, m).point[t])
    requires x.point[t].kind == Kind(true, true)
    ensures DoMove(x, m).point[t] == if x.local[t].isTimeout then Outside else Deciding(Kind(true, true), false)
  {
    if t != m.t { MoveFrame(x, m); }
  }

  /** The timed wait without predicate returns true exactly when the poll that resumed it found its flag raised; otherwise that
      poll found the time over, and more than the timeout has passed since the call. */
  lemma TimedWait(tr: seq<State>, i: nat, t: nat)
    requires IsRun(tr) && ReturnsAt(tr, i, t) && KindOf(tr[i].point[t]) == Kind(false, true)
    ensures tr[i + 1].outer.owner == OwnedBy(t)
    ensures exists j: nat ::
      && ResumedBy(tr, j, i, t)
      && tr[i + 1].local[t].result == Returned(Raised(tr[j], t))
      && (!Raised(tr[j], t) ==> Expired(tr[j], t) && tr[i + 1].now > tr[i].local[t].called + 1000 * tr[i].local[t].timeout)
  {
    var m := RunReturns(tr, i, t);
    MoveReturns(tr[i], m, t);
    RunTime(tr, i, t);
    var j := SomePoll(tr, i, t);
    RunTime(tr, j, t);
    PollStep(tr[j], t);
    if !Raised(tr[j], t) { TimeOver(tr, j, i, t); }
  }

  /** Step j serves a notification that raises the flag of the wait in which task t is at i, and was at j. */
  ghost predicate NotifiedAt(tr: seq<State>, j: nat, u: nat, i: nat, t: nat) {
    && j < i < |tr| && MovesBy(tr, j, Serve(u)) && t < |tr[i].local| && t < |tr[j].local| && t < |tr[j].point|
    && Mine(tr[j], t) == Mine(tr[i], t) && Waits(tr[j].point[t])
    && tr[j].notices.waiting != [] && tr[j].notices.waiting[0] == Mine(tr[i], t)
  }

  /** A move other than that of a notification does not raise the flag of a task that goes on waiting. */
  lemma NotRaised(x: State, m: Move, t: nat)
    requires CanMove(x, m) && t < |x.point| && t < |DoMove(x, m).point| == |DoMove(x, m).local|
    requires Waits(DoMove(x, m).point[t]) && Raised(DoMove(x, m), t)
    ensures Waits(x.point[t]) && Mine(x, t) == Mine(DoMove(x, m), t)
    ensures Raised(x, t) || (m.Serve? && x.notices.waiting != [] && x.notices.waiting[0] == Mine(x, t))
  {
    MoveFrame(x, m);
  }

  /** While a task waits, only a notification raises its flag. */
  lemma {:induction false} SomeNotification(tr: seq<State>, i: nat, t: nat) returns (j: nat, u: nat)
    requires IsRun(tr) && i < |tr| && t < |tr[i].point| && t < |tr[i].local| && Waits(tr[i].point[t]) && Raised(tr[i], t)
    ensures NotifiedAt(tr, j, u, i, t)
    decreases i
  {
    RunInv(tr, i);
    if i > 0 {
      PointsStay(tr, i - 1, i);
      var m := RunMove(tr, i - 1);
      if !Passes(tr[i - 1], tr[i]) {
        NotRaised(tr[i - 1], m, t);
        j, u := i - 1, m.t;
      }
      if Raised(tr[i - 1], t) { j, u := SomeNotification(tr, i - 1, t); }
    }
  }

  /** The poll of an untimed wait succeeds only after a notification has been served that raised the flag of this very wait. */
  lemma WakesAfterNotification(tr: seq<State>, i: nat, t: nat) returns (j: nat, u: nat)
    requires IsRun(tr) && i + 1 < |tr| && t < |tr[i].point| && t < |tr[i + 1].point|
    requires tr[i].point[t].Asleep? && !tr[i].point[t].kind.timed && !tr[i + 1].point[t].Asleep?
    ensures NotifiedAt(tr, j, u, i, t)
    ensures t < |tr[i].local| && Raised(tr[i], t) && Mine(tr[i], t) !in tr[i].notices.waiting
  {
    var m := RunMove(tr, i);
    LeavesSleep(tr[i], m, t);
    assert FlagOk(tr[i], t);
    j, u := SomeNotification(tr, i, t);
  }

  /** A wait other than the plain untimed one, called without the condition mutex, fails and changes nothing else. */
  lemma WaitNeedsOwner(x: State, t: nat, kind: Kind, timeout: nat)
    requires CanMove(x, CallWait(t, kind, timeout))
    ensures var x' := DoMove(x, CallWait(t, kind, timeout));
      if x.outer.owner == OwnedBy(t) then t < |x'.point| && InWait(x'.point[t]) && KindOf(x'.point[t]) == kind
      else x' == x.(local := x.local[t := x.local[t].(result := NotOwner)])
  {}
}
