/** The waits from the call on, in every run: what an evaluation of the predicate decides, and when a timed wait gives up. */
module WaitCalls {
  import opened TaskMutex
  import opened Notices
  import opened ConditionVariable
  import opened Waits

  // ---------------------------------------------------------------------------------------------------------
  // Evaluating the predicate
  // ---------------------------------------------------------------------------------------------------------

  lemma EvaluationMove(x: State, m: Move)
    requires CanMove(x, m) && x.point[m.t].Deciding?
    ensures var x', t := DoMove(x, m), m.t;
      && t < |x'.point| && t < |x'.local|
      && if x.condition then x'.point[t] == Outside && x'.local[t].result == if x.point[t].kind.timed then Returned(true) else Done
         else x'.point[t] == Entering(x.point[t].kind)
  {}

  /** The evaluation of the predicate, the first or a later one, is done by the owner of the condition mutex. It ends the wait if
      and only if the predicate is true; otherwise the task goes to sleep. */
  lemma EvaluationDecides(tr: seq<State>, i: nat, t: nat)
    requires IsRun(tr) && i + 1 < |tr| && t < |tr[i].point| && tr[i].point[t].Deciding?
    requires t < |tr[i + 1].point| && tr[i + 1].point[t] != tr[i].point[t]
    ensures tr[i].outer.owner == OwnedBy(t) && t < |tr[i + 1].local|
    ensures tr[i + 1].point[t] == if tr[i].condition then Outside else Entering(tr[i].point[t].kind)
    ensures tr[i].condition ==> tr[i + 1].local[t].result == if tr[i].point[t].kind.timed then Returned(true) else Done
  {
    var m := RunMove(tr, i);
    assert OuterOk(tr[i], t);
    if m.t != t { MoveFrame(tr[i], m); }
    EvaluationMove(tr[i], m);
  }

  /** A task of a wait with predicate that has not yet released the condition mutex has found the predicate false, and it is. */
  predicate FoundFalse(x: State, t: nat)
    requires t < |x.point|
  {
    var p := x.point[t];
    NeedsOuter(p) && !p.Deciding? && p.kind.loop ==> !x.condition
  }

  lemma OwnFoundFalse(x: State, m: Move)
    requires CanMove(x, m) && FoundFalse(x, m.t)
    ensures m.t < |DoMove(x, m).point| && FoundFalse(DoMove(x, m), m.t)
  {}

  /** The condition changes only by its owner, outside any call. */
  lemma ConditionMove(x: State, m: Move)
    requires CanMove(x, m)
    ensures if m.SetPredicate? then DoMove(x, m).condition == m.value && x.outer.owner == OwnedBy(m.t) && x.point[m.t] == Outside
            else DoMove(x, m).condition == x.condition
  {}

  lemma MoveFoundFalse(x: State, m: Move, t: nat)
    requires CanMove(x, m) && t < |x.point| && FoundFalse(x, t) && OuterOk(x, t)
    ensures t < |DoMove(x, m).point| && FoundFalse(DoMove(x, m), t)
  {
    if m.t == t { OwnFoundFalse(x, m); } else {
      MoveFrame(x, m);
      ConditionMove(x, m);
    }
  }

  /** Whoever is between evaluating the predicate and giving up the condition mutex has found it false, and it is false still. */
  lemma {:induction false} SleepsOnFalse(tr: seq<State>, i: nat, t: nat)
    requires IsRun(tr) && i < |tr| && t < |tr[i].point|
    ensures FoundFalse(tr[i], t)
    decreases i
  {
    RunInv(tr, i);
    if i > 0 {
      PointsStay(tr, i - 1, i);
      SleepsOnFalse(tr, i - 1, t);
      var m := RunMove(tr, i - 1);
      assert OuterOk(tr[i - 1], t);
      if !Passes(tr[i - 1], tr[i]) { MoveFoundFalse(tr[i - 1], m, t); }
    }
  }

  // ---------------------------------------------------------------------------------------------------------
  // From the call on
  // ---------------------------------------------------------------------------------------------------------

  predicate Waiting(tr: seq<State>, k: nat, t: nat)
    requires k < |tr|
  {
    t < |tr[k].point| && t < |tr[k].local| && InWait(tr[k].point[t])
  }

  /** Task t has called the wait in step c, owning the condition mutex, and at k it has not returned. */
  ghost predicate WaitCall(tr: seq<State>, c: nat, k: nat, t: nat, kind: Kind, timeout: nat) {
    && c < k < |tr| && MovesBy(tr, c, CallWait(t, kind, timeout)) && tr[c].outer.owner == OwnedBy(t)
    && forall l :: c < l <= k ==> Waiting(tr, l, t)
  }

  lemma CallMove(x: State, t: nat, kind: Kind, timeout: nat)
    requires CanMove(x, CallWait(t, kind, timeout)) && x.outer.owner == OwnedBy(t)
    ensures var x' := DoMove(x, CallWait(t, kind, timeout));
      && t < |x'.point| && t < |x'.local| && x'.point[t] == (if kind.loop then Deciding(kind, true) else Entering(kind))
      && x'.local[t].called == x.now && x'.local[t].timeout == timeout && x'.condition == x.condition
  {}

  /** What a wait keeps while it goes on: its kind, its timeout, and, once taken, the time. */
  predicate KeepsWait(x: State, x': State, t: nat) {
    && t < |x.point| && t < |x.local| && t < |x'.point| && t < |x'.local| && InWait(x.point[t]) && InWait(x'.point[t])
    && KindOf(x'.point[t]) == KindOf(x.point[t])
    && x'.local[t].called == x.local[t].called && x'.local[t].timeout == x.local[t].timeout
    && (Started(x.point[t]) ==> Started(x'.point[t]) && x'.local[t].start == x.local[t].start)
  }

  /** The step in which a timed wait takes the time: the first evaluation, or, without a predicate, unlocking the internal mutex. */
  predicate TakesTime(x: State, m: Move, t: nat) {
    && t < |x.point| && m.t == t
    && ((m.Evaluate? && x.point[t].Deciding? && x.point[t].first && x.point[t].kind.loop)
        || (m.UnlockInner? && x.point[t].Pushed? && !x.point[t].kind.loop))
  }

  lemma WaitMove(x: State, m: Move)
    requires CanMove(x, m) && InWait(x.point[m.t]) && TimeOk(x, m.t)
    requires m.t < |DoMove(x, m).point| && InWait(DoMove(x, m).point[m.t])
    ensures KeepsWait(x, DoMove(x, m), m.t)
  {
    if m.Evaluate? || m.Poll? || m.Relock? || m.GotOuter? { CheckMove(x, m); } else { SleepMove(x, m); }
  }

  lemma CheckMove(x: State, m: Move)
    requires CanMove(x, m) && InWait(x.point[m.t]) && TimeOk(x, m.t) && (m.Evaluate? || m.Poll? || m.Relock? || m.GotOuter?)
    requires m.t < |DoMove(x, m).point| && InWait(DoMove(x, m).point[m.t])
    ensures KeepsWait(x, DoMove(x, m), m.t)
  {}

  lemma SleepMove(x: State, m: Move)
    requires CanMove(x, m) && InWait(x.point[m.t]) && TimeOk(x, m.t) && !(m.Evaluate? || m.Poll? || m.Relock? || m.GotOuter?)
    requires m.t < |DoMove(x, m).point| && InWait(DoMove(x, m).point[m.t])
    ensures KeepsWait(x, DoMove(x, m), m.t)
  {}

  lemma StartMove(x: State, m: Move)
    requires CanMove(x, m) && InWait(x.point[m.t]) && TimeOk(x, m.t) && !Started(x.point[m.t])
    requires m.t < |DoMove(x, m).point| && InWait(DoMove(x, m).point[m.t]) && Started(DoMove(x, m).point[m.t])
    ensures TakesTime(x, m, m.t) && m.t < |DoMove(x, m).local| && DoMove(x, m).local[m.t].start == x.now
  {}

  /** Step s of the call takes the time that the wait has at k. */
  ghost predicate TimeTaken(tr: seq<State>, c: nat, s: nat, k: nat, t: nat, m: Move) {
    c < s < k < |tr| && MovesBy(tr, s, m) && TakesTime(tr[s], m, t) && t < |tr[k].local| && tr[k].local[t].start == tr[s].now
  }

  lemma WaitStep(tr: seq<State>, k: nat, t: nat) returns (m: Move)
    requires IsRun(tr) && k + 1 < |tr| && Waiting(tr, k, t) && Waiting(tr, k + 1, t)
    ensures KeepsWait(tr[k], tr[k + 1], t)
    ensures Started(tr[k + 1].point[t]) && !Started(tr[k].point[t]) ==>
              MovesBy(tr, k, m) && TakesTime(tr[k], m, t) && tr[k + 1].local[t].start == tr[k].now
  {
    m := RunMove(tr, k);
    RunTime(tr, k, t);
    if !Passes(tr[k], tr[k + 1]) {
      if m.t != t { MoveFrame(tr[k], m); } else {
        WaitMove(tr[k], m);
        if Started(tr[k + 1].point[t]) && !Started(tr[k].point[t]) { StartMove(tr[k], m); }
      }
    }
  }

  /** A wait keeps the kind and the timeout of its call; a timed one takes the time once. */
  lemma {:induction false} WaitKeepsCall(tr: seq<State>, c: nat, k: nat, t: nat, kind: Kind, timeout: nat) returns (s: nat, m: Move)
    requires IsRun(tr) && WaitCall(tr, c, k, t, kind, timeout)
    ensures Waiting(tr, k, t) && KindOf(tr[k].point[t]) == kind
    ensures tr[k].local[t].timeout == timeout && tr[k].local[t].called == tr[c].now
    ensures Started(tr[k].point[t]) ==> TimeTaken(tr, c, s, k, t, m)
    decreases k
  {
    assert Waiting(tr, k, t);
    if k == c + 1 {
      CallMove(tr[c], t, kind, timeout);
      s, m := 0, Serve(0);
    } else {
      s, m := WaitKeepsCall(tr, c, k - 1, t, kind, timeout);
      var n := WaitStep(tr, k - 1, t);
      if Started(tr[k].point[t]) && !Started(tr[k - 1].point[t]) { s, m := k - 1, n; }
    }
  }

  lemma {:induction false} StaysTrue(tr: seq<State>, c: nat, k: nat, t: nat, kind: Kind, timeout: nat)
    requires IsRun(tr) && WaitCall(tr, c, k, t, kind, timeout) && kind.loop && tr[c].condition
    ensures Waiting(tr, k, t) && tr[k].point[t] == Deciding(kind, true) && tr[k].condition
    decreases k
  {
    assert Waiting(tr, k, t);
    if k == c + 1 {
      CallMove(tr[c], t, kind, timeout);
    } else {
      StaysTrue(tr, c, k - 1, t, kind, timeout);
      var m := RunMove(tr, k - 1);
      assert OuterOk(tr[k - 1], t);
      if !Passes(tr[k - 1], tr[k]) {
        ConditionMove(tr[k - 1], m);
        if m.t == t { EvaluationMove(tr[k - 1], m); } else { MoveFrame(tr[k - 1], m); }
      }
    }
  }

  /** A wait with predicate that is called when the predicate is true returns at once: its first step, step i, ends it. */
  lemma TrueReturnsAtOnce(tr: seq<State>, c: nat, i: nat, t: nat, kind: Kind, timeout: nat)
    requires IsRun(tr) && i + 1 < |tr| && WaitCall(tr, c, i, t, kind, timeout) && kind.loop && tr[c].condition
    requires t < |tr[i + 1].point| && (Waiting(tr, i, t) ==> tr[i + 1].point[t] != tr[i].point[t])
    ensures tr[i + 1].point[t] == Outside && t < |tr[i + 1].local|
    ensures tr[i + 1].local[t].result == if kind.timed then Returned(true) else Done
    ensures forall k :: c < k <= i ==> Waiting(tr, k, t) && tr[k].point[t] == Deciding(kind, true)
  {
    forall k: nat | c < k <= i ensures Waiting(tr, k, t) && tr[k].point[t] == Deciding(kind, true) && tr[k].condition {
      StaysTrue(tr, c, k, t, kind, timeout);
    }
    EvaluationDecides(tr, i, t);
  }

  // ---------------------------------------------------------------------------------------------------------
  // Giving up
  // ---------------------------------------------------------------------------------------------------------

  /** The poll of a sleeping task succeeds if and only if its flag is raised or, in a timed wait, more than the timeout, in whole
      microseconds, has passed since it took the time; the clock counts nanoseconds. */
  lemma PollSucceeds(x: State, t: nat)
    requires t < |x.point| == |x.local| && x.point[t].Asleep?
    ensures CanMove(x, Poll(t)) <==>
      Mine(x, t) in x.notices.raised || (x.point[t].kind.timed && x.now >= x.local[t].start + 1000 * (x.local[t].timeout + 1))
  {
    ExpiredIsLater(x, t);
  }

  lemma ExpiredIsLater(x: State, t: nat)
    requires t < |x.local|
    ensures Expired(x, t) <==> x.now >= x.local[t].start + 1000 * (x.local[t].timeout + 1)
  {}

  /** The call was polled in step j, and the time was taken in step s: more than the timeout before, or not. */
  predicate TimeIsOver(tr: seq<State>, s: nat, j: nat, timeout: nat)
    requires s < |tr| && j < |tr|
  {
    tr[j].now >= tr[s].now + 1000 * (timeout + 1)
  }

  lemma PolledAfterCall(tr: seq<State>, c: nat, i: nat, j: nat, t: nat, kind: Kind, timeout: nat)
    requires WaitCall(tr, c, i, t, kind, timeout) && ResumedBy(tr, j, i, t)
    ensures c < j
  {
    CallMove(tr[c], t, kind, timeout);
    assert j <= c ==> ResumedAt(tr, c + 1, t);
  }

  lemma PolledInCall(tr: seq<State>, c: nat, i: nat, t: nat, kind: Kind, timeout: nat) returns (s: nat, m: Move, j: nat)
    requires IsRun(tr) && WaitCall(tr, c, i, t, kind, timeout) && kind.timed && ResumedAt(tr, i, t)
    ensures TimeTaken(tr, c, s, j, t, m) && j < i && ResumedBy(tr, j, i, t) && KindOf(tr[i].point[t]) == kind
    ensures Expired(tr[j], t) <==> TimeIsOver(tr, s, j, timeout)
  {
    j := SomePoll(tr, i, t);
    PolledAfterCall(tr, c, i, j, t, kind, timeout);
    assert Waiting(tr, j, t);
    s, m := WaitKeepsCall(tr, c, j, t, kind, timeout);
    ExpiredIsLater(tr[j], t);
  }

  /** A timed wait with predicate that has been resumed gives up, returning false, if and only if the poll that resumed it came more
      than the timeout after the first evaluation; otherwise it evaluates the predicate again. */
  lemma GivesUp(tr: seq<State>, c: nat, i: nat, t: nat, timeout: nat) returns (s: nat, m: Move, j: nat)
    requires IsRun(tr) && i + 1 < |tr| && WaitCall(tr, c, i, t, Kind(true, true), timeout) && ResumedAt(tr, i, t)
    requires t < |tr[i + 1].point| && t < |tr[i + 1].local| && !Resumed(tr[i + 1].point[t])
    ensures TimeTaken(tr, c, s, j, t, m) && ResumedBy(tr, j, i, t)
    ensures tr[i + 1].point[t] == if TimeIsOver(tr, s, j, timeout) then Outside else Deciding(Kind(true, true), false)
    ensures TimeIsOver(tr, s, j, timeout) ==> tr[i + 1].local[t].result == Returned(false)
  {
    s, m, j := PolledInCall(tr, c, i, t, Kind(true, true), timeout);
    PollStep(tr[j], t);
    var n := RunMove(tr, i);
    BackAgain(tr[i], n, t);
    if TimeIsOver(tr, s, j, timeout) { TimedWaitWithPredicate(tr, i, t); }
  }

  /** A timed wait without predicate returns whether the poll that resumed it saw its flag raised; if it did not, the poll came more
      than the timeout after the flag had been queued. */
  lemma PlainGivesUp(tr: seq<State>, c: nat, i: nat, t: nat, timeout: nat) returns (s: nat, m: Move, j: nat)
    requires IsRun(tr) && WaitCall(tr, c, i, t, Kind(false, true), timeout) && ReturnsAt(tr, i, t)
    ensures TimeTaken(tr, c, s, j, t, m) && ResumedBy(tr, j, i, t)
    ensures tr[i + 1].local[t].result == Returned(Raised(tr[j], t))
    ensures !Raised(tr[j], t) ==> TimeIsOver(tr, s, j, timeout)
  {
    var n, z := WaitKeepsCall(tr, c, i, t, Kind(false, true), timeout);
    var r := RunReturns(tr, i, t);
    MoveReturns(tr[i], r, t);
    RunTime(tr, i, t);
    s, m, j := PolledInCall(tr, c, i, t, Kind(false, true), timeout);
    RunTime(tr, j, t);
    PollStep(tr[j], t);
  }
}
