/**
The condition variable: the four waits (plain or with a predicate, untimed or timed) and the notifications, over two
task-aware mutexes, the caller's condition mutex and an internal one, and a clock. All steps of all tasks interleave; a
suspended task goes on once the scheduler's poll of its pending operation has succeeded.
*/
module ConditionVariable {
  import opened TaskMutex
  import opened Notices

  /** With a predicate, a wait goes on until it is true; a timed one also ends when its time is over. */
  datatype Kind = Kind(loop: bool, timed: bool)

  /** Where a task is in its calls. */
  datatype Point =
    | Outside                             // not in a call
    | AtOuter                             // suspended in a call to lock the condition mutex
    | Deciding(kind: Kind, first: bool)   // wait with predicate: owns the condition mutex, evaluates the predicate next
    | Entering(kind: Kind)                // wait: locks the internal mutex next
    | EnteringQueued(kind: Kind)          // ... suspended until it owns it
    | Pushing(kind: Kind)                 // ... owns it, inserts its flag next
    | Pushed(kind: Kind)                  // ... unlocks it next
    | Releasing(kind: Kind)               // ... has added its pending operation, unlocks the condition mutex next
    | Asleep(kind: Kind)                  // ... suspended until a poll succeeds
    | Waking(kind: Kind)                  // ... locks the condition mutex next
    | WakingQueued(kind: Kind)            // ... suspended until it owns it
    | Notifying(all: bool)                // notification: locks the internal mutex next
    | NotifyingQueued(all: bool)
    | Serving(all: bool)                  // ... owns it, takes the oldest flag next
    | Served                              // ... unlocks it next

  /** What the latest call of a wait came to; an untimed wait gives no value. */
  datatype Result = None | NotOwner | Done | Returned(value: bool)

  /** The variables of a wait: its number, when it was called (history) and when it took the time, its timeout, and whether a
      poll found the time over or the flag raised. */
  datatype Local = Local(wait: nat, called: nat, start: nat, timeout: nat, isTimeout: bool, isNotified: bool, result: Result)

  datatype State = State(
    outer: LockState,              // the condition mutex
    inner: LockState,              // the condition variable's own mutex
    notices: Notices,
    point: seq<Point>,
    local: seq<Local>,
    now: nat,                      // the clock, in nanoseconds; timeouts are in microseconds
    condition: bool)               // what the tasks wait for, changed under the condition mutex

  datatype Move =
    | LockOuter(t: nat) | GotOuter(t: nat) | UnlockOuter(t: nat) | SetPredicate(t: nat, value: bool)
    | CallWait(t: nat, kind: Kind, timeout: nat) | Evaluate(t: nat) | LockInner(t: nat) | GotInner(t: nat) | PushFlag(t: nat)
    | UnlockInner(t: nat) | ReleaseOuter(t: nat) | Poll(t: nat) | Relock(t: nat)
    | CallNotify(t: nat, all: bool) | Serve(t: nat)

  /** The flag of the task's present wait. */
  function Mine(x: State, t: nat): Flag
    requires t < |x.local|
  {
    Flag(t, x.local[t].wait)
  }

  /** The time since the wait began, counted in whole microseconds, is longer than its timeout. */
  predicate Expired(x: State, t: nat)
    requires t < |x.local|
  {
    x.now - x.local[t].start >= 0 && (x.now - x.local[t].start) / 1000 > x.local[t].timeout
  }

  predicate Raised(x: State, t: nat)
    requires t < |x.local|
  {
    Mine(x, t) in x.notices.raised
  }

  predicate CanMove(x: State, m: Move) {
    && m.t < |x.point| == |x.local|
    && var p := x.point[m.t];
      match m
      case LockOuter(t) => p.Outside? && x.outer.owner != OwnedBy(t)
      case GotOuter(t) => (p.AtOuter? || p.WakingQueued?) && x.outer.owner == OwnedBy(t)
      case UnlockOuter(t) => p.Outside? && x.outer.owner == OwnedBy(t)
      case SetPredicate(t, _) => p.Outside? && x.outer.owner == OwnedBy(t)
      case CallWait(t, kind, _) => p.Outside? && (kind == Kind(false, false) ==> x.outer.owner == OwnedBy(t))
      case Evaluate(_) => p.Deciding?
      case LockInner(_) => p.Entering? || p.Notifying?
      case GotInner(t) => (p.EnteringQueued? || p.NotifyingQueued?) && x.inner.owner == OwnedBy(t)
      case PushFlag(_) => p.Pushing?
      case UnlockInner(_) => p.Pushed? || p.Served?
      case ReleaseOuter(_) => p.Releasing?
      case Poll(t) => p.Asleep? && (Raised(x, t) || (p.kind.timed && Expired(x, t)))
      case Relock(_) => p.Waking?
      case CallNotify(_, _) => p.Outside?
      case Serve(_) => p.Serving?
  }

  /** No other task, no mutex, no flag and no clock changes. */
  predicate Only(x: State, r: State, t: nat) {
    && r == x.(point := r.point, local := r.local)
    && |r.point| == |x.point| && |r.local| == |x.local|
    && (forall u :: 0 <= u < |x.point| && u != t ==> r.point[u] == x.point[u])
    && (forall u :: 0 <= u < |x.local| && u != t ==> r.local[u] == x.local[u])
    && (t < |x.local| ==> r.local[t].wait == x.local[t].wait)
  }

  function Goto(x: State, t: nat, p: Point): (r: State)
    requires t < |x.point|
    ensures Only(x, r, t)
  {
    x.(point := x.point[t := p])
  }

  function WithLocal(x: State, t: nat, l: Local): (r: State)
    requires t < |x.local|
    ensures l.wait == x.local[t].wait ==> Only(x, r, t)
  {
    x.(local := x.local[t := l])
  }

  /** The wait returns. */
  function Return(x: State, t: nat, r: Result): (y: State)
    requires t < |x.point| && t < |x.local|
    ensures Only(x, y, t)
  {
    WithLocal(Goto(x, t, Outside), t, x.local[t].(result := r))
  }

  /** With the condition mutex again: a wait without a predicate returns, and so does one whose time was over; otherwise the
      predicate is evaluated. */
  function Back(x: State, t: nat, kind: Kind): (r: State)
    requires t < |x.point| && t < |x.local|
    ensures Only(x, r, t)
  {
    if !kind.loop then Return(x, t, if kind.timed then Returned(x.local[t].isNotified) else Done)
    else if kind.timed && x.local[t].isTimeout then Return(x, t, Returned(false))
    else Goto(x, t, Deciding(kind, false))
  }

  /** A wait that is not a plain untimed one fails at once for a task that does not own the condition mutex. */
  function DoCall(x: State, t: nat, kind: Kind, timeout: nat): (r: State)
    requires t < |x.point| && t < |x.local|
    ensures Only(x, r, t)
  {
    if x.outer.owner != OwnedBy(t) then WithLocal(x, t, x.local[t].(result := NotOwner))
    else
      WithLocal(Goto(x, t, if kind.loop then Deciding(kind, true) else Entering(kind)), t,
                x.local[t].(called := x.now, timeout := timeout, isTimeout := false, isNotified := false, result := None))
  }

  /** A timed wait with predicate takes the time after the predicate has been found false. */
  function DoEvaluate(x: State, t: nat, kind: Kind, first: bool): (r: State)
    requires t < |x.point| && t < |x.local|
    ensures Only(x, r, t)
  {
    if x.condition then Return(x, t, if kind.timed then Returned(true) else Done)
    else WithLocal(Goto(x, t, Entering(kind)), t, if first then x.local[t].(start := x.now) else x.local[t])
  }

  function DoPush(x: State, t: nat, kind: Kind): State
    requires t < |x.point| && t < |x.local|
  {
    var l := x.local[t].(wait := x.local[t].wait + 1);
    WithLocal(Goto(x, t, Pushed(kind)), t, l).(notices := Queue(x.notices, Flag(t, l.wait)))
  }

  /** A timed wait without predicate takes the time after it has unlocked the internal mutex. */
  function DoUnlockInner(x: State, t: nat): State
    requires t < |x.point| && t < |x.local| && (x.point[t].Pushed? || x.point[t].Served?)
  {
    var p := x.point[t];
    var start := if p.Pushed? && !p.kind.loop then x.now else x.local[t].start;
    WithLocal(Goto(x, t, if p.Pushed? then Releasing(p.kind) else Outside), t, x.local[t].(start := start))
      .(inner := Release(x.inner, t))
  }

  /** The poll that lets the task go on. With a predicate the time is looked at first, without one the flag; a wait without
      predicate whose time is over raises its own flag. */
  function DoPoll(x: State, t: nat, kind: Kind): State
    requires t < |x.point| && t < |x.local|
  {
    var y := Goto(x, t, Waking(kind));
    if kind.loop then WithLocal(y, t, x.local[t].(isTimeout := kind.timed && Expired(x, t)))
    else if Raised(x, t) then WithLocal(y, t, x.local[t].(isNotified := true))
    else y.(notices := x.notices.(raised := x.notices.raised + {Mine(x, t)}))
  }

  function DoMove(x: State, m: Move): State
    requires CanMove(x, m)
  {
    var p := x.point[m.t];
    match m
    case LockOuter(t) =>
      Goto(x, t, if x.outer.owner == Free then Outside else AtOuter).(outer := AcquireOrWait(x.outer, t))
    case GotOuter(t) => if p.AtOuter? then Goto(x, t, Outside) else Back(x, t, p.kind)
    case UnlockOuter(t) => x.(outer := Release(x.outer, t))
    case SetPredicate(_, value) => x.(condition := value)
    case CallWait(t, kind, timeout) => DoCall(x, t, kind, timeout)
    case Evaluate(t) => DoEvaluate(x, t, p.kind, p.first)
    case LockInner(t) =>
      var free := x.inner.owner == Free;
      Goto(x, t, if p.Entering? then (if free then Pushing(p.kind) else EnteringQueued(p.kind))
                 else if free then Serving(p.all) else NotifyingQueued(p.all)).(inner := AcquireOrWait(x.inner, t))
    case GotInner(t) => Goto(x, t, if p.EnteringQueued? then Pushing(p.kind) else Serving(p.all))
    case PushFlag(t) => DoPush(x, t, p.kind)
    case UnlockInner(t) => DoUnlockInner(x, t)
    case ReleaseOuter(t) => Goto(x, t, Asleep(p.kind)).(outer := Release(x.outer, t))
    case Poll(t) => DoPoll(x, t, p.kind)
    case Relock(t) =>
      (if x.outer.owner == Free then Back(x, t, p.kind) else Goto(x, t, WakingQueued(p.kind))).(outer := AcquireOrWait(x.outer, t))
    case CallNotify(t, all) => Goto(x, t, Notifying(all))
    case Serve(t) => Goto(x, t, if p.all && x.notices.waiting != [] then Serving(true) else Served).(notices := Notify(x.notices))
  }

  ghost predicate Init(x: State) {
    && x.outer == UNLOCKED && x.inner == UNLOCKED && x.notices == NO_NOTICES && |x.local| == |x.point|
    && forall t :: 0 <= t < |x.point| ==> x.point[t] == Outside
  }

  /** Time passes, and nothing else happens. */
  predicate Passes(x: State, x': State) { x'.now >= x.now && x' == x.(now := x'.now) }

  ghost predicate Step(x: State, x': State) {
    Passes(x, x') || exists m :: CanMove(x, m) && x' == DoMove(x, m)
  }

  ghost predicate StepAt(tr: seq<State>, i: nat)
    requires i + 1 < |tr|
  {
    Step(tr[i], tr[i + 1])
  }

  ghost predicate IsRun(tr: seq<State>) {
    |tr| > 0 && Init(tr[0]) && forall i :: 0 <= i < |tr| - 1 ==> StepAt(tr, i)
  }

  // ---------------------------------------------------------------------------------------------------------
  // Invariants
  // ---------------------------------------------------------------------------------------------------------

  /** From inserting its flag until it is resumed. */
  predicate Waits(p: Point) { p.Pushed? || p.Releasing? || p.Asleep? }

  predicate NeedsOuter(p: Point) {
    p.Deciding? || p.Entering? || p.EnteringQueued? || p.Pushing? || p.Pushed? || p.Releasing?
  }

  predicate NeedsInner(p: Point) { p.Pushing? || p.Pushed? || p.Serving? || p.Served? }

  predicate OuterOk(x: State, t: nat)
    requires t < |x.point|
  {
    var p := x.point[t];
    && (NeedsOuter(p) ==> x.outer.owner == OwnedBy(t))
    && (p.Asleep? || p.Waking? ==> x.outer.owner != OwnedBy(t))
    && (p.AtOuter? || p.WakingQueued? ==> t in x.outer.queue || x.outer.owner == OwnedBy(t))
    && (t in x.outer.queue ==> p.AtOuter? || p.WakingQueued?)
  }

  predicate InnerOk(x: State, t: nat)
    requires t < |x.point|
  {
    var p := x.point[t];
    && (NeedsInner(p) ==> x.inner.owner == OwnedBy(t))
    && (p.EnteringQueued? || p.NotifyingQueued? ==> t in x.inner.queue || x.inner.owner == OwnedBy(t))
    && (t in x.inner.queue ==> p.EnteringQueued? || p.NotifyingQueued?)
    && (x.inner.owner == OwnedBy(t) ==> p.EnteringQueued? || p.NotifyingQueued? || NeedsInner(p))
  }

  /** The flag of a waiting task is queued, or it has been raised. */
  predicate FlagOk(x: State, t: nat)
    requires t < |x.point| == |x.local|
  {
    Waits(x.point[t]) ==> (Mine(x, t) in x.notices.waiting <==> !Raised(x, t))
  }

  /** Flags are queued once, and only those of waits that have begun; a timed wait may leave one behind. */
  predicate QueueOk(n: Notices, local: seq<Local>) {
    && (forall i, j :: 0 <= i < j < |n.waiting| ==> n.waiting[i] != n.waiting[j])
    && (forall i :: 0 <= i < |n.waiting| ==> n.waiting[i].task < |local| && n.waiting[i].wait <= local[n.waiting[i].task].wait)
  }

  predicate Known(q: seq<nat>, n: nat) { forall i :: 0 <= i < |q| ==> q[i] < n }

  predicate Inv(x: State) {
    && |x.local| == |x.point|
    && QueueInv(x.outer) && QueueInv(x.inner) && QueueOk(x.notices, x.local)
    && Known(x.outer.queue, |x.point|) && Known(x.inner.queue, |x.point|)
    && (forall t :: 0 <= t < |x.point| ==> OuterOk(x, t))
    && (forall t :: 0 <= t < |x.point| ==> InnerOk(x, t))
    && (forall t :: 0 <= t < |x.point| ==> FlagOk(x, t))
  }

  predicate ChangesOuter(m: Move) { m.LockOuter? || m.UnlockOuter? || m.ReleaseOuter? || m.Relock? }

  predicate ChangesInner(m: Move) { m.LockInner? || m.UnlockInner? }

  predicate ChangesNotices(m: Move) { m.PushFlag? || m.Serve? || m.Poll? }

  /** What a move leaves alone. */
  lemma MoveFrame(x: State, m: Move)
    requires CanMove(x, m)
    ensures var x' := DoMove(x, m);
      && |x'.point| == |x.point| == |x'.local| && x'.now == x.now
      && (forall t :: 0 <= t < |x.point| && t != m.t ==> x'.point[t] == x.point[t] && x'.local[t] == x.local[t])
      && (!ChangesOuter(m) ==> x'.outer == x.outer)
      && (!ChangesInner(m) ==> x'.inner == x.inner)
      && (!ChangesNotices(m) ==> x'.notices == x.notices)
      && (!m.PushFlag? ==> x'.local[m.t].wait == x.local[m.t].wait)
      && (Waits(x'.point[m.t]) && !m.PushFlag? ==> Waits(x.point[m.t]))
  {
    ObjectsFrame(x, m);
    WaitFrame(x, m);
    forall t: nat | t < |x.point| && t != m.t
      ensures DoMove(x, m).point[t] == x.point[t] && DoMove(x, m).local[t] == x.local[t]
    {
      OthersFrame(x, m, t);
    }
  }

  lemma ObjectsFrame(x: State, m: Move)
    requires CanMove(x, m)
    ensures var x' := DoMove(x, m);
      && x'.now == x.now
      && (!ChangesOuter(m) ==> x'.outer == x.outer)
      && (!ChangesInner(m) ==> x'.inner == x.inner)
      && (!ChangesNotices(m) ==> x'.notices == x.notices)
  {}

  lemma WaitFrame(x: State, m: Move)
    requires CanMove(x, m)
    ensures var x' := DoMove(x, m);
      && |x'.point| == |x.point| == |x'.local|
      && (!m.PushFlag? ==> x'.local[m.t].wait == x.local[m.t].wait)
      && (Waits(x'.point[m.t]) && !m.PushFlag? ==> Waits(x.point[m.t]))
  {}

  lemma OthersFrame(x: State, m: Move, t: nat)
    requires CanMove(x, m) && t < |x.point| && t != m.t
    ensures var x' := DoMove(x, m);
      t < |x'.point| && t < |x'.local| && x'.point[t] == x.point[t] && x'.local[t] == x.local[t]
  {}

  lemma OuterSelf(x: State, m: Move)
    requires CanMove(x, m) && !ChangesOuter(m) && QueueInv(x.outer) && OuterOk(x, m.t)
    ensures m.t < |DoMove(x, m).point| && OuterOk(DoMove(x, m), m.t)
  {}

  lemma OuterChange(x: State, m: Move, t: nat)
    requires CanMove(x, m) && ChangesOuter(m) && t < |x.point| && QueueInv(x.outer) && OuterOk(x, t) && OuterOk(x, m.t)
    ensures t < |DoMove(x, m).point| && OuterOk(DoMove(x, m), t)
  {}

  lemma MoveOuter(x: State, m: Move, t: nat)
    requires CanMove(x, m) && t < |x.point| && QueueInv(x.outer) && OuterOk(x, t) && OuterOk(x, m.t)
    ensures t < |DoMove(x, m).point| && OuterOk(DoMove(x, m), t)
  {
    if ChangesOuter(m) { OuterChange(x, m, t); }
    else if t == m.t { OuterSelf(x, m); }
    else { MoveFrame(x, m); }
  }

  /** A move that begins and ends where a task has nothing to do with the internal mutex. */
  lemma InnerAway(x: State, m: Move)
    requires CanMove(x, m) && (m.CallWait? || m.Evaluate? || m.Relock? || m.GotOuter? || m.Poll?) && InnerOk(x, m.t)
    ensures m.t < |DoMove(x, m).point| && InnerOk(DoMove(x, m), m.t)
  {
    ObjectsFrame(x, m);
  }

  lemma InnerHeld(x: State, m: Move)
    requires CanMove(x, m) && !(m.CallWait? || m.Evaluate? || m.Relock? || m.GotOuter? || m.Poll?)
    requires !ChangesInner(m) && QueueInv(x.inner) && InnerOk(x, m.t)
    ensures m.t < |DoMove(x, m).point| && InnerOk(DoMove(x, m), m.t)
  {}

  lemma InnerChange(x: State, m: Move, t: nat)
    requires CanMove(x, m) && ChangesInner(m) && t < |x.point| && QueueInv(x.inner) && InnerOk(x, t) && InnerOk(x, m.t)
    ensures t < |DoMove(x, m).point| && InnerOk(DoMove(x, m), t)
  {}

  lemma MoveInner(x: State, m: Move, t: nat)
    requires CanMove(x, m) && t < |x.point| && QueueInv(x.inner) && InnerOk(x, t) && InnerOk(x, m.t)
    ensures t < |DoMove(x, m).point| && InnerOk(DoMove(x, m), t)
  {
    if ChangesInner(m) { InnerChange(x, m, t); }
    else if t != m.t { MoveFrame(x, m); }
    else if m.CallWait? || m.Evaluate? || m.Relock? || m.GotOuter? || m.Poll? { InnerAway(x, m); }
    else { InnerHeld(x, m); }
  }

  lemma PushesFlag(x: State, t: nat, u: nat)
    requires CanMove(x, PushFlag(u)) && t < |x.point| && FlagOk(x, t) && QueueOk(x.notices, x.local)
    ensures FlagOk(DoMove(x, PushFlag(u)), t) && QueueOk(DoMove(x, PushFlag(u)).notices, DoMove(x, PushFlag(u)).local)
  {}

  lemma ServesFlag(x: State, t: nat, u: nat)
    requires CanMove(x, Serve(u)) && t < |x.point| && FlagOk(x, t) && QueueOk(x.notices, x.local)
    ensures FlagOk(DoMove(x, Serve(u)), t) && QueueOk(DoMove(x, Serve(u)).notices, x.local)
  {
    if x.notices.waiting != [] { assert x.notices.waiting == [x.notices.waiting[0]] + x.notices.waiting[1..]; }
  }

  lemma PollsFlag(x: State, t: nat, u: nat)
    requires CanMove(x, Poll(u)) && t < |x.point| && FlagOk(x, t)
    ensures FlagOk(DoMove(x, Poll(u)), t) && DoMove(x, Poll(u)).notices.waiting == x.notices.waiting
  {}

  lemma MoveFlag(x: State, m: Move, t: nat)
    requires CanMove(x, m) && t < |x.point| && FlagOk(x, t) && QueueOk(x.notices, x.local)
    ensures t < |DoMove(x, m).point| == |DoMove(x, m).local| && FlagOk(DoMove(x, m), t)
    ensures QueueOk(DoMove(x, m).notices, DoMove(x, m).local)
  {
    MoveFrame(x, m);
    if m.PushFlag? { PushesFlag(x, t, m.t); }
    else if m.Serve? { ServesFlag(x, t, m.t); }
    else if m.Poll? { PollsFlag(x, t, m.t); }
  }

  lemma OuterQueueChange(x: State, m: Move)
    requires CanMove(x, m) && ChangesOuter(m) && QueueInv(x.outer) && Known(x.outer.queue, |x.point|) && OuterOk(x, m.t)
    ensures var x' := DoMove(x, m); QueueInv(x'.outer) && Known(x'.outer.queue, |x'.point|)
  {}

  lemma InnerQueueChange(x: State, m: Move)
    requires CanMove(x, m) && ChangesInner(m) && QueueInv(x.inner) && Known(x.inner.queue, |x.point|) && InnerOk(x, m.t)
    ensures var x' := DoMove(x, m); QueueInv(x'.inner) && Known(x'.inner.queue, |x'.point|)
  {}

  lemma MoveInv(x: State, m: Move)
    requires Inv(x) && CanMove(x, m)
    ensures Inv(DoMove(x, m))
  {
    var x' := DoMove(x, m);
    assert OuterOk(x, m.t) && InnerOk(x, m.t) && FlagOk(x, m.t);
    MoveFrame(x, m);
    MoveFlag(x, m, m.t);
    if ChangesOuter(m) { OuterQueueChange(x, m); }
    if ChangesInner(m) { InnerQueueChange(x, m); }
    forall t | 0 <= t < |x'.point| ensures OuterOk(x', t) && InnerOk(x', t) && FlagOk(x', t) {
      assert OuterOk(x, t) && InnerOk(x, t) && FlagOk(x, t);
      MoveOuter(x, m, t);
      MoveInner(x, m, t);
      MoveFlag(x, m, t);
    }
  }

  // ---------------------------------------------------------------------------------------------------------
  // Runs
  // ---------------------------------------------------------------------------------------------------------

  lemma TimeKeepsInv(x: State, x': State)
    requires Inv(x) && Passes(x, x')
    ensures Inv(x')
  {
    forall t | 0 <= t < |x'.point| ensures OuterOk(x', t) && InnerOk(x', t) && FlagOk(x', t) {
      assert OuterOk(x, t) && InnerOk(x, t) && FlagOk(x, t);
    }
  }

  lemma {:induction false} RunInv(tr: seq<State>, i: nat)
    requires IsRun(tr) && i < |tr|
    ensures Inv(tr[i])
    decreases i
  {
    if i == 0 {
      forall t | 0 <= t < |tr[0].point| ensures OuterOk(tr[0], t) && InnerOk(tr[0], t) && FlagOk(tr[0], t) {
        assert tr[0].point[t] == Outside;
      }
    } else {
      RunInv(tr, i - 1);
      assert StepAt(tr, i - 1);
      if Passes(tr[i - 1], tr[i]) {
        TimeKeepsInv(tr[i - 1], tr[i]);
      } else {
        var m :| CanMove(tr[i - 1], m) && tr[i] == DoMove(tr[i - 1], m);
        MoveInv(tr[i - 1], m);
      }
    }
  }

  /** A step of a run is a move of a task, or time passes. */
  ghost predicate MovesBy(tr: seq<State>, i: nat, m: Move)
    requires i + 1 < |tr|
  {
    CanMove(tr[i], m) && tr[i + 1] == DoMove(tr[i], m)
  }

  lemma RunMove(tr: seq<State>, i: nat) returns (m: Move)
    requires IsRun(tr) && i + 1 < |tr|
    ensures Inv(tr[i]) && (Passes(tr[i], tr[i + 1]) || MovesBy(tr, i, m))
  {
    RunInv(tr, i);
    assert StepAt(tr, i);
    m := Serve(0);
    if !Passes(tr[i], tr[i + 1]) { m :| CanMove(tr[i], m) && tr[i + 1] == DoMove(tr[i], m); }
  }

  /** A task that has released the condition mutex and has not been resumed has its flag in the queue exactly once, or the
      flag has been raised; it is never both, never neither, whatever timed waits go on beside it. */
  lemma FlagQueuedOrRaised(tr: seq<State>, i: nat, t: nat)
    requires IsRun(tr) && i < |tr| && t < |tr[i].point| && tr[i].point[t].Asleep?
    ensures t < |tr[i].local|
    ensures Raised(tr[i], t) <==> Mine(tr[i], t) !in tr[i].notices.waiting
    ensures var q := tr[i].notices.waiting; forall j, k :: 0 <= j < k < |q| ==> !(q[j] == Mine(tr[i], t) && q[k] == Mine(tr[i], t))
  {
    RunInv(tr, i);
    assert FlagOk(tr[i], t);
  }

  predicate InWait(p: Point) {
    NeedsOuter(p) || p.Asleep? || p.Waking? || p.WakingQueued?
  }

  predicate Resumed(p: Point) { p.Waking? || p.WakingQueued? }

  /** While a task owns the condition mutex, no other task is between evaluating the predicate and falling asleep: every
      other waiting task is queued for a notification, notified already, or has been resumed. */
  lemma NoTaskInWindow(tr: seq<State>, i: nat, u: nat, t: nat)
    requires IsRun(tr) && i < |tr| && u < |tr[i].point| && tr[i].outer.owner == OwnedBy(u)
    requires t < |tr[i].point| && t != u && InWait(tr[i].point[t])
    ensures t < |tr[i].local|
    ensures || (tr[i].point[t].Asleep? && (Mine(tr[i], t) in tr[i].notices.waiting || Raised(tr[i], t)))
            || Resumed(tr[i].point[t])
  {
    RunInv(tr, i);
    assert OuterOk(tr[i], t) && FlagOk(tr[i], t);
  }

  lemma {:induction false} PointsStay(tr: seq<State>, i: nat, j: nat)
    requires IsRun(tr) && i <= j < |tr|
    ensures |tr[j].point| == |tr[i].point| == |tr[j].local| == |tr[i].local|
    decreases j
  {
    if i == j { RunInv(tr, i); }
    else {
      PointsStay(tr, i, j - 1);
      var m := RunMove(tr, j - 1);
      if !Passes(tr[j - 1], tr[j]) { MoveFrame(tr[j - 1], m); }
    }
  }

  lemma LeavesSleep(x: State, m: Move, t: nat)
    requires CanMove(x, m) && t < |x.point| && x.point[t].Asleep?
    ensures t < |DoMove(x, m).point| && (DoMove(x, m).point[t] == x.point[t] || (m == Poll(t) && DoMove(x, m).point[t] == Waking(x.point[t].kind)))
  {}

  lemma {:induction false} SleepsOrResumes(tr: seq<State>, j: nat, k: nat, t: nat)
    requires IsRun(tr) && j <= k < |tr| && t < |tr[j].point| && tr[j].point[t].Asleep?
    ensures |tr[k].point| == |tr[j].point|
    ensures tr[k].point[t].Asleep? || exists i :: j <= i <= k && t < |tr[i].point| && Resumed(tr[i].point[t])
    decreases k
  {
    if j < k {
      SleepsOrResumes(tr, j, k - 1, t);
      PointsStay(tr, k - 1, k);
      var m := RunMove(tr, k - 1);
      if tr[k - 1].point[t].Asleep? && !tr[k].point[t].Asleep? {
        LeavesSleep(tr[k - 1], m, t);
        assert Resumed(tr[k].point[t]);
      }
    }
  }

  // ---------------------------------------------------------------------------------------------------------
  // Order of notifications
  // ---------------------------------------------------------------------------------------------------------

  /** From one state to the next the queue loses its oldest entry, or nothing is taken from it. */
  predicate QueueStep(q: seq<Flag>, q': seq<Flag>) {
    if |q'| < |q| then q' == q[1..] else q <= q'
  }

  /** How many entries are taken from the queue between states i and j. */
  function Taken(qs: seq<seq<Flag>>, i: nat, j: nat): nat
    requires i <= j < |qs|
    decreases j
  {
    if i == j then 0 else Taken(qs, i, j - 1) + if |qs[j]| < |qs[j - 1]| then 1 else 0
  }

  lemma {:induction false} TakenInOrder(qs: seq<seq<Flag>>, i: nat, j: nat, k: nat)
    requires i <= j < |qs| && k < |qs[i]| && forall x :: 0 <= x < |qs| - 1 ==> QueueStep(qs[x], qs[x + 1])
    ensures Taken(qs, i, j) <= k ==> k - Taken(qs, i, j) < |qs[j]| && qs[j][k - Taken(qs, i, j)] == qs[i][k]
    decreases j
  {
    if i < j {
      TakenInOrder(qs, i, j - 1, k);
      assert QueueStep(qs[j - 1], qs[j - 1 + 1]);
    }
  }

  /** The queue of flags changes at its end by a wait and at its front by a notification, which raises the oldest flag. */
  lemma QueueMoves(x: State, m: Move)
    requires CanMove(x, m)
    ensures var q, x' := x.notices.waiting, DoMove(x, m);
      if m.Serve? && q != [] then x'.notices.waiting == q[1..] && q[0] in x'.notices.raised else q <= x'.notices.waiting
  {
    MoveFrame(x, m);
  }

  lemma QueueSteps(tr: seq<State>, i: nat)
    requires IsRun(tr) && i + 1 < |tr|
    ensures var q, q' := tr[i].notices.waiting, tr[i + 1].notices.waiting;
      if |q'| < |q| then q' == q[1..] && q[0] in tr[i + 1].notices.raised else q <= q'
  {
    var m := RunMove(tr, i);
    if !Passes(tr[i], tr[i + 1]) { QueueMoves(tr[i], m); }
  }

  function Queues(tr: seq<State>): seq<seq<Flag>> {
    seq(|tr|, i requires 0 <= i < |tr| => tr[i].notices.waiting)
  }

  lemma QueuesStep(tr: seq<State>)
    requires IsRun(tr)
    ensures forall x :: 0 <= x < |tr| - 1 ==> QueueStep(Queues(tr)[x], Queues(tr)[x + 1])
  {
    forall x | 0 <= x < |tr| - 1 ensures QueueStep(Queues(tr)[x], Queues(tr)[x + 1]) { QueueSteps(tr, x); }
  }

  lemma QueuesInOrder(tr: seq<State>, i: nat, j: nat, k: nat)
    requires i <= j < |tr| && k < |tr[i].notices.waiting|
    requires forall x :: 0 <= x < |tr| - 1 ==> QueueStep(Queues(tr)[x], Queues(tr)[x + 1])
    ensures var n := Taken(Queues(tr), i, j);
      n <= k ==> k - n < |tr[j].notices.waiting| && tr[j].notices.waiting[k - n] == tr[i].notices.waiting[k]
  {
    TakenInOrder(Queues(tr), i, j, k);
  }

  /** The flag at position k of the queue moves up by one with every notification served. */
  lemma NotifiedInOrder(tr: seq<State>, i: nat, j: nat, k: nat)
    requires IsRun(tr) && i <= j < |tr| && k < |tr[i].notices.waiting|
    ensures var n := Taken(Queues(tr), i, j);
      n <= k ==> k - n < |tr[j].notices.waiting| && tr[j].notices.waiting[k - n] == tr[i].notices.waiting[k]
  {
    QueuesStep(tr);
    QueuesInOrder(tr, i, j, k);
  }

  /** Notification number k + 1 raises it: notifications go to the task that has waited longest. */
  lemma NotifiedByNumber(tr: seq<State>, i: nat, j: nat, k: nat)
    requires IsRun(tr) && i <= j && j + 1 < |tr| && k < |tr[i].notices.waiting|
    requires Taken(Queues(tr), i, j) == k && Taken(Queues(tr), i, j + 1) == k + 1
    ensures tr[i].notices.waiting[k] in tr[j + 1].notices.raised
  {
    NotifiedInOrder(tr, i, j, k);
    QueueSteps(tr, j);
  }
}
