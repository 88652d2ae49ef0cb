/** The task-aware mutex: an owner and a queue of waiting tasks. Tasks are their ids. */
module TaskMutex {

  datatype Owner = Free | OwnedBy(t: nat)

  datatype LockState = LockState(owner: Owner, queue: seq<nat>)

  const UNLOCKED := LockState(Free, [])

  /** What one call does. A blocking call that does not get the lock leaves the task in the queue, to be suspended. */
  datatype Call = TryLock(t: nat) | LockOrWait(t: nat) | Unlock(t: nat)

  function Acquire(m: LockState, t: nat): LockState {
    if m.owner == Free then m.(owner := OwnedBy(t)) else m
  }

  function AcquireOrWait(m: LockState, t: nat): LockState {
    if m.owner == Free then m.(owner := OwnedBy(t)) else m.(queue := m.queue + [t])
  }

  /** The lock passes to the task that has waited longest; a task that does not own it gets an error. */
  function Release(m: LockState, t: nat): LockState {
    if m.owner != OwnedBy(t) then m
    else if m.queue == [] then m.(owner := Free)
    else LockState(OwnedBy(m.queue[0]), m.queue[1..])
  }

  function After(m: LockState, c: Call): LockState {
    match c
    case TryLock(t) => Acquire(m, t)
    case LockOrWait(t) => AcquireOrWait(m, t)
    case Unlock(t) => Release(m, t)
  }

  class Mutex {
    var ownerTask: Owner
    var queue: seq<nat>

    function View(): LockState
      reads this
    {
      LockState(ownerTask, queue)
    }

    constructor ()
      ensures View() == UNLOCKED
    {
      ownerTask, queue := Free, [];
    }

    predicate OwnsLock(t: nat)
      reads this
    {
      ownerTask == OwnedBy(t)
    }

    method TryLock(t: nat) returns (success: bool)
      modifies this
      ensures View() == Acquire(old(View()), t)
      ensures success <==> old(ownerTask) == Free
    {
      success := ownerTask == Free;
      if success { ownerTask := OwnedBy(t); }
    }

    /** Takes the lock, or puts the task in the queue; then the caller has to suspend it until it owns the lock. */
    method Lock(t: nat) returns (suspends: bool)
      modifies this
      ensures View() == AcquireOrWait(old(View()), t)
      ensures suspends <==> old(ownerTask) != Free
      ensures !suspends ==> OwnsLock(t)
    {
      var isLockFree := TryLock(t);
      if !isLockFree { queue := queue + [t]; }
      return !isLockFree;
    }

    /** Fails when the task does not own the lock. */
    method Unlock(t: nat) returns (ok: bool)
      modifies this
      ensures ok <==> old(OwnsLock(t))
      ensures View() == Release(old(View()), t)
    {
      if !OwnsLock(t) { return false; }
      ownerTask := Free;
      if queue != [] {
        ownerTask := OwnedBy(queue[0]);
        queue := queue[1..];
      }
      return true;
    }
  }

  // ---------------------------------------------------------------------------------------------------------
  // All sequences of calls without re-entrant locking
  // ---------------------------------------------------------------------------------------------------------

  /** A task that owns the lock or waits for it does not ask for it again. */
  predicate Allowed(m: LockState, c: Call) {
    !c.Unlock? ==> m.owner != OwnedBy(c.t) && c.t !in m.queue
  }

  predicate IsHistory(ms: seq<LockState>, cs: seq<Call>) {
    && |ms| == |cs| + 1
    && ms[0] == UNLOCKED
    && forall i :: 0 <= i < |cs| ==> Allowed(ms[i], cs[i]) && ms[i + 1] == After(ms[i], cs[i])
  }

  predicate QueueInv(m: LockState) {
    && (m.queue != [] ==> m.owner != Free)
    && (forall i, j :: 0 <= i < j < |m.queue| ==> m.queue[i] != m.queue[j])
    && (m.owner.OwnedBy? ==> m.owner.t !in m.queue)
  }

  lemma AfterKeepsQueue(m: LockState, c: Call)
    requires QueueInv(m) && Allowed(m, c)
    ensures QueueInv(After(m, c))
  {}

  /** At any time a non-empty queue means that some task owns the lock; the waiting tasks are distinct, and none of them
      owns it. */
  lemma {:induction false} HistoryKeepsQueue(ms: seq<LockState>, cs: seq<Call>, i: nat)
    requires IsHistory(ms, cs) && i < |ms|
    ensures QueueInv(ms[i])
    decreases i
  {
    if i > 0 {
      HistoryKeepsQueue(ms, cs, i - 1);
      assert ms[i - 1 + 1] == After(ms[i - 1], cs[i - 1]);
      AfterKeepsQueue(ms[i - 1], cs[i - 1]);
    }
  }

  /** A non-blocking or blocking call that gets the lock at once overtakes nobody. */
  lemma NobodyOvertaken(ms: seq<LockState>, cs: seq<Call>, i: nat)
    requires IsHistory(ms, cs) && i < |cs| && !cs[i].Unlock?
    ensures ms[i + 1].owner == OwnedBy(cs[i].t) ==> ms[i].queue == [] && ms[i].owner == Free
  {
    HistoryKeepsQueue(ms, cs, i);
  }

  /** How many of the calls from i up to j release the lock. */
  function Unlocks(ms: seq<LockState>, cs: seq<Call>, i: nat, j: nat): nat
    requires |ms| == |cs| + 1 && i <= j <= |cs|
    decreases j
  {
    if j == i then 0
    else Unlocks(ms, cs, i, j - 1) + if cs[j - 1].Unlock? && ms[j - 1].owner == OwnedBy(cs[j - 1].t) then 1 else 0
  }

  /** The task at position k of the queue moves up by one with every release and gets the lock with release k + 1, no
      sooner and no later, whatever calls are made in between. */
  lemma {:induction false} ServedInOrder(ms: seq<LockState>, cs: seq<Call>, i: nat, j: nat, k: nat)
    requires IsHistory(ms, cs) && i <= j <= |cs| && k < |ms[i].queue|
    ensures var u := Unlocks(ms, cs, i, j);
      && (u <= k ==> k - u < |ms[j].queue| && ms[j].queue[k - u] == ms[i].queue[k] && ms[j].owner != OwnedBy(ms[i].queue[k]))
      && (u == k + 1 && Unlocks(ms, cs, i, j - 1) == k ==> ms[j].owner == OwnedBy(ms[i].queue[k]))
    decreases j
  {
    HistoryKeepsQueue(ms, cs, j);
    if j > i {
      ServedInOrder(ms, cs, i, j - 1, k);
      assert ms[j - 1 + 1] == After(ms[j - 1], cs[j - 1]);
    }
  }
}
