/** The notification flags of a condition variable and the queue of those that wait. */
module Notices {
  /** Every wait of a task has a flag of its own: the task and the number of the wait. */
  datatype Flag = Flag(task: nat, wait: nat)

  /** The flags queued, oldest first, and all flags that are true. */
  datatype Notices = Notices(waiting: seq<Flag>, raised: set<Flag>)

  const NO_NOTICES := Notices([], {})

  /** The flag is cleared and queued behind those that wait already. */
  function Queue(n: Notices, f: Flag): Notices {
    Notices(n.waiting + [f], n.raised - {f})
  }

  /** The oldest flag is raised and taken out of the queue. */
  function Notify(n: Notices): Notices {
    if n.waiting == [] then n else Notices(n.waiting[1..], n.raised + {n.waiting[0]})
  }

  /** Every flag in the queue is raised, no other, and the queue is empty. */
  function NotifyEvery(n: Notices): Notices {
    Notices([], n.raised + set f | f in n.waiting)
  }

  /** Notifying the oldest until none is left is notifying all. */
  lemma {:induction false} NotifyEveryByOne(n: Notices)
    ensures n.waiting == [] ==> NotifyEvery(n) == n
    ensures n.waiting != [] ==> NotifyEvery(n) == NotifyEvery(Notify(n))
  {
    if n.waiting == [] {
      assert n.raised + (set f | f in n.waiting) == n.raised;
    } else {
      assert n.waiting == [n.waiting[0]] + n.waiting[1..];
      assert n.raised + (set f | f in n.waiting) == (n.raised + {n.waiting[0]}) + (set f | f in n.waiting[1..]);
    }
  }

  // ---------------------------------------------------------------------------------------------------------
  // The objects: the queue holds references to the flags
  // ---------------------------------------------------------------------------------------------------------

  class NotificationFlag {
    const name: Flag
    var isSet: bool

    constructor (name: Flag)
      ensures this.name == name && !isSet
    {
      this.name := name;
      isSet := false;
    }
  }

  function Names(q: seq<NotificationFlag>): seq<Flag> {
    seq(|q|, i requires 0 <= i < |q| => q[i].name)
  }

  class WaitingTasks {
    var queue: seq<NotificationFlag>
    ghost var flags: set<NotificationFlag>    // all flags ever queued

    ghost predicate Valid()
      reads this
    {
      && (forall c :: c in queue ==> c in flags)
      && (forall c, d :: c in flags && d in flags && c.name == d.name ==> c == d)
    }

    ghost function View(): Notices
      reads this, flags
    {
      Notices(Names(queue), set c | c in flags && c.isSet :: c.name)
    }

    constructor ()
      ensures Valid() && View() == NO_NOTICES && flags == {}
    {
      queue, flags := [], {};
    }

    /** A wait queues its flag, which no other wait has used. */
    method Push(flag: NotificationFlag)
      requires Valid() && flag !in flags && forall c :: c in flags ==> c.name != flag.name
      modifies this, flag
      ensures Valid() && flags == old(flags) + {flag}
      ensures View() == Queue(old(View()), flag.name)
    {
      flag.isSet := false;
      queue := queue + [flag];
      flags := flags + {flag};
      assert Names(queue) == old(Names(queue)) + [flag.name];
      forall f ensures f in View().raised <==> f in old(View()).raised - {flag.name} {
        if f in old(View()).raised {
          var c :| c in old(flags) && old(c.isSet) && c.name == f;
          assert c in flags && c.isSet;
        }
      }
    }

    method NotifyOne()
      requires Valid()
      modifies this, flags
      ensures Valid() && flags == old(flags)
      ensures View() == Notify(old(View()))
    {
      if queue != [] {
        var notificationFlag := queue[0];
        queue := queue[1..];
        notificationFlag.isSet := true;
        assert Names(queue) == old(Names(queue))[1..];
        forall f ensures f in View().raised <==> f in old(View()).raised + {notificationFlag.name} {
          if f in old(View()).raised {
            var c :| c in flags && old(c.isSet) && c.name == f;
            assert c.isSet;
          }
        }
      }
    }

    method NotifyAll()
      requires Valid()
      modifies this, flags
      ensures Valid() && flags == old(flags)
      ensures View() == NotifyEvery(old(View()))
    {
      while queue != []
        invariant Valid() && flags == old(flags)
        invariant NotifyEvery(View()) == NotifyEvery(old(View()))
        decreases |queue|
      {
        NotifyEveryByOne(View());
        NotifyOne();
      }
      NotifyEveryByOne(View());
    }
  }
}
