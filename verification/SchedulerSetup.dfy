/** Building a graph before the workers start: creating tasks, adding dependencies, adding tasks to the runtime. */
module SchedulerSetup {
  import opened Scheduler

  /** An added task waits for its predecessors, or it is in the queue its affinity named. */
  predicate AddedOk(s: State, t: nat)
    requires t < |s.place| == |s.dep| == |s.affinity| == |s.named|
  {
    && s.affinity[t] < |s.pc|
    && (s.place[t].Blocked? || s.place[t].Queued?)
    && (s.place[t].Blocked? <==> s.dep[t] > 0)
    && (s.place[t].Queued? ==> s.named[t] == s.place[t].a && TaskOk(s, t))
  }

  predicate CountsEdges(s: State, t: nat)
    requires t < |s.dep|
  {
    s.dep[t] == |s.g.Into(t)|
  }

  /** Tasks are being created and added, and no worker has started. */
  predicate Setup(s: State, added: set<nat>) {
    && s.g.Closed()
    && |s.dep| == |s.pending| == |s.affinity| == |s.named| == |s.place| == Tasks(s)
    && |s.ready| == |s.pc| + 1
    && (forall t :: 0 <= t < |s.dep| ==> CountsEdges(s, t))
    && (forall a :: 0 <= a < |s.ready| ==> QueueOk(s, a))
    && (forall t :: t in added ==> t < |s.place| && AddedOk(s, t))
    && (forall t :: 0 <= t < |s.place| && t !in added ==> s.place[t].Absent?)
    && s.active == |added|
    && s.inside == 0 && !s.force
    && forall w :: 0 <= w < |s.pc| ==> s.pc[w] == Idle
  }

  function WithNewTask(s: State, affinity: int): State {
    s.(g := Graph(s.g.out + [[]]), dep := s.dep + [0], pending := s.pending + [[]], affinity := s.affinity + [affinity],
       named := s.named + [0], place := s.place + [Absent])
  }

  function WithDependency(s: State, t: nat, p: nat): State
    requires t < |s.dep| && p < |s.g.out|
  {
    s.(g := Graph(s.g.out[p := s.g.out[p] + [t]]), dep := s.dep[t := s.dep[t] + 1])
  }

  function WithAddedTask(s: State, t: nat): (r: State)
    requires t < |s.dep| == |s.place| == |s.affinity| == |s.named| && |s.ready| == |s.pc| + 1
    requires s.dep[t] > 0 || s.affinity[t] < |s.pc|
    ensures r.g == s.g && r.affinity == s.affinity && r.pending == s.pending && r.pc == s.pc
  {
    ResumeTask(if s.dep[t] > 0 then Put(s, t, Blocked) else s, t).(active := s.active + 1)
  }

  lemma NewTaskEdges(g: Graph, t: nat)
    ensures Graph(g.out + [[]]).Into(t) == g.Into(t)
  {
    var g' := Graph(g.out + [[]]);
    forall e ensures e in g'.Edges() <==> e in g.Edges() {}
  }

  lemma NewDependencyEdges(g: Graph, p: nat, t: nat, u: nat)
    requires p < |g.out|
    ensures Edge(p, |g.out[p]|) !in g.Edges()
    ensures Graph(g.out[p := g.out[p] + [t]]).Into(u) == g.Into(u) + if u == t then {Edge(p, |g.out[p]|)} else {}
  {
    var g' := Graph(g.out[p := g.out[p] + [t]]);
    var e0 := Edge(p, |g.out[p]|);
    forall e ensures e in g'.Edges() <==> e in g.Edges() || e == e0 {}
    forall e | e in g.Edges() ensures g'.out[e.from][e.slot] == g.out[e.from][e.slot] {}
  }

  lemma NewTaskKeepsSetup(s: State, added: set<nat>, affinity: int)
    requires Setup(s, added)
    ensures Setup(WithNewTask(s, affinity), added)
  {
    var s' := WithNewTask(s, affinity);
    forall u | 0 <= u < |s'.dep| ensures CountsEdges(s', u) {
      NewTaskEdges(s.g, u);
      if u < |s.dep| { assert CountsEdges(s, u); } else { assert s.g.Into(u) == {}; }
    }
    forall a | 0 <= a < |s'.ready| ensures QueueOk(s', a) { assert QueueOk(s, a); }
    forall u | u in added ensures AddedOk(s', u) { assert AddedOk(s, u); }
  }

  lemma DependencyKeepsSetup(s: State, added: set<nat>, t: nat, p: nat)
    requires Setup(s, added) && t < Tasks(s) && p < Tasks(s) && t !in added
    ensures Setup(WithDependency(s, t, p), added)
  {
    var s' := WithDependency(s, t, p);
    forall u | 0 <= u < |s'.dep| ensures CountsEdges(s', u) {
      NewDependencyEdges(s.g, p, t, u);
      assert CountsEdges(s, u);
    }
    forall a | 0 <= a < |s'.ready| ensures QueueOk(s', a) { assert QueueOk(s, a); }
    forall u | u in added ensures AddedOk(s', u) { assert AddedOk(s, u); }
  }

  lemma AddedTaskKeepsSetup(s: State, added: set<nat>, t: nat)
    requires Setup(s, added) && t < Tasks(s) && t !in added && s.affinity[t] < |s.pc|
    ensures Setup(WithAddedTask(s, t), added + {t})
  {
    var s' := WithAddedTask(s, t);
    var a := QueueOf(s, t);
    assert s.dep[t] <= 0 ==> s'.ready[a][|s.ready[a]|] == t;
    forall u | 0 <= u < |s'.dep| ensures CountsEdges(s', u) { assert CountsEdges(s, u); }
    forall b | 0 <= b < |s'.ready| ensures QueueOk(s', b) { assert QueueOk(s, b); }
    forall u | u in added + {t} ensures u < |s'.place| && AddedOk(s', u) {
      if u != t {
        assert AddedOk(s, u);
      }
    }
  }

  /** With all tasks added, the workers can start. */
  lemma SetupInit(s: State, added: set<nat>)
    requires Setup(s, added) && (forall t: nat :: t in added <==> t < Tasks(s))
    ensures Init(s)
  {
    forall t | 0 <= t < Tasks(s)
      ensures TaskOk(s, t) && AddedOk(s, t) && s.dep[t] == |s.g.Into(t)| && (s.place[t].Blocked? || s.place[t].Queued?)
    {
      assert t in added && AddedOk(s, t) && CountsEdges(s, t);
    }
    forall t | 0 <= t < |s.affinity| ensures s.affinity[t] < |s.pc| { assert AddedOk(s, t); }
    CountUpTo(added, Tasks(s));
  }

  lemma {:induction false} CountUpTo(a: set<nat>, n: nat)
    requires forall t: nat :: t in a <==> t < n
    ensures |a| == n
    decreases n
  {
    if n == 0 {
      assert a == {};
    } else {
      CountUpTo(a - {n - 1}, n - 1);
    }
  }
}
