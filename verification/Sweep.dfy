/**
 One pass of the work stealing scheduler over the queues: drain the own queue from the back,
 then up to NCPU - 1 victims from the front, until a RUNNABLE process is found. Nobody else
 touches the queues, the process states or the generator during the pass.
 */
module Sweep {
  import opened Kernel
  import opened Ring
  import opened Victim
  import opened Congruence

  predicate Ready(procs: seq<Proc>, p: nat) { p < |procs| && procs[p].state.RUNNABLE? }

  /** No entry of the queue is RUNNABLE. */
  predicate AllStale(procs: seq<Proc>, q: seq<nat>) { forall i {:trigger q[i]} :: 0 <= i < |q| ==> !Ready(procs, q[i]) }

  /** What a drain leaves of queue q: nothing, after entries that were all stale; or the rest
      behind the first RUNNABLE entry p from that end. */
  ghost predicate DrainedBack(procs: seq<Proc>, q: seq<nat>, rest: seq<nat>, found: Option<nat>) {
    match found
    case None => rest == [] && AllStale(procs, q)
    case Some(p) => Ready(procs, p) && rest + [p] <= q && AllStale(procs, q[|rest| + 1..])
  }

  ghost predicate DrainedFront(procs: seq<Proc>, q: seq<nat>, rest: seq<nat>, found: Option<nat>) {
    match found
    case None => rest == [] && AllStale(procs, q)
    case Some(p) =>
      && Ready(procs, p) && |rest| < |q|
      && q[|q| - |rest| - 1..] == [p] + rest && AllStale(procs, q[..|q| - |rest| - 1])
  }

  lemma BackStep(procs: seq<Proc>, q: seq<nat>, n: nat)
    requires 0 < n <= |q| && AllStale(procs, q[n..])
    ensures After(q[..n], PopBack) == q[..n - 1] && Returned(q[..n], PopBack) == Some(q[n - 1])
    ensures if Ready(procs, q[n - 1]) then DrainedBack(procs, q, q[..n - 1], Some(q[n - 1]))
        else AllStale(procs, q[n - 1..])
  {
    assert q[n - 1..] == [q[n - 1]] + q[n..];
  }

  lemma FrontStep(procs: seq<Proc>, q: seq<nat>, n: nat)
    requires n < |q| && AllStale(procs, q[..n])
    ensures After(q[n..], PopFront) == q[n + 1..] && Returned(q[n..], PopFront) == Some(q[n])
    ensures if Ready(procs, q[n]) then DrainedFront(procs, q, q[n + 1..], Some(q[n])) else AllStale(procs, q[..n + 1])
  {
    assert q[..n + 1] == q[..n] + [q[n]];
    assert q[n..] == [q[n]] + q[n + 1..];
  }

  lemma WholeQueue(procs: seq<Proc>, q: seq<nat>)
    ensures q[..|q|] == q == q[0..] && AllStale(procs, q[|q|..]) && AllStale(procs, q[..0])
  {
  }

  /** The loop over the local queue; MAX_TASKS pops always suffice to empty it. */
  method DrainLocal(c: TaskQueue, procs: seq<Proc>) returns (found: Option<nat>)
    requires c.Valid()
    modifies c
    ensures c.Valid() && c.queue == old(c.queue)
    ensures DrainedBack(procs, old(c.Contents()), c.Contents(), found)
  {
    hide AllStale, After;
    found := None;
    var count := 0;
    ghost var q := c.Contents();
    ghost var n: nat := |q|;
    WholeQueue(procs, q);
    while count < MAX_TASKS
      invariant 0 <= count && c.Valid() && c.queue == old(c.queue)
      invariant n <= |q| && n + count == |q| && c.Contents() == q[..n] && AllStale(procs, q[n..])
    {
      count := count + 1;
      var temp := c.TakeBack();
      if temp.None? {
        NothingLeft(q[..n], PopBack);
        assert q[n..] == q;
        return;
      }
      BackStep(procs, q, n);
      if temp.value < |procs| && procs[temp.value].state.RUNNABLE? {
        found := temp;
        return;
      }
      n := n - 1;
    }
  }

  lemma NothingLeft(q: seq<nat>, op: QueueOp)
    requires !op.Push?
    ensures q == [] ==> After(q, op) == []
  {
  }

  /** The loop over a victim's queue. */
  method DrainVictim(c: TaskQueue, procs: seq<Proc>) returns (found: Option<nat>)
    requires c.Valid()
    modifies c
    ensures c.Valid() && c.queue == old(c.queue)
    ensures DrainedFront(procs, old(c.Contents()), c.Contents(), found)
  {
    hide AllStale, After;
    found := None;
    var count := 0;
    ghost var q := c.Contents();
    WholeQueue(procs, q);
    while count < MAX_TASKS
      invariant 0 <= count <= |q| && c.Valid() && c.queue == old(c.queue)
      invariant c.Contents() == q[count..] && AllStale(procs, q[..count])
    {
      var temp := c.TakeFront();
      if temp.None? {
        NothingLeft(q[count..], PopFront);
        assert q[..count] == q;
        return;
      }
      FrontStep(procs, q, count);
      count := count + 1;
      if temp.value < |procs| && procs[temp.value].state.RUNNABLE? {
        found := temp;
        return;
      }
    }
  }

  // ---------- The pass ----------

  /** The queues of all CPUs are separate objects. */
  ghost predicate Separate(cpus: seq<TaskQueue>)
    reads set c | c in cpus
  {
    && (forall i {:trigger cpus[i]} :: 0 <= i < |cpus| ==> cpus[i].Valid())
    && forall i, j {:trigger cpus[i], cpus[j]} :: 0 <= i < j < |cpus| ==>
        cpus[i] != cpus[j] && cpus[i].queue != cpus[j].queue
  }

  /** The contents of all queues. */
  ghost function Queues(cpus: seq<TaskQueue>): (qs: seq<seq<nat>>)
    reads set c | c in cpus, set c | c in cpus :: c.queue
    requires Separate(cpus)
    ensures |qs| == |cpus| && forall i {:trigger qs[i]} :: 0 <= i < |cpus| ==> qs[i] == cpus[i].Contents()
  {
    seq(|cpus|, i
      requires 0 <= i < |cpus| && Separate(cpus)
      reads set c | c in cpus, set c | c in cpus :: c.queue
      => cpus[i].Contents())
  }

  /** Queue i of `before` has been emptied of stale entries only. */
  ghost predicate Emptied(procs: seq<Proc>, before: seq<nat>, now: seq<nat>) { now == [] && AllStale(procs, before) }

  /** What a pass that did not find anything leaves: every queue empty, no entry lost that
      was RUNNABLE. */
  ghost predicate AllEmptied(procs: seq<Proc>, before: seq<seq<nat>>, now: seq<seq<nat>>) {
    |now| == |before| && forall i {:trigger now[i]} :: 0 <= i < |now| ==> Emptied(procs, before[i], now[i])
  }

  /** A pass that found p: it is the first RUNNABLE entry from its end of queue `from`; every
      other queue is untouched or emptied of stale entries, the own queue being first. */
  ghost predicate FoundIn(procs: seq<Proc>, before: seq<seq<nat>>, now: seq<seq<nat>>, id: nat, p: nat, from: nat) {
    && |now| == |before| && from < |now| && id < |now|
    && (if from == id then DrainedBack(procs, before[id], now[id], Some(p))
        else DrainedFront(procs, before[from], now[from], Some(p)) && Emptied(procs, before[id], now[id]))
    && forall i {:trigger now[i]} :: 0 <= i < |now| && i != from ==>
        now[i] == before[i] || Emptied(procs, before[i], now[i])
  }

  /** The search of one scheduler iteration finds a process exactly when some queue holds a
      RUNNABLE entry; when it finds none, all queues are empty and lost stale entries only. */
  method FindWork(cpus: seq<TaskQueue>, id: nat, gen: Generator, procs: seq<Proc>, ghost k: nat)
    returns (found: Option<nat>)
    requires Separate(cpus) && |cpus| == Pow2(k) && k <= 32 && id < |cpus| && gen.Valid()
    modifies gen, set c | c in cpus
    ensures Separate(cpus) && gen.Valid()
    ensures match found
      case None => AllEmptied(procs, old(Queues(cpus)), Queues(cpus))
      case Some(p) => Ready(procs, p) && exists from: nat ::
          FoundIn(procs, old(Queues(cpus)), Queues(cpus), id, p, from)
    ensures found.Some? <==> HasWork(procs, old(Queues(cpus)))
  {
    hide HasWork, AllEmptied, AllStale, DrainedBack, DrainedFront, Calls, FirstOther, Draw, Seed, Pow2, Ready, FoundIn,
        Progress, Queues, Separate;
    ghost var before := Queues(cpus);
    var ncpu := |cpus|;
    found := TakeOwn(cpus, id, procs);
    ghost var now := Queues(cpus);
    OwnDrained(procs, before, now, id, found);

    var attempts := 0;
    ghost var x: nat, n: nat, vs: seq<nat> := gen.rand_seed, 0, [];
    StartCalls(x, ncpu, id);
    while found.None? && attempts < ncpu - 1
      invariant Separate(cpus) && gen.Valid() && Queues(cpus) == now
      invariant attempts == |vs| && (found.None? ==> attempts <= ncpu - 1)
      invariant Calls(x, ncpu, id, vs, n) && gen.rand_seed == Seed(x, n)
      invariant found.None? ==> Progress(procs, before, now, id, vs)
      invariant found.Some? ==>
          Ready(procs, found.value) && exists from: nat :: FoundIn(procs, before, now, id, found.value, from)
      decreases ncpu - attempts
    {
      attempts := attempts + 1;
      var victim := Choose(cpus, id, gen, x, n, vs);
      ghost var m: nat :| Calls(x, ncpu, id, vs + [victim], m) && gen.rand_seed == Seed(x, m);
      n, vs := m, vs + [victim];
      found := StealFrom(cpus, victim, procs);
      ghost var left := Queues(cpus);
      VictimDrained(procs, before, now, left, id, vs, victim, found);
      now := left;
    }
    if found.None? {
      VictimCoverage(x, k, id, vs, n);
      AllVisited(procs, before, now, id, vs);
      EmptiedNoWork(procs, before, now);
    } else {
      ghost var from: nat :| FoundIn(procs, before, now, id, found.value, from);
      FoundWork(procs, before, now, id, found.value, from);
    }
  }

  /** Some queue holds a RUNNABLE entry. */
  ghost predicate HasWork(procs: seq<Proc>, qs: seq<seq<nat>>) {
    exists i {:trigger qs[i]} :: 0 <= i < |qs| && !AllStale(procs, qs[i])
  }

  lemma EmptiedNoWork(procs: seq<Proc>, before: seq<seq<nat>>, now: seq<seq<nat>>)
    requires AllEmptied(procs, before, now)
    ensures !HasWork(procs, before)
  {
    forall i | 0 <= i < |before| ensures AllStale(procs, before[i]) { assert Emptied(procs, before[i], now[i]); }
  }

  lemma FoundWork(procs: seq<Proc>, before: seq<seq<nat>>, now: seq<seq<nat>>, id: nat, p: nat, from: nat)
    requires FoundIn(procs, before, now, id, p, from) && Ready(procs, p)
    ensures HasWork(procs, before)
  {
    var q, rest := before[from], now[from];
    if from == id { assert q[|rest|] == (rest + [p])[|rest|] == p; }
    else { assert q[|q| - |rest| - 1] == q[|q| - |rest| - 1..][0] == p; }
  }

  /** select_victim, as one more call in a row of calls. */
  method Choose(cpus: seq<TaskQueue>, id: nat, gen: Generator, ghost x: nat, ghost n: nat, ghost vs: seq<nat>)
      returns (victim: nat)
    requires gen.Valid() && 2 <= |cpus|
    requires Calls(x, |cpus|, id, vs, n) && gen.rand_seed == Seed(x, n)
    modifies gen
    ensures gen.Valid() && victim < |cpus| && victim != id
    ensures exists m: nat {:trigger Seed(x, m)} :: Calls(x, |cpus|, id, vs + [victim], m) && gen.rand_seed == Seed(x, m)
  {
    hide Calls, FirstOther, Draw, Seed;
    victim := gen.SelectVictim(id, |cpus|);
    ghost var m: nat :| FirstOther(Seed(x, n), |cpus|, id, m) && gen.rand_seed == Seed(Seed(x, n), m)
        && victim == Draw(Seed(x, n), |cpus|, m);
    CallsGrow(x, |cpus|, id, vs, n, m);
    SeedAdds(x, n, m);
  }

  method TakeOwn(cpus: seq<TaskQueue>, id: nat, procs: seq<Proc>) returns (found: Option<nat>)
    requires Separate(cpus) && id < |cpus|
    modifies cpus[id]
    ensures Separate(cpus) && Queues(cpus) == old(Queues(cpus))[id := Queues(cpus)[id]]
    ensures DrainedBack(procs, old(Queues(cpus))[id], Queues(cpus)[id], found)
  {
    hide DrainedBack;
    found := DrainLocal(cpus[id], procs);
    assert forall i :: 0 <= i < |cpus| && i != id ==> cpus[i].Contents() == old(cpus[i].Contents());
  }

  method StealFrom(cpus: seq<TaskQueue>, victim: nat, procs: seq<Proc>) returns (found: Option<nat>)
    requires Separate(cpus) && victim < |cpus|
    modifies cpus[victim]
    ensures Separate(cpus) && Queues(cpus) == old(Queues(cpus))[victim := Queues(cpus)[victim]]
    ensures DrainedFront(procs, old(Queues(cpus))[victim], Queues(cpus)[victim], found)
  {
    hide DrainedFront;
    found := DrainVictim(cpus[victim], procs);
    assert forall i :: 0 <= i < |cpus| && i != victim ==> cpus[i].Contents() == old(cpus[i].Contents());
  }

  lemma OwnDrained(procs: seq<Proc>, before: seq<seq<nat>>, now: seq<seq<nat>>, id: nat, found: Option<nat>)
    requires |now| == |before| && id < |now| && now == before[id := now[id]]
        && DrainedBack(procs, before[id], now[id], found)
    ensures found.None? ==> Progress(procs, before, now, id, [])
    ensures found.Some? ==> Ready(procs, found.value) && FoundIn(procs, before, now, id, found.value, id)
  {
  }

  lemma AllVisited(procs: seq<Proc>, before: seq<seq<nat>>, now: seq<seq<nat>>, id: nat, vs: seq<nat>)
    requires Progress(procs, before, now, id, vs) && forall v: nat :: v < |now| && v != id ==> v in vs
    ensures AllEmptied(procs, before, now)
  {
  }

  /** The own queue and the victims so far are emptied, the other queues untouched. */
  ghost predicate Progress(procs: seq<Proc>, before: seq<seq<nat>>, now: seq<seq<nat>>, id: nat, vs: seq<nat>) {
    && |now| == |before|
    && forall i {:trigger now[i]} :: 0 <= i < |now| ==>
         if i == id || i in vs then Emptied(procs, before[i], now[i]) else now[i] == before[i]
  }

  lemma StartCalls(x: nat, ncpu: nat, id: nat)
    requires ncpu > 0
    ensures Calls(x, ncpu, id, [], 0) && Seed(x, 0) == x
  {
  }

  lemma VictimDrained(procs: seq<Proc>, before: seq<seq<nat>>, now: seq<seq<nat>>, left: seq<seq<nat>>, id: nat,
      vs: seq<nat>,
                      victim: nat, found: Option<nat>)
    requires |vs| > 0 && vs[|vs| - 1] == victim && Progress(procs, before, now, id, vs[..|vs| - 1])
    requires |left| == |now| && id < |now| && victim < |now| && victim != id && left == now[victim := left[victim]]
    requires DrainedFront(procs, now[victim], left[victim], found)
    ensures found.None? ==> Progress(procs, before, left, id, vs)
    ensures found.Some? ==> Ready(procs, found.value) && FoundIn(procs, before, left, id, found.value, victim)
  {
    hide AllStale;
    ghost var ws := vs[..|vs| - 1];
    assert vs == ws + [victim];
    if victim in ws { EmptyDrained(procs, now[victim], left[victim], found); }
  }

  /** There is nothing to find in an empty queue. */
  lemma EmptyDrained(procs: seq<Proc>, q: seq<nat>, rest: seq<nat>, found: Option<nat>)
    requires DrainedFront(procs, q, rest, found) && q == []
    ensures found.None?
  {
  }
}
