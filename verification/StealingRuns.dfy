/**
 The search for work in runs of the work stealing scheduler: if only one CPU's scheduler moves
 during a pass, the pass takes what Sweep says: the RUNNABLE entry nearest to the rear of its
 own queue, or the one nearest to the front of a victim's.
 */
module StealingRuns {
  import opened Kernel
  import opened KernelLocks
  import opened KernelSafe
  import opened KernelTree
  import opened KernelPush
  import opened KernelCalls
  import opened Refinement
  import opened StealingMachine
  import Sweep

  // ---------- Queues never overflow ----------

  ghost predicate QueuesFit(w: WState) {
    forall k {:trigger w.queues[k]} :: 0 <= k < |w.queues| ==> |w.queues[k]| < Ring.MAX_TASKS
  }

  lemma StepFits(w: WState, t: WStep, w': WState)
    requires WNextStep(w, t, w') && QueuesFit(w)
    ensures QueuesFit(w')
  {
    hide NextStep, SchedAcqStep, SchedRelStep, DispatchStep, ClearStep;
  }

  lemma {:induction false} RunFits(tr: seq<WState>, i: nat)
    requires WRun(tr) && i < |tr|
    ensures QueuesFit(tr[i])
  {
    hide WNextStep, QueuesFit, WInit;
    if i == 0 {
      InitFits(tr[0]);
    } else {
      RunFits(tr, i - 1);
      assert WNext(tr[i - 1], tr[i]);
      var t :| WNextStep(tr[i - 1], t, tr[i]);
      StepFits(tr[i - 1], t, tr[i]);
    }
  }

  lemma InitFits(w: WState)
    requires WInit(w)
    ensures QueuesFit(w)
  {
  }

  // ---------- A pass ----------

  /** A step of CPU k's search. */
  predicate OfPass(t: WStep, k: nat) {
    (t.TakeLocal? || t.PickVictim? || t.TakeRemote? || t.LockEntry? || t.DropEntry?) && t.k == k
  }

  /** From state m, where CPU k starts a pass, to state n only CPU k moves, and it searches. */
  ghost predicate AlonePass(tr: seq<WState>, st: seq<WStep>, k: nat, m: nat, n: nat) {
    && m <= n < |tr| && n <= |st| && WShape(tr[m]) && k < |tr[m].sched| && tr[m].sched[k] == Look(Local(0))
    && (forall x {:trigger st[x]} :: m <= x < n ==> OfPass(st[x], k))
    && forall x, y {:trigger WNextStep(tr[x], st[x], tr[y])} :: m <= x < n && y == x + 1 ==>
        WNextStep(tr[x], st[x], tr[y])
  }

  /** The victims picked from step m up to n. */
  function Picks(st: seq<WStep>, m: nat, n: nat): seq<nat>
    requires n <= |st|
    decreases n
  {
    if n <= m then []
    else Picks(st, m, n - 1) + if st[n - 1].PickVictim? then [st[n - 1].v] else []
  }

  /** c entries have been taken from the rear of q, all stale, and `now` is left. */
  ghost predicate TakenBack(procs: seq<Proc>, q: seq<nat>, now: seq<nat>, c: nat) {
    now <= q && c == |q| - |now| && Sweep.AllStale(procs, q[|now|..])
  }

  /** The last of the entries taken is p, and it has not been judged yet. */
  ghost predicate HeldBack(procs: seq<Proc>, q: seq<nat>, now: seq<nat>, c: nat, p: nat) {
    now + [p] <= q && c == |q| - |now| && Sweep.AllStale(procs, q[|now| + 1..])
  }

  ghost predicate TakenFront(procs: seq<Proc>, q: seq<nat>, now: seq<nat>, c: nat) {
    && |now| <= |q| && q[|q| - |now|..] == now && c <= |q| - |now|
    && Sweep.AllStale(procs, q[..|q| - |now|])
  }

  ghost predicate HeldFront(procs: seq<Proc>, q: seq<nat>, now: seq<nat>, c: nat, p: nat) {
    && |now| < |q| && q[|q| - |now| - 1..] == [p] + now && c <= |q| - |now|
    && Sweep.AllStale(procs, q[..|q| - |now| - 1])
  }

  lemma BackTaken(procs: seq<Proc>, q: seq<nat>, now: seq<nat>, c: nat)
    requires TakenBack(procs, q, now, c) && now != []
    ensures HeldBack(procs, q, Ring.After(now, Ring.PopBack), c + 1, Ring.Returned(now, Ring.PopBack).value)
  {
    assert now[..|now| - 1] + [now[|now| - 1]] == now;
  }

  lemma BackDropped(procs: seq<Proc>, q: seq<nat>, now: seq<nat>, c: nat, p: nat)
    requires HeldBack(procs, q, now, c, p) && !Sweep.Ready(procs, p)
    ensures TakenBack(procs, q, now, c)
  {
    assert (now + [p])[|now|] == q[|now|] == p;
    assert q[|now|..] == [p] + q[|now| + 1..];
    assert now <= now + [p];
  }

  lemma FrontTaken(procs: seq<Proc>, q: seq<nat>, now: seq<nat>, c: nat)
    requires TakenFront(procs, q, now, c) && now != []
    ensures HeldFront(procs, q, Ring.After(now, Ring.PopFront), c + 1, Ring.Returned(now, Ring.PopFront).value)
  {
    assert [now[0]] + now[1..] == now;
  }

  lemma FrontDropped(procs: seq<Proc>, q: seq<nat>, now: seq<nat>, c: nat, p: nat)
    requires HeldFront(procs, q, now, c, p) && !Sweep.Ready(procs, p)
    ensures TakenFront(procs, q, now, c)
  {
    var d := |q| - |now| - 1;
    assert q[d] == q[d..][0] == p;
    assert q[d + 1..] == q[d..][1..] == now;
    assert q[..d + 1] == q[..d] + [p];
  }

  lemma NothingTaken(procs: seq<Proc>, q: seq<nat>)
    ensures TakenBack(procs, q, q, 0) && TakenFront(procs, q, q, 0)
  {
    assert q[|q| - |q|..] == q;
  }

  lemma StaleTaken(procs: seq<Proc>, q: seq<nat>)
    ensures Sweep.AllStale(procs, q) ==> TakenFront(procs, q, [], 0)
  {
    assert q[..|q|] == q;
  }

  lemma AllTaken(procs: seq<Proc>, q: seq<nat>, c: nat)
    ensures TakenBack(procs, q, [], c) || TakenFront(procs, q, [], c) ==> Sweep.Emptied(procs, q, [])
  {
    assert q[0..] == q == q[..|q|];
  }

  /** Apart from queue `busy`, the own queue (once it is done) and the victims are emptied and
      the other queues untouched. */
  ghost predicate Swept(procs: seq<Proc>, before: seq<seq<nat>>, now: seq<seq<nat>>, done: seq<nat>,
                        busy: Option<nat>) {
    && |now| == |before|
    && forall i {:trigger now[i]} :: 0 <= i < |now| && busy != Some(i) ==>
         if i in done then Sweep.Emptied(procs, before[i], now[i]) else now[i] == before[i]
  }

  /** Where the pass of CPU k stands after it has picked the victims vs. */
  ghost predicate PassOk(w: WState, k: nat, procs: seq<Proc>, before: seq<seq<nat>>, vs: seq<nat>) {
    && WShape(w) && k < |w.sched| && w.core.procs == procs && |w.queues| == |before|
    && match w.sched[k]
       case Look(h) => HuntOk(procs, before, w.queues, k, vs, h, None)
       case Entry(h, p) => HuntOk(procs, before, w.queues, k, vs, h, Some(p))
       case Locked(h, p) => HuntOk(procs, before, w.queues, k, vs, h, Some(p))
       case _ => false
  }

  ghost predicate HuntOk(procs: seq<Proc>, before: seq<seq<nat>>, now: seq<seq<nat>>, k: nat, vs: seq<nat>, h: Hunt,
                         held: Option<nat>)
    requires k < |now| == |before|
  {
    match h
    case Local(c) =>
      && vs == [] && Swept(procs, before, now, [], Some(k))
      && if held.Some? then HeldBack(procs, before[k], now[k], c, held.value)
         else TakenBack(procs, before[k], now[k], c)
    case Choose(a) => held.None? && a == |vs| < |now| && Swept(procs, before, now, [k] + vs, None)
    case Remote(a, v, c) =>
      && 0 < a == |vs| < |now| && v == vs[|vs| - 1] && v < |now| && v != k
      && Swept(procs, before, now, [k] + vs, Some(v))
      && if held.Some? then HeldFront(procs, before[v], now[v], c, held.value)
         else TakenFront(procs, before[v], now[v], c)
  }

  // ---------- The steps of a pass ----------

  /** The victims after a step. */
  function PicksAfter(vs: seq<nat>, t: WStep): seq<nat> { vs + if t.PickVictim? then [t.v] else [] }

  lemma LocalStep(w: WState, k: nat, w': WState, procs: seq<Proc>, before: seq<seq<nat>>, vs: seq<nat>)
    requires TakeLocalStep(w, k, w') && PassOk(w, k, procs, before, vs) && |before[k]| < Ring.MAX_TASKS
    ensures PassOk(w', k, procs, before, vs)
  {
    hide HeldBack, TakenBack, Sweep.Emptied;
    var q := w.queues[k];
    var c := w.sched[k].h.count;
    LeftOver(procs, before[k], q, c);
    if q != [] { BackTaken(procs, before[k], q, c); } else { AllTaken(procs, before[k], c); }
  }

  lemma LeftOver(procs: seq<Proc>, q: seq<nat>, now: seq<nat>, c: nat)
    requires TakenBack(procs, q, now, c) || TakenFront(procs, q, now, c)
    ensures c <= |q|
  {
  }

  lemma PickStep(w: WState, k: nat, v: nat, w': WState, procs: seq<Proc>, before: seq<seq<nat>>, vs: seq<nat>)
    requires PickVictimStep(w, k, v, w') && PassOk(w, k, procs, before, vs)
    ensures PassOk(w', k, procs, before, vs + [v])
  {
    hide TakenFront, Sweep.AllStale;
    NothingTaken(procs, before[v]);
    StaleTaken(procs, before[v]);
  }

  lemma RemoteStep(w: WState, k: nat, w': WState, procs: seq<Proc>, before: seq<seq<nat>>, vs: seq<nat>)
    requires TakeRemoteStep(w, k, w') && PassOk(w, k, procs, before, vs)
    requires forall i {:trigger before[i]} :: 0 <= i < |before| ==> |before[i]| < Ring.MAX_TASKS
    ensures PassOk(w', k, procs, before, vs)
  {
    hide HeldFront, TakenFront, Sweep.Emptied;
    var v, c := w.sched[k].h.victim, w.sched[k].h.count;
    var q := w.queues[v];
    LeftOver(procs, before[v], q, c);
    if q != [] { FrontTaken(procs, before[v], q, c); } else { AllTaken(procs, before[v], c); }
  }

  lemma LockStep(w: WState, k: nat, w': WState, procs: seq<Proc>, before: seq<seq<nat>>, vs: seq<nat>)
    requires LockEntryStep(w, k, w') && PassOk(w, k, procs, before, vs)
    ensures PassOk(w', k, procs, before, vs)
  {
    hide HuntOk;
  }

  lemma DropStep(w: WState, k: nat, w': WState, procs: seq<Proc>, before: seq<seq<nat>>, vs: seq<nat>)
    requires DropEntryStep(w, k, w') && PassOk(w, k, procs, before, vs)
    ensures PassOk(w', k, procs, before, vs)
  {
    hide HeldFront, TakenFront, HeldBack, TakenBack, Swept;
    var h, p := w.sched[k].h, w.sched[k].q;
    if h.Local? {
      BackDropped(procs, before[k], w.queues[k], h.count, p);
    } else if h.Remote? {
      FrontDropped(procs, before[h.victim], w.queues[h.victim], h.count, p);
    }
  }

  lemma PassGoesOn(w: WState, t: WStep, w': WState, k: nat, procs: seq<Proc>, before: seq<seq<nat>>, vs: seq<nat>)
    requires WNextStep(w, t, w') && OfPass(t, k) && PassOk(w, k, procs, before, vs)
    requires forall i {:trigger before[i]} :: 0 <= i < |before| ==> |before[i]| < Ring.MAX_TASKS
    ensures PassOk(w', k, procs, before, PicksAfter(vs, t))
  {
    hide PassOk, TakeLocalStep, PickVictimStep, TakeRemoteStep, LockEntryStep, DropEntryStep;
    PassSize(w, k, procs, before, vs);
    assert vs + [] == vs;
    match t {
      case TakeLocal(_) => LocalStep(w, k, w', procs, before, vs);
      case PickVictim(_, v) => PickStep(w, k, v, w', procs, before, vs);
      case TakeRemote(_) => RemoteStep(w, k, w', procs, before, vs);
      case LockEntry(_) => LockStep(w, k, w', procs, before, vs);
      case DropEntry(_) => DropStep(w, k, w', procs, before, vs);
      case _ =>
    }
  }

  lemma PassSize(w: WState, k: nat, procs: seq<Proc>, before: seq<seq<nat>>, vs: seq<nat>)
    requires PassOk(w, k, procs, before, vs)
    ensures k < |before|
  {
  }

  lemma PassStarts(w: WState, k: nat)
    requires WShape(w) && k < |w.sched| && w.sched[k] == Look(Local(0))
    ensures PassOk(w, k, w.core.procs, w.queues, [])
  {
    NothingTaken(w.core.procs, w.queues[k]);
  }

  lemma {:induction false} AlonePassOk(tr: seq<WState>, st: seq<WStep>, k: nat, m: nat, n: nat)
    requires WRun(tr) && AlonePass(tr, st, k, m, n)
    ensures PassOk(tr[n], k, tr[m].core.procs, tr[m].queues, Picks(st, m, n))
    decreases n
  {
    hide WNextStep, PassOk, WRun, WShape, OfPass;
    if n == m {
      PassStarts(tr[m], k);
    } else {
      var x := n - 1;
      AlonePassOk(tr, st, k, m, x);
      assert WNextStep(tr[x], st[x], tr[n]) && OfPass(st[x], k);
      RunFits(tr, m);
      PassGoesOn(tr[x], st[x], tr[n], k, tr[m].core.procs, tr[m].queues, Picks(st, m, x));
    }
  }

  // ---------- What a pass finds ----------

  /** If nobody else moves, the process that the CPU then runs is the RUNNABLE entry nearest to
      the rear of its own queue or, when that holds none, nearest to the front of a victim's;
      every other queue is untouched or has lost stale entries only. */
  lemma AloneTakes(tr: seq<WState>, st: seq<WStep>, k: nat, m: nat, n: nat, w: WState) returns (from: nat)
    requires WRun(tr) && AlonePass(tr, st, k, m, n) && RunEntryStep(tr[n], k, w)
    ensures Sweep.Ready(tr[m].core.procs, tr[n].sched[k].q) && w.core.cpus[k].cproc == Some(tr[n].sched[k].q)
    ensures Sweep.FoundIn(tr[m].core.procs, tr[m].queues, tr[n].queues, k, tr[n].sched[k].q, from)
    ensures from == k || from in Picks(st, m, n)
  {
    hide WRun, WNextStep, OfPass, Sweep.AllStale, Sweep.Emptied;
    AlonePassOk(tr, st, k, m, n);
    var h := tr[n].sched[k].h;
    from := if h.Remote? then h.victim else k;
  }

  /** If nobody else moves, a pass that gives up has emptied the own queue and those of
      NCPU - 1 victims of stale entries only, and touched no other queue. */
  lemma AloneGivesUp(tr: seq<WState>, st: seq<WStep>, k: nat, m: nat, n: nat, w: WState)
    requires WRun(tr) && AlonePass(tr, st, k, m, n) && GiveUpStep(tr[n], k, w)
    ensures |tr[n].queues| == |tr[m].queues| && |Picks(st, m, n)| == |tr[n].sched| - 1
    ensures forall i :: 0 <= i < |tr[m].queues| ==>
      if i == k || i in Picks(st, m, n) then Sweep.Emptied(tr[m].core.procs, tr[m].queues[i], tr[n].queues[i])
      else tr[n].queues[i] == tr[m].queues[i]
    ensures (forall v: nat :: v < |tr[m].queues| && v != k ==> v in Picks(st, m, n)) ==>
      !Sweep.HasWork(tr[m].core.procs, tr[m].queues)
  {
    hide WRun, WNextStep, OfPass, Sweep.AllStale, Sweep.HasWork;
    AlonePassOk(tr, st, k, m, n);
    if forall v: nat :: v < |tr[m].queues| && v != k ==> v in Picks(st, m, n) {
      assert Sweep.AllEmptied(tr[m].core.procs, tr[m].queues, tr[n].queues);
      Sweep.EmptiedNoWork(tr[m].core.procs, tr[m].queues, tr[n].queues);
    }
  }

  /** How far a search has come. */
  function Attempts(pc: WPc): nat
    requires InSearch(pc)
  {
    match pc.h
    case Local(_) => 0
    case Choose(a) => a
    case Remote(a, _, _) => a
  }

  predicate InSearch(pc: WPc) { pc.Look? || pc.Entry? || pc.Locked? }

  /** From m to i CPU k is in one search, which has started with its own queue. */
  ghost predicate OneHunt(tr: seq<WState>, k: nat, m: nat, i: nat) {
    && m <= i < |tr| && k < |tr[m].sched| && tr[m].sched[k] == Look(Local(0))
    && (forall x {:trigger tr[x]} :: m <= x <= i ==> k < |tr[x].sched| && InSearch(tr[x].sched[k]))
    && forall x, y {:trigger tr[x], tr[y]} :: m <= x <= y <= i ==> Attempts(tr[x].sched[k]) <= Attempts(tr[y].sched[k])
  }

  lemma HuntStep(w: WState, t: WStep, w': WState, k: nat)
    requires WNextStep(w, t, w') && k < |w'.sched| && InSearch(w'.sched[k])
    ensures k < |w.sched|
    ensures w'.sched[k] == Look(Local(0)) ||
        (InSearch(w.sched[k]) && Attempts(w.sched[k]) <= Attempts(w'.sched[k]))
  {
    hide NextStep, SchedAcqStep, SchedRelStep, DispatchStep, ClearStep;
  }

  /** Every search begins with the own queue, after a process has come back and after a search
      that has given up. */
  lemma {:induction false} SearchStartsAtHome(tr: seq<WState>, k: nat, i: nat) returns (m: nat)
    requires WRun(tr) && i < |tr| && k < |tr[i].sched| && InSearch(tr[i].sched[k])
    ensures OneHunt(tr, k, m, i)
  {
    hide WNextStep, Init;
    if i == 0 || tr[i].sched[k] == Look(Local(0)) {
      m := i;
    } else {
      assert WNext(tr[i - 1], tr[i]);
      var t :| WNextStep(tr[i - 1], t, tr[i]);
      HuntStep(tr[i - 1], t, tr[i], k);
      m := SearchStartsAtHome(tr, k, i - 1);
    }
  }

  // ---------- What is pushed ----------

  /** Who is about to be pushed is RUNNABLE. */
  lemma DueIsRunnable(s: State, k: nat, p: nat)
    requires Safe(s) && Shape(s) && CallsOk(s) && AboutToPush(s, k, p)
    ensures p < |s.procs| && s.procs[p].state.RUNNABLE? && s.plock[p] == Some(k)
  {
    hide Safe, CallsOk;
    if IrqPush(s.cpus[k].irq) == Some(p) {
      HandlerKnown(s, k);
      HandlerLocks(s, k);
    } else {
      var me := s.cpus[k].spc.p;
      CallKnown(s, me);
      ThreadPushes(s, k, me, p);
    }
  }

  lemma ThreadPushes(s: State, k: nat, me: nat, p: nat)
    requires Safe(s) && k < |s.cpus| && s.cpus[k].spc == SRun(me) && me < |s.procs| && CallOk(s, me)
    requires PushOf(me, s.threads[me]) == Some(p)
    ensures p < |s.procs| && s.procs[p].state.RUNNABLE? && s.plock[p] == Some(k)
  {
    hide RunOk, GlobalLockOk, ForkOk, KidsKnown, StateOk, QuietOk;
    if s.threads[me].tick.TYieldPush? {
      YieldLocks(s, k, me);
    } else {
      assert Holds(s, k, p);
    }
  }

  lemma YieldLocks(s: State, k: nat, me: nat)
    requires Safe(s) && k < |s.cpus| && s.cpus[k].spc == SRun(me) && me < |s.procs|
    requires s.threads[me].tick.TYieldPush?
    ensures s.procs[me].state.RUNNABLE? && s.plock[me] == Some(k)
  {
    hide GlobalLockOk, ForkOk;
    SlotStays(s, me);
    assert Holds(s, k, me);
  }

  lemma CoreKnown(tr: seq<WState>, i: nat)
    requires WRun(tr) && i < |tr|
    ensures Safe(tr[i].core) && Shape(tr[i].core) && CallsOk(tr[i].core)
  {
    hide WRun, Safe, Run, CallsOk, TreeOk;
    var core, at := Refines(tr);
    assert Cores(tr)[i] == core[at[i]];
    RunCalls(core, at[i]);
    SafeShape(core[at[i]]);
  }

  /** What makes queue j longer. */
  lemma GrowsBy(w: WState, t: WStep, w': WState, j: nat) returns (p: nat)
    requires WNextStep(w, t, w') && j < |w.queues| && j < |w'.queues| && |w.queues[j]| < |w'.queues[j]|
    ensures w'.queues[j] == w.queues[j] + [p]
    ensures || (t.Proc? && t.st.k == j && OpOf(t.st) == PushQ(p) && OfProcess(t.st) && NextStep(w.core, t.st, w'.core))
            || (t == PushBack(j) && PushBackStep(w, j, w') && w.sched[j] == Back(p) && p < |w.core.procs|
                && w.core.procs[p].state.RUNNABLE?)
  {
    hide NextStep, SchedAcqStep, SchedRelStep, DispatchStep, ClearStep, OpOf;
    p := w'.queues[j][|w'.queues[j]| - 1];
  }

  /** A queue grows only at its rear, by a RUNNABLE process whose lock the CPU of the queue holds:
      every push goes to the queue of the CPU that executes it. */
  lemma OnlyRunnableQueued(tr: seq<WState>, i: nat, t: WStep, w: WState, j: nat) returns (p: nat)
    requires WRun(tr) && i < |tr| && WNextStep(tr[i], t, w)
    requires j < |tr[i].queues| && j < |w.queues| && |tr[i].queues[j]| < |w.queues[j]|
    ensures w.queues[j] == tr[i].queues[j] + [p]
    ensures p < |tr[i].core.procs| && tr[i].core.procs[p].state.RUNNABLE? && tr[i].core.plock[p] == Some(j)
  {
    hide WRun, Safe, CallsOk, NextStep, WNextStep, StealingMachine.Linked, AboutToPush, Handed, OpOf;
    CoreKnown(tr, i);
    p := GrowsBy(tr[i], t, w, j);
    if t.Proc? {
      NextHands(tr[i].core, t.st, w.core);
      PushIsDue(tr[i].core, j, PushQ(p), w.core);
      DueIsRunnable(tr[i].core, j, p);
    } else {
      RunLosesNone(tr, i);
      ChargeLocks(tr[i], j, p);
    }
  }

  lemma PushIsDue(s: State, k: nat, op: Op, s': State)
    requires Handed(s, k, op, s') && op.PushQ?
    ensures Shape(s) && AboutToPush(s, k, op.q)
  {
    hide AboutToPush;
  }
}
