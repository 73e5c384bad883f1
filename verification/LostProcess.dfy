/**
 A run of the work stealing build that loses a process. CPU 1 runs initproc alone; every
 yield pushes it twice and takes one entry back, so after 62 yields its queue holds 62 stale
 entries. A first kfork fills the queue, and the child of a second kfork finds no room.
 */
module LostProcess {
  import opened Kernel
  import opened StealingMachine

  const FREE := Proc.Proc(UNUSED, NoChan, No, 0, None, 0, 0, 0, 0, 0, 0, 0, 0, No)
  const NEVER := Thread(Dead, TNone, None)
  const IDLE := Cpu(None, SScan({}), INone)
  const BUSY := Cpu(Some(0), SRun(0), INone)

  // ---------- Runs ----------

  ghost predicate Reached(w: WState) {
    exists tr: seq<WState> {:trigger WRun(tr)} :: WRun(tr) && tr[|tr| - 1] == w
  }

  lemma Extended(tr: seq<WState>, t: WStep, w: WState)
    requires WRun(tr) && WNextStep(tr[|tr| - 1], t, w)
    ensures WRun(tr + [w])
  {
    hide WNextStep, WInit;
    var ur := tr + [w];
    assert WNext(tr[|tr| - 1], w);
    forall i, j | 0 <= i && j == i + 1 < |ur| ensures WNext(ur[i], ur[j]) {
      if j < |tr| { assert WNext(tr[i], tr[j]); }
    }
  }

  lemma Step(w: WState, t: WStep, w': WState)
    requires Reached(w) && WNextStep(w, t, w')
    ensures Reached(w')
  {
    hide WNextStep, WInit, WNext;
    var tr :| WRun(tr) && tr[|tr| - 1] == w;
    Extended(tr, t, w');
    assert (tr + [w'])[|tr|] == w';
  }

  lemma Goes(w: WState, op: Op, pc: Pc, w': WState)
    requires Reached(w) && WShape(w) && 1 < |w.core.cpus| && !op.PushQ?
    requires BaseStep(w.core, 1, op, pc, w'.core) && w' == w.(core := w'.core)
    ensures Reached(w')
  {
    hide BaseStep, Reached;
    assert ProcStep(w, BaseGo(1, op, pc), w');
    Step(w, WStep.Proc(BaseGo(1, op, pc)), w');
  }

  lemma Ticks(w: WState, op: Op, pc: TickPc, w': WState)
    requires Reached(w) && WShape(w) && 1 < |w.core.cpus| && !op.PushQ?
    requires TickStep(w.core, 1, op, pc, w'.core) && w' == w.(core := w'.core)
    ensures Reached(w')
  {
    hide TickStep, Reached;
    assert ProcStep(w, TickGo(1, op, pc), w');
    Step(w, WStep.Proc(TickGo(1, op, pc)), w');
  }

  lemma ProcGoes(w: WState, st: Step, w': WState)
    requires Reached(w) && ProcStep(w, st, w')
    ensures Reached(w')
  {
    hide ProcStep, Reached;
    Step(w, WStep.Proc(st), w');
  }

  // ---------- Boot ----------

  /** The first process after r ticks of run time, n switches and d dispatches. */
  function First(state: PState, r: nat, n: nat, d: nat): Proc {
    Proc.Proc(state, NoChan, No, 1, None, 0, r, 0, n, PRIORITY_DEFAULT, PRIORITY_DEFAULT, 0, d, Yes)
  }

  /** Three slots, of which one is in use; CPU 0 is idle; CPU 1 has queue q. */
  function One(pr: Proc, th: Thread, lock: Option<nat>, c1: Cpu, hist: Hist, q0: seq<nat>, q: seq<nat>,
      s1: WPc): WState {
    WState(State([pr, FREE, FREE], [th, NEVER, NEVER], [lock, None, None], [IDLE, c1], None, None, 2, 0, hist),
           [q0, q], [Look(Local(0)), s1], No)
  }

  const NONE_YET := Hist(0, 0, 0, 0, 0, 0, 0)

  function Booting(lock: Option<nat>, c1: Cpu, q0: seq<nat>, s1: WPc): WState {
    One(First(RUNNABLE, 0, 0, 0), Thread(ForkRet, TNone, None), lock, c1, NONE_YET, q0, [], s1)
  }

  /** initproc in user mode on CPU 1 after n yields. */
  function Yielded(n: nat): WState {
    One(First(RUNNING, n, n, n + 1), Thread(User, TNone, Some(1)), None, BUSY, Hist(n + 1, n, 0, n, 0, 0, 0), [],
        Zeros(n), Away)
  }

  function Zeros(n: nat): (q: seq<nat>)
    ensures |q| == n
  {
    if n == 0 then [] else Zeros(n - 1) + [0]
  }

  lemma Boots()
    ensures Reached(Booting(None, IDLE, [0], Look(Local(0))))
  {
    var w := Booting(None, IDLE, [0], Look(Local(0)));
    assert WRun([w]);
    assert [w][|[w]| - 1] == w;
  }

  /** CPU 1 steals initproc from CPU 0's queue. */
  lemma Steals()
    ensures WNextStep(Booting(None, IDLE, [0], Look(Local(0))), TakeLocal(1), Booting(None, IDLE, [0], Look(Choose(0))))
    ensures WNextStep(Booting(None, IDLE, [0], Look(Choose(0))), PickVictim(1, 0),
                      Booting(None, IDLE, [0], Look(Remote(1, 0, 0))))
    ensures WNextStep(Booting(None, IDLE, [0], Look(Remote(1, 0, 0))), TakeRemote(1),
                      Booting(None, IDLE, [], Entry(Remote(1, 0, 1), 0)))
  {
    assert [0][1..] == [];
  }

  const HOLDING := Cpu(None, SScan({0}), INone)

  lemma LocksFirst()
    ensures WNextStep(Booting(None, IDLE, [], Entry(Remote(1, 0, 1), 0)), LockEntry(1),
                      Booting(Some(1), HOLDING, [], Locked(Remote(1, 0, 1), 0)))
  {
    assert {} + {0} == {0};
  }

  /** initproc on CPU 1, before forkret. */
  function Dispatched1(): WState {
    One(First(RUNNING, 0, 0, 1), Thread(ForkRet, TNone, Some(1)), Some(1), BUSY, Hist(1, 0, 0, 0, 0, 0, 0), [], [],
        Away)
  }

  lemma RunsFirst()
    ensures WNextStep(Booting(Some(1), HOLDING, [], Locked(Remote(1, 0, 1), 0)), RunEntry(1), Dispatched1())
  {
  }

  lemma Forkret()
    ensures BaseStep(Dispatched1().core, 1, Rel(0), User, Yielded(0).core)
  {
  }

  lemma BootsToUser()
    ensures Reached(Yielded(0))
  {
    hide Reached, WNextStep, BaseStep;
    Boots();
    Steals();
    Step(Booting(None, IDLE, [0], Look(Local(0))), TakeLocal(1), Booting(None, IDLE, [0], Look(Choose(0))));
    Step(Booting(None, IDLE, [0], Look(Choose(0))), PickVictim(1, 0), Booting(None, IDLE, [0], Look(Remote(1, 0, 0))));
    Step(Booting(None, IDLE, [0], Look(Remote(1, 0, 0))), TakeRemote(1),
         Booting(None, IDLE, [], Entry(Remote(1, 0, 1), 0)));
    LocksFirst();
    Step(Booting(None, IDLE, [], Entry(Remote(1, 0, 1), 0)), LockEntry(1),
         Booting(Some(1), HOLDING, [], Locked(Remote(1, 0, 1), 0)));
    RunsFirst();
    Step(Booting(Some(1), HOLDING, [], Locked(Remote(1, 0, 1), 0)), RunEntry(1), Dispatched1());
    Forkret();
    Goes(Dispatched1(), Rel(0), User, Yielded(0));
  }

  // ---------- A yield ----------

  /** In the middle of yield n + 1, with the tick frame t and queue q. */
  function Ticking(n: nat, t: TickPc): WState {
    var charged := !t.TUpdAcq? && !t.TUpdHeld?;
    var ready := t.TYieldPush? || t.TYieldSched? || t.TYieldSwtch?;
    var locked := !t.TUpdAcq? && !t.TYieldAcq?;
    var pr := First(if ready then RUNNABLE else RUNNING, if charged then n + 1 else n, if t.TYieldSwtch? then n + 1
        else n, n + 1);
    One(pr, Thread(User, t, Some(1)), if locked then Some(1) else None, BUSY, Hist(n + 1, n + 1, 0, n + 1, 0, 0, 0), [],
        if t.TYieldSched? || t.TYieldSwtch? then Zeros(n + 1) else Zeros(n), Away)
  }

  /** Switched out, with the scheduler of CPU 1 at s1. */
  function Between(lock: Option<nat>, c1: Cpu, n: nat, q: seq<nat>, s1: WPc): WState {
    One(First(RUNNABLE, n + 1, n + 1, n + 1), Thread(User, TYieldBack, None), lock, c1,
        Hist(n + 1, n + 1, 0, n + 1, 0, 0, 0), [], q, s1)
  }

  lemma TimerComes(n: nat)
    ensures ProcStep(Yielded(n), TimerStart(1, Yielding), Ticking(n, TUpdAcq))
  {
  }

  lemma IsCharged(n: nat)
    ensures TickStep(Ticking(n, TUpdAcq).core, 1, Acq(0), TUpdHeld, Ticking(n, TUpdHeld).core)
  {
    hide Zeros;
  }

  lemma CountsTick(n: nat)
    ensures TickStep(Ticking(n, TUpdHeld).core, 1, Charge(0), TUpdRel, Ticking(n, TUpdRel).core)
  {
    hide Zeros;
  }

  lemma LocksAgain(n: nat)
    ensures TickStep(Ticking(n, TUpdRel).core, 1, Rel(0), TYieldAcq, Ticking(n, TYieldAcq).core)
    ensures TickStep(Ticking(n, TYieldAcq).core, 1, Acq(0), TYieldSet, Ticking(n, TYieldSet).core)
  {
    hide Zeros;
  }

  lemma BecomesRunnable(n: nat)
    ensures TickStep(Ticking(n, TYieldSet).core, 1, Ready(0, Reset), TYieldPush, Ticking(n, TYieldPush).core)
  {
    hide Zeros;
  }

  lemma PushesItself(n: nat)
    requires n < 62
    ensures ProcStep(Ticking(n, TYieldPush), TickGo(1, PushQ(0), TYieldSched), Ticking(n, TYieldSched))
  {
  }

  lemma IsCounted(n: nat)
    ensures TickStep(Ticking(n, TYieldSched).core, 1, Switch(0), TYieldSwtch, Ticking(n, TYieldSwtch).core)
  {
    hide Zeros;
  }

  lemma SwitchesOut(n: nat)
    ensures ProcStep(Ticking(n, TYieldSwtch), SwtchOut(1),
                     Between(Some(1), Cpu(Some(0), SBack(0), INone), n, Zeros(n + 1), Away))
    ensures WNextStep(Between(Some(1), Cpu(Some(0), SBack(0), INone), n, Zeros(n + 1), Away), ClearBack(1),
                      Between(Some(1), HOLDING, n, Zeros(n + 1), Back(0)))
  {
    hide Zeros;
  }

  lemma PushedAgain(n: nat)
    requires n < 62
    ensures WNextStep(Between(Some(1), HOLDING, n, Zeros(n + 1), Back(0)), PushBack(1),
                      Between(Some(1), HOLDING, n, Zeros(n + 2), Unlock(0)))
  {
  }

  lemma Unlocks(n: nat)
    ensures WNextStep(Between(Some(1), HOLDING, n, Zeros(n + 2), Unlock(0)), UnlockBack(1),
                      Between(None, IDLE, n, Zeros(n + 2), Look(Local(0))))
  {
    hide Zeros;
    assert {0} - {0} == {};
  }

  lemma TakesOneBack(n: nat)
    ensures WNextStep(Between(None, IDLE, n, Zeros(n + 2), Look(Local(0))), TakeLocal(1),
                      Between(None, IDLE, n, Zeros(n + 1), Entry(Local(1), 0)))
  {
    assert Zeros(n + 2)[..n + 1] == Zeros(n + 1);
  }

  lemma LocksEntry(n: nat)
    ensures WNextStep(Between(None, IDLE, n, Zeros(n + 1), Entry(Local(1), 0)), LockEntry(1),
                      Between(Some(1), HOLDING, n, Zeros(n + 1), Locked(Local(1), 0)))
  {
    hide Zeros;
    assert {} + {0} == {0};
  }

  /** Dispatched again, before yield releases the lock. */
  function Resumed(n: nat): WState {
    One(First(RUNNING, n + 1, n + 1, n + 2), Thread(User, TYieldBack, Some(1)), Some(1), BUSY,
        Hist(n + 2, n + 1, 0, n + 1, 0, 0, 0), [], Zeros(n + 1), Away)
  }

  lemma RunsAgain(n: nat)
    ensures WNextStep(Between(Some(1), HOLDING, n, Zeros(n + 1), Locked(Local(1), 0)), RunEntry(1), Resumed(n))
  {
    hide Zeros;
  }

  lemma Returned(n: nat)
    ensures TickStep(Resumed(n).core, 1, Rel(0), TNone, Yielded(n + 1).core)
  {
    hide Zeros;
  }

  lemma TicksOnly(n: nat)
    ensures WShape(Ticking(n, TUpdAcq)) && WShape(Ticking(n, TUpdHeld)) && WShape(Ticking(n, TUpdRel))
    ensures WShape(Ticking(n, TYieldAcq)) && WShape(Ticking(n, TYieldSet)) && WShape(Ticking(n, TYieldSched))
    ensures WShape(Resumed(n))
  {
    hide Zeros;
  }

  /** The first half of a yield: charged, RUNNABLE, pushed, counted. */
  lemma YieldsFirst(n: nat)
    requires n < 62 && Reached(Yielded(n))
    ensures Reached(Ticking(n, TYieldSwtch))
  {
    hide Reached, ProcStep, TickStep, Zeros, WShape, First;
    TicksOnly(n);
    TimerComes(n);
    ProcGoes(Yielded(n), TimerStart(1, Yielding), Ticking(n, TUpdAcq));
    IsCharged(n);
    Ticks(Ticking(n, TUpdAcq), Acq(0), TUpdHeld, Ticking(n, TUpdHeld));
    CountsTick(n);
    Ticks(Ticking(n, TUpdHeld), Charge(0), TUpdRel, Ticking(n, TUpdRel));
    LocksAgain(n);
    Ticks(Ticking(n, TUpdRel), Rel(0), TYieldAcq, Ticking(n, TYieldAcq));
    Ticks(Ticking(n, TYieldAcq), Acq(0), TYieldSet, Ticking(n, TYieldSet));
    BecomesRunnable(n);
    Ticks(Ticking(n, TYieldSet), Ready(0, Reset), TYieldPush, Ticking(n, TYieldPush));
    PushesItself(n);
    ProcGoes(Ticking(n, TYieldPush), TickGo(1, PushQ(0), TYieldSched), Ticking(n, TYieldSched));
    IsCounted(n);
    Ticks(Ticking(n, TYieldSched), Switch(0), TYieldSwtch, Ticking(n, TYieldSwtch));
  }

  /** The second half: pushed again, one entry taken back, dispatched. */
  lemma YieldsSecond(n: nat)
    requires n < 62 && Reached(Ticking(n, TYieldSwtch))
    ensures Reached(Yielded(n + 1))
  {
    hide Reached, ProcStep, TickStep, WNextStep, Zeros, WShape, First;
    TicksOnly(n);
    SwitchesOut(n);
    ProcGoes(Ticking(n, TYieldSwtch), SwtchOut(1),
        Between(Some(1), Cpu(Some(0), SBack(0), INone), n, Zeros(n + 1), Away));
    Step(Between(Some(1), Cpu(Some(0), SBack(0), INone), n, Zeros(n + 1), Away), ClearBack(1),
         Between(Some(1), HOLDING, n, Zeros(n + 1), Back(0)));
    PushedAgain(n);
    Step(Between(Some(1), HOLDING, n, Zeros(n + 1), Back(0)), PushBack(1),
         Between(Some(1), HOLDING, n, Zeros(n + 2), Unlock(0)));
    Unlocks(n);
    Step(Between(Some(1), HOLDING, n, Zeros(n + 2), Unlock(0)), UnlockBack(1),
         Between(None, IDLE, n, Zeros(n + 2), Look(Local(0))));
    TakesOneBack(n);
    Step(Between(None, IDLE, n, Zeros(n + 2), Look(Local(0))), TakeLocal(1),
         Between(None, IDLE, n, Zeros(n + 1), Entry(Local(1), 0)));
    LocksEntry(n);
    Step(Between(None, IDLE, n, Zeros(n + 1), Entry(Local(1), 0)), LockEntry(1),
         Between(Some(1), HOLDING, n, Zeros(n + 1), Locked(Local(1), 0)));
    RunsAgain(n);
    Step(Between(Some(1), HOLDING, n, Zeros(n + 1), Locked(Local(1), 0)), RunEntry(1), Resumed(n));
    Returned(n);
    Ticks(Resumed(n), Rel(0), TNone, Yielded(n + 1));
  }

  /** Each yield leaves one entry more than it found. */
  lemma {:induction false} Yields(n: nat)
    requires n <= 62
    ensures Reached(Yielded(n))
  {
    hide Reached, Yielded;
    if n == 0 {
      BootsToUser();
    } else {
      Yields(n - 1);
      YieldsFirst(n - 1);
      YieldsSecond(n - 1);
    }
  }

  // ---------- Two forks ----------

  const SAVED := Thread(ForkRet, TNone, None)

  /** A forked child of initproc, once it has its counters. */
  function Child(state: PState, parent: Option<nat>, pid: nat): Proc {
    Proc.Proc(state, NoChan, No, pid, parent, 0, 0, 0, 0, PRIORITY_DEFAULT, PRIORITY_DEFAULT, 0, 0, Yes)
  }

  const ELDER := Child(RUNNABLE, Some(0), 2)

  /** initproc at pc, forking its i-th child into slot i; the entries of both forks follow
      the 62 stale ones. */
  function Forking(i: nat, mine: Proc, th: Thread, pc: Pc, locks: seq<Option<nat>>, wait: Option<nat>, pid: nat,
      q: seq<nat>): WState {
    WState(State(if i == 1 then [First(RUNNING, 62, 62, 63), mine, FREE] else [First(RUNNING, 62, 62, 63), ELDER, mine],
                 if i == 1 then [Thread(pc, TNone, Some(1)), th, NEVER] else [Thread(pc, TNone, Some(1)), SAVED, th],
                 locks, [IDLE, BUSY], wait, None, pid, 0, Hist(63, 62, 0, 62, 0, 0, 0)),
           [[], q], [Look(Local(0)), Away], No)
  }

  const UNLOCKED: seq<Option<nat>> := [None, None, None]

  function LockOf(i: nat): seq<Option<nat>> {
    if i == 0 then [Some(1), None, None] else if i == 1 then [None, Some(1), None] else [None, None, Some(1)]
  }

  function Queue(i: nat): seq<nat> { if i == 1 then Zeros(62) else Zeros(62) + [1] }

  /** Before the i-th fork. */
  function BeforeFork(i: nat): WState { Forking(i, FREE, NEVER, User, UNLOCKED, None, i + 1, Queue(i)) }

  /** The i-th fork at a place that works on slot i. */
  function At(i: nat, ph: ForkPh): WState {
    var pc := InFork(i, ph);
    match ph
    case AllocAt => Forking(i, FREE, NEVER, pc, UNLOCKED, None, i + 1, Queue(i))
    case AllocHeld => Forking(i, FREE, NEVER, pc, LockOf(i), None, i + 1, Queue(i))
    case AllocInit => Forking(i, FREE.(pid := i + 1, state := USED), NEVER, pc, LockOf(i), None, i + 2, Queue(i))
    case AllocMem => Forking(i, Child(USED, None, i + 1), NEVER, pc, LockOf(i), None, i + 2, Queue(i))
    case ForkRelease => Forking(i, Child(USED, None, i + 1), SAVED, pc, LockOf(i), None, i + 2, Queue(i))
    case ForkLink => Forking(i, Child(USED, None, i + 1), SAVED, pc, UNLOCKED, None, i + 2, Queue(i))
    case ForkSet => Forking(i, Child(USED, None, i + 1), SAVED, pc, UNLOCKED, Some(1), i + 2, Queue(i))
    case ForkUnlink => Forking(i, Child(USED, Some(0), i + 1), SAVED, pc, UNLOCKED, Some(1), i + 2, Queue(i))
    case ForkPub => Forking(i, Child(USED, Some(0), i + 1), SAVED, pc, UNLOCKED, None, i + 2, Queue(i))
    case ForkHeld => Forking(i, Child(USED, Some(0), i + 1), SAVED, pc, LockOf(i), None, i + 2, Queue(i))
    case _ => Forking(i, Child(RUNNABLE, Some(0), i + 1), SAVED, pc, LockOf(i), None, i + 2, Queue(i))
  }

  /** The i-th fork at a slot in use. */
  function Passing(i: nat, slot: nat, ph: ForkPh, locks: seq<Option<nat>>): WState {
    Forking(i, FREE, NEVER, InFork(slot, ph), locks, None, i + 1, Queue(i))
  }

  /** The steps over the slots in use. */
  lemma EntersFork(i: nat)
    requires 1 <= i <= 2
    ensures BaseStep(BeforeFork(i).core, 1, Nop, InFork(0, AllocAt), Passing(i, 0, AllocAt, UNLOCKED).core)
    ensures WShape(BeforeFork(i)) && WShape(Passing(i, 0, AllocAt, UNLOCKED))
        && WShape(Passing(i, 0, AllocHeld, LockOf(0)))
  {
    hide Zeros;
  }

  lemma PassesOwn(i: nat)
    requires 1 <= i <= 2
    ensures BaseStep(Passing(i, 0, AllocAt, UNLOCKED).core, 1, Acq(0), InFork(0, AllocHeld),
                     Passing(i, 0, AllocHeld, LockOf(0)).core)
  {
    hide Zeros;
  }

  lemma LeavesOwn(i: nat)
    requires 1 <= i <= 2
    ensures BaseStep(Passing(i, 0, AllocHeld, LockOf(0)).core, 1, Rel(0), InFork(1, AllocAt),
                     Passing(i, 1, AllocAt, UNLOCKED).core)
  {
    hide Zeros;
  }

  lemma PassesElder()
    ensures BaseStep(Passing(2, 1, AllocAt, UNLOCKED).core, 1, Acq(1), InFork(1, AllocHeld),
                     Passing(2, 1, AllocHeld, LockOf(1)).core)
    ensures BaseStep(Passing(2, 1, AllocHeld, LockOf(1)).core, 1, Rel(1), InFork(2, AllocAt), At(2, AllocAt).core)
    ensures WShape(Passing(2, 1, AllocAt, UNLOCKED)) && WShape(Passing(2, 1, AllocHeld, LockOf(1)))
  {
    hide Zeros;
  }

  lemma FindsFree(i: nat)
    requires 1 <= i <= 2
    ensures BaseStep(At(i, AllocAt).core, 1, Acq(i), InFork(i, AllocHeld), At(i, AllocHeld).core)
  {
    hide Zeros;
  }

  lemma Allocates(i: nat)
    requires 1 <= i <= 2
    ensures BaseStep(At(i, AllocHeld).core, 1, NewPid(i), InFork(i, AllocInit), At(i, AllocInit).core)
  {
    hide Zeros;
  }

  lemma Initialises(i: nat)
    requires 1 <= i <= 2
    ensures BaseStep(At(i, AllocInit).core, 1, InitCounters(i), InFork(i, AllocMem), At(i, AllocMem).core)
  {
    hide Zeros;
  }

  lemma Copies(i: nat)
    requires 1 <= i <= 2
    ensures BaseStep(At(i, AllocMem).core, 1, Spawn(i), InFork(i, ForkRelease), At(i, ForkRelease).core)
  {
    hide Zeros;
  }

  lemma Releases(i: nat)
    requires 1 <= i <= 2
    ensures BaseStep(At(i, ForkRelease).core, 1, Rel(i), InFork(i, ForkLink), At(i, ForkLink).core)
  {
    hide Zeros;
  }

  lemma TakesWaitLock(i: nat)
    requires 1 <= i <= 2
    ensures BaseStep(At(i, ForkLink).core, 1, AcqW, InFork(i, ForkSet), At(i, ForkSet).core)
  {
    hide Zeros;
  }

  lemma Links(i: nat)
    requires 1 <= i <= 2
    ensures BaseStep(At(i, ForkSet).core, 1, SetParent(i, 0), InFork(i, ForkUnlink), At(i, ForkUnlink).core)
  {
    hide Zeros;
  }

  lemma DropsWaitLock(i: nat)
    requires 1 <= i <= 2
    ensures BaseStep(At(i, ForkUnlink).core, 1, RelW, InFork(i, ForkPub), At(i, ForkPub).core)
  {
    hide Zeros;
  }

  lemma LocksChild(i: nat)
    requires 1 <= i <= 2
    ensures BaseStep(At(i, ForkPub).core, 1, Acq(i), InFork(i, ForkHeld), At(i, ForkHeld).core)
  {
    hide Zeros;
  }

  lemma Publishes(i: nat)
    requires 1 <= i <= 2
    ensures BaseStep(At(i, ForkHeld).core, 1, Ready(i, Keep), InFork(i, ForkPush), At(i, ForkPush).core)
  {
    hide Zeros;
  }

  lemma AtShape(i: nat, ph: ForkPh)
    requires 1 <= i <= 2
    ensures WShape(At(i, ph)) && |At(i, ph).core.cpus| == 2 && At(i, ph) == At(i, AllocAt).(core := At(i, ph).core)
  {
    hide Zeros;
  }

  lemma AtGoes(i: nat, ph: ForkPh, op: Op, ph': ForkPh)
    requires 1 <= i <= 2 && Reached(At(i, ph)) && !op.PushQ?
    requires BaseStep(At(i, ph).core, 1, op, InFork(i, ph'), At(i, ph').core)
    ensures Reached(At(i, ph'))
  {
    hide Reached, BaseStep, At, WShape;
    AtShape(i, ph);
    AtShape(i, ph');
    Goes(At(i, ph), op, InFork(i, ph'), At(i, ph'));
  }

  /** After the push of the i-th child. */
  function Pushed(i: nat): WState {
    Forking(i, Child(RUNNABLE, Some(0), i + 1), SAVED, InFork(i, ForkRel), LockOf(i), None, i + 2, Queue(2))
      .(dropped := if i == 1 then No else Yes)
  }

  lemma PushesFirst()
    ensures BaseStep(At(1, ForkPush).core, 1, PushQ(1), InFork(1, ForkRel), Pushed(1).core)
  {
    hide Zeros;
  }

  lemma PushesSecond()
    ensures BaseStep(At(2, ForkPush).core, 1, PushQ(2), InFork(2, ForkRel), Pushed(2).core)
  {
    hide Zeros;
  }

  lemma PushedIs(i: nat)
    requires 1 <= i <= 2
    ensures WShape(At(i, ForkPush)) && |At(i, ForkPush).core.cpus| == 2
        && Pushed(i) == PushOn(At(i, ForkPush), 1, i).(core := Pushed(i).core)
  {
    hide Zeros;
  }

  lemma Pushes(i: nat)
    requires 1 <= i <= 2 && Reached(At(i, ForkPush))
    ensures Reached(Pushed(i)) && ProcStep(At(i, ForkPush), BaseGo(1, PushQ(i), InFork(i, ForkRel)), Pushed(i))
  {
    hide Reached, Zeros, BaseStep, PushOn, At, Pushed, ProcStep, WShape;
    PushedIs(i);
    if i == 1 { PushesFirst(); } else { PushesSecond(); }
    GoesPush(At(i, ForkPush), i, InFork(i, ForkRel), Pushed(i));
  }

  lemma GoesPush(w: WState, p: nat, pc: Pc, w': WState)
    requires Reached(w) && WShape(w) && 1 < |w.core.cpus| && BaseStep(w.core, 1, PushQ(p), pc, w'.core)
    requires w' == PushOn(w, 1, p).(core := w'.core)
    ensures Reached(w') && ProcStep(w, BaseGo(1, PushQ(p), pc), w')
  {
    hide Reached, BaseStep, PushOn;
    assert ProcStep(w, BaseGo(1, PushQ(p), pc), w');
    Step(w, WStep.Proc(BaseGo(1, PushQ(p), pc)), w');
  }

  lemma Returns()
    ensures BaseStep(Pushed(1).core, 1, Rel(1), User, BeforeFork(2).core)
    ensures WShape(Pushed(1)) && BeforeFork(2) == Pushed(1).(core := BeforeFork(2).core)
  {
    hide Zeros;
  }

  lemma FindsSlot(i: nat)
    requires 1 <= i <= 2 && Reached(BeforeFork(i))
    ensures Reached(At(i, AllocAt))
  {
    hide Reached, BaseStep, Zeros, WShape;
    EntersFork(i);
    Goes(BeforeFork(i), Nop, InFork(0, AllocAt), Passing(i, 0, AllocAt, UNLOCKED));
    PassesOwn(i);
    Goes(Passing(i, 0, AllocAt, UNLOCKED), Acq(0), InFork(0, AllocHeld), Passing(i, 0, AllocHeld, LockOf(0)));
    LeavesOwn(i);
    Goes(Passing(i, 0, AllocHeld, LockOf(0)), Rel(0), InFork(1, AllocAt), Passing(i, 1, AllocAt, UNLOCKED));
    if i == 2 {
      PassesElder();
      Goes(Passing(2, 1, AllocAt, UNLOCKED), Acq(1), InFork(1, AllocHeld), Passing(2, 1, AllocHeld, LockOf(1)));
      Goes(Passing(2, 1, AllocHeld, LockOf(1)), Rel(1), InFork(2, AllocAt), At(2, AllocAt));
    }
  }

  lemma Forks(i: nat)
    requires 1 <= i <= 2 && Reached(BeforeFork(i))
    ensures Reached(At(i, ForkPush))
  {
    hide Reached, BaseStep, At, BeforeFork;
    FindsSlot(i);
    FindsFree(i);
    AtGoes(i, AllocAt, Acq(i), AllocHeld);
    Allocates(i);
    AtGoes(i, AllocHeld, NewPid(i), AllocInit);
    Initialises(i);
    AtGoes(i, AllocInit, InitCounters(i), AllocMem);
    Copies(i);
    AtGoes(i, AllocMem, Spawn(i), ForkRelease);
    Releases(i);
    AtGoes(i, ForkRelease, Rel(i), ForkLink);
    TakesWaitLock(i);
    AtGoes(i, ForkLink, AcqW, ForkSet);
    Links(i);
    AtGoes(i, ForkSet, SetParent(i, 0), ForkUnlink);
    DropsWaitLock(i);
    AtGoes(i, ForkUnlink, RelW, ForkPub);
    LocksChild(i);
    AtGoes(i, ForkPub, Acq(i), ForkHeld);
    Publishes(i);
    AtGoes(i, ForkHeld, Ready(i, Keep), ForkPush);
  }

  lemma QueueFull()
    ensures |Queue(2)| == Ring.MAX_TASKS - 1 && 2 !in Queue(2)
  {
    OnlyZeros(62);
  }

  lemma {:induction false} OnlyZeros(n: nat)
    ensures 2 !in Zeros(n)
  {
    if n > 0 { OnlyZeros(n - 1); }
  }

  lemma NoEntry()
    ensures NoRoomFor(At(2, ForkPush), 1, 2)
  {
    hide Zeros;
    QueueFull();
  }

  lemma BeforeForkIs()
    ensures Yielded(62) == BeforeFork(1)
  {
    hide Zeros;
  }

  /** A run at whose end the second child, in slot 2, is lost. */
  lemma LosesChild() returns (tr: seq<WState>)
    ensures WRun(tr) && WShape(tr[|tr| - 1]) && Lost(tr[|tr| - 1], 2)
  {
    hide Reached, Zeros, Lost, WNext, WInit, NoRoomFor, BaseStep, WShape;
    Yields(62);
    BeforeForkIs();
    Forks(1);
    Pushes(1);
    Returns();
    Goes(Pushed(1), Rel(1), User, BeforeFork(2));
    Forks(2);
    Pushes(2);
    NoEntry();
    tr := LostAtEnd();
  }

  lemma LostAtEnd() returns (tr: seq<WState>)
    requires Reached(At(2, ForkPush)) && NoRoomFor(At(2, ForkPush), 1, 2)
    requires ProcStep(At(2, ForkPush), BaseGo(1, PushQ(2), InFork(2, ForkRel)), Pushed(2))
    ensures WRun(tr) && WShape(tr[|tr| - 1]) && Lost(tr[|tr| - 1], 2)
  {
    hide WNext, WInit, ProcStep, Lost, Pushed, NoRoomFor, Zeros;
    var ur :| WRun(ur) && ur[|ur| - 1] == At(2, ForkPush);
    var st := BaseGo(1, PushQ(2), InFork(2, ForkRel));
    PushLoses(ur, |ur| - 1, st, 2, Pushed(2));
    Extended(ur, WStep.Proc(st), Pushed(2));
    tr := ur + [Pushed(2)];
  }
}
