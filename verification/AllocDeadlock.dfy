/**
 The exception to the lock order is real: a run of the adaptive build with two CPUs and two
 slots that ends in a deadlock. CPU 1 is in allocproc with the lock of slot 1 and waits for
 tickslock; CPU 0 is in clockintr with tickslock and its wakeup waits for the lock of slot 1.
 */
module AllocDeadlock {
  import opened Kernel
  import opened AdaptiveScan
  import opened AdaptiveMachine
  import opened LockOrder

  const FIRST := Proc.Proc(RUNNABLE, NoChan, No, 1, None, 0, 0, 0, 0, PRIORITY_DEFAULT, PRIORITY_DEFAULT, 0, 0, Yes)
  const FREE := Proc.Proc(UNUSED, NoChan, No, 0, None, 0, 0, 0, 0, 0, 0, 0, 0, No)
  const IDLE := Cpu(None, SScan({}), INone)
  const NOT_RUN := Thread(Dead, TNone, None)

  /** Two slots with locks l0 and l1, two CPUs; slot 1 is free until pid 2 is handed out. */
  function Two(p0: Proc, p1: Proc, t0: Thread, l0: Option<nat>, l1: Option<nat>, c0: Cpu, c1: Cpu,
               tick: Option<nat>, pid: nat, now: nat, hist: Hist, s1: APc): AState {
    AState(State([p0, p1], [t0, NOT_RUN], [l0, l1], [c0, c1], None, tick, pid, now, hist), [Idle, s1])
  }

  // ---------- CPU 1 boots initproc ----------

  function Booting(l0: Option<nat>, l1: Option<nat>, held: set<nat>, s1: APc): AState {
    Two(FIRST, FREE, Thread(ForkRet, TNone, None), l0, l1, IDLE, Cpu(None, SScan(held), INone), None, 2, 0,
        Hist(0, 0, 0, 0, 0, 0, 0), s1)
  }

  function Boot(): seq<AState> {
    [ Booting(None, None, {}, Idle),
      Booting(None, None, {}, Scan(0, None, 10001)),
      Booting(Some(1), None, {0}, Judge(0, None, 10001)),
      Booting(Some(1), None, {0}, Scan(1, Some(0), 5000)),
      Booting(Some(1), Some(1), {0, 1}, Judge(1, Some(0), 5000)),
      Booting(Some(1), None, {0}, Scan(2, Some(0), 5000)) ]
  }

  lemma BootRuns(i: nat)
    requires i < 5
    ensures ANext(Boot()[i], Boot()[i + 1])
  {
    var a, b := Boot()[i], Boot()[i + 1];
    match i {
      case 0 => assert ANextStep(a, StartScan(1), b);
      case 1 => LockFirst();
      case 2 => assert CurrPri(FIRST, 0) == 5000; assert ANextStep(a, Take(1), b);
      case 3 => LockSecond();
      case 4 => PassSecond();
    }
  }

  lemma LockFirst()
    ensures ANext(Boot()[1], Boot()[2])
  {
    assert {} + {0} == {0};
    assert ANextStep(Boot()[1], LockNext(1), Boot()[2]);
  }

  lemma LockSecond()
    ensures ANext(Boot()[3], Boot()[4])
  {
    assert {0} + {1} == {0, 1};
    assert ANextStep(Boot()[3], LockNext(1), Boot()[4]);
  }

  lemma PassSecond()
    ensures ANext(Boot()[4], Boot()[5])
  {
    assert {0, 1} - {1} == {0};
    assert ANextStep(Boot()[4], Pass(1), Boot()[5]);
  }

  // ---------- initproc forks and reaches the middle of allocproc ----------

  function Forking(p1: Proc, pc: Pc, l0: Option<nat>, l1: Option<nat>, pid: nat): AState {
    Two(Dispatched(FIRST), p1, Thread(pc, TNone, Some(1)), l0, l1, IDLE, Cpu(Some(0), SRun(0), INone), None, pid, 0,
        Hist(1, 0, 0, 0, 0, 0, 0), Away)
  }

  const TAKEN := FREE.(pid := 2, state := USED)

  function Fork(): seq<AState> {
    [ Forking(FREE, ForkRet, Some(1), None, 2),
      Forking(FREE, User, None, None, 2),
      Forking(FREE, InFork(0, AllocAt), None, None, 2),
      Forking(FREE, InFork(0, AllocHeld), Some(1), None, 2),
      Forking(FREE, InFork(1, AllocAt), None, None, 2),
      Forking(FREE, InFork(1, AllocHeld), None, Some(1), 2),
      Forking(TAKEN, InFork(1, AllocInit), None, Some(1), 3) ]
  }

  lemma Starts()
    ensures ANext(Boot()[5], Fork()[0])
  {
    assert ANextStep(Boot()[5], RunChosen(1), Fork()[0]);
  }

  lemma ProcGoes(a: AState, op: Op, pc: Pc, b: AState)
    requires AShape(a) && 1 < |a.sched| && BaseStep(a.core, 1, op, pc, b.core) && b == a.(core := b.core)
    ensures ANext(a, b)
  {
    hide BaseStep;
    assert ANextStep(a, AStep.Proc(BaseGo(1, op, pc)), b);
  }

  lemma Forkret()
    ensures ANext(Fork()[0], Fork()[1])
  {
    ProcGoes(Fork()[0], Rel(0), User, Fork()[1]);
  }

  lemma EntersFork()
    ensures ANext(Fork()[1], Fork()[2])
  {
    ProcGoes(Fork()[1], Nop, InFork(0, AllocAt), Fork()[2]);
  }

  lemma LocksOwn()
    ensures ANext(Fork()[2], Fork()[3])
  {
    ProcGoes(Fork()[2], Acq(0), InFork(0, AllocHeld), Fork()[3]);
  }

  lemma PassesOwn()
    ensures ANext(Fork()[3], Fork()[4])
  {
    ProcGoes(Fork()[3], Rel(0), InFork(1, AllocAt), Fork()[4]);
  }

  lemma LocksFree()
    ensures ANext(Fork()[4], Fork()[5])
  {
    ProcGoes(Fork()[4], Acq(1), InFork(1, AllocHeld), Fork()[5]);
  }

  lemma TakesPid()
    ensures ANext(Fork()[5], Fork()[6])
  {
    ProcGoes(Fork()[5], NewPid(1), InFork(1, AllocInit), Fork()[6]);
  }

  // ---------- a clock interrupt on CPU 0 ----------

  function Clocked(irq: Irq, l0: Option<nat>, tick: Option<nat>, now: nat): AState {
    Two(Dispatched(FIRST), TAKEN, Thread(InFork(1, AllocInit), TNone, Some(1)), l0, Some(1),
        Cpu(None, SScan({}), irq), Cpu(Some(0), SRun(0), INone), tick, 3, now, Hist(1, 1, 1, 0, 0, 0, 0), Away)
  }

  function Clock(): seq<AState> {
    [ Clocked(IClock, None, None, 0),
      Clocked(ITick, None, Some(0), 0),
      Clocked(IWake(Source.Clock, Wake(OnTicks, 0, At)), None, Some(0), 1),
      Clocked(IWake(Source.Clock, Wake(OnTicks, 0, Held)), Some(0), Some(0), 1),
      Clocked(IWake(Source.Clock, Wake(OnTicks, 0, Leave)), Some(0), Some(0), 1),
      Clocked(IWake(Source.Clock, Wake(OnTicks, 1, At)), None, Some(0), 1) ]
  }

  lemma Arrives()
    ensures ANext(Fork()[6], Clock()[0])
  {
    assert ANextStep(Fork()[6], AStep.Proc(TimerStart(0, Yielding)), Clock()[0]);
  }

  lemma IrqGoes(a: AState, op: Op, irq: Irq, b: AState)
    requires AShape(a) && 0 < |a.sched| && IrqStep(a.core, 0, op, irq, Yielding, b.core) && b == a.(core := b.core)
    ensures ANext(a, b)
  {
    hide IrqStep;
    assert ANextStep(a, AStep.Proc(IrqGo(0, op, irq, Yielding)), b);
  }

  lemma TakesTicks()
    ensures ANext(Clock()[0], Clock()[1])
  {
    IrqGoes(Clock()[0], AcqT, ITick, Clock()[1]);
  }

  lemma CountsTick()
    ensures ANext(Clock()[1], Clock()[2])
  {
    IrqGoes(Clock()[1], Tick, IWake(Source.Clock, Wake(OnTicks, 0, At)), Clock()[2]);
  }

  lemma LocksFirstSlot()
    ensures ANext(Clock()[2], Clock()[3])
  {
    IrqGoes(Clock()[2], Acq(0), IWake(Source.Clock, Wake(OnTicks, 0, Held)), Clock()[3]);
  }

  lemma SeesRunning()
    ensures ANext(Clock()[3], Clock()[4])
  {
    IrqGoes(Clock()[3], Nop, IWake(Source.Clock, Wake(OnTicks, 0, Leave)), Clock()[4]);
  }

  lemma PassesFirstSlot()
    ensures ANext(Clock()[4], Clock()[5])
  {
    IrqGoes(Clock()[4], Rel(0), IWake(Source.Clock, Wake(OnTicks, 1, At)), Clock()[5]);
  }

  lemma BootIsInit()
    ensures AInit(Boot()[0])
  {
  }

  /** A reachable state in which CPUs 0 and 1 wait for each other. */
  lemma Deadlock() returns (tr: seq<AState>)
    ensures ARun(tr) && AShape(tr[|tr| - 1]) && Cycle(tr[|tr| - 1], [0, 1])
  {
    tr := Boot() + Fork() + Clock();
    RunsWhole(tr);
    Stuck(tr[|tr| - 1]);
  }

  lemma RunsWhole(tr: seq<AState>)
    requires tr == Boot() + Fork() + Clock()
    ensures ARun(tr)
  {
    hide ANext, AInit;
    BootIsInit();
    forall i, j | 0 <= i && j == i + 1 < |tr| ensures ANext(tr[i], tr[j]) {
      if i < 5 { BootRuns(i); } else { Later(i); }
    }
  }

  lemma Later(i: nat)
    requires 5 <= i < 18
    ensures var tr := Boot() + Fork() + Clock(); ANext(tr[i], tr[i + 1])
  {
    hide ANext;
    match i {
      case 5 => Starts();
      case 6 => Forkret();
      case 7 => EntersFork();
      case 8 => LocksOwn();
      case 9 => PassesOwn();
      case 10 => LocksFree();
      case 11 => TakesPid();
      case 12 => Arrives();
      case 13 => TakesTicks();
      case 14 => CountsTick();
      case 15 => LocksFirstSlot();
      case 16 => SeesRunning();
      case 17 => PassesFirstSlot();
    }
  }

  lemma Stuck(a: AState)
    requires a == Clock()[5]
    ensures AShape(a) && Cycle(a, [0, 1])
  {
    assert Wants(a, 0) == Some(ProcLock(1)) && Wants(a, 1) == Some(TicksLock);
    assert WaitsFor(a, 0, 1) && WaitsFor(a, 1, 0);
  }
}
