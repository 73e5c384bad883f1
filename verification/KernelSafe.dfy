/**
 Every step keeps the invariant `Safe` of KernelLocks, so it holds in every reachable state.
 */
module KernelSafe {
  import opened Kernel
  import opened KernelLocks

  // ---------- Threads and CPUs ----------

  lemma BaseRuns(s: State, k: nat, me: nat, op: Op, pc': Pc, s': State)
    requires BaseEffect(s, k, me, op, pc', s') && RunOk(s) && QuietOk(s) && SpawnFree(s, op)
    ensures Shape(s') && RunOk(s') && QuietOk(s')
  {
    hide Changed, Quiet;
  }

  lemma TickRuns(s: State, k: nat, me: nat, op: Op, pc': TickPc, s': State)
    requires TickEffect(s, k, me, op, pc', s') && RunOk(s) && QuietOk(s) && !op.Spawn?
    ensures Shape(s') && RunOk(s') && QuietOk(s')
  {
    hide Changed, Quiet;
  }

  lemma IrqRuns(s: State, k: nat, op: Op, irq': Irq, end: TickEnd, s': State)
    requires IrqEffect(s, k, op, irq', end, s') && RunOk(s) && QuietOk(s) && !op.Spawn?
    requires s.cpus[k].irq.IUnlock? ==> irq'.INone?
    ensures Shape(s') && RunOk(s') && QuietOk(s')
  {
    hide Changed, Quiet;
  }

  // ---------- wait_lock and tickslock ----------

  /** Between s and s' only CPU k moved, by an operation on the two global locks. */
  ghost predicate OnlyCpuGlobal(s: State, k: nat, op: Op, s': State) {
    && Shape(s) && Shape(s') && |s.cpus| == |s'.cpus| && k < |s.cpus| && Enabled(s, op)
    && s'.waitLk == (if op.AcqW? then Some(k) else if op.RelW? then None else s.waitLk)
    && s'.tickLk == (if op.AcqT? then Some(k) else if op.RelT? then None else s.tickLk)
    && (forall j {:trigger HoldsW(s', j)} :: 0 <= j < |s.cpus| && j != k ==> (HoldsW(s', j) <==> HoldsW(s, j)))
    && (forall j {:trigger HoldsT(s', j)} :: 0 <= j < |s.cpus| && j != k ==> (HoldsT(s', j) <==> HoldsT(s, j)))
    && FlagMove(op.AcqW?, op.RelW?, HoldsW(s, k), HoldsW(s', k))
    && FlagMove(op.AcqT?, op.RelT?, HoldsT(s, k), HoldsT(s', k))
  }

  lemma GlobalStep(s: State, k: nat, op: Op, s': State)
    requires OnlyCpuGlobal(s, k, op, s') && GlobalLockOk(s)
    ensures GlobalLockOk(s')
  {
    hide HoldsW, HoldsT;
    forall j | 0 <= j < |s'.cpus| && HoldsW(s', j)
      ensures s'.waitLk == Some(j)
    {
      assert j != k ==> HoldsW(s, j);
      assert HoldsW(s, k) ==> s.waitLk == Some(k);
    }
    forall j | 0 <= j < |s'.cpus| && HoldsT(s', j)
      ensures s'.tickLk == Some(j)
    {
      assert j != k ==> HoldsT(s, j);
      assert HoldsT(s, k) ==> s.tickLk == Some(k);
    }
  }

  lemma BaseGlobal(s: State, k: nat, me: nat, op: Op, pc': Pc, s': State)
    requires BaseEffect(s, k, me, op, pc', s') && RunOk(s) && SpawnFree(s, op)
    requires BaseMove(me, s.threads[me].base, op, pc')
    ensures OnlyCpuGlobal(s, k, op, s')
  {
    hide BaseLock, BaseW, BaseT, Changed, LockMove;
  }

  lemma TickGlobal(s: State, k: nat, me: nat, op: Op, pc': TickPc, s': State)
    requires TickEffect(s, k, me, op, pc', s') && RunOk(s)
    requires !op.AcqW? && !op.RelW? && !op.AcqT? && !op.RelT? && !op.Spawn?
    ensures OnlyCpuGlobal(s, k, op, s')
  {
    hide BaseW, BaseT, IrqT, Changed;
  }

  lemma IrqGlobalOther(s: State, k: nat, irq': Irq, s': State, j: nat)
    requires IrqFrame(s, k, irq', s') && j < |s.cpus| && j != k
    ensures HoldsW(s', j) == HoldsW(s, j) && HoldsT(s', j) == HoldsT(s, j)
  {
    hide BaseW, BaseT, IrqT;
  }

  lemma IrqGlobalMine(s: State, k: nat, irq': Irq, s': State)
    requires IrqFrame(s, k, irq', s') && RunOk(s) && QuietOk(s) && !s.cpus[k].irq.INone?
    ensures !HoldsW(s, k) && !HoldsW(s', k)
    ensures HoldsT(s, k) == IrqT(s.cpus[k].irq) && HoldsT(s', k) == IrqT(irq')
  {
    hide BaseW, BaseT, BaseLock, IrqT;
    if s.cpus[k].spc.SRun? { QuietHoldsNothing(s.cpus[k].spc.p, s.threads[s.cpus[k].spc.p].base); }
  }

  lemma IrqGlobal(s: State, k: nat, op: Op, irq': Irq, end: TickEnd, s': State)
    requires IrqEffect(s, k, op, irq', end, s') && RunOk(s) && QuietOk(s)
    requires FlagMove(op.AcqT?, op.RelT?, IrqT(s.cpus[k].irq), IrqT(irq'))
    requires !op.AcqW? && !op.RelW? && !op.Spawn?
    ensures OnlyCpuGlobal(s, k, op, s')
  {
    hide HoldsW, HoldsT, IrqT, Changed, RunOk, QuietOk, IrqFrame;
    IrqFrames(s, k, op, irq', end, s');
    IrqGlobalMine(s, k, irq', s');
    forall j | 0 <= j < |s.cpus| && j != k
      ensures HoldsW(s', j) == HoldsW(s, j) && HoldsT(s', j) == HoldsT(s, j)
    {
      IrqGlobalOther(s, k, irq', s', j);
    }
  }

  // ---------- Process states ----------

  /** The lock of a running process in a state other than RUNNING is its own CPU's. */
  lemma NotRunningHolds(s: State, p: nat, k: nat)
    requires Shape(s) && p < |s.procs| && RunOk(s) && QuietOk(s) && LockOk(s) && StateOk(s)
    requires s.threads[p].on == Some(k) && !s.procs[p].state.RUNNING?
    ensures s.plock[p] == Some(k)
    ensures k < |s.cpus| && s.cpus[k].irq.INone? && s.cpus[k].spc == SRun(p)
  {
    assert SlotOk(p, s.procs[p], s.threads[p]);
    assert ThreadLock(p, s.threads[p]) == Some(p);
    assert Holds(s, k, p);
  }

  /** A locked slot that CPU k does not run and that is not RUNNING is not loaded anywhere. */
  lemma LockedIsSaved(s: State, p: nat, k: nat)
    requires Shape(s) && p < |s.procs| && RunOk(s) && QuietOk(s) && LockOk(s) && StateOk(s)
    requires s.plock[p] == Some(k) && s.threads[p].on != Some(k) && !s.procs[p].state.RUNNING?
    ensures s.threads[p].on.None?
  {
    hide SlotOk, LockOk;
    if s.threads[p].on.Some? { NotRunningHolds(s, p, s.threads[p].on.value); }
  }

  /** An operation on another process's slot leaves it consistent with its thread. */
  lemma OtherSlot(s: State, k: nat, me: Option<nat>, from: nat, op: Op, p: nat)
    requires Safe(s) && Enabled(s, op) && Permitted(s, k, me, op)
    requires p < |s.procs| && me != Some(p) && s.threads[p].on != Some(k) && from < |s.procs|
    ensures Target(op) == Some(p) ==>
      SlotOk(p, Changed(s.procs[p], op, s.procs[from], s.nextpid, s.ticks),
             if op.Spawn? then Thread(ForkRet, TNone, None) else s.threads[p])
  {
    hide RunOk, QuietOk, LockOk, GlobalLockOk, ForkOk, StateAt;
    assert SlotOk(p, s.procs[p], s.threads[p]);
    if s.plock[p] == Some(k) && !s.procs[p].state.RUNNING? { LockedIsSaved(s, p, k); }
    if s.threads[p].on.Some? { StateAtLive(s.threads[p]); }
  }

  lemma StateAtLive(th: Thread)
    ensures !StateAt(th).UNUSED? && !StateAt(th).USED?
  {
  }

  /** The thread of process me after it leaves its base code for pc'. */
  function Moved(th: Thread, pc: Pc): Thread { th.(base := pc) }

  ghost predicate MineOk(s: State, me: nat, op: Op, th': Thread)
    requires Shape(s) && me < |s.procs|
  {
    SlotOk(me, if Target(op) == Some(me) then Changed(s.procs[me], op, s.procs[me], s.nextpid, s.ticks)
        else s.procs[me], th')
  }

  lemma ForkMine(s: State, k: nat, me: nat, op: Op, pc': Pc)
    requires Safe(s) && Running(s, k, me) && s.threads[me].tick.TNone?
    requires s.threads[me].base.InFork? && ForkCode(s, me, s.threads[me].base, op, pc')
    ensures MineOk(s, me, op, Moved(s.threads[me], pc'))
  {
    hide RunOk, QuietOk, LockOk, GlobalLockOk;
  }

  lemma WaitMine(s: State, k: nat, me: nat, op: Op, pc': Pc)
    requires Safe(s) && Running(s, k, me) && s.threads[me].tick.TNone?
    requires s.threads[me].base.InWait? && WaitCode(s, me, s.threads[me].base, op, pc')
    ensures MineOk(s, me, op, Moved(s.threads[me], pc'))
  {
    hide QuietOk, LockOk, GlobalLockOk, ForkOk;
  }

  lemma SleepMine(s: State, k: nat, me: nat, op: Op, pc': Pc)
    requires Safe(s) && Running(s, k, me) && s.threads[me].tick.TNone?
    requires s.threads[me].base.InSleep? && SleepCode(s, me, s.threads[me].base, op, pc')
    ensures MineOk(s, me, op, Moved(s.threads[me], pc'))
  {
    hide QuietOk, LockOk, GlobalLockOk, ForkOk;
  }

  lemma ExitMine(s: State, k: nat, me: nat, op: Op, pc': Pc)
    requires Safe(s) && Running(s, k, me) && s.threads[me].tick.TNone?
    requires s.threads[me].base.InExit? && ExitCode(s, me, s.threads[me].base, op, pc')
    ensures MineOk(s, me, op, Moved(s.threads[me], pc'))
  {
    hide QuietOk, LockOk, GlobalLockOk, ForkOk;
  }

  lemma KillMine(s: State, k: nat, me: nat, op: Op, pc': Pc)
    requires Safe(s) && Running(s, k, me) && s.threads[me].tick.TNone?
    requires s.threads[me].base.InKill? && KillCode(s, me, s.threads[me].base, op, pc')
    ensures MineOk(s, me, op, Moved(s.threads[me], pc'))
  {
    hide QuietOk, LockOk, GlobalLockOk, ForkOk;
  }

  lemma PauseMine(s: State, k: nat, me: nat, op: Op, pc': Pc)
    requires Safe(s) && Running(s, k, me) && s.threads[me].tick.TNone?
    requires s.threads[me].base.InPause? && PauseCode(s, me, s.threads[me].base, op, pc')
    ensures MineOk(s, me, op, Moved(s.threads[me], pc'))
  {
    hide QuietOk, LockOk, GlobalLockOk, ForkOk, StillPausing;
  }

  lemma BaseMine(s: State, k: nat, me: nat, op: Op, pc': Pc)
    requires Safe(s) && Running(s, k, me) && s.threads[me].tick.TNone?
    requires BaseCode(s, me, s.threads[me].base, op, pc')
    ensures MineOk(s, me, op, Moved(s.threads[me], pc'))
  {
    hide QuietOk, LockOk, GlobalLockOk, ForkOk;
    assert SlotOk(me, s.procs[me], s.threads[me]);
    match s.threads[me].base {
      case InFork(_, _) => ForkMine(s, k, me, op, pc');
      case InWait(_, _, _, _) => WaitMine(s, k, me, op, pc');
      case InSleep(_, _) => SleepMine(s, k, me, op, pc');
      case InExit(_, _, _) => ExitMine(s, k, me, op, pc');
      case InKill(_, _, _) => KillMine(s, k, me, op, pc');
      case InPause(_, _, _) => PauseMine(s, k, me, op, pc');
      case _ =>
    }
  }

  lemma TickMine(s: State, k: nat, me: nat, op: Op, pc': TickPc)
    requires Safe(s) && Running(s, k, me) && !s.threads[me].tick.TNone?
    requires TickCode(s, me, s.threads[me].tick, op, pc')
    ensures MineOk(s, me, op, s.threads[me].(tick := pc'))
  {
    hide LockOk, GlobalLockOk, ForkOk;
    assert SlotOk(me, s.procs[me], s.threads[me]);
  }

  lemma BaseStates(s: State, k: nat, me: nat, op: Op, pc': Pc, s': State)
    requires Safe(s) && BaseEffect(s, k, me, op, pc', s') && Shape(s')
    requires Permitted(s, k, Some(me), op) && SpawnFree(s, op) && MineOk(s, me, op, Moved(s.threads[me], pc'))
    ensures StateOk(s')
  {
    hide QuietOk, LockOk, GlobalLockOk, ForkOk, SlotOk, Permitted, Changed;
    forall p | 0 <= p < |s'.procs|
      ensures SlotOk(p, s'.procs[p], s'.threads[p])
    {
      if p != me {
        SlotStays(s, p);
        OtherSlot(s, k, Some(me), me, op, p);
      }
    }
  }

  lemma SlotStays(s: State, p: nat)
    requires Shape(s) && StateOk(s) && p < |s.procs|
    ensures SlotOk(p, s.procs[p], s.threads[p])
  {
    hide SlotOk;
  }

  lemma TickStates(s: State, k: nat, me: nat, op: Op, pc': TickPc, s': State)
    requires Safe(s) && TickEffect(s, k, me, op, pc', s') && Shape(s') && !op.Spawn?
    requires Permitted(s, k, Some(me), op) && MineOk(s, me, op, s.threads[me].(tick := pc'))
    ensures StateOk(s')
  {
    hide QuietOk, LockOk, GlobalLockOk, ForkOk, SlotOk, Permitted, Changed;
    forall p | 0 <= p < |s'.procs|
      ensures SlotOk(p, s'.procs[p], s'.threads[p])
    {
      if p != me {
        SlotStays(s, p);
        OtherSlot(s, k, Some(me), me, op, p);
      }
    }
  }

  /** A handler touches no slot of the process it interrupts: wakeup skips myproc(). */
  lemma IrqStates(s: State, k: nat, op: Op, irq': Irq, end: TickEnd, s': State)
    requires Safe(s) && IrqEffect(s, k, op, irq', end, s') && Shape(s') && Permitted(s, k, s.cpus[k].cproc, op)
    requires WakeOp(op) || op.AcqT? || op.RelT? || op.Tick?
    requires op.Ready? ==> op.q < |s.procs| && s.procs[op.q].state.SLEEPING?
    requires s.cpus[k].irq.IUnlock? ==> op.RelT?
    ensures StateOk(s')
  {
    hide LockOk, GlobalLockOk, ForkOk, SlotOk, Permitted, Changed;
    forall p | 0 <= p < |s'.procs|
      ensures SlotOk(p, s'.procs[p], s'.threads[p])
    {
      SlotStays(s, p);
      if s.threads[p].on == Some(k) {
        IrqVictim(s, k, op, irq', end, s', p);
      } else {
        OtherSlot(s, k, s.cpus[k].cproc, INIT, op, p);
      }
    }
  }

  lemma IrqVictim(s: State, k: nat, op: Op, irq': Irq, end: TickEnd, s': State, p: nat)
    requires Safe(s) && IrqEffect(s, k, op, irq', end, s') && Shape(s')
    requires WakeOp(op) || op.AcqT? || op.RelT? || op.Tick?
    requires op.Ready? ==> op.q < |s.procs| && s.procs[op.q].state.SLEEPING?
    requires p < |s.procs| && s.threads[p].on == Some(k)
    requires s.cpus[k].irq.IUnlock? ==> op.RelT?
    ensures SlotOk(p, s'.procs[p], s'.threads[p])
  {
    hide LockOk, GlobalLockOk, ForkOk, StateOk;
    SlotStays(s, p);
    QuietRuns(s.threads[p]);
  }

  /** An interruptible thread is RUNNING, and stays so when the tick frame is pushed. */
  lemma QuietRuns(th: Thread)
    requires th.tick.TNone? && Quiet(th.base)
    ensures StateAt(th).RUNNING? && StateAt(th.(tick := TUpdAcq)).RUNNING?
  {
  }

  // ---------- USED slots ----------

  /** Operations on a USED slot come from the process that allocated it. */
  ghost predicate ForkOwned(s: State, me: nat, op: Op)
    requires Shape(s) && me < |s.procs|
  {
    match op
    case InitCounters(q) => IsFork(s.threads[me].base, AllocInit) && s.threads[me].base.i == q
    case Spawn(q) => IsFork(s.threads[me].base, AllocMem) && s.threads[me].base.i == q
    case Free(q) => q < |s.procs| && (s.procs[q].state.USED? ==>
        IsFork(s.threads[me].base, AllocMem) && s.threads[me].base.i == q)
    case Ready(q, _) => q < |s.procs| && (s.procs[q].state.USED? ==>
        IsFork(s.threads[me].base, ForkHeld) && s.threads[me].base.i == q)
    case _ => true
  }

  /** The fork part of a step: which slot the process has allocated before and after. */
  ghost predicate ForkMove(s: State, me: nat, op: Op, pc': Pc)
    requires Shape(s) && me < |s.procs|
  {
    var pc := s.threads[me].base;
    match op
    case NewPid(q) => pc' == InFork(q, AllocInit) && ForkSlot(pc).None?
    case InitCounters(q) => pc' == InFork(q, AllocMem)
    case Spawn(q) => pc' == InFork(q, ForkRelease)
    case Free(q) => ForkSlot(pc').None?
    case Ready(q, _) => ForkSlot(pc').None?
    case _ => ForkSlot(pc') == ForkSlot(pc) && (ForkSlot(pc).Some? ==>
        !IsFork(pc, AllocInit) && !IsFork(pc, AllocMem) && !IsFork(pc', AllocInit) && !IsFork(pc', AllocMem))
  }

  lemma ForkForkMove(s: State, k: nat, me: nat, op: Op, pc': Pc)
    requires Safe(s) && Running(s, k, me) && s.threads[me].tick.TNone?
    requires s.threads[me].base.InFork? && ForkCode(s, me, s.threads[me].base, op, pc')
    requires Enabled(s, op)
    ensures ForkMove(s, me, op, pc')
  {
    hide SlotOk, RunOk, LockOk, GlobalLockOk, QuietOk, ForkOk, StateOk;
  }

  lemma ForkForkOwned(s: State, k: nat, me: nat, op: Op, pc': Pc)
    requires Safe(s) && Running(s, k, me) && s.threads[me].tick.TNone?
    requires s.threads[me].base.InFork? && ForkCode(s, me, s.threads[me].base, op, pc')
    requires Enabled(s, op)
    ensures ForkOwned(s, me, op)
  {
    hide SlotOk, RunOk, LockOk, GlobalLockOk, QuietOk, ForkOk, StateOk;
  }

  lemma BaseForkMove(s: State, k: nat, me: nat, op: Op, pc': Pc)
    requires Safe(s) && Running(s, k, me) && s.threads[me].tick.TNone?
    requires Enabled(s, op) && BaseCode(s, me, s.threads[me].base, op, pc')
    ensures ForkMove(s, me, op, pc') && ForkOwned(s, me, op)
  {
    hide SlotOk, RunOk, LockOk, GlobalLockOk, QuietOk, ForkOk, Permitted;
    hide ForkCode, WaitCode, SleepCode, ExitCode, KillCode, PauseCode, EntryCode;
    BasePermitted(s, k, me, op, pc');
    if s.threads[me].base.InFork? { ForkForkMove(s, k, me, op, pc'); ForkForkOwned(s, k, me, op, pc'); }
    else {
      assert ForkSlot(s.threads[me].base).None?;
      assert PlainOp(s, op);
      assert ForkOwned(s, me, op);
      assert ForkMove(s, me, op, pc');
    }
  }

  /** Process me does not change a USED slot that another process has allocated. */
  lemma UsedKept(s: State, k: nat, me: nat, op: Op, pc': Pc, s': State, q: nat)
    requires Shape(s) && RunOk(s) && BaseEffect(s, k, me, op, pc', s')
    requires Permitted(s, k, Some(me), op) && ForkOwned(s, me, op)
    requires q < |s.procs| && s.procs[q].state.USED? && s.threads[q].on.None? && ForkSlot(s.threads[me].base) != Some(q)
    ensures s'.procs[q].state.USED? && s'.procs[q].ready == s.procs[q].ready && s'.threads[q] == s.threads[q]
  {
  }

  /** Another process's allocated slot is left alone. */
  lemma OtherFork(s: State, k: nat, me: nat, op: Op, pc': Pc, s': State, f: nat)
    requires Shape(s) && Shape(s') && RunOk(s) && ForkOk(s) && BaseEffect(s, k, me, op, pc', s')
    requires Permitted(s, k, Some(me), op) && ForkOwned(s, me, op)
    requires f < |s.procs| && f != me && ForkSlot(s'.threads[f].base).Some?
    ensures ForkSlot(s.threads[f].base) == ForkSlot(s'.threads[f].base)
    ensures ForkedOk(s', f, ForkSlot(s'.threads[f].base).value)
  {
    hide RunOk, Permitted, ForkOwned, Changed, ForkOk;
    assert s'.threads[f].base == s.threads[f].base;
    var q := ForkSlot(s.threads[f].base).value;
    ForkKnown(s, f, me);
    UsedKept(s, k, me, op, pc', s', q);
  }

  lemma ForkKnown(s: State, f: nat, g: nat)
    requires Shape(s) && ForkOk(s) && f < |s.procs| && g < |s.procs| && f != g && ForkSlot(s.threads[f].base).Some?
    ensures ForkedOk(s, f, ForkSlot(s.threads[f].base).value)
    ensures ForkSlot(s.threads[g].base) != ForkSlot(s.threads[f].base)
  {
    hide ForkSlot, ForkedOk;
  }

  lemma UsedIsSaved(s: State, q: nat)
    requires Shape(s) && StateOk(s) && q < |s.procs| && s.procs[q].state.USED?
    ensures s.threads[q].on.None?
  {
    SlotStays(s, q);
    StateAtLive(s.threads[q]);
  }

  /** The slot that process me has allocated, after its step. */
  lemma OwnFork(s: State, k: nat, me: nat, op: Op, pc': Pc, s': State)
    requires Shape(s) && Shape(s') && RunOk(s) && ForkOk(s) && BaseEffect(s, k, me, op, pc', s') && StateOk(s')
    requires Permitted(s, k, Some(me), op) && ForkOwned(s, me, op) && ForkMove(s, me, op, pc')
    requires ForkSlot(pc').Some?
    ensures ForkedOk(s', me, ForkSlot(pc').value)
  {
    hide StateOk, ForkOk;
    var q := ForkSlot(pc').value;
    if op.NewPid? {
      UsedIsSaved(s', q);
    } else {
      OwnKnown(s, me);
    }
  }

  lemma OwnKnown(s: State, f: nat)
    requires Shape(s) && ForkOk(s) && f < |s.procs| && ForkSlot(s.threads[f].base).Some?
    ensures ForkedOk(s, f, ForkSlot(s.threads[f].base).value)
  {
    hide ForkSlot, ForkedOk;
  }

  lemma BaseForks(s: State, k: nat, me: nat, op: Op, pc': Pc, s': State)
    requires Shape(s) && Shape(s') && RunOk(s) && ForkOk(s) && BaseEffect(s, k, me, op, pc', s') && StateOk(s')
    requires Permitted(s, k, Some(me), op) && ForkOwned(s, me, op) && ForkMove(s, me, op, pc')
    ensures ForkOk(s')
  {
    hide RunOk, StateOk, Permitted, ForkOwned, ForkMove, ForkedOk, Changed, ForkSlot;
    if ForkSlot(pc').Some? { OwnFork(s, k, me, op, pc', s'); }
    forall f | 0 <= f < |s'.procs| && ForkSlot(s'.threads[f].base).Some?
      ensures ForkedOk(s', f, ForkSlot(s'.threads[f].base).value)
    {
      if f != me { OtherFork(s, k, me, op, pc', s', f); }
    }
    forall f, g | 0 <= f < g < |s'.procs| && ForkSlot(s'.threads[f].base).Some?
      ensures ForkSlot(s'.threads[f].base) != ForkSlot(s'.threads[g].base)
    {
      BaseForksDiffer(s, k, me, op, pc', s', f, g);
    }
  }

  lemma BaseForksDiffer(s: State, k: nat, me: nat, op: Op, pc': Pc, s': State, f: nat, g: nat)
    requires Shape(s) && Shape(s') && RunOk(s) && ForkOk(s) && BaseEffect(s, k, me, op, pc', s')
    requires Permitted(s, k, Some(me), op) && ForkOwned(s, me, op) && ForkMove(s, me, op, pc')
    requires f < g < |s'.procs| && ForkSlot(s'.threads[f].base).Some?
    ensures ForkSlot(s'.threads[f].base) != ForkSlot(s'.threads[g].base)
  {
    if f != me { OtherFork(s, k, me, op, pc', s', f); }
    if g != me && ForkSlot(s'.threads[g].base).Some? { OtherFork(s, k, me, op, pc', s', g); }
  }

  /** Nothing that ForkOk depends on has changed. */
  ghost predicate ForkFrame(s: State, s': State) {
    && Shape(s) && Shape(s') && |s.procs| == |s'.procs|
    && (forall p {:trigger s'.threads[p]} :: 0 <= p < |s.procs| ==>
          || s'.threads[p].base == s.threads[p].base
          || (ForkSlot(s.threads[p].base).None? && ForkSlot(s'.threads[p].base).None?))
    && (forall p {:trigger s'.threads[p]} :: 0 <= p < |s.procs| && s.procs[p].state.USED? && s.threads[p].on.None? ==>
          s'.threads[p] == s.threads[p])
    && (forall p {:trigger s'.procs[p]} :: 0 <= p < |s.procs| && s.procs[p].state.USED? ==>
          s'.procs[p].state.USED? && s'.procs[p].ready == s.procs[p].ready)
  }

  lemma FramedForks(s: State, s': State)
    requires ForkFrame(s, s') && ForkOk(s)
    ensures ForkOk(s')
  {
    hide ForkSlot;
  }

  lemma TickForks(s: State, k: nat, me: nat, op: Op, pc': TickPc, s': State)
    requires Shape(s) && Shape(s') && RunOk(s) && StateOk(s) && TickEffect(s, k, me, op, pc', s')
    requires op.Nop? || op.Acq? || op.Rel? || op.PushQ? || (op.Ready? && op.q == me) || op.Charge? || op.Switch?
    ensures ForkFrame(s, s')
  {
    SlotStays(s, me);
    StateAtLive(s.threads[me]);
  }

  lemma IrqForks(s: State, k: nat, op: Op, irq': Irq, s': State)
    requires Wrote(s, INIT, op, s') && IrqFrame(s, k, irq', s') && RunOk(s)
    requires WakeOp(op) || op.AcqT? || op.RelT? || op.Tick?
    requires op.Ready? ==> op.q < |s.procs| && s.procs[op.q].state.SLEEPING?
    ensures ForkFrame(s, s')
  {
  }

  // ---------- Steps keep Safe ----------

  lemma BaseSafe(s: State, k: nat, op: Op, pc': Pc, s': State)
    requires Safe(s) && BaseStep(s, k, op, pc', s')
    ensures Safe(s')
  {
    hide BaseCode, BaseMove, Permitted, ForkMove, ForkOwned, MineOk, BaseEffect, OnlyCpu, OnlyCpuGlobal;
    hide RunOk, QuietOk, LockOk, GlobalLockOk, StateOk, ForkOk;
    var me := s.cpus[k].spc.p;
    BaseRunning(s, k, me, op, pc', s');
    BaseMoves(s, me, s.threads[me].base, op, pc');
    BasePermitted(s, k, me, op, pc');
    BaseForkMove(s, k, me, op, pc');
    BaseMine(s, k, me, op, pc');
    PermittedSpawn(s, k, Some(me), op);
    BaseRuns(s, k, me, op, pc', s');
    BaseOnly(s, k, me, op, pc', s');
    LockStep(s, k, op, s');
    BaseGlobal(s, k, me, op, pc', s');
    GlobalStep(s, k, op, s');
    BaseStates(s, k, me, op, pc', s');
    BaseForks(s, k, me, op, pc', s');
  }

  lemma BaseRunning(s: State, k: nat, me: nat, op: Op, pc': Pc, s': State)
    requires BaseEffect(s, k, me, op, pc', s')
    ensures Running(s, k, me) && s.threads[me].tick.TNone? && Enabled(s, op)
  {
    hide Changed;
  }

  lemma PermittedSpawn(s: State, k: nat, me: Option<nat>, op: Op)
    requires Shape(s) && Permitted(s, k, me, op)
    ensures SpawnFree(s, op)
  {
  }

  lemma TickSafe(s: State, k: nat, op: Op, pc': TickPc, s': State)
    requires Safe(s) && TickStep(s, k, op, pc', s')
    ensures Safe(s')
  {
    hide Permitted, MineOk, OnlyCpu, OnlyCpuGlobal;
    hide RunOk, QuietOk, LockOk, GlobalLockOk, StateOk, ForkOk, ForkFrame;
    var me := s.cpus[k].spc.p;
    TickMoves(s, me, s.threads[me].tick, op, pc');
    TickPermitted(s, k, me, op, pc');
    TickMine(s, k, me, op, pc');
    TickRuns(s, k, me, op, pc', s');
    TickOnly(s, k, me, op, pc', s');
    LockStep(s, k, op, s');
    TickGlobal(s, k, me, op, pc', s');
    GlobalStep(s, k, op, s');
    TickStates(s, k, me, op, pc', s');
    TickForks(s, k, me, op, pc', s');
    FramedForks(s, s');
  }

  lemma IrqSafe(s: State, k: nat, op: Op, irq': Irq, end: TickEnd, s': State)
    requires Safe(s) && IrqStep(s, k, op, irq', end, s')
    ensures Safe(s')
  {
    hide Permitted, OnlyCpu, OnlyCpuGlobal, IrqCode, IrqEffect, ChargeChoice, Wrote, IrqFrame;
    hide RunOk, QuietOk, LockOk, GlobalLockOk, StateOk, ForkOk, ForkFrame;
    IrqRunning(s, k, op, irq', end, s');
    IrqMoves(s, s.cpus[k].cproc, s.cpus[k].irq, op, irq');
    IrqPermitted(s, k, op, irq');
    IrqRuns(s, k, op, irq', end, s');
    IrqOnly(s, k, op, irq', end, s');
    LockStep(s, k, op, s');
    IrqGlobal(s, k, op, irq', end, s');
    GlobalStep(s, k, op, s');
    IrqStates(s, k, op, irq', end, s');
    IrqWrites(s, k, op, irq', end, s');
    IrqForks(s, k, op, irq', s');
    FramedForks(s, s');
  }

  lemma IrqRunning(s: State, k: nat, op: Op, irq': Irq, end: TickEnd, s': State)
    requires IrqEffect(s, k, op, irq', end, s')
    ensures k < |s.cpus| && !s.cpus[k].irq.INone?
  {
    hide Changed;
  }

  /** A step that leaves process slots and locks alone and moves CPU k only. */
  ghost predicate LocksAlone(s: State, k: nat, s': State) {
    && Shape(s) && Shape(s') && k < |s.cpus| && |s'.cpus| == |s.cpus|
    && s'.procs == s.procs && s'.plock == s.plock && s'.waitLk == s.waitLk && s'.tickLk == s.tickLk
    && (forall j, q {:trigger Holds(s', j, q)} :: 0 <= j < |s.cpus| && 0 <= q ==> Holds(s', j, q) == Holds(s, j, q))
    && (forall j {:trigger HoldsW(s', j)} :: 0 <= j < |s.cpus| ==> HoldsW(s', j) == HoldsW(s, j))
    && (forall j {:trigger HoldsT(s', j)} :: 0 <= j < |s.cpus| ==> HoldsT(s', j) == HoldsT(s, j))
  }

  lemma AloneKeepsLocks(s: State, k: nat, s': State)
    requires LocksAlone(s, k, s') && LockOk(s) && GlobalLockOk(s)
    ensures LockOk(s') && GlobalLockOk(s')
  {
    hide Holds, HoldsW, HoldsT;
    forall j, q | 0 <= j < |s'.cpus| && 0 <= q && Holds(s', j, q)
      ensures q < |s'.procs| && s'.plock[q] == Some(j)
    {
      assert Holds(s, j, q);
    }
    forall j | 0 <= j < |s'.cpus| && HoldsW(s', j) ensures s'.waitLk == Some(j) { assert HoldsW(s, j); }
    forall j | 0 <= j < |s'.cpus| && HoldsT(s', j) ensures s'.tickLk == Some(j) { assert HoldsT(s, j); }
  }

  predicate NewIrq(irq: Irq) {
    irq.INone? || irq.IClock? || (irq.IWake? && irq.src.Device? && irq.w.ph.At?)
  }

  /** The arrival of an interrupt. */
  ghost predicate Arrival(s: State, k: nat, s': State) {
    && Interruptible(s, k) && Shape(s')
    && |s'.cpus| == |s.cpus|
    && s'.procs == s.procs && s'.plock == s.plock && s'.waitLk == s.waitLk && s'.tickLk == s.tickLk
    && s'.cpus == s.cpus[k := s.cpus[k].(irq := s'.cpus[k].irq)]
    && NewIrq(s'.cpus[k].irq)
    && (s'.threads == s.threads ||
        (s.cpus[k].spc.SRun? && s'.cpus[k].irq.INone? &&
         s'.threads == s.threads[s.cpus[k].spc.p := s.threads[s.cpus[k].spc.p].(tick := TUpdAcq)]))
  }

  lemma TimerArrives(s: State, k: nat, end: TickEnd, s': State)
    requires TimerStep(s, k, end, s')
    ensures Arrival(s, k, s')
  {
  }

  lemma DeviceArrives(s: State, k: nat, id: nat, s': State)
    requires DeviceStep(s, k, id, s')
    ensures Arrival(s, k, s')
  {
  }

  lemma ArrivalRuns(s: State, k: nat, s': State)
    requires Arrival(s, k, s') && RunOk(s) && QuietOk(s)
    ensures RunOk(s') && QuietOk(s')
  {
    hide Quiet;
  }

  lemma ArrivalLocks(s: State, k: nat, s': State)
    requires Arrival(s, k, s') && RunOk(s)
    ensures LocksAlone(s, k, s')
  {
    hide BaseLock, BaseW, BaseT, Quiet;
    if s.cpus[k].spc.SRun? && Quiet(s.threads[s.cpus[k].spc.p].base) {
      QuietHoldsNothing(s.cpus[k].spc.p, s.threads[s.cpus[k].spc.p].base);
    }
  }

  lemma ArrivalStates(s: State, k: nat, s': State)
    requires Arrival(s, k, s') && RunOk(s) && StateOk(s)
    ensures StateOk(s') && ForkFrame(s, s')
  {
    hide StateAt;
    forall p | 0 <= p < |s'.procs|
      ensures SlotOk(p, s'.procs[p], s'.threads[p])
    {
      SlotStays(s, p);
      if s.cpus[k].spc == SRun(p) { QuietRuns(s.threads[p]); }
    }
  }

  lemma ArrivalSafe(s: State, k: nat, s': State)
    requires Safe(s) && Arrival(s, k, s')
    ensures Safe(s')
  {
    hide Arrival, LocksAlone, RunOk, QuietOk, LockOk, GlobalLockOk, StateOk, ForkOk, ForkFrame;
    ArrivalShape(s, k, s');
    ArrivalRuns(s, k, s');
    ArrivalLocks(s, k, s');
    AloneKeepsLocks(s, k, s');
    ArrivalStates(s, k, s');
    FramedForks(s, s');
  }

  lemma ArrivalShape(s: State, k: nat, s': State)
    requires Arrival(s, k, s')
    ensures Shape(s')
  {
  }

  // ---------- The scheduler's steps ----------

  lemma SwtchLocks(s: State, k: nat, s': State)
    requires SwtchStep(s, k, s') && RunOk(s) && QuietOk(s)
    ensures LocksAlone(s, k, s')
  {
    var me := s.cpus[k].spc.p;
    if Quiet(s.threads[me].base) { QuietHoldsNothing(me, s.threads[me].base); }
  }

  lemma SwtchStates(s: State, k: nat, s': State)
    requires SwtchStep(s, k, s') && RunOk(s) && QuietOk(s) && StateOk(s)
    ensures Shape(s') && RunOk(s') && QuietOk(s') && StateOk(s') && ForkFrame(s, s')
  {
    var me := s.cpus[k].spc.p;
    SlotStays(s, me);
    StateAtLive(s.threads[me]);
    forall p | 0 <= p < |s'.procs|
      ensures SlotOk(p, s'.procs[p], s'.threads[p])
    {
      SlotStays(s, p);
    }
  }

  /** Leaving a process: its context is saved while its own CPU holds its lock. */
  lemma SwtchSafe(s: State, k: nat, s': State)
    requires Safe(s) && SwtchStep(s, k, s')
    ensures Safe(s')
  {
    hide SwtchStep, LocksAlone, RunOk, QuietOk, LockOk, GlobalLockOk, StateOk, ForkOk, ForkFrame;
    SwtchStates(s, k, s');
    SwtchLocks(s, k, s');
    AloneKeepsLocks(s, k, s');
    FramedForks(s, s');
  }

  lemma ClearRuns(s: State, k: nat, s': State)
    requires ClearStep(s, k, s') && RunOk(s) && QuietOk(s) && StateOk(s)
    ensures Shape(s') && RunOk(s') && QuietOk(s') && StateOk(s') && ForkFrame(s, s') && LocksAlone(s, k, s')
  {
    hide Quiet, BaseLock, BaseW, BaseT, SlotOk;
  }

  lemma ClearSafe(s: State, k: nat, s': State)
    requires Safe(s) && ClearStep(s, k, s')
    ensures Safe(s')
  {
    hide ClearStep, LocksAlone, RunOk, QuietOk, LockOk, GlobalLockOk, StateOk, ForkOk, ForkFrame;
    ClearRuns(s, k, s');
    AloneKeepsLocks(s, k, s');
    FramedForks(s, s');
  }

  /** A scheduler that locks or unlocks a slot. */
  ghost predicate SchedLock(s: State, k: nat, op: Op, s': State) {
    && Shape(s) && k < |s.cpus| && s.cpus[k].spc.SScan? && s.cpus[k].irq.INone? && Enabled(s, op)
    && (op.Acq? || (op.Rel? && op.q in s.cpus[k].spc.held))
    && s' == SetSched(s.(plock := s.plock[op.q := if op.Acq? then Some(k) else None]), k, s.cpus[k].cproc,
                      SScan(if op.Acq? then s.cpus[k].spc.held + {op.q} else s.cpus[k].spc.held - {op.q}))
  }

  lemma SchedLockOnly(s: State, k: nat, op: Op, s': State)
    requires SchedLock(s, k, op, s')
    ensures OnlyCpu(s, k, op, s') && OnlyCpuGlobal(s, k, op, s')
  {
    hide BaseLock, BaseW, BaseT, TickLock;
  }

  lemma SchedLockRuns(s: State, k: nat, op: Op, s': State)
    requires SchedLock(s, k, op, s') && RunOk(s) && QuietOk(s) && StateOk(s)
    ensures Shape(s') && RunOk(s') && QuietOk(s') && StateOk(s') && ForkFrame(s, s')
  {
    hide Quiet, SlotOk;
  }

  lemma SchedLockSafe(s: State, k: nat, op: Op, s': State)
    requires Safe(s) && SchedLock(s, k, op, s')
    ensures Safe(s')
  {
    hide SchedLock, OnlyCpu, OnlyCpuGlobal, RunOk, QuietOk, LockOk, GlobalLockOk, StateOk, ForkOk, ForkFrame;
    SchedLockRuns(s, k, op, s');
    SchedLockOnly(s, k, op, s');
    LockStep(s, k, op, s');
    GlobalStep(s, k, op, s');
    FramedForks(s, s');
  }

  /** A RUNNABLE slot whose lock the scheduler holds is executed by no CPU. */
  lemma DispatchFree(s: State, k: nat, q: nat)
    requires Safe(s) && Choosing(s, k, q) && s.cpus[k].spc.held == {q} && s.procs[q].state.RUNNABLE?
    ensures s.plock[q] == Some(k) && s.threads[q].on.None? && Resumable(s.threads[q])
    ensures forall j {:trigger s.cpus[j]} :: 0 <= j < |s.cpus| ==> s.cpus[j].spc != SBack(q)
  {
    hide QuietOk, GlobalLockOk, ForkOk;
    assert Holds(s, k, q);
    forall j | 0 <= j < |s.cpus|
      ensures s.cpus[j].spc != SBack(q)
    {
      assert s.cpus[j].spc == SBack(q) ==> Holds(s, j, q);
    }
    LockedIsSaved(s, q, k);
    SlotStays(s, q);
  }

  lemma DispatchLocks(s: State, k: nat, q: nat, s': State)
    requires DispatchStep(s, k, q, s') && RunOk(s) && QuietOk(s) && LockOk(s) && GlobalLockOk(s)
    requires s.threads[q].on.None? && Resumable(s.threads[q])
    ensures Shape(s') && LockOk(s') && GlobalLockOk(s')
  {
    if Quiet(s.threads[q].base) { QuietHoldsNothing(q, s.threads[q].base); }
    assert |s'.cpus| == |s.cpus|;
    DispatchHolds(s, k, q, s');
    hide Holds, HoldsW, HoldsT;
    forall j, x | 0 <= j < |s'.cpus| && 0 <= x && Holds(s', j, x)
      ensures x < |s'.procs| && s'.plock[x] == Some(j)
    {
      assert Holds(s, j, x);
    }
    forall j | 0 <= j < |s'.cpus| && HoldsW(s', j) ensures s'.waitLk == Some(j) { assert HoldsW(s, j); }
    forall j | 0 <= j < |s'.cpus| && HoldsT(s', j) ensures s'.tickLk == Some(j) { assert HoldsT(s, j); }
  }

  /** The lock stays with the CPU: what the scheduler held, the resumed thread holds. */
  lemma DispatchHolds(s: State, k: nat, q: nat, s': State)
    requires DispatchStep(s, k, q, s') && RunOk(s) && QuietOk(s)
    requires s.threads[q].on.None? && Resumable(s.threads[q])
    ensures Shape(s') && |s'.cpus| == |s.cpus| && |s'.procs| == |s.procs|
    ensures forall j, x {:trigger Holds(s', j, x)} :: 0 <= j < |s.cpus| && 0 <= x ==> Holds(s', j, x) == Holds(s, j, x)
    ensures forall j {:trigger HoldsW(s', j)} :: 0 <= j < |s.cpus| ==> HoldsW(s', j) == HoldsW(s, j)
    ensures forall j {:trigger HoldsT(s', j)} :: 0 <= j < |s.cpus| ==> HoldsT(s', j) == HoldsT(s, j)
  {
    if Quiet(s.threads[q].base) { QuietHoldsNothing(q, s.threads[q].base); }
  }

  lemma DispatchStates(s: State, k: nat, q: nat, s': State)
    requires DispatchStep(s, k, q, s') && RunOk(s) && QuietOk(s) && StateOk(s)
    requires s.threads[q].on.None? && Resumable(s.threads[q])
    requires forall j {:trigger s.cpus[j]} :: 0 <= j < |s.cpus| ==> s.cpus[j].spc != SBack(q)
    ensures Shape(s') && RunOk(s') && QuietOk(s') && StateOk(s') && ForkFrame(s, s')
  {
    forall p | 0 <= p < |s'.procs|
      ensures SlotOk(p, s'.procs[p], s'.threads[p])
    {
      SlotStays(s, p);
    }
  }

  /** Dispatching: the CPU keeps the lock and the resumed thread answers for it. */
  lemma DispatchSafe(s: State, k: nat, q: nat, s': State)
    requires Safe(s) && DispatchStep(s, k, q, s')
    ensures Safe(s')
  {
    hide RunOk, QuietOk, LockOk, GlobalLockOk, StateOk, ForkOk, ForkFrame, Resumable;
    DispatchFree(s, k, q);
    DispatchLocks(s, k, q, s');
    DispatchStates(s, k, q, s');
    FramedForks(s, s');
  }

  // ---------- All steps, all runs ----------

  lemma NextSafe(s: State, st: Step, s': State)
    requires Safe(s) && NextStep(s, st, s')
    ensures Safe(s')
  {
    hide Safe, BaseStep, TickStep, IrqStep, TimerStep, DeviceStep, SwtchStep, ClearStep, DispatchStep;
    match st {
      case BaseGo(k, op, pc) => BaseSafe(s, k, op, pc, s');
      case TickGo(k, op, pc) => TickSafe(s, k, op, pc, s');
      case IrqGo(k, op, irq, end) => IrqSafe(s, k, op, irq, end, s');
      case TimerStart(k, end) => TimerArrives(s, k, end, s'); ArrivalSafe(s, k, s');
      case DeviceStart(k, id) => DeviceArrives(s, k, id, s'); ArrivalSafe(s, k, s');
      case SwtchOut(k) => SwtchSafe(s, k, s');
      case ClearProc(k) => ClearSafe(s, k, s');
      case SchedAcq(k, q) => SchedLockSafe(s, k, Acq(q), s');
      case SchedRel(k, q) => SchedLockSafe(s, k, Rel(q), s');
      case Dispatch(k, q) => DispatchSafe(s, k, q, s');
    }
  }

  lemma InitSafe(s: State)
    requires Init(s)
    ensures Safe(s)
  {
  }

  lemma NextKeepsSafe(s: State, s': State)
    requires Safe(s) && Next(s, s')
    ensures Safe(s')
  {
    hide Safe, NextStep;
    var st :| NextStep(s, st, s');
    NextSafe(s, st, s');
  }

  /** The invariant holds in every state of every run. */
  lemma {:induction false} RunSafe(tr: seq<State>, i: nat)
    requires Run(tr) && i < |tr|
    ensures Safe(tr[i])
  {
    hide Safe, Next, Init;
    if i == 0 {
      InitSafe(tr[0]);
    } else {
      RunSafe(tr, i - 1);
      NextKeepsSafe(tr[i - 1], tr[i]);
    }
  }

  // ---------- Hand-off theorems ----------

  ghost predicate ExecutedBy(s: State, k: nat, p: nat)
    requires Shape(s) && k < |s.cpus|
  {
    s.cpus[k].spc == SRun(p)
  }

  /** At most one CPU has c->proc == p, at every moment of every run. */
  lemma OneCpuPerProcess(tr: seq<State>, i: nat, j: nat, k: nat)
    requires Run(tr) && i < |tr| && Shape(tr[i]) && j < k < |tr[i].cpus|
    ensures tr[i].cpus[j].cproc.None? || tr[i].cpus[j].cproc != tr[i].cpus[k].cproc
  {
    hide QuietOk, GlobalLockOk, StateOk, ForkOk;
    RunSafe(tr, i);
    var s := tr[i];
    assert s.cpus[j].spc.SBack? ==> Holds(s, j, s.cpus[j].spc.p);
    assert s.cpus[k].spc.SBack? ==> Holds(s, k, s.cpus[k].spc.p);
  }

  /** A process whose lock is free is RUNNING exactly when one CPU executes it. */
  lemma FreeLockRunning(tr: seq<State>, i: nat, p: nat)
    requires Run(tr) && i < |tr| && Shape(tr[i]) && p < |tr[i].procs| && tr[i].plock[p].None?
    ensures tr[i].procs[p].state.RUNNING? <==> exists k :: 0 <= k < |tr[i].cpus| && ExecutedBy(tr[i], k, p)
    ensures forall j, k ::
      0 <= j < |tr[i].cpus| && 0 <= k < |tr[i].cpus| && ExecutedBy(tr[i], j, p) && ExecutedBy(tr[i], k, p) ==> j == k
  {
    hide GlobalLockOk, ForkOk, LockOk;
    RunSafe(tr, i);
    var s := tr[i];
    SlotStays(s, p);
    if s.threads[p].on.Some? {
      assert ExecutedBy(s, s.threads[p].on.value, p);
      if !s.procs[p].state.RUNNING? { NotRunningHolds(s, p, s.threads[p].on.value); }
    }
  }

  /** The context a scheduler resumes was saved by swtch and is executed by no CPU: between
      the moment a process marks itself RUNNABLE or SLEEPING and the moment its context is
      saved, no CPU can resume it. */
  lemma ResumesSavedContext(tr: seq<State>, i: nat, k: nat, q: nat)
    requires Run(tr) && 0 < i < |tr| && DispatchStep(tr[i - 1], k, q, tr[i])
    ensures tr[i - 1].threads[q].on.None? && Resumable(tr[i - 1].threads[q])
    ensures tr[i - 1].plock[q] == Some(k) && tr[i].plock[q] == Some(k)
    ensures Shape(tr[i]) && ThreadLock(q, tr[i].threads[q]) == Some(q)
  {
    hide RunOk, LockOk, GlobalLockOk, StateOk, ForkOk, QuietOk;
    RunSafe(tr, i - 1);
    DispatchFree(tr[i - 1], k, q);
  }

  /** A thread that is inside sched, before its swtch. */
  predicate InSched(th: Thread) {
    || th.tick.TYieldSched? || th.tick.TYieldSwtch?
    || (th.tick.TNone? && (IsSleep(th.base, SleepSched) || IsSleep(th.base, SleepSwtch) ||
                           IsExit(th.base, ExitSched) || IsExit(th.base, ExitSwtch)))
  }

  /** The panics of sched never fire: the caller's CPU holds the process's lock and no
      other spinlock, interrupts are off, and the state is no longer RUNNING. */
  lemma SchedChecksPass(tr: seq<State>, i: nat, k: nat, p: nat)
    requires Run(tr) && i < |tr| && Shape(tr[i]) && k < |tr[i].cpus| && p < |tr[i].procs|
    requires ExecutedBy(tr[i], k, p) && InSched(tr[i].threads[p])
    ensures tr[i].plock[p] == Some(k)
    ensures forall q :: 0 <= q < |tr[i].procs| && q != p ==> tr[i].plock[q] != Some(k)
    ensures tr[i].waitLk != Some(k) && tr[i].tickLk != Some(k)
    ensures !tr[i].procs[p].state.RUNNING? && tr[i].cpus[k].irq.INone?
  {
    hide ForkOk, LockOk, GlobalLockOk;
    RunSafe(tr, i);
    var s := tr[i];
    SlotStays(s, p);
    NotRunningHolds(s, p, k);
    if Quiet(s.threads[p].base) { QuietHoldsNothing(p, s.threads[p].base); }
    HoldsOnly(s, k, p);
  }

  lemma HoldsOnly(s: State, k: nat, p: nat)
    requires Safe(s) && k < |s.cpus| && p < |s.procs| && ExecutedBy(s, k, p) && s.cpus[k].irq.INone?
    requires ThreadLock(p, s.threads[p]) == Some(p) && !BaseW(s.threads[p].base) && !BaseT(s.threads[p].base)
    ensures forall q :: 0 <= q < |s.procs| && q != p ==> s.plock[q] != Some(k)
    ensures s.waitLk != Some(k) && s.tickLk != Some(k)
  {
    hide RunOk, StateOk, ForkOk, QuietOk, ThreadLock, BaseW, BaseT;
    forall q | 0 <= q < |s.procs| && q != p
      ensures s.plock[q] != Some(k)
    {
      assert s.plock[q] == Some(k) ==> Holds(s, k, q);
    }
  }
}
