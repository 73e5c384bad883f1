/**
 sys_pause and the clock: a pause returns 0 only after enough ticks, and no tick is missed
 by a process that sleeps in sys_pause.
 */
module KernelTicks {
  import opened Kernel
  import opened KernelLocks
  import opened KernelSafe
  import opened KernelTree
  import opened KernelWait

  /** Process q has released tickslock to sleep in sys_pause and nobody has woken it yet. */
  ghost predicate Resting(s: State, q: nat)
    requires Shape(s) && q < |s.procs|
  {
    var th := s.threads[q];
    && th.tick.TNone? && th.base.InSleep? && th.base.r.ToPause?
    && (|| th.base.sleep.SleepSet? || th.base.sleep.SleepSched? || th.base.sleep.SleepSwtch?
        || (th.base.sleep.SleepBack? && s.procs[q].state.SLEEPING?))
  }

  /** clockintr has counted a tick and its wakeup has still to decide about slot q. */
  ghost predicate TickPending(s: State, q: nat)
    requires Shape(s)
  {
    && s.tickLk.Some? && s.tickLk.value < |s.cpus|
    && var irq := s.cpus[s.tickLk.value].irq;
       irq.IWake? && irq.src.Clock? && Pending(irq.w, q)
  }

  /** The pauser last tested its condition at the current tick, unless a wakeup is due. */
  ghost predicate RestOk(s: State, q: nat)
    requires Shape(s) && q < |s.procs|
  {
    Resting(s, q) ==>
      var r := s.threads[q].base.r;
      && StillPausing(r.seen, r.start, r.n)
      && (r.seen == s.ticks || TickPending(s, q))
  }

  /** What sys_pause knows at its places under tickslock. */
  ghost predicate PauserOk(s: State, x: nat)
    requires Shape(s) && x < |s.procs|
  {
    match s.threads[x].base
    case InSleep(r, ph) =>
      r.ToPause? ==>
        && r.start <= s.ticks
        && (ph.SleepAt? || ph.SleepUnlock? ==> r.seen == s.ticks && StillPausing(r.seen, r.start, r.n))
    case InPause(n, start, ph) =>
      && (ph.PauseTest? ==> start <= s.ticks)
      && (ph.PauseOk? ==> start + n <= s.ticks)
    case _ => true
  }

  /** The wakeup of clockintr is for the channel &ticks. */
  predicate ClockChan(irq: Irq) {
    irq.IWake? && irq.src.Clock? ==> irq.w.chan.OnTicks?
  }

  ghost predicate TicksOk(s: State)
    requires Shape(s)
  {
    && (forall q {:trigger RestOk(s, q)} :: 0 <= q < |s.procs| ==> RestOk(s, q))
    && (forall x {:trigger PauserOk(s, x)} :: 0 <= x < |s.procs| ==> PauserOk(s, x))
    && (forall k {:trigger s.cpus[k]} :: 0 <= k < |s.cpus| ==> ClockChan(s.cpus[k].irq))
  }

  // ---------- Steps that do not touch the clock ----------

  ghost predicate ClockFrame(s: State, s': State) {
    && Shape(s) && Shape(s') && |s'.procs| == |s.procs| && s'.ticks == s.ticks
    && (forall q {:trigger Resting(s', q)} :: 0 <= q < |s.procs| && Resting(s', q) ==>
          Resting(s, q) && s'.threads[q].base.r == s.threads[q].base.r)
    && (forall q {:trigger TickPending(s', q)} :: 0 <= q < |s.procs| && Resting(s', q) && TickPending(s, q) ==>
        TickPending(s', q))
  }

  lemma FrameRest(s: State, s': State, q: nat)
    requires ClockFrame(s, s') && q < |s.procs| && RestOk(s, q)
    ensures RestOk(s', q)
  {
    hide TickPending, StillPausing;
    assert TickPending(s', q) || !TickPending(s, q) || !Resting(s', q);
  }

  lemma StayingRest(s: State, s': State, q: nat)
    requires BasesStay(s, s') && q < |s.procs| && Resting(s', q)
    ensures Resting(s, q) && s'.threads[q].base.r == s.threads[q].base.r
  {
  }

  lemma StayingPauser(s: State, s': State, x: nat)
    requires BasesStay(s, s') && x < |s.procs| && PauserOk(s, x) && s.ticks <= s'.ticks
    requires BaseT(s.threads[x].base) ==> s.ticks == s'.ticks
    ensures PauserOk(s', x)
  {
    hide StillPausing;
  }

  /** The steps that are not clockintr's leave the due wakeups alone. */
  ghost predicate ClocksStay(s: State, s': State) {
    && Shape(s) && Shape(s') && |s'.procs| == |s.procs| && |s'.cpus| == |s.cpus| && s'.ticks == s.ticks
    && (forall k {:trigger s'.cpus[k]} :: 0 <= k < |s.cpus| ==>
          || s'.cpus[k].irq == s.cpus[k].irq
          || (ClockChan(s'.cpus[k].irq) && !(s.cpus[k].irq.IWake? && s.cpus[k].irq.src.Clock?)))
    && (s.tickLk == s'.tickLk || s.tickLk.None? ||
        (s.tickLk.value < |s.cpus| && !(s.cpus[s.tickLk.value].irq.IWake?)))
  }

  lemma ClockFrames(s: State, s': State)
    requires BasesStay(s, s') && ClocksStay(s, s')
    ensures ClockFrame(s, s')
  {
    hide BasesStay;
    forall q | 0 <= q < |s.procs| && Resting(s', q)
      ensures Resting(s, q) && s'.threads[q].base.r == s.threads[q].base.r
    {
      StayingRest(s, s', q);
    }
  }

  lemma FrameTicks(s: State, s': State)
    requires BasesStay(s, s') && ClocksStay(s, s') && TicksOk(s)
    ensures TicksOk(s')
  {
    hide BasesStay, RestOk, PauserOk, ClockFrame, ClockChan;
    ClockFrames(s, s');
    forall q | 0 <= q < |s'.procs| ensures RestOk(s', q) && PauserOk(s', q) {
      RestAndPauser(s, q);
      FrameRest(s, s', q);
      StayingPauser(s, s', q);
    }
    forall k | 0 <= k < |s'.cpus| ensures ClockChan(s'.cpus[k].irq) {
      assert ClockChan(s.cpus[k].irq);
    }
  }

  lemma RestAndPauser(s: State, q: nat)
    requires Shape(s) && TicksOk(s) && q < |s.procs|
    ensures RestOk(s, q) && PauserOk(s, q)
  {
    hide RestOk, PauserOk, ClockChan;
  }

  lemma TickClocks(s: State, me: nat, op: Op, pc': TickPc, s': State)
    requires Wrote(s, me, op, s') && Stepped(s, me, op, s.threads[me].(tick := pc'), s')
    requires !op.Tick? && s'.tickLk == s.tickLk
    ensures ClocksStay(s, s')
  {
    hide Changed;
  }

  lemma SimpleClocks(s: State, st: Step, s': State)
    requires Shape(s') && NextStep(s, st, s') && !st.BaseGo? && !st.TickGo? && !st.IrqGo?
    ensures ClocksStay(s, s')
  {
    hide BaseStep, TickStep, IrqStep, Quiet, ChargeChoice, Dispatched;
  }

  // ---------- clockintr ----------

  /** While a handler holds tickslock no process does. */
  lemma ClockHolder(s: State, k: nat, f: nat)
    requires Safe(s) && k < |s.cpus| && f < |s.procs| && IrqT(s.cpus[k].irq)
    ensures s.tickLk == Some(k) && !BaseT(s.threads[f].base)
  {
    hide LockOk, ForkOk, BaseT, IrqT;
    HeldByIrq(s, k);
    PauserLoaded(s, f);
    ClockQuiet(s, k);
    assert s.threads[f].on.Some? && BaseT(s.threads[f].base) ==> HoldsT(s, s.threads[f].on.value);
  }

  lemma ClockQuiet(s: State, k: nat)
    requires Safe(s) && k < |s.cpus| && IrqT(s.cpus[k].irq)
    ensures s.cpus[k].spc.SRun? ==> s.cpus[k].spc.p < |s.procs| && !BaseT(s.threads[s.cpus[k].spc.p].base)
  {
    hide LockOk, ForkOk, StateOk, GlobalLockOk;
    if s.cpus[k].spc.SRun? { QuietHoldsNothing(s.cpus[k].spc.p, s.threads[s.cpus[k].spc.p].base); }
  }

  lemma PauserLoaded(s: State, f: nat)
    requires Safe(s) && f < |s.procs|
    ensures BaseT(s.threads[f].base) ==> s.threads[f].on.Some? && s.threads[f].tick.TNone?
  {
    hide LockOk, ForkOk, GlobalLockOk;
    SlotStays(s, f);
    if Quiet(s.threads[f].base) { QuietHoldsNothing(f, s.threads[f].base); }
  }

  lemma CountTick(s: State, k: nat, op: Op, irq': Irq, s': State, q: nat)
    requires Safe(s) && TicksOk(s) && BasesStay(s, s') && q < |s.procs|
    requires Wrote(s, INIT, op, s') && IrqFrame(s, k, irq', s') && s'.tickLk == s.tickLk
    requires s.cpus[k].irq.ITick? && op.Tick? && irq' == IWake(Clock, Wake(OnTicks, 0, At))
    ensures RestOk(s', q) && PauserOk(s', q)
  {
    hide Safe, BasesStay, RunOk, QuietOk;
    RestAndPauser(s, q);
    ClockHolder(s, k, q);
    StayingPauser(s, s', q);
    if Resting(s', q) {
      StayingRest(s, s', q);
      assert TickPending(s', q);
    }
  }

  lemma ClockWakes(s: State, k: nat, op: Op, irq': Irq, s': State, q: nat)
    requires Safe(s) && TicksOk(s) && BasesStay(s, s') && q < |s.procs|
    requires Wrote(s, INIT, op, s') && IrqFrame(s, k, irq', s') && s'.tickLk == s.tickLk && !op.Tick?
    requires s.cpus[k].irq.IWake? && s.cpus[k].irq.src.Clock?
    requires IrqCode(s, s.cpus[k].cproc, s.cpus[k].irq, op, irq')
    ensures RestOk(s', q) && PauserOk(s', q)
  {
    hide Safe, BasesStay, StillPausing;
    RestAndPauser(s, q);
    StayingPauser(s, s', q);
    ClockHolder(s, k, q);
    var irq := s.cpus[k].irq;
    if Resting(s', q) {
      StayingRest(s, s', q);
      if s.threads[q].base.r.seen != s.ticks && !WakeDone(irq.w, |s.procs|) {
        if !Pending(irq'.w, q) { ClockAwakens(s, k, op, irq', s', q); }
      }
    }
  }

  /** When the loop of clockintr's wakeup passes slot q, process q does not sleep on &ticks. */
  lemma ClockAwakens(s: State, k: nat, op: Op, irq': Irq, s': State, q: nat)
    requires Safe(s) && TicksOk(s) && q < |s.procs|
    requires Wrote(s, INIT, op, s') && IrqFrame(s, k, irq', s') && s.cpus[k].irq.IWake? && s.cpus[k].irq.src.Clock?
    requires irq'.IWake? && WakeCode(s, s.cpus[k].cproc, s.cpus[k].irq.w, op, irq'.w)
    requires Pending(s.cpus[k].irq.w, q) && !Pending(irq'.w, q)
    ensures !Resting(s', q)
  {
    hide ForkOk, GlobalLockOk, LockOk, RestOk, PauserOk;
    HeldByIrq(s, k);
    SlotStays(s, q);
    assert ClockChan(s.cpus[k].irq);
    if s.threads[q].on.Some? && !s.procs[q].state.RUNNING? { NotRunningHolds(s, q, s.threads[q].on.value); }
    if s.threads[q].tick.TNone? && IsSleep(s.threads[q].base, SleepSet) { SetHolds(s, q); }
  }

  // ---------- Steps of a process ----------

  predicate PauseMove(s: State, pc: Pc, op: Op, pc': Pc)
  {
    && !op.Tick?
    && match pc'
       case InSleep(r, ph) =>
         r.ToPause? ==>
           if ph.SleepAt? then pc == InPause(r.n, r.start, PauseTest) && r.seen == s.ticks
               && StillPausing(s.ticks, r.start, r.n)
           else pc.InSleep? && pc.r == r && (ph.SleepUnlock? ==> pc.sleep.SleepAt?)
       case InPause(n, start, ph) =>
         match ph {
           case PauseTest => start == s.ticks || (pc.InSleep? && pc.r.ToPause? && pc.r.start == start && pc.r.n == n)
           case PauseOk => pc == InPause(n, start, PauseTest) && !StillPausing(s.ticks, start, n)
           case _ => true
         }
       case _ => true
  }

  lemma BasePauseMove(s: State, me: nat, pc: Pc, op: Op, pc': Pc)
    requires Shape(s) && me < |s.procs| && BaseCode(s, me, pc, op, pc')
    ensures PauseMove(s, pc, op, pc')
  {
    hide StillPausing;
  }

  lemma RestingAfter(s: State, k: nat, me: nat, op: Op, pc': Pc, s': State, q: nat)
    requires ProcStep(s, k, me, op, pc', s') && q < |s.procs| && Resting(s', q)
    ensures s'.threads[q].base.r ==
      (if q == me then pc'.r else s.threads[q].base.r)
    ensures Resting(s, q) || (q == me && IsSleep(s.threads[me].base, SleepUnlock) && s.threads[me].base.r.ToPause?)
    ensures s.threads[q].base.InSleep? && s'.threads[q].base.r == s.threads[q].base.r
  {
    hide ForkOwned, Permitted;
  }

  lemma PauserAfter(s: State, k: nat, me: nat, op: Op, pc': Pc, s': State, x: nat)
    requires ProcStep(s, k, me, op, pc', s') && x < |s.procs| && PauserOk(s, x)
    requires PauseMove(s, s.threads[me].base, op, pc')
    ensures PauserOk(s', x)
  {
    hide ForkOwned, Permitted, SleepMove, Changed;
    if x == me {
      assert s'.threads[me].base == pc';
      if pc'.InPause? && pc'.pause.PauseOk? { PausedLongEnough(s.ticks, pc'.start, pc'.n); }
    }
  }

  /** The 32-bit difference never exceeds the number of ticks that have really passed. */
  lemma PausedLongEnough(now: nat, start: nat, n: nat)
    requires start <= now && !StillPausing(now, start, n)
    ensures start + n <= now
  {
  }

  lemma RestAfter(s: State, k: nat, me: nat, op: Op, pc': Pc, s': State, q: nat)
    requires Safe(s) && TicksOk(s) && ProcStep(s, k, me, op, pc', s') && Running(s, k, me)
    requires q < |s.procs| && !op.Tick?
    requires s'.tickLk == (if op.AcqT? then Some(k) else if op.RelT? then None else s.tickLk)
    requires op.AcqT? ==> s.tickLk.None?
    requires op.RelT? ==> s.tickLk == Some(k)
    ensures RestOk(s', q)
  {
    hide Safe, ForkOwned, Permitted, StillPausing, SleepMove, TreeMove, TicksOk, Changed;
    RestAndPauser(s, q);
    if Resting(s', q) {
      RestingAfter(s, k, me, op, pc', s', q);
      assert TickPending(s, q) ==> TickPending(s', q);
    }
  }

  lemma TickLockAfter(s: State, k: nat, me: nat, op: Op, pc': Pc, s': State)
    requires Safe(s) && BaseEffect(s, k, me, op, pc', s') && BaseCode(s, me, s.threads[me].base, op, pc')
    ensures s'.tickLk == (if op.AcqT? then Some(k) else if op.RelT? then None else s.tickLk)
    ensures op.AcqT? ==> s.tickLk.None?
    ensures op.RelT? ==> s.tickLk == Some(k)
    ensures s'.cpus == s.cpus
  {
    hide BaseCode, Changed, RunOk, LockOk, QuietOk, StateOk, ForkOk, BaseLock, BaseW, BaseT;
    BaseRunning(s, k, me, op, pc', s');
    BaseMoves(s, me, s.threads[me].base, op, pc');
    HeldByBase(s, k, me);
  }

  lemma BaseTicks(s: State, k: nat, op: Op, pc': Pc, s': State)
    requires Safe(s) && TicksOk(s) && BaseStep(s, k, op, pc', s')
    ensures Shape(s') && TicksOk(s')
  {
    hide Safe, RestOk, PauserOk, ClockChan;
    hide BaseStep, BaseEffect, BaseCode, TreeStep, SleepMove, MovesWell, PauseMove;
    RunningCpu(s, k, op, pc', s');
    var me := s.cpus[k].spc.p;
    BaseFacts(s, k, op, pc', s');
    BaseSleepMove(s, me, s.threads[me].base, op, pc');
    BasePauseMove(s, me, s.threads[me].base, op, pc');
    TickLockAfter(s, k, me, op, pc', s');
    NoTick(s, me, op, pc');
    forall q | 0 <= q < |s'.procs| ensures RestOk(s', q) && PauserOk(s', q) {
      RestAndPauser(s, q);
      RestAfter(s, k, me, op, pc', s', q);
      PauserAfter(s, k, me, op, pc', s', q);
    }
  }

  lemma NoTick(s: State, me: nat, op: Op, pc': Pc)
    requires Shape(s) && me < |s.procs| && PauseMove(s, s.threads[me].base, op, pc')
    ensures !op.Tick?
  {
    hide StillPausing;
  }

  // ---------- All steps, all runs ----------

  lemma IrqClocks(s: State, k: nat, op: Op, irq': Irq, s': State)
    requires Wrote(s, INIT, op, s') && IrqFrame(s, k, irq', s')
    requires IrqCode(s, s.cpus[k].cproc, s.cpus[k].irq, op, irq')
    requires s'.tickLk == (if op.AcqT? then Some(k) else if op.RelT? then None else s.tickLk)
    requires op.AcqT? ==> s.tickLk.None?
    requires IrqT(s.cpus[k].irq) ==> s.tickLk == Some(k)
    requires !s.cpus[k].irq.ITick? && !(s.cpus[k].irq.IWake? && s.cpus[k].irq.src.Clock?)
    ensures ClocksStay(s, s')
  {
    hide Changed;
  }

  lemma IrqTickLock(s: State, k: nat, op: Op, irq': Irq, end: TickEnd, s': State)
    requires IrqEffect(s, k, op, irq', end, s')
    ensures s'.tickLk == (if op.AcqT? then Some(k) else if op.RelT? then None else s.tickLk)
    ensures op.AcqT? ==> s.tickLk.None?
  {
    hide Changed;
  }

  lemma ClockChanAfter(s: State, k: nat, op: Op, irq': Irq, s': State)
    requires Shape(s) && TicksOk(s) && IrqFrame(s, k, irq', s') && IrqCode(s, s.cpus[k].cproc, s.cpus[k].irq, op, irq')
    ensures forall j {:trigger s'.cpus[j]} :: 0 <= j < |s'.cpus| ==> ClockChan(s'.cpus[j].irq)
  {
    hide RestOk, PauserOk;
  }

  lemma IrqTicks(s: State, k: nat, op: Op, irq': Irq, end: TickEnd, s': State)
    requires Safe(s) && TicksOk(s) && IrqStep(s, k, op, irq', end, s')
    ensures Shape(s') && TicksOk(s')
  {
    hide Safe, RestOk, PauserOk, ClockChan, IrqEffect, IrqCode, BasesStay, ClocksStay, Wrote, Permitted;
    IrqRunning(s, k, op, irq', end, s');
    IrqPermitted(s, k, op, irq');
    IrqWrites(s, k, op, irq', end, s');
    IrqBasesStay(s, k, op, irq', end, s');
    IrqTickLock(s, k, op, irq', end, s');
    ClockChanAfter(s, k, op, irq', s');
    var irq := s.cpus[k].irq;
    if irq.ITick? || (irq.IWake? && irq.src.Clock?) {
      ClockOps(s, k, op, irq');
      forall q | 0 <= q < |s'.procs| ensures RestOk(s', q) && PauserOk(s', q) {
        if irq.ITick? { CountTick(s, k, op, irq', s', q); } else { ClockWakes(s, k, op, irq', s', q); }
      }
    } else {
      HandlerOwnsTicks(s, k);
      IrqClocks(s, k, op, irq', s');
      FrameTicks(s, s');
    }
  }

  lemma HandlerOwnsTicks(s: State, k: nat)
    requires Safe(s) && k < |s.cpus|
    ensures IrqT(s.cpus[k].irq) ==> s.tickLk == Some(k)
  {
    HeldByIrq(s, k);
  }

  lemma ClockOps(s: State, k: nat, op: Op, irq': Irq)
    requires Shape(s) && k < |s.cpus| && IrqCode(s, s.cpus[k].cproc, s.cpus[k].irq, op, irq')
    ensures s.cpus[k].irq.ITick? ==> op.Tick? && irq' == IWake(Clock, Wake(OnTicks, 0, At))
    ensures s.cpus[k].irq.IWake? ==> WakeOp(op)
  {
  }

  lemma TickFrameTicks(s: State, k: nat, op: Op, pc': TickPc, s': State)
    requires Safe(s) && TicksOk(s) && TickStep(s, k, op, pc', s')
    ensures Shape(s') && TicksOk(s')
  {
    hide Safe, TicksOk, BasesStay, ClocksStay, Wrote, Stepped;
    var me := s.cpus[k].spc.p;
    TickBasesStay(s, k, op, pc', s');
    TickWrites(s, k, me, op, pc', s');
    TickClocks(s, me, op, pc', s');
    StayShape(s, s');
    FrameTicks(s, s');
  }

  lemma StayShape(s: State, s': State)
    requires BasesStay(s, s')
    ensures Shape(s')
  {
    hide Quiet;
  }

  lemma NextTicks(s: State, st: Step, s': State)
    requires Safe(s) && TicksOk(s) && NextStep(s, st, s')
    ensures Shape(s') && TicksOk(s')
  {
    hide Safe, TicksOk, BasesStay, ClocksStay;
    hide BaseStep, TickStep, IrqStep, TimerStep, DeviceStep, SwtchStep, ClearStep, DispatchStep, SchedAcqStep,
        SchedRelStep;
    match st {
      case BaseGo(k, op, pc) => BaseTicks(s, k, op, pc, s');
      case TickGo(k, op, pc) => TickFrameTicks(s, k, op, pc, s');
      case IrqGo(k, op, irq, end) => IrqTicks(s, k, op, irq, end, s');
      case _ =>
        SimpleBasesStay(s, st, s');
        StayShape(s, s');
        SimpleClocks(s, st, s');
        FrameTicks(s, s');
    }
  }

  lemma NextKeepsTicks(s: State, s': State)
    requires Safe(s) && TicksOk(s) && Next(s, s')
    ensures Shape(s') && TicksOk(s')
  {
    hide Safe, NextStep, TicksOk;
    var st :| NextStep(s, st, s');
    NextTicks(s, st, s');
  }

  lemma InitTicks(s: State)
    requires Init(s)
    ensures TicksOk(s)
  {
  }

  lemma {:induction false} RunTicks(tr: seq<State>, i: nat)
    requires Run(tr) && i < |tr|
    ensures Safe(tr[i]) && TicksOk(tr[i])
  {
    hide Safe, Next, Init, TicksOk;
    RunSafe(tr, i);
    SafeShape(tr[i]);
    if i == 0 {
      InitTicks(tr[0]);
    } else {
      RunTicks(tr, i - 1);
      NextKeepsTicks(tr[i - 1], tr[i]);
    }
  }

  // ---------- One call of sys_pause ----------

  /** Inside the loop of sys_pause, or asleep in it. */
  predicate InCall(pc: Pc) { (pc.InPause? && !pc.pause.PauseAt?) || (pc.InSleep? && pc.r.ToPause?) }

  function CallLength(pc: Pc): nat
    requires InCall(pc)
  {
    if pc.InPause? then pc.n else pc.r.n
  }

  function CallStart(pc: Pc): nat
    requires InCall(pc)
  {
    if pc.InPause? then pc.start else pc.r.start
  }

  /** A step into the loop samples `ticks`; inside it n and the sample stay. */
  predicate CallMove(now: nat, pc: Pc, pc': Pc) {
    InCall(pc') ==>
      && (InCall(pc) ==> CallLength(pc') == CallLength(pc) && CallStart(pc') == CallStart(pc))
      && (pc.InPause? && pc.pause.PauseAt? ==> CallLength(pc') == pc.n && CallStart(pc') == now)
  }

  lemma BaseCallMove(s: State, me: nat, pc: Pc, op: Op, pc': Pc)
    requires Shape(s) && me < |s.procs| && BaseCode(s, me, pc, op, pc')
    ensures CallMove(s.ticks, pc, pc')
  {
    hide StillPausing, WakeCode, ForkCode, KillCode, ExitCode;
    if pc.InExit? { ExitCallMove(s, me, pc, op, pc'); }
    if pc.InFork? || pc.InKill? { NoCallMove(s, me, pc, op, pc'); }
  }

  lemma ExitCallMove(s: State, me: nat, pc: Pc, op: Op, pc': Pc)
    requires Shape(s) && me < |s.procs| && pc.InExit? && ExitCode(s, me, pc, op, pc')
    ensures !InCall(pc')
  {
    hide WakeCode;
  }

  lemma NoCallMove(s: State, me: nat, pc: Pc, op: Op, pc': Pc)
    requires Shape(s) && me < |s.procs| && (pc.InFork? || pc.InKill?) && BaseCode(s, me, pc, op, pc')
    ensures !InCall(pc')
  {
    hide StillPausing, WakeCode, ExitCode, WaitCode, SleepCode, PauseCode, EntryCode;
  }

  lemma StepCallMove(s: State, st: Step, s': State, p: nat)
    requires Safe(s) && NextStep(s, st, s') && p < |s.procs|
    ensures Shape(s') && p < |s'.procs| && CallMove(s.ticks, s.threads[p].base, s'.threads[p].base)
  {
    hide Safe, NextStep, BasesStay, BaseStep, BaseEffect, BaseCode, TreeStep, MovesWell, CallMove;
    if st.BaseGo? {
      BaseOfNext(s, st, s');
      RunningCpu(s, st.k, st.op, st.pc, s');
      BaseFacts(s, st.k, st.op, st.pc, s');
      BaseCallMove(s, s.cpus[st.k].spc.p, s.threads[s.cpus[st.k].spc.p].base, st.op, st.pc);
      CallElsewhere(s.ticks, s.threads[p].base);
    } else {
      OtherStepsStay(s, st, s');
      StayCallMove(s, s', p);
    }
  }

  lemma CallElsewhere(now: nat, pc: Pc)
    ensures CallMove(now, pc, pc) && CallMove(now, pc, ForkRet)
  {
  }

  lemma StayCallMove(s: State, s': State, p: nat)
    requires BasesStay(s, s') && p < |s.procs|
    ensures Shape(s') && |s'.procs| == |s.procs| && CallMove(s.ticks, s.threads[p].base, s'.threads[p].base)
  {
  }

  lemma NextCallMove(s: State, s': State, p: nat)
    requires Safe(s) && Next(s, s') && p < |s.procs|
    ensures Shape(s') && p < |s'.procs| && CallMove(s.ticks, s.threads[p].base, s'.threads[p].base)
  {
    hide Safe, NextStep, CallMove;
    var st :| NextStep(s, st, s');
    StepCallMove(s, st, s', p);
  }

  /** From state m, at the entry of sys_pause(n), to state i process p stays in that call. */
  ghost predicate OneCall(tr: seq<State>, p: nat, m: nat, i: nat) {
    && m < i < |tr| && |tr[m].threads| == |tr[m].procs|
    && p < |tr[m].threads| && tr[m].threads[p].base.InPause? && tr[m].threads[p].base.pause.PauseAt?
    && forall x {:trigger tr[x]} :: m < x <= i ==> p < |tr[x].threads| && InCall(tr[x].threads[p].base)
  }

  lemma {:induction false} CallSampled(tr: seq<State>, p: nat, m: nat, i: nat)
    requires Run(tr) && OneCall(tr, p, m, i)
    ensures CallLength(tr[i].threads[p].base) == tr[m].threads[p].base.n
    ensures CallStart(tr[i].threads[p].base) == tr[m].ticks
    decreases i
  {
    hide Run, Safe, Next;
    RunSafe(tr, i - 1);
    SafeShape(tr[i - 1]);
    StepOfRun(tr, i - 1);
    NextCallMove(tr[i - 1], tr[i], p);
    if m + 1 < i { CallSampled(tr, p, m, i - 1); }
  }

  lemma StepOfRun(tr: seq<State>, i: nat)
    requires Run(tr) && i + 1 < |tr|
    ensures Next(tr[i], tr[i + 1])
  {
    hide Next, Init;
    var j := i + 1;
    assert Next(tr[i], tr[j]);
  }

  // ---------- Theorems about sys_pause ----------

  /** The test that ends a pause was made on a tick count n or more above the sample. */
  lemma PauseWaits(tr: seq<State>, i: nat, p: nat, n: nat, start: nat)
    requires Run(tr) && i < |tr| && Shape(tr[i]) && p < |tr[i].procs|
    requires tr[i].threads[p].base == InPause(n, start, PauseOk)
    ensures start + n <= tr[i].ticks
  {
    hide Safe, RestOk;
    RunTicks(tr, i);
    assert PauserOk(tr[i], p);
  }

  /** When sys_pause(n) is about to return 0, at least n ticks have been counted since it was
      entered, even though it compares 32-bit differences. */
  lemma PauseLasts(tr: seq<State>, p: nat, m: nat, i: nat)
    requires Run(tr) && OneCall(tr, p, m, i)
    requires tr[i].threads[p].base.InPause? && tr[i].threads[p].base.pause.PauseOk?
    ensures tr[m].ticks + tr[m].threads[p].base.n <= tr[i].ticks
  {
    hide Run, Safe;
    CallSampled(tr, p, m, i);
    RunSafe(tr, i);
    SafeShape(tr[i]);
    PauseWaits(tr, i, p, tr[i].threads[p].base.n, tr[i].threads[p].base.start);
  }

  /** No tick is missed: whenever tickslock is free, a process asleep on &ticks is in
      sys_pause and its condition still holds at the current tick. */
  lemma NoLostTick(tr: seq<State>, i: nat, p: nat)
    requires Run(tr) && i < |tr| && Shape(tr[i]) && p < |tr[i].procs|
    requires tr[i].tickLk.None? && tr[i].procs[p].state.SLEEPING? && tr[i].procs[p].chan.OnTicks?
    ensures var pc := tr[i].threads[p].base;
      && pc.InSleep? && pc.r.ToPause? && pc.r.seen == tr[i].ticks
      && StillPausing(tr[i].ticks, pc.r.start, pc.r.n)
      && pc.r.start <= tr[i].ticks
      && (tr[i].ticks - pc.r.start < pc.r.n || 0x1_0000_0000 <= tr[i].ticks - pc.r.start)
  {
    hide LockOk, ForkOk, GlobalLockOk, QuietOk, StillPausing;
    RunTicks(tr, i);
    SlotStays(tr[i], p);
    assert RestOk(tr[i], p) && PauserOk(tr[i], p);
    PauseUnfinished(tr[i].ticks, tr[i].threads[p].base.r.start, tr[i].threads[p].base.r.n);
  }

  /** The test holds only if fewer than n ticks have passed, or 2^32 and more. */
  lemma PauseUnfinished(now: nat, start: nat, n: nat)
    requires start <= now && StillPausing(now, start, n)
    ensures 0 < n && (now - start < n || 0x1_0000_0000 <= now - start)
  {
  }

  /** sys_pause(0) never sleeps. */
  lemma NoPauseForZero(tr: seq<State>, i: nat, p: nat)
    requires Run(tr) && i < |tr| && Shape(tr[i]) && p < |tr[i].procs|
    requires tr[i].procs[p].state.SLEEPING? && tr[i].procs[p].chan.OnTicks?
    ensures tr[i].threads[p].base.InSleep? && tr[i].threads[p].base.r.ToPause? && 0 < tr[i].threads[p].base.r.n
  {
    hide LockOk, ForkOk, GlobalLockOk, QuietOk;
    RunTicks(tr, i);
    SlotStays(tr[i], p);
    assert RestOk(tr[i], p);
  }
}
