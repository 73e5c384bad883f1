/**
 Every timer interrupt that makes a process yield is charged to it: the run times add up.
 */
module KernelCharges {
  import opened Kernel
  import opened KernelLocks
  import opened KernelSafe
  import opened KernelTree
  import opened KernelCounts

  /** The run time of a process and the charge that it still owes. */
  function Charge(pr: Proc, th: Thread): nat {
    if pr.ready.Yes? then pr.rtime + (if ToCharge(th.tick) then 1 else 0) else 0
  }

  ghost function Charges(s: State): seq<nat>
    requires Shape(s)
  {
    seq(|s.procs|, p requires 0 <= p < |s.procs| => Charge(s.procs[p], s.threads[p]))
  }

  ghost predicate ChargesOk(s: State)
    requires Shape(s)
  {
    s.hist.hits == s.hist.goneRun + Total(Charges(s))
  }

  /** Slot x alone has d more to account for, and so has the history. */
  ghost predicate ChargeMove(s: State, s': State, x: nat, d: int) {
    && Shape(s) && Shape(s') && |s'.procs| == |s.procs| && x < |s.procs|
    && (forall p {:trigger s'.procs[p]} :: 0 <= p < |s.procs| ==>
          Charge(s'.procs[p], s'.threads[p]) == Charge(s.procs[p], s.threads[p]) + if p == x then d else 0)
    && s'.hist.hits - s'.hist.goneRun == s.hist.hits - s.hist.goneRun + d
  }

  lemma MovedCharges(s: State, s': State, x: nat, d: int)
    requires ChargeMove(s, s', x, d) && ChargesOk(s)
    ensures ChargesOk(s')
  {
    hide Charge;
    var a, b := Charges(s), Charges(s');
    forall p | 0 <= p < |a| ensures b[p] == a[p] + if p == x then d else 0 {
      assert s'.procs[p] == s'.procs[p];
    }
    TotalChanges(a, b, x, d);
  }

  // ---------- Steps of a process ----------

  /** A slot that is allocated or freed has no tick frame. */
  lemma SavedTick(s: State, p: nat)
    requires Safe(s) && p < |s.procs| && s.threads[p].on.None?
    requires s.procs[p].state.USED? || s.procs[p].state.ZOMBIE? || s.procs[p].state.UNUSED?
    ensures s.threads[p].tick.TNone?
  {
    hide LockOk, GlobalLockOk, ForkOk, QuietOk, RunOk;
    SlotStays(s, p);
  }

  lemma TouchedTick(s: State, k: nat, me: nat, op: Op, p: nat)
    requires Safe(s) && Running(s, k, me) && s.threads[me].tick.TNone? && p < |s.procs|
    requires Permitted(s, k, Some(me), op) && Target(op) == Some(p) && (op.Free? || op.Spawn? || op.InitCounters?)
    ensures s.threads[p].tick.TNone?
  {
    hide Safe;
    if p != me {
      LoadedOn(s, k, p);
      SavedIfLocked(s, k, p);
      SavedTick(s, p);
    }
  }

  lemma SavedIfLocked(s: State, k: nat, p: nat)
    requires Safe(s) && p < |s.procs| && s.plock[p] == Some(k) && s.threads[p].on != Some(k)
    requires !s.procs[p].state.RUNNING?
    ensures s.threads[p].on.None?
  {
    hide LockOk, GlobalLockOk, ForkOk, QuietOk, StateOk, RunOk;
    LockedIsSaved(s, p, k);
  }

  lemma BaseCharge(s: State, k: nat, me: nat, op: Op, s': State, th': Thread, p: nat)
    requires Safe(s) && CountsOk(s) && Running(s, k, me) && p < |s.procs| && s.threads[me].tick.TNone?
    requires TreeStep(s, k, me, op, s') && Stepped(s, me, op, th', s') && th'.tick.TNone?
    requires !op.Charge?
    ensures Charge(s'.procs[p], s'.threads[p]) == if op == Free(p) then 0 else Charge(s.procs[p], s.threads[p])
    ensures op == Free(p) && s.procs[p].ready.Yes? ==> Charge(s.procs[p], s.threads[p]) == s.procs[p].rtime
  {
    hide Safe, TreeMove, CountsOk, Permitted;
    CountOf(s, p);
    UsedReady(s, me);
    if Target(op) == Some(p) {
      if op.Free? || op.Spawn? || op.InitCounters? { TouchedTick(s, k, me, op, p); }
      NewlyAllocated(s, k, me, op);
    }
  }

  lemma NewlyAllocated(s: State, k: nat, me: nat, op: Op)
    requires Shape(s) && Permitted(s, k, Some(me), op)
    ensures op.NewPid? ==> op.q < |s.procs| && s.procs[op.q].state.UNUSED?
  {
  }

  lemma LoadedOn(s: State, k: nat, me: nat)
    requires Safe(s) && k < |s.cpus| && s.cpus[k].spc.SRun? && me < |s.procs|
    ensures s.cpus[k].spc == SRun(me) <==> s.threads[me].on == Some(k)
  {
    hide LockOk, GlobalLockOk, ForkOk, QuietOk, StateOk;
  }

  lemma BaseCharges(s: State, k: nat, op: Op, pc': Pc, s': State)
    requires Safe(s) && CountsOk(s) && ChargesOk(s) && BaseStep(s, k, op, pc', s')
    ensures Shape(s') && ChargesOk(s')
  {
    hide Safe, CountsOk, BaseStep, BaseEffect, BaseCode, TreeStep, MovesWell, HistStep, Charge, Stepped;
    RunningCpu(s, k, op, pc', s');
    var me := s.cpus[k].spc.p;
    BaseFacts(s, k, op, pc', s');
    BaseHist(s, k, me, op, pc', s');
    BaseNoCharge(s, me, s.threads[me].base, op, pc');
    NextPlaceKept(s, me, op, s.threads[me].(base := pc'), s');
    forall p | 0 <= p < |s.procs|
      ensures Charge(s'.procs[p], s'.threads[p]) == if op == Free(p) then 0 else Charge(s.procs[p], s.threads[p])
    {
      BaseCharge(s, k, me, op, s', s.threads[me].(base := pc'), p);
    }
    var x := if op.Free? then op.q else me;
    if op.Free? { FreedCharge(s, k, me, op, s', s.threads[me].(base := pc')); }
    MovedCharges(s, s', x, if op.Free? then -(Charge(s.procs[x], s.threads[x]) as int) else 0) by {
      if !op.Free? { HistStays(s, op, s'); }
    }
  }

  lemma HistStays(s: State, op: Op, s': State)
    requires Shape(s) && HistStep(s, op, s') && !op.Free?
    ensures s'.hist == s.hist
  {
  }

  lemma NextPlaceKept(s: State, me: nat, op: Op, th': Thread, s': State)
    requires Stepped(s, me, op, th', s')
    ensures Shape(s') && |s'.procs| == |s.procs|
  {
  }

  lemma FreedCharge(s: State, k: nat, me: nat, op: Op, s': State, th': Thread)
    requires Safe(s) && CountsOk(s) && Running(s, k, me) && HistStep(s, op, s')
    requires TreeStep(s, k, me, op, s') && Stepped(s, me, op, th', s') && th'.tick.TNone?
    requires op.Free? && s.threads[me].tick.TNone?
    ensures op.q < |s.procs|
    ensures s'.hist.hits == s.hist.hits && s'.hist.goneRun == s.hist.goneRun + Charge(s.procs[op.q], s.threads[op.q])
  {
    hide Safe, CountsOk, TreeStep, Stepped;
    BaseCharge(s, k, me, op, s', th', op.q);
  }

  /** update_process_times moves one from what the process owes to its rtime. */
  lemma TickCharge(s: State, me: nat, op: Op, pc': TickPc, s': State)
    requires Wrote(s, me, op, s') && Stepped(s, me, op, s.threads[me].(tick := pc'), s') && s'.hist == s.hist
    requires TickCode(s, me, s.threads[me].tick, op, pc')
    requires s.procs[me].ready.Yes? && (s.threads[me].tick.TUpdHeld? ==> s.procs[me].state.RUNNING?)
    ensures ChargeMove(s, s', me, 0)
  {
  }

  lemma TickCharges(s: State, k: nat, op: Op, pc': TickPc, s': State)
    requires Safe(s) && CountsOk(s) && ChargesOk(s) && TickStep(s, k, op, pc', s')
    ensures Shape(s') && ChargesOk(s')
  {
    hide Safe, ChargesOk, CountsOk, TickCode, TickEffect, Wrote, Stepped, ChargeMove, HistStep;
    var me := s.cpus[k].spc.p;
    TickRunning(s, k, me, op, pc', s');
    KernelCounts.TickCharges(s, me, op, pc');
    TickWrites(s, k, me, op, pc', s');
    TickHist(s, k, me, op, pc', s');
    HistStays(s, op, s');
    TickState(s, k, me);
    TickCharge(s, me, op, pc', s');
    MovedCharges(s, s', me, 0);
    WroteShape(s, me, op, s');
  }

  lemma WroteShape(s: State, me: nat, op: Op, s': State)
    requires Wrote(s, me, op, s')
    ensures Shape(s')
  {
    hide Changed;
  }

  lemma TickState(s: State, k: nat, me: nat)
    requires Safe(s) && CountsOk(s) && Running(s, k, me) && !s.threads[me].tick.TNone?
    ensures s.procs[me].ready.Yes? && (s.threads[me].tick.TUpdHeld? ==> s.procs[me].state.RUNNING?)
  {
    hide LockOk, GlobalLockOk, ForkOk, QuietOk, CountsOk;
    CountOf(s, me);
    SlotStays(s, me);
  }

  lemma CountOf(s: State, p: nat)
    requires Shape(s) && CountsOk(s) && p < |s.procs|
    ensures CountOk(s.procs[p], s.threads[p])
  {
    hide CountOk;
  }

  // ---------- Timer interrupts ----------

  /** The process on CPU k, if the timer interrupt makes it yield. */
  ghost predicate Hits(s: State, k: nat, end: TickEnd)
    requires k < |s.cpus|
  {
    s.cpus[k].spc.SRun? && end.Yielding?
  }

  /** The interrupted process exists, is alive and is not yet charged. */
  lemma HitReady(s: State, k: nat)
    requires Safe(s) && CountsOk(s) && k < |s.cpus| && s.cpus[k].spc.SRun?
    requires s.cpus[k].irq.INone? ==> Interruptible(s, k)
    ensures var p := s.cpus[k].spc.p; p < |s.procs| && s.procs[p].ready.Yes? && s.threads[p].tick.TNone?
  {
    hide LockOk, GlobalLockOk, ForkOk;
    var p := s.cpus[k].spc.p;
    CountOf(s, p);
    SlotStays(s, p);
    QuietRuns(s.threads[p]);
  }

  lemma TimerCharges(s: State, k: nat, end: TickEnd, s': State)
    requires Safe(s) && CountsOk(s) && ChargesOk(s) && TimerStep(s, k, end, s')
    ensures Shape(s') && ChargesOk(s')
  {
    hide Safe, CountsOk, Quiet, ChargeChoice, ChargesOk;
    if s.cpus[k].spc.SRun? { HitReady(s, k); }
    var x := if s.cpus[k].spc.SRun? then s.cpus[k].spc.p else INIT;
    var d := if k != 0 && Hits(s, k, end) then 1 else 0;
    assert ChargeMove(s, s', x, d);
    MovedCharges(s, s', x, d);
  }

  lemma IrqCharges(s: State, k: nat, op: Op, irq': Irq, end: TickEnd, s': State)
    requires Safe(s) && CountsOk(s) && ChargesOk(s) && IrqStep(s, k, op, irq', end, s')
    ensures Shape(s') && ChargesOk(s')
  {
    hide Safe, CountsOk, IrqCode, ChargeChoice, ChargesOk, IrqEffect, Permitted, Wrote, IrqFrame;
    IrqRunning(s, k, op, irq', end, s');
    IrqPermitted(s, k, op, irq');
    IrqWrites(s, k, op, irq', end, s');
    SafeShape(s);
    if s.cpus[k].spc.SRun? { HitReady(s, k); }
    VictimIs(s, k);
    IrqHits(s, k, op, irq', end, s');
    forall p | 0 <= p < |s.procs|
      ensures s'.procs[p].ready == s.procs[p].ready && s'.procs[p].rtime == s.procs[p].rtime
    {
      HandlerWrites(s, op, s', p);
    }
    var d := if s.cpus[k].irq.IUnlock? && Hits(s, k, end) then 1 else 0;
    assert ChargeMove(s, s', Victim(s, k), d);
    MovedCharges(s, s', Victim(s, k), d);
  }

  lemma VictimIs(s: State, k: nat)
    requires Safe(s) && k < |s.cpus|
    ensures Victim(s, k) < |s.procs|
  {
    hide QuietOk, LockOk, GlobalLockOk, ForkOk, StateOk;
  }

  lemma IrqHits(s: State, k: nat, op: Op, irq': Irq, end: TickEnd, s': State)
    requires IrqEffect(s, k, op, irq', end, s') && !op.Spawn? && !op.Free?
    ensures var d := if s.cpus[k].irq.IUnlock? && Hits(s, k, end) then 1 else 0;
      && Shape(s') && |s'.procs| == |s.procs|
      && s'.hist.hits == s.hist.hits + d && s'.hist.goneRun == s.hist.goneRun
      && forall p {:trigger s'.threads[p]} :: 0 <= p < |s.procs| ==>
           s'.threads[p].tick == if d == 1 && p == s.cpus[k].spc.p then TUpdAcq else s.threads[p].tick
  {
    hide Changed;
  }

  lemma OtherCharges(s: State, st: Step, s': State)
    requires Safe(s) && ChargesOk(s) && NextStep(s, st, s')
    requires !st.BaseGo? && !st.TickGo? && !st.IrqGo? && !st.TimerStart?
    ensures Shape(s') && ChargesOk(s')
  {
    hide Safe, BaseStep, TickStep, IrqStep, TimerStep, Quiet, ChargesOk;
    assert ChargeMove(s, s', INIT, 0);
    MovedCharges(s, s', INIT, 0);
  }

  // ---------- All steps, all runs ----------

  lemma NextCharges(s: State, st: Step, s': State)
    requires Safe(s) && CountsOk(s) && ChargesOk(s) && NextStep(s, st, s')
    ensures Shape(s') && ChargesOk(s')
  {
    hide Safe, CountsOk, ChargesOk, BaseStep, TickStep, IrqStep, TimerStep, DeviceStep, SwtchStep, ClearStep,
        DispatchStep, SchedAcqStep, SchedRelStep;
    match st {
      case BaseGo(k, op, pc) => BaseCharges(s, k, op, pc, s');
      case TickGo(k, op, pc) => TickCharges(s, k, op, pc, s');
      case IrqGo(k, op, irq, end) => IrqCharges(s, k, op, irq, end, s');
      case TimerStart(k, end) => TimerCharges(s, k, end, s');
      case _ => OtherCharges(s, st, s');
    }
  }

  lemma InitCharges(s: State)
    requires Init(s)
    ensures ChargesOk(s)
  {
    AllZero(Charges(s));
  }

  lemma {:induction false} RunCharges(tr: seq<State>, i: nat)
    requires Run(tr) && i < |tr|
    ensures Safe(tr[i]) && CountsOk(tr[i]) && ChargesOk(tr[i])
  {
    hide Safe, NextStep, Init, AccountsOk, CountsOk, ChargesOk;
    RunAccounts(tr, i);
    CountsOf(tr[i]);
    if i == 0 {
      InitCharges(tr[0]);
    } else {
      RunCharges(tr, i - 1);
      assert Next(tr[i - 1], tr[i]);
      var st :| NextStep(tr[i - 1], st, tr[i]);
      NextCharges(tr[i - 1], st, tr[i]);
    }
  }

  lemma CountsOf(s: State)
    requires Safe(s) && AccountsOk(s)
    ensures CountsOk(s)
  {
  }

  /** One for every process that has been interrupted and not charged yet. */
  ghost function Owing(s: State): seq<nat> {
    seq(|s.threads|, p requires 0 <= p < |s.threads| => if ToCharge(s.threads[p].tick) then 1 else 0)
  }

  /** The timer interrupts that have made a process yield are exactly the run time of all
      processes, reaped ones included, and one for every process about to be charged. */
  lemma RunTimeExact(tr: seq<State>, i: nat)
    requires Run(tr) && i < |tr| && Shape(tr[i])
    ensures tr[i].hist.hits == Total(RunTimes(tr[i])) + tr[i].hist.goneRun + Total(Owing(tr[i]))
  {
    hide QuietOk, LockOk, GlobalLockOk, ForkOk, RunOk;
    RunCharges(tr, i);
    var s := tr[i];
    forall p | 0 <= p < |s.procs|
      ensures Charges(s)[p] == RunTimes(s)[p] + Owing(s)[p]
    {
      CountOf(s, p);
      SlotStays(s, p);
    }
    TotalSplits(Charges(s), RunTimes(s), Owing(s));
  }

  // ---------- The clock ----------

  /** clockintr has not counted the tick of this interrupt yet. */
  predicate BeforeTick(irq: Irq) { irq.IClock? || irq.ITick? }

  /** A frame of clockintr's part for CPU 0. */
  predicate OfClock(irq: Irq) { BeforeTick(irq) || irq.IUnlock? || (irq.IWake? && irq.src.Clock?) }

  ghost predicate ClockOk(s: State)
    requires Shape(s)
  {
    && (forall k {:trigger s.cpus[k]} :: 0 < k < |s.cpus| ==> !OfClock(s.cpus[k].irq))
    && s.hist.clocks == s.ticks + if BeforeTick(s.cpus[0].irq) then 1 else 0
  }

  lemma IrqClock(s: State, k: nat, op: Op, irq': Irq, end: TickEnd, s': State)
    requires Shape(s) && ClockOk(s) && IrqStep(s, k, op, irq', end, s')
    ensures Shape(s') && ClockOk(s')
  {
    hide WakeCode, Changed, ChargeChoice;
    IrqCounter(s, s.cpus[k].cproc, s.cpus[k].irq, op, irq');
  }

  lemma IrqCounter(s: State, mine: Option<nat>, pc: Irq, op: Op, pc': Irq)
    requires IrqCode(s, mine, pc, op, pc')
    ensures OfClock(pc') ==> OfClock(pc)
    ensures (if BeforeTick(pc) then 1 else 0) == (if BeforeTick(pc') then 1 else 0) + (if op.Tick? then 1 else 0)
    ensures !op.Free?
  {
  }

  lemma ThreadClock(s: State, st: Step, s': State)
    requires ClockShape(s) && NextStep(s, st, s') && (st.BaseGo? || st.TickGo?)
    ensures ClockShape(s')
  {
    hide Changed, BaseCode, TickCode;
    if st.BaseGo? { BaseNoCharge(s, s.cpus[st.k].spc.p, s.threads[s.cpus[st.k].spc.p].base, st.op, st.pc); }
    else { KernelCounts.TickCharges(s, s.cpus[st.k].spc.p, st.op, st.tpc); }
  }

  ghost predicate ClockShape(s: State) { Shape(s) && ClockOk(s) }

  lemma NextClock(s: State, st: Step, s': State)
    requires ClockShape(s) && NextStep(s, st, s')
    ensures ClockShape(s')
  {
    hide BaseStep, TickStep, IrqStep, Quiet, ChargeChoice;
    if st.BaseGo? || st.TickGo? {
      ThreadClock(s, st, s');
    } else if st.IrqGo? {
      IrqClock(s, st.k, st.op, st.irq, st.end, s');
    }
  }

  /** ticks counts the timer interrupts of CPU 0, no others and none twice. */
  lemma {:induction false} TicksAreClocks(tr: seq<State>, i: nat)
    requires Run(tr) && i < |tr|
    ensures ClockShape(tr[i])
  {
    hide NextStep, ClockOk;
    if i == 0 {
      InitClock(tr[0]);
    } else {
      TicksAreClocks(tr, i - 1);
      assert Next(tr[i - 1], tr[i]);
      var st :| NextStep(tr[i - 1], st, tr[i]);
      NextClock(tr[i - 1], st, tr[i]);
    }
  }

  lemma InitClock(s: State)
    requires Init(s)
    ensures ClockShape(s)
  {
  }

  /** At the end of its handler a timer interrupt makes the process that it has hit answer for
      the tick and yield, unless the process is killed and in user mode. */
  lemma TimerPreempts(s: State, st: Step, s': State, p: nat)
    requires Safe(s) && NextStep(s, st, s') && st.k < |s.cpus| && s.cpus[st.k].spc == SRun(p) && p < |s.procs|
    requires (st.TimerStart? && st.k != 0) || (st.IrqGo? && s.cpus[st.k].irq.IUnlock?)
    requires !(s.procs[p].killed.Yes? && s.threads[p].base.User?)
    ensures p < |s'.threads| && s'.threads[p] == s.threads[p].(tick := TUpdAcq)
  {
    hide RunOk, QuietOk, LockOk, GlobalLockOk, StateOk, ForkOk, Changed, Quiet;
  }
}
