/**
 The times in a slot: ctime and etime are the moments of creation and of exit, and age_start is
 the moment at which the process became RUNNABLE.
 */
module KernelTimes {
  import opened Kernel
  import opened KernelLocks
  import opened KernelSafe
  import opened KernelTree
  import opened KernelWait
  import opened KernelCounts
  import opened KernelCalls
  import opened KernelCharges
  import opened KernelReports

  // ---------- Creation and exit ----------

  /** The fields that tell an incarnation and its times. */
  predicate SameLife(pr: Proc, pr': Proc) {
    pr'.pid == pr.pid && pr'.ready == pr.ready && pr'.ctime == pr.ctime && pr'.etime == pr.etime
  }

  lemma OtherLife(s: State, st: Step, s': State, q: nat)
    requires Safe(s) && NextStep(s, st, s') && !st.BaseGo? && q < |s.procs|
    ensures q < |s'.procs| && SameLife(s.procs[q], s'.procs[q])
  {
    hide Safe, BaseStep, TickStep, IrqStep, TimerStep, DeviceStep, SwtchStep, ClearStep, SchedAcqStep, SchedRelStep;
    SafeShape(s);
    match st {
      case TickGo(k, op, pc) => TickLife(s, k, op, pc, s', q);
      case IrqGo(k, op, irq, end) => IrqLife(s, k, op, irq, end, s', q);
      case Dispatch(k, x) =>
      case _ => SchedLocked(s, st, s', q);
    }
  }

  lemma TickLife(s: State, k: nat, op: Op, pc': TickPc, s': State, q: nat)
    requires Safe(s) && TickStep(s, k, op, pc', s') && q < |s.procs|
    ensures q < |s'.procs| && SameLife(s.procs[q], s'.procs[q])
  {
    hide Safe, TickStep;
    TickWrote(s, k, op, pc', s');
  }

  lemma IrqLife(s: State, k: nat, op: Op, irq': Irq, end: TickEnd, s': State, q: nat)
    requires Safe(s) && IrqStep(s, k, op, irq', end, s') && q < |s.procs|
    ensures q < |s'.procs| && SameLife(s.procs[q], s'.procs[q])
  {
    hide Safe, Permitted, IrqEffect, IrqCode, IrqFrame, ChargeChoice;
    IrqRunning(s, k, op, irq', end, s');
    IrqPermitted(s, k, op, irq');
    IrqWrites(s, k, op, irq', end, s');
  }

  /** The step initialises slot q, which has its pid already. */
  predicate Creates(pr: Proc, pr': Proc, now: nat) {
    pr.state.USED? && pr.ready.No? && pr'.ready.Yes? && pr'.pid == pr.pid && pr'.ctime == now
  }

  lemma BirthStep(s: State, st: Step, s': State, q: nat)
    requires Safe(s) && CountsOk(s) && NextStep(s, st, s') && q < |s.procs| && q < |s'.procs|
    requires s'.procs[q].ready.Yes?
    ensures || (s.procs[q].ready.Yes? && s'.procs[q].pid == s.procs[q].pid && s'.procs[q].ctime == s.procs[q].ctime)
            || Creates(s.procs[q], s'.procs[q], s.ticks)
  {
    hide Safe, NextStep, BaseCode, ForkOwned, TreeMove, CountsOk;
    if st.BaseGo? {
      OwnFacts(s, st, s');
      CreatedUnready(s, st, s');
    } else {
      OtherLife(s, st, s', q);
    }
  }

  lemma CreatedUnready(s: State, st: Step, s': State)
    requires Safe(s) && NextStep(s, st, s') && st.BaseGo?
    ensures st.op.InitCounters? ==> st.op.q < |s.procs| && s.procs[st.op.q].ready.No?
  {
    hide Safe, NextStep, BaseCode, TreeMove;
    OwnFacts(s, st, s');
    UsedReady(s, s.cpus[st.k].spc.p);
  }

  /** Process q has entered kexit and stamped etime, or is a zombie. */
  predicate Exited(pr: Proc, th: Thread) { pr.state.ZOMBIE? || (th.base.InExit? && !th.base.exit.ExitAt?) }

  /** Process q is at the start of kexit. */
  predicate Exiting(th: Thread) { IsExit(th.base, ExitAt) }

  /** A slot that another process allocates or frees has no thread in kexit. */
  lemma AllocatedNotExited(s: State, k: nat, me: nat, op: Op, q: nat)
    requires Safe(s) && Running(s, k, me) && Permitted(s, k, Some(me), op) && q < |s.procs| && me != q
    requires Target(op) == Some(q) && (op.NewPid? || op.InitCounters? || op.Spawn? || op.Free?)
    ensures !s.threads[q].base.InExit?
  {
    hide RunOk, QuietOk, LockOk, GlobalLockOk, ForkOk, StateOk;
    LoadedOn(s, k, q);
    SavedIfLocked(s, k, q);
    SlotStays(s, q);
  }

  lemma ExitStep(s: State, st: Step, s': State, q: nat)
    requires Safe(s) && NextStep(s, st, s') && q < |s.procs| && q < |s'.procs| && q < |s'.threads|
    requires q < |s.threads| && Exited(s'.procs[q], s'.threads[q])
    ensures s'.procs[q].pid == s.procs[q].pid
    ensures || (Exited(s.procs[q], s.threads[q]) && s'.procs[q].etime == s.procs[q].etime)
            || (Exiting(s.threads[q]) && s'.procs[q].etime == s.ticks)
  {
    hide Safe, NextStep, BaseCode, TreeStep, Stepped, BasesStay;
    if !st.BaseGo? {
      OtherLife(s, st, s', q);
      OtherStepsStay(s, st, s');
      StayExited(s, s', q);
    } else {
      OwnFacts(s, st, s');
      var me := s.cpus[st.k].spc.p;
      if me == q { OwnExit(s, st.k, me, st.op, st.pc, s'); } else { OtherExit(s, st.k, me, st.op, st.pc, s', q); }
    }
  }

  lemma StayExited(s: State, s': State, q: nat)
    requires BasesStay(s, s') && q < |s.procs| && Exited(s'.procs[q], s'.threads[q])
    ensures Exited(s.procs[q], s.threads[q])
  {
    hide Quiet;
  }

  lemma OwnExit(s: State, k: nat, me: nat, op: Op, pc': Pc, s': State)
    requires Running(s, k, me) && TreeStep(s, k, me, op, s')
    requires Stepped(s, me, op, s.threads[me].(base := pc'), s') && BaseCode(s, me, s.threads[me].base, op, pc')
    requires Exited(s'.procs[me], s'.threads[me])
    ensures s'.procs[me].pid == s.procs[me].pid
    ensures || (Exited(s.procs[me], s.threads[me]) && s'.procs[me].etime == s.procs[me].etime)
            || (Exiting(s.threads[me]) && s'.procs[me].etime == s.ticks)
  {
    hide BaseCode, ForkOwned;
    ExitFrom(s, me, s.threads[me].base, op, pc');
  }

  /** The way into and through kexit. */
  lemma ExitFrom(s: State, me: nat, pc: Pc, op: Op, pc': Pc)
    requires Shape(s) && me < |s.procs| && BaseCode(s, me, pc, op, pc')
    ensures pc'.InExit? && !pc'.exit.ExitAt? ==> pc.InExit? && (pc.exit.ExitAt? <==> op == Stamp(me))
    ensures op.Stamp? ==> op.q == me && IsExit(pc, ExitAt)
    ensures op.GoZombie? ==> IsExit(pc, ExitSet)
    ensures pc.InExit? ==> !op.NewPid? && !op.InitCounters? && !op.Free? && !op.Spawn?
  {
    hide StillPausing;
  }

  lemma OtherExit(s: State, k: nat, me: nat, op: Op, pc': Pc, s': State, q: nat)
    requires Safe(s) && Running(s, k, me) && TreeStep(s, k, me, op, s') && q < |s.procs| && me != q
    requires Stepped(s, me, op, s.threads[me].(base := pc'), s') && BaseCode(s, me, s.threads[me].base, op, pc')
    requires Exited(s'.procs[q], s'.threads[q])
    ensures s'.procs[q].pid == s.procs[q].pid
    ensures Exited(s.procs[q], s.threads[q]) && s'.procs[q].etime == s.procs[q].etime
  {
    hide Safe, BaseCode, ForkOwned;
    ExitFrom(s, me, s.threads[me].base, op, pc');
    if Target(op) == Some(q) && (op.NewPid? || op.InitCounters? || op.Spawn? || op.Free?) {
      AllocatedNotExited(s, k, me, op, q);
    }
  }

  lemma {:induction false} TicksGrow(tr: seq<State>, i: nat, j: nat)
    requires Run(tr) && i <= j < |tr|
    ensures tr[i].ticks <= tr[j].ticks
    decreases j - i
  {
    hide Run, Safe, NextStep;
    if i < j {
      var st := StepOf(tr, i);
      RunSafe(tr, i);
      StepTicks(tr[i], st, tr[i + 1]);
      TicksGrow(tr, i + 1, j);
    }
  }

  lemma StepTicks(s: State, st: Step, s': State)
    requires Safe(s) && NextStep(s, st, s')
    ensures s.ticks <= s'.ticks
  {
    hide Safe, BaseCode, TickCode, IrqCode, Changed, Quiet, ChargeChoice;
  }

  /** From moment m on, up to j, slot q holds the same initialised process as at j. */
  ghost predicate SameProcess(tr: seq<State>, q: nat, m: nat, j: nat) {
    && m <= j < |tr| && q < |tr[j].procs|
    && forall x {:trigger tr[x]} :: m <= x <= j ==>
         q < |tr[x].procs| && tr[x].procs[q].ready.Yes? && tr[x].procs[q].pid == tr[j].procs[q].pid
  }

  /** The process in slot q at j was created at moment m: by allocproc, which gave it its pid,
      or at boot. */
  ghost predicate Born(tr: seq<State>, q: nat, m: nat, j: nat) {
    && m <= j < |tr| && q < |tr[m].procs|
    && if q == INIT && m == 0 && tr[m].procs[q].ready.Yes? then SameProcess(tr, q, m, j)
       else
         && m < j && SameProcess(tr, q, m + 1, j)
         && tr[m].procs[q].state.USED? && tr[m].procs[q].ready.No? && tr[m].procs[q].pid == tr[j].procs[q].pid
  }

  /** ctime is the tick count at which the process was created. */
  lemma {:induction false} CreatedAt(tr: seq<State>, q: nat, j: nat) returns (m: nat)
    requires Run(tr) && j < |tr| && q < |tr[j].procs| && tr[j].procs[q].ready.Yes?
    ensures Born(tr, q, m, j) && tr[j].procs[q].ctime == tr[m].ticks
    decreases j
  {
    hide Run, Safe, NextStep, CountsOk, AccountsOk;
    if j == 0 {
      m := 0;
      InitCreated(tr[0], q);
      FirstInit(tr);
    } else {
      var n := j - 1;
      var st := StepOf(tr, n);
      RunAccounts(tr, n);
      CountsOf(tr[n]);
      SafeShape(tr[n]);
      StepShape(tr[n], st, tr[j]);
      BirthStep(tr[n], st, tr[j], q);
      if Creates(tr[n].procs[q], tr[j].procs[q], tr[n].ticks) {
        m := n;
      } else {
        m := CreatedAt(tr, q, n);
      }
    }
  }

  lemma FirstInit(tr: seq<State>)
    requires Run(tr)
    ensures Init(tr[0])
  {
    hide Init, Next;
  }

  lemma InitCreated(s: State, q: nat)
    ensures Init(s) && q < |s.procs| && s.procs[q].ready.Yes? ==> q == INIT && s.procs[q].ctime == s.ticks
  {
  }

  /** etime is the tick count at which the process entered kexit. */
  lemma {:induction false} ExitedAt(tr: seq<State>, q: nat, j: nat) returns (m: nat)
    requires Run(tr) && j < |tr| && q < |tr[j].procs| && q < |tr[j].threads|
    requires Exited(tr[j].procs[q], tr[j].threads[q])
    ensures m < j && q < |tr[m].procs| && q < |tr[m].threads| && Exiting(tr[m].threads[q])
    ensures tr[j].procs[q].etime == tr[m].ticks
    ensures forall x {:trigger tr[x]} :: m <= x <= j ==>
      && q < |tr[x].procs| && tr[x].procs[q].pid == tr[j].procs[q].pid
      && (m < x ==> q < |tr[x].threads| && Exited(tr[x].procs[q], tr[x].threads[q]))
    decreases j
  {
    hide Run, Safe, NextStep, Exited;
    if j == 0 {
      FirstInit(tr);
      InitNotExited(tr[0], q);
      assert false;
    } else {
      var n := j - 1;
      var st := StepOf(tr, n);
      RunSafe(tr, n);
      StepShape(tr[n], st, tr[j]);
      ExitStep(tr[n], st, tr[j], q);
      if Exited(tr[n].procs[q], tr[n].threads[q]) && tr[j].procs[q].etime == tr[n].procs[q].etime {
        m := ExitedAt(tr, q, n);
      } else {
        m := n;
      }
    }
  }

  lemma InitNotExited(s: State, q: nat)
    requires Init(s) && q < |s.procs|
    ensures !Exited(s.procs[q], s.threads[q])
  {
  }

  /** Past the start of kexit ctime <= etime <= ticks: the turnaround time that waitx reports is
      the number of ticks from the creation of the child to its exit, and not negative. */
  lemma TurnaroundIsLifetime(tr: seq<State>, q: nat, j: nat) returns (born: nat, left: nat)
    requires Run(tr) && j < |tr| && q < |tr[j].procs| && q < |tr[j].threads|
    requires Exited(tr[j].procs[q], tr[j].threads[q])
    ensures born <= left < j
    ensures Born(tr, q, born, j)
    ensures q < |tr[left].threads| && Exiting(tr[left].threads[q]) && SameProcess(tr, q, left, j)
    ensures tr[j].procs[q].etime - tr[j].procs[q].ctime == tr[left].ticks - tr[born].ticks
    ensures tr[j].procs[q].ctime <= tr[j].procs[q].etime <= tr[j].ticks
  {
    hide Run, Safe, NextStep, CountsOk, AccountsOk, Exited;
    left := ExitedAt(tr, q, j);
    forall x | left <= x <= j ensures tr[x].procs[q].ready.Yes? {
      RunAccounts(tr, x);
      CountsOf(tr[x]);
      SafeShape(tr[x]);
      ExitedReady(tr[x], q);
    }
    born := CreatedAt(tr, q, j);
    TicksGrow(tr, born, left);
    TicksGrow(tr, left, j);
  }

  lemma ExitedReady(s: State, q: nat)
    requires Safe(s) && Shape(s) && CountsOk(s) && q < |s.procs|
    requires Exited(s.procs[q], s.threads[q]) || Exiting(s.threads[q])
    ensures s.procs[q].ready.Yes?
  {
    hide RunOk, LockOk, GlobalLockOk, ForkOk, CountsOk;
    CountOf(s, q);
    SlotStays(s, q);
  }

  // ---------- When a process became RUNNABLE ----------

  /** The four ways to become RUNNABLE: woken on its channel, woken by kkill, published by
      kfork, or by yielding; a wakeup and a yield set age_start to the current tick. */
  ghost predicate BecomesReady(s: State, st: Step, s': State, q: nat)
    requires q < |s.procs| && q < |s'.procs|
  {
    var pr, pr' := s.procs[q], s'.procs[q];
    match pr.state
    case SLEEPING => (WakesUp(s, st, q) && pr'.age == s.ticks) || (KillsSleeper(s, st, q) && pr'.age == pr.age)
    case USED => pr'.age == pr.age
    case RUNNING => st.TickGo? && pr'.age == s.ticks
    case _ => false
  }

  lemma ReadyStep(s: State, st: Step, s': State, q: nat)
    requires Safe(s) && CallsOk(s) && NextStep(s, st, s') && q < |s.procs| && q < |s'.procs|
    requires s'.procs[q].state.RUNNABLE?
    ensures (s.procs[q].state.RUNNABLE? && s'.procs[q].age == s.procs[q].age) || BecomesReady(s, st, s', q)
  {
    hide Safe, CallsOk, BaseStep, TickStep, IrqStep, TimerStep, DeviceStep, SwtchStep, ClearStep, SchedAcqStep,
        SchedRelStep, TreeStep, Stepped, BaseCode, TickCode, WakesUp, KillsSleeper;
    SafeShape(s);
    StepShape(s, st, s');
    match st {
      case BaseGo(k, op, pc) =>
        OwnFacts(s, st, s');
        CallKnown(s, s.cpus[k].spc.p);
        BaseReady(s, st, s', q);
      case TickGo(k, op, pc) => TickReady(s, k, op, pc, s', q);
      case IrqGo(k, op, irq, end) => IrqReady(s, k, op, irq, end, s', q);
      case Dispatch(k, x) =>
      case _ => SchedLocked(s, st, s', q);
    }
  }

  lemma BaseReady(s: State, st: Step, s': State, q: nat)
    requires Shape(s) && st.BaseGo? && st.k < |s.cpus| && s.cpus[st.k].spc.SRun? && s.cpus[st.k].spc.p < |s.procs|
    requires CallOk(s, s.cpus[st.k].spc.p)
    requires BaseCode(s, s.cpus[st.k].spc.p, s.threads[s.cpus[st.k].spc.p].base, st.op, st.pc)
    requires TreeStep(s, st.k, s.cpus[st.k].spc.p, st.op, s') && q < |s.procs| == |s'.procs|
    requires s'.procs[q].state.RUNNABLE?
    ensures (s.procs[q].state.RUNNABLE? && s'.procs[q].age == s.procs[q].age) || BecomesReady(s, st, s', q)
  {
    hide BaseCode, ForkOwned, CallOk, TreeMove;
    var me := s.cpus[st.k].spc.p;
    if st.op.Ready? && st.op.q == q {
      ReadyFrom(s, me, st.op, st.pc);
      if s.procs[q].state.SLEEPING? { ReadySleeper(s, st, q); }
    }
  }

  /** Which calls make a process RUNNABLE, and whether it starts to age anew. */
  lemma ReadyFrom(s: State, me: nat, op: Op, pc': Pc)
    requires Shape(s) && me < |s.procs| && BaseCode(s, me, s.threads[me].base, op, pc') && op.Ready?
    ensures var pc := s.threads[me].base;
      || (pc.InExit? && op.age.Reset? && op.q < |s.procs| && s.procs[op.q].state.SLEEPING?)
      || ((pc.InKill? || pc.InFork?) && op.age.Keep?)
  {
    hide StillPausing;
  }

  lemma TickReady(s: State, k: nat, op: Op, pc': TickPc, s': State, q: nat)
    requires Safe(s) && TickStep(s, k, op, pc', s') && q < |s.procs| == |s'.procs| && s'.procs[q].state.RUNNABLE?
    ensures (s.procs[q].state.RUNNABLE? && s'.procs[q].age == s.procs[q].age)
        || BecomesReady(s, TickGo(k, op, pc'), s', q)
  {
    hide Safe, TickStep, WakesUp, KillsSleeper;
    TickWrote(s, k, op, pc', s');
    YieldAges(s, k, op, pc', s');
  }

  lemma YieldAges(s: State, k: nat, op: Op, pc': TickPc, s': State)
    requires TickStep(s, k, op, pc', s')
    ensures op.Ready? ==> op.age.Reset?
  {
    hide TickEffect;
  }

  lemma IrqReady(s: State, k: nat, op: Op, irq': Irq, end: TickEnd, s': State, q: nat)
    requires Safe(s) && IrqStep(s, k, op, irq', end, s') && q < |s.procs| == |s'.procs| && s'.procs[q].state.RUNNABLE?
    ensures (s.procs[q].state.RUNNABLE? && s'.procs[q].age == s.procs[q].age)
        || BecomesReady(s, IrqGo(k, op, irq', end), s', q)
  {
    hide Safe, Permitted, IrqEffect, IrqFrame, ChargeChoice, KillsSleeper;
    IrqRunning(s, k, op, irq', end, s');
    IrqPermitted(s, k, op, irq');
    IrqWrites(s, k, op, irq', end, s');
  }

  /** age_start of a RUNNABLE process: the tick count at which it was woken or yielded; kkill
      leaves it as it was, and kfork sets it before it publishes the child. */
  lemma {:induction false} ReadySince(tr: seq<State>, q: nat, j: nat) returns (m: nat, st: Step)
    requires Run(tr) && j < |tr| && q < |tr[j].procs| && tr[j].procs[q].state.RUNNABLE?
    ensures m <= j && q < |tr[m].procs|
    ensures forall x {:trigger tr[x]} :: m < x <= j ==>
      q < |tr[x].procs| && tr[x].procs[q].state.RUNNABLE? && tr[x].procs[q].age == tr[j].procs[q].age
    ensures
      || (m == 0 && q == INIT && tr[0].procs[q].state.RUNNABLE? && tr[j].procs[q].age == 0)
      || (m < j && NextStep(tr[m], st, tr[m + 1]) && BecomesReady(tr[m], st, tr[m + 1], q))
    decreases j
  {
    hide Run, Safe, NextStep, TreeOk, CallsOk, BecomesReady;
    if j == 0 {
      m := 0;
      FirstInit(tr);
      InitReady(tr[0], q);
      st := DeviceStart(0, 0);
    } else {
      var n := j - 1;
      st := StepOf(tr, n);
      RunCalls(tr, n);
      SafeShape(tr[n]);
      StepShape(tr[n], st, tr[j]);
      ReadyStep(tr[n], st, tr[j], q);
      if BecomesReady(tr[n], st, tr[j], q) {
        m := n;
      } else {
        m, st := ReadySince(tr, q, n);
      }
    }
  }

  lemma InitReady(s: State, q: nat)
    requires Init(s) && q < |s.procs| && s.procs[q].state.RUNNABLE?
    ensures q == INIT && s.procs[q].age == 0
  {
  }
}
