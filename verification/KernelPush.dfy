/**
 Who makes a process RUNNABLE: every such operation is followed, under the same lock and on
 the same CPU, by a push of that process.
 */
module KernelPush {
  import opened Kernel
  import opened KernelLocks
  import opened KernelSafe
  import opened KernelTree
  import opened Refinement

  function BasePush(pc: Pc): Option<nat> {
    match pc
    case InFork(i, ph) => if ph.ForkPush? then Some(i) else None
    case InExit(_, w, ph) => if (ph.RepWake? || ph.ExWake?) && w.ph.Woken? then Some(w.j) else None
    case InKill(_, i, ph) => if ph.KillPush? then Some(i) else None
    case _ => None
  }

  /** The slot that a thread pushes next. */
  function PushOf(me: nat, th: Thread): Option<nat> {
    if th.tick.TYieldPush? then Some(me) else if th.tick.TNone? then BasePush(th.base) else None
  }

  function IrqPush(irq: Irq): Option<nat> {
    if irq.IWake? && irq.w.ph.Woken? then Some(irq.w.j) else None
  }

  ghost predicate AboutToPush(s: State, k: nat, p: nat)
    requires Shape(s)
  {
    && k < |s.cpus|
    && (|| IrqPush(s.cpus[k].irq) == Some(p)
        || (s.cpus[k].spc.SRun? && s.cpus[k].spc.p < |s.procs|
            && PushOf(s.cpus[k].spc.p, s.threads[s.cpus[k].spc.p]) == Some(p)))
  }

  /** A step of CPU k that performs op: a push becomes due exactly when a process has been made
      RUNNABLE, and is due until it is performed. */
  ghost predicate Handed(s: State, k: nat, op: Op, s': State) {
    && Shape(s) && Shape(s') && |s'.procs| == |s.procs| && |s'.cpus| == |s.cpus|
    && (forall p {:trigger s'.procs[p]} :: 0 <= p < |s.procs| && s'.procs[p].state.RUNNABLE? ==>
          s.procs[p].state.RUNNABLE? || (op.Ready? && op.q == p))
    && (op.Ready? ==> k < |s.cpus| && op.q < |s.procs| && !s.procs[op.q].state.RUNNABLE?)
    && (op.PushQ? ==> AboutToPush(s, k, op.q))
    && (forall j, p {:trigger AboutToPush(s, j, p)} {:trigger AboutToPush(s', j, p)} :: 0 <= j && 0 <= p ==>
          (AboutToPush(s', j, p) <==> StillDue(s, k, op, j, p)))
  }

  ghost predicate StillDue(s: State, k: nat, op: Op, j: nat, p: nat)
    requires Shape(s)
  {
    || (j == k && op.Ready? && op.q == p)
    || (AboutToPush(s, j, p) && !(j == k && op == PushQ(p)))
  }

  // ---------- Steps of a process ----------

  /** A place that pushes is reached by making the process RUNNABLE, and left by the push. */
  predicate PushMove(before: Option<nat>, op: Op, after: Option<nat>) {
    && before == (if op.PushQ? then Some(op.q) else None)
    && after == (if op.Ready? then Some(op.q) else None)
  }

  lemma BasePushMove(s: State, me: nat, pc: Pc, op: Op, pc': Pc)
    requires Shape(s) && me < |s.procs| && BaseCode(s, me, pc, op, pc')
    ensures PushMove(BasePush(pc), op, BasePush(pc'))
  {
    hide StillPausing, WakeCode, ForkCode, ExitCode, KillCode, PushMove;
    match pc {
      case InFork(_, _) => ForkPushMove(s, me, pc, op, pc');
      case InExit(_, _, _) => ExitPushMove(s, me, pc, op, pc');
      case InKill(_, _, _) => KillPushMove(s, me, pc, op, pc');
      case _ => PlainPushMove(s, me, pc, op, pc');
    }
  }

  lemma ForkPushMove(s: State, me: nat, pc: Pc, op: Op, pc': Pc)
    requires Shape(s) && me < |s.procs| && pc.InFork? && ForkCode(s, me, pc, op, pc')
    ensures PushMove(BasePush(pc), op, BasePush(pc'))
  {
  }

  lemma KillPushMove(s: State, me: nat, pc: Pc, op: Op, pc': Pc)
    requires Shape(s) && me < |s.procs| && pc.InKill? && KillCode(s, me, pc, op, pc')
    ensures PushMove(BasePush(pc), op, BasePush(pc'))
  {
  }

  lemma ExitPushMove(s: State, me: nat, pc: Pc, op: Op, pc': Pc)
    requires Shape(s) && me < |s.procs| && pc.InExit? && ExitCode(s, me, pc, op, pc')
    ensures PushMove(BasePush(pc), op, BasePush(pc'))
  {
    hide WakeCode;
    if (pc.exit.RepWake? || pc.exit.ExWake?) && !WakeDone(pc.w, |s.procs|) {
      WakePushMove(s, Some(me), pc.w, op, pc'.w);
    }
  }

  lemma PlainPushMove(s: State, me: nat, pc: Pc, op: Op, pc': Pc)
    requires Shape(s) && me < |s.procs| && !pc.InFork? && !pc.InExit? && !pc.InKill? && BaseCode(s, me, pc, op, pc')
    ensures PushMove(BasePush(pc), op, BasePush(pc'))
  {
    hide StillPausing;
  }

  lemma WakePushMove(s: State, mine: Option<nat>, w: Wake, op: Op, w': Wake)
    requires WakeCode(s, mine, w, op, w')
    ensures PushMove(if w.ph.Woken? then Some(w.j) else None, op, if w'.ph.Woken? then Some(w'.j) else None)
  {
  }

  lemma QuietPushesNothing(me: nat, th: Thread)
    requires th.tick.TNone? && Quiet(th.base)
    ensures PushOf(me, th).None?
  {
  }

  lemma TickPushMove(s: State, me: nat, th: Thread, op: Op, pc': TickPc)
    requires Shape(s) && me < |s.procs| && TickCode(s, me, th.tick, op, pc') && Quiet(th.base)
    ensures PushMove(PushOf(me, th), op, PushOf(me, th.(tick := pc')))
  {
    QuietPushesNothing(me, th.(tick := TNone));
  }

  lemma BecomesReady(s: State, k: nat, mine: Option<nat>, me: nat, op: Op, s': State)
    requires Wrote(s, me, op, s') && Permitted(s, k, mine, op)
    ensures forall p {:trigger s'.procs[p]} :: 0 <= p < |s.procs| && s'.procs[p].state.RUNNABLE? ==>
      s.procs[p].state.RUNNABLE? || (op.Ready? && op.q == p)
    ensures op.Ready? ==> op.q < |s.procs| && !s.procs[op.q].state.RUNNABLE?
  {
  }

  lemma NewContextPushesNothing(q: nat)
    ensures PushOf(q, Thread(ForkRet, TNone, None)).None?
  {
  }

  lemma ThreadHands(s: State, k: nat, me: nat, op: Op, s': State, th': Thread)
    requires Safe(s) && Running(s, k, me) && Wrote(s, me, op, s') && Stepped(s, me, op, th', s')
    requires Permitted(s, k, Some(me), op) && PushMove(PushOf(me, s.threads[me]), op, PushOf(me, th'))
    ensures Handed(s, k, op, s')
  {
    hide QuietOk, LockOk, GlobalLockOk, ForkOk, StateOk, PushOf, Wrote, Permitted, IrqPush;
    BecomesReady(s, k, Some(me), me, op, s');
    PermittedSpawn(s, k, Some(me), op);
    assert |s'.procs| == |s.procs| && s'.cpus == s.cpus;
    NoIrqPush();
    forall j, p | 0 <= j && 0 <= p ensures AboutToPush(s', j, p) <==> StillDue(s, k, op, j, p) {
      if j < |s.cpus| && j != k && s.cpus[j].spc.SRun? { NewContextPushesNothing(s.cpus[j].spc.p); }
    }
  }

  lemma NoIrqPush()
    ensures IrqPush(INone).None?
  {
  }

  lemma BaseHands(s: State, k: nat, op: Op, pc': Pc, s': State)
    requires Safe(s) && BaseStep(s, k, op, pc', s')
    ensures Handed(s, k, op, s')
  {
    hide Safe, BaseStep, BaseEffect, BaseCode, BasePush, MovesWell, Handed, Stepped, Wrote, TreeMove, Permitted,
        ForkOwned, PushMove;
    RunningCpu(s, k, op, pc', s');
    var me := s.cpus[k].spc.p;
    BaseFacts(s, k, op, pc', s');
    BasePushMove(s, me, s.threads[me].base, op, pc');
    ThreadHands(s, k, me, op, s', s.threads[me].(base := pc'));
  }

  lemma TickIs(s: State, k: nat, op: Op, pc': TickPc, s': State)
    requires Safe(s) && TickStep(s, k, op, pc', s')
    ensures var me := s.cpus[k].spc.p;
      && Running(s, k, me) && Permitted(s, k, Some(me), op)
      && Wrote(s, me, op, s') && Stepped(s, me, op, s.threads[me].(tick := pc'), s')
      && PushMove(PushOf(me, s.threads[me]), op, PushOf(me, s.threads[me].(tick := pc')))
  {
    hide LockOk, GlobalLockOk, ForkOk, StateOk, Stepped, Wrote, PushOf, Permitted, TickCode, Quiet, PushMove;
    var me := s.cpus[k].spc.p;
    TickPermitted(s, k, me, op, pc');
    TickPushMove(s, me, s.threads[me], op, pc');
    NoSpawn(s, me, op, pc');
    TickWrites(s, k, me, op, pc', s');
  }

  lemma NoSpawn(s: State, me: nat, op: Op, pc': TickPc)
    requires Shape(s) && me < |s.procs| && TickCode(s, me, s.threads[me].tick, op, pc')
    ensures !op.Spawn?
  {
  }

  lemma TickHands(s: State, k: nat, op: Op, pc': TickPc, s': State)
    requires Safe(s) && TickStep(s, k, op, pc', s')
    ensures Handed(s, k, op, s')
  {
    hide Safe, Handed, Stepped, Wrote, PushOf, Permitted, PushMove;
    var me := s.cpus[k].spc.p;
    TickIs(s, k, op, pc', s');
    ThreadHands(s, k, me, op, s', s.threads[me].(tick := pc'));
  }

  // ---------- Handlers and switches ----------

  lemma IrqPushMove(s: State, mine: Option<nat>, pc: Irq, op: Op, pc': Irq)
    requires IrqCode(s, mine, pc, op, pc')
    ensures PushMove(IrqPush(pc), op, IrqPush(pc'))
  {
    hide WakeCode;
    if pc.IWake? && !WakeDone(pc.w, |s.procs|) { WakePushMove(s, mine, pc.w, op, pc'.w); }
  }

  lemma HandlerHands(s: State, k: nat, op: Op, irq': Irq, s': State)
    requires Safe(s) && Wrote(s, INIT, op, s') && IrqFrame(s, k, irq', s') && !s.cpus[k].irq.INone?
    requires Permitted(s, k, s.cpus[k].cproc, op) && PushMove(IrqPush(s.cpus[k].irq), op, IrqPush(irq'))
    requires TicksNew(s, s')
    ensures Handed(s, k, op, s')
  {
    hide Safe, PushOf, Wrote, IrqPush, AboutToPush, Permitted;
    BecomesReady(s, k, s.cpus[k].cproc, INIT, op, s');
    if op.PushQ? { HandlerPushes(s, k, irq', s', k, op.q); }
    forall j, p | 0 <= j && 0 <= p ensures AboutToPush(s', j, p) <==> StillDue(s, k, op, j, p) {
      HandlerPushes(s, k, irq', s', j, p);
    }
  }

  /** A handler step interrupts a thread at most. */
  ghost predicate TicksNew(s: State, s': State) {
    && |s'.threads| == |s.threads|
    && forall p {:trigger s'.threads[p]} :: 0 <= p < |s.threads| ==>
         s'.threads[p].tick == s.threads[p].tick || s'.threads[p].tick.TUpdAcq?
  }

  /** The interrupted thread pushes nothing, before and after. */
  lemma HandlerPushes(s: State, k: nat, irq': Irq, s': State, j: nat, p: nat)
    requires Safe(s) && IrqFrame(s, k, irq', s') && !s.cpus[k].irq.INone? && TicksNew(s, s')
    ensures j != k ==> (AboutToPush(s', j, p) <==> AboutToPush(s, j, p))
    ensures j == k ==> (AboutToPush(s', j, p) <==> IrqPush(irq') == Some(p))
    ensures j == k ==> (AboutToPush(s, j, p) <==> IrqPush(s.cpus[k].irq) == Some(p))
  {
    hide LockOk, GlobalLockOk, ForkOk, StateOk, IrqPush, Quiet, BasePush;
    if s.cpus[k].spc.SRun? { QuietPushesNothing(s.cpus[k].spc.p, s.threads[s.cpus[k].spc.p]); }
  }

  lemma IrqTicks(s: State, k: nat, op: Op, irq': Irq, end: TickEnd, s': State)
    requires IrqEffect(s, k, op, irq', end, s') && !op.Spawn?
    ensures TicksNew(s, s')
  {
    hide Changed;
  }

  lemma IrqHands(s: State, k: nat, op: Op, irq': Irq, end: TickEnd, s': State)
    requires Safe(s) && IrqStep(s, k, op, irq', end, s')
    ensures Handed(s, k, op, s')
  {
    hide Safe, Handed, IrqFrame, Wrote, IrqPush, IrqCode, IrqEffect, Permitted, ChargeChoice, TicksNew;
    IrqRunning(s, k, op, irq', end, s');
    IrqPermitted(s, k, op, irq');
    IrqWrites(s, k, op, irq', end, s');
    IrqTicks(s, k, op, irq', end, s');
    IrqPushMove(s, s.cpus[k].cproc, s.cpus[k].irq, op, irq');
    HandlerHands(s, k, op, irq', s');
  }

  lemma ArrivalHands(s: State, k: nat, s': State)
    requires Safe(s) && Arrival(s, k, s')
    ensures Handed(s, k, Nop, s')
  {
    hide LockOk, GlobalLockOk, ForkOk, StateOk, Quiet, BasePush;
    if s.cpus[k].spc.SRun? { QuietPushesNothing(s.cpus[k].spc.p, s.threads[s.cpus[k].spc.p]); }
  }

  lemma SwtchHands(s: State, k: nat, s': State)
    requires Safe(s) && SwtchStep(s, k, s')
    ensures Handed(s, k, Nop, s')
  {
    hide LockOk, GlobalLockOk, ForkOk, StateOk, QuietOk;
  }

  lemma ResumedPushesNothing(q: nat, th: Thread)
    requires Resumable(th)
    ensures forall k: Option<nat> :: PushOf(q, th.(on := k)).None?
  {
  }

  lemma DispatchHands(s: State, k: nat, q: nat, s': State)
    requires Safe(s) && DispatchStep(s, k, q, s')
    ensures Handed(s, k, Nop, s')
  {
    hide LockOk, GlobalLockOk, ForkOk, StateOk, QuietOk, PushOf, IrqPush, Resumable;
    DispatchFree(s, k, q);
    ResumedPushesNothing(q, s.threads[q]);
  }

  lemma NextHands(s: State, st: Step, s': State)
    requires Safe(s) && NextStep(s, st, s')
    ensures Handed(s, st.k, OpOf(st), s')
  {
    hide Safe, Handed, BaseStep, TickStep, IrqStep, TimerStep, DeviceStep, SwtchStep, DispatchStep, Arrival;
    match st {
      case BaseGo(k, op, pc) => BaseHands(s, k, op, pc, s');
      case TickGo(k, op, pc) => TickHands(s, k, op, pc, s');
      case IrqGo(k, op, irq, end) => IrqHands(s, k, op, irq, end, s');
      case TimerStart(k, end) => TimerArrives(s, k, end, s'); ArrivalHands(s, k, s');
      case DeviceStart(k, id) => DeviceArrives(s, k, id, s'); ArrivalHands(s, k, s');
      case SwtchOut(k) => SwtchHands(s, k, s');
      case Dispatch(k, q) => DispatchHands(s, k, q, s');
      case _ => SchedHands(s, st, s');
    }
  }

  lemma SchedHands(s: State, st: Step, s': State)
    requires Safe(s) && NextStep(s, st, s') && (st.ClearProc? || st.SchedAcq? || st.SchedRel?)
    ensures Handed(s, st.k, Nop, s')
  {
    hide Safe, BaseStep, TickStep, IrqStep, TimerStep, DeviceStep, SwtchStep, PushOf, IrqPush;
  }

  // ---------- The push ----------

  /** A push changes no slot and no lock; its CPU holds the lock of the slot. */
  lemma PushDone(s: State, st: Step, s': State, p: nat)
    requires Safe(s) && NextStep(s, st, s') && OfProcess(st) && OpOf(st) == PushQ(p)
    ensures Shape(s') && p < |s.procs| == |s'.procs| && s'.procs[p] == s.procs[p]
    ensures s.plock[p] == Some(st.k) && s'.plock == s.plock && st.k < |s'.cpus|
    ensures s'.cpus[st.k].spc.SRun? || !s'.cpus[st.k].irq.INone?
  {
    hide Safe, BaseStep, TickStep, IrqStep, TimerStep, DeviceStep, SwtchStep;
    match st {
      case BaseGo(k, op, pc) => BasePushDone(s, k, op, pc, s', p);
      case TickGo(k, op, pc) => TickPushDone(s, k, op, pc, s', p);
      case IrqGo(k, op, irq, end) => IrqPushDone(s, k, op, irq, end, s', p);
      case _ =>
    }
  }

  lemma BasePushDone(s: State, k: nat, op: Op, pc': Pc, s': State, p: nat)
    requires Safe(s) && BaseStep(s, k, op, pc', s') && op == PushQ(p)
    ensures Shape(s') && k < |s'.cpus| && s'.cpus[k].spc.SRun?
    ensures p < |s.procs| == |s'.procs| && s'.procs[p] == s.procs[p] && s.plock[p] == Some(k) && s'.plock == s.plock
  {
    hide Safe, BaseCode, ForkOwned, TreeMove;
    BaseFacts(s, k, op, pc', s');
  }

  lemma TickPushDone(s: State, k: nat, op: Op, pc': TickPc, s': State, p: nat)
    requires Safe(s) && TickStep(s, k, op, pc', s') && op == PushQ(p)
    ensures Shape(s') && k < |s'.cpus| && s'.cpus[k].spc.SRun?
    ensures p < |s.procs| == |s'.procs| && s'.procs[p] == s.procs[p] && s.plock[p] == Some(k) && s'.plock == s.plock
  {
    hide Safe;
    TickPermitted(s, k, s.cpus[k].spc.p, op, pc');
  }

  lemma IrqPushDone(s: State, k: nat, op: Op, irq': Irq, end: TickEnd, s': State, p: nat)
    requires Safe(s) && IrqStep(s, k, op, irq', end, s') && op == PushQ(p)
    ensures Shape(s') && k < |s'.cpus| && !s'.cpus[k].irq.INone?
    ensures p < |s.procs| == |s'.procs| && s'.procs[p] == s.procs[p] && s.plock[p] == Some(k) && s'.plock == s.plock
  {
    hide Safe, ChargeChoice;
    IrqPermitted(s, k, op, irq');
  }
}
