/**
 Only a scheduler's dispatch takes a process out of RUNNABLE.
 */
module KernelRunnable {
  import opened Kernel
  import opened KernelLocks
  import opened KernelSafe
  import opened KernelTree
  import opened KernelCounts
  import opened Refinement

  lemma ThreadKeeps(s: State, k: nat, me: nat, op: Op, s': State, q: nat)
    requires TreeStep(s, k, me, op, s') && q < |s.procs| && s.procs[q].state.RUNNABLE?
    ensures s'.procs[q].state.RUNNABLE?
  {
    hide ForkOwned;
  }

  lemma HandlerKeeps(s: State, op: Op, s': State, q: nat)
    requires Wrote(s, INIT, op, s') && HandlerOp(s, op) && q < |s.procs| && s.procs[q].state.RUNNABLE?
    ensures s'.procs[q].state.RUNNABLE?
  {
  }

  lemma BaseKeeps(s: State, k: nat, op: Op, pc': Pc, s': State, q: nat)
    requires Safe(s) && BaseStep(s, k, op, pc', s') && q < |s.procs| && s.procs[q].state.RUNNABLE?
    ensures q < |s'.procs| && s'.procs[q].state.RUNNABLE?
  {
    hide Safe, BaseStep, BaseEffect, BaseCode, TreeStep, Stepped;
    RunningCpu(s, k, op, pc', s');
    BaseFacts(s, k, op, pc', s');
    ThreadKeeps(s, k, s.cpus[k].spc.p, op, s', q);
  }

  lemma TickKeeps(s: State, k: nat, op: Op, pc': TickPc, s': State, q: nat)
    requires Safe(s) && TickStep(s, k, op, pc', s') && q < |s.procs| && s.procs[q].state.RUNNABLE?
    ensures q < |s'.procs| && s'.procs[q].state.RUNNABLE?
  {
    hide Safe, TreeStep, Stepped, TickEffect;
    var me := s.cpus[k].spc.p;
    TickRunning(s, k, me, op, pc', s');
    TickCharges(s, me, op, pc');
    TickWrites(s, k, me, op, pc', s');
    TickTreeStep(s, k, me, op, pc', s');
    ThreadKeeps(s, k, me, op, s', q);
  }

  lemma IrqKeeps(s: State, k: nat, op: Op, irq': Irq, end: TickEnd, s': State, q: nat)
    requires Safe(s) && IrqStep(s, k, op, irq', end, s') && q < |s.procs| && s.procs[q].state.RUNNABLE?
    ensures q < |s'.procs| && s'.procs[q].state.RUNNABLE?
  {
    hide Safe, Wrote, IrqFrame, IrqEffect, IrqCode, Permitted, ChargeChoice;
    SafeShape(s);
    IrqRunning(s, k, op, irq', end, s');
    IrqPermitted(s, k, op, irq');
    IrqWrites(s, k, op, irq', end, s');
    IrqEnds(s, k, op, irq', end, s');
    HandlerKeeps(s, op, s', q);
  }

  lemma OthersKeep(s: State, st: Step, s': State, q: nat)
    requires NextStep(s, st, s') && !st.BaseGo? && !st.TickGo? && !st.IrqGo?
    requires q < |s.procs| && s.procs[q].state.RUNNABLE? && !(st.Dispatch? && st.q == q)
    ensures q < |s'.procs| && s'.procs[q].state.RUNNABLE?
  {
    hide BaseStep, TickStep, IrqStep, Quiet, ChargeChoice;
  }

  /** A RUNNABLE slot stays RUNNABLE in every step but its own dispatch. */
  lemma OnlyDispatchLeaves(s: State, st: Step, s': State, q: nat)
    requires Safe(s) && NextStep(s, st, s') && q < |s.procs| && s.procs[q].state.RUNNABLE?
    ensures q < |s'.procs| && (s'.procs[q].state.RUNNABLE? || (st.Dispatch? && st.q == q))
  {
    hide Safe, BaseStep, TickStep, IrqStep, TimerStep, DeviceStep, SwtchStep, ClearStep, SchedAcqStep, SchedRelStep;
    match st {
      case BaseGo(k, op, pc) => BaseKeeps(s, k, op, pc, s', q);
      case TickGo(k, op, pc) => TickKeeps(s, k, op, pc, s', q);
      case IrqGo(k, op, irq, end) => IrqKeeps(s, k, op, irq, end, s', q);
      case Dispatch(_, x) => if x != q { OthersKeep(s, st, s', q); }
      case _ => OthersKeep(s, st, s', q);
    }
  }

  /** No CPU executes slot p or is about to leave it. */
  ghost predicate Unloaded(s: State, p: nat)
    requires Shape(s)
  {
    && p < |s.procs| && s.threads[p].on.None?
    && forall k {:trigger s.cpus[k]} :: 0 <= k < |s.cpus| ==> s.cpus[k].spc != SBack(p)
  }

  lemma ThreadLoads(s: State, st: Step, s': State, p: nat)
    requires Shape(s) && NextStep(s, st, s') && (st.BaseGo? || st.TickGo?) && Unloaded(s, p)
    ensures Shape(s') && Unloaded(s', p)
  {
    hide BaseCode, TickCode, Changed;
  }

  lemma IrqLoads(s: State, st: Step, s': State, p: nat)
    requires Shape(s) && NextStep(s, st, s') && st.IrqGo? && Unloaded(s, p)
    ensures Shape(s') && Unloaded(s', p)
  {
    hide IrqCode, Changed, ChargeChoice;
  }

  /** Only its dispatch loads a slot. */
  lemma OnlyDispatchLoads(s: State, st: Step, s': State, p: nat)
    requires Safe(s) && NextStep(s, st, s') && Unloaded(s, p) && !(st.Dispatch? && st.q == p)
    ensures Shape(s') && Unloaded(s', p)
  {
    hide LockOk, GlobalLockOk, ForkOk, StateOk, QuietOk, BaseStep, TickStep, IrqStep, Quiet, ChargeChoice;
    if st.BaseGo? || st.TickGo? {
      ThreadLoads(s, st, s', p);
    } else if st.IrqGo? {
      IrqLoads(s, st, s', p);
    }
  }

  /** Over a whole run of any scheduler: a slot that was RUNNABLE and no longer is has been
      dispatched. */
  lemma {:induction false} DispatchedSince(cs: seq<State>, st: seq<Option<Step>>, q: nat, i: nat, j: nat)
      returns (m: nat)
    requires Trace(cs, st) && i <= j < |cs|
    requires q < |cs[i].procs| && cs[i].procs[q].state.RUNNABLE?
    requires q < |cs[j].procs| ==> !cs[j].procs[q].state.RUNNABLE?
    ensures i <= m < j && IsDispatch(st[m], q)
    decreases j
  {
    hide NextStep, Init, Safe, Run;
    assert i < j;
    var x := j - 1;
    if q < |cs[x].procs| && cs[x].procs[q].state.RUNNABLE? {
      var tr, y := TraceState(cs, st, x);
      RunSafe(tr, y);
      TraceStep(cs, st, x);
      if st[x].Some? { OnlyDispatchLeaves(cs[x], st[x].value, cs[j], q); }
      m := x;
    } else {
      m := DispatchedSince(cs, st, q, i, x);
    }
  }
}
