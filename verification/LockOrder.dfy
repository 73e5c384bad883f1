/**
 Deadlock freedom of the adaptive build. Every CPU acquires process locks in ascending slot
 order, after wait_lock and tickslock, with one exception: allocproc takes tickslock while it
 holds a process lock. So every cycle of waiting CPUs contains a CPU at that place.
 */
module LockOrder {
  import opened Kernel
  import opened KernelLocks
  import opened AdaptiveMachine

  datatype Lock = WaitLock | TicksLock | ProcLock(i: nat)

  ghost predicate Owns(s: State, k: nat, l: Lock) {
    match l
    case WaitLock => s.waitLk == Some(k)
    case TicksLock => s.tickLk == Some(k)
    case ProcLock(i) => i < |s.plock| && s.plock[i] == Some(k)
  }

  ghost predicate Taken(s: State, l: Lock) {
    match l
    case WaitLock => s.waitLk.Some?
    case TicksLock => s.tickLk.Some?
    case ProcLock(i) => i < |s.plock| && s.plock[i].Some?
  }

  // ---------- The lock that a place in the code waits for ----------

  function WakeWants(slots: nat, mine: Option<nat>, w: Wake): Option<Lock> {
    if w.ph.At? && w.j < slots && mine != Some(w.j) then Some(ProcLock(w.j)) else None
  }

  function BaseWants(s: State, me: nat, pc: Pc): Option<Lock> {
    match pc
    case InFork(i, ph) =>
      if (ph.AllocAt? && i < |s.procs|) || ph.ForkPub? then Some(ProcLock(i))
      else if ph.AllocInit? then Some(TicksLock)
      else if ph.ForkLink? then Some(WaitLock)
      else None
    case InWait(call, i, kids, ph) =>
      if ph.WaitAt? then Some(WaitLock)
      else if !ph.WaitScan? then None
      else if i < |s.procs| then (if s.procs[i].parent == Some(me) then Some(ProcLock(i)) else None)
      else if kids.HasKids? && call.Kwait? then Some(ProcLock(me)) else None
    case InSleep(r, ph) =>
      if ph.SleepAt? then Some(ProcLock(me))
      else if ph.SleepRelock? && r.ToWait? then Some(WaitLock)
      else if ph.SleepRelock? && r.ToPause? then Some(TicksLock)
      else None
    case InExit(_, w, ph) =>
      if ph.ExitAt? then Some(TicksLock)
      else if ph.ExitLock? then Some(WaitLock)
      else if ph.RepWake? || ph.ExWake? then WakeWants(|s.procs|, Some(me), w)
      else if ph.ExitMine? then Some(ProcLock(me))
      else None
    case InKill(_, i, ph) => if ph.KillAt? && i < |s.procs| then Some(ProcLock(i)) else None
    case InPause(n, start, ph) =>
      if ph.PauseAt? then Some(TicksLock)
      else if ph.PauseTest? && StillPausing(s.ticks, start, n) then Some(ProcLock(me))
      else None
    case _ => None
  }

  function ThreadWants(s: State, me: nat, th: Thread): Option<Lock> {
    if th.tick.TUpdAcq? || th.tick.TYieldAcq? then Some(ProcLock(me))
    else if th.tick.TNone? then BaseWants(s, me, th.base)
    else None
  }

  function IrqWants(s: State, mine: Option<nat>, irq: Irq): Option<Lock> {
    if irq.IClock? then Some(TicksLock) else if irq.IWake? then WakeWants(|s.procs|, mine, irq.w) else None
  }

  /** The lock that CPU k must acquire, or pass through, before it can go on. */
  function Wants(a: AState, k: nat): Option<Lock>
    requires k < |a.sched| == |a.core.cpus|
  {
    var s, cpu := a.core, a.core.cpus[k];
    if !cpu.irq.INone? then IrqWants(s, cpu.cproc, cpu.irq)
    else match a.sched[k]
      case Scan(p, _, _) => if p < |s.procs| then Some(ProcLock(p)) else None
      case Away => if cpu.spc.SRun? && cpu.spc.p < |s.threads| then ThreadWants(s, cpu.spc.p, s.threads[cpu.spc.p])
          else None
      case _ => None
  }

  /** A place that wants a taken lock has no step. */
  lemma BaseBlocks(s: State, me: nat, pc: Pc, op: Op, pc': Pc)
    requires Shape(s) && me < |s.procs| && BaseCode(s, me, pc, op, pc') && Enabled(s, op)
    requires BaseWants(s, me, pc).Some?
    ensures !Taken(s, BaseWants(s, me, pc).value)
  {
    hide StillPausing, WakeCode, WakeWants, ForkCode, WaitCode, SleepCode, ExitCode;
    match pc {
      case InFork(_, _) => ForkBlocks(s, me, pc, op, pc');
      case InWait(_, _, _, _) => WaitBlocks(s, me, pc, op, pc');
      case InSleep(_, _) => SleepBlocks(s, me, pc, op, pc');
      case InExit(_, _, _) => ExitBlocks(s, me, pc, op, pc');
      case _ =>
    }
  }

  lemma ForkBlocks(s: State, me: nat, pc: Pc, op: Op, pc': Pc)
    requires Shape(s) && me < |s.procs| && pc.InFork? && ForkCode(s, me, pc, op, pc') && Enabled(s, op)
    ensures BaseWants(s, me, pc).Some? ==> !Taken(s, BaseWants(s, me, pc).value)
  {
  }

  lemma WaitBlocks(s: State, me: nat, pc: Pc, op: Op, pc': Pc)
    requires Shape(s) && me < |s.procs| && pc.InWait? && WaitCode(s, me, pc, op, pc') && Enabled(s, op)
    ensures BaseWants(s, me, pc).Some? ==> !Taken(s, BaseWants(s, me, pc).value)
  {
  }

  lemma SleepBlocks(s: State, me: nat, pc: Pc, op: Op, pc': Pc)
    requires Shape(s) && me < |s.procs| && pc.InSleep? && SleepCode(s, me, pc, op, pc') && Enabled(s, op)
    ensures BaseWants(s, me, pc).Some? ==> !Taken(s, BaseWants(s, me, pc).value)
  {
  }

  lemma ExitBlocks(s: State, me: nat, pc: Pc, op: Op, pc': Pc)
    requires Shape(s) && me < |s.procs| && pc.InExit? && ExitCode(s, me, pc, op, pc') && Enabled(s, op)
    ensures BaseWants(s, me, pc).Some? ==> !Taken(s, BaseWants(s, me, pc).value)
  {
    hide WakeCode;
    if (pc.exit.RepWake? || pc.exit.ExWake?) && WakeWants(|s.procs|, Some(me), pc.w).Some? {
      WakeBlocks(s, Some(me), pc.w, op, pc'.w);
    }
  }

  lemma WakeBlocks(s: State, mine: Option<nat>, w: Wake, op: Op, w': Wake)
    requires Shape(s) && WakeCode(s, mine, w, op, w') && Enabled(s, op)
    requires WakeWants(|s.procs|, mine, w).Some?
    ensures !Taken(s, WakeWants(|s.procs|, mine, w).value)
  {
  }

  lemma IrqBlocks(s: State, mine: Option<nat>, irq: Irq, op: Op, irq': Irq)
    requires Shape(s) && IrqCode(s, mine, irq, op, irq') && Enabled(s, op)
    requires IrqWants(s, mine, irq).Some?
    ensures !Taken(s, IrqWants(s, mine, irq).value)
  {
    hide WakeCode;
    if irq.IWake? && !WakeDone(irq.w, |s.procs|) { WakeBlocks(s, mine, irq.w, op, irq'.w); }
  }

  function CpuOf(t: AStep): nat { if t.Proc? then t.st.k else t.k }

  /** A CPU that wants a taken lock spins: the machine has no step of that CPU. */
  lemma WantsBlocks(tr: seq<AState>, i: nat, t: AStep, a': AState)
    requires ARun(tr) && i < |tr| && AShape(tr[i]) && ANextStep(tr[i], t, a') && CpuOf(t) < |tr[i].sched|
    requires Wants(tr[i], CpuOf(t)).Some?
    requires !(t.Proc? && (t.st.TimerStart? || t.st.DeviceStart?))
    ensures !Taken(tr[i].core, Wants(tr[i], CpuOf(t)).value)
  {
    hide BaseCode, BaseWants, IrqWants, IrqCode, Safe, ARun, Changed, Improves;
    RunIsOk(tr, i);
    var a, k := tr[i], CpuOf(t);
    assert Agrees(a.core, a.sched[k], a.core.cpus[k]);
    if t.Proc? {
      match t.st {
        case BaseGo(_, op, pc) => BaseStepBlocks(a.core, k, op, pc, a'.core);
        case IrqGo(_, op, irq, end) => IrqStepBlocks(a.core, k, op, irq, end, a'.core);
        case SwtchOut(_) => SwtchWantsNothing(a.core, a.core.cpus[k].spc.p, a.core.threads[a.core.cpus[k].spc.p]);
        case _ =>
      }
    }
  }

  lemma SwtchWantsNothing(s: State, me: nat, th: Thread)
    requires AtSwtch(th)
    ensures ThreadWants(s, me, th).None?
  {
  }

  lemma BaseStepBlocks(s: State, k: nat, op: Op, pc: Pc, s': State)
    requires BaseStep(s, k, op, pc, s')
    ensures k < |s.cpus| && s.cpus[k].spc.SRun? && s.cpus[k].irq.INone? && s.cpus[k].spc.p < |s.procs| == |s.threads|
    ensures s.threads[s.cpus[k].spc.p].tick.TNone?
    ensures var w := BaseWants(s, s.cpus[k].spc.p, s.threads[s.cpus[k].spc.p].base); w.Some? ==> !Taken(s, w.value)
  {
    hide BaseCode, BaseWants, Changed;
    var me := s.cpus[k].spc.p;
    var w := BaseWants(s, me, s.threads[me].base);
    if w.Some? { BaseBlocks(s, me, s.threads[me].base, op, pc); }
  }

  lemma IrqStepBlocks(s: State, k: nat, op: Op, irq: Irq, end: TickEnd, s': State)
    requires IrqStep(s, k, op, irq, end, s')
    ensures k < |s.cpus| && !s.cpus[k].irq.INone?
    ensures var w := IrqWants(s, s.cpus[k].cproc, s.cpus[k].irq); w.Some? ==> !Taken(s, w.value)
  {
    hide IrqCode, IrqWants, Changed, ChargeChoice;
    var w := IrqWants(s, s.cpus[k].cproc, s.cpus[k].irq);
    if w.Some? { IrqBlocks(s, s.cpus[k].cproc, s.cpus[k].irq, op, irq); }
  }

  // ---------- The order ----------

  function Rank(l: Lock): nat { if l.ProcLock? then l.i + 1 else 0 }

  /** allocproc, about to read `ticks` under tickslock while it holds the new slot's lock. */
  ghost predicate AtAllocInit(a: AState, k: nat)
    requires AShape(a) && k < |a.sched|
  {
    var cpu := a.core.cpus[k];
    && cpu.irq.INone? && cpu.spc.SRun? && cpu.spc.p < |a.core.procs|
    && a.core.threads[cpu.spc.p].tick.TNone? && IsFork(a.core.threads[cpu.spc.p].base, AllocInit)
  }

  lemma ThreadOrder(s: State, k: nat, p: nat, l: Lock)
    requires Safe(s) && k < |s.cpus| && s.cpus[k].spc == SRun(p) && s.cpus[k].irq.INone? && p < |s.procs|
    requires ThreadWants(s, p, s.threads[p]).Some? && Owns(s, k, l)
    requires !(s.threads[p].tick.TNone? && IsFork(s.threads[p].base, AllocInit))
    ensures Rank(l) < Rank(ThreadWants(s, p, s.threads[p]).value)
  {
    hide RunOk, StateOk, ForkOk, StillPausing, LockOk, GlobalLockOk, QuietOk;
    OwnsHolds(s, k, l);
    if !s.threads[p].tick.TNone? { TickQuiet(s, p); QuietHoldsNothing(p, s.threads[p].base); }
  }

  lemma TickQuiet(s: State, p: nat)
    requires Safe(s) && p < |s.procs| && !s.threads[p].tick.TNone?
    ensures Quiet(s.threads[p].base)
  {
    hide RunOk, StateOk, ForkOk, LockOk, GlobalLockOk;
  }

  lemma OwnsHolds(s: State, k: nat, l: Lock)
    requires Safe(s) && Owns(s, k, l)
    ensures k < |s.cpus|
    ensures match l
      case WaitLock => HoldsW(s, k)
      case TicksLock => HoldsT(s, k)
      case ProcLock(i) => Holds(s, k, i)
  {
    hide RunOk, StateOk, ForkOk, QuietOk, Holds, HoldsW, HoldsT;
  }

  lemma HandlerOrder(s: State, k: nat, l: Lock)
    requires Safe(s) && k < |s.cpus| && !s.cpus[k].irq.INone?
    requires IrqWants(s, s.cpus[k].cproc, s.cpus[k].irq).Some? && Owns(s, k, l)
    ensures Rank(l) < Rank(IrqWants(s, s.cpus[k].cproc, s.cpus[k].irq).value)
  {
    hide StateOk, ForkOk, LockOk, GlobalLockOk;
    OwnsHolds(s, k, l);
    if l.ProcLock? { IrqHolds(s, k, l.i); }
    if s.cpus[k].spc.SRun? { QuietHoldsNothing(s.cpus[k].spc.p, s.threads[s.cpus[k].spc.p].base); }
  }

  lemma ScanOrder(a: AState, k: nat, l: Lock)
    requires AOk(a) && k < |a.sched| && a.sched[k].Scan? && a.sched[k].p < |a.core.procs| && Owns(a.core, k, l)
    ensures Rank(l) < Rank(ProcLock(a.sched[k].p))
  {
    hide Safe;
    assert Agrees(a.core, a.sched[k], a.core.cpus[k]);
    ScanHolds(a.core, k);
  }

  /** What a CPU waits for ranks above everything that it holds. */
  lemma Ascending(a: AState, k: nat, l: Lock)
    requires AOk(a) && k < |a.sched| && Wants(a, k).Some? && Owns(a.core, k, l) && !AtAllocInit(a, k)
    ensures Rank(l) < Rank(Wants(a, k).value)
  {
    hide Safe, ThreadWants, IrqWants, Owns;
    var s := a.core;
    assert Agrees(s, a.sched[k], s.cpus[k]);
    if !s.cpus[k].irq.INone? {
      HandlerOrder(s, k, l);
    } else if a.sched[k].Scan? {
      ScanOrder(a, k, l);
    } else {
      ThreadOrder(s, k, s.cpus[k].spc.p, l);
    }
  }

  // ---------- No cycle ----------

  /** CPU j waits for a lock that CPU k owns. */
  ghost predicate WaitsFor(a: AState, j: nat, k: nat)
    requires AShape(a)
  {
    j < |a.sched| && k < |a.sched| && Wants(a, j).Some? && Owns(a.core, k, Wants(a, j).value)
  }

  ghost predicate Cycle(a: AState, c: seq<nat>)
    requires AShape(a)
  {
    && |c| > 0
    && (forall i, j {:trigger WaitsFor(a, c[i], c[j])} :: 0 <= i && j == i + 1 < |c| ==> WaitsFor(a, c[i], c[j]))
    && WaitsFor(a, c[|c| - 1], c[0])
  }

  lemma OkShape(a: AState)
    requires AOk(a)
    ensures AShape(a) && |a.sched| == |a.core.cpus|
  {
  }

  lemma {:induction false} RanksClimb(a: AState, c: seq<nat>, i: nat)
    requires AOk(a) && Cycle(a, c) && i < |c|
    requires forall j :: 0 <= j < |c| ==> c[j] < |a.sched| && !AtAllocInit(a, c[j])
    ensures Wants(a, c[i]).Some? && Wants(a, c[0]).Some?
    ensures Rank(Wants(a, c[i]).value) >= Rank(Wants(a, c[0]).value) + i
  {
    hide AOk, AtAllocInit, Wants, Owns, AShape;
    OkShape(a);
    assert i + 1 < |c| ==> WaitsFor(a, c[i], c[i + 1]);
    if i > 0 {
      RanksClimb(a, c, i - 1);
      assert WaitsFor(a, c[i - 1], c[i]);
      Ascending(a, c[i], Wants(a, c[i - 1]).value);
    } else {
      assert |c| > 1 ==> WaitsFor(a, c[0], c[1]);
    }
  }

  /** Scanning CPUs and code that follows the lock order never form a wait cycle: a deadlock
      needs allocproc between its two locks. */
  lemma DeadlockNeedsAlloc(tr: seq<AState>, i: nat, c: seq<nat>)
    requires ARun(tr) && i < |tr| && AShape(tr[i]) && Cycle(tr[i], c)
    ensures exists j :: 0 <= j < |c| && c[j] < |tr[i].sched| && AtAllocInit(tr[i], c[j])
  {
    hide AOk, AtAllocInit, Wants, Owns, AShape;
    RunIsOk(tr, i);
    var a, n := tr[i], |c|;
    OkShape(a);
    forall j | 0 <= j < n ensures c[j] < |a.sched| {
      if j + 1 < n { assert WaitsFor(a, c[j], c[j + 1]); }
    }
    if forall j :: 0 <= j < n ==> !AtAllocInit(a, c[j]) {
      RanksClimb(a, c, n - 1);
      Ascending(a, c[0], Wants(a, c[n - 1]).value);
    }
  }

  // ---------- Which chains close ----------

  /** The slot that the process on CPU k is allocating. */
  function AllocSlot(a: AState, k: nat): nat
    requires k < |a.core.cpus| && a.core.cpus[k].spc.SRun? && a.core.cpus[k].spc.p < |a.core.threads|
    requires a.core.threads[a.core.cpus[k].spc.p].base.InFork?
  {
    a.core.threads[a.core.cpus[k].spc.p].base.i
  }

  /** Every CPU of the chain waits for the next. */
  ghost predicate Chain(a: AState, c: seq<nat>)
    requires AShape(a)
  {
    && |c| > 1
    && forall i, j {:trigger WaitsFor(a, c[i], c[j])} :: 0 <= i && j == i + 1 < |c| ==> WaitsFor(a, c[i], c[j])
  }

  /** The owner of tickslock waits, over any number of CPUs, for the lock of the slot that a
      CPU in the middle of allocproc is allocating. */
  ghost predicate ClosingChain(a: AState, c: seq<nat>)
    requires AShape(a)
  {
    && Chain(a, c)
    && c[0] < |a.sched| && Owns(a.core, c[0], TicksLock)
    && c[|c| - 1] < |a.sched| && AtAllocInit(a, c[|c| - 1])
    && c[|c| - 2] < |a.sched| && Wants(a, c[|c| - 2]) == Some(ProcLock(AllocSlot(a, c[|c| - 1])))
  }

  /** In the middle of allocproc a CPU owns the new slot's lock only and wants tickslock. */
  lemma AllocOwns(a: AState, k: nat, l: Lock)
    requires AOk(a) && k < |a.sched| && AtAllocInit(a, k)
    ensures Wants(a, k) == Some(TicksLock)
    ensures Owns(a.core, k, l) ==> l == ProcLock(AllocSlot(a, k))
  {
    hide RunOk, StateOk, ForkOk, LockOk, GlobalLockOk, QuietOk;
    assert Agrees(a.core, a.sched[k], a.core.cpus[k]);
    if Owns(a.core, k, l) { OwnsHolds(a.core, k, l); }
  }

  lemma CycleCpus(a: AState, c: seq<nat>)
    requires AShape(a) && Cycle(a, c)
    ensures forall j :: 0 <= j < |c| ==> c[j] < |a.sched|
  {
    hide Wants, Owns;
    forall j | 0 <= j < |c| ensures c[j] < |a.sched| {
      if j + 1 < |c| { assert WaitsFor(a, c[j], c[j + 1]); }
    }
  }

  /** The same cycle, starting after its j-th CPU. */
  lemma Rotated(a: AState, c: seq<nat>, j: nat)
    requires AShape(a) && Cycle(a, c) && j < |c|
    ensures var r := c[j + 1..] + c[..j + 1]; Cycle(a, r) && |r| == |c| && r[|r| - 1] == c[j]
  {
    hide WaitsFor;
    var r, n := c[j + 1..] + c[..j + 1], |c|;
    forall x, y | 0 <= x && y == x + 1 < n ensures WaitsFor(a, r[x], r[y]) {
      var d := n - j - 1;
      var u := if x < d then j + 1 + x else x - d;
      var v := if y < d then j + 1 + y else y - d;
      assert r[x] == c[u] && r[y] == c[v];
      if u + 1 == v { assert WaitsFor(a, c[u], c[v]); }
    }
    if j + 1 < n {
      assert r[0] == c[j + 1];
      assert WaitsFor(a, c[j], c[j + 1]);
    }
  }

  lemma CycleCloses(a: AState, c: seq<nat>)
    requires AOk(a) && Cycle(a, c) && c[|c| - 1] < |a.sched| && AtAllocInit(a, c[|c| - 1])
    ensures ClosingChain(a, c)
  {
    hide AOk, AtAllocInit, Wants, Owns;
    OkShape(a);
    var n := |c|;
    var k := c[n - 1];
    AllocOwns(a, k, TicksLock);
    if n == 1 {
      assert false;
    } else {
      assert WaitsFor(a, c[n - 2], c[n - 1]);
      AllocOwns(a, k, Wants(a, c[n - 2]).value);
    }
  }

  lemma ChainCloses(a: AState, c: seq<nat>)
    requires AOk(a) && ClosingChain(a, c)
    ensures Cycle(a, c)
  {
    hide AOk, AtAllocInit, Wants, Owns;
    OkShape(a);
    AllocOwns(a, c[|c| - 1], TicksLock);
  }

  /** CPUs wait for each other for ever if and only if the owner of tickslock waits for the
      slot that is being allocated. */
  lemma DeadlockExactly(tr: seq<AState>, i: nat)
    requires ARun(tr) && i < |tr| && AShape(tr[i])
    ensures (exists c :: Cycle(tr[i], c)) <==> (exists c :: ClosingChain(tr[i], c))
  {
    hide AOk, Cycle, ClosingChain, AtAllocInit;
    RunIsOk(tr, i);
    var a := tr[i];
    if c :| Cycle(a, c) {
      DeadlockNeedsAlloc(tr, i, c);
      var j :| 0 <= j < |c| && c[j] < |a.sched| && AtAllocInit(a, c[j]);
      Rotated(a, c, j);
      CycleCloses(a, c[j + 1..] + c[..j + 1]);
    }
    if c :| ClosingChain(a, c) {
      ChainCloses(a, c);
    }
  }
}
