/**
 What a system call has done when it stands at a place: kkill has marked and woken its
 victim, kwait and waitx have freed the child they report, kfork has a linked RUNNABLE child,
 wakeup has left nobody asleep behind it. Each is a fact about the slot whose lock the call
 holds, or about fields that only the call itself can change there.
 */
module KernelCalls {
  import opened Kernel
  import opened KernelLocks
  import opened KernelSafe
  import opened KernelTree
  import opened KernelWait
  import opened KernelCounts
  import opened Refinement

  // ---------- The invariant ----------

  predicate WakeKnows(w: Wake, pr: Proc) {
    && (w.ph.Woken? ==> pr.state.RUNNABLE?)
    && (w.ph.Leave? ==> !(pr.state.SLEEPING? && pr.chan == w.chan))
  }

  /** The slot is as freeproc leaves it. */
  predicate Freed(pr: Proc) {
    pr.state.UNUSED? && pr.pid == 0 && pr.parent.None? && pr.chan.NoChan? && pr.killed.No?
  }

  /** What process x at pc knows about the slot whose lock it holds. */
  predicate Knows(x: nat, pc: Pc, pr: Proc) {
    match pc
    case InFork(_, ph) =>
      && (ph.AllocInit? || ph.AllocMem? ==> pr.state.USED? && pr.parent.None?)
      && (ph.AllocFail? ==> Freed(pr))
      && (ph.ForkHeld? ==> pr.state.USED? && pr.parent == Some(x))
      && (ph.ForkPush? || ph.ForkRel? ==> pr.state.RUNNABLE? && pr.parent == Some(x))
    case InWait(_, _, _, ph) =>
      && (ph.WaitHeld? ==> pr.parent == Some(x))
      && (ph.WaitReaped? ==> Freed(pr))
      && (ph.WaitFault? ==> pr.parent == Some(x) && pr.state.ZOMBIE?)
    case InExit(_, w, ph) => ph.RepWake? || ph.ExWake? ==> WakeKnows(w, pr)
    case InKill(v, _, ph) =>
      && (ph.KillSet? || ph.KillPush? || ph.KillRel? ==> pr.pid == v && pr.killed.Yes?)
      && (ph.KillPush? ==> pr.state.RUNNABLE?)
      && (ph.KillRel? ==> !pr.state.SLEEPING?)
    case _ => true
  }

  /** Slot q is a child of x. */
  ghost predicate Kid(s: State, x: nat, q: nat)
    requires Shape(s) && q < |s.procs|
  {
    s.procs[q].parent == Some(x)
  }

  ghost predicate KidBelow(s: State, x: nat, n: nat)
    requires Shape(s)
  {
    exists q {:trigger Kid(s, x, q)} :: 0 <= q < |s.procs| && q < n && Kid(s, x, q)
  }

  /** What kwait and waitx know about the children of x while they hold wait_lock. */
  ghost predicate KidsKnown(s: State, x: nat)
    requires Shape(s) && x < |s.procs|
  {
    var pc := s.threads[x].base;
    pc.InWait? ==>
      && (pc.wait.WaitScan? || pc.wait.WaitHeld? ==> (pc.kids.HasKids? <==> KidBelow(s, x, pc.child)))
      && (pc.wait.WaitFault? ==> pc.caller.Kwait? && pc.child < |s.procs|)
      && (pc.wait.WaitFail? ==>
            if pc.child < |s.procs| then pc.caller.Kwait? && Kid(s, x, pc.child) && s.procs[pc.child].state.ZOMBIE?
            else s.procs[x].killed.Yes? || !KidBelow(s, x, |s.procs|))
  }

  ghost predicate CallOk(s: State, x: nat)
    requires Shape(s) && x < |s.procs|
  {
    var pc := s.threads[x].base;
    && (BaseLock(x, pc).Some? && BaseLock(x, pc).value < |s.procs| ==>
          Knows(x, pc, s.procs[BaseLock(x, pc).value]))
    && (pc.InPause? && pc.pause.PauseFail? ==> s.procs[x].killed.Yes?)
    && KidsKnown(s, x)
  }

  ghost predicate HandlerOk(s: State, k: nat)
    requires Shape(s) && k < |s.cpus|
  {
    var irq := s.cpus[k].irq;
    irq.IWake? && irq.w.j < |s.procs| ==> WakeKnows(irq.w, s.procs[irq.w.j])
  }

  ghost predicate CallsOk(s: State)
    requires Shape(s)
  {
    && (forall x {:trigger CallOk(s, x)} :: 0 <= x < |s.procs| ==> CallOk(s, x))
    && (forall k {:trigger HandlerOk(s, k)} :: 0 <= k < |s.cpus| ==> HandlerOk(s, k))
  }

  lemma CallKnown(s: State, x: nat)
    requires Shape(s) && CallsOk(s) && x < |s.procs|
    ensures CallOk(s, x)
  {
    hide CallOk, HandlerOk;
  }

  lemma HandlerKnown(s: State, k: nat)
    requires Shape(s) && CallsOk(s) && k < |s.cpus|
    ensures HandlerOk(s, k)
  {
    hide CallOk, HandlerOk;
  }

  // ---------- Who can interfere ----------

  /** Places about which CallOk says something. */
  predicate Busy(pc: Pc) {
    && !Quiet(pc)
    && (pc.InFork? || pc.InWait? || pc.InKill? || pc.InPause? || IsExit(pc, RepWake) || IsExit(pc, ExWake))
  }

  lemma IdleCall(s: State, x: nat)
    requires Shape(s) && x < |s.procs| && !Busy(s.threads[x].base)
    ensures CallOk(s, x)
  {
  }

  /** A process at a busy place is executing and its CPU takes no interrupts. */
  lemma BusyLoaded(s: State, x: nat)
    requires Safe(s) && x < |s.procs| && Busy(s.threads[x].base)
    ensures s.threads[x].tick.TNone? && s.threads[x].on.Some?
    ensures var k := s.threads[x].on.value; k < |s.cpus| && s.cpus[k].spc == SRun(x) && s.cpus[k].irq.INone?
  {
    hide LockOk, GlobalLockOk, ForkOk, Quiet;
    SlotStays(s, x);
    assert s.threads[x].on.Some? ==> s.cpus[s.threads[x].on.value].spc == SRun(x);
  }

  /** The step is process x's own. */
  ghost predicate Own(s: State, st: Step, x: nat) {
    st.BaseGo? && st.k < |s.cpus| && s.cpus[st.k].spc == SRun(x)
  }

  /** While process x is at a busy place its CPU takes no other steps. */
  lemma OnlyOwn(s: State, st: Step, s': State, x: nat)
    requires Safe(s) && NextStep(s, st, s') && x < |s.procs| && Busy(s.threads[x].base) && !Own(s, st, x)
    ensures s.threads[x].on.Some? && st.k != s.threads[x].on.value
  {
    hide RunOk, LockOk, GlobalLockOk, ForkOk, QuietOk, StateOk, Quiet, BaseCode, TickCode, IrqCode, Changed,
        ChargeChoice;
    BusyLoaded(s, x);
  }

  lemma BusyLocks(s: State, x: nat)
    requires Safe(s) && x < |s.procs| && Busy(s.threads[x].base)
    ensures s.threads[x].on.Some?
    ensures var k, l := s.threads[x].on.value, BaseLock(x, s.threads[x].base);
      l.Some? ==> l.value < |s.procs| && s.plock[l.value] == Some(k)
    ensures BaseW(s.threads[x].base) ==> s.waitLk == s.threads[x].on
  {
    hide Safe, Busy;
    BusyLoaded(s, x);
    SafeShape(s);
    LocksHeld(s, s.threads[x].on.value, x);
  }

  lemma LocksHeld(s: State, k: nat, me: nat)
    requires Safe(s) && Running(s, k, me) && s.threads[me].tick.TNone?
    ensures BaseLock(me, s.threads[me].base).Some? ==>
      BaseLock(me, s.threads[me].base).value < |s.procs| && s.plock[BaseLock(me, s.threads[me].base).value] == Some(k)
    ensures BaseW(s.threads[me].base) ==> s.waitLk == Some(k)
  {
    hide RunOk, QuietOk, StateOk, ForkOk, LockOk, GlobalLockOk, BaseLock, BaseW;
    HeldByBase(s, k, me);
  }

  // ---------- A locked slot ----------

  /** The fields that only the holder of the slot's lock writes. */
  predicate SameLocked(pr: Proc, pr': Proc) {
    pr'.state == pr.state && pr'.chan == pr.chan && pr'.killed == pr.killed && pr'.pid == pr.pid
  }

  lemma OthersWrite(s: State, k: nat, mine: Option<nat>, me: nat, op: Op, s': State, q: nat)
    requires Wrote(s, me, op, s') && Permitted(s, k, mine, op) && Enabled(s, op)
    requires q < |s.procs| && s.plock[q].Some? && s.plock[q] != Some(k)
    ensures SameLocked(s.procs[q], s'.procs[q])
    ensures !op.SetParent? ==> s'.procs[q].parent == s.procs[q].parent
  {
  }

  lemma OwnFacts(s: State, st: Step, s': State)
    requires Safe(s) && NextStep(s, st, s') && st.BaseGo?
    ensures Shape(s) && st.k < |s.cpus| && s.cpus[st.k].spc.SRun?
    ensures var me := s.cpus[st.k].spc.p;
      && Running(s, st.k, me) && s.threads[me].tick.TNone? && BaseCode(s, me, s.threads[me].base, st.op, st.pc)
      && Enabled(s, st.op) && TreeStep(s, st.k, me, st.op, s')
      && Stepped(s, me, st.op, s.threads[me].(base := st.pc), s')
      && Shape(s') && |s'.procs| == |s.procs|
  {
    hide Safe, BaseEffect, BaseCode, TreeStep, Stepped, MovesWell;
    RunningCpu(s, st.k, st.op, st.pc, s');
    BaseFacts(s, st.k, st.op, st.pc, s');
    BaseRunning(s, st.k, s.cpus[st.k].spc.p, st.op, st.pc, s');
    NextPlace(s, s.cpus[st.k].spc.p, st.op, s.threads[s.cpus[st.k].spc.p].(base := st.pc), s');
  }

  lemma NextPlace(s: State, me: nat, op: Op, th': Thread, s': State)
    requires Stepped(s, me, op, th', s')
    ensures Shape(s') && |s'.procs| == |s.procs|
  {
  }

  /** Of the tree only parents change in a step of a process that is not to set them. */
  ghost predicate SetsParent(st: Step) { st.BaseGo? && st.op.SetParent? }

  /** A slot whose lock another CPU holds keeps what the lock protects. */
  lemma LockedStays(s: State, st: Step, s': State, q: nat)
    requires Safe(s) && NextStep(s, st, s') && q < |s.procs| && s.plock[q].Some? && s.plock[q] != Some(st.k)
    ensures q < |s'.procs| && SameLocked(s.procs[q], s'.procs[q])
    ensures !SetsParent(st) ==> s'.procs[q].parent == s.procs[q].parent
  {
    hide Safe, BaseStep, TickStep, IrqStep, TimerStep, DeviceStep, SwtchStep, ClearStep, DispatchStep, SchedAcqStep,
        SchedRelStep, TreeStep, Stepped, BaseCode;
    match st {
      case BaseGo(k, op, pc) => OwnFacts(s, st, s'); BaseOthersWrite(s, k, s.cpus[k].spc.p, op, s', q);
      case TickGo(k, op, pc) => TickLocked(s, k, op, pc, s', q);
      case IrqGo(k, op, irq, end) => IrqLocked(s, k, op, irq, end, s', q);
      case Dispatch(k, x) => DispatchLocked(s, k, x, s', q);
      case _ => SchedLocked(s, st, s', q);
    }
  }

  lemma BaseOthersWrite(s: State, k: nat, me: nat, op: Op, s': State, q: nat)
    requires TreeStep(s, k, me, op, s') && Enabled(s, op) && q < |s.procs|
    requires s.plock[q].Some? && s.plock[q] != Some(k)
    ensures q < |s'.procs| && SameLocked(s.procs[q], s'.procs[q])
    ensures !op.SetParent? ==> s'.procs[q].parent == s.procs[q].parent
  {
    hide Permitted, ForkOwned, TreeMove, Changed, Enabled;
    OthersWrite(s, k, Some(me), me, op, s', q);
  }

  lemma TickLocked(s: State, k: nat, op: Op, pc': TickPc, s': State, q: nat)
    requires Safe(s) && TickStep(s, k, op, pc', s') && q < |s.procs| && s.plock[q].Some? && s.plock[q] != Some(k)
    ensures q < |s'.procs| && SameLocked(s.procs[q], s'.procs[q]) && s'.procs[q].parent == s.procs[q].parent
  {
    hide Safe, Permitted, TickEffect, TickCode, Wrote, Stepped;
    var me := s.cpus[k].spc.p;
    TickRunning(s, k, me, op, pc', s');
    TickPermitted(s, k, me, op, pc');
    TickCharges(s, me, op, pc');
    TickWrites(s, k, me, op, pc', s');
    TickOps(s, me, op, pc');
    TickEnabled(s, k, me, op, pc', s');
    WroteSize(s, me, op, s');
    OthersWrite(s, k, Some(me), me, op, s', q);
  }

  lemma TickEnabled(s: State, k: nat, me: nat, op: Op, pc': TickPc, s': State)
    requires TickEffect(s, k, me, op, pc', s')
    ensures Enabled(s, op)
  {
    hide Changed;
  }

  lemma WroteSize(s: State, me: nat, op: Op, s': State)
    requires Wrote(s, me, op, s')
    ensures Shape(s) && me < |s.procs| && Shape(s') && |s'.procs| == |s.procs| && |s'.cpus| == |s.cpus|
  {
    hide Changed;
  }

  lemma IrqLocked(s: State, k: nat, op: Op, irq': Irq, end: TickEnd, s': State, q: nat)
    requires Safe(s) && IrqStep(s, k, op, irq', end, s') && q < |s.procs| && s.plock[q].Some? && s.plock[q] != Some(k)
    ensures q < |s'.procs| && SameLocked(s.procs[q], s'.procs[q]) && s'.procs[q].parent == s.procs[q].parent
  {
    hide Safe, Permitted, IrqEffect, IrqCode, Wrote, IrqFrame, ChargeChoice;
    IrqRunning(s, k, op, irq', end, s');
    IrqPermitted(s, k, op, irq');
    IrqWrites(s, k, op, irq', end, s');
    IrqEnabled(s, k, op, irq', end, s');
    WroteSize(s, INIT, op, s');
    OthersWrite(s, k, s.cpus[k].cproc, INIT, op, s', q);
  }

  lemma IrqEnabled(s: State, k: nat, op: Op, irq': Irq, end: TickEnd, s': State)
    requires IrqEffect(s, k, op, irq', end, s')
    ensures Enabled(s, op)
  {
    hide Changed;
  }

  lemma DispatchLocked(s: State, k: nat, x: nat, s': State, q: nat)
    requires Safe(s) && DispatchStep(s, k, x, s') && q < |s.procs| && s.plock[q] != Some(k)
    ensures q < |s'.procs| && s'.procs[q] == s.procs[q]
  {
    hide Safe;
    DispatchFree(s, k, x);
  }

  lemma SchedLocked(s: State, st: Step, s': State, q: nat)
    requires NextStep(s, st, s') && q < |s.procs| && !st.BaseGo? && !st.TickGo? && !st.IrqGo? && !st.Dispatch?
    ensures q < |s'.procs| && s'.procs[q] == s.procs[q]
  {
    hide BaseStep, TickStep, IrqStep, DispatchStep, Quiet, ChargeChoice;
  }

  // ---------- Parents ----------

  /** Where the code frees a slot. */
  lemma FreeFrom(s: State, me: nat, pc: Pc, op: Op, pc': Pc)
    requires Shape(s) && me < |s.procs| && BaseCode(s, me, pc, op, pc') && op.Free?
    ensures (IsFork(pc, AllocMem) && op.q == pc.i) || (pc.InWait? && pc.wait.WaitHeld? && op.q == pc.child)
  {
    hide StillPausing, WakeCode, SleepCode, ExitCode;
    match pc {
      case InSleep(_, _) => SleepFreesNot(s, me, pc, op, pc');
      case InExit(_, _, _) => ExitFreesNot(s, me, pc, op, pc');
      case _ =>
    }
  }

  lemma SleepFreesNot(s: State, me: nat, pc: Pc, op: Op, pc': Pc)
    requires Shape(s) && me < |s.procs| && pc.InSleep? && SleepCode(s, me, pc, op, pc')
    ensures !op.Free?
  {
  }

  lemma ExitFreesNot(s: State, me: nat, pc: Pc, op: Op, pc': Pc)
    requires Shape(s) && me < |s.procs| && pc.InExit? && ExitCode(s, me, pc, op, pc')
    ensures !op.Free?
  {
  }

  /** Another process changes the parent of q only if it links the child it is forking, or
      hands over a child of its own. */
  lemma ParentMoves(s: State, st: Step, s': State, q: nat)
    requires Safe(s) && CallsOk(s) && NextStep(s, st, s') && q < |s.procs| == |s'.procs|
    requires s'.procs[q].parent != s.procs[q].parent
    ensures st.BaseGo? && st.k < |s.cpus| && s.cpus[st.k].spc.SRun? && s.cpus[st.k].spc.p < |s.procs|
    ensures var me := s.cpus[st.k].spc.p;
      && BaseW(s.threads[me].base)
      && (|| (ForkSlot(s.threads[me].base) == Some(q) && s.procs[q].state.USED?)
          || s.procs[q].parent == Some(me))
  {
    hide Safe, BaseCode, TreeStep, Stepped, NextStep, CallsOk, BasesStay, BaseLock;
    if st.BaseGo? {
      OwnFacts(s, st, s');
      var me := s.cpus[st.k].spc.p;
      CallKnown(s, me);
      BaseParents(s, st.k, me, st.op, st.pc, s', q);
    } else {
      OtherStepsStay(s, st, s');
      StaysParent(s, s', q);
    }
  }

  lemma StaysParent(s: State, s': State, q: nat)
    requires BasesStay(s, s') && q < |s.procs|
    ensures Shape(s') && |s'.procs| == |s.procs| && s'.procs[q].parent == s.procs[q].parent
    ensures s'.procs[q].state.ZOMBIE? <==> s.procs[q].state.ZOMBIE?
  {
    hide Quiet;
  }

  lemma BaseParents(s: State, k: nat, me: nat, op: Op, pc': Pc, s': State, q: nat)
    requires Safe(s) && Running(s, k, me) && CallOk(s, me) && BaseCode(s, me, s.threads[me].base, op, pc')
    requires TreeStep(s, k, me, op, s') && q < |s.procs| == |s'.procs|
    requires s'.procs[q].parent != s.procs[q].parent
    ensures var pc := s.threads[me].base;
      && BaseW(pc)
      && ((ForkSlot(pc) == Some(q) && s.procs[q].state.USED?) || s.procs[q].parent == Some(me))
  {
    hide Safe, BaseCode, Permitted, ForkOwned;
    if op.Free? { FreeFrom(s, me, s.threads[me].base, op, pc'); }
    SetParentFrom(s, me, op);
  }

  lemma SetParentFrom(s: State, me: nat, op: Op)
    requires Safe(s) && me < |s.procs| && TreeMove(s, me, s.threads[me].base, op)
    ensures op.SetParent? ==> op.q < |s.procs| && BaseW(s.threads[me].base)
    ensures op.SetParent? ==>
        || (ForkSlot(s.threads[me].base) == Some(op.q) && s.procs[op.q].state.USED?)
        || s.procs[op.q].parent == Some(me)
  {
    hide RunOk, QuietOk, LockOk, GlobalLockOk, StateOk;
    if op.SetParent? && IsFork(s.threads[me].base, ForkSet) { OwnKnown(s, me); }
  }

  // ---------- Other processes' calls stay as they are ----------

  /** Places that a thread is put into by others: created, or saved by swtch. */
  predicate Saved(pc: Pc) { pc.ForkRet? || pc.Dead? || IsSleep(pc, SleepBack) }

  /** Otherwise the place of a process changes only in its own steps. */
  lemma PlaceKept(s: State, st: Step, s': State, x: nat)
    requires Safe(s) && NextStep(s, st, s') && x < |s.procs| == |s'.procs| == |s'.threads| && !Own(s, st, x)
    ensures s'.threads[x].base == s.threads[x].base || Saved(s'.threads[x].base)
  {
    hide Safe, BaseCode, TreeStep, NextStep, BasesStay;
    if st.BaseGo? {
      OwnFacts(s, st, s');
    } else {
      OtherStepsStay(s, st, s');
      PlaceStays(s, s', x);
    }
  }

  lemma PlaceStays(s: State, s': State, x: nat)
    requires BasesStay(s, s') && x < |s.procs|
    ensures s'.threads[x].base == s.threads[x].base || Saved(s'.threads[x].base)
  {
    hide Quiet;
  }

  /** Nobody else links or frees a slot that process x has locked for its call. */
  lemma ParentKept(s: State, st: Step, s': State, x: nat)
    requires Safe(s) && CallsOk(s) && NextStep(s, st, s') && x < |s.procs| == |s'.procs|
    requires Busy(s.threads[x].base) && !Own(s, st, x)
    ensures var l := BaseLock(x, s.threads[x].base);
      l.Some? && l.value < |s.procs| && Knows(x, s.threads[x].base, s.procs[l.value]) ==>
        Knows(x, s.threads[x].base, s.procs[l.value].(parent := s'.procs[l.value].parent))
  {
    hide RunOk, QuietOk, LockOk, GlobalLockOk, StateOk, Busy, NextStep, CallsOk;
    var pc := s.threads[x].base;
    var l := BaseLock(x, pc);
    if l.Some? && l.value < |s.procs| && s'.procs[l.value].parent != s.procs[l.value].parent {
      ParentMoves(s, st, s', l.value);
      var me := s.cpus[st.k].spc.p;
      if BaseW(pc) { OnlyHolder(s, st, x); }
      if ForkSlot(pc).Some? && me != x { ForkKnown(s, x, me); }
    }
  }

  /** The holder of wait_lock is the only process in its critical sections. */
  lemma OnlyHolder(s: State, st: Step, x: nat)
    requires Safe(s) && x < |s.procs| && Busy(s.threads[x].base) && BaseW(s.threads[x].base)
    requires st.BaseGo? && st.k < |s.cpus| && s.cpus[st.k].spc.SRun? && !Own(s, st, x)
    ensures s.cpus[st.k].spc.p < |s.procs| ==> !BaseW(s.threads[s.cpus[st.k].spc.p].base)
  {
    hide QuietOk, LockOk, ForkOk, StateOk, Busy, BaseW;
    BusyLocks(s, x);
    BusyLoaded(s, x);
    assert HoldsW(s, st.k) ==> s.waitLk == Some(st.k);
  }

  lemma KnowsSame(x: nat, pc: Pc, pr: Proc, pr': Proc)
    requires Knows(x, pc, pr.(parent := pr'.parent)) && SameLocked(pr, pr')
    ensures Knows(x, pc, pr')
  {
  }

  lemma LockPartKept(s: State, st: Step, s': State, x: nat)
    requires Safe(s) && CallsOk(s) && NextStep(s, st, s') && x < |s.procs| == |s'.procs| == |s'.threads|
    requires Busy(s.threads[x].base) && !Own(s, st, x)
    ensures var l := BaseLock(x, s.threads[x].base);
      l.Some? && l.value < |s.procs| ==> Knows(x, s.threads[x].base, s'.procs[l.value])
  {
    hide Safe, CallsOk, NextStep, Knows, Busy, BaseLock, SameLocked, KidsKnown, BaseW;
    SafeShape(s);
    CallKnown(s, x);
    OnlyOwn(s, st, s', x);
    BusyLocks(s, x);
    var pc := s.threads[x].base;
    var l := BaseLock(x, pc);
    if l.Some? && l.value < |s.procs| {
      LockedStays(s, st, s', l.value);
      ParentKept(s, st, s', x);
      KnowsSame(x, pc, s.procs[l.value], s'.procs[l.value]);
    }
  }

  /** A process at a busy place is neither being created nor dead. */
  lemma BusyRuns(s: State, x: nat)
    requires Safe(s) && x < |s.procs| && Busy(s.threads[x].base)
    ensures s.procs[x].state.RUNNING?
  {
    hide LockOk, GlobalLockOk, ForkOk, QuietOk, RunOk, Quiet;
    BusyLoaded(s, x);
    SlotStays(s, x);
  }

  /** Only freeproc clears `killed`. */
  lemma KilledKept(s: State, st: Step, s': State, x: nat)
    requires Safe(s) && NextStep(s, st, s') && x < |s.procs| == |s'.procs|
    requires s.procs[x].state.RUNNING? && s.procs[x].killed.Yes?
    ensures s'.procs[x].killed.Yes?
  {
    hide Safe, BaseStep, TickStep, IrqStep, TimerStep, DeviceStep, SwtchStep, ClearStep, SchedAcqStep,
        SchedRelStep, TreeStep, Stepped, BaseCode, TickCode;
    match st {
      case BaseGo(k, op, pc) => OwnFacts(s, st, s'); BaseKilledKept(s, k, s.cpus[k].spc.p, op, s', x);
      case TickGo(k, op, pc) => TickKilledKept(s, k, op, pc, s', x);
      case IrqGo(k, op, irq, end) => IrqKilledKept(s, k, op, irq, end, s', x);
      case Dispatch(k, q) =>
      case _ => SchedLocked(s, st, s', x);
    }
  }

  lemma BaseKilledKept(s: State, k: nat, me: nat, op: Op, s': State, x: nat)
    requires TreeStep(s, k, me, op, s') && x < |s.procs| && s.procs[x].state.RUNNING? && s.procs[x].killed.Yes?
    ensures x < |s'.procs| && s'.procs[x].killed.Yes?
  {
    hide ForkOwned, TreeMove;
  }

  lemma TickKilledKept(s: State, k: nat, op: Op, pc': TickPc, s': State, x: nat)
    requires Safe(s) && TickStep(s, k, op, pc', s') && x < |s.procs| && s.procs[x].killed.Yes?
    ensures x < |s'.procs| && s'.procs[x].killed.Yes?
  {
    hide Safe, TickEffect, TickCode, Stepped;
    TickWrote(s, k, op, pc', s');
  }

  lemma TickWrote(s: State, k: nat, op: Op, pc': TickPc, s': State)
    requires Safe(s) && TickStep(s, k, op, pc', s')
    ensures k < |s.cpus| && s.cpus[k].spc.SRun?
    ensures Wrote(s, s.cpus[k].spc.p, op, s') && TickOp(s.cpus[k].spc.p, op)
    ensures op.Ready? ==> s.procs[op.q].state.RUNNING?
  {
    hide Safe, TickEffect, TickCode, Stepped, Wrote;
    var me := s.cpus[k].spc.p;
    TickRunning(s, k, me, op, pc', s');
    TickCharges(s, me, op, pc');
    TickOps(s, me, op, pc');
    TickWrites(s, k, me, op, pc', s');
    if op.Ready? { YieldRuns(s, k, me, op, pc'); }
  }

  lemma IrqKilledKept(s: State, k: nat, op: Op, irq': Irq, end: TickEnd, s': State, x: nat)
    requires Safe(s) && IrqStep(s, k, op, irq', end, s') && x < |s.procs| && s.procs[x].killed.Yes?
    ensures x < |s'.procs| && s'.procs[x].killed.Yes?
  {
    hide Safe, Permitted, IrqEffect, IrqCode, IrqFrame, ChargeChoice;
    IrqRunning(s, k, op, irq', end, s');
    IrqPermitted(s, k, op, irq');
    IrqWrites(s, k, op, irq', end, s');
  }

  /** While process x holds wait_lock nobody else changes a parent or reaps a zombie. */
  lemma FamilyKept(s: State, st: Step, s': State, x: nat, q: nat)
    requires Safe(s) && CallsOk(s) && NextStep(s, st, s') && x < |s.procs| == |s'.procs| && q < |s.procs|
    requires Busy(s.threads[x].base) && BaseW(s.threads[x].base) && !Own(s, st, x)
    ensures s'.procs[q].parent == s.procs[q].parent
    ensures s.procs[q].state.ZOMBIE? ==> s'.procs[q].state.ZOMBIE?
  {
    hide Safe, CallsOk, NextStep, Busy, BaseW, BasesStay, BaseCode, TreeStep, Stepped, CallOk, HandlerOk;
    if s'.procs[q].parent != s.procs[q].parent {
      ParentMoves(s, st, s', q);
      OnlyHolder(s, st, x);
    }
    if st.BaseGo? {
      OwnFacts(s, st, s');
      OnlyHolder(s, st, x);
      var me := s.cpus[st.k].spc.p;
      CallKnown(s, me);
      if s.procs[q].state.ZOMBIE? { ZombieKept(s, st.k, me, st.op, st.pc, s', q); }
    } else {
      OtherStepsStay(s, st, s');
      StaysParent(s, s', q);
    }
  }

  lemma ZombieKept(s: State, k: nat, me: nat, op: Op, pc': Pc, s': State, q: nat)
    requires Shape(s) && me < |s.procs| && CallOk(s, me) && BaseCode(s, me, s.threads[me].base, op, pc')
    requires TreeStep(s, k, me, op, s') && q < |s.procs| && s.procs[q].state.ZOMBIE? && !BaseW(s.threads[me].base)
    ensures q < |s'.procs| && s'.procs[q].state.ZOMBIE?
  {
    hide BaseCode;
    if op.Free? { FreeFrom(s, me, s.threads[me].base, op, pc'); }
  }

  lemma KidsKept(s: State, st: Step, s': State, x: nat)
    requires Safe(s) && CallsOk(s) && NextStep(s, st, s') && Shape(s') && x < |s.procs| == |s'.procs|
    requires Busy(s.threads[x].base) && !Own(s, st, x) && s'.threads[x].base == s.threads[x].base
    requires s.threads[x].base.InWait?
    ensures KidsKnown(s', x)
  {
    hide Safe, CallsOk, NextStep;
    SafeShape(s);
    CallKnown(s, x);
    BusyRuns(s, x);
    forall q | 0 <= q < |s.procs|
      ensures Kid(s', x, q) == Kid(s, x, q)
      ensures s.procs[q].state.ZOMBIE? ==> s'.procs[q].state.ZOMBIE?
    {
      FamilyKept(s, st, s', x, q);
    }
    if s.procs[x].killed.Yes? { KilledKept(s, st, s', x); }
  }

  lemma CallKept(s: State, st: Step, s': State, x: nat)
    requires Safe(s) && CallsOk(s) && NextStep(s, st, s') && Shape(s') && x < |s.procs| == |s'.procs|
    requires !Own(s, st, x)
    ensures CallOk(s', x)
  {
    hide Safe, CallsOk, NextStep, Knows, BaseLock, KidsKnown, Quiet;
    SafeShape(s);
    CallKnown(s, x);
    if Busy(s'.threads[x].base) {
      PlaceKept(s, st, s', x);
      LockPartKept(s, st, s', x);
      BusyRuns(s, x);
      if s.procs[x].killed.Yes? { KilledKept(s, st, s', x); }
      if s.threads[x].base.InWait? { KidsKept(s, st, s', x); } else { NoKidsKnown(s', x); }
    } else {
      IdleCall(s', x);
    }
  }

  lemma NoKidsKnown(s: State, x: nat)
    requires Shape(s) && x < |s.procs| && !s.threads[x].base.InWait?
    ensures KidsKnown(s, x)
  {
  }

  // ---------- A call's own steps ----------

  lemma ForkKnows(s: State, me: nat, pc: Pc, op: Op, pc': Pc, s': State)
    requires Wrote(s, me, op, s') && pc.InFork? && ForkCode(s, me, pc, op, pc') && pc.i < |s.procs|
    requires BaseLock(me, pc).Some? ==> Knows(me, pc, s.procs[pc.i])
    requires s.procs[pc.i].state.UNUSED? ==> s.procs[pc.i].parent.None?
    requires pc.fork.ForkPub? ==> s.procs[pc.i].state.USED? && s.procs[pc.i].parent == Some(me)
    ensures pc'.InFork? && BaseLock(me, pc').Some? && pc'.i < |s.procs| ==> Knows(me, pc', s'.procs[pc'.i])
  {
  }

  /** What kfork knows of its slot from the invariants about forking and the tree. */
  lemma ForkBefore(s: State, me: nat)
    requires Safe(s) && TreeOk(s) && me < |s.procs| && s.threads[me].base.InFork? && s.threads[me].base.i < |s.procs|
    ensures var pc := s.threads[me].base;
      && (s.procs[pc.i].state.UNUSED? ==> s.procs[pc.i].parent.None?)
      && (pc.fork.ForkPub? ==> s.procs[pc.i].state.USED? && s.procs[pc.i].parent == Some(me))
  {
    hide RunOk, QuietOk, LockOk, GlobalLockOk, StateOk, TreeOk;
    NodeAndThread(s, me);
    NodeAndThread(s, s.threads[me].base.i);
    if s.threads[me].base.fork.ForkPub? { OwnKnown(s, me); }
  }

  lemma WaitKnows(s: State, me: nat, op: Op, pc': Pc, s': State)
    requires Wrote(s, me, op, s') && CallOk(s, me) && s.threads[me].base.InWait?
    requires WaitCode(s, me, s.threads[me].base, op, pc') && pc'.InWait? && pc'.child < |s.procs|
    ensures BaseLock(me, pc').Some? ==> Knows(me, pc', s'.procs[pc'.child])
  {
  }

  lemma KillKnows(s: State, me: nat, op: Op, pc': Pc, s': State)
    requires Wrote(s, me, op, s') && CallOk(s, me) && s.threads[me].base.InKill?
    requires KillCode(s, me, s.threads[me].base, op, pc') && pc'.InKill? && pc'.at < |s.procs|
    ensures BaseLock(me, pc').Some? ==> Knows(me, pc', s'.procs[pc'.at])
  {
  }

  lemma WakeStepKnows(s: State, mine: Option<nat>, me: nat, w: Wake, op: Op, w': Wake, s': State)
    requires Wrote(s, me, op, s') && WakeCode(s, mine, w, op, w') && w'.j < |s.procs|
    requires WakeLock(w).Some? && w.j < |s.procs| ==> WakeKnows(w, s.procs[w.j])
    ensures WakeKnows(w', s'.procs[w'.j])
  {
  }

  lemma ExitKnows(s: State, me: nat, op: Op, pc': Pc, s': State)
    requires Wrote(s, me, op, s') && CallOk(s, me) && s.threads[me].base.InExit?
    requires ExitCode(s, me, s.threads[me].base, op, pc') && pc'.InExit?
    ensures BaseLock(me, pc').Some? && BaseLock(me, pc').value < |s.procs| ==>
        Knows(me, pc', s'.procs[BaseLock(me, pc').value])
  {
    hide WakeCode, WakeKnows, Wrote;
    WroteSize(s, me, op, s');
    var pc := s.threads[me].base;
    if (pc'.exit.RepWake? || pc'.exit.ExWake?) && WakeLock(pc'.w).Some? && pc'.w.j < |s.procs| {
      WokeBefore(s, me, op, pc');
      WakeStepKnows(s, Some(me), me, pc.w, op, pc'.w, s');
    }
  }

  lemma WokeBefore(s: State, me: nat, op: Op, pc': Pc)
    requires Shape(s) && me < |s.procs| && CallOk(s, me) && s.threads[me].base.InExit?
    requires ExitCode(s, me, s.threads[me].base, op, pc') && pc'.InExit?
    requires (pc'.exit.RepWake? || pc'.exit.ExWake?) && WakeLock(pc'.w).Some?
    ensures var w := s.threads[me].base.w;
      && WakeCode(s, Some(me), w, op, pc'.w) && w.j < |s.procs|
      && (WakeLock(w).Some? ==> WakeKnows(w, s.procs[w.j]))
  {
    hide WakeKnows;
  }

  /** A step into a place inside a call comes from that call, or holds no lock yet. */
  lemma CallEntered(s: State, me: nat, pc: Pc, op: Op, pc': Pc)
    requires Shape(s) && me < |s.procs| && BaseCode(s, me, pc, op, pc')
    ensures pc'.InFork? && BaseLock(me, pc').Some? ==> pc.InFork?
    ensures pc'.InKill? && BaseLock(me, pc').Some? ==> pc.InKill?
    ensures pc'.InExit? && BaseLock(me, pc').Some? ==> pc.InExit?
    ensures pc'.InWait? ==>
        pc.InWait? || (pc'.wait.WaitAt? || (pc'.wait.WaitScan? && pc'.child == 0 && pc'.kids.NoKids?))
    ensures pc'.InPause? && pc'.pause.PauseFail? ==> op.Nop? && s.procs[me].killed.Yes?
  {
    hide StillPausing, WakeCode;
  }

  lemma WaitKids(s: State, me: nat, op: Op, pc': Pc, s': State)
    requires Wrote(s, me, op, s') && CallOk(s, me) && s.threads[me].base.InWait?
    requires WaitCode(s, me, s.threads[me].base, op, pc') && s'.threads[me].base == pc'
    ensures KidsKnown(s', me)
  {
    hide KidBelow;
    if pc'.InWait? && !pc'.wait.WaitReaped? && !pc'.wait.WaitDone? {
      SameKids(s, s', me, pc'.child);
      SameKids(s, s', me, |s.procs|);
      NoKidBelow(s, me);
      ScanOne(s, me);
    }
  }

  lemma SameKids(s: State, s': State, x: nat, n: nat)
    requires Shape(s) && Shape(s') && |s'.procs| == |s.procs|
    requires forall q {:trigger s'.procs[q]} :: 0 <= q < |s.procs| ==> s'.procs[q].parent == s.procs[q].parent
    ensures KidBelow(s', x, n) == KidBelow(s, x, n)
  {
    if KidBelow(s, x, n) {
      var q :| 0 <= q < |s.procs| && q < n && Kid(s, x, q);
      assert Kid(s', x, q);
    }
    if KidBelow(s', x, n) {
      var q :| 0 <= q < |s.procs| && q < n && Kid(s', x, q);
      assert Kid(s, x, q);
    }
  }

  lemma NoKidBelow(s: State, x: nat)
    requires Shape(s)
    ensures !KidBelow(s, x, 0)
  {
  }

  /** One more slot of the scan. */
  lemma ScanOne(s: State, x: nat)
    requires Shape(s) && x < |s.procs| && s.threads[x].base.InWait?
    ensures var i := s.threads[x].base.child;
      i < |s.procs| ==> (KidBelow(s, x, i + 1) <==> KidBelow(s, x, i) || Kid(s, x, i))
    ensures |s.procs| <= s.threads[x].base.child ==>
        (KidBelow(s, x, s.threads[x].base.child) <==> KidBelow(s, x, |s.procs|))
  {
    hide Kid;
  }

  lemma OwnKnows(s: State, me: nat, op: Op, pc': Pc, s': State)
    requires Safe(s) && Shape(s) && TreeOk(s) && me < |s.procs| && CallOk(s, me)
    requires Wrote(s, me, op, s') && s'.threads[me].base == pc' && BaseCode(s, me, s.threads[me].base, op, pc')
    ensures BaseLock(me, pc').Some? && BaseLock(me, pc').value < |s.procs| ==>
        Knows(me, pc', s'.procs[BaseLock(me, pc').value])
  {
    hide Safe, TreeOk, Wrote, WaitCode, ForkCode, KillCode, ExitCode, SleepCode, PauseCode, EntryCode, KidsKnown;
    var pc := s.threads[me].base;
    WroteSize(s, me, op, s');
    CallEntered(s, me, pc, op, pc');
    match pc' {
      case InFork(_, _) => if BaseLock(me, pc').Some? && pc'.i < |s.procs| { OwnFork(s, me, op, pc', s'); }
      case InWait(_, _, _, _) => if pc.InWait? && pc'.child < |s.procs| { WaitKnows(s, me, op, pc', s'); }
      case InKill(_, _, _) => if pc.InKill? && pc'.at < |s.procs| { KillKnows(s, me, op, pc', s'); }
      case InExit(_, _, _) => if pc.InExit? { ExitKnows(s, me, op, pc', s'); }
      case _ =>
    }
  }

  lemma OwnFork(s: State, me: nat, op: Op, pc': Pc, s': State)
    requires Safe(s) && Shape(s) && TreeOk(s) && me < |s.procs| && CallOk(s, me) && s.threads[me].base.InFork?
    requires Wrote(s, me, op, s') && ForkCode(s, me, s.threads[me].base, op, pc') && pc'.InFork?
    requires BaseLock(me, pc').Some? && pc'.i < |s.procs|
    ensures Knows(me, pc', s'.procs[pc'.i])
  {
    hide Safe, TreeOk, Wrote, KidsKnown, Knows;
    var pc := s.threads[me].base;
    WroteSize(s, me, op, s');
    ForkStays(s, me, pc, op, pc');
    ForkBefore(s, me);
    ForkKnows(s, me, pc, op, pc', s');
  }

  lemma ForkStays(s: State, me: nat, pc: Pc, op: Op, pc': Pc)
    requires Shape(s) && me < |s.procs| && pc.InFork? && ForkCode(s, me, pc, op, pc') && pc'.InFork?
    ensures BaseLock(me, pc').Some? ==> pc.i == pc'.i
  {
  }

  lemma OwnOk(s: State, st: Step, s': State, x: nat)
    requires Safe(s) && TreeOk(s) && CallsOk(s) && NextStep(s, st, s') && Shape(s') && x < |s.procs| == |s'.procs|
    requires Own(s, st, x)
    ensures CallOk(s', x)
  {
    hide Safe, TreeOk, CallsOk, NextStep, Knows, BaseLock, KidsKnown, BaseCode, Permitted, ForkOwned, TreeMove, Wrote;
    SafeShape(s);
    CallKnown(s, x);
    OwnFacts(s, st, s');
    var pc := s.threads[x].base;
    OwnKnows(s, x, st.op, st.pc, s');
    CallEntered(s, x, pc, st.op, st.pc);
    OwnKids(s, x, st.op, st.pc, s');
    if st.pc.InPause? && st.pc.pause.PauseFail? { NothingWritten(s, x, st.op, s'); }
  }

  lemma NothingWritten(s: State, me: nat, op: Op, s': State)
    requires Wrote(s, me, op, s') && op.Nop?
    ensures forall q {:trigger s'.procs[q]} :: 0 <= q < |s.procs| ==> s'.procs[q] == s.procs[q]
  {
  }

  lemma OwnKids(s: State, me: nat, op: Op, pc': Pc, s': State)
    requires Shape(s) && me < |s.procs| && CallOk(s, me)
    requires Wrote(s, me, op, s') && s'.threads[me].base == pc' && BaseCode(s, me, s.threads[me].base, op, pc')
    ensures KidsKnown(s', me)
  {
    hide Wrote, WaitCode, ForkCode, KillCode, ExitCode, SleepCode, PauseCode, EntryCode, KidsKnown, Knows;
    var pc := s.threads[me].base;
    CallEntered(s, me, pc, op, pc');
    WroteSize(s, me, op, s');
    if !pc'.InWait? {
      NoKidsKnown(s', me);
    } else if pc.InWait? {
      WaitKids(s, me, op, pc', s');
    } else {
      NewKids(s', me);
    }
  }

  lemma NewKids(s: State, x: nat)
    requires Shape(s) && x < |s.procs| && s.threads[x].base.InWait?
    requires var pc := s.threads[x].base; pc.wait.WaitAt? || (pc.wait.WaitScan? && pc.child == 0 && pc.kids.NoKids?)
    ensures KidsKnown(s, x)
  {
  }

  // ---------- Handlers ----------

  lemma HandlerKept(s: State, st: Step, s': State, k: nat)
    requires Safe(s) && CallsOk(s) && NextStep(s, st, s') && Shape(s') && k < |s.cpus| == |s'.cpus|
    requires |s'.procs| == |s.procs|
    ensures HandlerOk(s', k)
  {
    hide Safe, CallsOk, NextStep, WakeKnows, BaseStep, TickStep, IrqStep, IrqCode;
    SafeShape(s);
    HandlerKnown(s, k);
    HandlerPlace(s, st, s', k);
    var irq := s'.cpus[k].irq;
    if irq.IWake? && irq.w.j < |s.procs| {
      if st.k != k {
        if WakeLock(irq.w).Some? {
          HandlerLocks(s, k);
          LockedStays(s, st, s', irq.w.j);
          WakeSame(irq.w, s.procs[irq.w.j], s'.procs[irq.w.j]);
        } else {
          WakeAt(irq.w, s'.procs[irq.w.j]);
        }
      } else if st.IrqGo? {
        IrqOfNext(s, st, s');
        OwnHandler(s, st.k, st.op, st.irq, st.end, s');
      } else {
        WakeAt(irq.w, s'.procs[irq.w.j]);
      }
    }
  }

  lemma IrqOfNext(s: State, st: Step, s': State)
    requires NextStep(s, st, s') && st.IrqGo?
    ensures IrqStep(s, st.k, st.op, st.irq, st.end, s') && st.k < |s'.cpus| && s'.cpus[st.k].irq == st.irq
  {
    hide IrqCode, Changed, ChargeChoice;
  }

  lemma WakeSame(w: Wake, pr: Proc, pr': Proc)
    requires WakeKnows(w, pr) && SameLocked(pr, pr')
    ensures WakeKnows(w, pr')
  {
  }

  lemma WakeAt(w: Wake, pr: Proc)
    requires WakeLock(w).None?
    ensures WakeKnows(w, pr)
  {
  }

  lemma HandlerPlace(s: State, st: Step, s': State, k: nat)
    requires Safe(s) && NextStep(s, st, s') && k < |s.cpus| == |s'.cpus|
    ensures st.k != k ==> s'.cpus[k].irq == s.cpus[k].irq
    ensures st.k == k && !st.IrqGo? && s'.cpus[k].irq.IWake? ==> WakeLock(s'.cpus[k].irq.w).None?
  {
    hide LockOk, GlobalLockOk, StateOk, ForkOk, RunOk, Quiet, BaseCode, TickCode, IrqCode, Changed, ChargeChoice;
  }

  lemma HandlerLocks(s: State, k: nat)
    requires Safe(s) && k < |s.cpus|
    ensures s.cpus[k].irq.IWake? && WakeLock(s.cpus[k].irq.w).Some? ==>
        s.cpus[k].irq.w.j < |s.procs| && s.plock[s.cpus[k].irq.w.j] == Some(k)
  {
    hide LockOk, GlobalLockOk, StateOk, ForkOk, RunOk, QuietOk;
    HeldByIrq(s, k);
  }

  lemma OwnHandler(s: State, k: nat, op: Op, irq': Irq, end: TickEnd, s': State)
    requires Safe(s) && IrqStep(s, k, op, irq', end, s') && HandlerOk(s, k)
    requires irq'.IWake? && irq'.w.j < |s.procs|
    ensures irq'.w.j < |s'.procs| && WakeKnows(irq'.w, s'.procs[irq'.w.j])
  {
    hide Safe, Permitted, IrqEffect, Wrote, ChargeChoice, WakeCode, WakeKnows;
    IrqRunning(s, k, op, irq', end, s');
    IrqPermitted(s, k, op, irq');
    IrqWrites(s, k, op, irq', end, s');
    WroteSize(s, INIT, op, s');
    if s.cpus[k].irq.IWake? {
      WakeStepKnows(s, s.cpus[k].cproc, INIT, s.cpus[k].irq.w, op, irq'.w, s');
    } else {
      WakeAt(irq'.w, s'.procs[irq'.w.j]);
    }
  }

  // ---------- All steps, all runs ----------

  lemma NextCalls(s: State, st: Step, s': State)
    requires Safe(s) && TreeOk(s) && CallsOk(s) && NextStep(s, st, s')
    ensures Shape(s') && CallsOk(s')
  {
    hide Safe, TreeOk, CallsOk, NextStep, CallOk, HandlerOk, Own;
    SafeShape(s);
    StepShape(s, st, s');
    forall x | 0 <= x < |s'.procs| ensures CallOk(s', x) {
      if Own(s, st, x) { OwnOk(s, st, s', x); } else { CallKept(s, st, s', x); }
    }
    forall k | 0 <= k < |s'.cpus| ensures HandlerOk(s', k) { HandlerKept(s, st, s', k); }
    AllCalls(s');
  }

  lemma AllCalls(s: State)
    requires Shape(s)
    requires forall x {:trigger CallOk(s, x)} :: 0 <= x < |s.procs| ==> CallOk(s, x)
    requires forall k {:trigger HandlerOk(s, k)} :: 0 <= k < |s.cpus| ==> HandlerOk(s, k)
    ensures CallsOk(s)
  {
    hide CallOk, HandlerOk;
  }

  lemma StepShape(s: State, st: Step, s': State)
    requires Safe(s) && NextStep(s, st, s')
    ensures Shape(s) && Shape(s') && |s'.procs| == |s.procs| && |s'.cpus| == |s.cpus|
  {
    hide Safe, BaseStep, TickStep, IrqStep, TimerStep, DeviceStep, SwtchStep;
    if OfProcess(st) { ProcScheds(s, st, s'); }
  }

  lemma InitCalls(s: State)
    requires Init(s)
    ensures CallsOk(s)
  {
  }

  lemma {:induction false} RunCalls(tr: seq<State>, i: nat)
    requires Run(tr) && i < |tr|
    ensures Safe(tr[i]) && TreeOk(tr[i]) && CallsOk(tr[i])
  {
    hide Safe, NextStep, Init, TreeOk, CallsOk;
    RunTree(tr, i);
    SafeShape(tr[i]);
    if i == 0 {
      InitCalls(tr[0]);
    } else {
      RunCalls(tr, i - 1);
      assert Next(tr[i - 1], tr[i]);
      var st :| NextStep(tr[i - 1], st, tr[i]);
      NextCalls(tr[i - 1], st, tr[i]);
    }
  }

  // ---------- Theorems ----------

  /** Process x is at `pc` in state i of the run. */
  ghost predicate AtPlace(tr: seq<State>, i: nat, x: nat, pc: Pc) {
    && Run(tr) && i < |tr| && Shape(tr[i]) && x < |tr[i].procs| && tr[i].threads[x].base == pc
  }

  lemma PlaceKnown(tr: seq<State>, i: nat, x: nat, pc: Pc)
    requires AtPlace(tr, i, x, pc) && Busy(pc)
    ensures Safe(tr[i]) && TreeOk(tr[i]) && CallOk(tr[i], x)
    ensures var l := BaseLock(x, pc);
      l.Some? ==> l.value < |tr[i].procs| && tr[i].threads[x].on.Some? && tr[i].plock[l.value] == tr[i].threads[x].on
  {
    hide Run, Safe, TreeOk, CallOk, CallsOk;
    RunCalls(tr, i);
    CallKnown(tr[i], x);
    BusyLocks(tr[i], x);
  }

  /** When kkill(v) is about to return 0 it holds the lock of a slot with pid v, which is
      marked as killed and no longer asleep. */
  lemma KillsVictim(tr: seq<State>, i: nat, x: nat, v: nat, q: nat)
    requires AtPlace(tr, i, x, InKill(v, q, KillRel))
    ensures q < |tr[i].procs| && tr[i].threads[x].on.Some? && tr[i].plock[q] == tr[i].threads[x].on
    ensures tr[i].procs[q].pid == v && tr[i].procs[q].killed.Yes? && !tr[i].procs[q].state.SLEEPING?
  {
    hide Run, Safe, TreeOk;
    PlaceKnown(tr, i, x, InKill(v, q, KillRel));
  }

  /** When kwait or waitx is about to return a pid it holds the lock of the child's slot, and
      the slot is free. */
  lemma ReapsChild(tr: seq<State>, i: nat, x: nat, call: WaitCall, q: nat, kids: Kids)
    requires AtPlace(tr, i, x, InWait(call, q, kids, WaitReaped))
    ensures q < |tr[i].procs| && tr[i].threads[x].on.Some? && tr[i].plock[q] == tr[i].threads[x].on
    ensures Freed(tr[i].procs[q])
  {
    hide Run, Safe, TreeOk, Freed;
    PlaceKnown(tr, i, x, InWait(call, q, kids, WaitReaped));
  }

  /** kwait and waitx return -1 only to a process that is killed or has no children, and kwait
      also when copyout has failed; the zombie child is then still there. */
  lemma WaitFails(tr: seq<State>, i: nat, x: nat, call: WaitCall, q: nat, kids: Kids)
    requires AtPlace(tr, i, x, InWait(call, q, kids, WaitFail))
    ensures
      || tr[i].procs[x].killed.Yes?
      || (forall c :: 0 <= c < |tr[i].procs| ==> tr[i].procs[c].parent != Some(x))
      || (call.Kwait? && q < |tr[i].procs| && tr[i].procs[q].parent == Some(x) && tr[i].procs[q].state.ZOMBIE?)
  {
    hide Run, Safe, TreeOk, KidBelow;
    var pc := InWait(call, q, kids, WaitFail);
    PlaceKnown(tr, i, x, pc);
    if !KidBelow(tr[i], x, |tr[i].procs|) {
      forall c | 0 <= c < |tr[i].procs| ensures tr[i].procs[c].parent != Some(x) {
        if tr[i].procs[c].parent == Some(x) { ChildBelow(tr[i], x, c); }
      }
    }
  }

  lemma ChildBelow(s: State, x: nat, c: nat)
    requires Shape(s) && c < |s.procs| && s.procs[c].parent == Some(x)
    ensures KidBelow(s, x, |s.procs|)
  {
    assert Kid(s, x, c);
  }

  /** When kfork is about to return it holds the lock of a RUNNABLE child of the caller, which
      is younger than the caller. */
  lemma ForksChild(tr: seq<State>, i: nat, x: nat, q: nat)
    requires AtPlace(tr, i, x, InFork(q, ForkRel))
    ensures q < |tr[i].procs| && tr[i].threads[x].on.Some? && tr[i].plock[q] == tr[i].threads[x].on
    ensures tr[i].procs[q].state.RUNNABLE? && tr[i].procs[q].parent == Some(x)
    ensures tr[i].procs[x].pid < tr[i].procs[q].pid
  {
    hide Run, Safe;
    PlaceKnown(tr, i, x, InFork(q, ForkRel));
    NodeAndThread(tr[i], q);
  }

  /** A kfork that fails in allocproc leaves a free slot. */
  lemma ForkFails(tr: seq<State>, i: nat, x: nat, q: nat)
    requires AtPlace(tr, i, x, InFork(q, AllocFail))
    ensures q < |tr[i].procs| && Freed(tr[i].procs[q])
  {
    hide Run, Safe, TreeOk;
    PlaceKnown(tr, i, x, InFork(q, AllocFail));
  }

  /** sys_pause returns -1 only to a killed process. */
  lemma PauseFails(tr: seq<State>, i: nat, x: nat, n: nat, start: nat)
    requires AtPlace(tr, i, x, InPause(n, start, PauseFail))
    ensures tr[i].procs[x].killed.Yes?
  {
    hide Run, Safe, TreeOk;
    PlaceKnown(tr, i, x, InPause(n, start, PauseFail));
  }
}
