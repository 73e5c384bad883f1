/**
 Lock ownership and the hand-off of p->lock across swtch.

 The invariant `Safe` ties every lock to the program counter of its holder and every
 process state to the place of the process's thread. It holds in every reachable state.
 */
module KernelLocks {
  import opened Kernel

  // ---------- What a place in the code holds ----------

  /** The process lock that a thread at `pc` holds; there is at most one. */
  function BaseLock(me: nat, pc: Pc): Option<nat> {
    match pc
    case ForkRet => Some(me)
    case InFork(i, ph) => if (ph.AllocAt? || ph.ForkLink? || ph.ForkSet? || ph.ForkUnlink? || ph.ForkPub?) then None
        else Some(i)
    case InWait(_, i, _, ph) => if (ph.WaitHeld? || ph.WaitReaped? || ph.WaitFault?) then Some(i) else None
    case InSleep(_, ph) => if (ph.SleepAt? || ph.SleepRelock?) then None else Some(me)
    case InExit(_, w, ph) =>
      if (ph.RepWake? || ph.ExWake?) then WakeLock(w)
      else if (ph.ExitSet? || ph.ExitUnlock? || ph.ExitSched? || ph.ExitSwtch?) then Some(me)
      else None
    case InKill(_, i, ph) => if ph.KillAt? then None else Some(i)
    case _ => None
  }

  function WakeLock(w: Wake): Option<nat> {
    if w.ph.At? then None else Some(w.j)
  }

  function TickLock(me: nat, pc: TickPc): Option<nat> {
    if (pc.TNone? || pc.TUpdAcq? || pc.TYieldAcq?) then None else Some(me)
  }

  function IrqLock(pc: Irq): Option<nat> {
    if pc.IWake? then WakeLock(pc.w) else None
  }

  function ThreadLock(me: nat, th: Thread): Option<nat> {
    if !th.tick.TNone? then TickLock(me, th.tick) else BaseLock(me, th.base)
  }

  /** Places that hold wait_lock. */
  predicate BaseW(pc: Pc) {
    match pc
    case InFork(_, ph) => (ph.ForkSet? || ph.ForkUnlink?)
    case InWait(_, _, _, ph) => !ph.WaitAt?
    case InSleep(r, ph) => r.ToWait? && (ph.SleepAt? || ph.SleepUnlock?)
    case InExit(_, _, ph) => (!ph.ExitAt? && !ph.ExitLock? && !ph.ExitSched? && !ph.ExitSwtch?)
    case _ => false
  }

  /** Places that hold tickslock. */
  predicate BaseT(pc: Pc) {
    match pc
    case InSleep(r, ph) => r.ToPause? && (ph.SleepAt? || ph.SleepUnlock?)
    case InPause(_, _, ph) => !ph.PauseAt?
    case _ => false
  }

  predicate IrqT(pc: Irq) {
    pc.ITick? || pc.IUnlock? || (pc.IWake? && pc.src.Clock?)
  }

  /** CPU k holds the lock of slot q. */
  ghost predicate Holds(s: State, k: nat, q: nat)
    requires Shape(s) && k < |s.cpus|
  {
    || IrqLock(s.cpus[k].irq) == Some(q)
    || match s.cpus[k].spc
       case SScan(held) => q in held
       case SBack(p) => q == p
       case SRun(p) => p < |s.procs| && ThreadLock(p, s.threads[p]) == Some(q)
  }

  ghost predicate HoldsW(s: State, k: nat)
    requires Shape(s) && k < |s.cpus|
  {
    s.cpus[k].spc.SRun? && s.cpus[k].spc.p < |s.procs| && BaseW(s.threads[s.cpus[k].spc.p].base)
  }

  ghost predicate HoldsT(s: State, k: nat)
    requires Shape(s) && k < |s.cpus|
  {
    || IrqT(s.cpus[k].irq)
    || (s.cpus[k].spc.SRun? && s.cpus[k].spc.p < |s.procs| && BaseT(s.threads[s.cpus[k].spc.p].base))
  }

  // ---------- The invariant ----------

  /** A thread is loaded on CPU k exactly when k has switched out to it; c->proc follows. */
  ghost predicate RunOk(s: State)
    requires Shape(s)
  {
    && (forall p {:trigger s.threads[p]} :: 0 <= p < |s.procs| && s.threads[p].on.Some? ==>
          s.threads[p].on.value < |s.cpus| && s.cpus[s.threads[p].on.value].spc == SRun(p))
    && (forall k {:trigger s.cpus[k]} :: 0 <= k < |s.cpus| ==>
          match s.cpus[k].spc
          case SScan(_) => s.cpus[k].cproc.None?
          case SBack(p) => p < |s.procs| && s.cpus[k].cproc == Some(p) && s.threads[p].on.None?
          case SRun(p) => p < |s.procs| && s.cpus[k].cproc == Some(p) && s.threads[p].on == Some(k))
  }

  /** Interrupts arrive only where no lock is held. */
  ghost predicate QuietOk(s: State)
    requires Shape(s)
  {
    && (forall p {:trigger s.threads[p]} :: 0 <= p < |s.procs| && !s.threads[p].tick.TNone? ==>
        Quiet(s.threads[p].base))
    && (forall k {:trigger s.cpus[k]} :: 0 <= k < |s.cpus| && !s.cpus[k].irq.INone? ==>
          match s.cpus[k].spc
          case SScan(held) => held == {}
          case SBack(_) => false
          case SRun(p) => p < |s.procs| && s.threads[p].tick.TNone? && Quiet(s.threads[p].base))
  }

  /** A process lock is owned by CPU k exactly when k's code holds it. */
  ghost predicate LockOk(s: State)
    requires Shape(s)
  {
    && (forall k, q {:trigger Holds(s, k, q)} :: 0 <= k < |s.cpus| && 0 <= q && Holds(s, k, q) ==>
          q < |s.procs| && s.plock[q] == Some(k))
    && (forall q {:trigger s.plock[q]} :: 0 <= q < |s.procs| && s.plock[q].Some? ==>
          s.plock[q].value < |s.cpus| && Holds(s, s.plock[q].value, q))
  }

  ghost predicate GlobalLockOk(s: State)
    requires Shape(s)
  {
    && (forall k {:trigger HoldsW(s, k)} :: 0 <= k < |s.cpus| && HoldsW(s, k) ==> s.waitLk == Some(k))
    && (s.waitLk.Some? ==> s.waitLk.value < |s.cpus| && HoldsW(s, s.waitLk.value))
    && (forall k {:trigger HoldsT(s, k)} :: 0 <= k < |s.cpus| && HoldsT(s, k) ==> s.tickLk == Some(k))
    && (s.tickLk.Some? ==> s.tickLk.value < |s.cpus| && HoldsT(s, s.tickLk.value))
  }

  /** The state of a process whose thread is executing. */
  function StateAt(th: Thread): PState {
    if (th.tick.TYieldPush? || th.tick.TYieldSched? || th.tick.TYieldSwtch?) then RUNNABLE
    else if !th.tick.TNone? then RUNNING
    else match th.base
      case InSleep(_, ph) => if (ph.SleepSched? || ph.SleepSwtch?) then SLEEPING else RUNNING
      case InExit(_, _, ph) => if (ph.ExitUnlock? || ph.ExitSched? || ph.ExitSwtch?) then ZOMBIE else RUNNING
      case _ => RUNNING
  }

  /** A saved context that a scheduler may resume. */
  predicate Resumable(th: Thread) {
    || th.tick.TYieldBack?
    || (th.tick.TNone? && (th.base.ForkRet? || IsSleep(th.base, SleepBack)))
  }

  predicate SlotOk(p: nat, pr: Proc, th: Thread) {
    if th.on.Some? then
      && pr.state == StateAt(th)
      && !th.base.Dead?
      && (pr.state.SLEEPING? ==> pr.chan == SleepChan(p, th.base.r))
    else match pr.state
      case RUNNING => false
      case RUNNABLE => Resumable(th)
      case SLEEPING => th.tick.TNone? && IsSleep(th.base, SleepBack) && pr.chan == SleepChan(p, th.base.r)
      case ZOMBIE => th.tick.TNone? && th.base.Dead?
      case UNUSED => th.tick.TNone? && (th.base.Dead? || th.base.ForkRet?)
      case USED => th.tick.TNone? && (th.base.Dead? || th.base.ForkRet?)
  }

  ghost predicate StateOk(s: State)
    requires Shape(s)
  {
    forall p {:trigger s.threads[p]} {:trigger s.procs[p]} :: 0 <= p < |s.procs| ==>
      SlotOk(p, s.procs[p], s.threads[p])
  }

  /** The slot that a forking process has allocated and not yet made RUNNABLE. */
  function ForkSlot(pc: Pc): Option<nat> {
    if pc.InFork? && (!pc.fork.AllocAt? && !pc.fork.AllocHeld? && !pc.fork.AllocFail? && !pc.fork.ForkPush?
        && !pc.fork.ForkRel?) then Some(pc.i) else None
  }

  predicate IsFork(pc: Pc, ph: ForkPh) { pc.InFork? && pc.fork == ph }

  /** A USED slot belongs to one forking process. */
  ghost predicate ForkOk(s: State)
    requires Shape(s)
  {
    && (forall f {:trigger s.threads[f]} :: 0 <= f < |s.procs| && ForkSlot(s.threads[f].base).Some? ==>
          ForkedOk(s, f, ForkSlot(s.threads[f].base).value))
    && (forall f, g {:trigger s.threads[f], s.threads[g]} ::
          0 <= f < g < |s.procs| && ForkSlot(s.threads[f].base).Some? ==>
          ForkSlot(s.threads[f].base) != ForkSlot(s.threads[g].base))
  }

  ghost predicate ForkedOk(s: State, f: nat, q: nat)
    requires Shape(s) && f < |s.procs|
  {
    && q < |s.procs| && s.procs[q].state.USED? && s.threads[q].on.None?
    && (s.procs[q].ready.Yes? <==> !IsFork(s.threads[f].base, AllocInit))
    && (!IsFork(s.threads[f].base, AllocInit) && !IsFork(s.threads[f].base, AllocMem) ==> s.threads[q].base.ForkRet?)
  }

  ghost predicate Safe(s: State) {
    && Shape(s) && RunOk(s) && QuietOk(s) && LockOk(s) && GlobalLockOk(s) && StateOk(s) && ForkOk(s)
  }

  // ---------- Facts read off the code ----------

  predicate LockMove(op: Op, before: Option<nat>, after: Option<nat>) {
    match op
    case Acq(q) => before.None? && after == Some(q)
    case Rel(q) => before == Some(q) && after.None?
    case _ => before == after
  }

  predicate FlagMove(acq: bool, rel: bool, before: bool, after: bool) {
    if acq then !before && after else if rel then before && !after else before == after
  }

  /** What one step of a process does to the locks. */
  ghost predicate Moves(op: Op, l: Option<nat>, l': Option<nat>, w: bool, w': bool, t: bool, t': bool) {
    && LockMove(op, l, l')
    && FlagMove(op.AcqW?, op.RelW?, w, w')
    && FlagMove(op.AcqT?, op.RelT?, t, t')
  }

  ghost predicate BaseMove(me: nat, pc: Pc, op: Op, pc': Pc) {
    Moves(op, BaseLock(me, pc), BaseLock(me, pc'), BaseW(pc), BaseW(pc'), BaseT(pc), BaseT(pc'))
  }

  lemma ForkMoves(s: State, me: nat, pc: Pc, op: Op, pc': Pc)
    requires Shape(s) && me < |s.procs| && pc.InFork? && ForkCode(s, me, pc, op, pc')
    ensures BaseMove(me, pc, op, pc')
  {
  }

  lemma WaitMoves(s: State, me: nat, pc: Pc, op: Op, pc': Pc)
    requires Shape(s) && me < |s.procs| && pc.InWait? && WaitCode(s, me, pc, op, pc')
    ensures BaseMove(me, pc, op, pc')
  {
  }

  lemma SleepMoves(s: State, me: nat, pc: Pc, op: Op, pc': Pc)
    requires Shape(s) && me < |s.procs| && pc.InSleep? && SleepCode(s, me, pc, op, pc')
    ensures BaseMove(me, pc, op, pc')
  {
    match pc.r {
      case ToWait(_) =>
      case ToPause(_, _, _) =>
      case ToOther(_) =>
    }
  }

  lemma WakeMoves(s: State, mine: Option<nat>, w: Wake, op: Op, w': Wake)
    requires WakeCode(s, mine, w, op, w')
    ensures LockMove(op, WakeLock(w), WakeLock(w'))
    ensures !op.AcqW? && !op.RelW? && !op.AcqT? && !op.RelT?
  {
  }

  lemma ExitMoves(s: State, me: nat, pc: Pc, op: Op, pc': Pc)
    requires Shape(s) && me < |s.procs| && pc.InExit? && ExitCode(s, me, pc, op, pc')
    ensures BaseMove(me, pc, op, pc')
  {
    hide WakeCode, LockMove;
    if (pc.exit.RepWake? || pc.exit.ExWake?) && !WakeDone(pc.w, |s.procs|) {
      WakeMoves(s, Some(me), pc.w, op, pc'.w);
    } else {
      ExitMovesNoWake(s, me, pc, op, pc');
    }
  }

  lemma ExitMovesNoWake(s: State, me: nat, pc: Pc, op: Op, pc': Pc)
    requires Shape(s) && me < |s.procs| && pc.InExit? && ExitCode(s, me, pc, op, pc')
    requires pc.exit.RepWake? || pc.exit.ExWake? ==> WakeDone(pc.w, |s.procs|)
    ensures BaseMove(me, pc, op, pc')
  {
    hide WakeCode;
  }

  lemma KillMoves(s: State, me: nat, pc: Pc, op: Op, pc': Pc)
    requires Shape(s) && me < |s.procs| && pc.InKill? && KillCode(s, me, pc, op, pc')
    ensures BaseMove(me, pc, op, pc')
  {
  }

  lemma PauseMoves(s: State, me: nat, pc: Pc, op: Op, pc': Pc)
    requires Shape(s) && me < |s.procs| && pc.InPause? && PauseCode(s, me, pc, op, pc')
    ensures BaseMove(me, pc, op, pc')
  {
  }

  lemma BaseMoves(s: State, me: nat, pc: Pc, op: Op, pc': Pc)
    requires Shape(s) && me < |s.procs| && BaseCode(s, me, pc, op, pc')
    ensures BaseMove(me, pc, op, pc')
  {
    match pc {
      case InFork(_, _) => ForkMoves(s, me, pc, op, pc');
      case InWait(_, _, _, _) => WaitMoves(s, me, pc, op, pc');
      case InSleep(_, _) => SleepMoves(s, me, pc, op, pc');
      case InExit(_, _, _) => ExitMoves(s, me, pc, op, pc');
      case InKill(_, _, _) => KillMoves(s, me, pc, op, pc');
      case InPause(_, _, _) => PauseMoves(s, me, pc, op, pc');
      case _ =>
    }
  }

  lemma TickMoves(s: State, me: nat, pc: TickPc, op: Op, pc': TickPc)
    requires Shape(s) && me < |s.procs| && TickCode(s, me, pc, op, pc')
    ensures LockMove(op, TickLock(me, pc), TickLock(me, pc'))
    ensures !op.AcqW? && !op.RelW? && !op.AcqT? && !op.RelT?
  {
  }

  lemma IrqMoves(s: State, mine: Option<nat>, pc: Irq, op: Op, pc': Irq)
    requires IrqCode(s, mine, pc, op, pc')
    ensures LockMove(op, IrqLock(pc), IrqLock(pc'))
    ensures FlagMove(op.AcqT?, op.RelT?, IrqT(pc), IrqT(pc'))
    ensures !op.AcqW? && !op.RelW?
  {
    hide WakeCode;
    if pc.IWake? && !WakeDone(pc.w, |s.procs|) { WakeMoves(s, mine, pc.w, op, pc'.w); }
  }

  // ---------- Locks follow the code ----------

  /** Between s and s' only CPU k moved, by an operation on the process locks. */
  ghost predicate OnlyCpu(s: State, k: nat, op: Op, s': State) {
    && Shape(s) && Shape(s') && |s.cpus| == |s'.cpus| && |s.procs| == |s'.procs| && k < |s.cpus|
    && Enabled(s, op)
    && s'.plock == (match op case Acq(q) => s.plock[q := Some(k)] case Rel(q) => s.plock[q := None] case _ => s.plock)
    && (forall j, q {:trigger Holds(s', j, q)} :: 0 <= j < |s.cpus| && j != k && 0 <= q ==>
        (Holds(s', j, q) <==> Holds(s, j, q)))
    && (forall q {:trigger Holds(s', k, q)} :: 0 <= q ==>
          (Holds(s', k, q) <==> match op
             case Acq(x) => Holds(s, k, q) || q == x
             case Rel(x) => Holds(s, k, q) && q != x
             case _ => Holds(s, k, q)))
    && (op.Rel? ==> Holds(s, k, op.q))
  }

  lemma LockStep(s: State, k: nat, op: Op, s': State)
    requires OnlyCpu(s, k, op, s') && LockOk(s)
    ensures LockOk(s')
  {
    forall j, q | 0 <= j < |s'.cpus| && 0 <= q && Holds(s', j, q)
      ensures q < |s'.procs| && s'.plock[q] == Some(j)
    {
      assert Holds(s, j, q) || (op.Acq? && j == k && q == op.q);
    }
    forall q | 0 <= q < |s'.procs| && s'.plock[q].Some?
      ensures s'.plock[q].value < |s'.cpus| && Holds(s', s'.plock[q].value, q)
    {
    }
  }

  /** A context is created only for a slot that no CPU executes. */
  ghost predicate SpawnFree(s: State, op: Op)
    requires Shape(s)
  {
    op.Spawn? ==> op.q < |s.procs| && s.threads[op.q].on.None?
  }

  lemma BaseOnly(s: State, k: nat, me: nat, op: Op, pc': Pc, s': State)
    requires BaseEffect(s, k, me, op, pc', s') && RunOk(s)
    requires BaseMove(me, s.threads[me].base, op, pc') && SpawnFree(s, op)
    ensures OnlyCpu(s, k, op, s')
  {
    hide BaseLock, BaseW, BaseT, Changed;
    forall j, q | 0 <= j < |s.cpus| && j != k && 0 <= q
      ensures Holds(s', j, q) <==> Holds(s, j, q)
    {
    }
  }

  lemma TickOnly(s: State, k: nat, me: nat, op: Op, pc': TickPc, s': State)
    requires TickEffect(s, k, me, op, pc', s') && RunOk(s) && QuietOk(s)
    requires LockMove(op, TickLock(me, s.threads[me].tick), TickLock(me, pc')) && !op.Spawn?
    ensures OnlyCpu(s, k, op, s')
  {
    hide BaseW, BaseT, Changed;
    QuietHoldsNothing(me, s.threads[me].base);
    forall j, q | 0 <= j < |s.cpus| && j != k && 0 <= q
      ensures Holds(s', j, q) <==> Holds(s, j, q)
    {
    }
  }

  lemma QuietHoldsNothing(me: nat, pc: Pc)
    requires Quiet(pc)
    ensures BaseLock(me, pc).None? && !BaseW(pc) && !BaseT(pc)
  {
  }

  /** What a handler step leaves alone. */
  ghost predicate IrqFrame(s: State, k: nat, irq': Irq, s': State) {
    && Shape(s) && Shape(s') && k < |s.cpus| && |s'.cpus| == |s.cpus| && |s'.procs| == |s.procs|
    && (forall j {:trigger s'.cpus[j]} :: 0 <= j < |s.cpus| && j != k ==> s'.cpus[j] == s.cpus[j])
    && s'.cpus[k] == s.cpus[k].(irq := irq')
    && (forall p {:trigger s'.threads[p]} :: 0 <= p < |s.procs| ==>
          && s'.threads[p].base == s.threads[p].base && s'.threads[p].on == s.threads[p].on
          && (s.cpus[k].spc != SRun(p) ==> s'.threads[p] == s.threads[p]))
  }

  lemma IrqFrames(s: State, k: nat, op: Op, irq': Irq, end: TickEnd, s': State)
    requires IrqEffect(s, k, op, irq', end, s') && !op.Spawn?
    ensures IrqFrame(s, k, irq', s')
  {
    hide Changed;
  }

  /** The handler's locks; the interrupted thread holds none. */
  lemma IrqHolds(s: State, k: nat, q: nat)
    requires Shape(s) && k < |s.cpus| && RunOk(s) && QuietOk(s) && !s.cpus[k].irq.INone?
    ensures Holds(s, k, q) <==> IrqLock(s.cpus[k].irq) == Some(q)
  {
    hide IrqLock, BaseLock;
    if s.cpus[k].spc.SRun? { QuietHoldsNothing(s.cpus[k].spc.p, s.threads[s.cpus[k].spc.p].base); }
  }

  lemma IrqOnly(s: State, k: nat, op: Op, irq': Irq, end: TickEnd, s': State)
    requires IrqEffect(s, k, op, irq', end, s') && RunOk(s) && QuietOk(s)
    requires LockMove(op, IrqLock(s.cpus[k].irq), IrqLock(irq')) && !op.Spawn?
    requires s.cpus[k].irq.IUnlock? ==> irq'.INone? && op.RelT?
    ensures OnlyCpu(s, k, op, s')
  {
    hide BaseLock, BaseW, BaseT, Changed, Holds, IrqLock, LockMove, QuietOk, TickLock, IrqFrame;
    IrqFrames(s, k, op, irq', end, s');
    forall j, q | 0 <= j < |s.cpus| && j != k && 0 <= q
      ensures Holds(s', j, q) <==> Holds(s, j, q)
    {
      IrqOther(s, k, irq', s', j, q);
    }
    forall q | 0 <= q
      ensures Holds(s', k, q) <==> match op
             case Acq(x) => Holds(s, k, q) || q == x
             case Rel(x) => Holds(s, k, q) && q != x
             case _ => Holds(s, k, q)
    {
      IrqHolds(s, k, q);
      IrqMine(s, k, op, irq', end, s', q);
      assert LockMove(op, IrqLock(s.cpus[k].irq), IrqLock(irq'));
      LockMoveHeld(op, IrqLock(s.cpus[k].irq), IrqLock(irq'), q);
    }
    if op.Rel? {
      IrqHolds(s, k, op.q);
      LockMoveHeld(op, IrqLock(s.cpus[k].irq), IrqLock(irq'), op.q);
    }
  }

  lemma LockMoveHeld(op: Op, l: Option<nat>, l': Option<nat>, q: nat)
    requires LockMove(op, l, l')
    ensures l' == Some(q) <==> match op
             case Acq(x) => l == Some(q) || q == x
             case Rel(x) => l == Some(q) && q != x
             case _ => l == Some(q)
    ensures op.Rel? ==> l == Some(op.q)
  {
  }

  lemma IrqOther(s: State, k: nat, irq': Irq, s': State, j: nat, q: nat)
    requires IrqFrame(s, k, irq', s') && RunOk(s) && j < |s.cpus| && j != k
    ensures Holds(s', j, q) <==> Holds(s, j, q)
  {
    hide BaseLock, TickLock, IrqLock;
  }

  lemma IrqMine(s: State, k: nat, op: Op, irq': Irq, end: TickEnd, s': State, q: nat)
    requires IrqEffect(s, k, op, irq', end, s') && RunOk(s) && QuietOk(s) && !op.Spawn?
    requires s.cpus[k].irq.IUnlock? ==> irq'.INone? && op.RelT?
    ensures Shape(s') && |s'.cpus| == |s.cpus| && (Holds(s', k, q) <==> IrqLock(irq') == Some(q))
  {
    hide BaseLock, IrqLock, Changed;
    if s.cpus[k].spc.SRun? { QuietHoldsNothing(s.cpus[k].spc.p, s.threads[s.cpus[k].spc.p].base); }
  }

  // ---------- What a step writes ----------

  /** Of the process slots only the target of op changes, as op says. */
  ghost predicate Wrote(s: State, me: nat, op: Op, s': State) {
    && Shape(s) && Shape(s') && |s'.procs| == |s.procs| && |s'.cpus| == |s.cpus| && me < |s.procs|
    && (forall q {:trigger s'.procs[q]} :: 0 <= q < |s.procs| ==>
          s'.procs[q] == if Target(op) == Some(q) then Changed(s.procs[q], op, s.procs[me], s.nextpid, s.ticks)
              else s.procs[q])
    && s'.nextpid == (if op.NewPid? then s.nextpid + 1 else s.nextpid)
    && s'.ticks == (if op.Tick? then s.ticks + 1 else s.ticks)
  }

  /** Of the threads only the stepping one moves, besides one that op creates. */
  ghost predicate Stepped(s: State, me: nat, op: Op, th': Thread, s': State) {
    && Shape(s) && Shape(s') && |s'.procs| == |s.procs| && me < |s.procs|
    && s'.cpus == s.cpus
    && (forall f {:trigger s'.threads[f]} :: 0 <= f < |s.procs| ==>
          s'.threads[f] == if f == me then th' else if op == Spawn(f) then Thread(ForkRet, TNone, None)
              else s.threads[f])
  }

  lemma BaseWrites(s: State, k: nat, me: nat, op: Op, pc': Pc, s': State)
    requires BaseEffect(s, k, me, op, pc', s') && op != Spawn(me)
    ensures Wrote(s, me, op, s') && Stepped(s, me, op, s.threads[me].(base := pc'), s')
  {
    hide Changed;
  }

  lemma TickWrites(s: State, k: nat, me: nat, op: Op, pc': TickPc, s': State)
    requires TickEffect(s, k, me, op, pc', s') && !op.Spawn?
    ensures Wrote(s, me, op, s') && Stepped(s, me, op, s.threads[me].(tick := pc'), s')
  {
    hide Changed;
  }

  lemma IrqWrites(s: State, k: nat, op: Op, irq': Irq, end: TickEnd, s': State)
    requires IrqEffect(s, k, op, irq', end, s') && !op.Spawn?
    ensures Wrote(s, INIT, op, s') && IrqFrame(s, k, irq', s')
  {
    hide Changed;
  }

  // ---------- Lock discipline ----------

  /** What the code has made sure of before CPU k performs op on behalf of process me. */
  ghost predicate Permitted(s: State, k: nat, me: Option<nat>, op: Op)
    requires Shape(s)
  {
    match op
    case NewPid(q) => q < |s.procs| && s.plock[q] == Some(k) && s.procs[q].state.UNUSED?
    case InitCounters(q) => q < |s.procs| && s.plock[q] == Some(k) && s.procs[q].state.USED?
    case Spawn(q) => q < |s.procs| && s.plock[q] == Some(k) && s.procs[q].state.USED? && s.threads[q].on.None?
    case Free(q) => q < |s.procs| && s.plock[q] == Some(k) && (s.procs[q].state.USED? || s.procs[q].state.ZOMBIE?)
    case Ready(q, a) =>
      && q < |s.procs| && s.plock[q] == Some(k)
      && (|| s.procs[q].state.SLEEPING?
          || (s.procs[q].state.USED? && s.threads[q].base.ForkRet? && a.Keep?)
          || (me == Some(q) && s.procs[q].state.RUNNING? && a.Reset?))
    case PushQ(q) => q < |s.procs| && s.plock[q] == Some(k)
    case GoSleep(q, _) => me == Some(q) && q < |s.procs| && s.plock[q] == Some(k)
    case ClearChan(q) => me == Some(q) && q < |s.procs| && s.plock[q] == Some(k)
    case GoZombie(q) => me == Some(q) && q < |s.procs| && s.plock[q] == Some(k)
    case Charge(q) => me == Some(q) && q < |s.procs| && s.plock[q] == Some(k)
    case Switch(q) => me == Some(q) && q < |s.procs| && s.plock[q] == Some(k)
    case Stamp(q) => me == Some(q) && s.tickLk.None?
    case Kill(q) => q < |s.procs| && (s.plock[q] == Some(k) || (me == Some(q) && s.plock[q].None?))
    case SetParent(_, _) => s.waitLk == Some(k)
    case Tick => s.tickLk == Some(k)
    case _ => true
  }

  lemma HeldByBase(s: State, k: nat, me: nat)
    requires Running(s, k, me) && s.threads[me].tick.TNone? && LockOk(s) && GlobalLockOk(s)
    ensures BaseLock(me, s.threads[me].base).Some? ==>
      BaseLock(me, s.threads[me].base).value < |s.procs| && s.plock[BaseLock(me, s.threads[me].base).value] == Some(k)
    ensures BaseW(s.threads[me].base) ==> s.waitLk == Some(k)
    ensures BaseT(s.threads[me].base) ==> s.tickLk == Some(k)
  {
    hide BaseLock, BaseW, BaseT;
    var l := BaseLock(me, s.threads[me].base);
    if l.Some? { assert Holds(s, k, l.value); }
    assert BaseW(s.threads[me].base) ==> HoldsW(s, k);
    assert BaseT(s.threads[me].base) ==> HoldsT(s, k);
  }

  lemma HeldByTick(s: State, k: nat, me: nat)
    requires Running(s, k, me) && !s.threads[me].tick.TNone? && LockOk(s)
    ensures TickLock(me, s.threads[me].tick).Some? ==> s.plock[me] == Some(k)
  {
    var l := TickLock(me, s.threads[me].tick);
    if l.Some? { assert Holds(s, k, l.value); }
  }

  lemma HeldByIrq(s: State, k: nat)
    requires Shape(s) && k < |s.cpus| && LockOk(s) && GlobalLockOk(s)
    ensures IrqLock(s.cpus[k].irq).Some? ==>
      IrqLock(s.cpus[k].irq).value < |s.procs| && s.plock[IrqLock(s.cpus[k].irq).value] == Some(k)
    ensures IrqT(s.cpus[k].irq) ==> s.tickLk == Some(k)
  {
    hide IrqLock, IrqT;
    var l := IrqLock(s.cpus[k].irq);
    if l.Some? { assert Holds(s, k, l.value); }
    assert IrqT(s.cpus[k].irq) ==> HoldsT(s, k);
  }

  /** Outside kfork nobody touches a USED slot. */
  ghost predicate PlainOp(s: State, op: Op)
    requires Shape(s)
  {
    && !op.NewPid? && !op.InitCounters? && !op.Spawn?
    && (op.Free? ==> op.q < |s.procs| && s.procs[op.q].state.ZOMBIE?)
    && (op.Ready? ==> op.q < |s.procs| && s.procs[op.q].state.SLEEPING?)
  }

  predicate WakeOp(op: Op) {
    op.Nop? || op.Acq? || op.Rel? || op.Ready? || op.PushQ?
  }

  lemma WakePermitted(s: State, k: nat, me: Option<nat>, w: Wake, op: Op, w': Wake)
    requires Shape(s) && WakeCode(s, me, w, op, w')
    requires !w.ph.At? ==> s.plock[w.j] == Some(k)
    ensures Permitted(s, k, me, op) && WakeOp(op)
    ensures op.Ready? ==> op.q < |s.procs| && s.procs[op.q].state.SLEEPING?
  {
  }

  lemma ForkPermitted(s: State, k: nat, me: nat, op: Op, pc': Pc)
    requires Safe(s) && Running(s, k, me) && s.threads[me].tick.TNone?
    requires s.threads[me].base.InFork? && ForkCode(s, me, s.threads[me].base, op, pc')
    ensures Permitted(s, k, Some(me), op)
  {
    hide SlotOk, RunOk, QuietOk, LockOk, GlobalLockOk;
    HeldByBase(s, k, me);
  }

  lemma WaitPermitted(s: State, k: nat, me: nat, op: Op, pc': Pc)
    requires Safe(s) && Running(s, k, me) && s.threads[me].tick.TNone?
    requires s.threads[me].base.InWait? && WaitCode(s, me, s.threads[me].base, op, pc')
    ensures Permitted(s, k, Some(me), op) && PlainOp(s, op) && !pc'.InFork?
  {
    hide SlotOk, ForkOk, RunOk, QuietOk, LockOk, GlobalLockOk;
    HeldByBase(s, k, me);
  }

  lemma SleepPermitted(s: State, k: nat, me: nat, op: Op, pc': Pc)
    requires Safe(s) && Running(s, k, me) && s.threads[me].tick.TNone?
    requires s.threads[me].base.InSleep? && SleepCode(s, me, s.threads[me].base, op, pc')
    ensures Permitted(s, k, Some(me), op) && PlainOp(s, op) && !pc'.InFork?
  {
    hide SlotOk, ForkOk, RunOk, QuietOk, LockOk, GlobalLockOk;
    HeldByBase(s, k, me);
  }

  lemma ExitPermitted(s: State, k: nat, me: nat, op: Op, pc': Pc)
    requires Safe(s) && Running(s, k, me) && s.threads[me].tick.TNone?
    requires s.threads[me].base.InExit? && ExitCode(s, me, s.threads[me].base, op, pc')
    ensures Permitted(s, k, Some(me), op) && PlainOp(s, op) && !pc'.InFork?
  {
    hide SlotOk, ForkOk, RunOk, QuietOk, LockOk, GlobalLockOk, WakeCode;
    var pc := s.threads[me].base;
    HeldByBase(s, k, me);
    if (pc.exit.RepWake? || pc.exit.ExWake?) && !WakeDone(pc.w, |s.procs|) {
      WakePermitted(s, k, Some(me), pc.w, op, pc'.w);
    }
  }

  lemma KillPermitted(s: State, k: nat, me: nat, op: Op, pc': Pc)
    requires Safe(s) && Running(s, k, me) && s.threads[me].tick.TNone?
    requires s.threads[me].base.InKill? && KillCode(s, me, s.threads[me].base, op, pc')
    ensures Permitted(s, k, Some(me), op) && PlainOp(s, op) && !pc'.InFork?
  {
    hide SlotOk, ForkOk, RunOk, QuietOk, LockOk, GlobalLockOk;
    HeldByBase(s, k, me);
  }

  /** Every write of a process step happens under the lock that protects the field. */
  lemma BasePermitted(s: State, k: nat, me: nat, op: Op, pc': Pc)
    requires Safe(s) && Running(s, k, me) && s.threads[me].tick.TNone?
    requires BaseCode(s, me, s.threads[me].base, op, pc')
    ensures Permitted(s, k, Some(me), op)
    ensures !s.threads[me].base.InFork? ==> PlainOp(s, op) && ForkSlot(pc').None?
  {
    hide SlotOk, ForkOk, LockOk;
    match s.threads[me].base {
      case InFork(_, _) => ForkPermitted(s, k, me, op, pc');
      case InWait(_, _, _, _) => WaitPermitted(s, k, me, op, pc');
      case InSleep(_, _) => SleepPermitted(s, k, me, op, pc');
      case InExit(_, _, _) => ExitPermitted(s, k, me, op, pc');
      case InKill(_, _, _) => KillPermitted(s, k, me, op, pc');
      case _ =>
    }
  }

  lemma TickPermitted(s: State, k: nat, me: nat, op: Op, pc': TickPc)
    requires Safe(s) && Running(s, k, me) && !s.threads[me].tick.TNone?
    requires TickCode(s, me, s.threads[me].tick, op, pc')
    ensures Permitted(s, k, Some(me), op)
  {
    hide ForkOk;
    HeldByTick(s, k, me);
    assert SlotOk(me, s.procs[me], s.threads[me]);
  }

  lemma IrqPermitted(s: State, k: nat, op: Op, irq': Irq)
    requires Safe(s) && k < |s.cpus| && IrqCode(s, s.cpus[k].cproc, s.cpus[k].irq, op, irq')
    ensures Permitted(s, k, s.cpus[k].cproc, op)
    ensures WakeOp(op) || op.AcqT? || op.RelT? || op.Tick?
    ensures op.Ready? ==> op.q < |s.procs| && s.procs[op.q].state.SLEEPING?
    ensures s.cpus[k].irq.IUnlock? ==> irq'.INone? && op.RelT?
  {
    hide ForkOk, SlotOk, WakeCode;
    HeldByIrq(s, k);
    var irq := s.cpus[k].irq;
    if irq.IWake? && !WakeDone(irq.w, |s.procs|) { WakePermitted(s, k, s.cpus[k].cproc, irq.w, op, irq'.w); }
  }
}
