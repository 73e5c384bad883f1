/**
 The process tree: parents are live and older than their children, an exiting process has
 handed its children to init before it becomes a zombie, and live pids are distinct.
 */
module KernelTree {
  import opened Kernel
  import opened KernelLocks
  import opened KernelSafe

  predicate Live(st: PState) { st.SLEEPING? || st.RUNNABLE? || st.RUNNING? }

  predicate SameClass(a: PState, b: PState) { a == b || (Live(a) && Live(b)) }

  /** The place of slot q in the tree. */
  ghost predicate NodeOk(s: State, q: nat)
    requires Shape(s) && q < |s.procs|
  {
    var pr := s.procs[q];
    if pr.state.UNUSED? then q != INIT && pr.pid == 0 && pr.parent.None?
    else
      && 0 < pr.pid < s.nextpid
      && (pr.parent.Some? ==>
            pr.parent.value < |s.procs| && Live(s.procs[pr.parent.value].state)
                && s.procs[pr.parent.value].pid < pr.pid)
      && (q == INIT ==> Live(pr.state) && pr.parent.None?)
      && (q != INIT ==> s.procs[INIT].pid < pr.pid)
      && (q != INIT && !pr.state.USED? ==> pr.parent.Some?)
  }

  ghost predicate PidsDistinct(s: State)
    requires Shape(s)
  {
    forall p, q {:trigger s.procs[p], s.procs[q]} ::
      0 <= p < q < |s.procs| && !s.procs[p].state.UNUSED? && !s.procs[q].state.UNUSED? ==>
      s.procs[p].pid != s.procs[q].pid
  }

  /** An exiting process at pc has no children in the slots below this bound. */
  function KidFree(pc: Pc, slots: nat): nat {
    if !pc.InExit? then 0
    else match pc.exit
      case Reparent => pc.orphan
      case RepWake => pc.orphan + 1
      case ExWake | ExitMine | ExitSet => slots
      case _ => 0
  }

  ghost predicate NoKidsBelow(s: State, f: nat, n: nat)
    requires Shape(s)
  {
    forall c {:trigger s.procs[c]} :: 0 <= c < |s.procs| && c < n ==> s.procs[c].parent != Some(f)
  }

  /** What the tree owes to the place of thread f. */
  ghost predicate ThreadTree(s: State, f: nat)
    requires Shape(s) && f < |s.procs|
  {
    var pc := s.threads[f].base;
    && (ForkSlot(pc).Some? ==>
          && ForkSlot(pc).value < |s.procs|
          && s.procs[f].pid < s.procs[ForkSlot(pc).value].pid
          && (pc.fork.ForkUnlink? || pc.fork.ForkPub? || pc.fork.ForkHeld? ==>
              s.procs[ForkSlot(pc).value].parent == Some(f)))
    && (pc.InExit? && !pc.exit.ExitAt? ==> f != INIT)
    && NoKidsBelow(s, f, KidFree(pc, |s.procs|))
  }

  ghost predicate TreeOk(s: State)
    requires Shape(s)
  {
    && 0 < s.nextpid
    && (forall q {:trigger NodeOk(s, q)} :: 0 <= q < |s.procs| ==> NodeOk(s, q))
    && PidsDistinct(s)
    && (forall f {:trigger ThreadTree(s, f)} :: 0 <= f < |s.procs| ==> ThreadTree(s, f))
  }

  // ---------- Steps that do not touch the tree ----------

  ghost predicate NodeFrame(s: State, s': State) {
    && Shape(s) && Shape(s') && |s'.procs| == |s.procs| && s'.nextpid == s.nextpid
    && forall q {:trigger s'.procs[q]} :: 0 <= q < |s.procs| ==>
         && s'.procs[q].pid == s.procs[q].pid && s'.procs[q].parent == s.procs[q].parent
         && SameClass(s.procs[q].state, s'.procs[q].state)
  }

  /** Neither forking nor exiting. */
  predicate Plain(pc: Pc) {
    ForkSlot(pc).None? && (pc.InExit? ==> pc.exit.ExitAt?)
  }

  ghost predicate TreeFrame(s: State, s': State) {
    && NodeFrame(s, s')
    && forall f {:trigger s'.threads[f]} :: 0 <= f < |s.procs| ==>
         s'.threads[f].base == s.threads[f].base || Plain(s'.threads[f].base)
  }

  lemma FrameNode(s: State, s': State, q: nat)
    requires NodeFrame(s, s') && q < |s.procs| && NodeOk(s, q)
    ensures NodeOk(s', q)
  {
  }

  lemma FramePids(s: State, s': State)
    requires NodeFrame(s, s') && PidsDistinct(s)
    ensures PidsDistinct(s')
  {
  }

  lemma FrameThread(s: State, s': State, f: nat)
    requires NodeFrame(s, s') && f < |s.procs| && ThreadTree(s, f)
    requires s'.threads[f].base == s.threads[f].base || Plain(s'.threads[f].base)
    ensures ThreadTree(s', f)
  {
  }

  lemma FrameTree(s: State, s': State)
    requires TreeFrame(s, s') && TreeOk(s)
    ensures TreeOk(s')
  {
    hide NodeOk, ThreadTree, PidsDistinct;
    FramePids(s, s');
    forall q | 0 <= q < |s'.procs| ensures NodeOk(s', q) { FrameNode(s, s', q); }
    forall f | 0 <= f < |s'.procs| ensures ThreadTree(s', f) { FrameThread(s, s', f); }
  }

  predicate TickOp(me: nat, op: Op) {
    op.Nop? || op.Acq? || op.Rel? || op.PushQ? || (op.Ready? && op.q == me) || op.Charge? || op.Switch?
  }

  lemma TickTree(s: State, me: nat, op: Op, pc': TickPc, s': State)
    requires Wrote(s, me, op, s') && Stepped(s, me, op, s.threads[me].(tick := pc'), s')
    requires TickOp(me, op) && (op.Ready? ==> s.procs[me].state.RUNNING?)
    ensures TreeFrame(s, s')
  {
  }

  lemma IrqTree(s: State, k: nat, op: Op, irq': Irq, s': State)
    requires Wrote(s, INIT, op, s') && IrqFrame(s, k, irq', s')
    requires WakeOp(op) || op.AcqT? || op.RelT? || op.Tick?
    requires op.Ready? ==> op.q < |s.procs| && s.procs[op.q].state.SLEEPING?
    ensures TreeFrame(s, s')
  {
  }

  lemma ArrivalTree(s: State, k: nat, s': State)
    requires Arrival(s, k, s') && s'.nextpid == s.nextpid
    ensures TreeFrame(s, s')
  {
    hide Quiet;
  }

  lemma SwtchTree(s: State, k: nat, s': State)
    requires SwtchStep(s, k, s')
    ensures TreeFrame(s, s')
  {
  }

  lemma DispatchTree(s: State, k: nat, q: nat, s': State)
    requires DispatchStep(s, k, q, s')
    ensures TreeFrame(s, s')
  {
  }

  // ---------- Steps of a process ----------

  /** Where in the code the operations stand that change the tree. */
  ghost predicate TreeMove(s: State, me: nat, pc: Pc, op: Op)
    requires Shape(s)
  {
    match op
    case SetParent(q, r) =>
      || (IsFork(pc, ForkSet) && q == pc.i && r == me)
      || (IsExit(pc, Reparent) && q == pc.orphan && q < |s.procs| && s.procs[q].parent == Some(me) && r == INIT)
    case GoZombie(q) => q == me && IsExit(pc, ExitSet)
    case GoSleep(q, _) => q == me && IsSleep(pc, SleepSet)
    case _ => true
  }

  lemma BaseTreeMove(s: State, me: nat, pc: Pc, op: Op, pc': Pc)
    requires Shape(s) && me < |s.procs| && BaseCode(s, me, pc, op, pc')
    ensures TreeMove(s, me, pc, op)
  {
    hide WakeCode, StillPausing;
    if pc.InExit? { ExitTreeMove(s, me, pc, op, pc'); }
  }

  lemma ExitTreeMove(s: State, me: nat, pc: Pc, op: Op, pc': Pc)
    requires Shape(s) && me < |s.procs| && pc.InExit? && ExitCode(s, me, pc, op, pc')
    ensures TreeMove(s, me, pc, op)
  {
  }

  /** The slots after a step of process me, which is alive. */
  ghost predicate TreeStep(s: State, k: nat, me: nat, op: Op, s': State) {
    && Wrote(s, me, op, s') && TreeMove(s, me, s.threads[me].base, op)
    && Permitted(s, k, Some(me), op) && ForkOwned(s, me, op)
    && (var pc := s.threads[me].base;
        IsExit(pc, ExitSet) || IsSleep(pc, SleepSet) || IsFork(pc, ForkSet) ==> s.procs[me].state.RUNNING?)
  }

  /** A live process stays live, unless it exits, and then it has no children. */
  lemma ParentStays(s: State, k: nat, me: nat, op: Op, s': State, r: nat)
    requires TreeStep(s, k, me, op, s') && r < |s.procs| && Live(s.procs[r].state)
    ensures (Live(s'.procs[r].state) && s'.procs[r].pid == s.procs[r].pid) || (op.GoZombie? && r == me)
  {
  }

  lemma UntouchedNode(s: State, k: nat, me: nat, op: Op, s': State, q: nat)
    requires TreeStep(s, k, me, op, s') && TreeOk(s) && q < |s.procs| && Target(op) != Some(q)
    ensures NodeOk(s', q)
  {
    hide PidsDistinct, Changed, Permitted, ForkOwned;
    assert NodeOk(s, q) && ThreadTree(s, me);
    if s.procs[q].parent.Some? { ParentStays(s, k, me, op, s', s.procs[q].parent.value); }
    InitStays(s, k, me, op, s');
  }

  lemma InitStays(s: State, k: nat, me: nat, op: Op, s': State)
    requires TreeStep(s, k, me, op, s') && TreeOk(s)
    ensures Live(s'.procs[INIT].state) && s'.procs[INIT].pid == s.procs[INIT].pid
    ensures Live(s.procs[INIT].state) && s.procs[INIT].parent.None? && s.procs[INIT].pid < s.nextpid
  {
    hide PidsDistinct, Changed, Permitted, ForkOwned;
    assert NodeOk(s, INIT) && ThreadTree(s, me);
    ParentStays(s, k, me, op, s', INIT);
  }

  lemma TargetNode(s: State, k: nat, me: nat, op: Op, s': State, q: nat)
    requires TreeStep(s, k, me, op, s') && TreeOk(s) && q < |s.procs| && Target(op) == Some(q)
    ensures NodeOk(s', q)
  {
    hide PidsDistinct;
    InitStays(s, k, me, op, s');
    assert NodeOk(s, q) && NodeOk(s, me) && ThreadTree(s, me);
    if s.procs[q].parent.Some? { ParentStays(s, k, me, op, s', s.procs[q].parent.value); }
    if Live(s.procs[me].state) { ParentStays(s, k, me, op, s', me); }
  }

  lemma PidAfter(s: State, k: nat, me: nat, op: Op, s': State, p: nat)
    requires TreeStep(s, k, me, op, s') && p < |s.procs| && !s'.procs[p].state.UNUSED?
    ensures if op == NewPid(p) then s'.procs[p].pid == s.nextpid
            else !s.procs[p].state.UNUSED? && s'.procs[p].pid == s.procs[p].pid
  {
    hide ForkOwned;
  }

  lemma BasePids(s: State, k: nat, me: nat, op: Op, s': State)
    requires TreeStep(s, k, me, op, s') && TreeOk(s)
    ensures PidsDistinct(s')
  {
    hide ForkOwned, Permitted, Changed, TreeMove;
    forall p, q | 0 <= p < q < |s'.procs| && !s'.procs[p].state.UNUSED? && !s'.procs[q].state.UNUSED?
      ensures s'.procs[p].pid != s'.procs[q].pid
    {
      assert NodeOk(s, p) && NodeOk(s, q);
      PidAfter(s, k, me, op, s', p);
      PidAfter(s, k, me, op, s', q);
    }
  }

  /** No other process gets a child from this step: kfork links a child to its caller and
      reparent links children to init, which does not exit. */
  lemma OtherKids(s: State, k: nat, me: nat, op: Op, s': State, f: nat, n: nat)
    requires TreeStep(s, k, me, op, s') && f != me && NoKidsBelow(s, f, n) && (f == INIT ==> n == 0)
    ensures NoKidsBelow(s', f, n)
  {
    hide Permitted, ForkOwned;
  }

  lemma OtherThread(s: State, k: nat, me: nat, op: Op, pc': Pc, s': State, f: nat)
    requires TreeStep(s, k, me, op, s') && TreeOk(s) && ForkOk(s) && StateOk(s)
    requires Stepped(s, me, op, s.threads[me].(base := pc'), s')
    requires f < |s.procs| && f != me
    ensures ThreadTree(s', f)
  {
    hide PidsDistinct, Permitted, ForkOwned, NodeOk, Changed, TreeMove, NoKidsBelow, TreeOk, ForkOk, StateOk;
    NodeAndThread(s, f);
    if op == Spawn(f) {
      assert NoKidsBelow(s', f, 0) by { NoneBelowZero(s', f); }
    } else {
      OtherKids(s, k, me, op, s', f, KidFree(s.threads[f].base, |s.procs|));
      if ForkSlot(s.threads[f].base).Some? {
        ForkKnown(s, f, me);
        ForkerLive(s, f);
        OtherForkNode(s, k, me, op, s', f);
      }
    }
  }

  lemma NoneBelowZero(s: State, f: nat)
    requires Shape(s)
    ensures NoKidsBelow(s, f, 0)
  {
  }

  lemma NodeAndThread(s: State, f: nat)
    requires Shape(s) && TreeOk(s) && f < |s.procs|
    ensures NodeOk(s, f) && ThreadTree(s, f)
  {
    hide NodeOk, ThreadTree;
  }

  /** Another process's allocated slot keeps its pid and, once it is linked, its parent. */
  lemma OtherForkNode(s: State, k: nat, me: nat, op: Op, s': State, f: nat)
    requires TreeStep(s, k, me, op, s') && f < |s.procs| && f != me
    requires ForkSlot(s.threads[f].base).Some? && ForkedOk(s, f, ForkSlot(s.threads[f].base).value)
    requires ForkSlot(s.threads[me].base) != ForkSlot(s.threads[f].base)
    ensures var q := ForkSlot(s.threads[f].base).value;
      s'.procs[q].pid == s.procs[q].pid && (s.procs[q].parent == Some(f) ==> s'.procs[q].parent == Some(f))
    ensures Live(s.procs[f].state) ==> s'.procs[f].pid == s.procs[f].pid
  {
  }

  lemma ForkerLive(s: State, f: nat)
    requires Shape(s) && StateOk(s) && f < |s.procs| && ForkSlot(s.threads[f].base).Some?
    ensures Live(s.procs[f].state)
  {
    SlotStays(s, f);
  }

  // ---------- The stepping process ----------

  /** The place to which process me moves keeps what the tree owes to it. */
  ghost predicate MovesWell(s: State, me: nat, op: Op, pc': Pc, s': State) {
    && Wrote(s, me, op, s')
    && Stepped(s, me, op, s.threads[me].(base := pc'), s')
    && s'.threads[me].base == pc'
  }

  /** After ForkSet the allocated slot has a parent. */
  predicate Linked(pc: Pc) { pc.InFork? && (pc.fork.ForkUnlink? || pc.fork.ForkPub? || pc.fork.ForkHeld?) }

  lemma ForkPhases(s: State, me: nat, pc: Pc, op: Op, pc': Pc)
    requires Shape(s) && me < |s.procs| && pc.InFork? && ForkCode(s, me, pc, op, pc')
    ensures pc'.User? || (pc'.InFork? && (pc'.i == pc.i || ForkSlot(pc').None?))
    ensures Linked(pc') ==> (Linked(pc) && !op.SetParent? && !op.Free? && !op.NewPid?) || op == SetParent(pc.i, me)
    ensures ForkSlot(pc').Some? && ForkSlot(pc).None? ==> op == NewPid(pc.i)
    ensures ForkSlot(pc').Some? ==> !op.Free?
  {
  }

  lemma ForkTree(s: State, me: nat, op: Op, pc': Pc, s': State)
    requires MovesWell(s, me, op, pc', s') && ThreadTree(s, me) && NodeOk(s, me) && Live(s.procs[me].state)
    requires s.threads[me].base.InFork? && ForkCode(s, me, s.threads[me].base, op, pc')
    requires Target(op) == Some(me) ==> op.Acq? || op.Rel? || op.PushQ? || op.Kill?
    requires Target(op).Some? ==> Target(op).value < |s.procs|
    ensures ThreadTree(s', me)
  {
    ForkPhases(s, me, s.threads[me].base, op, pc');
    hide ForkCode;
  }

  /** A step of kexit leaves me without children below a bound that grows by one slot. */
  ghost predicate KidMove(s: State, me: nat, op: Op, pc: Pc, pc': Pc)
    requires Shape(s)
  {
    var n, n' := KidFree(pc, |s.procs|), KidFree(pc', |s.procs|);
    && (|| n' <= n || |s.procs| <= n
        || (n' == n + 1 && n < |s.procs| && (s.procs[n].parent != Some(me) || op == SetParent(n, INIT))))
    && ForkSlot(pc').None?
    && (pc'.InExit? && !pc'.exit.ExitAt? ==> me != INIT || (pc.InExit? && !pc.exit.ExitAt?))
    && (op.SetParent? ==> op.r == INIT && pc.InExit? && !pc.exit.ExitAt?)
  }

  lemma ExitKids(s: State, me: nat, pc: Pc, op: Op, pc': Pc)
    requires Shape(s) && me < |s.procs| && pc.InExit? && ExitCode(s, me, pc, op, pc')
    ensures KidMove(s, me, op, pc, pc')
  {
  }

  lemma ExitTree(s: State, me: nat, op: Op, pc': Pc, s': State)
    requires MovesWell(s, me, op, pc', s') && ThreadTree(s, me) && KidMove(s, me, op, s.threads[me].base, pc')
    ensures ThreadTree(s', me)
  {
    hide KidFree, ForkSlot;
  }

  lemma PlainTree(s: State, me: nat, s': State)
    requires Shape(s') && me < |s'.procs| && Plain(s'.threads[me].base)
    ensures ThreadTree(s', me)
  {
  }

  // ---------- All steps, all runs ----------

  lemma ForkTargets(s: State, k: nat, me: nat, op: Op, pc': Pc)
    requires Safe(s) && Running(s, k, me) && s.threads[me].tick.TNone?
    requires s.threads[me].base.InFork? && ForkCode(s, me, s.threads[me].base, op, pc')
    ensures Target(op) == Some(me) ==> op.Acq? || op.Rel? || op.PushQ? || op.Kill?
    ensures Live(s.procs[me].state)
  {
    hide QuietOk, LockOk, GlobalLockOk;
    SlotStays(s, me);
  }

  lemma MineTree(s: State, k: nat, me: nat, op: Op, pc': Pc, s': State)
    requires Safe(s) && TreeOk(s) && BaseEffect(s, k, me, op, pc', s') && MovesWell(s, me, op, pc', s')
    requires BaseCode(s, me, s.threads[me].base, op, pc')
    ensures ThreadTree(s', me)
  {
    hide SlotOk, QuietOk, LockOk, GlobalLockOk, RunOk, ForkOk, StateOk, NodeOk, TreeOk, PidsDistinct;
    hide ForkCode, WaitCode, SleepCode, ExitCode, KillCode, PauseCode, EntryCode, MovesWell, ThreadTree, KidMove;
    BaseRunning(s, k, me, op, pc', s');
    NodeAndThread(s, me);
    var pc := s.threads[me].base;
    if pc.InFork? {
      ForkTargets(s, k, me, op, pc');
      EnabledTarget(s, op);
      ForkTree(s, me, op, pc', s');
    } else if pc.InExit? {
      ExitKids(s, me, pc, op, pc');
      ExitTree(s, me, op, pc', s');
    } else {
      PlainMoves(s, me, pc, op, pc');
      MovedTo(s, me, op, pc', s');
      PlainTree(s, me, s');
    }
  }

  lemma EnabledTarget(s: State, op: Op)
    requires Shape(s) && Enabled(s, op)
    ensures Target(op).Some? ==> Target(op).value < |s.procs|
  {
  }

  lemma MovedTo(s: State, me: nat, op: Op, pc': Pc, s': State)
    requires MovesWell(s, me, op, pc', s')
    ensures Shape(s') && me < |s'.procs| && s'.threads[me].base == pc'
  {
    hide Changed;
  }

  lemma PlainMoves(s: State, me: nat, pc: Pc, op: Op, pc': Pc)
    requires Shape(s) && me < |s.procs| && BaseCode(s, me, pc, op, pc') && !pc.InFork? && !pc.InExit?
    ensures Plain(pc')
  {
    hide StillPausing;
  }

  /** What is known of every step of a process. */
  lemma BaseFacts(s: State, k: nat, op: Op, pc': Pc, s': State)
    requires Safe(s) && BaseStep(s, k, op, pc', s')
    ensures var me := s.cpus[k].spc.p;
      && Running(s, k, me) && s.threads[me].tick.TNone? && BaseCode(s, me, s.threads[me].base, op, pc')
      && BaseEffect(s, k, me, op, pc', s')
      && TreeStep(s, k, me, op, s') && Stepped(s, me, op, s.threads[me].(base := pc'), s')
      && MovesWell(s, me, op, pc', s')
  {
    hide SlotOk, QuietOk, LockOk, GlobalLockOk, RunOk, ForkOk, StateOk;
    hide BaseCode, TreeMove, Permitted, ForkOwned, ForkMove, BaseEffect, Wrote, Stepped, MovesWell;
    var me := s.cpus[k].spc.p;
    BaseRunning(s, k, me, op, pc', s');
    BasePermitted(s, k, me, op, pc');
    BaseForkMove(s, k, me, op, pc');
    BaseTreeMove(s, me, s.threads[me].base, op, pc');
    RunningHere(s, k, me);
    NotSelfSpawn(s, k, me, op);
    BaseWrites(s, k, me, op, pc', s');
    MovedBase(s, me, op, pc', s');
  }

  lemma BaseTree(s: State, k: nat, op: Op, pc': Pc, s': State)
    requires Safe(s) && TreeOk(s) && BaseStep(s, k, op, pc', s')
    ensures Shape(s') && TreeOk(s')
  {
    hide SlotOk, QuietOk, LockOk, GlobalLockOk, RunOk, ForkOk, StateOk, NodeOk, PidsDistinct;
    hide BaseStep, BaseEffect, BaseCode, ThreadTree, TreeStep, Stepped, MovesWell;
    RunningCpu(s, k, op, pc', s');
    var me := s.cpus[k].spc.p;
    BaseFacts(s, k, op, pc', s');
    MineTree(s, k, me, op, pc', s');
    BasePids(s, k, me, op, s');
    NextPidGrows(s, k, me, op, s');
    forall q | 0 <= q < |s'.procs| ensures NodeOk(s', q) {
      if Target(op) == Some(q) { TargetNode(s, k, me, op, s', q); } else { UntouchedNode(s, k, me, op, s', q); }
    }
    forall f | 0 <= f < |s'.procs| ensures ThreadTree(s', f) {
      if f != me { OtherThread(s, k, me, op, pc', s', f); }
    }
  }

  lemma RunningCpu(s: State, k: nat, op: Op, pc': Pc, s': State)
    requires BaseStep(s, k, op, pc', s')
    ensures Shape(s) && k < |s.cpus| && s.cpus[k].spc.SRun?
  {
    hide BaseEffect, BaseCode;
  }

  lemma MovedBase(s: State, me: nat, op: Op, pc': Pc, s': State)
    requires Wrote(s, me, op, s') && Stepped(s, me, op, s.threads[me].(base := pc'), s')
    ensures MovesWell(s, me, op, pc', s') && Shape(s') && |s'.procs| == |s.procs|
  {
    hide Changed;
  }

  lemma NextPidGrows(s: State, k: nat, me: nat, op: Op, s': State)
    requires TreeStep(s, k, me, op, s') && TreeOk(s)
    ensures 0 < s'.nextpid && Shape(s') && |s'.procs| == |s.procs|
  {
    hide Changed, Permitted, ForkOwned;
  }

  lemma NotSelfSpawn(s: State, k: nat, me: nat, op: Op)
    requires Safe(s) && Running(s, k, me) && Permitted(s, k, Some(me), op)
    ensures op != Spawn(me)
  {
    hide QuietOk, LockOk, GlobalLockOk, StateOk, ForkOk;
  }

  lemma RunningHere(s: State, k: nat, me: nat)
    requires Safe(s) && Running(s, k, me) && s.threads[me].tick.TNone?
    ensures var pc := s.threads[me].base;
      IsExit(pc, ExitSet) || IsSleep(pc, SleepSet) || IsFork(pc, ForkSet) ==> s.procs[me].state.RUNNING?
  {
    hide QuietOk, LockOk, GlobalLockOk, ForkOk;
    SlotStays(s, me);
  }

  lemma TickOps(s: State, me: nat, op: Op, pc': TickPc)
    requires Shape(s) && me < |s.procs| && TickCode(s, me, s.threads[me].tick, op, pc')
    ensures TickOp(me, op)
  {
  }

  lemma YieldRuns(s: State, k: nat, me: nat, op: Op, pc': TickPc)
    requires Safe(s) && Running(s, k, me) && TickCode(s, me, s.threads[me].tick, op, pc') && op.Ready?
    ensures s.procs[me].state.RUNNING?
  {
    hide RunOk, LockOk, GlobalLockOk, ForkOk, QuietOk;
    SlotStays(s, me);
  }

  lemma TickKeepsTree(s: State, k: nat, op: Op, pc': TickPc, s': State)
    requires Safe(s) && TickStep(s, k, op, pc', s')
    ensures TreeFrame(s, s')
  {
    hide Safe, TickCode, Wrote, Stepped, TreeFrame, Changed;
    var me := s.cpus[k].spc.p;
    TickOps(s, me, op, pc');
    if op.Ready? { YieldRuns(s, k, me, op, pc'); }
    TickWrites(s, k, me, op, pc', s');
    TickTree(s, me, op, pc', s');
  }

  lemma IrqKeepsTree(s: State, k: nat, op: Op, irq': Irq, end: TickEnd, s': State)
    requires Safe(s) && IrqStep(s, k, op, irq', end, s')
    ensures TreeFrame(s, s')
  {
    hide QuietOk, LockOk, GlobalLockOk, ForkOk, StateOk, Wrote, IrqFrame, IrqEffect, IrqCode, TreeFrame, Permitted;
    IrqRunning(s, k, op, irq', end, s');
    IrqPermitted(s, k, op, irq');
    IrqWrites(s, k, op, irq', end, s');
    IrqTree(s, k, op, irq', s');
  }

  lemma SimpleKeepsTree(s: State, st: Step, s': State)
    requires NextStep(s, st, s') && !st.BaseGo? && !st.TickGo? && !st.IrqGo?
    ensures TreeFrame(s, s')
  {
    hide BaseStep, TickStep, IrqStep;
    match st {
      case TimerStart(k, end) => TimerArrives(s, k, end, s'); ArrivalTree(s, k, s');
      case DeviceStart(k, id) => DeviceArrives(s, k, id, s'); ArrivalTree(s, k, s');
      case SwtchOut(k) => SwtchTree(s, k, s');
      case Dispatch(k, q) => DispatchTree(s, k, q, s');
      case _ =>
    }
  }

  lemma NextTree(s: State, st: Step, s': State)
    requires Safe(s) && TreeOk(s) && NextStep(s, st, s')
    ensures Shape(s') && TreeOk(s')
  {
    hide Safe, TreeOk, BaseStep, TickStep, IrqStep, TimerStep, DeviceStep, SwtchStep, ClearStep, DispatchStep,
        SchedAcqStep, SchedRelStep;
    NextSafe(s, st, s');
    SafeShape(s); SafeShape(s');
    match st {
      case BaseGo(k, op, pc) => BaseTree(s, k, op, pc, s');
      case TickGo(k, op, pc) => TickKeepsTree(s, k, op, pc, s'); FrameTree(s, s');
      case IrqGo(k, op, irq, end) => IrqKeepsTree(s, k, op, irq, end, s'); FrameTree(s, s');
      case _ => SimpleKeepsTree(s, st, s'); FrameTree(s, s');
    }
  }

  lemma SafeShape(s: State)
    requires Safe(s)
    ensures Shape(s)
  {
  }

  lemma InitTree(s: State)
    requires Init(s)
    ensures TreeOk(s)
  {
  }

  lemma NextKeepsTree(s: State, s': State)
    requires Safe(s) && TreeOk(s) && Next(s, s')
    ensures Shape(s') && TreeOk(s')
  {
    hide Safe, NextStep, TreeOk;
    var st :| NextStep(s, st, s');
    NextTree(s, st, s');
  }

  lemma {:induction false} RunTree(tr: seq<State>, i: nat)
    requires Run(tr) && i < |tr|
    ensures Safe(tr[i]) && TreeOk(tr[i])
  {
    hide Safe, Next, Init, TreeOk;
    RunSafe(tr, i);
    SafeShape(tr[i]);
    if i == 0 {
      InitTree(tr[0]);
    } else {
      RunTree(tr, i - 1);
      NextKeepsTree(tr[i - 1], tr[i]);
    }
  }

  // ---------- Theorems about the tree ----------

  /** Following `parent` n times from slot q. */
  ghost function Ancestor(s: State, q: nat, n: nat): Option<nat>
    decreases n
  {
    if n == 0 then Some(q)
    else if q < |s.procs| && s.procs[q].parent.Some? then Ancestor(s, s.procs[q].parent.value, n - 1)
    else None
  }

  /** A parent is alive and older than its child, so a zombie has no children. */
  lemma ParentsAlive(tr: seq<State>, i: nat, q: nat)
    requires Run(tr) && i < |tr| && Shape(tr[i]) && q < |tr[i].procs| && tr[i].procs[q].parent.Some?
    ensures var r := tr[i].procs[q].parent.value;
      r < |tr[i].procs| && Live(tr[i].procs[r].state) && tr[i].procs[r].pid < tr[i].procs[q].pid
  {
    hide Safe, ThreadTree, PidsDistinct;
    RunTree(tr, i);
    assert NodeOk(tr[i], q);
  }

  lemma LivePidsDistinct(tr: seq<State>, i: nat, p: nat, q: nat)
    requires Run(tr) && i < |tr| && Shape(tr[i]) && p < q < |tr[i].procs|
    requires !tr[i].procs[p].state.UNUSED? && !tr[i].procs[q].state.UNUSED?
    ensures tr[i].procs[p].pid != tr[i].procs[q].pid
  {
    hide Safe, ThreadTree, NodeOk;
    RunTree(tr, i);
  }

  /** pids fall along every chain of parents. */
  lemma {:induction false} AncestorsOlder(s: State, q: nat, n: nat)
    requires Shape(s) && TreeOk(s) && q < |s.procs| && 0 < n && Ancestor(s, q, n).Some?
    ensures Ancestor(s, q, n).value < |s.procs| && s.procs[Ancestor(s, q, n).value].pid < s.procs[q].pid
    decreases n
  {
    hide ThreadTree, PidsDistinct;
    assert NodeOk(s, q);
    if n > 1 { AncestorsOlder(s, s.procs[q].parent.value, n - 1); }
  }

  lemma {:induction false} AncestryEnds(s: State, q: nat) returns (n: nat)
    requires Shape(s) && TreeOk(s) && q < |s.procs| && (Live(s.procs[q].state) || s.procs[q].state.ZOMBIE?)
    ensures Ancestor(s, q, n) == Some(INIT)
    decreases s.procs[q].pid
  {
    hide ThreadTree, PidsDistinct;
    assert NodeOk(s, q);
    if q == INIT {
      n := 0;
    } else {
      var m := AncestryEnds(s, s.procs[q].parent.value);
      n := m + 1;
    }
  }

  /** Parent chains have no cycle and end at init. */
  lemma TreeRootedAtInit(tr: seq<State>, i: nat, q: nat)
    requires Run(tr) && i < |tr| && Shape(tr[i]) && q < |tr[i].procs|
    requires Live(tr[i].procs[q].state) || tr[i].procs[q].state.ZOMBIE?
    ensures exists n: nat :: Ancestor(tr[i], q, n) == Some(INIT)
    ensures forall n: nat :: 0 < n ==> Ancestor(tr[i], q, n) != Some(q)
  {
    hide Safe, TreeOk;
    RunTree(tr, i);
    var n := AncestryEnds(tr[i], q);
    assert Ancestor(tr[i], q, n) == Some(INIT);
    forall m: nat | 0 < m
      ensures Ancestor(tr[i], q, m) != Some(q)
    {
      if Ancestor(tr[i], q, m).Some? { AncestorsOlder(tr[i], q, m); }
    }
  }
}
