/**
 No lost exit: whenever wait_lock is free, a process that sleeps in kwait or waitx has no
 zombie child. The proof follows the two wakeups of kexit while it holds wait_lock.
 */
module KernelWait {
  import opened Kernel
  import opened KernelLocks
  import opened KernelSafe
  import opened KernelTree

  /** Process q has released wait_lock to sleep in kwait and nobody has woken it yet. */
  ghost predicate Asleep(s: State, q: nat)
    requires Shape(s) && q < |s.procs|
  {
    var th := s.threads[q];
    && th.tick.TNone? && th.base.InSleep? && th.base.r.ToWait?
    && (|| th.base.sleep.SleepSet? || th.base.sleep.SleepSched? || th.base.sleep.SleepSwtch?
        || (th.base.sleep.SleepBack? && s.procs[q].state.SLEEPING?))
  }

  ghost predicate ZombieKid(s: State, q: nat, c: nat)
    requires Shape(s) && c < |s.procs|
  {
    s.procs[c].parent == Some(q) && s.procs[c].state.ZOMBIE?
  }

  ghost predicate NoZombieKids(s: State, q: nat, n: nat)
    requires Shape(s)
  {
    forall c {:trigger ZombieKid(s, q, c)} :: 0 <= c < |s.procs| && c < n ==> !ZombieKid(s, q, c)
  }

  /** The loop of wakeup has still to decide about slot q. */
  predicate Pending(w: Wake, q: nat) {
    w.j < q || (w.j == q && (w.ph.At? || w.ph.Held?))
  }

  /** reparent has just given a child to init and has not yet reached init's slot. */
  predicate InitPending(pc: Pc) {
    pc.InExit? && pc.exit.RepWake? && Pending(pc.w, INIT)
  }

  ghost predicate SleeperOk(s: State, q: nat)
    requires Shape(s) && q < |s.procs|
  {
    Asleep(s, q) ==>
      || NoZombieKids(s, q, |s.procs|)
      || (q == INIT && exists x {:trigger s.threads[x]} :: 0 <= x < |s.procs| && InitPending(s.threads[x].base))
  }

  ghost predicate ParentAwake(s: State, x: nat)
    requires Shape(s) && x < |s.procs|
  {
    s.procs[x].parent.Some? && s.procs[x].parent.value < |s.procs| ==> !Asleep(s, s.procs[x].parent.value)
  }

  /** What the holder of wait_lock knows at its place in the code. */
  ghost predicate HolderOk(s: State, x: nat)
    requires Shape(s) && x < |s.procs|
  {
    match s.threads[x].base
    case InWait(_, child, _, ph) => ph.WaitScan? || ph.WaitHeld? ==> NoZombieKids(s, x, child)
    case InSleep(r, ph) => r.ToWait? && (ph.SleepAt? || ph.SleepUnlock?) ==> NoZombieKids(s, x, |s.procs|)
    case InExit(_, w, ph) =>
      && (ph.RepWake? ==> w.chan == OnProc(INIT) && (!Pending(w, INIT) ==> !Asleep(s, INIT)))
      && (ph.ExWake? ==>
            && w.chan == ParentChan(s.procs[x])
            && (s.procs[x].parent.Some? && !Pending(w, s.procs[x].parent.value) ==> ParentAwake(s, x)))
      && (ph.ExitMine? || ph.ExitSet? ==> ParentAwake(s, x))
    case _ => true
  }

  ghost predicate WaitOk(s: State)
    requires Shape(s)
  {
    && (forall q {:trigger SleeperOk(s, q)} :: 0 <= q < |s.procs| ==> SleeperOk(s, q))
    && (forall x {:trigger HolderOk(s, x)} :: 0 <= x < |s.procs| ==> HolderOk(s, x))
  }

  // ---------- Steps without effect on sleepers and zombies ----------

  /** Nobody falls asleep in kwait, nobody becomes a zombie or a zombie's new parent. */
  ghost predicate QuietFrame(s: State, s': State) {
    && Shape(s) && Shape(s') && |s'.procs| == |s.procs|
    && (forall q {:trigger Asleep(s', q)} :: 0 <= q < |s.procs| && Asleep(s', q) ==> Asleep(s, q))
    && (forall q, c {:trigger ZombieKid(s', q, c)} :: 0 <= q && 0 <= c < |s.procs| && ZombieKid(s', q, c) ==>
        ZombieKid(s, q, c))
  }

  /** Thread x stays where it is and keeps its parent. */
  ghost predicate SamePlace(s: State, s': State, x: nat)
    requires Shape(s) && Shape(s') && |s'.procs| == |s.procs| && x < |s.procs|
  {
    s'.threads[x].base == s.threads[x].base && s'.procs[x].parent == s.procs[x].parent
  }

  lemma FrameNoZombies(s: State, s': State, q: nat, n: nat)
    requires QuietFrame(s, s') && NoZombieKids(s, q, n)
    ensures NoZombieKids(s', q, n)
  {
    hide ZombieKid, Asleep;
  }

  lemma FrameHolder(s: State, s': State, x: nat)
    requires QuietFrame(s, s') && x < |s.procs| && SamePlace(s, s', x) && HolderOk(s, x)
    ensures HolderOk(s', x)
  {
    hide NoZombieKids, Asleep, ZombieKid, Pending;
    var pc := s.threads[x].base;
    if NoZombieKids(s, x, |s.procs|) { FrameNoZombies(s, s', x, |s.procs|); }
    if pc.InWait? && NoZombieKids(s, x, pc.child) { FrameNoZombies(s, s', x, pc.child); }
  }

  lemma FrameSleeper(s: State, s': State, q: nat)
    requires QuietFrame(s, s') && q < |s.procs| && SleeperOk(s, q)
    requires forall x {:trigger s'.threads[x]} :: 0 <= x < |s.procs| && InitPending(s.threads[x].base) ==>
        s'.threads[x].base == s.threads[x].base
    ensures SleeperOk(s', q)
  {
    hide NoZombieKids, Asleep, ZombieKid, InitPending;
    if Asleep(s', q) {
      assert Asleep(s, q);
      if NoZombieKids(s, q, |s.procs|) {
        FrameNoZombies(s, s', q, |s.procs|);
      } else {
        var x :| 0 <= x < |s.procs| && InitPending(s.threads[x].base);
        assert InitPending(s'.threads[x].base);
      }
    }
  }

  // ---------- Steps of other threads ----------

  /** A step that moves no thread in or out of wait_lock's critical sections. */
  ghost predicate WaitFrame(s: State, s': State) {
    && QuietFrame(s, s')
    && forall x {:trigger s'.threads[x]} :: 0 <= x < |s.procs| ==>
         SamePlace(s, s', x) || (!BaseW(s'.threads[x].base) && !BaseW(s.threads[x].base))
  }

  lemma FreeHolder(s: State, x: nat)
    requires Shape(s) && x < |s.procs| && (!BaseW(s.threads[x].base) || IsExit(s.threads[x].base, ExitUnlock))
    ensures HolderOk(s, x) && !InitPending(s.threads[x].base)
  {
    hide NoZombieKids, Asleep;
  }

  lemma FrameWait(s: State, s': State)
    requires WaitFrame(s, s') && WaitOk(s)
    ensures WaitOk(s')
  {
    hide Asleep, ZombieKid, SleeperOk, HolderOk, BaseW, InitPending;
    forall x | 0 <= x < |s'.procs| ensures HolderOk(s', x)
        && (InitPending(s.threads[x].base) ==> s'.threads[x].base == s.threads[x].base)
    {
      if SamePlace(s, s', x) { FrameHolder(s, s', x); } else { FreeHolder(s', x); FreeHolder(s, x); }
    }
    forall q | 0 <= q < |s'.procs| ensures SleeperOk(s', q) { FrameSleeper(s, s', q); }
  }

  /** Only tick frames, handlers, swtch and dispatch: bases stay, states move among live ones. */
  ghost predicate BasesStay(s: State, s': State) {
    && Shape(s) && Shape(s') && |s'.procs| == |s.procs|
    && (forall p {:trigger s'.procs[p]} :: 0 <= p < |s.procs| ==>
          && s'.procs[p].parent == s.procs[p].parent
          && (s'.procs[p].state.ZOMBIE? <==> s.procs[p].state.ZOMBIE?)
          && (s'.procs[p].state.SLEEPING? ==> s.procs[p].state.SLEEPING?))
    && (forall p {:trigger s'.threads[p]} :: 0 <= p < |s.procs| ==>
          || (s'.threads[p].base == s.threads[p].base
              && (s'.threads[p].tick.TNone? ==> s.threads[p].tick.TNone? || Quiet(s.threads[p].base)))
          || (s.threads[p].tick.TNone? && IsSleep(s.threads[p].base, SleepSwtch)
              && s'.threads[p].base == InSleep(s.threads[p].base.r, SleepBack))
          || (IsExit(s.threads[p].base, ExitSwtch) && s'.threads[p].base.Dead?))
  }

  lemma StayingIsQuiet(s: State, s': State)
    requires BasesStay(s, s')
    ensures WaitFrame(s, s')
  {
    forall q | 0 <= q < |s.procs| && Asleep(s', q)
      ensures Asleep(s, q)
    {
      assert s'.threads[q].base == s.threads[q].base || IsSleep(s.threads[q].base, SleepSwtch);
    }
    forall q, c | 0 <= q && 0 <= c < |s.procs| && ZombieKid(s', q, c)
      ensures ZombieKid(s, q, c)
    {
      assert s'.procs[c].parent == s.procs[c].parent;
    }
    forall x | 0 <= x < |s.procs|
      ensures SamePlace(s, s', x) || (!BaseW(s'.threads[x].base) && !BaseW(s.threads[x].base))
    {
      assert s'.procs[x].parent == s.procs[x].parent;
    }
  }

  lemma TickStays(s: State, me: nat, op: Op, pc': TickPc, s': State)
    requires Wrote(s, me, op, s') && Stepped(s, me, op, s.threads[me].(tick := pc'), s')
    requires TickOp(me, op) && (op.Ready? ==> s.procs[me].state.RUNNING?)
    requires Quiet(s.threads[me].base)
    ensures BasesStay(s, s')
  {
    hide Quiet;
  }

  lemma IrqStays(s: State, k: nat, op: Op, irq': Irq, s': State)
    requires Wrote(s, INIT, op, s') && IrqFrame(s, k, irq', s') && RunOk(s) && QuietOk(s) && !s.cpus[k].irq.INone?
    requires WakeOp(op) || op.AcqT? || op.RelT? || op.Tick?
    requires op.Ready? ==> op.q < |s.procs| && s.procs[op.q].state.SLEEPING?
    ensures BasesStay(s, s')
  {
    hide Quiet;
  }

  lemma ArrivalStays(s: State, k: nat, s': State)
    requires Arrival(s, k, s')
    ensures BasesStay(s, s')
  {
    hide Quiet;
  }

  lemma SwtchStays(s: State, k: nat, s': State)
    requires SwtchStep(s, k, s') && QuietOk(s)
    ensures BasesStay(s, s')
  {
    hide Quiet;
  }

  lemma DispatchStays(s: State, k: nat, q: nat, s': State)
    requires DispatchStep(s, k, q, s')
    ensures BasesStay(s, s')
  {
    hide Quiet;
  }

  // ---------- Steps of a process ----------

  /** A step of process me with what is known about it. */
  ghost predicate ProcStep(s: State, k: nat, me: nat, op: Op, pc': Pc, s': State) {
    && TreeStep(s, k, me, op, s') && Stepped(s, me, op, s.threads[me].(base := pc'), s')
    && s.threads[me].tick.TNone?
    && SleepMove(s.threads[me].base, pc')
  }

  /** The only way into the sleeping part of sleep is through its unlock. */
  predicate SleepMove(pc: Pc, pc': Pc) {
    pc'.InSleep? ==>
      && (pc'.sleep.SleepSet? ==> pc == InSleep(pc'.r, SleepUnlock))
      && (pc'.sleep.SleepSched? ==> pc == InSleep(pc'.r, SleepSet))
      && (pc'.sleep.SleepSwtch? ==> pc == InSleep(pc'.r, SleepSched))
      && !pc'.sleep.SleepBack?
  }

  lemma BaseSleepMove(s: State, me: nat, pc: Pc, op: Op, pc': Pc)
    requires Shape(s) && me < |s.procs| && BaseCode(s, me, pc, op, pc')
    ensures SleepMove(pc, pc')
  {
    hide WakeCode, StillPausing;
  }

  lemma AsleepAfter(s: State, k: nat, me: nat, op: Op, pc': Pc, s': State, q: nat)
    requires ProcStep(s, k, me, op, pc', s') && q < |s.procs| && Asleep(s', q)
    ensures Asleep(s, q) || (q == me && IsSleep(s.threads[me].base, SleepUnlock) && s.threads[me].base.r.ToWait?)
  {
    hide ForkOwned, Permitted;
  }

  lemma ZombieAfter(s: State, k: nat, me: nat, op: Op, pc': Pc, s': State, q: nat, c: nat)
    requires ProcStep(s, k, me, op, pc', s') && c < |s.procs| && ZombieKid(s', q, c)
    requires op.SetParent? && IsFork(s.threads[me].base, ForkSet) ==> ForkedOk(s, me, s.threads[me].base.i)
    ensures || ZombieKid(s, q, c)
            || (op == SetParent(c, INIT) && q == INIT && IsExit(s.threads[me].base, Reparent))
            || (op == GoZombie(me) && c == me && s.procs[me].parent == Some(q) && IsExit(s.threads[me].base, ExitSet))
  {
    hide ForkOwned, Permitted;
  }

  /** Inside the wakeup of a sleeping parent r: after slot r has been looked at, r is awake. */
  lemma Awakened(s: State, k: nat, me: nat, w: Wake, op: Op, w': Wake, s': State, r: nat)
    requires Safe(s) && Running(s, k, me) && me != r && r < |s.procs|
    requires Wrote(s, me, op, s') && s'.threads[r] == s.threads[r]
    requires WakeCode(s, Some(me), w, op, w') && w.chan == OnProc(r)
    requires w.j == r && w.ph.Held? && s.plock[r] == Some(k)
    ensures !Asleep(s', r)
  {
    hide QuietOk, LockOk, GlobalLockOk, ForkOk;
    SlotStays(s, r);
    if s.threads[r].on.Some? && !s.procs[r].state.RUNNING? { NotRunningHolds(s, r, s.threads[r].on.value); }
    if s.threads[r].tick.TNone? && IsSleep(s.threads[r].base, SleepSet) { SetHolds(s, r); }
  }

  /** Between its release of wait_lock and its swtch a sleeper holds its own lock. */
  lemma SetHolds(s: State, r: nat)
    requires Safe(s) && r < |s.procs| && s.threads[r].tick.TNone? && IsSleep(s.threads[r].base, SleepSet)
    ensures s.threads[r].on.Some? && s.plock[r] == s.threads[r].on
  {
    hide QuietOk, GlobalLockOk, ForkOk;
    SlotStays(s, r);
    assert s.threads[r].on.Some? ==> Holds(s, s.threads[r].on.value, r);
  }

  lemma WakeMine(s: State, k: nat, me: nat, op: Op, pc': Pc, s': State, w: Wake, w': Wake, r: nat)
    requires Safe(s) && Running(s, k, me) && ProcStep(s, k, me, op, pc', s') && me != r && r < |s.procs|
    requires WakeCode(s, Some(me), w, op, w') && w.chan == OnProc(r) && s.threads[me].base.InExit?
    requires w.ph.Held? ==> s.plock[w.j] == Some(k)
    requires !Pending(w, r) ==> !Asleep(s, r)
    ensures w'.chan == w.chan && (!Pending(w', r) ==> !Asleep(s', r))
  {
    hide Safe, TreeStep, SleepMove, Wrote;
    WakeSlides(s, me, w, op, w', r);
    assert s'.threads[r] == s.threads[r];
    if !Pending(w', r) {
      if Pending(w, r) {
        assert Wrote(s, me, op, s') by { WroteOf(s, k, me, op, s'); }
        Awakened(s, k, me, w, op, w', s', r);
      } else if Asleep(s', r) {
        AsleepAfter(s, k, me, op, pc', s', r);
      }
    }
  }

  lemma WroteOf(s: State, k: nat, me: nat, op: Op, s': State)
    requires TreeStep(s, k, me, op, s')
    ensures Wrote(s, me, op, s')
  {
    hide Wrote, Permitted, ForkOwned;
  }

  lemma WakeSlides(s: State, me: nat, w: Wake, op: Op, w': Wake, r: nat)
    requires WakeCode(s, Some(me), w, op, w') && me != r
    ensures w'.chan == w.chan && !op.Spawn?
    ensures Pending(w, r) && !Pending(w', r) ==> w.j == r && w.ph.Held?
  {
  }

  // ---------- The stepping process ----------

  lemma WaitHolder(s: State, k: nat, me: nat, op: Op, pc': Pc, s': State)
    requires ProcStep(s, k, me, op, pc', s') && HolderOk(s, me)
    requires s.threads[me].base.InWait? && WaitCode(s, me, s.threads[me].base, op, pc')
    ensures HolderOk(s', me)
  {
    hide ForkOwned, Permitted, Changed, TreeMove, ParentAwake, Pending;
    var pc := s.threads[me].base;
    assert s'.threads[me].base == pc';
    forall c | 0 <= c < |s.procs| && ZombieKid(s', me, c)
      ensures ZombieKid(s, me, c)
    {
      ZombieAfter(s, k, me, op, pc', s', me, c);
    }
  }

  lemma SleepHolder(s: State, k: nat, me: nat, op: Op, pc': Pc, s': State)
    requires ProcStep(s, k, me, op, pc', s') && HolderOk(s, me)
    requires s.threads[me].base.InSleep? && SleepCode(s, me, s.threads[me].base, op, pc')
    ensures HolderOk(s', me)
  {
    hide ForkOwned, Permitted, Changed, TreeMove, ZombieKid, ParentAwake, Pending;
    assert s'.threads[me].base == pc';
    forall c | 0 <= c < |s.procs| && ZombieKid(s', me, c)
      ensures ZombieKid(s, me, c)
    {
      ZombieAfter(s, k, me, op, pc', s', me, c);
    }
  }

  lemma WakeHolder(s: State, k: nat, me: nat, op: Op, pc': Pc, s': State)
    requires Safe(s) && TreeOk(s) && Running(s, k, me) && ProcStep(s, k, me, op, pc', s') && HolderOk(s, me)
    requires s.threads[me].base.InExit? && ExitCode(s, me, s.threads[me].base, op, pc')
    requires s.threads[me].base.exit.RepWake? || s.threads[me].base.exit.ExWake?
    requires !WakeDone(s.threads[me].base.w, |s.procs|)
    ensures HolderOk(s', me)
  {
    hide Safe, TreeStep, SleepMove, Asleep, WakeCode, NodeOk, ThreadTree, TreeOk;
    var pc := s.threads[me].base;
    NodeAndThread(s, me);
    ExitHolds(s, k, me, op, pc', s');
    var r := if pc.exit.RepWake? then INIT else if s.procs[me].parent.Some? then s.procs[me].parent.value
        else |s.procs|;
    if r < |s.procs| { WakeMine(s, k, me, op, pc', s', pc.w, pc'.w, r); }
  }

  /** In the wakeups of kexit: the waker holds the slot it looks at, and wakes another process. */
  lemma ExitHolds(s: State, k: nat, me: nat, op: Op, pc': Pc, s': State)
    requires Safe(s) && TreeOk(s) && Running(s, k, me) && ProcStep(s, k, me, op, pc', s')
    requires s.threads[me].base.InExit? && ExitCode(s, me, s.threads[me].base, op, pc')
    requires s.threads[me].base.exit.RepWake? || s.threads[me].base.exit.ExWake?
    requires !WakeDone(s.threads[me].base.w, |s.procs|)
    ensures var w := s.threads[me].base.w; w.ph.Held? ==> w.j < |s.procs| && s.plock[w.j] == Some(k)
    ensures me != INIT && s.procs[me].parent != Some(me) && pc'.InExit? && pc'.w.chan == s.threads[me].base.w.chan
    ensures s'.threads[me].base == pc' && s'.procs[me].parent == s.procs[me].parent
  {
    hide RunOk, QuietOk, LockOk, GlobalLockOk, StateOk, ForkOk, PidsDistinct;
    HeldByBase(s, k, me);
    assert NodeOk(s, me) && ThreadTree(s, me);
    ExitWakeOp(s, me, op, pc');
  }

  lemma ExitWakeOp(s: State, me: nat, op: Op, pc': Pc)
    requires Shape(s) && me < |s.procs| && s.threads[me].base.InExit? && ExitCode(s, me, s.threads[me].base, op, pc')
    requires s.threads[me].base.exit.RepWake? || s.threads[me].base.exit.ExWake?
    requires !WakeDone(s.threads[me].base.w, |s.procs|)
    ensures WakeOp(op) && pc'.InExit? && pc'.w.chan == s.threads[me].base.w.chan
  {
  }

  /** An exiting process does not change its own parent. */
  lemma OwnParent(s: State, k: nat, me: nat, op: Op, pc': Pc, s': State)
    requires Safe(s) && TreeOk(s) && Running(s, k, me) && ProcStep(s, k, me, op, pc', s')
    requires s.threads[me].base.InExit? && ExitCode(s, me, s.threads[me].base, op, pc')
    ensures s'.procs[me].parent == s.procs[me].parent
  {
    hide Safe, ForkOwned, Permitted, WakeCode, TreeOk, ThreadTree;
    NodeAndThread(s, me);
    ExitWrites(s, me, op, pc');
  }

  lemma ExitWrites(s: State, me: nat, op: Op, pc': Pc)
    requires Shape(s) && me < |s.procs| && s.threads[me].base.InExit? && ExitCode(s, me, s.threads[me].base, op, pc')
    requires s.procs[me].parent != Some(me)
    ensures op.SetParent? ==> op.q != me
    ensures !op.Free?
  {
  }

  lemma StraightHolder(s: State, k: nat, me: nat, op: Op, pc': Pc, s': State)
    requires Safe(s) && TreeOk(s) && Running(s, k, me) && ProcStep(s, k, me, op, pc', s') && HolderOk(s, me)
    requires s.threads[me].base.InExit? && ExitCode(s, me, s.threads[me].base, op, pc')
    requires s.threads[me].base.exit.RepWake? || s.threads[me].base.exit.ExWake? ==>
        WakeDone(s.threads[me].base.w, |s.procs|)
    ensures HolderOk(s', me)
  {
    hide Safe, ForkOwned, Permitted, Asleep, WakeCode, TreeOk, Changed, TreeMove;
    assert s'.threads[me].base == pc';
    OwnParent(s, k, me, op, pc', s');
    var pc := s.threads[me].base;
    if s.procs[me].parent.Some? && s.procs[me].parent.value < |s.procs| && Asleep(s', s.procs[me].parent.value) {
      AsleepAfter(s, k, me, op, pc', s', s.procs[me].parent.value);
    }
  }

  lemma NoHolder(s: State, me: nat, pc: Pc, op: Op, pc': Pc)
    requires Shape(s) && me < |s.procs| && BaseCode(s, me, pc, op, pc')
    requires !pc.InWait? && !pc.InSleep? && !pc.InExit?
    ensures match pc'
      case InWait(_, _, _, ph) => ph.WaitAt?
      case InSleep(r, _) => !r.ToWait?
      case InExit(_, _, ph) => ph.ExitAt?
      case _ => true
  {
    hide StillPausing;
  }

  lemma MineHolder(s: State, k: nat, me: nat, op: Op, pc': Pc, s': State)
    requires Safe(s) && TreeOk(s) && Running(s, k, me) && ProcStep(s, k, me, op, pc', s') && HolderOk(s, me)
    requires BaseCode(s, me, s.threads[me].base, op, pc')
    ensures HolderOk(s', me)
  {
    hide Safe, TreeOk, TreeStep, SleepMove, Asleep, WaitCode, SleepCode, ExitCode, ForkCode, KillCode, PauseCode,
        EntryCode;
    var pc := s.threads[me].base;
    if pc.InWait? { WaitHolder(s, k, me, op, pc', s'); }
    else if pc.InSleep? { SleepHolder(s, k, me, op, pc', s'); }
    else if pc.InExit? {
      if (pc.exit.RepWake? || pc.exit.ExWake?) && !WakeDone(pc.w, |s.procs|) {
        WakeHolder(s, k, me, op, pc', s');
      } else {
        StraightHolder(s, k, me, op, pc', s');
      }
    } else {
      NoHolder(s, me, pc, op, pc');
      assert s'.threads[me].base == pc';
    }
  }

  // ---------- The other processes ----------

  /** Two threads do not hold wait_lock together. */
  lemma OneHolder(s: State, k: nat, me: nat, f: nat)
    requires Safe(s) && Running(s, k, me) && f < |s.procs| && f != me && BaseW(s.threads[f].base)
    ensures !BaseW(s.threads[me].base)
  {
    hide QuietOk, LockOk, ForkOk, BaseW;
    HolderLoaded(s, f);
    var j := s.threads[f].on.value;
    assert HoldsW(s, j);
    assert HoldsW(s, k) == BaseW(s.threads[me].base);
  }

  lemma HolderLoaded(s: State, f: nat)
    requires Safe(s) && f < |s.procs| && BaseW(s.threads[f].base)
    ensures s.threads[f].on.Some? && s.threads[f].tick.TNone? && s.waitLk == s.threads[f].on
    ensures Live(s.procs[f].state) || IsExit(s.threads[f].base, ExitUnlock)
  {
    hide LockOk, ForkOk;
    SlotStays(s, f);
    if Quiet(s.threads[f].base) { QuietHoldsNothing(f, s.threads[f].base); }
    assert s.threads[f].on.Some? ==> HoldsW(s, s.threads[f].on.value);
  }

  lemma OtherHolder(s: State, k: nat, me: nat, op: Op, pc': Pc, s': State, f: nat)
    requires Safe(s) && Running(s, k, me) && ProcStep(s, k, me, op, pc', s')
    requires f < |s.procs| && f != me && HolderOk(s, f)
    ensures HolderOk(s', f)
  {
    hide Safe, SleepMove, Asleep, ZombieKid, HolderOk, BaseW;
    if BaseW(s.threads[f].base) && !IsExit(s.threads[f].base, ExitUnlock) {
      OneHolder(s, k, me, f);
      HolderLoaded(s, f);
      SpecialNeedsLock(s, me, op);
      OtherFrame(s, k, me, op, pc', s', f);
      FrameHolder(s, s', f);
    } else {
      OtherFree(s, k, me, op, pc', s', f);
      FreeHolder(s', f);
    }
  }

  /** The steps that matter to sleepers and zombies are taken under wait_lock. */
  lemma SpecialNeedsLock(s: State, me: nat, op: Op)
    requires Shape(s) && me < |s.procs| && TreeMove(s, me, s.threads[me].base, op)
    ensures op.SetParent? || op.GoZombie? ==> BaseW(s.threads[me].base)
    ensures IsSleep(s.threads[me].base, SleepUnlock) && s.threads[me].base.r.ToWait? ==> BaseW(s.threads[me].base)
  {
  }

  lemma OtherFrame(s: State, k: nat, me: nat, op: Op, pc': Pc, s': State, f: nat)
    requires ProcStep(s, k, me, op, pc', s') && f < |s.procs| && f != me
    requires !op.SetParent? && !op.GoZombie? && Live(s.procs[f].state)
    requires !(IsSleep(s.threads[me].base, SleepUnlock) && s.threads[me].base.r.ToWait?)
    requires op != Spawn(f)
    ensures QuietFrame(s, s') && SamePlace(s, s', f)
  {
    hide ForkOwned, SleepMove, Asleep, ZombieKid;
    forall q | 0 <= q < |s.procs| && Asleep(s', q)
      ensures Asleep(s, q)
    {
      AsleepAfter(s, k, me, op, pc', s', q);
    }
    forall q, c | 0 <= q && 0 <= c < |s.procs| && ZombieKid(s', q, c)
      ensures ZombieKid(s, q, c)
    {
      ZombieAfter(s, k, me, op, pc', s', q, c);
    }
  }

  lemma OtherFree(s: State, k: nat, me: nat, op: Op, pc': Pc, s': State, f: nat)
    requires ProcStep(s, k, me, op, pc', s') && f < |s.procs| && f != me
    requires !BaseW(s.threads[f].base) || IsExit(s.threads[f].base, ExitUnlock)
    ensures Shape(s') && |s'.procs| == |s.procs|
    ensures !BaseW(s'.threads[f].base) || IsExit(s'.threads[f].base, ExitUnlock)
    ensures s'.threads[f].base == s.threads[f].base || op == Spawn(f)
  {
    hide ForkOwned, SleepMove, Asleep, ZombieKid, Permitted;
  }

  // ---------- Sleepers ----------

  lemma NewSleeper(s: State, k: nat, me: nat, op: Op, pc': Pc, s': State)
    requires ProcStep(s, k, me, op, pc', s') && HolderOk(s, me)
    requires IsSleep(s.threads[me].base, SleepUnlock) && s.threads[me].base.r.ToWait?
    ensures NoZombieKids(s', me, |s.procs|)
  {
    hide ForkOwned, SleepMove, Permitted, Asleep;
    forall c | 0 <= c < |s.procs| && ZombieKid(s', me, c)
      ensures ZombieKid(s, me, c)
    {
      ZombieAfter(s, k, me, op, pc', s', me, c);
    }
  }

  lemma OldSleeper(s: State, k: nat, me: nat, op: Op, pc': Pc, s': State, q: nat)
    requires ProcStep(s, k, me, op, pc', s') && HolderOk(s, me) && q < |s.procs|
    requires op.SetParent? && IsFork(s.threads[me].base, ForkSet) ==> ForkedOk(s, me, s.threads[me].base.i)
    requires Asleep(s', q) && Asleep(s, q) && NoZombieKids(s, q, |s.procs|)
    requires op.SetParent? && IsExit(s.threads[me].base, Reparent) ==> InitPending(pc')
    ensures NoZombieKids(s', q, |s.procs|) || (q == INIT && InitPending(pc'))
  {
    hide ForkOwned, SleepMove, Permitted, Asleep;
    assert op.GoZombie? && IsExit(s.threads[me].base, ExitSet) ==> ParentAwake(s, me);
    if !(q == INIT && InitPending(pc')) {
      forall c | 0 <= c < |s.procs| && ZombieKid(s', q, c)
        ensures ZombieKid(s, q, c)
      {
        ZombieAfter(s, k, me, op, pc', s', q, c);
      }
    }
  }

  /** The exception for init ends with the wakeup that reaches init's slot. */
  lemma PendingSleeper(s: State, k: nat, me: nat, op: Op, pc': Pc, s': State)
    requires Shape(s) && me < |s.procs| && BaseCode(s, me, s.threads[me].base, op, pc')
    requires Shape(s') && |s'.procs| == |s.procs| && s'.threads[me].base == pc' && HolderOk(s', me)
    requires InitPending(s.threads[me].base)
    ensures InitPending(pc') || !Asleep(s', INIT)
  {
    hide Asleep;
  }

  lemma ReparentPends(s: State, me: nat, pc: Pc, op: Op, pc': Pc)
    requires Shape(s) && me < |s.procs| && BaseCode(s, me, pc, op, pc')
    ensures op.SetParent? && IsExit(pc, Reparent) ==> InitPending(pc')
  {
    hide WakeCode, StillPausing;
  }

  lemma SleeperAfter(s: State, k: nat, me: nat, op: Op, pc': Pc, s': State, q: nat)
    requires Safe(s) && ProcStep(s, k, me, op, pc', s') && q < |s.procs| && WaitOk(s) && HolderOk(s', me)
    requires BaseCode(s, me, s.threads[me].base, op, pc')
    ensures SleeperOk(s', q)
  {
    hide Safe, TreeStep, SleepMove, Asleep, NoZombieKids, HolderOk, BaseCode, InitPending, SleeperOk;
    SleeperAndHolder(s, q); SleeperAndHolder(s, me);
    var pc := s.threads[me].base;
    ReparentPends(s, me, pc, op, pc');
    ForkSetSlot(s, me, op);
    assert s'.threads[me].base == pc';
    if Asleep(s', q) {
      AsleepAfter(s, k, me, op, pc', s', q);
      if Asleep(s, q) {
        SleeperCases(s, q);
        if NoZombieKids(s, q, |s.procs|) {
          OldSleeper(s, k, me, op, pc', s', q);
        } else {
          var x :| 0 <= x < |s.procs| && InitPending(s.threads[x].base);
          if x == me {
            PendingSleeper(s, k, me, op, pc', s');
          } else {
            PendingStays(s, k, me, op, pc', s', x);
          }
        }
      } else {
        NewSleeper(s, k, me, op, pc', s');
      }
    }
    SleeperFrom(s', q);
  }

  lemma SleeperCases(s: State, q: nat)
    requires Shape(s) && q < |s.procs| && SleeperOk(s, q) && Asleep(s, q)
    ensures || NoZombieKids(s, q, |s.procs|)
            || (q == INIT && exists x {:trigger s.threads[x]} :: 0 <= x < |s.procs| && InitPending(s.threads[x].base))
  {
    hide Asleep, NoZombieKids, InitPending;
  }

  lemma SleeperFrom(s: State, q: nat)
    requires Shape(s) && q < |s.procs|
    requires Asleep(s, q) ==>
      || NoZombieKids(s, q, |s.procs|)
      || (q == INIT && exists x {:trigger s.threads[x]} :: 0 <= x < |s.procs| && InitPending(s.threads[x].base))
    ensures SleeperOk(s, q)
  {
    hide Asleep, NoZombieKids, InitPending;
  }

  lemma SleeperAndHolder(s: State, q: nat)
    requires Shape(s) && WaitOk(s) && q < |s.procs|
    ensures SleeperOk(s, q) && HolderOk(s, q)
  {
    hide SleeperOk, HolderOk;
  }

  lemma ForkSetSlot(s: State, me: nat, op: Op)
    requires Safe(s) && me < |s.procs|
    ensures op.SetParent? && IsFork(s.threads[me].base, ForkSet) ==> ForkedOk(s, me, s.threads[me].base.i)
  {
    hide RunOk, LockOk, StateOk, QuietOk, GlobalLockOk;
    if IsFork(s.threads[me].base, ForkSet) { OwnKnown(s, me); }
  }

  lemma PendingStays(s: State, k: nat, me: nat, op: Op, pc': Pc, s': State, x: nat)
    requires Safe(s) && ProcStep(s, k, me, op, pc', s') && x < |s.procs| && x != me && InitPending(s.threads[x].base)
    ensures Shape(s') && |s'.procs| == |s.procs| && InitPending(s'.threads[x].base)
  {
    hide ForkOwned, SleepMove, RunOk, LockOk, QuietOk, GlobalLockOk, ForkOk;
    SlotStays(s, x);
  }

  // ---------- All steps, all runs ----------

  lemma BaseWait(s: State, k: nat, op: Op, pc': Pc, s': State)
    requires Safe(s) && TreeOk(s) && WaitOk(s) && BaseStep(s, k, op, pc', s')
    ensures Shape(s') && WaitOk(s')
  {
    hide Safe, TreeOk, SleeperOk, HolderOk;
    hide BaseStep, BaseEffect, BaseCode, TreeStep, SleepMove, MovesWell;
    RunningCpu(s, k, op, pc', s');
    var me := s.cpus[k].spc.p;
    BaseFacts(s, k, op, pc', s');
    BaseSleepMove(s, me, s.threads[me].base, op, pc');
    SleeperAndHolder(s, me);
    MineHolder(s, k, me, op, pc', s');
    forall x | 0 <= x < |s'.procs| ensures HolderOk(s', x) {
      SleeperAndHolder(s, x);
      if x != me { OtherHolder(s, k, me, op, pc', s', x); }
    }
    forall q | 0 <= q < |s'.procs| ensures SleeperOk(s', q) {
      SleeperAfter(s, k, me, op, pc', s', q);
    }
  }

  lemma TickBasesStay(s: State, k: nat, op: Op, pc': TickPc, s': State)
    requires Safe(s) && TickStep(s, k, op, pc', s')
    ensures BasesStay(s, s')
  {
    hide LockOk, GlobalLockOk, ForkOk, StateOk, Wrote, Stepped, Quiet, BasesStay, Changed;
    var me := s.cpus[k].spc.p;
    SlotStays(s, me);
    TickWrites(s, k, me, op, pc', s');
    TickStays(s, me, op, pc', s');
  }

  lemma IrqBasesStay(s: State, k: nat, op: Op, irq': Irq, end: TickEnd, s': State)
    requires Safe(s) && IrqStep(s, k, op, irq', end, s')
    ensures BasesStay(s, s')
  {
    hide RunOk, QuietOk, LockOk, GlobalLockOk, ForkOk, StateOk, Wrote, IrqFrame, IrqEffect, IrqCode, BasesStay,
        Permitted;
    IrqRunning(s, k, op, irq', end, s');
    IrqPermitted(s, k, op, irq');
    IrqWrites(s, k, op, irq', end, s');
    IrqStays(s, k, op, irq', s');
  }

  lemma SimpleBasesStay(s: State, st: Step, s': State)
    requires Safe(s) && NextStep(s, st, s') && !st.BaseGo? && !st.TickGo? && !st.IrqGo?
    ensures BasesStay(s, s')
  {
    hide RunOk, QuietOk, LockOk, GlobalLockOk, ForkOk, StateOk, BaseStep, TickStep, IrqStep, Quiet;
    match st {
      case TimerStart(k, end) => TimerArrives(s, k, end, s'); ArrivalStays(s, k, s');
      case DeviceStart(k, id) => DeviceArrives(s, k, id, s'); ArrivalStays(s, k, s');
      case SwtchOut(k) => SwtchStays(s, k, s');
      case Dispatch(k, q) => DispatchStays(s, k, q, s');
      case _ =>
    }
  }

  /** Apart from the steps of the processes themselves, bases stay. */
  lemma OtherStepsStay(s: State, st: Step, s': State)
    requires Safe(s) && NextStep(s, st, s') && !st.BaseGo?
    ensures BasesStay(s, s')
  {
    hide Safe, BasesStay, BaseStep, TickStep, IrqStep, TimerStep, DeviceStep, SwtchStep, ClearStep, DispatchStep,
        SchedAcqStep, SchedRelStep;
    match st {
      case TickGo(k, op, pc) => TickBasesStay(s, k, op, pc, s');
      case IrqGo(k, op, irq, end) => IrqBasesStay(s, k, op, irq, end, s');
      case _ => SimpleBasesStay(s, st, s');
    }
  }

  lemma NextWait(s: State, st: Step, s': State)
    requires Safe(s) && TreeOk(s) && WaitOk(s) && NextStep(s, st, s')
    ensures Shape(s') && WaitOk(s')
  {
    hide Safe, TreeOk, WaitOk, NextStep, BasesStay, WaitFrame;
    if st.BaseGo? {
      BaseOfNext(s, st, s');
      BaseWait(s, st.k, st.op, st.pc, s');
    } else {
      OtherStepsStay(s, st, s');
      StayingIsQuiet(s, s');
      FrameShape(s, s');
      FrameWait(s, s');
    }
  }

  lemma BaseOfNext(s: State, st: Step, s': State)
    requires NextStep(s, st, s') && st.BaseGo?
    ensures BaseStep(s, st.k, st.op, st.pc, s')
  {
    hide BaseStep;
  }

  lemma FrameShape(s: State, s': State)
    requires WaitFrame(s, s')
    ensures Shape(s')
  {
    hide BaseW, Asleep, ZombieKid;
  }

  lemma NextKeepsWait(s: State, s': State)
    requires Safe(s) && TreeOk(s) && WaitOk(s) && Next(s, s')
    ensures Shape(s') && WaitOk(s')
  {
    hide Safe, NextStep, TreeOk, WaitOk;
    var st :| NextStep(s, st, s');
    NextWait(s, st, s');
  }

  lemma InitWait(s: State)
    requires Init(s)
    ensures WaitOk(s)
  {
  }

  lemma {:induction false} RunWait(tr: seq<State>, i: nat)
    requires Run(tr) && i < |tr|
    ensures Safe(tr[i]) && TreeOk(tr[i]) && WaitOk(tr[i])
  {
    hide Safe, Next, Init, TreeOk, WaitOk;
    RunTree(tr, i);
    SafeShape(tr[i]);
    if i == 0 {
      InitWait(tr[0]);
    } else {
      RunWait(tr, i - 1);
      NextKeepsWait(tr[i - 1], tr[i]);
    }
  }

  /** Whenever wait_lock is free, a process asleep on its own address, which only kwait and
      waitx do, has no zombie child: no exit is missed, in any interleaving. */
  lemma NoLostExit(tr: seq<State>, i: nat, q: nat, c: nat)
    requires Run(tr) && i < |tr| && Shape(tr[i]) && q < |tr[i].procs| && c < |tr[i].procs|
    requires tr[i].waitLk.None?
    requires tr[i].procs[q].state.SLEEPING? && tr[i].procs[q].chan == OnProc(q)
    requires tr[i].procs[c].parent == Some(q)
    ensures !tr[i].procs[c].state.ZOMBIE?
  {
    hide TreeOk, LockOk, ForkOk, QuietOk, HolderOk, NoZombieKids;
    RunWait(tr, i);
    var s := tr[i];
    SlotStays(s, q);
    assert Asleep(s, q);
    assert SleeperOk(s, q);
    NobodyPends(s);
    assert NoZombieKids(s, q, |s.procs|);
    KidOf(s, q, c);
  }

  lemma KidOf(s: State, q: nat, c: nat)
    requires Shape(s) && NoZombieKids(s, q, |s.procs|) && c < |s.procs|
    ensures !ZombieKid(s, q, c)
  {
    hide ZombieKid;
  }

  lemma NobodyPends(s: State)
    requires Safe(s) && s.waitLk.None?
    ensures forall x {:trigger s.threads[x]} :: 0 <= x < |s.procs| ==> !InitPending(s.threads[x].base)
  {
    hide Safe;
    SafeShape(s);
    forall x | 0 <= x < |s.procs|
      ensures !InitPending(s.threads[x].base)
    {
      if BaseW(s.threads[x].base) { HolderLoaded(s, x); }
    }
  }
}
