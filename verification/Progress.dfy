/**
 No dead ends: a CPU of the adaptive build can always go on, unless it waits for a lock that is
 taken or initproc exits. So waiting for locks is the only way to get stuck, and LockOrder says
 when that is for ever.
 */
module Progress {
  import opened Kernel
  import opened KernelLocks
  import opened AdaptiveMachine
  import opened AdaptiveScan
  import Aging
  import Sequences
  import opened LockOrder

  // ---------- What a process does next ----------

  function WakeNext(s: State, mine: Option<nat>, w: Wake): (Op, Wake) {
    match w.ph
    case At => if mine == Some(w.j) then (Nop, w.(j := w.j + 1)) else (Acq(w.j), w.(ph := Held))
    case Held =>
      if w.j < |s.procs| && s.procs[w.j].state.SLEEPING? && s.procs[w.j].chan == w.chan
      then (Ready(w.j, Reset), w.(ph := Woken)) else (Nop, w.(ph := Leave))
    case Woken => (PushQ(w.j), w.(ph := Leave))
    case Leave => (Rel(w.j), w.(j := w.j + 1, ph := At))
  }

  function ForkNext(s: State, me: nat, pc: Pc): (Op, Pc)
    requires pc.InFork?
  {
    var i := pc.i;
    match pc.fork
    case AllocAt => if i < |s.procs| then (Acq(i), InFork(i, AllocHeld)) else (Nop, User)
    case AllocHeld =>
      if i < |s.procs| && s.procs[i].state.UNUSED? then (NewPid(i), InFork(i, AllocInit))
      else (Rel(i), InFork(i + 1, AllocAt))
    case AllocInit => (InitCounters(i), InFork(i, AllocMem))
    case AllocMem => (Spawn(i), InFork(i, ForkRelease))
    case AllocFail => (Rel(i), User)
    case ForkRelease => (Rel(i), InFork(i, ForkLink))
    case ForkLink => (AcqW, InFork(i, ForkSet))
    case ForkSet => (SetParent(i, me), InFork(i, ForkUnlink))
    case ForkUnlink => (RelW, InFork(i, ForkPub))
    case ForkPub => (Acq(i), InFork(i, ForkHeld))
    case ForkHeld => (Ready(i, Keep), InFork(i, ForkPush))
    case ForkPush => (PushQ(i), InFork(i, ForkRel))
    case ForkRel => (Rel(i), User)
  }

  function WaitNext(s: State, me: nat, pc: Pc): (Op, Pc)
    requires pc.InWait? && me < |s.procs|
  {
    var i := pc.child;
    match pc.wait
    case WaitAt => (AcqW, InWait(pc.caller, 0, NoKids, WaitScan))
    case WaitScan =>
      if i < |s.procs| then
        if s.procs[i].parent == Some(me) then (Acq(i), pc.(wait := WaitHeld)) else (Nop, pc.(child := i + 1))
      else
        (Nop, if pc.kids.NoKids? || s.procs[me].killed.Yes? then pc.(wait := WaitFail)
              else InSleep(ToWait(pc.caller), SleepAt))
    case WaitHeld =>
      if i < |s.procs| && s.procs[i].state.ZOMBIE? then (Free(i), pc.(wait := WaitReaped))
      else (Rel(i), InWait(pc.caller, i + 1, HasKids, WaitScan))
    case WaitReaped => (Rel(i), pc.(wait := WaitDone))
    case WaitFault => (Rel(i), pc.(wait := WaitFail))
    case WaitDone | WaitFail => (RelW, User)
  }

  function SleepNext(me: nat, pc: Pc): (Op, Pc)
    requires pc.InSleep?
  {
    var r := pc.r;
    match pc.sleep
    case SleepAt => (Acq(me), InSleep(r, SleepUnlock))
    case SleepUnlock => (Kernel.Unlock(r), InSleep(r, SleepSet))
    case SleepSet => (GoSleep(me, SleepChan(me, r)), InSleep(r, SleepSched))
    case SleepSched => (Switch(me), InSleep(r, SleepSwtch))
    case SleepSwtch => (Nop, pc)
    case SleepBack => (ClearChan(me), InSleep(r, SleepRel))
    case SleepRel => (Rel(me), InSleep(r, SleepRelock))
    case SleepRelock => (Relock(r), ResumeAt(r))
  }

  function ExitNext(s: State, me: nat, pc: Pc): (Op, Pc)
    requires pc.InExit? && me < |s.procs|
  {
    var i, w := pc.orphan, pc.w;
    match pc.exit
    case ExitAt => (Stamp(me), pc.(exit := ExitLock))
    case ExitLock => (AcqW, pc.(orphan := 0, exit := Reparent))
    case Reparent =>
      if i < |s.procs| then
        if s.procs[i].parent == Some(me) then (SetParent(i, INIT), InExit(i, Wake(OnProc(INIT), 0, At), RepWake))
        else (Nop, pc.(orphan := i + 1))
      else (Nop, InExit(i, Wake(ParentChan(s.procs[me]), 0, At), ExWake))
    case RepWake =>
      if WakeDone(w, |s.procs|) then (Nop, pc.(orphan := i + 1, exit := Reparent))
      else (WakeNext(s, Some(me), w).0, pc.(w := WakeNext(s, Some(me), w).1))
    case ExWake =>
      if WakeDone(w, |s.procs|) then (Nop, pc.(exit := ExitMine))
      else (WakeNext(s, Some(me), w).0, pc.(w := WakeNext(s, Some(me), w).1))
    case ExitMine => (Acq(me), pc.(exit := ExitSet))
    case ExitSet => (GoZombie(me), pc.(exit := ExitUnlock))
    case ExitUnlock => (RelW, pc.(exit := ExitSched))
    case ExitSched => (Switch(me), pc.(exit := ExitSwtch))
    case ExitSwtch => (Nop, pc)
  }

  function KillNext(s: State, pc: Pc): (Op, Pc)
    requires pc.InKill?
  {
    var i := pc.at;
    match pc.kill
    case KillAt => if i < |s.procs| then (Acq(i), pc.(kill := KillHeld)) else (Nop, User)
    case KillHeld =>
      if i < |s.procs| && s.procs[i].pid == pc.victim then (Op.Kill(i), pc.(kill := KillSet))
      else (Rel(i), InKill(pc.victim, i + 1, KillAt))
    case KillSet =>
      if i < |s.procs| && s.procs[i].state.SLEEPING? then (Ready(i, Keep), pc.(kill := KillPush))
      else (Nop, pc.(kill := KillRel))
    case KillPush => (PushQ(i), pc.(kill := KillRel))
    case KillRel => (Rel(i), User)
  }

  function PauseNext(s: State, me: nat, pc: Pc): (Op, Pc)
    requires pc.InPause? && me < |s.procs|
  {
    match pc.pause
    case PauseAt => (AcqT, InPause(pc.n, s.ticks, PauseTest))
    case PauseTest =>
      (Nop, if !StillPausing(s.ticks, pc.start, pc.n) then pc.(pause := PauseOk)
            else if s.procs[me].killed.Yes? then pc.(pause := PauseFail)
            else InSleep(ToPause(pc.n, pc.start, s.ticks), SleepAt))
    case PauseOk | PauseFail => (RelT, User)
  }

  /** A step that the code allows at pc, once the lock that it wants is free. */
  function BaseNext(s: State, me: nat, pc: Pc): (Op, Pc)
    requires me < |s.procs|
  {
    match pc
    case InFork(_, _) => ForkNext(s, me, pc)
    case InWait(_, _, _, _) => WaitNext(s, me, pc)
    case InSleep(_, _) => SleepNext(me, pc)
    case InExit(_, _, _) => ExitNext(s, me, pc)
    case InKill(_, _, _) => KillNext(s, pc)
    case InPause(_, _, _) => PauseNext(s, me, pc)
    case ForkRet => (Rel(me), User)
    case User => (Nop, InSleep(ToOther(0), SleepAt))
    case Dead => (Nop, Dead)
  }

  /** The locks and the slot that the place relies on are there, and what it wants is free. */
  ghost predicate Clear(s: State, me: nat, pc: Pc)
    requires Shape(s) && me < |s.procs|
  {
    && (BaseLock(me, pc).Some? ==> BaseLock(me, pc).value < |s.procs|)
    && (ForkSlot(pc).Some? ==> ForkSlot(pc).value < |s.procs|)
    && (BaseWants(s, me, pc).Some? ==> !Taken(s, BaseWants(s, me, pc).value))
    && !pc.Dead? && !IsSleep(pc, SleepSwtch) && !IsExit(pc, ExitSwtch) && !(IsExit(pc, ExitAt) && me == INIT)
  }

  ghost predicate Allowed(s: State, me: nat, pc: Pc)
    requires Shape(s) && me < |s.procs|
  {
    var n := BaseNext(s, me, pc);
    BaseCode(s, me, pc, n.0, n.1) && Enabled(s, n.0)
  }

  lemma WakeGoes(s: State, mine: Option<nat>, w: Wake)
    requires Shape(s) && !WakeDone(w, |s.procs|) && (WakeLock(w).Some? ==> w.j < |s.procs|)
    requires WakeWants(|s.procs|, mine, w).Some? ==> !Taken(s, WakeWants(|s.procs|, mine, w).value)
    ensures var n := WakeNext(s, mine, w); WakeCode(s, mine, w, n.0, n.1) && Enabled(s, n.0)
  {
  }

  lemma ForkGoes(s: State, me: nat, pc: Pc)
    requires Shape(s) && me < |s.procs| && pc.InFork? && Clear(s, me, pc)
    ensures Allowed(s, me, pc)
  {
  }

  lemma WaitGoes(s: State, me: nat, pc: Pc)
    requires Shape(s) && me < |s.procs| && pc.InWait? && Clear(s, me, pc)
    ensures Allowed(s, me, pc)
  {
  }

  lemma SleepGoes(s: State, me: nat, pc: Pc)
    requires Shape(s) && me < |s.procs| && pc.InSleep? && Clear(s, me, pc)
    ensures Allowed(s, me, pc)
  {
  }

  lemma ExitGoes(s: State, me: nat, pc: Pc)
    requires Shape(s) && me < |s.procs| && pc.InExit? && Clear(s, me, pc)
    ensures Allowed(s, me, pc)
  {
    hide WakeCode, WakeNext;
    if (pc.exit.RepWake? || pc.exit.ExWake?) && !WakeDone(pc.w, |s.procs|) { WakeGoes(s, Some(me), pc.w); }
  }

  lemma KillGoes(s: State, me: nat, pc: Pc)
    requires Shape(s) && me < |s.procs| && pc.InKill? && Clear(s, me, pc)
    ensures Allowed(s, me, pc)
  {
  }

  lemma PauseGoes(s: State, me: nat, pc: Pc)
    requires Shape(s) && me < |s.procs| && pc.InPause? && Clear(s, me, pc)
    ensures Allowed(s, me, pc)
  {
    hide StillPausing;
  }

  lemma BaseGoes(s: State, me: nat, pc: Pc)
    requires Shape(s) && me < |s.procs| && Clear(s, me, pc)
    ensures Allowed(s, me, pc)
  {
    hide Clear, Allowed;
    match pc {
      case InFork(_, _) => ForkGoes(s, me, pc);
      case InWait(_, _, _, _) => WaitGoes(s, me, pc);
      case InSleep(_, _) => SleepGoes(s, me, pc);
      case InExit(_, _, _) => ExitGoes(s, me, pc);
      case InKill(_, _, _) => KillGoes(s, me, pc);
      case InPause(_, _, _) => PauseGoes(s, me, pc);
      case _ => PlainGoes(s, me, pc);
    }
  }

  lemma PlainGoes(s: State, me: nat, pc: Pc)
    requires Shape(s) && me < |s.procs| && Clear(s, me, pc) && (pc.ForkRet? || pc.User? || pc.Dead?)
    ensures Allowed(s, me, pc)
  {
  }

  // ---------- What a CPU does next ----------

  function TickNext(s: State, me: nat, pc: TickPc): (Op, TickPc)
    requires me < |s.procs|
  {
    match pc
    case TUpdAcq => (Acq(me), TUpdHeld)
    case TUpdHeld => (if s.procs[me].state.RUNNING? then Charge(me) else Nop, TUpdRel)
    case TUpdRel => (Rel(me), TYieldAcq)
    case TYieldAcq => (Acq(me), TYieldSet)
    case TYieldSet => (Ready(me, Reset), TYieldPush)
    case TYieldPush => (PushQ(me), TYieldSched)
    case TYieldSched => (Switch(me), TYieldSwtch)
    case TYieldBack => (Rel(me), TNone)
    case _ => (Nop, pc)
  }

  function IrqNext(s: State, mine: Option<nat>, irq: Irq): (Op, Irq) {
    match irq
    case IClock => (AcqT, ITick)
    case ITick => (Tick, IWake(Clock, Wake(OnTicks, 0, At)))
    case IWake(src, w) =>
      if WakeDone(w, |s.procs|) then (Nop, if src.Clock? then IUnlock else INone)
      else (WakeNext(s, mine, w).0, IWake(src, WakeNext(s, mine, w).1))
    case IUnlock => (RelT, INone)
    case INone => (Nop, INone)
  }

  lemma IrqGoes(s: State, mine: Option<nat>, irq: Irq)
    requires Shape(s) && !irq.INone? && (IrqLock(irq).Some? ==> IrqLock(irq).value < |s.procs|)
    requires IrqWants(s, mine, irq).Some? ==> !Taken(s, IrqWants(s, mine, irq).value)
    ensures var n := IrqNext(s, mine, irq); IrqCode(s, mine, irq, n.0, n.1) && Enabled(s, n.0)
  {
    hide WakeCode, WakeNext;
    if irq.IWake? && !WakeDone(irq.w, |s.procs|) { WakeGoes(s, mine, irq.w); }
  }

  /** A handler goes on unless it waits for a lock. */
  lemma HandlerGoes(s: State, k: nat) returns (st: Step, s': State)
    requires Safe(s) && k < |s.cpus| && !s.cpus[k].irq.INone?
    requires var w := IrqWants(s, s.cpus[k].cproc, s.cpus[k].irq); w.Some? ==> !Taken(s, w.value)
    ensures st.IrqGo? && st.k == k && NextStep(s, st, s')
  {
    hide LockOk, GlobalLockOk, StateOk, ForkOk, QuietOk, IrqCode, IrqNext, IrqWants, Changed;
    HeldByIrq(s, k);
    IrqGoes(s, s.cpus[k].cproc, s.cpus[k].irq);
    var n := IrqNext(s, s.cpus[k].cproc, s.cpus[k].irq);
    var t := SetIrq(Apply(s, k, INIT, n.0), k, n.1);
    st := IrqGo(k, n.0, n.1, Yielding);
    s' := if s.cpus[k].irq.IUnlock? then AfterTimer(t, k, Yielding) else t;
  }

  lemma PlaceIsClear(s: State, k: nat, me: nat)
    requires Safe(s) && Running(s, k, me) && s.threads[me].tick.TNone? && !AtSwtch(s.threads[me])
    requires var w := BaseWants(s, me, s.threads[me].base); w.Some? ==> !Taken(s, w.value)
    requires !(IsExit(s.threads[me].base, ExitAt) && me == INIT)
    ensures Clear(s, me, s.threads[me].base)
  {
    hide LockOk, GlobalLockOk, QuietOk, BaseLock, BaseWants, ForkSlot;
    HeldByBase(s, k, me);
    KernelSafe.SlotStays(s, me);
    if ForkSlot(s.threads[me].base).Some? { KernelSafe.OwnKnown(s, me); }
  }

  /** A process goes on unless it waits for a lock or is initproc in kexit. */
  lemma ThreadGoes(s: State, k: nat, me: nat) returns (st: Step, s': State)
    requires Safe(s) && Running(s, k, me)
    requires var w := ThreadWants(s, me, s.threads[me]); w.Some? ==> !Taken(s, w.value)
    requires !(IsExit(s.threads[me].base, ExitAt) && s.threads[me].tick.TNone? && me == INIT)
    ensures (st.BaseGo? || st.TickGo? || st.SwtchOut?) && st.k == k && NextStep(s, st, s')
  {
    hide Safe, Clear, BaseCode, BaseNext, BaseWants, Changed;
    if AtSwtch(s.threads[me]) {
      st := SwtchOut(k);
      s' := SetSched(s.(threads := s.threads[me := SavedThread(s.threads[me])]), k, s.cpus[k].cproc, SBack(me));
    } else if !s.threads[me].tick.TNone? {
      var n := TickNext(s, me, s.threads[me].tick);
      st := TickGo(k, n.0, n.1);
      s' := SetTick(Apply(s, k, me, n.0), me, n.1);
    } else {
      PlaceIsClear(s, k, me);
      BaseGoes(s, me, s.threads[me].base);
      var n := BaseNext(s, me, s.threads[me].base);
      st := BaseGo(k, n.0, n.1);
      s' := SetBase(Apply(s, k, me, n.0), me, n.1);
    }
  }

  // ---------- The adaptive scheduler ----------

  lemma SchedulerGoes(a: AState, k: nat) returns (t: AStep, a': AState)
    requires AOk(a) && k < |a.sched| && a.core.cpus[k].irq.INone?
    requires !a.sched[k].Away? || a.core.cpus[k].spc.SBack?
    requires a.sched[k].Scan? && a.sched[k].p < |a.core.procs| ==> !Taken(a.core, ProcLock(a.sched[k].p))
    ensures !t.Proc? && t.k == k && ANextStep(a, t, a')
  {
    hide Safe, CurrPri, Better;
    assert Agrees(a.core, a.sched[k], a.core.cpus[k]);
    var s := a.core;
    match a.sched[k] {
      case Idle =>
        t := StartScan(k);
        a' := Moved(a, k, Scan(0, None, Aging.PRIORITY_MAX + 1));
      case Scan(p, c, best) =>
        if p < |s.procs| {
          t := LockNext(k);
          a' := Moved(a, k, Judge(p, c, best)).(core :=
            SetSched(s.(plock := s.plock[p := Some(k)]), k, s.cpus[k].cproc, SScan(s.cpus[k].spc.held + {p})));
        } else if c.None? {
          t := NoneFound(k);
          a' := Moved(a, k, Idle);
        } else {
          t := RunChosen(k);
          a' := Moved(a, k, Away).(core := Started(s, k, c.value));
        }
      case Judge(p, c, best) => t, a' := JudgeGoes(a, k);
      case Away =>
        t := ClearBack(k);
        a' := Moved(a, k, Unlock(s.cpus[k].spc.p)).(core := SetSched(s, k, None, SScan({s.cpus[k].spc.p})));
      case Unlock(q) =>
        OwnSlot(s, k, q);
        t := UnlockBack(k);
        a' := Moved(a, k, Idle).(core := Released(s, k, q));
    }
  }

  function Released(s: State, k: nat, q: nat): State
    requires q < |s.plock| && k < |s.cpus| && s.cpus[k].spc.SScan?
  {
    SetSched(s.(plock := s.plock[q := None]), k, s.cpus[k].cproc, SScan(s.cpus[k].spc.held - {q}))
  }

  lemma OwnSlot(s: State, k: nat, q: nat)
    requires Safe(s) && k < |s.cpus| && s.cpus[k].spc.SScan? && q in s.cpus[k].spc.held
    ensures q < |s.procs| == |s.plock|
  {
    hide RunOk, QuietOk, LockOk, GlobalLockOk, StateOk, ForkOk;
    HeldIsLocked(s, k, q);
  }

  lemma JudgeGoes(a: AState, k: nat) returns (t: AStep, a': AState)
    requires AOk(a) && k < |a.sched| && a.core.cpus[k].irq.INone? && a.sched[k].Judge?
    ensures !t.Proc? && t.k == k && ANextStep(a, t, a')
  {
    hide Safe, CurrPri, Better;
    assert Agrees(a.core, a.sched[k], a.core.cpus[k]);
    var s := a.core;
    var p, c, best := a.sched[k].p, a.sched[k].chosen, a.sched[k].best;
    if !Improves(a, k) {
      t := Pass(k);
      a' := Moved(a, k, Scan(p + 1, c, best)).(core := Released(s, k, p));
    } else if c.Some? {
      t := Swap(k);
      a' := Moved(a, k, Scan(p + 1, Some(p), CurrPri(s.procs[p], s.ticks))).(core := Released(s, k, c.value));
    } else {
      t := Take(k);
      a' := Moved(a, k, Scan(p + 1, Some(p), CurrPri(s.procs[p], s.ticks)));
    }
  }

  /** CPU k runs initproc, which calls kexit: the kernel panics. */
  ghost predicate InitExits(a: AState, k: nat)
    requires AShape(a) && k < |a.sched|
  {
    && a.core.cpus[k].spc == SRun(INIT) && a.core.cpus[k].irq.INone?
    && a.core.threads[INIT].tick.TNone? && IsExit(a.core.threads[INIT].base, ExitAt)
  }

  /** In every state of every run every CPU has a step of its own, unless it waits for a lock that
      is taken or panics; no interrupt is needed for it to go on. */
  lemma NoDeadEnd(tr: seq<AState>, i: nat, k: nat) returns (t: AStep, a': AState)
    requires ARun(tr) && i < |tr| && AShape(tr[i]) && k < |tr[i].sched|
    requires var w := Wants(tr[i], k); w.Some? ==> !Taken(tr[i].core, w.value)
    requires !InitExits(tr[i], k)
    ensures ANextStep(tr[i], t, a') && CpuOf(t) == k && !(t.Proc? && (t.st.TimerStart? || t.st.DeviceStart?))
  {
    hide ARun, Safe, BaseWants, IrqWants, NextStep;
    RunIsOk(tr, i);
    var a := tr[i];
    assert Agrees(a.core, a.sched[k], a.core.cpus[k]);
    if !a.core.cpus[k].irq.INone? {
      var st, s' := HandlerGoes(a.core, k);
      t, a' := AStep.Proc(st), a.(core := s');
    } else if a.sched[k].Away? && a.core.cpus[k].spc.SRun? {
      LoadedSlot(a.core, k);
      var st, s' := ThreadGoes(a.core, k, a.core.cpus[k].spc.p);
      t, a' := AStep.Proc(st), a.(core := s');
    } else {
      t, a' := SchedulerGoes(a, k);
    }
  }

  lemma LoadedSlot(s: State, k: nat)
    requires Safe(s) && k < |s.cpus| && s.cpus[k].spc.SRun?
    ensures s.cpus[k].spc.p < |s.procs| == |s.threads|
  {
    hide LockOk, GlobalLockOk, StateOk, ForkOk, QuietOk;
  }

  // ---------- When everything stops ----------

  /** A step that CPU k can take without an interrupt. */
  predicate OwnStep(t: AStep, k: nat) { CpuOf(t) == k && !(t.Proc? && (t.st.TimerStart? || t.st.DeviceStart?)) }

  ghost predicate Stuck(a: AState, k: nat) {
    forall t, a' {:trigger ANextStep(a, t, a')} :: OwnStep(t, k) ==> !ANextStep(a, t, a')
  }

  /** A taken lock belongs to some CPU. */
  lemma TakenOwned(s: State, l: Lock) returns (j: nat)
    requires Safe(s) && Taken(s, l)
    ensures j < |s.cpus| && Owns(s, j, l)
  {
    hide RunOk, QuietOk, StateOk, ForkOk, Holds, HoldsW, HoldsT;
    match l {
      case WaitLock => j := s.waitLk.value;
      case TicksLock => j := s.tickLk.value;
      case ProcLock(i) => j := s.plock[i].value;
    }
  }

  lemma StuckWaits(tr: seq<AState>, i: nat, k: nat) returns (j: nat)
    requires ARun(tr) && i < |tr| && AShape(tr[i]) && k < |tr[i].sched| && Stuck(tr[i], k) && !InitExits(tr[i], k)
    ensures j < |tr[i].sched| && WaitsFor(tr[i], k, j)
  {
    hide ARun, Safe, Wants, Owns, Taken, ANextStep, InitExits;
    RunIsOk(tr, i);
    var w := Wants(tr[i], k);
    if w.None? || !Taken(tr[i].core, w.value) {
      var t, a' := NoDeadEnd(tr, i, k);
      assert false;
    } else {
      j := TakenOwned(tr[i].core, w.value);
    }
  }

  /** n CPUs beyond the first, each waiting for the next. */
  lemma {:induction false} WaitPath(tr: seq<AState>, i: nat, n: nat) returns (c: seq<nat>)
    requires ARun(tr) && i < |tr| && AShape(tr[i])
    requires forall k :: 0 <= k < |tr[i].sched| ==> Stuck(tr[i], k) && !InitExits(tr[i], k)
    ensures |c| == n + 1 && forall x {:trigger c[x]} :: 0 <= x < |c| ==> c[x] < |tr[i].sched|
    ensures forall x, y {:trigger c[x], c[y]} :: 0 <= x && y == x + 1 < |c| ==> WaitsFor(tr[i], c[x], c[y])
    decreases n
  {
    hide ARun, WaitsFor, Stuck, InitExits;
    if n == 0 {
      c := [0];
    } else {
      c := WaitPath(tr, i, n - 1);
      var j := StuckWaits(tr, i, c[n - 1]);
      c := c + [j];
    }
  }

  /** Among more than n numbers below n two are equal. */
  lemma Repeats(c: seq<nat>, n: nat) returns (x: nat, y: nat)
    requires |c| > n && forall i {:trigger c[i]} :: 0 <= i < |c| ==> c[i] < n
    ensures x < y < |c| && c[x] == c[y]
  {
    if Sequences.NoDuplicates(c) {
      Sequences.BelowIs(n);
      Sequences.DistinctFit(c, Sequences.Below(n));
      assert false;
    } else {
      x, y :| x < y < |c| && c[x] == c[y];
    }
  }

  /** If no CPU can move on its own, then some CPUs wait in the cycle that LockOrder describes:
      the kernel as a whole stops only because of allocproc's order of locks, or in a panic. */
  lemma StopsInCycle(tr: seq<AState>, i: nat)
    requires ARun(tr) && i < |tr| && AShape(tr[i])
    requires forall k :: 0 <= k < |tr[i].sched| ==> Stuck(tr[i], k) && !InitExits(tr[i], k)
    ensures exists c :: ClosingChain(tr[i], c)
  {
    hide ARun, WaitsFor, Stuck, InitExits, ClosingChain;
    var p := WaitPath(tr, i, |tr[i].sched|);
    var x, y := Repeats(p, |tr[i].sched|);
    var c := p[x..y];
    assert WaitsFor(tr[i], p[y - 1], p[y]);
    assert Cycle(tr[i], c);
    DeadlockExactly(tr, i);
  }
}
