/**
 What system calls do over whole runs: a search fails only after it has seen every slot, a
 reaped pid is gone for ever, and a sleeper goes to sleep for a reason and is woken only on
 its channel or by kkill.
 */
module KernelReports {
  import opened Kernel
  import opened KernelLocks
  import opened KernelSafe
  import opened KernelTree
  import opened KernelCalls
  import opened KernelWait
  import opened Refinement

  lemma StepOf(tr: seq<State>, i: nat) returns (st: Step)
    requires Run(tr) && i + 1 < |tr|
    ensures NextStep(tr[i], st, tr[i + 1])
  {
    hide NextStep, Init;
    var j := i + 1;
    assert Next(tr[i], tr[j]);
    st :| NextStep(tr[i], st, tr[j]);
  }

  // ---------- The searches of kkill and allocproc ----------

  /** The slot at which kkill looks for its victim, or allocproc for an UNUSED slot. */
  function Cursor(pc: Pc): Option<nat> {
    if pc.InKill? && (pc.kill.KillAt? || pc.kill.KillHeld?) then Some(pc.at)
    else if pc.InFork? && (pc.fork.AllocAt? || pc.fork.AllocHeld?) then Some(pc.i)
    else None
  }

  /** The pid that kkill looks for. */
  function Aim(pc: Pc): Option<nat> { if pc.InKill? then Some(pc.victim) else None }

  /** The search passes over a slot like this. */
  predicate PassedOver(aim: Option<nat>, pr: Proc) {
    if aim.Some? then pr.pid != aim.value else !pr.state.UNUSED?
  }

  /** One step of a search changes no slot and passes over at most one. */
  ghost predicate SearchMove(s: State, pc: Pc, pc': Pc, s': State) {
    && (Cursor(pc').Some? ==>
          if Cursor(pc).None? then Cursor(pc').value == 0
          else
            && Aim(pc') == Aim(pc)
            && (Cursor(pc') == Cursor(pc)
                || (Cursor(pc').value == Cursor(pc).value + 1 && Cursor(pc).value < |s.procs|
                    && PassedOver(Aim(pc), s.procs[Cursor(pc).value]))))
    && (Cursor(pc').Some? || pc'.User? ==> s'.procs == s.procs || Cursor(pc).None?)
    && (Cursor(pc).Some? && pc'.User? ==> |s.procs| <= Cursor(pc).value)
  }

  lemma SearchStep(s: State, st: Step, s': State, p: nat)
    requires Safe(s) && NextStep(s, st, s') && p < |s.threads| && p < |s'.threads|
    ensures || SearchMove(s, s.threads[p].base, s'.threads[p].base, s')
            || s'.threads[p].base == s.threads[p].base
            || Saved(s'.threads[p].base)
  {
    hide Safe, NextStep, BaseCode, Permitted, ForkOwned, TreeMove, SearchMove;
    SafeShape(s);
    StepShape(s, st, s');
    if Own(s, st, p) {
      OwnFacts(s, st, s');
      OwnSearch(s, p, st.op, st.pc, s');
    } else {
      PlaceKept(s, st, s', p);
    }
  }

  lemma OwnSearch(s: State, me: nat, op: Op, pc': Pc, s': State)
    requires Wrote(s, me, op, s') && BaseCode(s, me, s.threads[me].base, op, pc')
    ensures SearchMove(s, s.threads[me].base, pc', s')
  {
    hide StillPausing, WakeCode, SleepCode, WaitCode, PauseCode;
    var pc := s.threads[me].base;
    if Cursor(pc').Some? || (Cursor(pc).Some? && pc'.User?) {
      SearchOps(s, me, pc, op, pc');
      if Cursor(pc).Some? { assert s'.procs == s.procs; }
    }
  }

  lemma SearchOps(s: State, me: nat, pc: Pc, op: Op, pc': Pc)
    requires Shape(s) && me < |s.procs| && BaseCode(s, me, pc, op, pc')
    requires Cursor(pc').Some? || (Cursor(pc).Some? && pc'.User?)
    ensures op.Nop? || op.Acq? || op.Rel?
    ensures Cursor(pc).Some? || (pc.User? && Cursor(pc').value == 0)
  {
    hide StillPausing;
  }

  /** Process p starts to search after state m and is still searching at state j. */
  ghost predicate OneSearch(tr: seq<State>, p: nat, m: nat, j: nat) {
    && m < j < |tr| && p < |tr[m].threads| && Cursor(tr[m].threads[p].base).None?
    && forall x {:trigger tr[x]} :: m < x <= j ==> p < |tr[x].threads| && Cursor(tr[x].threads[p].base).Some?
  }

  /** Slot q was such as to be passed over when it was looked at, between m and j. */
  ghost predicate LookedAt(tr: seq<State>, aim: Option<nat>, m: nat, j: nat, q: nat) {
    exists x {:trigger tr[x]} :: m <= x < j <= |tr| && q < |tr[x].procs| && PassedOver(aim, tr[x].procs[q])
  }

  /** Process p changes no slot between m and j. */
  ghost predicate Harmless(tr: seq<State>, p: nat, m: nat, j: nat) {
    forall x, y {:trigger tr[x], tr[y]} ::
      m < x < j < |tr| && y == x + 1 && p < |tr[x].threads| && p < |tr[y].threads| ==>
        tr[y].threads[p].base == tr[x].threads[p].base || tr[y].procs == tr[x].procs
  }

  /** While kkill looks for its victim it marks nobody, and every slot that it has passed had
      another pid when it looked; while allocproc looks it changes nothing, and every slot
      that it has passed was in use. */
  lemma {:induction false} SearchPasses(tr: seq<State>, p: nat, m: nat, j: nat)
    requires Run(tr) && OneSearch(tr, p, m, j)
    ensures Aim(tr[j].threads[p].base) == Aim(tr[m + 1].threads[p].base)
    ensures forall q: nat :: q < Cursor(tr[j].threads[p].base).value ==>
        LookedAt(tr, Aim(tr[j].threads[p].base), m, j, q)
    ensures Harmless(tr, p, m, j)
    decreases j
  {
    hide Run, Safe, NextStep, LookedAt, PassedOver, Aim;
    var n := j - 1;
    var st := StepOf(tr, n);
    RunSafe(tr, n);
    SearchStep(tr[n], st, tr[j], p);
    if m < n {
      SearchPasses(tr, p, m, n);
      var aim := Aim(tr[j].threads[p].base);
      forall q: nat | q < Cursor(tr[j].threads[p].base).value ensures LookedAt(tr, aim, m, j, q) {
        if q < Cursor(tr[n].threads[p].base).value {
          LookedLonger(tr, aim, m, n, q);
        } else {
          LookedNow(tr, aim, m, n, q);
        }
      }
    }
  }

  lemma LookedLonger(tr: seq<State>, aim: Option<nat>, m: nat, n: nat, q: nat)
    requires LookedAt(tr, aim, m, n, q) && n + 1 <= |tr|
    ensures LookedAt(tr, aim, m, n + 1, q)
  {
    var x :| m <= x < n <= |tr| && q < |tr[x].procs| && PassedOver(aim, tr[x].procs[q]);
    assert tr[x] == tr[x];
  }

  lemma LookedNow(tr: seq<State>, aim: Option<nat>, m: nat, n: nat, q: nat)
    requires m <= n && n + 1 <= |tr| && q < |tr[n].procs| && PassedOver(aim, tr[n].procs[q])
    ensures LookedAt(tr, aim, m, n + 1, q)
  {
    assert tr[n] == tr[n];
  }

  /** kkill returns -1, and kfork gives up in allocproc, only after having looked at every slot
      of the table in vain. */
  lemma SearchFails(tr: seq<State>, p: nat, m: nat, j: nat)
    requires Run(tr) && OneSearch(tr, p, m, j) && j + 1 < |tr|
    requires p < |tr[j + 1].threads| && tr[j + 1].threads[p].base.User?
    ensures forall q: nat :: q < |tr[j].procs| ==> LookedAt(tr, Aim(tr[j].threads[p].base), m, j, q)
    ensures Harmless(tr, p, m, j + 1)
  {
    hide Run, Safe, NextStep, LookedAt, PassedOver, Aim;
    SearchPasses(tr, p, m, j);
    var st := StepOf(tr, j);
    RunSafe(tr, j);
    SearchStep(tr[j], st, tr[j + 1], p);
  }

  // ---------- Reaped pids ----------

  /** pid v has been given away and no slot has it. */
  ghost predicate PidGone(s: State, v: nat) {
    0 < v < s.nextpid && forall q {:trigger s.procs[q]} :: 0 <= q < |s.procs| ==> s.procs[q].pid != v
  }

  lemma PidMoves(s: State, st: Step, s': State, q: nat)
    requires Safe(s) && NextStep(s, st, s') && q < |s.procs|
    ensures Shape(s') && |s'.procs| == |s.procs| && s.nextpid <= s'.nextpid
    ensures s'.procs[q].pid == s.procs[q].pid || s'.procs[q].pid == 0 || s'.procs[q].pid == s.nextpid
  {
    hide Safe, NextStep, BaseCode, Permitted, ForkOwned, TreeMove, TreeFrame;
    StepShape(s, st, s');
    if st.BaseGo? {
      OwnFacts(s, st, s');
    } else {
      OtherTree(s, st, s');
      FramePid(s, s', q);
    }
  }

  lemma OtherTree(s: State, st: Step, s': State)
    requires Safe(s) && NextStep(s, st, s') && !st.BaseGo?
    ensures TreeFrame(s, s')
  {
    hide Safe, TreeFrame, BaseStep, TickStep, IrqStep, TimerStep, DeviceStep, SwtchStep, ClearStep, DispatchStep,
        SchedAcqStep, SchedRelStep;
    match st {
      case TickGo(k, op, pc) => TickKeepsTree(s, k, op, pc, s');
      case IrqGo(k, op, irq, end) => IrqKeepsTree(s, k, op, irq, end, s');
      case _ => SimpleKeepsTree(s, st, s');
    }
  }

  lemma FramePid(s: State, s': State, q: nat)
    requires TreeFrame(s, s') && q < |s.procs|
    ensures s'.nextpid == s.nextpid && s'.procs[q].pid == s.procs[q].pid
  {
  }

  lemma GoneStays(s: State, st: Step, s': State, v: nat)
    requires Safe(s) && NextStep(s, st, s') && PidGone(s, v)
    ensures PidGone(s', v)
  {
    hide Safe, NextStep;
    StepShape(s, st, s');
    PidMoves(s, st, s', INIT);
    forall q | 0 <= q < |s'.procs| ensures s'.procs[q].pid != v { PidMoves(s, st, s', q); }
  }

  /** The step by which process x reaps the child in slot q. */
  predicate Reaps(pc: Pc, q: nat, pc': Pc) {
    pc.InWait? && pc.wait.WaitHeld? && pc.child == q && pc'.InWait? && pc'.wait.WaitReaped?
  }

  lemma ReapStep(s: State, st: Step, s': State, x: nat, q: nat)
    requires Safe(s) && TreeOk(s) && CallsOk(s) && NextStep(s, st, s') && x < |s.procs| && x < |s'.threads|
    requires Reaps(s.threads[x].base, q, s'.threads[x].base)
    ensures q < |s.procs| && s.procs[q].state.ZOMBIE? && s.procs[q].parent == Some(x)
    ensures PidGone(s', s.procs[q].pid)
  {
    hide Safe, NextStep, BaseCode, Permitted, ForkOwned, TreeMove, CallsOk, TreeOk, Knows, KidsKnown;
    StepShape(s, st, s');
    if !Own(s, st, x) { PlaceKept(s, st, s', x); }
    OwnFacts(s, st, s');
    ReapCode(s, x, st.op, st.pc, q);
    CallKnown(s, x);
    HeldChild(s, x);
    NodeAndThread(s, q);
    FreedPid(s, x, st.op, s', q);
  }

  lemma ReapCode(s: State, me: nat, op: Op, pc': Pc, q: nat)
    requires Shape(s) && me < |s.procs| && BaseCode(s, me, s.threads[me].base, op, pc')
    requires Reaps(s.threads[me].base, q, pc')
    ensures op == Free(q) && op.q < |s.procs| && s.procs[op.q].state.ZOMBIE?
  {
  }

  lemma HeldChild(s: State, x: nat)
    requires Shape(s) && x < |s.procs| && CallOk(s, x) && s.threads[x].base.InWait? && s.threads[x].base.wait.WaitHeld?
    ensures s.threads[x].base.child < |s.procs| ==> s.procs[s.threads[x].base.child].parent == Some(x)
  {
  }

  lemma FreedPid(s: State, me: nat, op: Op, s': State, q: nat)
    requires Wrote(s, me, op, s') && TreeOk(s) && op == Free(q) && q < |s.procs| && s.procs[q].state.ZOMBIE?
    ensures PidGone(s', s.procs[q].pid)
  {
    hide ThreadTree;
    assert NodeOk(s, q);
    forall p | 0 <= p < |s'.procs| ensures s'.procs[p].pid != s.procs[q].pid {
      assert NodeOk(s, p);
    }
  }

  /** The child that kwait or waitx reports was a ZOMBIE child of the caller, and its pid never
      occurs in the table again: no child is reported twice. */
  lemma {:induction false} ReportedOnce(tr: seq<State>, m: nat, x: nat, q: nat, j: nat)
    requires Run(tr) && m < j < |tr| && x < |tr[m].threads| && x < |tr[m + 1].threads| && x < |tr[m].procs|
    requires Reaps(tr[m].threads[x].base, q, tr[m + 1].threads[x].base)
    ensures q < |tr[m].procs| && tr[m].procs[q].state.ZOMBIE? && tr[m].procs[q].parent == Some(x)
    ensures PidGone(tr[j], tr[m].procs[q].pid)
    decreases j
  {
    hide Run, Safe, NextStep, TreeOk, CallsOk;
    var n := j - 1;
    var st := StepOf(tr, n);
    RunCalls(tr, n);
    SafeShape(tr[n]);
    if m < n {
      ReportedOnce(tr, m, x, q, n);
      GoneStays(tr[n], st, tr[j], tr[m].procs[q].pid);
    } else {
      ReapStep(tr[n], st, tr[j], x, q);
    }
  }

  // ---------- Who wakes a sleeper ----------

  /** The step is that of a wakeup, on the channel on which q sleeps. */
  ghost predicate WakesUp(s: State, st: Step, q: nat)
    requires q < |s.procs|
  {
    && st.k < |s.cpus|
    && (|| (st.IrqGo? && s.cpus[st.k].irq.IWake? && s.cpus[st.k].irq.w == Wake(s.procs[q].chan, q, Held))
        || (st.BaseGo? && s.cpus[st.k].spc.SRun? && s.cpus[st.k].spc.p < |s.threads|
            && var pc := s.threads[s.cpus[st.k].spc.p].base;
               && (IsExit(pc, RepWake) || IsExit(pc, ExWake))
               && pc.w == Wake(s.procs[q].chan, q, Held)))
  }

  /** The step is that of a kkill whose victim is q. */
  ghost predicate KillsSleeper(s: State, st: Step, q: nat)
    requires q < |s.procs|
  {
    && st.BaseGo? && st.k < |s.cpus| && s.cpus[st.k].spc.SRun? && s.cpus[st.k].spc.p < |s.threads|
    && s.threads[s.cpus[st.k].spc.p].base == InKill(s.procs[q].pid, q, KillSet) && s.procs[q].killed.Yes?
  }

  lemma SleeperStep(s: State, st: Step, s': State, q: nat)
    requires Safe(s) && CallsOk(s) && NextStep(s, st, s') && q < |s.procs| && s.procs[q].state.SLEEPING?
    ensures q < |s'.procs|
    ensures || (s'.procs[q].state.SLEEPING? && s'.procs[q].chan == s.procs[q].chan)
            || WakesUp(s, st, q) || KillsSleeper(s, st, q)
  {
    hide Safe, CallsOk, BaseStep, TickStep, IrqStep, TimerStep, DeviceStep, SwtchStep, ClearStep, SchedAcqStep,
        SchedRelStep, TreeStep, Stepped, BaseCode, TickCode, WakesUp, KillsSleeper;
    SafeShape(s);
    StepShape(s, st, s');
    match st {
      case BaseGo(k, op, pc) =>
        OwnFacts(s, st, s');
        CallKnown(s, s.cpus[k].spc.p);
        ResumedRuns(s, k, s.cpus[k].spc.p);
        BaseSleeper(s, st, s', q);
      case TickGo(k, op, pc) => TickSleeper(s, k, op, pc, s', q);
      case IrqGo(k, op, irq, end) => IrqSleeper(s, k, op, irq, end, s', q);
      case Dispatch(k, x) =>
      case _ => SchedLocked(s, st, s', q);
    }
  }

  lemma BaseSleeper(s: State, st: Step, s': State, q: nat)
    requires Shape(s) && st.BaseGo? && st.k < |s.cpus| && s.cpus[st.k].spc.SRun? && s.cpus[st.k].spc.p < |s.procs|
    requires CallOk(s, s.cpus[st.k].spc.p)
    requires BaseCode(s, s.cpus[st.k].spc.p, s.threads[s.cpus[st.k].spc.p].base, st.op, st.pc)
    requires TreeStep(s, st.k, s.cpus[st.k].spc.p, st.op, s') && q < |s.procs| == |s'.procs|
    requires s.procs[q].state.SLEEPING?
    requires IsSleep(s.threads[s.cpus[st.k].spc.p].base, SleepBack) ==> s.procs[s.cpus[st.k].spc.p].state.RUNNING?
    ensures || (s'.procs[q].state.SLEEPING? && s'.procs[q].chan == s.procs[q].chan)
            || WakesUp(s, st, q) || KillsSleeper(s, st, q)
  {
    hide BaseCode, WakesUp, KillsSleeper, ForkOwned, CallOk;
    var me := s.cpus[st.k].spc.p;
    if st.op.Ready? && st.op.q == q { ReadySleeper(s, st, q); }
    if st.op.ClearChan? { ClearFrom(s, me, st.op, st.pc); }
  }

  lemma ResumedRuns(s: State, k: nat, me: nat)
    requires Safe(s) && Running(s, k, me) && s.threads[me].tick.TNone?
    ensures IsSleep(s.threads[me].base, SleepBack) ==> s.procs[me].state.RUNNING?
  {
    hide QuietOk, LockOk, GlobalLockOk, ForkOk;
    SlotStays(s, me);
  }

  /** Where the code makes a sleeping process RUNNABLE. */
  lemma ReadySleeper(s: State, st: Step, q: nat)
    requires Shape(s) && st.BaseGo? && st.k < |s.cpus| && s.cpus[st.k].spc.SRun? && s.cpus[st.k].spc.p < |s.procs|
    requires CallOk(s, s.cpus[st.k].spc.p)
    requires BaseCode(s, s.cpus[st.k].spc.p, s.threads[s.cpus[st.k].spc.p].base, st.op, st.pc)
    requires st.op.Ready? && st.op.q == q && q < |s.procs| && s.procs[q].state.SLEEPING?
    ensures WakesUp(s, st, q) || KillsSleeper(s, st, q)
  {
    hide StillPausing, KidsKnown;
    var pc := s.threads[s.cpus[st.k].spc.p].base;
    assert !pc.InFork? && !pc.InWait? && !pc.InSleep?;
    assert pc.InKill? ==> KillsSleeper(s, st, q);
  }

  lemma ClearFrom(s: State, me: nat, op: Op, pc': Pc)
    requires Shape(s) && me < |s.procs| && BaseCode(s, me, s.threads[me].base, op, pc') && op.ClearChan?
    ensures IsSleep(s.threads[me].base, SleepBack)
  {
  }

  lemma TickSleeper(s: State, k: nat, op: Op, pc': TickPc, s': State, q: nat)
    requires Safe(s) && TickStep(s, k, op, pc', s') && q < |s.procs| && s.procs[q].state.SLEEPING?
    ensures q < |s'.procs| && s'.procs[q].state.SLEEPING? && s'.procs[q].chan == s.procs[q].chan
  {
    hide Safe, TickStep;
    TickWrote(s, k, op, pc', s');
  }

  lemma IrqSleeper(s: State, k: nat, op: Op, irq': Irq, end: TickEnd, s': State, q: nat)
    requires Safe(s) && IrqStep(s, k, op, irq', end, s') && q < |s.procs| && s.procs[q].state.SLEEPING?
    ensures q < |s'.procs|
    ensures || (s'.procs[q].state.SLEEPING? && s'.procs[q].chan == s.procs[q].chan)
            || WakesUp(s, IrqGo(k, op, irq', end), q)
  {
    hide Safe, Permitted, IrqEffect, IrqFrame, ChargeChoice;
    IrqRunning(s, k, op, irq', end, s');
    IrqPermitted(s, k, op, irq');
    IrqWrites(s, k, op, irq', end, s');
  }

  /** Over any part of a run of any scheduler: a process that was asleep and is not any more was
      woken by a wakeup of the channel on which it slept, or by a kkill of its pid. */
  lemma {:induction false} WokenOnItsChannel(cs: seq<State>, st: seq<Option<Step>>, q: nat, i: nat, j: nat)
      returns (m: nat)
    requires Trace(cs, st) && i <= j < |cs|
    requires q < |cs[i].procs| && cs[i].procs[q].state.SLEEPING?
    requires q < |cs[j].procs| ==> !cs[j].procs[q].state.SLEEPING?
    ensures i <= m < j && q < |cs[m].procs| && cs[m].procs[q].state.SLEEPING?
    ensures cs[m].procs[q].chan == cs[i].procs[q].chan
    ensures st[m].Some? && (WakesUp(cs[m], st[m].value, q) || KillsSleeper(cs[m], st[m].value, q))
    decreases j - i
  {
    hide NextStep, Init, Safe, Run, TreeOk, CallsOk, WakesUp, KillsSleeper;
    assert i < j;
    var tr, y := TraceState(cs, st, i);
    RunCalls(tr, y);
    TraceStep(cs, st, i);
    if st[i].Some? { SleeperStep(cs[i], st[i].value, cs[i + 1], q); }
    if st[i].Some? && (WakesUp(cs[i], st[i].value, q) || KillsSleeper(cs[i], st[i].value, q)) {
      m := i;
    } else {
      m := WokenOnItsChannel(cs, st, q, i + 1, j);
    }
  }

  // ---------- Who goes to sleep ----------

  lemma SleepFrom(s: State, me: nat, pc: Pc, op: Op, pc': Pc)
    requires Shape(s) && me < |s.procs| && BaseCode(s, me, pc, op, pc') && !pc.InSleep? && pc'.InSleep?
    ensures !pc'.r.ToOther? ==> s.procs[me].killed.No? && op.Nop? && pc'.sleep.SleepAt?
    ensures pc'.r.ToWait? ==> pc.InWait? && pc.wait.WaitScan? && pc.kids.HasKids? && |s.procs| <= pc.child
    ensures pc'.r.ToPause? ==>
        pc.InPause? && pc.n == pc'.r.n && pc.start == pc'.r.start && StillPausing(s.ticks, pc.start, pc.n)
  {
    hide WakeCode, StillPausing, ExitCode;
    if pc.InExit? { ExitSleepsNot(s, me, pc, op, pc'); }
  }

  lemma ExitSleepsNot(s: State, me: nat, pc: Pc, op: Op, pc': Pc)
    requires Shape(s) && me < |s.procs| && pc.InExit? && ExitCode(s, me, pc, op, pc')
    ensures !pc'.InSleep?
  {
    hide WakeCode;
  }

  /** A process that goes to sleep in kwait or waitx is not killed and has children, none of
      them a zombie; one that goes to sleep in sys_pause is not killed either. */
  lemma SleepsWithReason(tr: seq<State>, i: nat, p: nat)
    requires Run(tr) && i + 1 < |tr| && p < |tr[i].procs| && p < |tr[i].threads| && p < |tr[i + 1].threads|
    requires !tr[i].threads[p].base.InSleep? && tr[i + 1].threads[p].base.InSleep?
    ensures var r := tr[i + 1].threads[p].base.r;
      && (!r.ToOther? ==> tr[i].procs[p].killed.No?)
      && (r.ToWait? ==>
            && (exists c :: 0 <= c < |tr[i].procs| && tr[i].procs[c].parent == Some(p))
            && forall c :: 0 <= c < |tr[i].procs| && tr[i].procs[c].parent == Some(p) ==>
                !tr[i].procs[c].state.ZOMBIE?)
      && (r.ToPause? ==> StillPausing(tr[i].ticks, r.start, r.n))
  {
    hide Run, Safe, NextStep, TreeOk, CallsOk, BaseCode, TreeStep, Stepped, KidBelow, StillPausing, WaitOk;
    var st := StepOf(tr, i);
    RunCalls(tr, i);
    RunWait(tr, i);
    var s := tr[i];
    SafeShape(s);
    StepShape(s, st, tr[i + 1]);
    if Own(s, st, p) {
      OwnFacts(s, st, tr[i + 1]);
      NewPlace(s, p, st.op, st.pc, tr[i + 1]);
      SleepFrom(s, p, s.threads[p].base, st.op, st.pc);
      if st.pc.r.ToWait? { ScannedKids(s, p); }
    } else {
      PlaceKept(s, st, tr[i + 1], p);
      NoSleeperMade(s, st, tr[i + 1], p);
    }
  }

  lemma NewPlace(s: State, me: nat, op: Op, pc': Pc, s': State)
    requires me < |s.threads| && Stepped(s, me, op, s.threads[me].(base := pc'), s')
    ensures s'.threads[me].base == pc'
  {
  }

  /** swtch saves the place of a process that is already in sleep. */
  lemma NoSleeperMade(s: State, st: Step, s': State, p: nat)
    requires Safe(s) && NextStep(s, st, s') && !Own(s, st, p) && p < |s.threads| && p < |s'.threads|
    requires s'.threads[p].base.InSleep?
    ensures s.threads[p].base.InSleep?
  {
    hide Safe, NextStep, BaseCode, TreeStep, BasesStay;
    SafeShape(s);
    StepShape(s, st, s');
    if st.BaseGo? {
      OwnFacts(s, st, s');
    } else {
      OtherStepsStay(s, st, s');
      StaysSleeper(s, s', p);
    }
  }

  lemma StaysSleeper(s: State, s': State, p: nat)
    requires BasesStay(s, s') && p < |s.threads| && s'.threads[p].base.InSleep?
    ensures s.threads[p].base.InSleep?
  {
    hide Quiet;
  }

  /** At the end of its scan kwait has seen a child, and no zombie. */
  lemma ScannedKids(s: State, p: nat)
    requires Shape(s) && p < |s.procs| && CallsOk(s) && WaitOk(s)
    requires var pc := s.threads[p].base;
      pc.InWait? && pc.wait.WaitScan? && pc.kids.HasKids? && |s.procs| <= pc.child
    ensures exists c :: 0 <= c < |s.procs| && s.procs[c].parent == Some(p)
    ensures forall c :: 0 <= c < |s.procs| && s.procs[c].parent == Some(p) ==> !s.procs[c].state.ZOMBIE?
  {
    hide CallsOk, WaitOk;
    CallKnown(s, p);
    SleeperAndHolder(s, p);
    var c :| 0 <= c < |s.procs| && Kid(s, p, c);
    assert s.procs[c].parent == Some(p);
    forall c | 0 <= c < |s.procs| && s.procs[c].parent == Some(p) ensures !s.procs[c].state.ZOMBIE? {
      assert !ZombieKid(s, p, c);
    }
  }

  // ---------- Channels ----------

  /** A process has a channel only from the moment it falls asleep until it runs again in sleep. */
  predicate ChanOk(pr: Proc, pc: Pc) {
    pr.chan.NoChan? || (pc.InSleep? && (pc.sleep.SleepSched? || pc.sleep.SleepSwtch? || pc.sleep.SleepBack?))
  }

  ghost predicate ChansOk(s: State)
    requires Shape(s)
  {
    forall q {:trigger s.procs[q]} {:trigger s.threads[q]} :: 0 <= q < |s.procs| ==>
        ChanOk(s.procs[q], s.threads[q].base)
  }

  lemma ChanStep(s: State, st: Step, s': State, q: nat)
    requires Safe(s) && NextStep(s, st, s') && Shape(s') && q < |s.procs| == |s'.procs|
    requires ChanOk(s.procs[q], s.threads[q].base)
    ensures ChanOk(s'.procs[q], s'.threads[q].base)
  {
    hide Safe, BaseStep, TickStep, IrqStep, TimerStep, DeviceStep, SwtchStep, ClearStep, SchedAcqStep, SchedRelStep,
        TreeStep, Stepped, BaseCode, BasesStay, ChanOk;
    SafeShape(s);
    if st.BaseGo? {
      OwnFacts(s, st, s');
      BaseChan(s, st.k, s.cpus[st.k].spc.p, st.op, st.pc, s', q);
    } else {
      OtherStepsStay(s, st, s');
      OtherChan(s, st, s', q);
      StayChan(s, s', q);
    }
  }

  lemma StayChan(s: State, s': State, q: nat)
    requires BasesStay(s, s') && q < |s.procs| && s'.procs[q].chan == s.procs[q].chan
    requires ChanOk(s.procs[q], s.threads[q].base)
    ensures ChanOk(s'.procs[q], s'.threads[q].base)
  {
    hide Quiet;
  }

  lemma OtherChan(s: State, st: Step, s': State, q: nat)
    requires Safe(s) && NextStep(s, st, s') && !st.BaseGo? && q < |s.procs| && q < |s'.procs|
    ensures s'.procs[q].chan == s.procs[q].chan
  {
    hide Safe, BaseStep, TickStep, IrqStep, TimerStep, DeviceStep, SwtchStep, ClearStep, SchedAcqStep, SchedRelStep;
    match st {
      case TickGo(k, op, pc) => TickWrote(s, k, op, pc, s');
      case IrqGo(k, op, irq, end) => IrqChan(s, k, op, irq, end, s', q);
      case Dispatch(k, x) =>
      case _ => SchedLocked(s, st, s', q);
    }
  }

  lemma IrqChan(s: State, k: nat, op: Op, irq': Irq, end: TickEnd, s': State, q: nat)
    requires Safe(s) && IrqStep(s, k, op, irq', end, s') && q < |s.procs| && q < |s'.procs|
    ensures s'.procs[q].chan == s.procs[q].chan
  {
    hide Safe, Permitted, IrqEffect, IrqCode, IrqFrame, ChargeChoice;
    IrqRunning(s, k, op, irq', end, s');
    IrqPermitted(s, k, op, irq');
    IrqWrites(s, k, op, irq', end, s');
  }

  lemma BaseChan(s: State, k: nat, me: nat, op: Op, pc': Pc, s': State, q: nat)
    requires TreeStep(s, k, me, op, s') && Stepped(s, me, op, s.threads[me].(base := pc'), s')
    requires Running(s, k, me) && BaseCode(s, me, s.threads[me].base, op, pc') && q < |s.procs| == |s'.procs|
    requires ChanOk(s.procs[q], s.threads[q].base)
    requires Safe(s)
    ensures ChanOk(s'.procs[q], s'.threads[q].base)
  {
    hide Safe, BaseCode, ForkOwned;
    SleepPlaces(s, me, s.threads[me].base, op, pc');
    if op == Spawn(q) { NewThread(s, k, q); }
  }

  /** How the channel follows the places of sleep. */
  lemma SleepPlaces(s: State, me: nat, pc: Pc, op: Op, pc': Pc)
    requires Shape(s) && me < |s.procs| && BaseCode(s, me, pc, op, pc')
    ensures pc.InSleep? && (pc.sleep.SleepSched? || pc.sleep.SleepSwtch? || pc.sleep.SleepBack?) ==>
        (op == ClearChan(me)) || (pc'.InSleep? && (pc'.sleep.SleepSched? || pc'.sleep.SleepSwtch?) && op == Switch(me))
    ensures op.GoSleep? ==> pc'.InSleep? && pc'.sleep.SleepSched?
  {
    hide StillPausing;
  }

  lemma NewThread(s: State, k: nat, q: nat)
    requires Safe(s) && q < |s.procs| && s.procs[q].state.USED? && s.threads[q].on.None?
    ensures !s.threads[q].base.InSleep?
  {
    hide RunOk, QuietOk, LockOk, GlobalLockOk, ForkOk;
    SlotStays(s, q);
  }

  /** A process that is not asleep and not on its way into or out of sleep has no channel. */
  lemma {:induction false} RunChans(tr: seq<State>, i: nat)
    requires Run(tr) && i < |tr|
    ensures Shape(tr[i]) && ChansOk(tr[i])
  {
    hide Safe, NextStep, ChanOk, Run;
    RunSafe(tr, i);
    SafeShape(tr[i]);
    if i == 0 {
      InitChans(tr);
    } else {
      RunChans(tr, i - 1);
      var st := StepOf(tr, i - 1);
      RunSafe(tr, i - 1);
      StepShape(tr[i - 1], st, tr[i]);
      forall q | 0 <= q < |tr[i].procs| ensures ChanOk(tr[i].procs[q], tr[i].threads[q].base) {
        assert ChanOk(tr[i - 1].procs[q], tr[i - 1].threads[q].base);
        ChanStep(tr[i - 1], st, tr[i], q);
      }
    }
  }

  lemma InitChans(tr: seq<State>)
    requires Run(tr)
    ensures Shape(tr[0]) && ChansOk(tr[0])
  {
    hide Next;
  }
}
