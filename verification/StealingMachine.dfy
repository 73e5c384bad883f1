/**
 The work stealing scheduler on top of the shared protocol: per-CPU queues, the unlocked gap
 between taking a queue entry and locking its process, and pushes that a full queue drops.
 The machine refines the abstract dispatcher of Kernel, and as long as no push has been
 dropped no RUNNABLE process is lost.
 */
module StealingMachine {
  import opened Kernel
  import opened KernelLocks
  import opened KernelSafe
  import opened KernelRunnable
  import opened KernelTree
  import opened Refinement
  import opened KernelPush
  import Ring

  /** Where the search for work stands: the local queue after `count` pops; choosing the
      next victim after `attempts`; a victim's queue after `count` pops. */
  datatype Hunt = Local(count: nat) | Choose(attempts: nat) | Remote(attempts: nat, victim: nat, count: nat)

  /** A CPU's scheduler: searching; with an entry in hand, not locked yet; with its lock;
      switched out to a process; back and about to push; about to unlock. */
  datatype WPc = Look(h: Hunt) | Entry(h: Hunt, q: nat) | Locked(h: Hunt, q: nat) | Away | Back(p: nat) | Unlock(p: nat)

  datatype WState = WState(core: State, queues: seq<seq<nat>>, sched: seq<WPc>, dropped: Flag)

  ghost predicate WShape(w: WState) {
    Shape(w.core) && |w.queues| == |w.sched| == |w.core.cpus|
  }

  // ---------- Steps ----------

  /** push_back on CPU k's queue. */
  function PushOn(w: WState, k: nat, p: nat): WState
    requires k < |w.queues|
  {
    w.(queues := w.queues[k := Ring.After(w.queues[k], Ring.Push(p))],
       dropped := if |w.queues[k]| < Ring.MAX_TASKS - 1 then w.dropped else Yes)
  }

  datatype WStep =
    | Proc(st: Step)
    | TakeLocal(k: nat) | PickVictim(k: nat, v: nat) | TakeRemote(k: nat) | GiveUp(k: nat)
    | LockEntry(k: nat) | DropEntry(k: nat) | RunEntry(k: nat)
    | ClearBack(k: nat) | PushBack(k: nat) | UnlockBack(k: nat)

  /** A step of a process, of a handler or of swtch; push_back goes to the queue of the CPU
      that executes it. */
  ghost predicate ProcStep(w: WState, st: Step, w': WState) {
    && WShape(w) && st.k < |w.core.cpus|
    && OfProcess(st)
    && NextStep(w.core, st, w'.core)
    && w' == (if OpOf(st).PushQ? then PushOn(w, st.k, OpOf(st).q) else w).(core := w'.core)
  }

  /** CPU k's scheduler thread is executing. */
  ghost predicate Searching(w: WState, k: nat) {
    && WShape(w) && k < |w.sched| && w.core.cpus[k].irq.INone?
  }

  function Moved(w: WState, k: nat, pc: WPc): WState
    requires k < |w.sched|
  {
    w.(sched := w.sched[k := pc])
  }

  ghost predicate TakeLocalStep(w: WState, k: nat, w': WState) {
    && Searching(w, k) && w.sched[k].Look? && w.sched[k].h.Local?
    && var n, q := w.sched[k].h.count, w.queues[k];
       if n < Ring.MAX_TASKS && q != [] then
         w' == Moved(w.(queues := w.queues[k := Ring.After(q, Ring.PopBack)]), k,
                     Entry(Local(n + 1), Ring.Returned(q, Ring.PopBack).value))
       else w' == Moved(w, k, Look(Choose(0)))
  }

  ghost predicate PickVictimStep(w: WState, k: nat, v: nat, w': WState) {
    && Searching(w, k) && w.sched[k].Look? && w.sched[k].h.Choose?
    && w.sched[k].h.attempts + 1 < |w.sched|
    && v < |w.sched| && v != k
    && w' == Moved(w, k, Look(Remote(w.sched[k].h.attempts + 1, v, 0)))
  }

  ghost predicate TakeRemoteStep(w: WState, k: nat, w': WState) {
    && Searching(w, k) && w.sched[k].Look? && w.sched[k].h.Remote?
    && var a, v, n := w.sched[k].h.attempts, w.sched[k].h.victim, w.sched[k].h.count;
       && v < |w.queues|
       && var q := w.queues[v];
          if n < Ring.MAX_TASKS && q != [] then
            w' == Moved(w.(queues := w.queues[v := Ring.After(q, Ring.PopFront)]), k,
                        Entry(Remote(a, v, n + 1), Ring.Returned(q, Ring.PopFront).value))
          else w' == Moved(w, k, Look(Choose(a)))
  }

  /** All attempts failed: wait for an interrupt and start again. */
  ghost predicate GiveUpStep(w: WState, k: nat, w': WState) {
    && Searching(w, k) && w.sched[k].Look? && w.sched[k].h.Choose?
    && |w.sched| <= w.sched[k].h.attempts + 1
    && w' == Moved(w, k, Look(Local(0)))
  }

  ghost predicate LockEntryStep(w: WState, k: nat, w': WState) {
    && Searching(w, k) && w.sched[k].Entry?
    && SchedAcqStep(w.core, k, w.sched[k].q, w'.core)
    && w' == Moved(w, k, Locked(w.sched[k].h, w.sched[k].q)).(core := w'.core)
  }

  ghost predicate DropEntryStep(w: WState, k: nat, w': WState) {
    && Searching(w, k) && w.sched[k].Locked? && w.sched[k].q < |w.core.procs|
    && !w.core.procs[w.sched[k].q].state.RUNNABLE?
    && SchedRelStep(w.core, k, w.sched[k].q, w'.core)
    && w' == Moved(w, k, Look(w.sched[k].h)).(core := w'.core)
  }

  ghost predicate RunEntryStep(w: WState, k: nat, w': WState) {
    && Searching(w, k) && w.sched[k].Locked?
    && DispatchStep(w.core, k, w.sched[k].q, w'.core)
    && w' == Moved(w, k, Away).(core := w'.core)
  }

  ghost predicate ClearBackStep(w: WState, k: nat, w': WState) {
    && Searching(w, k) && w.sched[k].Away?
    && ClearStep(w.core, k, w'.core)
    && w' == Moved(w, k, Back(w.core.cpus[k].spc.p)).(core := w'.core)
  }

  ghost predicate PushBackStep(w: WState, k: nat, w': WState) {
    && Searching(w, k) && w.sched[k].Back? && w.sched[k].p < |w.core.procs|
    && var p := w.sched[k].p;
       w' == Moved(if w.core.procs[p].state.RUNNABLE? then PushOn(w, k, p) else w, k, Unlock(p))
  }

  ghost predicate UnlockBackStep(w: WState, k: nat, w': WState) {
    && Searching(w, k) && w.sched[k].Unlock?
    && SchedRelStep(w.core, k, w.sched[k].p, w'.core)
    && w' == Moved(w, k, Look(Local(0))).(core := w'.core)
  }

  ghost predicate WNextStep(w: WState, t: WStep, w': WState) {
    match t
    case Proc(st) => ProcStep(w, st, w')
    case TakeLocal(k) => TakeLocalStep(w, k, w')
    case PickVictim(k, v) => PickVictimStep(w, k, v, w')
    case TakeRemote(k) => TakeRemoteStep(w, k, w')
    case GiveUp(k) => GiveUpStep(w, k, w')
    case LockEntry(k) => LockEntryStep(w, k, w')
    case DropEntry(k) => DropEntryStep(w, k, w')
    case RunEntry(k) => RunEntryStep(w, k, w')
    case ClearBack(k) => ClearBackStep(w, k, w')
    case PushBack(k) => PushBackStep(w, k, w')
    case UnlockBack(k) => UnlockBackStep(w, k, w')
  }

  ghost predicate WNext(w: WState, w': WState) {
    exists t :: WNextStep(w, t, w')
  }

  /** userinit has pushed initproc on the queue of the boot CPU. */
  ghost predicate WInit(w: WState) {
    && Init(w.core) && WShape(w) && w.dropped.No?
    && (forall k {:trigger w.queues[k]} :: 0 <= k < |w.queues| ==> w.queues[k] == if k == 0 then [INIT] else [])
    && (forall k {:trigger w.sched[k]} :: 0 <= k < |w.sched| ==> w.sched[k] == Look(Local(0)))
  }

  ghost predicate WRun(tr: seq<WState>) {
    && |tr| > 0 && WInit(tr[0])
    && forall i, j {:trigger WNext(tr[i], tr[j])} :: 0 <= i && j == i + 1 < |tr| ==> WNext(tr[i], tr[j])
  }

  // ---------- Refinement ----------

  /** The scheduler's own places, as the abstract dispatcher sees them. */
  ghost predicate Agrees(pc: WPc, spc: SPc) {
    match pc
    case Look(_) => spc == SScan({})
    case Entry(_, _) => spc == SScan({})
    case Locked(_, q) => spc == SScan({q})
    case Away => !spc.SScan?
    case Back(p) => spc == SScan({p})
    case Unlock(p) => spc == SScan({p})
  }

  ghost predicate Linked(w: WState)
    requires WShape(w)
  {
    forall k {:trigger w.sched[k]} {:trigger w.core.cpus[k]} :: 0 <= k < |w.sched| ==>
        Agrees(w.sched[k], w.core.cpus[k].spc)
  }

  /** The step of the abstract dispatcher that a step stands for, if it is not a stutter. */
  function CoreStep(w: WState, t: WStep): Option<Step>
  {
    match t
    case Proc(st) => Some(st)
    case LockEntry(k) => if k < |w.sched| && w.sched[k].Entry? then Some(SchedAcq(k, w.sched[k].q)) else None
    case DropEntry(k) => if k < |w.sched| && w.sched[k].Locked? then Some(SchedRel(k, w.sched[k].q)) else None
    case RunEntry(k) => if k < |w.sched| && w.sched[k].Locked? then Some(Dispatch(k, w.sched[k].q)) else None
    case ClearBack(k) => Some(ClearProc(k))
    case UnlockBack(k) => if k < |w.sched| && w.sched[k].Unlock? then Some(SchedRel(k, w.sched[k].p)) else None
    case _ => None
  }

  lemma StepRefines(w: WState, t: WStep, w': WState)
    requires WNextStep(w, t, w')
    ensures if CoreStep(w, t).Some? then NextStep(w.core, CoreStep(w, t).value, w'.core) else w'.core == w.core
  {
    hide NextStep, BaseStep, TickStep, IrqStep, TimerStep, DeviceStep, SwtchStep;
    hide SchedAcqStep, SchedRelStep, DispatchStep, ClearStep;
    match t {
      case Proc(st) =>
      case _ => SchedRefines(w, t, w');
    }
  }

  lemma SchedRefines(w: WState, t: WStep, w': WState)
    requires WNextStep(w, t, w') && !t.Proc?
    ensures if CoreStep(w, t).Some? then NextStep(w.core, CoreStep(w, t).value, w'.core) else w'.core == w.core
  {
    hide BaseStep, TickStep, IrqStep, TimerStep, DeviceStep, SwtchStep;
    hide SchedAcqStep, SchedRelStep, DispatchStep, ClearStep;
  }

  lemma InitLinked(w: WState)
    requires WInit(w)
    ensures Linked(w)
  {
  }

  lemma ProcLinked(w: WState, st: Step, w': WState)
    requires ProcStep(w, st, w') && Linked(w)
    ensures WShape(w') && Linked(w')
  {
    hide NextStep;
    ProcScheds(w.core, st, w'.core);
  }

  lemma StepLinked(w: WState, t: WStep, w': WState)
    requires WNextStep(w, t, w') && WShape(w) && Linked(w)
    ensures WShape(w') && Linked(w')
  {
    hide ProcStep;
    match t {
      case Proc(st) => ProcLinked(w, st, w');
      case _ =>
    }
  }

  // ---------- Runs ----------

  lemma NextRefines(w: WState, w': WState)
    requires WNext(w, w')
    ensures StepOrStutter(w.core, w'.core)
  {
    hide WNextStep, NextStep;
    var t :| WNextStep(w, t, w');
    StepRefines(w, t, w');
  }

  function Cores(tr: seq<WState>): seq<State> {
    seq(|tr|, i requires 0 <= i < |tr| => tr[i].core)
  }

  /** Every run of the work stealing scheduler is a run of the abstract dispatcher. */
  lemma Refines(tr: seq<WState>) returns (core: seq<State>, at: seq<nat>)
    requires WRun(tr)
    ensures Run(core) && Follows(Cores(tr), core, at)
  {
    hide WNext, Next, Init, Run, Follows;
    var cs := Cores(tr);
    forall i, j | 0 <= i && j == i + 1 < |cs| ensures StepOrStutter(cs[i], cs[j]) {
      assert WNext(tr[i], tr[j]);
      NextRefines(tr[i], tr[j]);
    }
    core, at := Unstutter(cs);
  }

  lemma CoreSafe(tr: seq<WState>, i: nat)
    requires WRun(tr) && i < |tr|
    ensures Safe(tr[i].core)
  {
    hide WRun, Safe, Run;
    var core, at := Refines(tr);
    assert Cores(tr)[i] == core[at[i]];
    RunSafe(core, at[i]);
  }

  // ---------- No lost process ----------

  ghost predicate InQueue(w: WState, p: nat) {
    exists k {:trigger w.queues[k]} :: 0 <= k < |w.queues| && p in w.queues[k]
  }

  predicate Holding(pc: WPc, p: nat) { pc.Entry? && pc.q == p }

  /** Taken from a queue by a CPU that has not locked it yet. */
  ghost predicate InHand(w: WState, p: nat) {
    exists k {:trigger w.sched[k]} :: 0 <= k < |w.sched| && Holding(w.sched[k], p)
  }

  /** CPU k holds the lock of p and is about to push or run it. */
  ghost predicate InCharge(w: WState, k: nat, p: nat)
    requires WShape(w)
  {
    && k < |w.sched|
    && (|| (w.sched[k].Locked? && w.sched[k].q == p)
        || (w.sched[k].Back? && w.sched[k].p == p)
        || AboutToPush(w.core, k, p))
  }

  ghost predicate Covered(w: WState, p: nat)
    requires WShape(w)
  {
    InQueue(w, p) || InHand(w, p) || exists k :: 0 <= k < |w.sched| && InCharge(w, k, p)
  }

  ghost predicate NoneLost(w: WState)
    requires WShape(w)
  {
    w.dropped.No? ==> forall p {:trigger Covered(w, p)} ::
      0 <= p < |w.core.procs| && w.core.procs[p].state.RUNNABLE? ==> Covered(w, p)
  }

  lemma QueueKept(w: WState, t: WStep, w': WState, p: nat)
    requires WShape(w) && WNextStep(w, t, w') && WShape(w') && InQueue(w, p)
    ensures InQueue(w', p) || InHand(w', p)
  {
    hide NextStep, SchedAcqStep, SchedRelStep, DispatchStep, ClearStep;
    var k :| 0 <= k < |w.queues| && p in w.queues[k];
    assert |w'.queues| == |w.queues| && |w'.sched| == |w.sched|;
    if p in w'.queues[k] { return; }
    match t {
      case TakeLocal(c) => assert Holding(w'.sched[c], p);
      case TakeRemote(c) => assert Holding(w'.sched[c], p);
      case _ =>
    }
  }

  lemma HandKept(w: WState, t: WStep, w': WState, p: nat)
    requires WShape(w) && WNextStep(w, t, w') && WShape(w') && InHand(w, p)
    ensures InHand(w', p) || exists k :: 0 <= k < |w'.sched| && InCharge(w', k, p)
  {
    hide NextStep, SchedAcqStep, SchedRelStep, DispatchStep, ClearStep, AboutToPush;
    var k :| 0 <= k < |w.sched| && Holding(w.sched[k], p);
    assert |w'.sched| == |w.sched|;
    if t == LockEntry(k) { assert InCharge(w', k, p); }
    else { assert Holding(w'.sched[k], p); }
  }

  /** What a step does to the core, seen from the pushes. */
  ghost predicate WHanded(w: WState, t: WStep, w': WState) {
    && WShape(w) && WShape(w') && |w'.sched| == |w.sched|
    && (t.Proc? ==> t.st.k < |w.sched| && Handed(w.core, t.st.k, OpOf(t.st), w'.core))
    && (!t.Proc? ==> exists k {:trigger Handed(w.core, k, Nop, w'.core)} :: 0 <= k && Handed(w.core, k, Nop, w'.core))
  }

  /** A push that is due after the step is due before, or its process becomes RUNNABLE. */
  lemma DueBefore(w: WState, t: WStep, w': WState, k: nat, p: nat)
    requires WHanded(w, t, w') && AboutToPush(w'.core, k, p)
    ensures AboutToPush(w.core, k, p) || (p < |w.core.procs| && !w.core.procs[p].state.RUNNABLE?)
  {
    hide AboutToPush, OpOf;
    if !t.Proc? { var j: nat :| Handed(w.core, j, Nop, w'.core); }
  }

  /** A push that is due stays due, unless this step performs it. */
  lemma DueAfter(w: WState, t: WStep, w': WState, k: nat, p: nat)
    requires WHanded(w, t, w') && AboutToPush(w.core, k, p)
    ensures AboutToPush(w'.core, k, p) || (t.Proc? && t.st.k == k && OpOf(t.st) == PushQ(p))
  {
    hide AboutToPush, OpOf;
    if !t.Proc? { var j: nat :| Handed(w.core, j, Nop, w'.core); }
  }

  /** Whoever becomes RUNNABLE has a push due. */
  lemma BecomesDue(w: WState, t: WStep, w': WState, p: nat)
    requires WHanded(w, t, w') && p < |w'.core.procs| && w'.core.procs[p].state.RUNNABLE?
    ensures p < |w.core.procs| && (w.core.procs[p].state.RUNNABLE? || SomePush(w', p))
  {
    hide AboutToPush, OpOf;
    if t.Proc? {
      assert AboutToPush(w'.core, t.st.k, p) ==> InCharge(w', t.st.k, p);
    } else {
      var j: nat :| Handed(w.core, j, Nop, w'.core);
    }
  }

  ghost predicate SomePush(w: WState, p: nat)
    requires WShape(w)
  {
    exists k :: 0 <= k < |w.sched| && InCharge(w, k, p)
  }

  lemma StepHands(w: WState, t: WStep, w': WState)
    requires WNextStep(w, t, w') && WShape(w) && Safe(w.core)
    ensures WHanded(w, t, w')
  {
    hide Safe, NextStep, Handed, WNextStep, OpOf;
    StepSizes(w, t, w');
    StepRefines(w, t, w');
    if t.Proc? {
      ProcStepIs(w, t.st, w');
      NextHands(w.core, t.st, w'.core);
    } else if CoreStep(w, t).Some? {
      var st := CoreStep(w, t).value;
      SchedOp(w, t);
      NextHands(w.core, st, w'.core);
      assert Handed(w.core, st.k, Nop, w'.core);
    } else {
      StutterHands(w.core);
      assert Handed(w.core, 0, Nop, w'.core);
    }
  }

  lemma SchedOp(w: WState, t: WStep)
    requires !t.Proc? && CoreStep(w, t).Some?
    ensures OpOf(CoreStep(w, t).value).Nop?
  {
  }

  lemma ProcStepIs(w: WState, st: Step, w': WState)
    requires WNextStep(w, WStep.Proc(st), w')
    ensures OfProcess(st) && NextStep(w.core, st, w'.core) && st.k < |w.sched|
  {
    hide NextStep;
  }

  lemma StutterHands(s: State)
    requires Shape(s)
    ensures Handed(s, 0, Nop, s)
  {
    hide AboutToPush;
  }

  lemma StepSizes(w: WState, t: WStep, w': WState)
    requires WNextStep(w, t, w') && WShape(w)
    ensures WShape(w') && |w'.sched| == |w.sched|
  {
    hide NextStep;
    if t.Proc? { ProcScheds(w.core, t.st, w'.core); }
  }

  lemma ChargeKept(w: WState, t: WStep, w': WState, k: nat, p: nat)
    requires WNextStep(w, t, w') && WShape(w) && Safe(w.core) && InCharge(w, k, p)
    requires p < |w'.core.procs| && w'.core.procs[p].state.RUNNABLE? && w'.dropped.No?
    ensures WShape(w') && (InQueue(w', p) || InCharge(w', k, p))
  {
    hide Safe, NextStep, AboutToPush, OpOf;
    hide SchedAcqStep, ClearStep;
    StepHands(w, t, w');
    if AboutToPush(w.core, k, p) && !AboutToPush(w'.core, k, p) {
      DueAfter(w, t, w', k, p);
      PushedHere(w, t.st, w', p);
    } else if w.sched[k] == Back(p) && t == PushBack(k) {
      assert p in w'.queues[k];
    }
  }

  lemma PushedHere(w: WState, st: Step, w': WState, p: nat)
    requires ProcStep(w, st, w') && OpOf(st) == PushQ(p) && w'.dropped.No?
    ensures InQueue(w', p)
  {
    hide NextStep, OpOf;
    assert p in w'.queues[st.k];
  }

  lemma StepLosesNone(w: WState, t: WStep, w': WState)
    requires WNextStep(w, t, w') && WShape(w) && Safe(w.core) && NoneLost(w)
    ensures WShape(w') && NoneLost(w')
  {
    hide Safe, WNextStep, AboutToPush, InQueue, InHand, InCharge;
    StepHands(w, t, w');
    DropsRemembered(w, t, w');
    if w'.dropped.No? {
      forall p | 0 <= p < |w'.core.procs| && w'.core.procs[p].state.RUNNABLE?
        ensures Covered(w', p)
      {
        BecomesDue(w, t, w', p);
        if !SomePush(w', p) { CoveredAgain(w, t, w', p); }
      }
    }
  }

  lemma DropsRemembered(w: WState, t: WStep, w': WState)
    requires WNextStep(w, t, w')
    ensures w'.dropped.No? ==> w.dropped.No?
  {
    hide NextStep, SchedAcqStep, SchedRelStep, ClearStep, DispatchStep;
  }

  lemma CoveredAgain(w: WState, t: WStep, w': WState, p: nat)
    requires WNextStep(w, t, w') && Safe(w.core) && WHanded(w, t, w') && Covered(w, p)
    requires p < |w'.core.procs| && w'.core.procs[p].state.RUNNABLE? && w'.dropped.No?
    ensures Covered(w', p)
  {
    hide Safe, WNextStep, AboutToPush, InQueue, InHand, InCharge;
    if InQueue(w, p) {
      QueueKept(w, t, w', p);
    } else if InHand(w, p) {
      HandKept(w, t, w', p);
    } else {
      var k :| 0 <= k < |w.sched| && InCharge(w, k, p);
      ChargeKept(w, t, w', k, p);
      assert InCharge(w', k, p) ==> k < |w'.sched|;
    }
  }

  lemma InitLosesNone(w: WState)
    requires WInit(w)
    ensures NoneLost(w)
  {
    assert INIT in w.queues[0];
    assert InQueue(w, INIT);
  }

  ghost predicate WOk(w: WState) { WShape(w) && Linked(w) && NoneLost(w) }

  lemma InitOk(w: WState)
    requires WInit(w)
    ensures WOk(w)
  {
    hide Linked, NoneLost;
    InitLosesNone(w);
    InitLinked(w);
  }

  lemma {:induction false} RunLosesNone(tr: seq<WState>, i: nat)
    requires WRun(tr) && i < |tr|
    ensures WOk(tr[i])
  {
    hide Safe, WNext, WInit, NoneLost, Linked;
    if i == 0 {
      InitOk(tr[0]);
    } else {
      RunLosesNone(tr, i - 1);
      CoreSafe(tr, i - 1);
      assert WNext(tr[i - 1], tr[i]);
      NextOk(tr[i - 1], tr[i]);
    }
  }

  lemma NextOk(w: WState, w': WState)
    requires WNext(w, w') && WOk(w) && Safe(w.core)
    ensures WOk(w')
  {
    hide Safe, WNextStep, NoneLost, Linked;
    var t :| WNextStep(w, t, w');
    StepLinked(w, t, w');
    StepLosesNone(w, t, w');
  }

  /** No lost process: while no push has been dropped, a RUNNABLE process is in a queue, or in
      the hands of a CPU that has not locked it, or locked by a CPU about to push or run it. */
  lemma NoLostProcess(tr: seq<WState>, i: nat, p: nat)
    requires WRun(tr) && i < |tr| && WShape(tr[i]) && p < |tr[i].core.procs|
    requires tr[i].dropped.No? && tr[i].core.procs[p].state.RUNNABLE?
    ensures || InQueue(tr[i], p) || InHand(tr[i], p)
            || exists k :: 0 <= k < |tr[i].sched| && InCharge(tr[i], k, p) && tr[i].core.plock[p] == Some(k)
  {
    hide Safe, Linked, InQueue, InHand, InCharge;
    RunLosesNone(tr, i);
    CoreSafe(tr, i);
    assert Covered(tr[i], p);
    if !InQueue(tr[i], p) && !InHand(tr[i], p) {
      var k :| 0 <= k < |tr[i].sched| && InCharge(tr[i], k, p);
      ChargeLocks(tr[i], k, p);
    }
  }

  lemma ChargeLocks(w: WState, k: nat, p: nat)
    requires WShape(w) && Linked(w) && Safe(w.core) && InCharge(w, k, p)
    ensures p < |w.core.procs| && w.core.plock[p] == Some(k)
  {
    hide GlobalLockOk, ForkOk, StateOk, QuietOk;
    assert Agrees(w.sched[k], w.core.cpus[k].spc);
    assert Holds(w.core, k, p);
  }

  // ---------- Lost processes ----------

  /** RUNNABLE, executed by nobody, in no queue, in no hand and in nobody's charge. */
  ghost predicate Lost(w: WState, p: nat)
    requires WShape(w)
  {
    && Unloaded(w.core, p) && w.core.procs[p].state.RUNNABLE?
    && !InQueue(w, p) && !InHand(w, p)
    && forall k {:trigger InCharge(w, k, p)} :: 0 <= k < |w.sched| ==> !InCharge(w, k, p)
  }

  lemma LostUnqueued(w: WState, t: WStep, w': WState, p: nat)
    requires WNextStep(w, t, w') && WShape(w) && Lost(w, p)
    requires t.Proc? ==> OpOf(t.st) != PushQ(p)
    ensures !InQueue(w', p) && !InHand(w', p)
  {
    hide NextStep, SchedAcqStep, SchedRelStep, DispatchStep, ClearStep, AboutToPush, Unloaded, OpOf;
    if t.PushBack? { assert !InCharge(w, t.k, p); }
    forall k | 0 <= k < |w'.queues| ensures p !in w'.queues[k] {
      assert p !in w.queues[k];
    }
    forall k | 0 <= k < |w'.sched| ensures !Holding(w'.sched[k], p) {
      assert !Holding(w.sched[k], p);
      if t.TakeLocal? { assert p !in w.queues[t.k]; }
      if t.TakeRemote? { assert p !in w.queues[w.sched[t.k].h.victim]; }
    }
  }

  /** The CPU's own place does not become one that is in charge of p. */
  lemma LostUncharged(w: WState, t: WStep, w': WState, k: nat, p: nat)
    requires WNextStep(w, t, w') && WShape(w) && Lost(w, p) && k < |w'.sched|
    ensures w'.sched[k].Locked? ==> w'.sched[k].q != p
    ensures w'.sched[k].Back? ==> w'.sched[k].p != p
  {
    hide NextStep, SchedAcqStep, SchedRelStep, DispatchStep, AboutToPush, OpOf;
    assert !InCharge(w, k, p) && !Holding(w.sched[k], p);
  }

  /** The pushes that are due do not concern p. */
  lemma LostUnpushed(w: WState, t: WStep, w': WState, p: nat)
    requires WNextStep(w, t, w') && WShape(w) && Safe(w.core) && Lost(w, p)
    ensures WShape(w') && |w'.sched| == |w.sched| && (t.Proc? ==> OpOf(t.st) != PushQ(p))
    ensures forall k {:trigger AboutToPush(w'.core, k, p)} :: 0 <= k < |w'.sched| ==> !AboutToPush(w'.core, k, p)
  {
    hide Safe, WNextStep, AboutToPush, Unloaded, InQueue, InHand, OpOf, Handed;
    StepHands(w, t, w');
    forall k | 0 <= k < |w.sched| ensures !AboutToPush(w.core, k, p) { assert !InCharge(w, k, p); }
    forall k | 0 <= k < |w'.sched| ensures !AboutToPush(w'.core, k, p) {
      if AboutToPush(w'.core, k, p) { DueBefore(w, t, w', k, p); LostRunnable(w, p); }
    }
    if t.Proc? { PushWasDue(w.core, t.st.k, OpOf(t.st), w'.core); }
  }

  lemma LostRunnable(w: WState, p: nat)
    requires WShape(w) && Lost(w, p)
    ensures p < |w.core.procs| && w.core.procs[p].state.RUNNABLE?
  {
  }

  lemma PushWasDue(s: State, k: nat, op: Op, s': State)
    requires Handed(s, k, op, s')
    ensures op.PushQ? ==> AboutToPush(s, k, op.q) && !AboutToPush(s', k, op.q)
  {
    hide AboutToPush;
  }

  lemma LostUndispatched(w: WState, t: WStep, w': WState, p: nat)
    requires WNextStep(w, t, w') && WShape(w) && Lost(w, p)
    ensures !IsDispatch(CoreStep(w, t), p)
  {
    hide NextStep, SchedAcqStep, SchedRelStep, DispatchStep, ClearStep, AboutToPush, Unloaded;
    if t.RunEntry? { assert t.k < |w.sched| ==> !InCharge(w, t.k, p); }
  }

  /** Nobody finds a lost process again. */
  lemma LostStays(w: WState, t: WStep, w': WState, p: nat)
    requires WNextStep(w, t, w') && WShape(w) && Safe(w.core) && Lost(w, p)
    ensures WShape(w') && Lost(w', p)
  {
    hide Safe, NextStep, WNextStep, AboutToPush, Unloaded, InQueue, InHand, Lost;
    LostUnpushed(w, t, w', p);
    LostUnqueued(w, t, w', p);
    LostUndispatched(w, t, w', p);
    LostCore(w, t, w', p);
    forall k | 0 <= k < |w'.sched| ensures !InCharge(w', k, p) { LostUncharged(w, t, w', k, p); }
    LostIs(w', p);
  }

  lemma LostIs(w: WState, p: nat)
    requires WShape(w)
    ensures Lost(w, p) <==>
      && Unloaded(w.core, p) && w.core.procs[p].state.RUNNABLE?
      && !InQueue(w, p) && !InHand(w, p)
      && forall k {:trigger InCharge(w, k, p)} :: 0 <= k < |w.sched| ==> !InCharge(w, k, p)
  {
  }

  lemma LostCore(w: WState, t: WStep, w': WState, p: nat)
    requires WNextStep(w, t, w') && WShape(w) && Safe(w.core) && Lost(w, p) && !IsDispatch(CoreStep(w, t), p)
        && WShape(w')
    ensures Unloaded(w'.core, p) && w'.core.procs[p].state.RUNNABLE?
  {
    hide Safe, NextStep, WNextStep, InQueue, InHand, InCharge, CoreStep;
    StepRefines(w, t, w');
    var st := CoreStep(w, t);
    if st.Some? {
      OnlyDispatchLoads(w.core, st.value, w'.core, p);
      OnlyDispatchLeaves(w.core, st.value, w'.core, p);
    }
  }

  /** A lost process stays lost for ever: it is never dispatched again. */
  lemma {:induction false} LostForever(tr: seq<WState>, i: nat, j: nat, p: nat)
    requires WRun(tr) && i <= j < |tr| && WShape(tr[i]) && Lost(tr[i], p)
    ensures WShape(tr[j]) && Lost(tr[j], p)
    decreases j
  {
    hide Safe, WNext, WInit, Lost;
    if i < j {
      LostForever(tr, i, j - 1, p);
      CoreSafe(tr, j - 1);
      assert WNext(tr[j - 1], tr[j]);
      NextStaysLost(tr[j - 1], tr[j], p);
    }
  }

  lemma NextStaysLost(w: WState, w': WState, p: nat)
    requires WNext(w, w') && WShape(w) && Safe(w.core) && Lost(w, p)
    ensures WShape(w') && Lost(w', p)
  {
    hide Safe, WNextStep, Lost;
    var t :| WNextStep(w, t, w');
    LostStays(w, t, w', p);
  }

  // ---------- When a push loses its process ----------

  /** The queue of CPU k is full and p has no other entry. */
  ghost predicate NoRoomFor(w: WState, k: nat, p: nat) {
    k < |w.queues| && |w.queues[k]| >= Ring.MAX_TASKS - 1 && !InQueue(w, p) && !InHand(w, p)
  }

  /** A push either enters p into the queue or changes no queue. */
  lemma PushedOrNot(w: WState, k: nat, p: nat, w': WState)
    requires k < |w.queues| && w'.queues == PushOn(w, k, p).queues
    requires forall j {:trigger w'.sched[j]} :: 0 <= j < |w'.sched| && Holding(w'.sched[j], p) ==>
        j < |w.sched| && Holding(w.sched[j], p)
    requires forall j {:trigger w.sched[j]} :: 0 <= j < |w.sched| && Holding(w.sched[j], p) ==>
        j < |w'.sched| && Holding(w'.sched[j], p)
    ensures !InQueue(w', p) && !InHand(w', p) <==> NoRoomFor(w, k, p)
  {
    var q := w.queues[k];
    if |q| < Ring.MAX_TASKS - 1 {
      assert p in w'.queues[k];
    } else {
      assert w'.queues == w.queues;
    }
  }

  /** At the pushes of wakeup, kkill and kfork: the pushed process is lost if and only if the
      queue is full and it has no other entry. */
  lemma PushLoses(tr: seq<WState>, i: nat, st: Step, p: nat, w: WState)
    requires WRun(tr) && i < |tr| && ProcStep(tr[i], st, w) && OpOf(st) == PushQ(p) && !st.TickGo?
    requires p < |tr[i].core.procs| && tr[i].core.procs[p].state.RUNNABLE?
    ensures WShape(w) && (Lost(w, p) <==> NoRoomFor(tr[i], st.k, p))
  {
    hide WRun, Safe, NextStep, Linked, InCharge, InQueue, InHand, Unloaded, NoRoomFor, AboutToPush, Handed;
    RunLosesNone(tr, i);
    CoreSafe(tr, i);
    var v := tr[i];
    ProcLinked(v, st, w);
    NextSafe(v.core, st, w.core);
    PushDone(v.core, st, w.core, p);
    NextHands(v.core, st, w.core);
    PushWasDue(v.core, st.k, OpOf(st), w.core);
    PushUnloaded(v.core, st, w.core, p);
    PushedOrNot(v, st.k, p, w);
    forall k | 0 <= k < |w.sched| ensures !InCharge(w, k, p) { NoCharge(w, st.k, k, p); }
    LostIs(w, p);
  }

  /** Whoever pushes another process than its own holds the lock of an unloaded slot. */
  lemma PushUnloaded(s: State, st: Step, s': State, p: nat)
    requires Safe(s) && Safe(s') && NextStep(s, st, s') && OfProcess(st) && OpOf(st) == PushQ(p) && !st.TickGo?
    requires p < |s'.procs| && s'.procs[p].state.RUNNABLE? && s'.plock[p] == Some(st.k) && st.k < |s'.cpus|
    ensures Unloaded(s', p)
  {
    hide BaseStep, TickStep, IrqStep, TimerStep, DeviceStep, SwtchStep;
    PusherRuns(s, st, s', p);
    PushedSaved(s', st.k, p);
  }

  /** The CPU that has pushed goes on in a process that is RUNNING. */
  lemma PusherRuns(s: State, st: Step, s': State, p: nat)
    requires NextStep(s, st, s') && OpOf(st) == PushQ(p) && (st.BaseGo? || st.IrqGo?) && Safe(s) && Safe(s')
    requires p < |s'.procs| && s'.procs[p].state.RUNNABLE?
    ensures st.k < |s'.cpus| && !s'.cpus[st.k].spc.SBack? && s'.cpus[st.k].spc != SRun(p)
  {
    hide LockOk, GlobalLockOk, ForkOk, Changed, IrqCode, ChargeChoice;
    if s'.cpus[st.k].spc == SRun(p) {
      SlotStays(s', p);
      PusherState(s, st, s', p);
    }
  }

  lemma PusherState(s: State, st: Step, s': State, p: nat)
    requires NextStep(s, st, s') && OpOf(st) == PushQ(p) && (st.BaseGo? || st.IrqGo?) && Safe(s)
    requires Shape(s') && p < |s'.procs| && st.k < |s'.cpus| && s'.cpus[st.k].spc == SRun(p)
    ensures StateAt(s'.threads[p]).RUNNING?
  {
    hide LockOk, GlobalLockOk, ForkOk, StateOk, Changed, BaseCode, IrqCode, ChargeChoice, StateAt;
    match st {
      case BaseGo(k, op, pc) =>
        BaseFacts(s, k, op, pc, s');
        BasePushMove(s, p, s.threads[p].base, op, pc);
        PushRuns(s, p, s.threads[p].base, op, pc);
        PlaceRuns(s'.threads[p]);
      case IrqGo(_, _, _, _) =>
        QuietRuns(s.threads[p]);
        StateAtOn(s.threads[p], s'.threads[p]);
    }
  }

  lemma PushRuns(s: State, me: nat, pc: Pc, op: Op, pc': Pc)
    requires Shape(s) && me < |s.procs| && BaseCode(s, me, pc, op, pc') && op.PushQ?
    ensures !pc'.InSleep? && (pc'.InExit? ==> pc'.exit.RepWake? || pc'.exit.ExWake?)
  {
    hide StillPausing, WakeCode;
  }

  lemma PlaceRuns(th: Thread)
    requires th.tick.TNone? && !th.base.InSleep? && (th.base.InExit? ==> th.base.exit.RepWake? || th.base.exit.ExWake?)
    ensures StateAt(th).RUNNING?
  {
  }

  lemma StateAtOn(th: Thread, th': Thread)
    requires th'.base == th.base && (th'.tick == th.tick || th'.tick.TUpdAcq?)
    requires th.tick.TNone? && Quiet(th.base)
    ensures StateAt(th').RUNNING?
  {
  }

  lemma PushedSaved(s: State, k: nat, p: nat)
    requires Safe(s) && k < |s.cpus| && p < |s.procs| && s.plock[p] == Some(k) && s.procs[p].state.RUNNABLE?
    requires s.cpus[k].spc != SRun(p) && !s.cpus[k].spc.SBack?
    ensures Unloaded(s, p)
  {
    hide GlobalLockOk, ForkOk;
    if s.threads[p].on.Some? { NotRunningHolds(s, p, s.threads[p].on.value); }
    forall j | 0 <= j < |s.cpus| ensures s.cpus[j].spc != SBack(p) {
      assert s.cpus[j].spc == SBack(p) ==> Holds(s, j, p);
    }
  }

  /** A yielding process is pushed a second time, by the scheduler that it has returned to:
      only this push can lose it. */
  lemma PushBackLoses(tr: seq<WState>, i: nat, k: nat, p: nat, w: WState)
    requires WRun(tr) && i < |tr| && PushBackStep(tr[i], k, w) && tr[i].sched[k] == Back(p)
    requires tr[i].core.procs[p].state.RUNNABLE?
    ensures WShape(w) && (Lost(w, p) <==> NoRoomFor(tr[i], k, p))
  {
    hide WRun, Safe, Linked, InCharge, InQueue, InHand, Unloaded, NoRoomFor, AboutToPush;
    RunLosesNone(tr, i);
    CoreSafe(tr, i);
    var v := tr[i];
    StepLinked(v, PushBack(k), w);
    ReturnedUnloaded(v, k, p);
    PushedOrNot(v, k, p, w);
    forall j | 0 <= j < |w.sched| ensures !InCharge(w, j, p) { ReturnedUncharged(v, k, p, w, j); }
    LostIs(w, p);
  }

  lemma ReturnedUnloaded(w: WState, k: nat, p: nat)
    requires WShape(w) && Linked(w) && Safe(w.core) && k < |w.sched| && w.sched[k] == Back(p)
    requires p < |w.core.procs| && w.core.procs[p].state.RUNNABLE?
    ensures w.core.plock[p] == Some(k) && Unloaded(w.core, p)
  {
    hide GlobalLockOk, ForkOk, StateOk, RunOk, QuietOk, Unloaded;
    assert Agrees(w.sched[k], w.core.cpus[k].spc);
    assert Holds(w.core, k, p);
    PushedSaved(w.core, k, p);
  }

  lemma ReturnedUncharged(v: WState, k: nat, p: nat, w: WState, j: nat)
    requires WShape(v) && Linked(v) && Safe(v.core) && PushBackStep(v, k, w) && v.sched[k] == Back(p)
    requires p < |v.core.procs| && v.core.procs[p].state.RUNNABLE?
    requires WShape(w) && Linked(w) && j < |w.sched|
    ensures !InCharge(w, j, p)
  {
    hide GlobalLockOk, ForkOk, StateOk, LockOk, RunOk, AboutToPush;
    ReturnedUnloaded(v, k, p);
    if InCharge(w, j, p) {
      ChargeLocks(w, j, p);
      SearcherPushesNothing(w, k, p);
    }
  }

  /** A CPU whose scheduler thread runs pushes only from its scheduler. */
  lemma SearcherPushesNothing(w: WState, k: nat, p: nat)
    requires WShape(w) && Linked(w) && k < |w.sched| && !w.sched[k].Away? && w.core.cpus[k].irq.INone?
    ensures !AboutToPush(w.core, k, p)
  {
    assert Agrees(w.sched[k], w.core.cpus[k].spc);
  }

  /** Only the CPU that holds the lock can be in charge, and a CPU that has just pushed is not. */
  lemma NoCharge(w: WState, j: nat, k: nat, p: nat)
    requires WShape(w) && Linked(w) && Safe(w.core) && j < |w.sched| && k < |w.sched| && p < |w.core.procs|
    requires w.core.plock[p] == Some(j) && !AboutToPush(w.core, j, p)
    requires w.core.cpus[j].spc.SRun? || !w.core.cpus[j].irq.INone?
    ensures !InCharge(w, k, p)
  {
    hide GlobalLockOk, ForkOk, StateOk, AboutToPush, LockOk, RunOk;
    assert Agrees(w.sched[j], w.core.cpus[j].spc);
    if InCharge(w, k, p) { ChargeLocks(w, k, p); }
  }
}
