/**
 The adaptive scheduler on top of the shared protocol: a scan of all slots that keeps the
 lock of the best candidate while it acquires the next one. Here nothing tells the scan that
 its candidate is still RUNNABLE at the end, or that it holds what it releases: that is what
 the refinement proves. Interrupts are off from the start of a scan to its end.
 */
module AdaptiveMachine {
  import opened Kernel
  import opened KernelLocks
  import opened KernelSafe
  import KernelCalls
  import opened Refinement
  import Aging
  import opened AdaptiveScan

  /** Between scans; about to acquire slot p (or past the last slot); with the lock of p;
      switched out; back and about to unlock. `chosen` and `best` are the C locals. */
  datatype APc =
    | Idle
    | Scan(p: nat, chosen: Option<nat>, best: int)
    | Judge(p: nat, chosen: Option<nat>, best: int)
    | Away
    | Unlock(q: nat)

  datatype AState = AState(core: State, sched: seq<APc>)

  ghost predicate AShape(a: AState) { Shape(a.core) && |a.sched| == |a.core.cpus| }

  // ---------- Steps ----------

  datatype AStep =
    | Proc(st: Step)
    | StartScan(k: nat) | LockNext(k: nat) | Pass(k: nat) | Swap(k: nat) | Take(k: nat) | NoneFound(k: nat)
    | RunChosen(k: nat) | ClearBack(k: nat) | UnlockBack(k: nat)

  ghost predicate ProcStep(a: AState, st: Step, a': AState) {
    && AShape(a) && st.k < |a.sched| && OfProcess(st)
    && (st.TimerStart? || st.DeviceStart? ==> a.sched[st.k].Idle? || a.sched[st.k].Away?)
    && NextStep(a.core, st, a'.core)
    && a' == a.(core := a'.core)
  }

  ghost predicate Scheduling(a: AState, k: nat) {
    AShape(a) && k < |a.sched| && a.core.cpus[k].irq.INone?
  }

  function Moved(a: AState, k: nat, pc: APc): AState
    requires k < |a.sched|
  {
    a.(sched := a.sched[k := pc])
  }

  ghost predicate StartScanStep(a: AState, k: nat, a': AState) {
    && Scheduling(a, k) && a.sched[k].Idle?
    && a' == Moved(a, k, Scan(0, None, Aging.PRIORITY_MAX + 1))
  }

  ghost predicate LockNextStep(a: AState, k: nat, a': AState) {
    && Scheduling(a, k) && a.sched[k].Scan? && a.sched[k].p < |a.core.procs|
    && SchedAcqStep(a.core, k, a.sched[k].p, a'.core)
    && a' == Moved(a, k, Judge(a.sched[k].p, a.sched[k].chosen, a.sched[k].best)).(core := a'.core)
  }

  ghost predicate Improves(a: AState, k: nat)
    requires AShape(a) && k < |a.sched| && a.sched[k].Judge?
  {
    Better(a.core.procs, a.core.ticks, a.sched[k].p, a.sched[k].best)
  }

  /** Not a better candidate: its lock is released. */
  ghost predicate PassStep(a: AState, k: nat, a': AState) {
    && Scheduling(a, k) && a.sched[k].Judge? && !Improves(a, k)
    && SchedRelStep(a.core, k, a.sched[k].p, a'.core)
    && a' == Moved(a, k, Scan(a.sched[k].p + 1, a.sched[k].chosen, a.sched[k].best)).(core := a'.core)
  }

  /** A better candidate: the lock of the old one is released, the new one's is kept. */
  ghost predicate SwapStep(a: AState, k: nat, a': AState) {
    && Scheduling(a, k) && a.sched[k].Judge? && Improves(a, k) && a.sched[k].chosen.Some?
    && SchedRelStep(a.core, k, a.sched[k].chosen.value, a'.core)
    && a' == Moved(a, k, Scan(a.sched[k].p + 1, Some(a.sched[k].p),
        CurrPri(a.core.procs[a.sched[k].p], a.core.ticks))).(core := a'.core)
  }

  ghost predicate TakeStep(a: AState, k: nat, a': AState) {
    && Scheduling(a, k) && a.sched[k].Judge? && Improves(a, k) && a.sched[k].chosen.None?
    && a' == Moved(a, k, Scan(a.sched[k].p + 1, Some(a.sched[k].p), CurrPri(a.core.procs[a.sched[k].p], a.core.ticks)))
  }

  ghost predicate NoneFoundStep(a: AState, k: nat, a': AState) {
    && Scheduling(a, k) && a.sched[k].Scan? && |a.core.procs| <= a.sched[k].p && a.sched[k].chosen.None?
    && a' == Moved(a, k, Idle)
  }

  /** priority = estimated_runtime, RUNNING, c->proc, swtch, without looking at the slot again. */
  ghost predicate RunChosenStep(a: AState, k: nat, a': AState) {
    && Scheduling(a, k) && a.sched[k].Scan? && |a.core.procs| <= a.sched[k].p && a.sched[k].chosen.Some?
    && var q := a.sched[k].chosen.value;
       && q < |a.core.procs|
       && a'.core == Started(a.core, k, q)
       && a' == Moved(a, k, Away).(core := a'.core)
  }

  function Started(s: State, k: nat, q: nat): State
    requires q < |s.procs| == |s.threads| && k < |s.cpus|
  {
    SetSched(
      s.(procs := s.procs[q := Dispatched(s.procs[q])],
         threads := s.threads[q := s.threads[q].(on := Some(k))],
         hist := s.hist.(dispatches := s.hist.dispatches + 1)),
      k, Some(q), SRun(q))
  }

  ghost predicate ClearBackStep(a: AState, k: nat, a': AState) {
    && Scheduling(a, k) && a.sched[k].Away?
    && ClearStep(a.core, k, a'.core)
    && a' == Moved(a, k, Unlock(a.core.cpus[k].spc.p)).(core := a'.core)
  }

  ghost predicate UnlockBackStep(a: AState, k: nat, a': AState) {
    && Scheduling(a, k) && a.sched[k].Unlock?
    && SchedRelStep(a.core, k, a.sched[k].q, a'.core)
    && a' == Moved(a, k, Idle).(core := a'.core)
  }

  ghost predicate ANextStep(a: AState, t: AStep, a': AState) {
    match t
    case Proc(st) => ProcStep(a, st, a')
    case StartScan(k) => StartScanStep(a, k, a')
    case LockNext(k) => LockNextStep(a, k, a')
    case Pass(k) => PassStep(a, k, a')
    case Swap(k) => SwapStep(a, k, a')
    case Take(k) => TakeStep(a, k, a')
    case NoneFound(k) => NoneFoundStep(a, k, a')
    case RunChosen(k) => RunChosenStep(a, k, a')
    case ClearBack(k) => ClearBackStep(a, k, a')
    case UnlockBack(k) => UnlockBackStep(a, k, a')
  }

  ghost predicate ANext(a: AState, a': AState) {
    exists t :: ANextStep(a, t, a')
  }

  ghost predicate AInit(a: AState) {
    && Init(a.core) && AShape(a)
    && (forall k {:trigger a.sched[k]} :: 0 <= k < |a.sched| ==> a.sched[k].Idle?)
  }

  ghost predicate ARun(tr: seq<AState>) {
    && |tr| > 0 && AInit(tr[0])
    && forall i, j {:trigger ANext(tr[i], tr[j])} :: 0 <= i && j == i + 1 < |tr| ==> ANext(tr[i], tr[j])
  }

  // ---------- What a scan holds ----------

  /** The locks that a scheduler holds at its place, and what it knows of its candidate. */
  ghost predicate Agrees(s: State, pc: APc, cpu: Cpu) {
    match pc
    case Idle => cpu.spc == SScan({})
    case Scan(p, c, _) => cpu.spc == SScan(Chosen(c)) && cpu.irq.INone? && CandidateOk(s, p, c)
    case Judge(p, c, _) => cpu.spc == SScan(Chosen(c) + {p}) && cpu.irq.INone? && p < |s.procs| && CandidateOk(s, p, c)
    case Away => !cpu.spc.SScan?
    case Unlock(q) => cpu.spc == SScan({q})
  }

  ghost function Chosen(c: Option<nat>): set<nat> { if c.Some? then {c.value} else {} }

  /** The candidate was met before slot p and is RUNNABLE. */
  ghost predicate CandidateOk(s: State, p: nat, c: Option<nat>) {
    c.Some? ==> c.value < p && c.value < |s.procs| && s.procs[c.value].state.RUNNABLE?
  }

  ghost predicate ScansOk(a: AState)
    requires AShape(a)
  {
    forall k {:trigger a.sched[k]} {:trigger a.core.cpus[k]} :: 0 <= k < |a.sched| ==>
      Agrees(a.core, a.sched[k], a.core.cpus[k])
  }

  /** The candidate of CPU k is untouched by a step of another CPU. */
  ghost predicate HeldStay(s: State, s': State) {
    && Shape(s) && Shape(s') && |s'.procs| == |s.procs| && |s'.cpus| == |s.cpus|
    && forall k, q {:trigger s.cpus[k], s'.procs[q]} ::
         0 <= k < |s.cpus| && 0 <= q < |s.procs| && s.cpus[k].spc.SScan? && q in s.cpus[k].spc.held ==>
         s'.procs[q].state == s.procs[q].state
  }

  lemma HeldIsLocked(s: State, k: nat, q: nat)
    requires Safe(s) && k < |s.cpus| && s.cpus[k].spc.SScan? && q in s.cpus[k].spc.held
    ensures q < |s.procs| && s.plock[q] == Some(k) && s.cpus[k].irq.INone?
  {
    hide RunOk, StateOk, ForkOk, GlobalLockOk;
    assert Holds(s, k, q);
  }

  /** A scheduler that holds a slot takes no interrupts. */
  lemma HolderChooses(s: State, st: Step, s': State, k: nat, q: nat)
    requires Safe(s) && NextStep(s, st, s') && OfProcess(st)
    requires k < |s.cpus| && s.cpus[k].spc.SScan? && q in s.cpus[k].spc.held
    ensures st.k != k
  {
    hide Safe, BaseCode, TickCode, IrqCode, Changed, Quiet, ChargeChoice;
    HeldIsLocked(s, k, q);
  }

  lemma ProcHeldStay(s: State, st: Step, s': State)
    requires Safe(s) && NextStep(s, st, s') && OfProcess(st)
    ensures HeldStay(s, s')
  {
    hide Safe, NextStep;
    ProcScheds(s, st, s');
    forall j, q | 0 <= j < |s.cpus| && 0 <= q < |s.procs| && s.cpus[j].spc.SScan? && q in s.cpus[j].spc.held
      ensures s'.procs[q].state == s.procs[q].state
    {
      HeldIsLocked(s, j, q);
      HolderChooses(s, st, s', j, q);
      KernelCalls.LockedStays(s, st, s', q);
    }
  }

  lemma ProcScansOk(a: AState, st: Step, a': AState)
    requires ProcStep(a, st, a') && Safe(a.core) && ScansOk(a)
    ensures AShape(a') && ScansOk(a')
  {
    hide Safe, NextStep;
    ProcScheds(a.core, st, a'.core);
    ProcHeldStay(a.core, st, a'.core);
    forall k | 0 <= k < |a'.sched| ensures Agrees(a'.core, a'.sched[k], a'.core.cpus[k]) {
      assert Agrees(a.core, a.sched[k], a.core.cpus[k]);
    }
  }

  /** Two CPUs never hold the same slot. */
  lemma HeldApart(s: State, j: nat, k: nat, q: nat)
    requires Safe(s) && j < |s.cpus| && k < |s.cpus| && j != k
    requires s.cpus[j].spc.SScan? && s.cpus[k].spc.SScan? && q in s.cpus[j].spc.held
    ensures q !in s.cpus[k].spc.held
  {
    hide Safe;
    HeldIsLocked(s, j, q);
    if q in s.cpus[k].spc.held { HeldIsLocked(s, k, q); }
  }

  /** A scheduler's step on CPU k, as the other CPUs see it. */
  ghost predicate OnlyHere(a: AState, k: nat, a': AState) {
    && AShape(a) && AShape(a') && |a'.sched| == |a.sched| && k < |a.sched| && |a'.core.procs| == |a.core.procs|
    && (forall j {:trigger a'.sched[j]} {:trigger a'.core.cpus[j]} :: 0 <= j < |a.sched| && j != k ==>
          a'.sched[j] == a.sched[j] && a'.core.cpus[j] == a.core.cpus[j])
    && (forall q {:trigger a'.core.procs[q]} :: 0 <= q < |a.core.procs| ==>
          a'.core.procs[q].state == a.core.procs[q].state
              || (a.core.cpus[k].spc.SScan? && q in a.core.cpus[k].spc.held))
  }

  lemma OthersAgree(a: AState, k: nat, a': AState)
    requires OnlyHere(a, k, a') && Safe(a.core) && ScansOk(a)
    requires Agrees(a'.core, a'.sched[k], a'.core.cpus[k])
    ensures ScansOk(a')
  {
    hide Safe;
    forall j | 0 <= j < |a'.sched| && j != k ensures Agrees(a'.core, a'.sched[j], a'.core.cpus[j]) {
      assert Agrees(a.core, a.sched[j], a.core.cpus[j]);
      var c := if a.sched[j].Scan? || a.sched[j].Judge? then a.sched[j].chosen else None;
      if c.Some? {
        assert c.value in a.core.cpus[j].spc.held;
        if a.core.cpus[k].spc.SScan? { HeldApart(a.core, j, k, c.value); }
      }
    }
  }

  lemma SchedHere(a: AState, t: AStep, a': AState)
    requires ANextStep(a, t, a') && !t.Proc? && AShape(a) && Safe(a.core) && ScansOk(a)
    ensures OnlyHere(a, t.k, a')
    ensures Agrees(a'.core, a'.sched[t.k], a'.core.cpus[t.k])
  {
    hide Safe, CurrPri;
    assert Agrees(a.core, a.sched[t.k], a.core.cpus[t.k]);
  }

  lemma StepScansOk(a: AState, t: AStep, a': AState)
    requires ANextStep(a, t, a') && AShape(a) && Safe(a.core) && ScansOk(a)
    ensures AShape(a') && ScansOk(a')
  {
    hide Safe, OnlyHere, Agrees, ScansOk, ProcStep;
    if t.Proc? {
      ProcScansOk(a, t.st, a');
    } else {
      SchedHere(a, t, a');
      HereShape(a, t.k, a');
      OthersAgree(a, t.k, a');
    }
  }

  lemma HereShape(a: AState, k: nat, a': AState)
    requires OnlyHere(a, k, a')
    ensures AShape(a')
  {
  }

  // ---------- Refinement ----------

  /** The step of the abstract dispatcher that a step stands for, if it is not a stutter. */
  ghost function CoreStep(a: AState, t: AStep): Option<Step>
    requires AShape(a)
  {
    match t
    case Proc(st) => Some(st)
    case LockNext(k) => if k < |a.sched| && a.sched[k].Scan? then Some(SchedAcq(k, a.sched[k].p)) else None
    case Pass(k) => if k < |a.sched| && a.sched[k].Judge? then Some(SchedRel(k, a.sched[k].p)) else None
    case Swap(k) =>
      if k < |a.sched| && a.sched[k].Judge? && a.sched[k].chosen.Some? then Some(SchedRel(k, a.sched[k].chosen.value))
          else None
    case RunChosen(k) =>
      if k < |a.sched| && a.sched[k].Scan? && a.sched[k].chosen.Some? then Some(Dispatch(k, a.sched[k].chosen.value))
          else None
    case ClearBack(k) => Some(ClearProc(k))
    case UnlockBack(k) => if k < |a.sched| && a.sched[k].Unlock? then Some(SchedRel(k, a.sched[k].q)) else None
    case _ => None
  }

  /** The candidate that the scan runs is RUNNABLE and its lock is the only one held. */
  lemma RunsRunnable(a: AState, k: nat, a': AState)
    requires AShape(a) && ScansOk(a) && RunChosenStep(a, k, a')
    ensures DispatchStep(a.core, k, a.sched[k].chosen.value, a'.core)
  {
    assert Agrees(a.core, a.sched[k], a.core.cpus[k]);
  }

  lemma StepRefines(a: AState, t: AStep, a': AState)
    requires AShape(a) && ScansOk(a) && ANextStep(a, t, a')
    ensures if CoreStep(a, t).Some? then NextStep(a.core, CoreStep(a, t).value, a'.core) else a'.core == a.core
  {
    hide BaseStep, TickStep, IrqStep, TimerStep, DeviceStep, SwtchStep, SchedAcqStep, SchedRelStep, DispatchStep,
        ClearStep;
    hide ScansOk, Started, CurrPri;
    if t.RunChosen? { RunsRunnable(a, t.k, a'); }
  }

  ghost predicate AOk(a: AState) { AShape(a) && Safe(a.core) && ScansOk(a) }

  lemma InitOk(a: AState)
    requires AInit(a)
    ensures AOk(a)
  {
    hide Safe;
    InitSafe(a.core);
  }

  lemma NextOk(a: AState, a': AState)
    requires AOk(a) && ANext(a, a')
    ensures AOk(a') && StepOrStutter(a.core, a'.core)
  {
    hide Safe, ScansOk, ANextStep, NextStep;
    var t :| ANextStep(a, t, a');
    StepScansOk(a, t, a');
    StepRefines(a, t, a');
    if CoreStep(a, t).Some? { NextSafe(a.core, CoreStep(a, t).value, a'.core); }
  }

  lemma {:induction false} RunIsOk(tr: seq<AState>, i: nat)
    requires ARun(tr) && i < |tr|
    ensures AOk(tr[i])
  {
    hide AOk, ANext, AInit;
    if i == 0 {
      InitOk(tr[0]);
    } else {
      RunIsOk(tr, i - 1);
      assert ANext(tr[i - 1], tr[i]);
      NextOk(tr[i - 1], tr[i]);
    }
  }

  function Cores(tr: seq<AState>): seq<State> {
    seq(|tr|, i requires 0 <= i < |tr| => tr[i].core)
  }

  /** Every run of the adaptive scheduler is a run of the abstract dispatcher. */
  lemma Refines(tr: seq<AState>) returns (core: seq<State>, at: seq<nat>)
    requires ARun(tr)
    ensures Run(core) && Follows(Cores(tr), core, at)
  {
    hide ANext, Next, Init, Run, Follows, AOk;
    var cs := Cores(tr);
    forall i, j | 0 <= i && j == i + 1 < |cs| ensures StepOrStutter(cs[i], cs[j]) {
      RunIsOk(tr, i);
      assert ANext(tr[i], tr[j]);
      NextOk(tr[i], tr[j]);
    }
    core, at := Unstutter(cs);
  }

  /** A run together with its steps, and the steps of the abstract dispatcher that they are. */
  ghost predicate ATrace(tr: seq<AState>, st: seq<AStep>) {
    && |tr| == |st| + 1 && AInit(tr[0])
    && forall i, j {:trigger ANextStep(tr[i], st[i], tr[j])} :: 0 <= i < |st| && j == i + 1 ==>
        ANextStep(tr[i], st[i], tr[j])
  }

  lemma ATraceRuns(tr: seq<AState>, st: seq<AStep>)
    requires ATrace(tr, st)
    ensures ARun(tr)
  {
    hide ANextStep, AInit;
    forall i, j | 0 <= i && j == i + 1 < |tr| ensures ANext(tr[i], tr[j]) {
      assert ANextStep(tr[i], st[i], tr[j]);
    }
  }

  ghost function CoreSteps(tr: seq<AState>, st: seq<AStep>): (cst: seq<Option<Step>>)
    requires |st| <= |tr|
    ensures |cst| == |st|
  {
    seq(|st|, i requires 0 <= i < |st| <= |tr| => if AShape(tr[i]) then CoreStep(tr[i], st[i]) else None)
  }

  /** Every step of the adaptive scheduler is a step of the abstract dispatcher or a stutter. */
  lemma RefinesSteps(tr: seq<AState>, st: seq<AStep>)
    requires ATrace(tr, st)
    ensures Trace(Cores(tr), CoreSteps(tr, st))
  {
    hide ANextStep, NextStep, ScansOk, Safe, Init, CoreStep;
    ATraceRuns(tr, st);
    var cs, cst := Cores(tr), CoreSteps(tr, st);
    forall i, j | 0 <= i < |cst| && j == i + 1 ensures Does(cs[i], cst[i], cs[j]) {
      RunIsOk(tr, i);
      assert ANextStep(tr[i], st[i], tr[j]);
      StepRefines(tr[i], st[i], tr[j]);
    }
  }

  /** At the end of a scan the CPU holds the lock of its candidate and no other process
      lock, and the candidate is RUNNABLE; a scan without a candidate holds none. */
  lemma AfterScan(tr: seq<AState>, i: nat, k: nat, p: nat, c: Option<nat>, best: int)
    requires ARun(tr) && i < |tr| && AShape(tr[i]) && k < |tr[i].sched|
    requires tr[i].sched[k] == Scan(p, c, best) && |tr[i].core.procs| <= p
    ensures forall q :: 0 <= q < |tr[i].core.procs| ==> (tr[i].core.plock[q] == Some(k) <==> c == Some(q))
    ensures c.Some? ==> c.value < |tr[i].core.procs| && tr[i].core.procs[c.value].state.RUNNABLE?
    ensures tr[i].core.waitLk != Some(k) && tr[i].core.tickLk != Some(k)
  {
    RunIsOk(tr, i);
    var a := tr[i];
    assert Agrees(a.core, a.sched[k], a.core.cpus[k]);
    ScanHolds(a.core, k);
  }

  /** A scheduler holds its slots' locks and nothing else, unless a handler interrupts it. */
  lemma ScanHolds(s: State, k: nat)
    requires Safe(s) && k < |s.cpus| && s.cpus[k].spc.SScan?
    ensures s.cpus[k].irq.INone? ==> forall q {:trigger s.plock[q]} :: 0 <= q < |s.procs| ==>
        (s.plock[q] == Some(k) <==> q in s.cpus[k].spc.held)
    ensures s.cpus[k].irq.INone? ==> s.waitLk != Some(k) && s.tickLk != Some(k)
    ensures s.cpus[k].spc.held != {} ==> s.cpus[k].irq.INone?
  {
    hide RunOk, StateOk, ForkOk;
    forall q | 0 <= q < |s.procs| ensures Holds(s, k, q) == (s.plock[q] == Some(k)) {
    }
  }

  // ---------- An undisturbed scan ----------

  /** A step of CPU k's scan. */
  predicate OfScan(t: AStep, k: nat) {
    (t.StartScan? || t.LockNext? || t.Pass? || t.Swap? || t.Take?) && t.k == k
  }

  /** From state m to state n only CPU k moves, and it scans. */
  ghost predicate AloneScan(tr: seq<AState>, st: seq<AStep>, k: nat, m: nat, n: nat) {
    && m < n < |tr| && n <= |st| && AShape(tr[m]) && k < |tr[m].sched| && tr[m].sched[k].Idle?
    && (forall x {:trigger st[x]} :: m <= x < n ==> OfScan(st[x], k))
    && forall x, y {:trigger ANextStep(tr[x], st[x], tr[y])} :: m <= x < n && y == x + 1 ==>
        ANextStep(tr[x], st[x], tr[y])
  }

  ghost predicate ScanSoFar(a: AState, k: nat, procs: seq<Proc>, now: nat) {
    && AShape(a) && k < |a.sched| && a.core.procs == procs && a.core.ticks == now
    && (a.sched[k].Scan? || a.sched[k].Judge?)
    && SoFar(procs, now, a.sched[k].p, a.sched[k].chosen, a.sched[k].best)
  }

  lemma ScanGoesOn(a: AState, t: AStep, a': AState, k: nat, procs: seq<Proc>, now: nat)
    requires ANextStep(a, t, a') && OfScan(t, k) && AShape(a) && k < |a.sched|
    requires if a.sched[k].Idle? then a.core.procs == procs && a.core.ticks == now else ScanSoFar(a, k, procs, now)
    ensures ScanSoFar(a', k, procs, now)
  {
    hide SoFar, CurrPri;
    if a.sched[k].Idle? {
      NothingYet(procs, now);
    } else if a.sched[k].p < |procs| {
      OneMoreSlot(procs, now, a.sched[k].p, a.sched[k].chosen, a.sched[k].best);
    }
  }

  lemma {:induction false} AloneScanSoFar(tr: seq<AState>, st: seq<AStep>, k: nat, m: nat, n: nat)
    requires AloneScan(tr, st, k, m, n)
    ensures ScanSoFar(tr[n], k, tr[m].core.procs, tr[m].core.ticks)
    decreases n
  {
    hide ANextStep, ScanSoFar, SoFar, AShape, OfScan;
    var x := n - 1;
    assert ANextStep(tr[x], st[x], tr[n]) && OfScan(st[x], k);
    if m < x {
      AloneScanSoFar(tr, st, k, m, x);
      SoFarShape(tr[x], k, tr[m].core.procs, tr[m].core.ticks);
    }
    ScanGoesOn(tr[x], st[x], tr[n], k, tr[m].core.procs, tr[m].core.ticks);
  }

  lemma SoFarShape(a: AState, k: nat, procs: seq<Proc>, now: nat)
    requires ScanSoFar(a, k, procs, now)
    ensures AShape(a) && k < |a.sched| && !a.sched[k].Idle?
  {
  }

  /** If nobody else moves during a scan, the slot that the CPU then runs is the selected one:
      the lowest of the most urgent RUNNABLE slots at that moment. */
  lemma AloneScanSelects(tr: seq<AState>, st: seq<AStep>, k: nat, m: nat, n: nat, a: AState)
    requires AloneScan(tr, st, k, m, n) && RunChosenStep(tr[n], k, a)
    ensures Selected(tr[n].core.procs, tr[n].core.ticks, tr[n].sched[k].chosen.value)
  {
    hide ANextStep, SoFar, Selected, Started;
    AloneScanSoFar(tr, st, k, m, n);
    var b := tr[n];
    SoFarBound(b.core.procs, b.core.ticks, b.sched[k].p, b.sched[k].chosen, b.sched[k].best);
    ScanEnds(b.core.procs, b.core.ticks, b.sched[k].chosen, b.sched[k].best);
  }

  lemma SoFarBound(procs: seq<Proc>, now: nat, p: nat, chosen: Option<nat>, best: int)
    requires SoFar(procs, now, p, chosen, best)
    ensures p <= |procs|
  {
  }
}
