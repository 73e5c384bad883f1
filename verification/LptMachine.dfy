/**
 The LPT scheduler on top of the shared protocol: a round collects RUNNABLE slots without
 locks, sorts them by est_time, and then locks and runs them one by one. Other CPUs and
 processes go on meanwhile, and other CPUs write est_time while this one sorts by it.
 Interrupts are off from the start of a round to its first dispatch.
 */
module LptMachine {
  import opened Kernel
  import opened KernelLocks
  import opened KernelSafe
  import opened KernelRunnable
  import opened Refinement
  import opened Sequences
  import LptRound

  /** A collected slot, and how often it had been dispatched when it was seen RUNNABLE. */
  datatype Seen = Seen(slot: nat, runs: nat)

  /** Between rounds; collecting at slot p; about to compare entries i and j; about to lock
      entry i; with its lock; switched out to it; back and about to unlock. `ran` lists what
      this CPU has run this round. */
  datatype LPc =
    | Idle
    | Collect(p: nat, batch: seq<Seen>)
    | Sort(batch: seq<Seen>, i: nat, j: nat)
    | Turn(list: seq<Seen>, i: nat, ran: seq<nat>)
    | Locked(list: seq<Seen>, i: nat, ran: seq<nat>)
    | Away(list: seq<Seen>, i: nat, ran: seq<nat>)
    | Unlock(list: seq<Seen>, i: nat, ran: seq<nat>)

  /** `ests` is est_time of every slot; `runs` counts its dispatches, by all CPUs. */
  datatype LState = LState(core: State, sched: seq<LPc>, ests: seq<int>, runs: seq<nat>)

  ghost predicate LShape(l: LState) {
    Shape(l.core) && |l.sched| == |l.core.cpus| && |l.ests| == |l.runs| == |l.core.procs|
  }

  // ---------- Steps ----------

  datatype LStep =
    | Proc(st: Step)
    | StartRound(k: nat) | Look(k: nat) | NothingFound(k: nat)
    | StartSort(k: nat) | Compare(k: nat) | NextEntry(k: nat) | EndSort(k: nat)
    | LockNext(k: nat) | Skip(k: nat) | RunNext(k: nat) | ClearBack(k: nat) | UnlockBack(k: nat)
    | EndRound(k: nat)

  /** From intr_off at the top of the loop until a process has run. */
  predicate InterruptsOff(pc: LPc) { pc.Collect? || pc.Sort? || ((pc.Turn? || pc.Locked?) && pc.ran == []) }

  ghost predicate ProcStep(l: LState, st: Step, l': LState) {
    && LShape(l) && st.k < |l.sched| && OfProcess(st)
    && (st.TimerStart? || st.DeviceStart? ==> !InterruptsOff(l.sched[st.k]))
    && NextStep(l.core, st, l'.core)
    && l' == l.(core := l'.core)
  }

  ghost predicate Scheduling(l: LState, k: nat) {
    LShape(l) && k < |l.sched| && l.core.cpus[k].irq.INone?
  }

  function Moved(l: LState, k: nat, pc: LPc): LState
    requires k < |l.sched|
  {
    l.(sched := l.sched[k := pc])
  }

  ghost predicate StartRoundStep(l: LState, k: nat, l': LState) {
    && Scheduling(l, k) && l.sched[k].Idle?
    && l' == Moved(l, k, Collect(0, []))
  }

  ghost predicate LookStep(l: LState, k: nat, l': LState) {
    && Scheduling(l, k) && l.sched[k].Collect? && l.sched[k].p < |l.core.procs|
    && var p, b := l.sched[k].p, l.sched[k].batch;
       l' == if l.core.procs[p].state.RUNNABLE?
             then Moved(l, k, Collect(p + 1, b + [Seen(p, l.runs[p])])).(
                    ests := l.ests[p := LptRound.Estimate(l.core.procs[p].rtime)])
             else Moved(l, k, Collect(p + 1, b))
  }

  ghost predicate StartSortStep(l: LState, k: nat, l': LState) {
    && Scheduling(l, k) && l.sched[k].Collect? && |l.core.procs| <= l.sched[k].p && l.sched[k].batch != []
    && l' == Moved(l, k, Sort(l.sched[k].batch, 0, 1))
  }

  /** The batch after the comparison of entries i and j. */
  function Compared(ests: seq<int>, b: seq<Seen>, i: nat, j: nat): seq<Seen>
    requires i < j < |b|
  {
    if b[i].slot < |ests| && b[j].slot < |ests| && ests[b[j].slot] > ests[b[i].slot] then b[i := b[j]][j := b[i]] else b
  }

  ghost predicate CompareStep(l: LState, k: nat, l': LState) {
    && Scheduling(l, k) && l.sched[k].Sort? && l.sched[k].i < l.sched[k].j < |l.sched[k].batch|
    && var t := l.sched[k];
       l' == Moved(l, k, Sort(Compared(l.ests, t.batch, t.i, t.j), t.i, t.j + 1))
  }

  ghost predicate NextEntryStep(l: LState, k: nat, l': LState) {
    && Scheduling(l, k) && l.sched[k].Sort? && |l.sched[k].batch| <= l.sched[k].j
    && l.sched[k].i + 1 < |l.sched[k].batch|
    && l' == Moved(l, k, Sort(l.sched[k].batch, l.sched[k].i + 1, l.sched[k].i + 2))
  }

  ghost predicate EndSortStep(l: LState, k: nat, l': LState) {
    && Scheduling(l, k) && l.sched[k].Sort? && |l.sched[k].batch| <= l.sched[k].j
    && |l.sched[k].batch| <= l.sched[k].i + 1
    && l' == Moved(l, k, Turn(l.sched[k].batch, 0, []))
  }

  ghost predicate NothingFoundStep(l: LState, k: nat, l': LState) {
    && Scheduling(l, k) && l.sched[k].Collect? && |l.core.procs| <= l.sched[k].p && l.sched[k].batch == []
    && l' == Moved(l, k, Idle)
  }

  ghost predicate LockNextStep(l: LState, k: nat, l': LState) {
    && Scheduling(l, k) && l.sched[k].Turn? && l.sched[k].i < |l.sched[k].list|
    && var t := l.sched[k];
       && SchedAcqStep(l.core, k, t.list[t.i].slot, l'.core)
       && l' == Moved(l, k, Locked(t.list, t.i, t.ran)).(core := l'.core)
  }

  ghost predicate SkipStep(l: LState, k: nat, l': LState) {
    && Scheduling(l, k) && l.sched[k].Locked? && l.sched[k].i < |l.sched[k].list|
    && var t := l.sched[k];
       && t.list[t.i].slot < |l.core.procs| && !l.core.procs[t.list[t.i].slot].state.RUNNABLE?
       && SchedRelStep(l.core, k, t.list[t.i].slot, l'.core)
       && l' == Moved(l, k, Turn(t.list, t.i + 1, t.ran)).(core := l'.core)
  }

  ghost predicate RunNextStep(l: LState, k: nat, l': LState) {
    && Scheduling(l, k) && l.sched[k].Locked? && l.sched[k].i < |l.sched[k].list|
    && var t := l.sched[k];
       var q := t.list[t.i].slot;
       && DispatchStep(l.core, k, q, l'.core)
       && l' == Moved(l, k, Away(t.list, t.i, t.ran + [q])).(core := l'.core, runs := l.runs[q := l.runs[q] + 1])
  }

  ghost predicate ClearBackStep(l: LState, k: nat, l': LState) {
    && Scheduling(l, k) && l.sched[k].Away?
    && ClearStep(l.core, k, l'.core)
    && l' == Moved(l, k, Unlock(l.sched[k].list, l.sched[k].i, l.sched[k].ran)).(core := l'.core)
  }

  ghost predicate UnlockBackStep(l: LState, k: nat, l': LState) {
    && Scheduling(l, k) && l.sched[k].Unlock? && l.sched[k].i < |l.sched[k].list|
    && var t := l.sched[k];
       && SchedRelStep(l.core, k, t.list[t.i].slot, l'.core)
       && l' == Moved(l, k, Turn(t.list, t.i + 1, t.ran)).(core := l'.core)
  }

  ghost predicate EndRoundStep(l: LState, k: nat, l': LState) {
    && Scheduling(l, k) && l.sched[k].Turn? && |l.sched[k].list| <= l.sched[k].i
    && l' == Moved(l, k, Idle)
  }

  ghost predicate LNextStep(l: LState, t: LStep, l': LState) {
    match t
    case Proc(st) => ProcStep(l, st, l')
    case StartRound(k) => StartRoundStep(l, k, l')
    case Look(k) => LookStep(l, k, l')
    case StartSort(k) => StartSortStep(l, k, l')
    case Compare(k) => CompareStep(l, k, l')
    case NextEntry(k) => NextEntryStep(l, k, l')
    case EndSort(k) => EndSortStep(l, k, l')
    case NothingFound(k) => NothingFoundStep(l, k, l')
    case LockNext(k) => LockNextStep(l, k, l')
    case Skip(k) => SkipStep(l, k, l')
    case RunNext(k) => RunNextStep(l, k, l')
    case ClearBack(k) => ClearBackStep(l, k, l')
    case UnlockBack(k) => UnlockBackStep(l, k, l')
    case EndRound(k) => EndRoundStep(l, k, l')
  }

  ghost predicate LNext(l: LState, l': LState) {
    exists t :: LNextStep(l, t, l')
  }

  ghost predicate LInit(l: LState) {
    && Init(l.core) && LShape(l)
    && (forall k {:trigger l.sched[k]} :: 0 <= k < |l.sched| ==> l.sched[k].Idle?)
    && (forall p {:trigger l.runs[p]} :: 0 <= p < |l.runs| ==> l.runs[p] == 0)
    && (forall p {:trigger l.ests[p]} :: 0 <= p < |l.ests| ==> l.ests[p] == 0)
  }

  ghost predicate LRun(tr: seq<LState>) {
    && |tr| > 0 && LInit(tr[0])
    && forall i, j {:trigger LNext(tr[i], tr[j])} :: 0 <= i && j == i + 1 < |tr| ==> LNext(tr[i], tr[j])
  }

  // ---------- Refinement ----------

  /** The step of the abstract dispatcher that a step stands for, if it is not a stutter. */
  ghost function CoreStep(l: LState, t: LStep): Option<Step>
    requires LShape(l)
  {
    match t
    case Proc(st) => Some(st)
    case LockNext(k) =>
      if k < |l.sched| && l.sched[k].Turn? && l.sched[k].i < |l.sched[k].list|
          then Some(SchedAcq(k, Entry(l.sched[k]).slot)) else None
    case Skip(k) =>
      if k < |l.sched| && l.sched[k].Locked? && l.sched[k].i < |l.sched[k].list|
          then Some(SchedRel(k, Entry(l.sched[k]).slot)) else None
    case RunNext(k) =>
      if k < |l.sched| && l.sched[k].Locked? && l.sched[k].i < |l.sched[k].list|
          then Some(Dispatch(k, Entry(l.sched[k]).slot)) else None
    case ClearBack(k) => Some(ClearProc(k))
    case UnlockBack(k) =>
      if k < |l.sched| && l.sched[k].Unlock? && l.sched[k].i < |l.sched[k].list|
          then Some(SchedRel(k, Entry(l.sched[k]).slot)) else None
    case _ => None
  }

  function Entry(pc: LPc): Seen
    requires !pc.Idle? && !pc.Collect? && !pc.Sort? && pc.i < |pc.list|
  {
    pc.list[pc.i]
  }

  lemma StepRefines(l: LState, t: LStep, l': LState)
    requires LShape(l) && LNextStep(l, t, l')
    ensures if CoreStep(l, t).Some? then NextStep(l.core, CoreStep(l, t).value, l'.core) else l'.core == l.core
  {
    hide BaseStep, TickStep, IrqStep, TimerStep, DeviceStep, SwtchStep, SchedAcqStep, SchedRelStep, DispatchStep,
        ClearStep;
  }

  lemma NextRefines(l: LState, l': LState)
    requires LShape(l) && LNext(l, l')
    ensures StepOrStutter(l.core, l'.core)
  {
    hide LNextStep, NextStep;
    var t :| LNextStep(l, t, l');
    StepRefines(l, t, l');
  }

  lemma StepSizes(l: LState, t: LStep, l': LState)
    requires LShape(l) && LNextStep(l, t, l')
    ensures LShape(l') && |l'.sched| == |l.sched| && |l'.runs| == |l.runs|
  {
    hide NextStep;
    if t.Proc? { ProcScheds(l.core, t.st, l'.core); }
  }

  function Cores(tr: seq<LState>): seq<State> {
    seq(|tr|, i requires 0 <= i < |tr| => tr[i].core)
  }

  lemma {:induction false} RunShape(tr: seq<LState>, i: nat)
    requires LRun(tr) && i < |tr|
    ensures LShape(tr[i])
  {
    hide LNext, Init;
    if i > 0 {
      RunShape(tr, i - 1);
      assert LNext(tr[i - 1], tr[i]);
      NextShape(tr[i - 1], tr[i]);
    }
  }

  lemma NextShape(l: LState, l': LState)
    requires LShape(l) && LNext(l, l')
    ensures LShape(l')
  {
    hide LNextStep;
    var t :| LNextStep(l, t, l');
    StepSizes(l, t, l');
  }

  /** Every run of the LPT scheduler is a run of the abstract dispatcher. */
  lemma Refines(tr: seq<LState>) returns (core: seq<State>, at: seq<nat>)
    requires LRun(tr)
    ensures Run(core) && Follows(Cores(tr), core, at)
  {
    hide LNext, Next, Init, Run, Follows;
    var cs := Cores(tr);
    forall i, j | 0 <= i && j == i + 1 < |cs| ensures StepOrStutter(cs[i], cs[j]) {
      RunShape(tr, i);
      assert LNext(tr[i], tr[j]);
      NextRefines(tr[i], tr[j]);
    }
    core, at := Unstutter(cs);
  }

  lemma CoreSafe(tr: seq<LState>, i: nat)
    requires LRun(tr) && i < |tr|
    ensures Safe(tr[i].core)
  {
    hide LRun, Safe, Run;
    var core, at := Refines(tr);
    assert Cores(tr)[i] == core[at[i]];
    RunSafe(core, at[i]);
  }

  // ---------- Round fairness ----------

  /** What was seen RUNNABLE still is, or has been dispatched since. */
  ghost predicate SeenOk(l: LState, e: Seen)
    requires LShape(l)
  {
    && e.slot < |l.runs| && e.runs <= l.runs[e.slot]
    && (e.runs < l.runs[e.slot] || l.core.procs[e.slot].state.RUNNABLE?)
  }

  /** The entry has been dispatched since it was collected. */
  predicate Served(runs: seq<nat>, e: Seen) { e.slot < |runs| && e.runs < runs[e.slot] }

  function Entries(pc: LPc): seq<Seen> {
    match pc
    case Idle => []
    case Collect(_, batch) => batch
    case Sort(batch, _, _) => batch
    case Turn(list, _, _) => list
    case Locked(list, _, _) => list
    case Away(list, _, _) => list
    case Unlock(list, _, _) => list
  }

  predicate DistinctSlots(a: seq<Seen>) {
    forall x, y {:trigger a[x], a[y]} :: 0 <= x < y < |a| ==> a[x].slot != a[y].slot
  }

  /** How many entries of the list the round has dealt with. */
  function Done(pc: LPc): nat {
    match pc
    case Turn(_, i, _) => i
    case Locked(_, i, _) => i
    case Away(_, i, _) => i + 1
    case Unlock(_, i, _) => i + 1
    case _ => 0
  }

  function Ran(pc: LPc): seq<nat> {
    match pc
    case Turn(_, _, ran) => ran
    case Locked(_, _, ran) => ran
    case Away(_, _, ran) => ran
    case Unlock(_, _, ran) => ran
    case _ => []
  }

  ghost predicate AmongFirst(p: nat, a: seq<Seen>, n: nat) {
    exists x {:trigger a[x]} :: 0 <= x < n && x < |a| && a[x].slot == p
  }

  ghost predicate RoundOk(l: LState, pc: LPc)
    requires LShape(l)
  {
    var a := Entries(pc);
    && (forall x {:trigger a[x]} :: 0 <= x < |a| ==> SeenOk(l, a[x]))
    && DistinctSlots(a)
    && (pc.Collect? ==> forall x {:trigger a[x]} :: 0 <= x < |a| ==> a[x].slot < pc.p)
    && Done(pc) <= |a|
    && (forall x {:trigger a[x]} :: 0 <= x < Done(pc) ==> Served(l.runs, a[x]))
    && NoDuplicates(Ran(pc))
    && (forall x {:trigger Ran(pc)[x]} :: 0 <= x < |Ran(pc)| ==> AmongFirst(Ran(pc)[x], a, Done(pc)))
    && (pc.Locked? || pc.Away? || pc.Unlock? ==> pc.i < |a|)
  }

  ghost predicate RoundsOk(l: LState)
    requires LShape(l)
  {
    forall k {:trigger l.sched[k]} :: 0 <= k < |l.sched| ==> RoundOk(l, l.sched[k])
  }

  /** Between l and l' dispatches are counted and nothing else leaves RUNNABLE. */
  ghost predicate RunsGrow(l: LState, l': LState) {
    && LShape(l) && LShape(l') && |l'.runs| == |l.runs|
    && forall p {:trigger l'.runs[p]} :: 0 <= p < |l.runs| ==>
         && l.runs[p] <= l'.runs[p]
         && (l.core.procs[p].state.RUNNABLE? && !l'.core.procs[p].state.RUNNABLE? ==> l.runs[p] < l'.runs[p])
  }

  lemma StepRuns(l: LState, t: LStep, l': LState)
    requires LShape(l) && Safe(l.core) && LNextStep(l, t, l')
    ensures RunsGrow(l, l')
  {
    hide Safe, NextStep, SchedAcqStep, SchedRelStep, ClearStep;
    StepSizes(l, t, l');
    StepRefines(l, t, l');
    forall p | 0 <= p < |l.runs|
      ensures l.runs[p] <= l'.runs[p]
      ensures l.core.procs[p].state.RUNNABLE? && !l'.core.procs[p].state.RUNNABLE? ==> l.runs[p] < l'.runs[p]
    {
      if CoreStep(l, t).Some? && l.core.procs[p].state.RUNNABLE? {
        OnlyDispatchLeaves(l.core, CoreStep(l, t).value, l'.core, p);
      }
    }
  }

  lemma RoundStays(l: LState, l': LState, pc: LPc)
    requires RunsGrow(l, l') && RoundOk(l, pc)
    ensures RoundOk(l', pc)
  {
    hide AmongFirst, NoDuplicates, DistinctSlots;
    var a := Entries(pc);
    forall x | 0 <= x < |a| ensures SeenOk(l', a[x]) && (x < Done(pc) ==> Served(l'.runs, a[x])) {
      assert SeenOk(l, a[x]);
      assert l'.runs[a[x].slot] >= l.runs[a[x].slot];
    }
  }

  // ---------- The CPU's own steps ----------

  lemma {:induction false} SlotsOnce(a: seq<Seen>, e: Seen)
    requires DistinctSlots(a)
    ensures multiset(a)[e] <= 1
  {
    if a != [] {
      var n := |a| - 1;
      assert a == a[..n] + [a[n]];
      SlotsOnce(a[..n], e);
      assert e == a[n] ==> e !in a[..n];
    }
  }

  lemma Twice(a: seq<Seen>, x: nat, y: nat)
    requires x < y < |a| && a[x] == a[y]
    ensures multiset(a)[a[x]] >= 2
  {
    assert a == a[..y] + [a[y]] + a[y + 1..];
    assert a[x] in a[..y];
  }

  lemma PermutedSlots(a: seq<Seen>, b: seq<Seen>)
    requires multiset(a) == multiset(b) && DistinctSlots(a)
    ensures DistinctSlots(b)
  {
    forall x, y | 0 <= x < y < |b| ensures b[x].slot != b[y].slot {
      if b[x] == b[y] {
        Twice(b, x, y);
        SlotsOnce(a, b[x]);
      }
      assert b[x] in multiset(a) && b[y] in multiset(a);
    }
  }

  lemma CompareRound(l: LState, k: nat, l': LState)
    requires CompareStep(l, k, l') && RoundOk(l, l.sched[k])
    ensures RoundOk(l', l'.sched[k])
  {
    var t := l.sched[k];
    var b := Compared(l.ests, t.batch, t.i, t.j);
    PermutedSlots(t.batch, b);
    forall x | 0 <= x < |b| ensures SeenOk(l', b[x]) {
      assert b[x] in multiset(t.batch);
    }
  }

  lemma LookRound(l: LState, k: nat, l': LState)
    requires LookStep(l, k, l') && RoundOk(l, l.sched[k])
    ensures RoundOk(l', l'.sched[k])
  {
    var b, c := l.sched[k].batch, l'.sched[k].batch;
    forall x | 0 <= x < |c| ensures SeenOk(l', c[x]) && c[x].slot < l'.sched[k].p {
      if x < |b| { assert SeenOk(l, b[x]); }
    }
  }

  lemma RunRound(l: LState, k: nat, l': LState)
    requires RunNextStep(l, k, l') && RunsGrow(l, l') && RoundOk(l, l.sched[k])
    ensures RoundOk(l', l'.sched[k])
  {
    hide DispatchStep;
    var t := l.sched[k];
    RoundStays(l, l', t);
    var q := t.list[t.i].slot;
    assert SeenOk(l, t.list[t.i]);
    assert Served(l'.runs, t.list[t.i]);
    RanOnce(t, q);
  }

  /** The slot whose turn it is has not been run in this round. */
  lemma RanOnce(pc: LPc, q: nat)
    requires pc.Locked? && pc.i < |pc.list| && q == pc.list[pc.i].slot && DistinctSlots(pc.list) && NoDuplicates(pc.ran)
    requires forall x {:trigger pc.ran[x]} :: 0 <= x < |pc.ran| ==> AmongFirst(pc.ran[x], pc.list, pc.i)
    ensures NoDuplicates(pc.ran + [q])
    ensures var ran := pc.ran + [q]; forall x {:trigger ran[x]} :: 0 <= x < |ran| ==>
        AmongFirst(ran[x], pc.list, pc.i + 1)
  {
    forall x | 0 <= x < |pc.ran| ensures pc.ran[x] != q && AmongFirst(pc.ran[x], pc.list, pc.i + 1) {
      var y :| 0 <= y < pc.i && y < |pc.list| && pc.list[y].slot == pc.ran[x];
    }
    assert AmongFirst(q, pc.list, pc.i + 1) by { assert pc.list[pc.i].slot == q; }
  }

  lemma SkipRound(l: LState, k: nat, l': LState)
    requires SkipStep(l, k, l') && RunsGrow(l, l') && RoundOk(l, l.sched[k])
    ensures RoundOk(l', l'.sched[k])
  {
    hide SchedRelStep;
    var t := l.sched[k];
    assert SeenOk(l, t.list[t.i]);
    RoundStays(l, l', t);
    assert Served(l'.runs, t.list[t.i]);
    FirstGrows(t);
  }

  /** The same round, with the same entries dealt with. */
  lemma SameRoundOk(l: LState, pc: LPc, pc': LPc)
    requires LShape(l) && RoundOk(l, pc) && Entries(pc') == Entries(pc) && Done(pc') == Done(pc) && Ran(pc') == Ran(pc)
    requires !pc'.Collect? && (pc'.Locked? || pc'.Away? || pc'.Unlock? ==> pc'.i < |Entries(pc)|)
    ensures RoundOk(l, pc')
  {
    hide AmongFirst, NoDuplicates, DistinctSlots, SeenOk, Served;
  }

  lemma OwnRound(l: LState, t: LStep, l': LState)
    requires LNextStep(l, t, l') && !t.Proc? && RunsGrow(l, l') && t.k < |l.sched| && RoundOk(l, l.sched[t.k])
    ensures RoundOk(l', l'.sched[t.k])
  {
    hide SchedAcqStep, SchedRelStep, ClearStep, DispatchStep, RunsGrow, SkipStep, RunNextStep, LookStep,
        StartSortStep, CompareStep, NextEntryStep, EndSortStep;
    GrowShape(l, l');
    match t {
      case Look(k) => LookRound(l, k, l');
      case StartSort(k) => SortPlace(l, k, l');
      case Compare(k) => CompareRound(l, k, l');
      case NextEntry(k) => SortPlace(l, k, l');
      case EndSort(k) => SortPlace(l, k, l');
      case RunNext(k) => RunRound(l, k, l');
      case Skip(k) => SkipRound(l, k, l');
      case LockNext(k) => MovedRound(l, k, l');
      case ClearBack(k) => MovedRound(l, k, l');
      case UnlockBack(k) => MovedRound(l, k, l');
      case _ =>
    }
  }

  lemma SortPlace(l: LState, k: nat, l': LState)
    requires StartSortStep(l, k, l') || NextEntryStep(l, k, l') || EndSortStep(l, k, l')
    requires k < |l.sched| && RoundOk(l, l.sched[k])
    ensures RoundOk(l', l'.sched[k])
  {
    hide AmongFirst, NoDuplicates, DistinctSlots;
  }

  lemma MovedRound(l: LState, k: nat, l': LState)
    requires LockNextStep(l, k, l') || ClearBackStep(l, k, l') || UnlockBackStep(l, k, l')
    requires RunsGrow(l, l') && k < |l.sched| && RoundOk(l, l.sched[k])
    ensures RoundOk(l', l'.sched[k])
  {
    hide SchedAcqStep, SchedRelStep, ClearStep, RoundOk;
    RoundBound(l, l.sched[k]);
    RoundStays(l, l', l.sched[k]);
    SameRoundOk(l', l.sched[k], l'.sched[k]);
  }

  lemma RoundBound(l: LState, pc: LPc)
    requires LShape(l) && RoundOk(l, pc)
    ensures pc.Locked? || pc.Away? || pc.Unlock? ==> pc.i < |pc.list|
  {
  }

  lemma GrowShape(l: LState, l': LState)
    requires RunsGrow(l, l')
    ensures LShape(l) && LShape(l')
  {
  }

  lemma FirstGrows(pc: LPc)
    requires pc.Locked?
    ensures forall x {:trigger pc.ran[x]} :: 0 <= x < |pc.ran| && AmongFirst(pc.ran[x], pc.list, pc.i) ==>
        AmongFirst(pc.ran[x], pc.list, pc.i + 1)
  {
  }

  lemma OtherSched(l: LState, t: LStep, l': LState, j: nat)
    requires LNextStep(l, t, l') && LShape(l) && LShape(l') && j < |l.sched| && (t.Proc? || t.k != j)
    ensures j < |l'.sched| && l'.sched[j] == l.sched[j]
  {
    hide NextStep, SchedAcqStep, SchedRelStep, ClearStep, DispatchStep;
  }

  lemma OwnCpu(l: LState, t: LStep, l': LState)
    requires LNextStep(l, t, l') && !t.Proc?
    ensures t.k < |l.sched|
  {
    hide NextStep, SchedAcqStep, SchedRelStep, ClearStep, DispatchStep;
  }

  lemma StepRounds(l: LState, t: LStep, l': LState)
    requires LShape(l) && Safe(l.core) && LNextStep(l, t, l') && RoundsOk(l)
    ensures LShape(l') && RoundsOk(l')
  {
    hide Safe, LNextStep, RunsGrow, RoundOk;
    StepRuns(l, t, l');
    StepSizes(l, t, l');
    if !t.Proc? {
      OwnCpu(l, t, l');
      OwnRound(l, t, l');
    }
    forall j | 0 <= j < |l'.sched| ensures RoundOk(l', l'.sched[j]) {
      if t.Proc? || t.k != j {
        OtherSched(l, t, l', j);
        RoundStays(l, l', l.sched[j]);
      }
    }
  }

  lemma NextRounds(l: LState, l': LState)
    requires LShape(l) && Safe(l.core) && LNext(l, l') && RoundsOk(l)
    ensures LShape(l') && RoundsOk(l')
  {
    hide Safe, LNextStep, RoundsOk;
    var t :| LNextStep(l, t, l');
    StepRounds(l, t, l');
  }

  lemma {:induction false} RunRounds(tr: seq<LState>, i: nat)
    requires LRun(tr) && i < |tr|
    ensures LShape(tr[i]) && RoundsOk(tr[i])
  {
    hide Safe, LNext, Init, RoundOk;
    RunShape(tr, i);
    if i == 0 {
      InitRounds(tr[0]);
    } else {
      RunRounds(tr, i - 1);
      CoreSafe(tr, i - 1);
      assert LNext(tr[i - 1], tr[i]);
      NextRounds(tr[i - 1], tr[i]);
    }
  }

  lemma InitRounds(l: LState)
    requires LInit(l)
    ensures RoundsOk(l)
  {
  }

  // ---------- Theorems ----------

  /** CPU k has finished all entries of its round. */
  predicate RoundEnds(pc: LPc) { pc.Turn? && |pc.list| <= pc.i }

  /** When a round ends, every slot it collected has been dispatched since it was seen
      RUNNABLE, and this CPU has run no slot twice and none that it had not collected. */
  lemma RoundServesAll(tr: seq<LState>, i: nat, k: nat)
    requires LRun(tr) && i < |tr| && k < |tr[i].sched| && RoundEnds(tr[i].sched[k])
    ensures forall x :: 0 <= x < |tr[i].sched[k].list| ==> Served(tr[i].runs, tr[i].sched[k].list[x])
    ensures NoDuplicates(tr[i].sched[k].ran)
    ensures forall x :: 0 <= x < |tr[i].sched[k].ran| ==>
        AmongFirst(tr[i].sched[k].ran[x], tr[i].sched[k].list, |tr[i].sched[k].list|)
  {
    hide LRun;
    RunRounds(tr, i);
    assert RoundOk(tr[i], tr[i].sched[k]);
  }

  /** From state m to state n CPU k stays in one round. */
  ghost predicate SameRound(tr: seq<LState>, k: nat, m: nat, n: nat) {
    && m <= n < |tr|
    && forall x {:trigger tr[x]} :: m <= x <= n ==> k < |tr[x].sched| && !tr[x].sched[k].Idle?
  }

  lemma EntriesStay(l: LState, t: LStep, l': LState, k: nat, e: Seen)
    requires LShape(l) && LNextStep(l, t, l') && k < |l.sched| && k < |l'.sched| && !l'.sched[k].Idle?
        && !l.sched[k].Idle?
    requires e in Entries(l.sched[k])
    ensures e in Entries(l'.sched[k])
  {
    hide SchedAcqStep, SchedRelStep, ClearStep, DispatchStep, NextStep;
    assert e in multiset(Entries(l.sched[k]));
    assert t.Compare? && t.k == k ==> e in multiset(Entries(l'.sched[k]));
  }

  lemma {:induction false} CollectedStays(tr: seq<LState>, k: nat, m: nat, n: nat, e: Seen)
    requires LRun(tr) && SameRound(tr, k, m, n) && e in Entries(tr[m].sched[k])
    ensures e in Entries(tr[n].sched[k])
    decreases n
  {
    hide LRun, LNextStep;
    if m < n {
      CollectedStays(tr, k, m, n - 1, e);
      RunShape(tr, n - 1);
      var t := StepOf(tr, n - 1);
      EntriesStay(tr[n - 1], t, tr[n], k, e);
    }
  }

  lemma StepOf(tr: seq<LState>, i: nat) returns (t: LStep)
    requires LRun(tr) && i + 1 < |tr|
    ensures LNextStep(tr[i], t, tr[i + 1])
  {
    hide LNextStep, LInit;
    var j := i + 1;
    assert LNext(tr[i], tr[j]);
    t :| LNextStep(tr[i], t, tr[j]);
  }

  /** Round fairness: a slot that CPU k finds RUNNABLE while it collects has been dispatched,
      by some CPU, before that round of CPU k ends. */
  lemma RoundFairness(tr: seq<LState>, k: nat, p: nat, m: nat, n: nat)
    requires LRun(tr) && SameRound(tr, k, m, n) && m < n
    requires LShape(tr[m]) && p < |tr[m].core.procs| && tr[m].core.procs[p].state.RUNNABLE?
    requires LookStep(tr[m], k, tr[m + 1]) && tr[m].sched[k].p == p
    requires RoundEnds(tr[n].sched[k])
    ensures p < |tr[n].runs| && tr[m].runs[p] < tr[n].runs[p]
  {
    hide LRun;
    var e := Seen(p, tr[m].runs[p]);
    var b := tr[m].sched[k].batch;
    assert (b + [e])[|b|] == e;
    assert e in Entries(tr[m + 1].sched[k]);
    CollectedStays(tr, k, m + 1, n, e);
    RoundServesAll(tr, n, k);
    var x :| 0 <= x < |tr[n].sched[k].list| && tr[n].sched[k].list[x] == e;
    assert Served(tr[n].runs, tr[n].sched[k].list[x]);
  }

  /** `runs` counts dispatches: a step that raises a slot's count dispatches that slot. */
  lemma RunsCountDispatches(l: LState, t: LStep, l': LState, p: nat)
    requires LShape(l) && LNextStep(l, t, l') && p < |l.runs|
    ensures p < |l'.runs| && l'.runs[p] == l.runs[p] + if IsDispatch(CoreStep(l, t), p) then 1 else 0
  {
    hide SchedAcqStep, SchedRelStep, ClearStep, NextStep;
  }
}
