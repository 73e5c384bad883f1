/**
 Bounded overtaking in runs of the adaptive scheduler. A dispatch is a scan's choice at one
 moment if nobody moved during the scan. On one CPU that is always so: interrupts are off
 from the start of a scan to its end.
 */
module AdaptiveRuns {
  import opened Kernel
  import opened KernelLocks
  import opened Refinement
  import opened AdaptiveMachine
  import opened AdaptiveFair
  import Aging

  // ---------- One CPU ----------

  /** The scan in progress has judged the slots below p as they are now. */
  ghost predicate ScanFresh(a: AState) {
    AShape(a) && |a.sched| == 1 && (a.sched[0].Scan? || a.sched[0].Judge?) ==>
        ScanSoFar(a, 0, a.core.procs, a.core.ticks)
  }

  /** During a scan of the only CPU no process and no handler moves. */
  lemma NobodyMoves(a: AState, st: Step, a': AState)
    requires AOk(a) && AdaptiveMachine.ProcStep(a, st, a') && |a.sched| == 1
    ensures a.sched[0].Idle? || a.sched[0].Away? || a.sched[0].Unlock?
  {
    hide Safe, BaseCode, TickCode, IrqCode, Changed, ChargeChoice;
    assert Agrees(a.core, a.sched[0], a.core.cpus[0]);
  }

  lemma FreshStep(a: AState, t: AStep, a': AState)
    requires AOk(a) && ANextStep(a, t, a') && ScanFresh(a)
    ensures ScanFresh(a')
  {
    hide Safe, ScanSoFar, NextStep;
    StepCpus(a, t, a');
    if |a.sched| == 1 {
      if t.Proc? {
        NobodyMoves(a, t.st, a');
      } else if OfScan(t, 0) {
        ScanGoesOn(a, t, a', 0, a.core.procs, a.core.ticks);
        SoFarHere(a', a.core.procs, a.core.ticks);
      } else {
        NotScanning(a, t, a');
      }
    }
  }

  lemma StepCpus(a: AState, t: AStep, a': AState)
    requires AOk(a) && ANextStep(a, t, a')
    ensures |a'.sched| == |a.sched| && (t.Proc? ==> a'.sched == a.sched)
  {
    hide Safe, NextStep, ScansOk;
  }

  lemma SoFarHere(a: AState, procs: seq<Proc>, now: nat)
    requires ScanSoFar(a, 0, procs, now)
    ensures a.core.procs == procs && a.core.ticks == now
  {
  }

  lemma NotScanning(a: AState, t: AStep, a': AState)
    requires AOk(a) && ANextStep(a, t, a') && !t.Proc? && !OfScan(t, 0) && |a.sched| == 1
    ensures |a'.sched| == 1 && !a'.sched[0].Scan? && !a'.sched[0].Judge?
  {
    hide Safe, ScansOk, SchedAcqStep, SchedRelStep, ClearStep, Started;
  }

  lemma {:induction false} RunFresh(tr: seq<AState>, st: seq<AStep>, i: nat)
    requires ATrace(tr, st) && i < |tr|
    ensures ScanFresh(tr[i])
  {
    hide ANextStep, ScanFresh, AOk;
    if i == 0 {
      InitFresh(tr[0]);
    } else {
      var x := i - 1;
      RunFresh(tr, st, x);
      ATraceRuns(tr, st);
      RunIsOk(tr, x);
      assert ANextStep(tr[x], st[x], tr[i]);
      FreshStep(tr[x], st[x], tr[i]);
    }
  }

  lemma InitFresh(a: AState)
    requires AInit(a)
    ensures ScanFresh(a)
  {
  }

  // ---------- The choice at a dispatch ----------

  /** The step runs the chosen slot q. */
  ghost predicate RunsSlot(a: AState, t: AStep, q: nat) {
    t.RunChosen? && t.k < |a.sched| && a.sched[t.k].Scan? && a.sched[t.k].chosen == Some(q)
  }

  /** Nobody else moved during the scan that ends with step m, or there is nobody else. */
  ghost predicate Undisturbed(tr: seq<AState>, st: seq<AStep>, m: nat) {
    && m < |st| && m < |tr| && st[m].RunChosen?
    && (|tr[m].sched| == 1 || exists b: nat {:trigger AloneScan(tr, st, st[m].k, b, m)} ::
        AloneScan(tr, st, st[m].k, b, m))
  }

  lemma ChoiceIsSelected(tr: seq<AState>, st: seq<AStep>, m: nat, q: nat)
    requires ATrace(tr, st) && Undisturbed(tr, st, m) && RunsSlot(tr[m], st[m], q)
    ensures Selected(tr[m].core, q)
  {
    hide ANextStep, ScanSoFar, AdaptiveScan.Selected;
    var x := m + 1;
    assert ANextStep(tr[m], st[m], tr[x]);
    RunChosenIs(tr[m], st[m], tr[x]);
    if |tr[m].sched| == 1 {
      RunFresh(tr, st, m);
      SoFarSelects(tr[m], q);
    } else {
      var b: nat :| AloneScan(tr, st, st[m].k, b, m);
      AloneScanSelects(tr, st, st[m].k, b, m, tr[x]);
    }
  }

  lemma RunChosenIs(a: AState, t: AStep, a': AState)
    requires ANextStep(a, t, a') && t.RunChosen?
    ensures RunChosenStep(a, t.k, a') && AShape(a) && t.k < |a.sched| && |a.core.procs| <= a.sched[t.k].p
  {
    hide Started;
  }

  lemma SoFarSelects(a: AState, q: nat)
    requires AShape(a) && |a.sched| == 1 && a.sched[0].Scan? && a.sched[0].chosen == Some(q)
    requires ScanSoFar(a, 0, a.core.procs, a.core.ticks) && |a.core.procs| <= a.sched[0].p
    ensures Selected(a.core, q)
  {
    hide AdaptiveScan.SoFar, AdaptiveScan.Selected;
    SoFarBound(a.core.procs, a.core.ticks, a.sched[0].p, a.sched[0].chosen, a.sched[0].best);
    AdaptiveScan.ScanEnds(a.core.procs, a.core.ticks, a.sched[0].chosen, a.sched[0].best);
  }

  // ---------- Theorems ----------

  /** The step is not a kkill that wakes slot q. */
  ghost predicate Spares(a: AState, t: AStep, q: nat) { t.Proc? ==> !KillWake(a.core, t.st, q) }

  ghost predicate SparesIn(tr: seq<AState>, st: seq<AStep>, q: nat, i: nat, j: nat) {
    && i <= j <= |st| && j < |tr|
    && forall m {:trigger Spares(tr[m], st[m], q)} :: i <= m < j ==> Spares(tr[m], st[m], q)
  }

  ghost predicate Runnable(a: AState, p: nat) { StillWaits(a.core, p) }

  /** From state i to state j process p stays RUNNABLE. */
  ghost predicate KeepsWaiting(tr: seq<AState>, p: nat, i: nat, j: nat) {
    && i <= j < |tr|
    && forall m {:trigger Runnable(tr[m], p)} :: i <= m <= j ==> Runnable(tr[m], p)
  }

  /** The dispatches between i and j were undisturbed choices, and kkill woke nobody. */
  ghost predicate OrderlySpan(tr: seq<AState>, st: seq<AStep>, i: nat, j: nat) {
    && i <= j <= |st| && j < |tr|
    && (forall m {:trigger Undisturbed(tr, st, m)} :: i <= m < j && st[m].RunChosen? ==> Undisturbed(tr, st, m))
    && (forall m, q {:trigger Spares(tr[m], st[m], q)} :: i <= m < j && 0 <= q ==> Spares(tr[m], st[m], q))
  }

  lemma CoreSpares(a: AState, t: AStep, q: nat)
    requires AShape(a) && Spares(a, t, q)
    ensures NoKillWake(a.core, CoreStep(a, t), q)
  {
  }

  lemma CoreDispatch(a: AState, t: AStep, q: nat)
    requires AShape(a)
    ensures RunsSlot(a, t, q) ==> IsDispatch(CoreStep(a, t), q)
    ensures IsDispatch(CoreStep(a, t), q) && !t.Proc? ==> RunsSlot(a, t, q)
  {
  }

  lemma ShapeAt(tr: seq<AState>, st: seq<AStep>, i: nat)
    requires ATrace(tr, st) && i < |tr|
    ensures AShape(tr[i]) && Cores(tr)[i] == tr[i].core && (i < |st| ==> CoreSteps(tr, st)[i] == CoreStep(tr[i], st[i]))
  {
    hide ATrace, Safe, ScansOk, CoreStep;
    ATraceRuns(tr, st);
    RunIsOk(tr, i);
    TraceSizes(tr, st);
  }

  lemma TraceSizes(tr: seq<AState>, st: seq<AStep>)
    requires ATrace(tr, st)
    ensures |tr| == |st| + 1
  {
    hide ANextStep, AInit;
  }

  lemma CoreWaits(tr: seq<AState>, p: nat, i: nat, j: nat)
    requires KeepsWaiting(tr, p, i, j)
    ensures Waits(Cores(tr), p, i, j)
  {
    hide StillWaits;
    forall m | i <= m <= j ensures StillWaits(Cores(tr)[m], p) {
      assert Runnable(tr[m], p);
    }
  }

  lemma CoreSparesIn(tr: seq<AState>, st: seq<AStep>, q: nat, i: nat, j: nat)
    requires ATrace(tr, st) && SparesIn(tr, st, q, i, j)
    ensures NoKillWakes(Cores(tr), CoreSteps(tr, st), q, i, j)
  {
    hide ATrace, NoKillWake, Spares;
    TraceSizes(tr, st);
    forall m | i <= m < j ensures NoKillWake(Cores(tr)[m], CoreSteps(tr, st)[m], q) {
      ShapeAt(tr, st, m);
      CoreSpares(tr[m], st[m], q);
    }
  }

  /** Two dispatches of the same slot ahead of a process that had waited a tick at the first
      are at least 500 ticks apart, if the second scan was undisturbed and kkill did not wake
      that slot in between. */
  lemma OvertakesApart(tr: seq<AState>, st: seq<AStep>, p: nat, q: nat, i: nat, m: nat)
    requires ATrace(tr, st) && KeepsWaiting(tr, p, i, m) && i < m < |st|
    requires RunsSlot(tr[i], st[i], q) && RunsSlot(tr[m], st[m], q)
    requires Undisturbed(tr, st, m) && SparesIn(tr, st, q, i, m)
    requires AgeOf(tr[i].core, p) < tr[i].core.ticks && tr[m].core.ticks - AgeOf(tr[i].core, p) <= Aging.LONGEST_WAIT
    ensures tr[i].core.ticks + 500 <= tr[m].core.ticks
  {
    hide ATrace, Trace, KeepsWaiting, Waits, SparesIn, NoKillWakes, Undisturbed, RunsSlot, Selected, CoreStep;
    TraceSizes(tr, st);
    WaitBounds(tr, p, i, m);
    RefinesSteps(tr, st);
    CoreWaits(tr, p, i, m);
    CoreSparesIn(tr, st, q, i, m);
    ShapeAt(tr, st, i);
    ShapeAt(tr, st, m);
    CoreDispatch(tr[i], st[i], q);
    ChoiceIsSelected(tr, st, m, q);
    ChosenAgain(Cores(tr), CoreSteps(tr, st), p, q, i, m);
  }

  lemma CoreSpan(tr: seq<AState>, st: seq<AStep>, i: nat, j: nat)
    requires ATrace(tr, st) && OrderlySpan(tr, st, i, j)
    ensures FairSpan(Cores(tr), CoreSteps(tr, st), i, j)
  {
    hide ATrace, NoKillWake, Spares, WellChosen;
    TraceSizes(tr, st);
    forall m, q | i <= m < j && 0 <= q ensures NoKillWake(Cores(tr)[m], CoreSteps(tr, st)[m], q) {
      ShapeAt(tr, st, m);
      CoreSpares(tr[m], st[m], q);
    }
    forall m | i <= m < j ensures WellChosen(Cores(tr)[m], CoreSteps(tr, st)[m]) {
      ShapeAt(tr, st, m);
      ChosenWell(tr, st, m);
    }
  }

  lemma ChosenWell(tr: seq<AState>, st: seq<AStep>, m: nat)
    requires ATrace(tr, st) && m < |st| && m < |tr| && AShape(tr[m]) && (st[m].RunChosen? ==> Undisturbed(tr, st, m))
    ensures WellChosen(tr[m].core, CoreStep(tr[m], st[m]))
  {
    hide Undisturbed, Selected, ANextStep;
    var t := CoreStep(tr[m], st[m]);
    if t.Some? && t.value.Dispatch? {
      var x := m + 1;
      assert ANextStep(tr[m], st[m], tr[x]);
      NotOfProcess(tr[m], st[m], tr[x]);
      CoreDispatch(tr[m], st[m], t.value.q);
      ChoiceIsSelected(tr, st, m, t.value.q);
    }
  }

  lemma NotOfProcess(a: AState, t: AStep, a': AState)
    requires ANextStep(a, t, a')
    ensures t.Proc? ==> !t.st.Dispatch?
  {
    hide NextStep;
  }

  /** In any span of fewer than 500 ticks at most NPROC - 1 dispatches precede a process that
      has waited a tick, if the scans were undisturbed and kkill woke nobody. */
  lemma FewOvertakes(tr: seq<AState>, st: seq<AStep>, p: nat, i: nat, j: nat)
    requires ATrace(tr, st) && KeepsWaiting(tr, p, i, j) && OrderlySpan(tr, st, i, j)
    requires AgeOf(tr[i].core, p) < tr[i].core.ticks && tr[j].core.ticks < tr[i].core.ticks + 500
    requires tr[j].core.ticks - AgeOf(tr[i].core, p) <= Aging.LONGEST_WAIT
    ensures |DispatchedIn(CoreSteps(tr, st), i, j)| <= |tr[i].core.procs| - 1
  {
    hide ATrace, Trace, KeepsWaiting, Waits, FairSpan, CoreStep, Undisturbed, Spares;
    TraceSizes(tr, st);
    WaitBounds(tr, p, i, j);
    RefinesSteps(tr, st);
    CoreWaits(tr, p, i, j);
    CoreSpan(tr, st, i, j);
    ShapeAt(tr, st, i);
    ShapeAt(tr, st, j);
    FewDispatches(Cores(tr), CoreSteps(tr, st), p, i, j);
  }

  /** On one CPU every scan is undisturbed: only kkill can break the bound. */
  lemma FewOvertakesOnOneCpu(tr: seq<AState>, st: seq<AStep>, p: nat, i: nat, j: nat)
    requires ATrace(tr, st) && |tr[0].sched| == 1 && KeepsWaiting(tr, p, i, j) && j <= |st|
    requires forall q :: 0 <= q ==> SparesIn(tr, st, q, i, j)
    requires AgeOf(tr[i].core, p) < tr[i].core.ticks && tr[j].core.ticks < tr[i].core.ticks + 500
    requires tr[j].core.ticks - AgeOf(tr[i].core, p) <= Aging.LONGEST_WAIT
    ensures |DispatchedIn(CoreSteps(tr, st), i, j)| <= |tr[i].core.procs| - 1
  {
    hide ATrace, KeepsWaiting, Spares;
    WaitBounds(tr, p, i, j);
    TraceSizes(tr, st);
    forall m | i <= m < j && st[m].RunChosen? ensures Undisturbed(tr, st, m) { SameCpus(tr, st, m); }
    forall m, q | i <= m < j && 0 <= q ensures Spares(tr[m], st[m], q) { assert SparesIn(tr, st, q, i, j); }
    FewOvertakes(tr, st, p, i, j);
  }

  lemma WaitBounds(tr: seq<AState>, p: nat, i: nat, j: nat)
    requires KeepsWaiting(tr, p, i, j)
    ensures i <= j < |tr|
  {
    hide Runnable;
  }

  lemma {:induction false} SameCpus(tr: seq<AState>, st: seq<AStep>, i: nat)
    requires ATrace(tr, st) && i < |tr|
    ensures |tr[i].sched| == |tr[0].sched|
  {
    hide ANextStep, AInit, AOk;
    if i > 0 {
      var x := i - 1;
      SameCpus(tr, st, x);
      ATraceRuns(tr, st);
      RunIsOk(tr, x);
      assert ANextStep(tr[x], st[x], tr[i]);
      StepCpus(tr[x], st[x], tr[i]);
    }
  }
}
