/**
 The order of a round in runs of the LPT scheduler: sorted by est_time if no other CPU writes
 it meanwhile, and longest run time first if nobody else moves, as on a single CPU.
 */
module LptRuns {
  import opened Kernel
  import opened LptMachine
  import opened Refinement
  import Words

  function Slots(b: seq<Seen>): (a: seq<nat>)
    ensures |a| == |b| && forall i {:trigger a[i]} {:trigger b[i]} :: 0 <= i < |b| ==> a[i] == b[i].slot
  {
    seq(|b|, i requires 0 <= i < |b| => b[i].slot)
  }

  /** est_time as the sort reads it, while nobody writes it. */
  function Reading(ests: seq<int>): LptRound.Estimates {
    (t: nat, p: nat) => if p < |ests| then ests[p] else 0
  }

  // ---------- The sort ----------

  /** The batch is a permutation of the slots a, sorted as far as the loops have come. */
  ghost predicate SortOk(ests: seq<int>, a: seq<nat>, pc: LPc) {
    match pc
    case Sort(b, i, j) =>
      && multiset(Slots(b)) == multiset(a) && i < j && i < |b|
      && LptRound.Placed(Slots(b), i, Reading(ests)) && LptRound.Leads(Slots(b), i, j, Reading(ests))
    case Turn(list, _, _) => multiset(Slots(list)) == multiset(a) && LptRound.Descending(Slots(list), Reading(ests))
    case _ => false
  }

  lemma ComparedSlots(ests: seq<int>, b: seq<Seen>, i: nat, j: nat)
    requires i < j < |b| && LptRound.InTable(Slots(b), |ests|)
    ensures Slots(Compared(ests, b, i, j)) == LptRound.Exchanged(Slots(b), i, j, Reading(ests), 0)
  {
    assert Slots(b)[i] == b[i].slot && Slots(b)[j] == b[j].slot;
  }

  lemma CompareSorts(l: LState, k: nat, l': LState, a: seq<nat>)
    requires CompareStep(l, k, l') && SortOk(l.ests, a, l.sched[k]) && LptRound.InTable(a, |l.ests|)
    ensures SortOk(l.ests, a, l'.sched[k])
  {
    hide LptRound.Placed, LptRound.Leads, LptRound.InTable, LptRound.Exchanged, Compared;
    var t := l.sched[k];
    LptRound.SameInTable(a, Slots(t.batch), |l.ests|);
    ComparedSlots(l.ests, t.batch, t.i, t.j);
    LptRound.ExchangedEntries(Slots(t.batch), t.i, t.j, Reading(l.ests), 0);
    LptRound.ExchangedOrder(Slots(t.batch), t.i, t.j, Reading(l.ests), 0, |l.ests|);
  }

  lemma NextSorts(l: LState, k: nat, l': LState, a: seq<nat>)
    requires NextEntryStep(l, k, l') || EndSortStep(l, k, l')
    requires SortOk(l.ests, a, l.sched[k])
    ensures SortOk(l.ests, a, l'.sched[k])
  {
  }

  /** From state m, where CPU k starts to sort b, to state n it stays in that sort, and nobody
      writes est_time. */
  ghost predicate FrozenSort(tr: seq<LState>, k: nat, b: seq<Seen>, m: nat, n: nat) {
    && m <= n < |tr| && k < |tr[m].sched| && tr[m].sched[k] == Sort(b, 0, 1) && b != []
    && (forall x {:trigger tr[x]} :: m <= x <= n ==> k < |tr[x].sched| && tr[x].ests == tr[m].ests)
    && forall x {:trigger tr[x]} :: m <= x < n ==> k < |tr[x].sched| && tr[x].sched[k].Sort?
  }

  lemma {:induction false} FrozenSorts(tr: seq<LState>, k: nat, b: seq<Seen>, m: nat, n: nat)
    requires LRun(tr) && FrozenSort(tr, k, b, m, n)
    ensures SortOk(tr[n].ests, Slots(b), tr[n].sched[k])
    decreases n
  {
    hide LRun, LNextStep, SortOk, CompareStep, NextEntryStep, EndSortStep;
    if m == n {
      SortStarts(tr[n].ests, b);
    } else {
      var x := n - 1;
      FrozenSorts(tr, k, b, m, x);
      var t := StepOf(tr, x);
      BatchInTable(tr, m, k, b);
      RunShape(tr, x);
      RunShape(tr, n);
      SortMoves(tr[x], t, tr[n], k);
      if CompareStep(tr[x], k, tr[n]) {
        CompareSorts(tr[x], k, tr[n], Slots(b));
      } else if NextEntryStep(tr[x], k, tr[n]) || EndSortStep(tr[x], k, tr[n]) {
        NextSorts(tr[x], k, tr[n], Slots(b));
      }
    }
  }

  lemma SortStarts(ests: seq<int>, b: seq<Seen>)
    requires b != []
    ensures SortOk(ests, Slots(b), Sort(b, 0, 1))
  {
  }

  /** In the sort a CPU compares, goes on or waits for the others. */
  lemma SortMoves(l: LState, t: LStep, l': LState, k: nat)
    requires LShape(l) && LShape(l') && LNextStep(l, t, l') && k < |l.sched| && l.sched[k].Sort?
    ensures CompareStep(l, k, l') || NextEntryStep(l, k, l') || EndSortStep(l, k, l')
        || (k < |l'.sched| && l'.sched[k] == l.sched[k])
  {
    hide NextStep, SchedAcqStep, SchedRelStep, ClearStep, DispatchStep, CompareStep, NextEntryStep, EndSortStep;
    if t.Proc? || t.k != k { OtherSched(l, t, l', k); }
  }

  lemma BatchInTable(tr: seq<LState>, m: nat, k: nat, b: seq<Seen>)
    requires LRun(tr) && m < |tr| && k < |tr[m].sched| && tr[m].sched[k] == Sort(b, 0, 1)
    ensures LptRound.InTable(Slots(b), |tr[m].ests|)
  {
    hide LRun;
    RunRounds(tr, m);
    assert RoundOk(tr[m], tr[m].sched[k]);
    forall x | 0 <= x < |b| ensures Slots(b)[x] < |tr[m].ests| { assert SeenOk(tr[m], b[x]); }
  }

  /** Whatever else the other CPUs do, if nobody writes est_time while a CPU sorts, its list is a
      permutation of what it collected, in descending order of est_time. */
  lemma SortsByEstimate(tr: seq<LState>, k: nat, b: seq<Seen>, m: nat, n: nat)
    requires LRun(tr) && FrozenSort(tr, k, b, m, n) && tr[n].sched[k].Turn?
    ensures multiset(Slots(tr[n].sched[k].list)) == multiset(Slots(b))
    ensures var a := Slots(tr[n].sched[k].list);
      && LptRound.InTable(a, |tr[n].ests|)
      && forall i, j {:trigger a[i], a[j]} :: 0 <= i < j < |a| ==> tr[n].ests[a[i]] >= tr[n].ests[a[j]]
  {
    hide LRun;
    FrozenSorts(tr, k, b, m, n);
    BatchInTable(tr, m, k, b);
    var a := Slots(tr[n].sched[k].list);
    LptRound.SameInTable(Slots(b), a, |tr[n].ests|);
    forall i, j | 0 <= i < j < |a| ensures tr[n].ests[a[i]] >= tr[n].ests[a[j]] {
      assert Reading(tr[n].ests)(0, a[i]) >= Reading(tr[n].ests)(0, a[j]);
    }
  }

  // ---------- A round that nobody disturbs ----------

  /** The slots below n that are RUNNABLE, and their estimates. */
  ghost predicate Collected(l: LState, b: seq<Seen>, n: nat)
    requires LShape(l)
  {
    && n <= |l.core.procs| && multiset(Slots(b)) == multiset(LptRound.Runnables(l.core.procs, n))
    && LptRound.Noted(Slots(b), l.core.procs, l.ests)
  }

  /** CPU k, before the first dispatch of its round, has ordered exactly the RUNNABLE slots of
      the table, as it is now, by the run times in it. */
  ghost predicate InOrder(l: LState, k: nat) {
    && LShape(l) && k < |l.sched|
    && (l.sched[k].Away? || l.sched[k].Unlock? ==> l.sched[k].ran != [])
    && (InterruptsOff(l.sched[k]) ==>
          && l.core.cpus[k].irq.INone?
          && match l.sched[k]
             case Collect(p, b) => l.core.cpus[k].spc == SScan({}) && Collected(l, b, p)
             case Sort(b, _, _) =>
               && l.core.cpus[k].spc == SScan({}) && Collected(l, b, |l.core.procs|)
               && SortOk(l.ests, Slots(b), l.sched[k])
             case Turn(list, i, _) =>
               && l.core.cpus[k].spc == SScan({}) && i == 0 && list != []
               && Collected(l, list, |l.core.procs|) && LptRound.Descending(Slots(list), Reading(l.ests))
             case Locked(list, i, _) =>
               && l.core.cpus[k].spc.SScan? && i == 0 && list != []
               && Collected(l, list, |l.core.procs|) && LptRound.Descending(Slots(list), Reading(l.ests))
             case _ => true)
  }

  lemma CollectedGrows(l: LState, b: seq<Seen>, e: Seen, l': LState)
    requires LShape(l) && LShape(l') && e.slot < |l.core.procs| && Collected(l, b, e.slot)
    requires l.core.procs[e.slot].state.RUNNABLE? && l'.core == l.core
    requires l'.ests == l.ests[e.slot := LptRound.Estimate(l.core.procs[e.slot].rtime)]
    ensures Collected(l', b + [e], e.slot + 1)
  {
    hide LptRound.Estimate;
    var a := Slots(b + [e]);
    assert a == Slots(b) + [e.slot];
    BelowBound(l, b, e.slot);
    forall i | 0 <= i < |a|
      ensures a[i] < |l.core.procs| && l'.ests[a[i]] == LptRound.Estimate(l.core.procs[a[i]].rtime)
    {
      if i < |b| { assert Slots(b)[i] != e.slot; }
    }
  }

  lemma LookInOrder(l: LState, k: nat, l': LState)
    requires LookStep(l, k, l') && InOrder(l, k)
    ensures InOrder(l', k)
  {
    hide LptRound.Estimate, LptRound.Noted;
    var p, b := l.sched[k].p, l.sched[k].batch;
    if l.core.procs[p].state.RUNNABLE? { CollectedGrows(l, b, Seen(p, l.runs[p]), l'); }
  }

  /** What has been collected lies below p. */
  lemma BelowBound(l: LState, b: seq<Seen>, p: nat)
    requires LShape(l) && Collected(l, b, p)
    ensures forall i {:trigger Slots(b)[i]} :: 0 <= i < |b| ==> Slots(b)[i] < p
  {
    LptRound.RunnablesAre(l.core.procs, p);
    forall i | 0 <= i < |b| ensures Slots(b)[i] < p {
      assert Slots(b)[i] in multiset(LptRound.Runnables(l.core.procs, p));
    }
  }

  lemma StartInOrder(l: LState, k: nat, l': LState)
    requires StartRoundStep(l, k, l') && InOrder(l, k) && l.core.cpus[k].spc == SScan({})
    ensures InOrder(l', k)
  {
  }

  lemma StartSortInOrder(l: LState, k: nat, l': LState)
    requires StartSortStep(l, k, l') && InOrder(l, k)
    ensures InOrder(l', k)
  {
    SortStarts(l.ests, l.sched[k].batch);
  }

  lemma NotedPermuted(a: seq<nat>, b: seq<nat>, table: seq<Proc>, ests: seq<int>)
    requires multiset(a) == multiset(b) && LptRound.Noted(a, table, ests)
    ensures LptRound.Noted(b, table, ests) && LptRound.InTable(b, |table|)
  {
    forall i | 0 <= i < |b| ensures b[i] < |table| && ests[b[i]] == LptRound.Estimate(table[b[i]].rtime) {
      assert b[i] in multiset(a);
    }
  }

  lemma SortInOrder(l: LState, k: nat, l': LState)
    requires CompareStep(l, k, l') || NextEntryStep(l, k, l') || EndSortStep(l, k, l')
    requires InOrder(l, k)
    ensures InOrder(l', k)
  {
    hide LptRound.Placed, LptRound.Leads, LptRound.Noted, LptRound.InTable, Compared, LptRound.Descending;
    var b := l.sched[k].batch;
    NotedPermuted(Slots(b), Slots(b), l.core.procs, l.ests);
    if CompareStep(l, k, l') {
      CompareSorts(l, k, l', Slots(b));
      NotedPermuted(Slots(b), Slots(l'.sched[k].batch), l.core.procs, l.ests);
      SortStays(l.ests, Slots(b), Slots(l'.sched[k].batch), l'.sched[k]);
    } else {
      NextSorts(l, k, l', Slots(b));
    }
  }

  lemma SortStays(ests: seq<int>, a: seq<nat>, b: seq<nat>, pc: LPc)
    requires SortOk(ests, a, pc) && multiset(a) == multiset(b)
    ensures SortOk(ests, b, pc)
  {
    hide LptRound.Placed, LptRound.Leads, LptRound.Descending;
  }

  lemma LockInOrder(l: LState, k: nat, l': LState)
    requires LockNextStep(l, k, l') && InOrder(l, k)
    ensures InOrder(l', k)
  {
    hide LptRound.Descending, LptRound.Noted;
  }

  /** The first entry of the list is RUNNABLE, so it is not skipped. */
  lemma FirstRuns(l: LState, list: seq<Seen>)
    requires LShape(l) && list != [] && Collected(l, list, |l.core.procs|)
    ensures list[0].slot < |l.core.procs| && l.core.procs[list[0].slot].state.RUNNABLE?
  {
    LptRound.RunnablesAre(l.core.procs, |l.core.procs|);
    assert Slots(list)[0] in multiset(LptRound.Runnables(l.core.procs, |l.core.procs|));
  }

  lemma SkipInOrder(l: LState, k: nat, l': LState)
    requires SkipStep(l, k, l') && InOrder(l, k) && LShape(l')
    ensures InOrder(l', k)
  {
    hide SchedRelStep, LptRound.Descending, Collected;
    if l.sched[k].ran == [] {
      FirstRuns(l, l.sched[k].list);
      assert false;
    }
  }

  /** A step of CPU k's own scheduler keeps the order. */
  lemma OwnInOrder(l: LState, t: LStep, l': LState, k: nat)
    requires LNextStep(l, t, l') && !t.Proc? && t.k == k && LShape(l') && InOrder(l, k)
    requires l.sched[k].Idle? ==> l.core.cpus[k].spc == SScan({})
    ensures InOrder(l', k)
  {
    hide SchedAcqStep, SchedRelStep, ClearStep, DispatchStep, LookStep, StartSortStep, CompareStep, NextEntryStep,
        EndSortStep, LockNextStep, SkipStep, LptRound.Descending, Collected, SortOk;
    match t {
      case StartRound(_) => StartInOrder(l, k, l');
      case Look(_) => LookInOrder(l, k, l');
      case StartSort(_) => StartSortInOrder(l, k, l');
      case Compare(_) => SortInOrder(l, k, l');
      case NextEntry(_) => SortInOrder(l, k, l');
      case EndSort(_) => SortInOrder(l, k, l');
      case LockNext(_) => LockInOrder(l, k, l');
      case Skip(_) => SkipInOrder(l, k, l');
      case _ =>
    }
  }

  // ---------- The scheduler's places ----------

  ghost predicate Agrees(pc: LPc, spc: SPc) {
    match pc
    case Locked(list, i, _) => i < |list| && spc == SScan({list[i].slot})
    case Away(list, i, _) => i < |list| && (spc == SRun(list[i].slot) || spc == SBack(list[i].slot))
    case Unlock(list, i, _) => i < |list| && spc == SScan({list[i].slot})
    case _ => spc == SScan({})
  }

  ghost predicate PlacesOk(l: LState) {
    LShape(l) && forall k {:trigger l.sched[k]} :: 0 <= k < |l.sched| ==> Agrees(l.sched[k], l.core.cpus[k].spc)
  }

  lemma StepPlaces(l: LState, t: LStep, l': LState)
    requires LNextStep(l, t, l') && LShape(l') && PlacesOk(l)
    ensures PlacesOk(l')
  {
    hide NextStep;
    forall k | 0 <= k < |l'.sched| ensures Agrees(l'.sched[k], l'.core.cpus[k].spc) {
      assert Agrees(l.sched[k], l.core.cpus[k].spc);
      if t.Proc? { ProcScheds(l.core, t.st, l'.core); }
    }
  }

  lemma {:induction false} RunPlaces(tr: seq<LState>, i: nat)
    requires LRun(tr) && i < |tr|
    ensures PlacesOk(tr[i])
  {
    hide LNextStep, Init, PlacesOk, LRun;
    RunShape(tr, i);
    if i == 0 {
      InitPlaces(tr);
    } else {
      RunPlaces(tr, i - 1);
      var t := StepOf(tr, i - 1);
      StepPlaces(tr[i - 1], t, tr[i]);
    }
  }

  lemma InitPlaces(tr: seq<LState>)
    requires LRun(tr)
    ensures PlacesOk(tr[0])
  {
    hide LNext;
  }

  // ---------- Theorems ----------

  /** From state m, between two rounds, to state n only CPU k's scheduler moves. */
  ghost predicate AloneRound(tr: seq<LState>, st: seq<LStep>, k: nat, m: nat, n: nat) {
    && m <= n < |tr| && n <= |st| && k < |tr[m].sched| && tr[m].sched[k].Idle?
    && (forall x {:trigger st[x]} :: m <= x < n ==> !st[x].Proc? && st[x].k == k)
    && forall x, y {:trigger LNextStep(tr[x], st[x], tr[y])} :: m <= x < n && y == x + 1 ==>
        LNextStep(tr[x], st[x], tr[y])
  }

  lemma {:induction false} AloneInOrder(tr: seq<LState>, st: seq<LStep>, k: nat, m: nat, n: nat)
    requires LRun(tr) && AloneRound(tr, st, k, m, n)
    ensures InOrder(tr[n], k)
    decreases n
  {
    hide LRun, LNextStep, InOrder;
    RunShape(tr, n);
    if m == n {
      IdleInOrder(tr[m], k);
    } else {
      var x := n - 1;
      AloneInOrder(tr, st, k, m, x);
      assert LNextStep(tr[x], st[x], tr[n]);
      assert !st[x].Proc? && st[x].k == k;
      RunPlaces(tr, x);
      IdlePlace(tr[x], k);
      OwnInOrder(tr[x], st[x], tr[n], k);
    }
  }

  lemma IdleInOrder(l: LState, k: nat)
    requires LShape(l) && k < |l.sched| && l.sched[k].Idle?
    ensures InOrder(l, k)
  {
  }

  lemma IdlePlace(l: LState, k: nat)
    requires PlacesOk(l) && InOrder(l, k)
    ensures k < |l.sched| == |l.core.cpus| && (l.sched[k].Idle? ==> l.core.cpus[k].spc == SScan({}))
  {
  }

  lemma StaysInOrder(l: LState, l': LState, k: nat)
    requires InOrder(l, k) && LShape(l') && k < |l'.sched| && l'.sched[k] == l.sched[k] && !InterruptsOff(l.sched[k])
    ensures InOrder(l', k)
  {
  }

  /** On a single CPU nobody else moves before the first dispatch: interrupts are off. */
  lemma OneCpuStep(l: LState, t: LStep, l': LState)
    requires LNextStep(l, t, l') && PlacesOk(l) && LShape(l') && |l.sched| == 1 && InOrder(l, 0)
    ensures InOrder(l', 0) && |l'.sched| == 1
  {
    hide LNextStep, InOrder, PlacesOk;
    OneSize(l, t, l');
    if InterruptsOff(l.sched[0]) || !t.Proc? {
      OneOwn(l, t, l');
      IdlePlace(l, 0);
      OwnInOrder(l, t, l', 0);
    } else {
      OtherSched(l, t, l', 0);
      StaysInOrder(l, l', 0);
    }
  }

  lemma OneSize(l: LState, t: LStep, l': LState)
    requires LNextStep(l, t, l') && PlacesOk(l)
    ensures |l'.sched| == |l.sched| && LShape(l)
  {
    hide LNextStep;
    StepSizes(l, t, l');
  }

  lemma OneOwn(l: LState, t: LStep, l': LState)
    requires LNextStep(l, t, l') && PlacesOk(l) && |l.sched| == 1 && InOrder(l, 0)
    requires InterruptsOff(l.sched[0]) || !t.Proc?
    ensures !t.Proc? && t.k == 0
  {
    hide SchedAcqStep, SchedRelStep, ClearStep, DispatchStep, Collected, SortOk, LptRound.Descending;
    hide BaseCode, TickCode, IrqCode, Changed, Quiet, ChargeChoice;
    assert Agrees(l.sched[0], l.core.cpus[0].spc);
    if t.Proc? { NoProcStep(l.core, t.st, l'.core); }
  }

  /** A CPU whose scheduler runs with interrupts off takes no other step. */
  lemma NoProcStep(s: State, st: Step, s': State)
    requires NextStep(s, st, s') && OfProcess(st) && st.k < |s.cpus| && s.cpus[st.k].spc.SScan?
    requires s.cpus[st.k].irq.INone?
    ensures st.TimerStart? || st.DeviceStart?
  {
    hide BaseCode, TickCode, IrqCode, Changed, Quiet, ChargeChoice;
  }

  lemma {:induction false} OneCpuInOrder(tr: seq<LState>, i: nat)
    requires LRun(tr) && i < |tr| && |tr[0].sched| == 1
    ensures InOrder(tr[i], 0) && |tr[i].sched| == 1
  {
    hide LRun, LNextStep, InOrder;
    RunShape(tr, i);
    if i == 0 {
      InitIdle(tr);
      IdleInOrder(tr[0], 0);
    } else {
      OneCpuInOrder(tr, i - 1);
      var t := StepOf(tr, i - 1);
      RunPlaces(tr, i - 1);
      OneCpuStep(tr[i - 1], t, tr[i]);
    }
  }

  lemma InitIdle(tr: seq<LState>)
    requires LRun(tr)
    ensures forall k :: 0 <= k < |tr[0].sched| ==> tr[0].sched[k].Idle?
  {
    hide LNext;
  }

  /** The list of a round as it stands before its first dispatch: all RUNNABLE slots, once each,
      by estimated run time and, while rtime + 1 is an int, by run time. */
  ghost predicate InRunOrder(procs: seq<Proc>, a: seq<nat>) {
    && LptRound.InTable(a, |procs|)
    && multiset(a) == multiset(LptRound.Runnables(procs, |procs|))
    && LptRound.LongestFirst(a, procs)
    && (LptRound.ShortRuns(a, procs) ==> LptRound.LongestRunFirst(a, procs))
  }

  lemma OrderedList(l: LState, k: nat)
    requires InOrder(l, k) && (l.sched[k].Turn? || l.sched[k].Locked?) && l.sched[k].ran == []
    ensures l.sched[k].i == 0 && InRunOrder(l.core.procs, Slots(l.sched[k].list))
  {
    var a := Slots(l.sched[k].list);
    NotedPermuted(a, a, l.core.procs, l.ests);
    forall i, j | 0 <= i < j < |a|
      ensures LptRound.Estimate(l.core.procs[a[i]].rtime) >= LptRound.Estimate(l.core.procs[a[j]].rtime)
    {
      assert Reading(l.ests)(0, a[i]) >= Reading(l.ests)(0, a[j]);
    }
    LptRound.LongestRuns(a, l.core.procs);
  }

  /** If nobody else moves from the start of a round to its first dispatch, the list is in the
      order that LptRound computes. */
  lemma AloneRoundOrder(tr: seq<LState>, st: seq<LStep>, k: nat, m: nat, n: nat)
    requires LRun(tr) && AloneRound(tr, st, k, m, n)
    requires k < |tr[n].sched| && (tr[n].sched[k].Turn? || tr[n].sched[k].Locked?) && tr[n].sched[k].ran == []
    ensures tr[n].sched[k].i == 0 && InRunOrder(tr[n].core.procs, Slots(tr[n].sched[k].list))
  {
    hide LRun, LNextStep, InOrder, InRunOrder;
    AloneInOrder(tr, st, k, m, n);
    OrderedList(tr[n], k);
  }

  /** On one CPU every round starts with a RUNNABLE process that has run longest, whatever
      interrupts and processes did before. */
  lemma LongestRunsFirst(tr: seq<LState>, i: nat, l: LState, p: nat)
    requires LRun(tr) && i < |tr| && |tr[0].sched| == 1 && RunNextStep(tr[i], 0, l) && tr[i].sched[0].ran == []
    requires forall q :: 0 <= q < |tr[i].core.procs| && tr[i].core.procs[q].state.RUNNABLE? ==>
        Words.IsInt(tr[i].core.procs[q].rtime + 1)
    requires p < |tr[i].core.procs| && tr[i].core.procs[p].state.RUNNABLE?
    ensures var q := Entry(tr[i].sched[0]).slot;
      && q < |tr[i].core.procs| && l.core.cpus[0].cproc == Some(q)
      && tr[i].core.procs[p].rtime <= tr[i].core.procs[q].rtime
  {
    hide LRun, InOrder;
    OneCpuInOrder(tr, i);
    OrderedList(tr[i], 0);
    var procs, a := tr[i].core.procs, Slots(tr[i].sched[0].list);
    LptRound.RunnablesAre(procs, |procs|);
    forall x | 0 <= x < |a| ensures Words.IsInt(procs[a[x]].rtime + 1) {
      assert a[x] in multiset(LptRound.Runnables(procs, |procs|));
    }
    assert p in multiset(a);
    var y :| 0 <= y < |a| && a[y] == p;
    assert y == 0 || procs[a[0]].rtime >= procs[a[y]].rtime;
  }
}
