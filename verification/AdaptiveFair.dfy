/**
 What aging guarantees: every process has the same priority, and a process that waits is
 overtaken by the same other slot at most once in 500 ticks.
 */
module AdaptiveFair {
  import opened Kernel
  import opened KernelLocks
  import opened KernelSafe
  import opened KernelTree
  import opened KernelCounts
  import Aging
  import AdaptiveScan
  import opened Refinement
  import opened Sequences

  // ---------- How a step changes a slot's scheduling fields ----------

  /** kkill wakes a sleeper and leaves age_start as it was. */
  ghost predicate KillWake(s: State, st: Step, q: nat) {
    st.BaseGo? && st.op == Ready(q, Keep) && q < |s.procs| && s.procs[q].state.SLEEPING?
  }

  /** age_start is new when a slot becomes RUNNABLE, unless kkill woke it or kfork has just
      set it; it stays as long as the slot is RUNNABLE. */
  ghost predicate AgeMove(s: State, st: Step, s': State, q: nat)
    requires Shape(s) && Shape(s') && |s'.procs| == |s.procs| && q < |s.procs|
  {
    var b, e := s.procs[q], s'.procs[q];
    && (e.age == b.age || e.age == s.ticks)
    && (e.state.RUNNABLE? ==>
          || e.age == s.ticks
          || (e.age == b.age && (b.state.RUNNABLE? || (b.state.USED? && b.ready.Yes?) || KillWake(s, st, q))))
    && (e.state.RUNNABLE? && b.state.RUNNABLE? ==> e.age == b.age)
    && (e.state.USED? && e.ready.Yes? ==> e.age == s.ticks || (e.age == b.age && b.state.USED? && b.ready.Yes?))
  }

  /** Priorities: what every allocated slot has, and a step keeps. */
  predicate PriOk(pr: Proc, now: nat) {
    && pr.age <= now
    && (pr.ready.Yes? ==> pr.est == PRIORITY_DEFAULT && pr.pri == PRIORITY_DEFAULT)
  }

  ghost predicate PrisOk(s: State)
    requires Shape(s)
  {
    forall p {:trigger s.procs[p]} :: 0 <= p < |s.procs| ==> PriOk(s.procs[p], s.ticks)
  }

  lemma ThreadAges(s: State, k: nat, me: nat, op: Op, st: Step, s': State, q: nat)
    requires Safe(s) && TreeStep(s, k, me, op, s') && q < |s.procs|
    requires st.BaseGo? ==> st.op == op
    requires !st.BaseGo? ==> op.Ready? ==> !(op.age.Keep?)
    ensures AgeMove(s, st, s', q)
  {
    hide RunOk, QuietOk, LockOk, GlobalLockOk, ForkOk, StateOk, TreeMove;
    UsedReady(s, me);
  }

  lemma ThreadPris(s: State, k: nat, me: nat, op: Op, s': State)
    requires Safe(s) && TreeStep(s, k, me, op, s') && CountsOk(s) && PrisOk(s) && s.threads[me].on.Some?
    ensures PrisOk(s')
  {
    hide RunOk, QuietOk, LockOk, GlobalLockOk, ForkOk, StateOk, TreeMove, Permitted, ForkOwned;
    assert CountOk(s.procs[me], s.threads[me]);
    RunnerReady(s, me);
    assert PriOk(s.procs[me], s.ticks);
  }

  lemma RunnerReady(s: State, me: nat)
    requires Safe(s) && CountsOk(s) && me < |s.procs| && s.threads[me].on.Some?
    ensures s.procs[me].ready.Yes?
  {
    hide RunOk, QuietOk, LockOk, GlobalLockOk, ForkOk;
    assert CountOk(s.procs[me], s.threads[me]);
    SlotStays(s, me);
    StateAtLive(s.threads[me]);
  }

  lemma HandlerAges(s: State, op: Op, st: Step, s': State, q: nat)
    requires Wrote(s, INIT, op, s') && HandlerOp(s, op) && q < |s.procs|
    requires op.Ready? ==> op.age.Reset?
    ensures AgeMove(s, st, s', q)
  {
  }

  lemma HandlerPris(s: State, op: Op, s': State)
    requires Wrote(s, INIT, op, s') && HandlerOp(s, op) && PrisOk(s)
    ensures PrisOk(s')
  {
  }

  /** The rest of a step's effect that matters here. */
  ghost predicate SchedMove(s: State, st: Step, s': State) {
    && Shape(s) && Shape(s') && |s'.procs| == |s.procs| && s.ticks <= s'.ticks
    && (forall q {:trigger s'.procs[q]} :: 0 <= q < |s.procs| ==> AgeMove(s, st, s', q))
    && PrisOk(s')
  }

  lemma BaseSched(s: State, k: nat, op: Op, pc': Pc, s': State)
    requires Safe(s) && CountsOk(s) && PrisOk(s) && BaseStep(s, k, op, pc', s')
    ensures SchedMove(s, BaseGo(k, op, pc'), s')
  {
    hide Safe, CountsOk, PrisOk, BaseStep, BaseEffect, BaseCode, TreeStep, Stepped, MovesWell, AgeMove, Running;
    RunningCpu(s, k, op, pc', s');
    var me := s.cpus[k].spc.p;
    BaseFacts(s, k, op, pc', s');
    LoadedHere(s, k, me);
    StepTicks(s, k, me, op, s');
    ThreadPris(s, k, me, op, s');
    forall q | 0 <= q < |s.procs| ensures AgeMove(s, BaseGo(k, op, pc'), s', q) {
      ThreadAges(s, k, me, op, BaseGo(k, op, pc'), s', q);
    }
  }

  lemma StepTicks(s: State, k: nat, me: nat, op: Op, s': State)
    requires TreeStep(s, k, me, op, s')
    ensures Shape(s) && Shape(s') && |s'.procs| == |s.procs| && s.ticks <= s'.ticks
  {
    hide Changed, TreeMove, Permitted, ForkOwned;
  }

  lemma TickSched(s: State, k: nat, op: Op, pc': TickPc, s': State)
    requires Safe(s) && CountsOk(s) && PrisOk(s) && TickStep(s, k, op, pc', s')
    ensures SchedMove(s, TickGo(k, op, pc'), s')
  {
    hide Safe, CountsOk, PrisOk, TreeStep, Stepped, Wrote, AgeMove, TickEffect;
    var me := s.cpus[k].spc.p;
    TickRunning(s, k, me, op, pc', s');
    TickCharges(s, me, op, pc');
    TickWrites(s, k, me, op, pc', s');
    TickTreeStep(s, k, me, op, pc', s');
    LoadedHere(s, k, me);
    StepTicks(s, k, me, op, s');
    ThreadPris(s, k, me, op, s');
    forall q | 0 <= q < |s.procs| ensures AgeMove(s, TickGo(k, op, pc'), s', q) {
      ThreadAges(s, k, me, op, TickGo(k, op, pc'), s', q);
    }
  }

  lemma WakeResets(s: State, mine: Option<nat>, irq: Irq, op: Op, irq': Irq)
    requires IrqCode(s, mine, irq, op, irq')
    ensures op.Ready? ==> op.age.Reset?
  {
  }

  lemma IrqSched(s: State, k: nat, op: Op, irq': Irq, end: TickEnd, s': State)
    requires Safe(s) && PrisOk(s) && IrqStep(s, k, op, irq', end, s')
    ensures SchedMove(s, IrqGo(k, op, irq', end), s')
  {
    hide Safe, PrisOk, Wrote, IrqFrame, IrqEffect, IrqCode, AgeMove, Permitted, ChargeChoice;
    SafeShape(s);
    IrqRunning(s, k, op, irq', end, s');
    IrqPermitted(s, k, op, irq');
    IrqWrites(s, k, op, irq', end, s');
    IrqEnds(s, k, op, irq', end, s');
    WakeResets(s, s.cpus[k].cproc, s.cpus[k].irq, op, irq');
    HandlerPris(s, op, s');
    forall q | 0 <= q < |s.procs| ensures AgeMove(s, IrqGo(k, op, irq', end), s', q) {
      HandlerAges(s, op, IrqGo(k, op, irq', end), s', q);
    }
  }

  lemma OtherSched(s: State, st: Step, s': State)
    requires Shape(s) && PrisOk(s) && NextStep(s, st, s') && !st.BaseGo? && !st.TickGo? && !st.IrqGo?
    ensures SchedMove(s, st, s')
  {
    hide BaseStep, TickStep, IrqStep, Quiet, ChargeChoice;
    assert |s'.procs| == |s.procs| && s'.ticks == s.ticks;
    forall q | 0 <= q < |s.procs| ensures AgeMove(s, st, s', q) && PriOk(s'.procs[q], s'.ticks) {
      assert PriOk(s.procs[q], s.ticks);
    }
  }

  lemma NextSched(s: State, st: Step, s': State)
    requires Safe(s) && CountsOk(s) && PrisOk(s) && NextStep(s, st, s')
    ensures SchedMove(s, st, s')
  {
    hide Safe, CountsOk, PrisOk, BaseStep, TickStep, IrqStep, TimerStep, DeviceStep, SwtchStep, ClearStep, DispatchStep,
        SchedAcqStep, SchedRelStep, SchedMove;
    match st {
      case BaseGo(k, op, pc) => BaseSched(s, k, op, pc, s');
      case TickGo(k, op, pc) => TickSched(s, k, op, pc, s');
      case IrqGo(k, op, irq, end) => IrqSched(s, k, op, irq, end, s');
      case _ => SafeShape(s); OtherSched(s, st, s');
    }
  }

  // ---------- Runs ----------

  lemma {:induction false} RunPris(tr: seq<State>, i: nat)
    requires Run(tr) && i < |tr|
    ensures Shape(tr[i]) && PrisOk(tr[i])
  {
    hide Safe, Next, Init, PrisOk, AccountsOk;
    RunSafe(tr, i);
    SafeShape(tr[i]);
    if i == 0 {
      InitPris(tr[0]);
    } else {
      RunPris(tr, i - 1);
      RunAccounts(tr, i - 1);
      assert Next(tr[i - 1], tr[i]);
      NextPris(tr[i - 1], tr[i]);
    }
  }

  lemma InitPris(s: State)
    requires Init(s)
    ensures PrisOk(s)
  {
  }

  lemma NextPris(s: State, s': State)
    requires Safe(s) && AccountsOk(s) && PrisOk(s) && Next(s, s')
    ensures Shape(s') && PrisOk(s')
  {
    hide Safe, NextStep, PrisOk, CountsOk, DispatchBalance, BillsOk, AgeMove;
    var st :| NextStep(s, st, s');
    NextSched(s, st, s');
  }

  /** Every slot that allocproc has initialised has priority 5000 and estimate 5000: the
      adaptive part of the scheduler never changes them. */
  lemma PriorityNeverChanges(tr: seq<State>, i: nat, p: nat)
    requires Run(tr) && i < |tr| && Shape(tr[i]) && p < |tr[i].procs|
    requires Live(tr[i].procs[p].state) || tr[i].procs[p].state.ZOMBIE? || tr[i].procs[p].ready.Yes?
    ensures tr[i].procs[p].pri == PRIORITY_DEFAULT && tr[i].procs[p].est == PRIORITY_DEFAULT
    ensures tr[i].procs[p].age <= tr[i].ticks
  {
    hide Safe, DispatchBalance, BillsOk;
    RunPris(tr, i);
    RunAccounts(tr, i);
    assert PriOk(tr[i].procs[p], tr[i].ticks);
    assert CountOk(tr[i].procs[p], tr[i].threads[p]);
  }

  // ---------- Bounded overtaking ----------

  /** What an undisturbed scan at s chooses. */
  ghost predicate Selected(s: State, q: nat) { AdaptiveScan.Selected(s.procs, s.ticks, q) }

  ghost predicate StillWaits(s: State, p: nat) {
    Shape(s) && p < |s.procs| && s.procs[p].state.RUNNABLE?
  }

  function AgeOf(s: State, p: nat): nat { if p < |s.procs| then s.procs[p].age else 0 }

  /** From state i to state j process p stays RUNNABLE. */
  ghost predicate Waits(cs: seq<State>, p: nat, i: nat, j: nat) {
    && i <= j < |cs|
    && forall m {:trigger StillWaits(cs[m], p)} :: i <= m <= j ==> StillWaits(cs[m], p)
  }

  /** The step is not a kkill that wakes slot q. */
  ghost predicate NoKillWake(s: State, st: Option<Step>, q: nat) { st.Some? ==> !KillWake(s, st.value, q) }

  /** From state i to state j kkill does not wake slot q. */
  ghost predicate NoKillWakes(cs: seq<State>, st: seq<Option<Step>>, q: nat, i: nat, j: nat) {
    && i <= j <= |st| && j < |cs|
    && forall m {:trigger NoKillWake(cs[m], st[m], q)} :: i <= m < j ==> NoKillWake(cs[m], st[m], q)
  }

  /** If slot q is or becomes RUNNABLE without another reset, it has waited since t at most. */
  ghost predicate Fresh(s: State, q: nat, t: nat) {
    && q < |s.procs|
    && (s.procs[q].state.RUNNABLE? || (s.procs[q].state.USED? && s.procs[q].ready.Yes?) ==> t <= s.procs[q].age)
  }

  lemma TraceSched(cs: seq<State>, st: seq<Option<Step>>, m: nat)
    requires Trace(cs, st) && m < |st|
    ensures m + 1 < |cs| && Shape(cs[m]) && PrisOk(cs[m]) && Does(cs[m], st[m], cs[m + 1])
    ensures st[m].Some? ==> SchedMove(cs[m], st[m].value, cs[m + 1])
  {
    hide NextStep, Trace, Run, AccountsOk, Safe, PrisOk, SchedMove;
    TraceStep(cs, st, m);
    var tr, x := TraceState(cs, st, m);
    RunPris(tr, x);
    RunAccounts(tr, x);
    AccountsCount(cs[m]);
    if st[m].Some? { NextSched(cs[m], st[m].value, cs[m + 1]); }
  }

  lemma AccountsCount(s: State)
    requires Shape(s) && AccountsOk(s)
    ensures CountsOk(s)
  {
    hide CountsOk, BillsOk, DispatchBalance;
  }

  /** After its dispatch at tick t a slot is fresh, and stays so until kkill wakes it. */
  lemma {:induction false} StaysFresh(cs: seq<State>, st: seq<Option<Step>>, q: nat, i: nat, m: nat)
    requires Trace(cs, st) && NoKillWakes(cs, st, q, i, m) && i < m && IsDispatch(st[i], q)
    ensures Fresh(cs[m], q, cs[i].ticks) && cs[i].ticks <= cs[m].ticks
    decreases m
  {
    hide Trace, NextStep, KillWake;
    var x := m - 1;
    TraceSched(cs, st, x);
    if x == i {
      DispatchedNow(cs[i], st[i].value, cs[m]);
    } else {
      StaysFresh(cs, st, q, i, x);
      assert NoKillWake(cs[x], st[x], q);
      if st[x].Some? { assert AgeMove(cs[x], st[x].value, cs[m], q); }
    }
  }

  lemma DispatchedNow(s: State, st: Step, s': State)
    requires NextStep(s, st, s') && st.Dispatch?
    ensures st.q < |s'.procs| && s'.procs[st.q].state.RUNNING? && s'.ticks == s.ticks
  {
    hide BaseStep, TickStep, IrqStep, TimerStep, DeviceStep, SwtchStep;
  }

  /** While p is RUNNABLE its age_start does not move. */
  lemma {:induction false} AgeFixed(cs: seq<State>, st: seq<Option<Step>>, p: nat, i: nat, m: nat)
    requires Trace(cs, st) && Waits(cs, p, i, m)
    ensures AgeOf(cs[m], p) == AgeOf(cs[i], p) && cs[i].ticks <= cs[m].ticks
    decreases m
  {
    hide Trace, NextStep;
    if i < m {
      var x := m - 1;
      TraceLength(cs, st);
      TraceSched(cs, st, x);
      AgeFixed(cs, st, p, i, x);
      assert StillWaits(cs[x], p) && StillWaits(cs[m], p);
      if st[x].Some? { assert AgeMove(cs[x], st[x].value, cs[m], p); }
    }
  }

  lemma TraceLength(cs: seq<State>, st: seq<Option<Step>>)
    requires Trace(cs, st)
    ensures |cs| == |st| + 1
  {
    hide Init, Does;
  }

  /** A slot chosen ahead of an older one has waited 500 ticks itself. */
  lemma ChosenWaitedLong(s: State, p: nat, q: nat)
    requires Shape(s) && PrisOk(s) && Selected(s, q)
    requires p < |s.procs| && s.procs[p].state.RUNNABLE? && s.procs[p].ready.Yes? && s.procs[q].ready.Yes?
    requires s.procs[p].age < s.procs[q].age && s.ticks - s.procs[p].age <= Aging.LONGEST_WAIT
    ensures s.procs[q].age + 500 <= s.ticks
  {
    assert PriOk(s.procs[p], s.ticks) && PriOk(s.procs[q], s.ticks);
    Aging.OlderIsMoreUrgent(s.ticks, s.procs[p].age, s.procs[q].age);
  }

  lemma RunnableReady(cs: seq<State>, st: seq<Option<Step>>, m: nat, p: nat)
    requires Trace(cs, st) && m < |cs| && Shape(cs[m]) && p < |cs[m].procs| && cs[m].procs[p].state.RUNNABLE?
    ensures cs[m].procs[p].ready.Yes?
  {
    hide Trace, Run, Safe, BillsOk, DispatchBalance;
    var tr, x := TraceState(cs, st, m);
    RunAccounts(tr, x);
    assert CountOk(cs[m].procs[p], cs[m].threads[p]);
  }

  /** If the slot dispatched at i is again the choice at m, ahead of a process that had waited
      a tick at i, then at least 500 ticks lie between. */
  lemma ChosenAgain(cs: seq<State>, st: seq<Option<Step>>, p: nat, q: nat, i: nat, m: nat)
    requires Trace(cs, st) && Waits(cs, p, i, m) && i < m < |st|
    requires IsDispatch(st[i], q) && Selected(cs[m], q)
    requires NoKillWakes(cs, st, q, i, m)
    requires AgeOf(cs[i], p) < cs[i].ticks && cs[m].ticks - AgeOf(cs[i], p) <= Aging.LONGEST_WAIT
    ensures cs[i].ticks + 500 <= cs[m].ticks
  {
    hide Trace, NextStep, SchedMove, PrisOk, NoKillWakes;
    AgeFixed(cs, st, p, i, m);
    StaysFresh(cs, st, q, i, m);
    TraceSched(cs, st, m);
    assert StillWaits(cs[i], p) && StillWaits(cs[m], p);
    RunnableReady(cs, st, m, p);
    RunnableReady(cs, st, m, q);
    ChosenWaitedLong(cs[m], p, q);
  }

  /** The slots dispatched by the steps from i to j, in order. */
  function DispatchedIn(st: seq<Option<Step>>, i: nat, j: nat): seq<nat>
    requires i <= j <= |st|
    decreases j
  {
    if i == j then []
    else
      var x := st[j - 1];
      DispatchedIn(st, i, j - 1) + if x.Some? && x.value.Dispatch? then [x.value.q] else []
  }

  lemma {:induction false} DispatchedWhen(st: seq<Option<Step>>, i: nat, j: nat, x: nat) returns (m: nat)
    requires i <= j <= |st| && x < |DispatchedIn(st, i, j)|
    ensures i <= m < j && IsDispatch(st[m], DispatchedIn(st, i, j)[x]) && |DispatchedIn(st, i, m)| == x
    decreases j
  {
    if x < |DispatchedIn(st, i, j - 1)| { m := DispatchedWhen(st, i, j - 1, x); } else { m := j - 1; }
  }

  /** The dispatch of q, if the step is one, is an undisturbed scan's choice. */
  ghost predicate WellChosen(s: State, st: Option<Step>) {
    st.Some? && st.value.Dispatch? ==> Selected(s, st.value.q)
  }

  /** From state i to state j every dispatch is well chosen and kkill wakes nobody. */
  ghost predicate FairSpan(cs: seq<State>, st: seq<Option<Step>>, i: nat, j: nat) {
    && i <= j <= |st| && j < |cs|
    && (forall m {:trigger WellChosen(cs[m], st[m])} :: i <= m < j ==> WellChosen(cs[m], st[m]))
    && (forall m, q {:trigger NoKillWake(cs[m], st[m], q)} :: i <= m < j && 0 <= q ==> NoKillWake(cs[m], st[m], q))
  }

  /** In any span of fewer than 500 ticks at most NPROC - 1 dispatches precede a process that
      has waited a tick. */
  lemma FewDispatches(cs: seq<State>, st: seq<Option<Step>>, p: nat, i: nat, j: nat)
    requires Trace(cs, st) && Waits(cs, p, i, j) && FairSpan(cs, st, i, j)
    requires AgeOf(cs[i], p) < cs[i].ticks && cs[j].ticks < cs[i].ticks + 500
    requires cs[j].ticks - AgeOf(cs[i], p) <= Aging.LONGEST_WAIT
    ensures |DispatchedIn(st, i, j)| <= |cs[i].procs| - 1
  {
    hide Trace, NextStep, SchedMove, PrisOk, WellChosen, FairSpan, Waits;
    WaitsHere(cs, st, p, i, j);
    var a, n := DispatchedIn(st, i, j), |cs[i].procs|;
    forall x, y | 0 <= x < y < |a| ensures a[x] != a[y] {
      var l := DispatchedWhen(st, i, j, x);
      var m := DispatchedWhen(st, i, j, y);
      InOrder(st, i, l, m);
      NotTwice(cs, st, p, i, j, l, m, a[x], a[y]);
    }
    var others := Below(n) - {p};
    BelowIs(n);
    forall x | 0 <= x < |a| ensures a[x] in others {
      var m := DispatchedWhen(st, i, j, x);
      AnotherSlot(cs, st, p, i, j, m, a[x]);
    }
    DistinctFit(a, others);
  }

  lemma WaitsHere(cs: seq<State>, st: seq<Option<Step>>, p: nat, i: nat, j: nat)
    requires Waits(cs, p, i, j) && FairSpan(cs, st, i, j)
    ensures i <= j <= |st| && j < |cs| && p < |cs[i].procs|
  {
    hide WellChosen, NoKillWake;
    assert StillWaits(cs[i], p);
  }

  lemma NotTwice(cs: seq<State>, st: seq<Option<Step>>, p: nat, i: nat, j: nat, l: nat, m: nat, q: nat, r: nat)
    requires Trace(cs, st) && Waits(cs, p, i, j) && FairSpan(cs, st, i, j) && i <= l < m < j
    requires IsDispatch(st[l], q) && IsDispatch(st[m], r)
    requires AgeOf(cs[i], p) < cs[i].ticks && cs[j].ticks < cs[i].ticks + 500
    requires cs[j].ticks - AgeOf(cs[i], p) <= Aging.LONGEST_WAIT
    ensures q != r
  {
    hide Trace, NextStep, Selected, KillWake;
    TraceLength(cs, st);
    assert Waits(cs, p, i, l) && Waits(cs, p, l, m) && Waits(cs, p, m, j);
    AgeFixed(cs, st, p, i, l);
    AgeFixed(cs, st, p, l, m);
    AgeFixed(cs, st, p, m, j);
    if q == r {
      assert WellChosen(cs[m], st[m]);
      assert NoKillWakes(cs, st, q, l, m);
      ChosenAgain(cs, st, p, q, l, m);
    }
  }

  lemma {:induction false} InOrder(st: seq<Option<Step>>, i: nat, l: nat, m: nat)
    requires i <= l <= |st| && i <= m <= |st| && |DispatchedIn(st, i, l)| < |DispatchedIn(st, i, m)|
    ensures l < m
    decreases l
  {
    if m <= l { DispatchedGrows(st, i, m, l); }
  }

  lemma {:induction false} DispatchedGrows(st: seq<Option<Step>>, i: nat, m: nat, l: nat)
    requires i <= m <= l <= |st|
    ensures |DispatchedIn(st, i, m)| <= |DispatchedIn(st, i, l)|
    decreases l
  {
    if m < l { DispatchedGrows(st, i, m, l - 1); }
  }

  /** A dispatch ahead of p is of another slot of the table. */
  lemma AnotherSlot(cs: seq<State>, st: seq<Option<Step>>, p: nat, i: nat, j: nat, m: nat, q: nat)
    requires Trace(cs, st) && Waits(cs, p, i, j) && i <= m < j && m < |st| && IsDispatch(st[m], q)
    ensures q != p && q < |cs[i].procs|
  {
    hide Trace, SchedMove, PrisOk;
    TraceSched(cs, st, m);
    var n := m + 1;
    DispatchedNow(cs[m], st[m].value, cs[n]);
    assert StillWaits(cs[n], p);
    SameTable(cs, st, i, n);
  }

  lemma {:induction false} SameTable(cs: seq<State>, st: seq<Option<Step>>, i: nat, m: nat)
    requires Trace(cs, st) && i <= m < |cs|
    ensures |cs[m].procs| == |cs[i].procs|
    decreases m
  {
    hide Trace, PrisOk, NextStep, AgeMove;
    if i < m {
      SameTable(cs, st, i, m - 1);
      TraceLength(cs, st);
      TraceSched(cs, st, m - 1);
    }
  }
}
