/**
 Accounting: nswtch counts dispatches exactly, and rtime never exceeds the timer
 interrupts that happened.
 */
module KernelCounts {
  import opened Kernel
  import opened KernelLocks
  import opened KernelSafe
  import opened KernelTree

  // ---------- Sums over slots ----------

  function Total(a: seq<nat>): nat {
    if a == [] then 0 else a[0] + Total(a[1..])
  }

  /** If entry x grows by at most d and no other entry grows, the total grows by at most d. */
  lemma {:induction false} TotalGrows(a: seq<nat>, b: seq<nat>, x: nat, d: int)
    requires |a| == |b| && x < |a|
    requires b[x] <= a[x] + d
    requires forall p :: 0 <= p < |a| && p != x ==> b[p] <= a[p]
    ensures Total(b) <= Total(a) + d
  {
    if x > 0 {
      TotalGrows(a[1..], b[1..], x - 1, d);
    } else {
      TotalNoMore(a[1..], b[1..]);
    }
  }

  lemma {:induction false} TotalNoMore(a: seq<nat>, b: seq<nat>)
    requires |a| == |b|
    requires forall p :: 0 <= p < |a| ==> b[p] <= a[p]
    ensures Total(b) <= Total(a)
  {
    if a != [] { TotalNoMore(a[1..], b[1..]); }
  }

  /** The same with equality. */
  lemma TotalChanges(a: seq<nat>, b: seq<nat>, x: nat, d: int)
    requires |a| == |b| && x < |a|
    requires b[x] == a[x] + d
    requires forall p :: 0 <= p < |a| && p != x ==> b[p] == a[p]
    ensures Total(b) == Total(a) + d
  {
    TotalGrows(a, b, x, d);
    TotalGrows(b, a, x, -d);
  }

  // ---------- Per-slot facts ----------

  /** Dispatched and not yet counted by sched. */
  predicate InFlight(th: Thread) { th.on.Some? && !AtSwtch(th) }

  predicate CountOk(pr: Proc, th: Thread) {
    && (Live(pr.state) || pr.state.ZOMBIE? ==> pr.ready.Yes?)
    && (pr.state.UNUSED? ==> pr.ready.No?)
    && (pr.ready.Yes? ==> pr.disp == pr.nswtch + if InFlight(th) then 1 else 0)
  }

  ghost predicate CountsOk(s: State)
    requires Shape(s)
  {
    forall p {:trigger s.procs[p]} {:trigger s.threads[p]} :: 0 <= p < |s.procs| ==> CountOk(s.procs[p], s.threads[p])
  }

  ghost function Dispatches(s: State): seq<nat> {
    seq(|s.procs|, p requires 0 <= p < |s.procs| => if s.procs[p].ready.Yes? then s.procs[p].disp else 0)
  }

  ghost function Switches(s: State): seq<nat> {
    seq(|s.procs|, p requires 0 <= p < |s.procs| => if s.procs[p].ready.Yes? then s.procs[p].nswtch else 0)
  }

  ghost function Flights(s: State): seq<nat>
    requires Shape(s)
  {
    seq(|s.procs|, p requires 0 <= p < |s.procs| => if s.procs[p].ready.Yes? && InFlight(s.threads[p]) then 1 else 0)
  }

  ghost predicate DispatchBalance(s: State)
    requires Shape(s)
  {
    && s.hist.dispatches == s.hist.goneDisp + Total(Dispatches(s))
    && s.hist.goneDisp == s.hist.goneSwitch
  }

  // ---------- Steps of a process ----------

  /** How a step relates to the counters. */
  predicate CountMove(th: Thread, me: nat, op: Op, th': Thread) {
    && (op.Switch? ==> op.q == me && !AtSwtch(th) && AtSwtch(th'))
    && (!op.Switch? ==> AtSwtch(th) == AtSwtch(th'))
    && (op.Free? ==> th.tick.TNone? && !th.base.InExit?)
    && th'.on == th.on
  }

  lemma BaseCountMove(s: State, me: nat, op: Op, pc': Pc)
    requires Shape(s) && me < |s.procs| && s.threads[me].tick.TNone? && BaseCode(s, me, s.threads[me].base, op, pc')
    ensures CountMove(s.threads[me], me, op, s.threads[me].(base := pc'))
  {
    hide StillPausing, WakeCode, SleepCode, ExitCode;
    var pc := s.threads[me].base;
    if pc.InSleep? { SleepCountMove(s, me, op, pc'); }
    else if pc.InExit? { ExitCountMove(s, me, op, pc'); }
  }

  lemma SleepCountMove(s: State, me: nat, op: Op, pc': Pc)
    requires Shape(s) && me < |s.procs| && s.threads[me].tick.TNone?
    requires s.threads[me].base.InSleep? && SleepCode(s, me, s.threads[me].base, op, pc')
    ensures CountMove(s.threads[me], me, op, s.threads[me].(base := pc'))
  {
  }

  lemma ExitCountMove(s: State, me: nat, op: Op, pc': Pc)
    requires Shape(s) && me < |s.procs| && s.threads[me].tick.TNone?
    requires s.threads[me].base.InExit? && ExitCode(s, me, s.threads[me].base, op, pc')
    ensures CountMove(s.threads[me], me, op, s.threads[me].(base := pc'))
  {
  }

  lemma BaseCount(s: State, k: nat, me: nat, op: Op, s': State, th': Thread, p: nat)
    requires Safe(s) && TreeStep(s, k, me, op, s') && Stepped(s, me, op, th', s')
        && CountMove(s.threads[me], me, op, th')
    requires CountsOk(s) && p < |s.procs| && s.threads[me].on.Some?
    ensures CountOk(s'.procs[p], s'.threads[p])
  {
    hide RunOk, QuietOk, LockOk, GlobalLockOk, ForkOk, StateOk, InFlight, SlotOk;
    assert CountOk(s.procs[p], s.threads[p]);
    UsedReady(s, me);
    SavedFlight(s, p);
    FlightAfter(s, me, op, s', th', p);
  }

  lemma SavedFlight(s: State, p: nat)
    requires Shape(s) && StateOk(s) && p < |s.procs|
    ensures s.procs[p].state.USED? || s.procs[p].state.UNUSED? || s.threads[p].on.None? ==> !InFlight(s.threads[p])
  {
    SlotStays(s, p);
    StateAtLive(s.threads[p]);
  }

  lemma FlightAfter(s: State, me: nat, op: Op, s': State, th': Thread, p: nat)
    requires Stepped(s, me, op, th', s') && CountMove(s.threads[me], me, op, th') && p < |s.procs|
        && s.threads[me].on.Some?
    requires op.Spawn? ==> op.q != me
    ensures InFlight(s'.threads[p]) == (InFlight(s.threads[p]) && op != Switch(p) && op != Spawn(p))
    ensures op == Switch(p) ==> InFlight(s.threads[p])
  {
  }

  /** A slot that kfork makes RUNNABLE has its counters. */
  lemma UsedReady(s: State, me: nat)
    requires Safe(s) && me < |s.procs|
    ensures IsFork(s.threads[me].base, ForkHeld) ==>
      s.threads[me].base.i < |s.procs| && s.procs[s.threads[me].base.i].ready.Yes?
    ensures IsFork(s.threads[me].base, AllocMem) ==>
      s.threads[me].base.i < |s.procs| && s.threads[s.threads[me].base.i].on.None?
    ensures IsFork(s.threads[me].base, AllocInit) ==>
      s.threads[me].base.i < |s.procs| && s.procs[s.threads[me].base.i].ready.No?
          && s.threads[s.threads[me].base.i].on.None?
  {
    hide RunOk, QuietOk, LockOk, GlobalLockOk, StateOk;
    if ForkSlot(s.threads[me].base).Some? { OwnKnown(s, me); }
  }

  // ---------- The other steps ----------

  /** Slots keep their counters; threads keep their place with respect to sched. */
  ghost predicate CountFrame(s: State, s': State) {
    && Shape(s) && Shape(s') && |s'.procs| == |s.procs|
    && (forall p {:trigger s'.procs[p]} :: 0 <= p < |s.procs| ==>
          && s'.procs[p].ready == s.procs[p].ready && s'.procs[p].disp == s.procs[p].disp
              && s'.procs[p].nswtch == s.procs[p].nswtch
          && SameClass(s.procs[p].state, s'.procs[p].state))
    && (forall p {:trigger s'.threads[p]} :: 0 <= p < |s.procs| ==> InFlight(s'.threads[p]) == InFlight(s.threads[p]))
  }

  lemma FrameCounts(s: State, s': State)
    requires CountFrame(s, s') && CountsOk(s)
    ensures CountsOk(s')
  {
    hide InFlight;
    forall p | 0 <= p < |s'.procs| ensures CountOk(s'.procs[p], s'.threads[p]) {
      assert CountOk(s.procs[p], s.threads[p]);
    }
  }

  lemma IrqCounts(s: State, k: nat, op: Op, irq': Irq, s': State)
    requires Wrote(s, INIT, op, s') && IrqFrame(s, k, irq', s') && RunOk(s) && QuietOk(s) && !s.cpus[k].irq.INone?
    requires forall p {:trigger s'.threads[p]} :: 0 <= p < |s.procs| ==>
        s'.threads[p].tick == s.threads[p].tick || s'.threads[p].tick.TUpdAcq?
    requires HandlerOp(s, op)
    ensures CountFrame(s, s')
  {
    hide Changed, RunOk, QuietOk, InFlight, Wrote;
    forall p | 0 <= p < |s.procs| ensures InFlight(s'.threads[p]) == InFlight(s.threads[p]) {
      IrqFlight(s, k, irq', s', p);
    }
    forall p | 0 <= p < |s.procs|
      ensures s'.procs[p].ready == s.procs[p].ready && s'.procs[p].disp == s.procs[p].disp
          && s'.procs[p].nswtch == s.procs[p].nswtch
      ensures SameClass(s.procs[p].state, s'.procs[p].state)
    {
      HandlerWrites(s, op, s', p);
    }
  }

  /** The operations of an interrupt handler. */
  ghost predicate HandlerOp(s: State, op: Op)
    requires Shape(s)
  {
    && (WakeOp(op) || op.AcqT? || op.RelT? || op.Tick?)
    && (op.Ready? ==> op.q < |s.procs| && s.procs[op.q].state.SLEEPING?)
  }

  lemma HandlerWrites(s: State, op: Op, s': State, p: nat)
    requires Wrote(s, INIT, op, s') && HandlerOp(s, op) && p < |s.procs|
    ensures s'.procs[p].ready == s.procs[p].ready && s'.procs[p].disp == s.procs[p].disp
        && s'.procs[p].nswtch == s.procs[p].nswtch
    ensures s'.procs[p].rtime == s.procs[p].rtime && s'.procs[p].ctime == s.procs[p].ctime
    ensures SameClass(s.procs[p].state, s'.procs[p].state)
  {
  }

  lemma IrqFlight(s: State, k: nat, irq': Irq, s': State, p: nat)
    requires IrqFrame(s, k, irq', s') && RunOk(s) && QuietOk(s) && !s.cpus[k].irq.INone? && p < |s.procs|
    requires s'.threads[p].tick == s.threads[p].tick || s'.threads[p].tick.TUpdAcq?
    ensures InFlight(s'.threads[p]) == InFlight(s.threads[p])
  {
  }

  lemma ArrivalCounts(s: State, k: nat, s': State)
    requires Arrival(s, k, s')
    ensures CountFrame(s, s')
  {
  }

  lemma DispatchCounts(s: State, k: nat, q: nat, s': State)
    requires DispatchStep(s, k, q, s') && CountsOk(s)
    requires s.threads[q].on.None? && Resumable(s.threads[q])
    ensures Shape(s') && CountsOk(s')
  {
    forall p | 0 <= p < |s'.procs| ensures CountOk(s'.procs[p], s'.threads[p]) {
      assert CountOk(s.procs[p], s.threads[p]);
    }
  }

  // ---------- The balance of dispatches ----------

  lemma SameDispatches(s: State, s': State)
    requires CountFrame(s, s')
    ensures Dispatches(s') == Dispatches(s)
  {
    hide InFlight;
    assert |Dispatches(s')| == |Dispatches(s)|;
    forall p | 0 <= p < |s.procs| ensures Dispatches(s')[p] == Dispatches(s)[p] {
      assert s'.procs[p].ready == s.procs[p].ready;
    }
  }

  lemma DispatchAdds(s: State, k: nat, q: nat, s': State)
    requires DispatchStep(s, k, q, s') && CountsOk(s) && DispatchBalance(s)
    ensures Shape(s') && DispatchBalance(s')
  {
    assert CountOk(s.procs[q], s.threads[q]);
    TotalChanges(Dispatches(s), Dispatches(s'), q, 1);
  }

  lemma BaseBalance(s: State, k: nat, me: nat, op: Op, s': State, th': Thread)
    requires Safe(s) && CountsOk(s) && DispatchBalance(s) && HistStep(s, op, s') && Running(s, k, me)
    requires TreeStep(s, k, me, op, s') && CountMove(s.threads[me], me, op, th')
    ensures Shape(s') && DispatchBalance(s')
  {
    hide RunOk, QuietOk, LockOk, GlobalLockOk, ForkOk, StateOk, Changed, Permitted, ForkOwned, TreeMove, CountsOk;
    if op.Free? { FreedCounts(s, k, me, op, s', th'); }
    var a, b := Dispatches(s), Dispatches(s');
    var q := if op.Free? then op.q else me;
    DispatchesAfter(s, k, me, op, s', q);
    forall p | 0 <= p < |a| && p != q ensures b[p] == a[p] { DispatchesAfter(s, k, me, op, s', p); }
    TotalChanges(a, b, q, if op.Free? then -(a[q] as int) else 0);
  }

  /** Only freeproc moves counters to the history. */
  ghost predicate HistStep(s: State, op: Op, s': State)
    requires Shape(s)
  {
    && (op.Free? ==> op.q < |s.procs|)
    && s'.hist == if op.Free? then FreedHist(s.hist, s.procs[op.q]) else s.hist
  }

  lemma BaseHist(s: State, k: nat, me: nat, op: Op, pc': Pc, s': State)
    requires BaseEffect(s, k, me, op, pc', s')
    ensures HistStep(s, op, s')
  {
    hide Changed, FreedHist;
  }

  lemma TickHist(s: State, k: nat, me: nat, op: Op, pc': TickPc, s': State)
    requires TickEffect(s, k, me, op, pc', s') && !op.Free?
    ensures HistStep(s, op, s')
  {
    hide Changed, FreedHist;
  }

  lemma DispatchesAfter(s: State, k: nat, me: nat, op: Op, s': State, p: nat)
    requires Safe(s) && CountsOk(s) && TreeStep(s, k, me, op, s') && p < |s.procs|
    ensures Dispatches(s')[p] == if op == Free(p) then 0 else Dispatches(s)[p]
  {
    hide RunOk, QuietOk, LockOk, GlobalLockOk, ForkOk, StateOk, TreeMove;
    UsedReady(s, me);
    assert CountOk(s.procs[p], s.threads[p]);
  }

  /** A freed process was switched out as often as it was dispatched. */
  lemma FreedCounts(s: State, k: nat, me: nat, op: Op, s': State, th': Thread)
    requires Safe(s) && CountsOk(s) && TreeStep(s, k, me, op, s') && op.Free?
    requires Running(s, k, me) && CountMove(s.threads[me], me, op, th')
    ensures op.q < |s.procs| && (s.procs[op.q].ready.Yes? ==> s.procs[op.q].disp == s.procs[op.q].nswtch)
  {
    hide GlobalLockOk, ForkOk, TreeMove, LockOk, QuietOk, ForkOwned;
    assert CountOk(s.procs[op.q], s.threads[op.q]);
    SlotStays(s, op.q);
    SlotStays(s, me);
    if s.threads[op.q].on != Some(k) { LockedIsSaved(s, op.q, k); }
  }

  // ---------- Timer interrupts ----------

  /** What pays for a charge: the timer interrupt itself, or the tick it adds on CPU 0. */
  datatype Meter = ByTimer | ByTick

  /** A timer interrupt that the meter has counted is being handled. */
  predicate Due(m: Meter, irq: Irq) {
    irq.IUnlock? || (irq.IWake? && irq.src.Clock?) || (m.ByTimer? && (irq.IClock? || irq.ITick?))
  }

  predicate ToCharge(pc: TickPc) { pc.TUpdAcq? || pc.TUpdHeld? }

  /** One if process p has been interrupted by a counted timer interrupt and is not charged yet. */
  function Owed(m: Meter, s: State, p: nat): nat
    requires p < |s.threads|
  {
    var th := s.threads[p];
    if ToCharge(th.tick) || (th.on.Some? && th.on.value < |s.cpus| && Due(m, s.cpus[th.on.value].irq)) then 1 else 0
  }

  ghost function Bill(m: Meter, s: State, p: nat): nat
    requires Shape(s) && p < |s.procs|
  {
    if s.procs[p].ready.Yes? then s.procs[p].rtime + Owed(m, s, p) else 0
  }

  ghost function Bills(m: Meter, s: State): seq<nat>
    requires Shape(s)
  {
    seq(|s.procs|, p requires 0 <= p < |s.procs| => Bill(m, s, p))
  }

  ghost function Budget(m: Meter, s: State): nat { if m.ByTimer? then s.hist.timers else s.ticks }

  /** All charges are paid for; a process is charged only for ticks since its creation. */
  ghost predicate BillsOk(m: Meter, s: State)
    requires Shape(s)
  {
    && Total(Bills(m, s)) + s.hist.goneRun <= Budget(m, s)
    && (m.ByTick? ==> forall p {:trigger s.procs[p]} :: 0 <= p < |s.procs| && s.procs[p].ready.Yes? ==>
          s.procs[p].ctime + Bill(m, s, p) <= s.ticks)
  }

  /** Slot x may owe d more, for which the budget grows or another bill ends. */
  ghost predicate BillMove(m: Meter, s: State, s': State, x: nat, d: int) {
    && Shape(s) && Shape(s') && |s'.procs| == |s.procs| && x < |s.procs|
    && Bill(m, s', x) <= Bill(m, s, x) + d
    && (forall p {:trigger Bill(m, s', p)} :: 0 <= p < |s.procs| && p != x ==> Bill(m, s', p) <= Bill(m, s, p))
    && s'.hist.goneRun + d <= s.hist.goneRun + Budget(m, s') - Budget(m, s)
    && d <= Budget(m, s') - Budget(m, s) && s.ticks <= s'.ticks
    && (forall p {:trigger s'.procs[p]} :: 0 <= p < |s.procs| && s'.procs[p].ready.Yes? ==>
          || (s.procs[p].ready.Yes? && s'.procs[p].ctime == s.procs[p].ctime)
          || (s'.procs[p].ctime <= s'.ticks && Bill(m, s', p) == 0))
  }

  lemma MovedBills(m: Meter, s: State, s': State, x: nat, d: int)
    requires BillMove(m, s, s', x, d) && BillsOk(m, s)
    ensures BillsOk(m, s')
  {
    hide Bill;
    TotalGrows(Bills(m, s), Bills(m, s'), x, d);
    if m.ByTick? {
      forall p | 0 <= p < |s'.procs| && s'.procs[p].ready.Yes?
        ensures s'.procs[p].ctime + Bill(m, s', p) <= s'.ticks
      {
        assert Bill(m, s', p) <= Bill(m, s, p) + if p == x then d else 0;
      }
    }
  }

  /** The counters change only in allocproc, freeproc and update_process_times. */
  lemma ProcBills(m: Meter, s: State, k: nat, me: nat, op: Op, s': State, th': Thread)
    requires Safe(s) && CountsOk(s) && HistStep(s, op, s') && Running(s, k, me)
    requires TreeStep(s, k, me, op, s') && Stepped(s, me, op, th', s') && th'.on == s.threads[me].on
    requires op.Charge? ==> op.q == me && s.threads[me].tick.TUpdHeld?
    requires ToCharge(th'.tick) ==> ToCharge(s.threads[me].tick) && !op.Charge?
    requires !op.Tick?
    ensures BillMove(m, s, s', if op.Free? then op.q else me, if op.Free? then -(Bill(m, s, op.q) as int) else 0)
  {
    hide Safe, CountsOk, TreeMove, SlotOk, Changed, Bill, Permitted, ForkOwned;
    forall p | 0 <= p < |s.procs|
      ensures Bill(m, s', p) <= if op == Free(p) then 0 else Bill(m, s, p)
      ensures s'.procs[p].ready.Yes? ==>
          || (s.procs[p].ready.Yes? && s'.procs[p].ctime == s.procs[p].ctime)
          || (s'.procs[p].ctime <= s'.ticks && Bill(m, s', p) == 0)
    {
      BillAfter(m, s, k, me, op, s', th', p);
    }
    if op.Free? { FreedBill(m, s, op.q); }
  }

  lemma FreedBill(m: Meter, s: State, p: nat)
    requires Shape(s) && p < |s.procs|
    ensures FreedHist(s.hist, s.procs[p]).goneRun <= s.hist.goneRun + Bill(m, s, p)
  {
  }

  lemma BillAfter(m: Meter, s: State, k: nat, me: nat, op: Op, s': State, th': Thread, p: nat)
    requires Safe(s) && CountsOk(s) && Running(s, k, me) && p < |s.procs|
    requires TreeStep(s, k, me, op, s') && Stepped(s, me, op, th', s') && th'.on == s.threads[me].on
    requires op.Charge? ==> op.q == me && s.threads[me].tick.TUpdHeld?
    requires ToCharge(th'.tick) ==> ToCharge(s.threads[me].tick) && !op.Charge?
    ensures Bill(m, s', p) <= if op == Free(p) then 0 else Bill(m, s, p)
    ensures s'.procs[p].ready.Yes? ==>
          || (s.procs[p].ready.Yes? && s'.procs[p].ctime == s.procs[p].ctime)
          || (s'.procs[p].ctime <= s'.ticks && Bill(m, s', p) == 0)
  {
    hide Safe, TreeMove, Owed, ForkOwned, Permitted, CountsOk;
    OwedAfter(m, s, k, me, op, s', th', p);
  }

  lemma OwedAfter(m: Meter, s: State, k: nat, me: nat, op: Op, s': State, th': Thread, p: nat)
    requires Safe(s) && Running(s, k, me) && p < |s.procs|
    requires TreeStep(s, k, me, op, s') && Stepped(s, me, op, th', s') && th'.on == s.threads[me].on
    requires op.Charge? ==> op.q == me && s.threads[me].tick.TUpdHeld?
    requires ToCharge(th'.tick) ==> ToCharge(s.threads[me].tick) && !op.Charge?
    ensures Owed(m, s', p) <= Owed(m, s, p) && (op == Charge(p) ==> Owed(m, s, p) == 1 && Owed(m, s', p) == 0)
    ensures op == InitCounters(p) ==> Owed(m, s', p) == 0
  {
    hide LockOk, GlobalLockOk, StateOk, ForkOk, QuietOk, TreeMove, ForkOwned, Changed, StateAt;
    SlotStays(s, p);
    StateAtLive(s.threads[p]);
  }

  /** Any other step: counters stay, and only an arriving timer interrupt or a tick is new. */
  ghost predicate MeterFrame(s: State, s': State) {
    && Shape(s) && Shape(s') && |s'.procs| == |s.procs|
    && forall p {:trigger s'.procs[p]} :: 0 <= p < |s.procs| ==>
         && s'.procs[p].ready == s.procs[p].ready && s'.procs[p].ctime == s.procs[p].ctime
             && s'.procs[p].rtime == s.procs[p].rtime
  }

  lemma FrameBills(m: Meter, s: State, s': State, x: nat, d: nat)
    requires MeterFrame(s, s') && x < |s.procs|
    requires forall p {:trigger Owed(m, s', p)} :: 0 <= p < |s.procs| ==>
        Owed(m, s', p) <= Owed(m, s, p) + if p == x then d else 0
    requires s'.hist.goneRun == s.hist.goneRun && s.ticks <= s'.ticks
    requires Budget(m, s) + d <= Budget(m, s')
    ensures BillMove(m, s, s', x, d)
  {
    hide Owed, Budget;
  }

  /** The slot that CPU k executes, if any. */
  ghost function Victim(s: State, k: nat): nat
    requires k < |s.cpus|
  {
    if s.cpus[k].spc.SRun? then s.cpus[k].spc.p else INIT
  }

  /** After a handler step process p owes no more, unless it is the process interrupted
      when the meter counts. */
  lemma IrqOwed(m: Meter, s: State, k: nat, irq': Irq, s': State, p: nat)
    requires IrqFrame(s, k, irq', s') && RunOk(s) && QuietOk(s) && !s.cpus[k].irq.INone? && p < |s.procs|
    requires s'.threads[p].tick == s.threads[p].tick || (s'.threads[p].tick.TUpdAcq? && s.cpus[k].irq.IUnlock?)
    requires Due(m, irq') ==> Due(m, s.cpus[k].irq) || (m.ByTick? && s.cpus[k].irq.ITick?)
    ensures Owed(m, s', p) <= Owed(m, s, p) + if p == Victim(s, k) && m.ByTick? && s.cpus[k].irq.ITick? then 1 else 0
  {
    hide Quiet;
  }

  lemma IrqDue(m: Meter, s: State, mine: Option<nat>, pc: Irq, op: Op, pc': Irq)
    requires IrqCode(s, mine, pc, op, pc')
    ensures Due(m, pc') ==> Due(m, pc) || (m.ByTick? && pc.ITick?)
    ensures pc.ITick? <==> op.Tick?
  {
  }

  lemma IrqEnds(s: State, k: nat, op: Op, irq': Irq, end: TickEnd, s': State)
    requires IrqEffect(s, k, op, irq', end, s') && !op.Spawn? && !op.Free?
    ensures Shape(s') && |s'.procs| == |s.procs| && s'.hist == s.hist.(hits := s'.hist.hits)
        && s'.ticks == (if op.Tick? then s.ticks + 1 else s.ticks)
    ensures forall p {:trigger s'.threads[p]} :: 0 <= p < |s.procs| ==>
      s'.threads[p].tick == s.threads[p].tick || (s'.threads[p].tick.TUpdAcq? && s.cpus[k].irq.IUnlock?)
  {
    hide Changed;
  }

  lemma IrqBills(m: Meter, s: State, k: nat, op: Op, irq': Irq, end: TickEnd, s': State)
    requires Safe(s) && IrqStep(s, k, op, irq', end, s')
    ensures BillMove(m, s, s', Victim(s, k), if m.ByTick? && op.Tick? then 1 else 0)
    ensures CountFrame(s, s') && s'.hist == s.hist.(hits := s'.hist.hits)
  {
    hide LockOk, GlobalLockOk, StateOk, ForkOk, QuietOk, RunOk, Owed, Due, CountFrame, IrqEffect, IrqCode, ChargeChoice,
        Wrote, Permitted, IrqFrame, Changed;
    IrqRunning(s, k, op, irq', end, s');
    IrqPermitted(s, k, op, irq');
    IrqWrites(s, k, op, irq', end, s');
    IrqEnds(s, k, op, irq', end, s');
    IrqDue(m, s, s.cpus[k].cproc, s.cpus[k].irq, op, irq');
    IrqCounts(s, k, op, irq', s');
    VictimIn(s, k);
    forall p | 0 <= p < |s.procs|
      ensures Owed(m, s', p) <= Owed(m, s, p) + if p == Victim(s, k) && m.ByTick? && s.cpus[k].irq.ITick? then 1 else 0
      ensures s'.procs[p].ready == s.procs[p].ready && s'.procs[p].ctime == s.procs[p].ctime
          && s'.procs[p].rtime == s.procs[p].rtime
    {
      IrqOwed(m, s, k, irq', s', p);
      HandlerWrites(s, op, s', p);
    }
    FrameBills(m, s, s', Victim(s, k), if m.ByTick? && op.Tick? then 1 else 0);
  }

  lemma VictimIn(s: State, k: nat)
    requires Shape(s) && k < |s.cpus| && RunOk(s)
    ensures Victim(s, k) < |s.procs|
  {
  }

  lemma TimerBills(m: Meter, s: State, k: nat, end: TickEnd, s': State)
    requires Safe(s) && TimerStep(s, k, end, s') && (m.ByTick? ==> |s.cpus| == 1)
    ensures BillMove(m, s, s', Victim(s, k), if m.ByTimer? then 1 else 0)
  {
    hide LockOk, GlobalLockOk, StateOk, ForkOk, QuietOk, Quiet, ChargeChoice;
    VictimIn(s, k);
    forall p | 0 <= p < |s.procs|
      ensures Owed(m, s', p) <= Owed(m, s, p) + if p == Victim(s, k) && m.ByTimer? then 1 else 0
    {
    }
    FrameBills(m, s, s', Victim(s, k), if m.ByTimer? then 1 else 0);
  }

  /** Nothing else adds to what a process owes. */
  lemma SchedBills(m: Meter, s: State, st: Step, s': State)
    requires Safe(s) && Shape(s') && NextStep(s, st, s')
    requires !st.BaseGo? && !st.TickGo? && !st.IrqGo? && !st.TimerStart?
    ensures BillMove(m, s, s', INIT, 0)
  {
    hide LockOk, GlobalLockOk, StateOk, ForkOk, Quiet, BaseStep, TickStep, IrqStep, TimerStep, Owed;
    forall p | 0 <= p < |s.procs|
      ensures Owed(m, s', p) <= Owed(m, s, p)
    {
      SchedOwed(m, s, st, s', p);
    }
    FrameBills(m, s, s', INIT, 0);
  }

  lemma SchedOwed(m: Meter, s: State, st: Step, s': State, p: nat)
    requires Safe(s) && Shape(s') && NextStep(s, st, s') && p < |s.procs| == |s'.procs|
    requires !st.BaseGo? && !st.TickGo? && !st.IrqGo? && !st.TimerStart?
    ensures Owed(m, s', p) <= Owed(m, s, p)
  {
    hide LockOk, GlobalLockOk, StateOk, ForkOk, Quiet, BaseStep, TickStep, IrqStep, TimerStep;
  }

  // ---------- All steps, all runs ----------

  /** The accounting invariant; the second meter makes sense on one CPU only. */
  ghost predicate AccountsOk(s: State)
    requires Shape(s)
  {
    && CountsOk(s) && DispatchBalance(s)
    && BillsOk(ByTimer, s)
    && (|s.cpus| == 1 ==> BillsOk(ByTick, s))
  }

  lemma BillsMoved(s: State, s': State, x: nat, d: int, x2: nat, d2: int)
    requires Shape(s) && AccountsOk(s) && |s'.cpus| == |s.cpus|
    requires BillMove(ByTimer, s, s', x, d) && (|s.cpus| == 1 ==> BillMove(ByTick, s, s', x2, d2))
    ensures BillsOk(ByTimer, s') && (|s'.cpus| == 1 ==> BillsOk(ByTick, s'))
  {
    hide BillMove, BillsOk;
    BillShape(ByTimer, s, s', x, d);
    MovedBills(ByTimer, s, s', x, d);
    if |s.cpus| == 1 { MovedBills(ByTick, s, s', x2, d2); }
  }

  lemma BillShape(m: Meter, s: State, s': State, x: nat, d: int)
    requires BillMove(m, s, s', x, d)
    ensures Shape(s')
  {
    hide Bill;
  }

  lemma SameBalance(s: State, s': State)
    requires CountFrame(s, s') && DispatchBalance(s)
    requires s'.hist.dispatches == s.hist.dispatches && s'.hist.goneDisp == s.hist.goneDisp
        && s'.hist.goneSwitch == s.hist.goneSwitch
    ensures DispatchBalance(s')
  {
    SameDispatches(s, s');
  }

  lemma ProcAccounts(s: State, k: nat, me: nat, op: Op, s': State, th': Thread)
    requires Safe(s) && AccountsOk(s) && HistStep(s, op, s') && Running(s, k, me) && s.threads[me].on.Some?
    requires TreeStep(s, k, me, op, s') && Stepped(s, me, op, th', s') && CountMove(s.threads[me], me, op, th')
    requires op.Charge? ==> op.q == me && s.threads[me].tick.TUpdHeld?
    requires ToCharge(th'.tick) ==> ToCharge(s.threads[me].tick) && !op.Charge?
    requires !op.Tick?
    ensures Shape(s') && AccountsOk(s')
  {
    hide Safe, CountsOk, DispatchBalance, BillsOk, TreeStep, CountOk, AtSwtch, BillMove, FreedHist;
    BaseBalance(s, k, me, op, s', th');
    ProcBills(ByTimer, s, k, me, op, s', th');
    ProcBills(ByTick, s, k, me, op, s', th');
    BillsMoved(s, s', if op.Free? then op.q else me, if op.Free? then -(Bill(ByTimer, s, op.q) as int) else 0,
               if op.Free? then op.q else me, if op.Free? then -(Bill(ByTick, s, op.q) as int) else 0);
    AllCounts(s, k, me, op, s', th');
  }

  lemma AllCounts(s: State, k: nat, me: nat, op: Op, s': State, th': Thread)
    requires Safe(s) && TreeStep(s, k, me, op, s') && Stepped(s, me, op, th', s')
        && CountMove(s.threads[me], me, op, th')
    requires CountsOk(s) && s.threads[me].on.Some?
    ensures Shape(s') && CountsOk(s')
  {
    hide Safe, TreeStep, CountMove, CountOk;
    forall p | 0 <= p < |s'.procs| ensures CountOk(s'.procs[p], s'.threads[p]) { BaseCount(s, k, me, op, s', th', p); }
  }

  lemma LoadedHere(s: State, k: nat, me: nat)
    requires Safe(s) && Running(s, k, me)
    ensures s.threads[me].on.Some?
  {
    hide QuietOk, LockOk, GlobalLockOk, ForkOk, StateOk;
  }

  lemma BaseNoCharge(s: State, me: nat, pc: Pc, op: Op, pc': Pc)
    requires Shape(s) && me < |s.procs| && BaseCode(s, me, pc, op, pc')
    ensures !op.Charge? && !op.Tick?
  {
    hide StillPausing;
  }

  lemma BaseAccounts(s: State, k: nat, op: Op, pc': Pc, s': State)
    requires Safe(s) && AccountsOk(s) && BaseStep(s, k, op, pc', s')
    ensures Shape(s') && AccountsOk(s')
  {
    hide Safe, AccountsOk, BaseStep, BaseEffect, BaseCode, TreeStep, Stepped, MovesWell, CountMove, HistStep;
    RunningCpu(s, k, op, pc', s');
    var me := s.cpus[k].spc.p;
    BaseFacts(s, k, op, pc', s');
    BaseCountMove(s, me, op, pc');
    BaseHist(s, k, me, op, pc', s');
    BaseNoCharge(s, me, s.threads[me].base, op, pc');
    LoadedHere(s, k, me);
    ProcAccounts(s, k, me, op, s', s.threads[me].(base := pc'));
  }

  lemma TickTreeStep(s: State, k: nat, me: nat, op: Op, pc': TickPc, s': State)
    requires Safe(s) && Running(s, k, me) && !s.threads[me].tick.TNone? && TickCode(s, me, s.threads[me].tick, op, pc')
    requires Wrote(s, me, op, s')
    ensures TreeStep(s, k, me, op, s') && CountMove(s.threads[me], me, op, s.threads[me].(tick := pc'))
  {
    hide LockOk, GlobalLockOk, ForkOk, StateOk, Permitted, Wrote, RunOk;
    TickPermitted(s, k, me, op, pc');
    SlotStays(s, me);
  }

  lemma TickCharges(s: State, me: nat, op: Op, pc': TickPc)
    requires Shape(s) && me < |s.procs| && TickCode(s, me, s.threads[me].tick, op, pc')
    ensures op.Charge? ==> op.q == me && s.threads[me].tick.TUpdHeld?
    ensures ToCharge(pc') ==> ToCharge(s.threads[me].tick) && !op.Charge?
    ensures !op.Free? && !op.Spawn? && !op.Tick?
  {
  }

  lemma TickAccounts(s: State, k: nat, op: Op, pc': TickPc, s': State)
    requires Safe(s) && AccountsOk(s) && TickStep(s, k, op, pc', s')
    ensures Shape(s') && AccountsOk(s')
  {
    hide Safe, AccountsOk, TreeStep, Stepped, Wrote, CountMove, HistStep, TickCode, TickEffect;
    var me := s.cpus[k].spc.p;
    TickRunning(s, k, me, op, pc', s');
    TickCharges(s, me, op, pc');
    TickWrites(s, k, me, op, pc', s');
    TickTreeStep(s, k, me, op, pc', s');
    TickHist(s, k, me, op, pc', s');
    LoadedHere(s, k, me);
    ProcAccounts(s, k, me, op, s', s.threads[me].(tick := pc'));
  }

  lemma TickRunning(s: State, k: nat, me: nat, op: Op, pc': TickPc, s': State)
    requires TickEffect(s, k, me, op, pc', s')
    ensures Running(s, k, me) && !s.threads[me].tick.TNone?
  {
    hide Changed;
  }

  lemma FrameAccounts(s: State, s': State, x: nat, d: int, x2: nat, d2: int)
    requires Shape(s) && AccountsOk(s) && CountFrame(s, s') && |s'.cpus| == |s.cpus|
    requires s'.hist.dispatches == s.hist.dispatches && s'.hist.goneDisp == s.hist.goneDisp
        && s'.hist.goneSwitch == s.hist.goneSwitch
    requires BillMove(ByTimer, s, s', x, d) && (|s.cpus| == 1 ==> BillMove(ByTick, s, s', x2, d2))
    ensures Shape(s') && AccountsOk(s')
  {
    hide CountsOk, DispatchBalance, BillsOk, BillMove, InFlight;
    FrameCounts(s, s');
    SameBalance(s, s');
    BillsMoved(s, s', x, d, x2, d2);
  }

  lemma TimerAccounts(s: State, k: nat, end: TickEnd, s': State)
    requires Safe(s) && AccountsOk(s) && TimerStep(s, k, end, s')
    ensures Shape(s') && AccountsOk(s')
  {
    hide Safe, AccountsOk, CountFrame, BillMove, Quiet, ChargeChoice;
    TimerArrives(s, k, end, s');
    ArrivalCounts(s, k, s');
    TimerBills(ByTimer, s, k, end, s');
    if |s.cpus| == 1 { TimerBills(ByTick, s, k, end, s'); }
    FrameAccounts(s, s', Victim(s, k), 1, Victim(s, k), 0);
  }

  lemma IrqAccounts(s: State, k: nat, op: Op, irq': Irq, end: TickEnd, s': State)
    requires Safe(s) && AccountsOk(s) && IrqStep(s, k, op, irq', end, s')
    ensures Shape(s') && AccountsOk(s')
  {
    hide Safe, AccountsOk, CountFrame, BillMove, IrqEffect, IrqCode, ChargeChoice, IrqFrame, Wrote;
    IrqRunning(s, k, op, irq', end, s');
    IrqBills(ByTimer, s, k, op, irq', end, s');
    IrqBills(ByTick, s, k, op, irq', end, s');
    IrqSize(s, k, op, irq', end, s');
    SafeShape(s);
    FrameAccounts(s, s', Victim(s, k), 0, Victim(s, k), if op.Tick? then 1 else 0);
  }

  lemma IrqSize(s: State, k: nat, op: Op, irq': Irq, end: TickEnd, s': State)
    requires IrqEffect(s, k, op, irq', end, s')
    ensures |s'.cpus| == |s.cpus|
  {
    hide Changed;
  }

  lemma DispatchAccounts(s: State, k: nat, q: nat, s': State)
    requires Safe(s) && AccountsOk(s) && DispatchStep(s, k, q, s')
    ensures Shape(s') && AccountsOk(s')
  {
    hide Safe, CountsOk, BillsOk, BillMove, DispatchBalance, InFlight;
    DispatchFree(s, k, q);
    DispatchCounts(s, k, q, s');
    DispatchAdds(s, k, q, s');
    SchedBills(ByTimer, s, Dispatch(k, q), s');
    SchedBills(ByTick, s, Dispatch(k, q), s');
    BillsMoved(s, s', INIT, 0, INIT, 0);
  }

  lemma SchedAccounts(s: State, st: Step, s': State)
    requires Safe(s) && AccountsOk(s) && NextStep(s, st, s')
    requires st.DeviceStart? || st.SwtchOut? || st.ClearProc? || st.SchedAcq? || st.SchedRel?
    ensures Shape(s') && AccountsOk(s')
  {
    hide Safe, AccountsOk, CountFrame, BillMove, BaseStep, TickStep, IrqStep, TimerStep;
    SchedFrame(s, st, s');
    SchedBills(ByTimer, s, st, s');
    SchedBills(ByTick, s, st, s');
    FrameAccounts(s, s', INIT, 0, INIT, 0);
  }

  lemma SchedFrame(s: State, st: Step, s': State)
    requires NextStep(s, st, s')
    requires st.DeviceStart? || st.SwtchOut? || st.ClearProc? || st.SchedAcq? || st.SchedRel?
    ensures Shape(s) && CountFrame(s, s') && s'.hist == s.hist && |s'.cpus| == |s.cpus|
  {
    hide BaseStep, TickStep, IrqStep, TimerStep, Quiet;
  }

  lemma NextAccounts(s: State, st: Step, s': State)
    requires Safe(s) && AccountsOk(s) && NextStep(s, st, s')
    ensures Shape(s') && AccountsOk(s')
  {
    hide Safe, AccountsOk, BaseStep, TickStep, IrqStep, TimerStep, DeviceStep, SwtchStep, ClearStep, DispatchStep,
        SchedAcqStep, SchedRelStep;
    match st {
      case BaseGo(k, op, pc) => BaseAccounts(s, k, op, pc, s');
      case TickGo(k, op, pc) => TickAccounts(s, k, op, pc, s');
      case IrqGo(k, op, irq, end) => IrqAccounts(s, k, op, irq, end, s');
      case TimerStart(k, end) => TimerAccounts(s, k, end, s');
      case Dispatch(k, q) => DispatchAccounts(s, k, q, s');
      case _ => SchedAccounts(s, st, s');
    }
  }

  lemma NextKeepsAccounts(s: State, s': State)
    requires Safe(s) && AccountsOk(s) && Next(s, s')
    ensures Shape(s') && AccountsOk(s')
  {
    hide Safe, NextStep, AccountsOk;
    var st :| NextStep(s, st, s');
    NextAccounts(s, st, s');
  }

  lemma {:induction false} AllZero(a: seq<nat>)
    requires forall i :: 0 <= i < |a| ==> a[i] == 0
    ensures Total(a) == 0
  {
    if a != [] { AllZero(a[1..]); }
  }

  lemma InitAccounts(s: State)
    requires Init(s)
    ensures AccountsOk(s)
  {
    AllZero(Dispatches(s));
    AllZero(Bills(ByTimer, s));
    AllZero(Bills(ByTick, s));
  }

  lemma {:induction false} RunAccounts(tr: seq<State>, i: nat)
    requires Run(tr) && i < |tr|
    ensures Safe(tr[i]) && AccountsOk(tr[i])
  {
    hide Safe, Next, Init, AccountsOk;
    RunSafe(tr, i);
    SafeShape(tr[i]);
    if i == 0 {
      InitAccounts(tr[0]);
    } else {
      RunAccounts(tr, i - 1);
      NextKeepsAccounts(tr[i - 1], tr[i]);
    }
  }

  // ---------- Theorems ----------

  lemma {:induction false} TotalSplits(a: seq<nat>, b: seq<nat>, c: seq<nat>)
    requires |a| == |b| == |c| && forall i :: 0 <= i < |a| ==> a[i] == b[i] + c[i]
    ensures Total(a) == Total(b) + Total(c)
  {
    if a != [] { TotalSplits(a[1..], b[1..], c[1..]); }
  }

  /** The dispatches of all CPUs are the live nswtch, the reaped nswtch, and one for every
      process that has been dispatched and has not reached the increment in sched. */
  lemma SwitchConservation(tr: seq<State>, i: nat)
    requires Run(tr) && i < |tr| && Shape(tr[i])
    ensures tr[i].hist.dispatches == Total(Switches(tr[i])) + tr[i].hist.goneSwitch + Total(Flights(tr[i]))
  {
    hide Safe, BillsOk, InFlight;
    RunAccounts(tr, i);
    var s := tr[i];
    forall p | 0 <= p < |s.procs|
      ensures Dispatches(s)[p] == Switches(s)[p] + Flights(s)[p]
    {
      assert CountOk(s.procs[p], s.threads[p]);
    }
    TotalSplits(Dispatches(s), Switches(s), Flights(s));
  }

  /** The nswtch that waitx reports for a zombie is the number of its dispatches. */
  lemma ReportedSwitches(tr: seq<State>, i: nat, k: nat, me: nat)
    requires Run(tr) && i < |tr| && Running(tr[i], k, me) && tr[i].threads[me].tick.TNone?
    requires tr[i].threads[me].base.InWait? && tr[i].threads[me].base.wait.WaitHeld?
    ensures var c := tr[i].threads[me].base.child;
      c < |tr[i].procs| && (tr[i].procs[c].state.ZOMBIE? ==> tr[i].procs[c].nswtch == tr[i].procs[c].disp)
  {
    hide GlobalLockOk, ForkOk, BillsOk, DispatchBalance, LockOk, StateOk, BaseLock;
    RunAccounts(tr, i);
    var s := tr[i];
    var c := s.threads[me].base.child;
    HeldHere(s, k, me);
    assert CountOk(s.procs[c], s.threads[c]);
    SlotStays(s, me);
    if s.procs[c].state.ZOMBIE? && s.threads[c].on != Some(k) { LockedIsSaved(s, c, k); }
  }

  lemma HeldHere(s: State, k: nat, me: nat)
    requires Safe(s) && Running(s, k, me) && s.threads[me].tick.TNone?
    requires s.threads[me].base.InWait? && s.threads[me].base.wait.WaitHeld?
    ensures s.threads[me].base.child < |s.procs| && s.plock[s.threads[me].base.child] == Some(k)
  {
    hide RunOk, QuietOk, StateOk, ForkOk, LockOk, GlobalLockOk;
    HeldByBase(s, k, me);
  }

  ghost function RunTimes(s: State): seq<nat> {
    seq(|s.procs|, p requires 0 <= p < |s.procs| => if s.procs[p].ready.Yes? then s.procs[p].rtime else 0)
  }

  /** The run time of all processes, reaped ones included, is at most the number of timer
      interrupts of all CPUs. */
  lemma RunTimeWithinTimers(tr: seq<State>, i: nat)
    requires Run(tr) && i < |tr| && Shape(tr[i])
    ensures Total(RunTimes(tr[i])) + tr[i].hist.goneRun <= tr[i].hist.timers
  {
    hide Safe, DispatchBalance, CountsOk, Owed;
    RunAccounts(tr, i);
    TotalNoMore(Bills(ByTimer, tr[i]), RunTimes(tr[i]));
  }

  /** On one CPU it is at most `ticks`, and no process runs longer than it exists. */
  lemma RunTimeWithinTicks(tr: seq<State>, i: nat, p: nat)
    requires Run(tr) && i < |tr| && Shape(tr[i]) && |tr[i].cpus| == 1 && p < |tr[i].procs|
    ensures Total(RunTimes(tr[i])) + tr[i].hist.goneRun <= tr[i].ticks
    ensures tr[i].procs[p].ready.Yes? ==> tr[i].procs[p].rtime <= tr[i].ticks - tr[i].procs[p].ctime
  {
    hide Safe, DispatchBalance, CountsOk, Owed;
    RunAccounts(tr, i);
    TotalNoMore(Bills(ByTick, tr[i]), RunTimes(tr[i]));
  }
}
