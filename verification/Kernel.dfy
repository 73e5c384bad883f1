/**
 The process and lock protocol that the three schedulers share, as a step relation.

 A fixed table of process slots and a fixed set of CPUs. Every process has a kernel
 thread whose program counter is its place in the C code (`Pc`); a timer interrupt that
 hits a process adds a second frame on top (`TickPc`: charge the tick, then yield); an
 interrupt handler that is running on a CPU has a frame of its own (`Irq`). One step is
 the code between two lock operations, and each step performs at most one `Op` on the
 shared state.

 The scheduler thread of a CPU is the abstract dispatcher: it may lock and unlock any
 slots and may run a slot when that slot is RUNNABLE and its lock is the only one held.
 The modules AdaptiveMachine, LptMachine and StealingMachine put the real schedulers in its place.
 */
module Kernel {

  datatype Option<+T> = None | Some(value: T)

  // ---------- Shared data ----------

  datatype PState = UNUSED | USED | SLEEPING | RUNNABLE | RUNNING | ZOMBIE

  /** A sleep channel: the address of a process, the address of `ticks`, any other address. */
  datatype Chan = NoChan | OnProc(slot: nat) | OnTicks | Other(id: nat)

  datatype Flag = No | Yes

  /** A process slot. The counters are unbounded; `disp` and `ready` are history:
      `disp` counts the dispatches of this incarnation, `ready` holds from the moment
      allocproc has set the counters until freeproc. */
  datatype Proc = Proc(
    state: PState, chan: Chan, killed: Flag, pid: nat, parent: Option<nat>,
    ctime: nat, rtime: nat, etime: nat, nswtch: nat,
    est: int, pri: int, age: nat,
    disp: nat, ready: Flag)

  const PRIORITY_DEFAULT := 5000

  /** The slot that userinit fills: initproc. */
  const INIT: nat := 0

  // ---------- Program counters ----------

  /** What a sleeper does when it runs again: loop in kwait (or waitx), loop in sys_pause,
      or return to code that is not modelled. For sys_pause, `n` and `start` are its
      locals and `seen` records the tick count at its last test. */
  datatype WaitCall = Kwait | Waitx
  datatype Resume = ToWait(call: WaitCall) | ToPause(n: nat, start: nat, seen: nat) | ToOther(id: nat)

  /** The loop of wakeup(chan): about to look at slot j; holding its lock; having made it
      RUNNABLE; about to release its lock. */
  datatype Phase = At | Held | Woken | Leave
  datatype Wake = Wake(chan: Chan, j: nat, ph: Phase)

  /** Places inside a system call, with the C code's locals: allocproc and kfork; kwait and
      waitx; sleep; kexit and reparent; kkill; sys_pause. */
  datatype Pc =
    | Dead                                  // no saved context, or kexit's last swtch
    | ForkRet                               // saved context of a new process
    | User                                  // user mode, or kernel code without locks
    | InFork(i: nat, fork: ForkPh)
    | InWait(caller: WaitCall, child: nat, kids: Kids, wait: WaitPh)
    | InSleep(r: Resume, sleep: SleepPh)
    | InExit(orphan: nat, w: Wake, exit: ExitPh)
    | InKill(victim: nat, at: nat, kill: KillPh)
    | InPause(n: nat, start: nat, pause: PausePh)

  datatype Kids = NoKids | HasKids
  datatype ForkPh = AllocAt | AllocHeld | AllocInit | AllocMem | AllocFail
    | ForkRelease | ForkLink | ForkSet | ForkUnlink | ForkPub | ForkHeld | ForkPush | ForkRel
  datatype WaitPh = WaitAt | WaitScan | WaitHeld | WaitReaped | WaitDone | WaitFault | WaitFail
  datatype SleepPh = SleepAt | SleepUnlock | SleepSet | SleepSched | SleepSwtch | SleepBack | SleepRel | SleepRelock
  datatype ExitPh = ExitAt | ExitLock | Reparent | RepWake | ExWake
    | ExitMine | ExitSet | ExitUnlock | ExitSched | ExitSwtch
  datatype KillPh = KillAt | KillHeld | KillSet | KillPush | KillRel
  datatype PausePh = PauseAt | PauseTest | PauseOk | PauseFail

  /** update_process_times followed by yield, in the interrupted process. */
  datatype TickPc = TNone | TUpdAcq | TUpdHeld | TUpdRel
    | TYieldAcq | TYieldSet | TYieldPush | TYieldSched | TYieldSwtch | TYieldBack

  /** clockintr on CPU 0, and wakeups of other channels on any CPU. */
  datatype Source = Clock | Device
  datatype Irq = INone | IClock | ITick | IWake(src: Source, w: Wake) | IUnlock

  /** `on` is the CPU that executes the thread; None when its context is saved. */
  datatype Thread = Thread(base: Pc, tick: TickPc, on: Option<nat>)

  /** The scheduler thread: choosing while it holds some slots' locks; switched out to a
      process; switched back from a process, before it clears c->proc. */
  datatype SPc = SScan(held: set<nat>) | SRun(p: nat) | SBack(p: nat)

  datatype Cpu = Cpu(cproc: Option<nat>, spc: SPc, irq: Irq)

  /** History: dispatches; timer interrupts, those of CPU 0 and those that made a process yield;
      and what reaped processes had. */
  datatype Hist = Hist(dispatches: nat, timers: nat, clocks: nat, hits: nat,
                       goneDisp: nat, goneSwitch: nat, goneRun: nat)

  /** A lock field is the CPU that holds the lock. `ticks` counts without wrapping; the C
      variable is its value modulo 2^32. */
  datatype State = State(
    procs: seq<Proc>, threads: seq<Thread>, plock: seq<Option<nat>>, cpus: seq<Cpu>,
    waitLk: Option<nat>, tickLk: Option<nat>, nextpid: nat, ticks: nat, hist: Hist)

  // ---------- Operations on the shared state ----------

  /** Whether a process that becomes RUNNABLE starts to age anew (kkill's wake does not). */
  datatype Aging = Reset | Keep

  datatype Op =
    | Nop
    | Acq(q: nat) | Rel(q: nat) | AcqW | RelW | AcqT | RelT
    | NewPid(q: nat)                        // allocproc: pid, USED
    | InitCounters(q: nat)                  // allocproc: ctime and the counters
    | Spawn(q: nat)                         // context at forkret, scheduling fields inherited
    | Free(q: nat)                          // freeproc
    | SetParent(q: nat, r: nat)
    | Ready(q: nat, age: Aging)             // RUNNABLE
    | PushQ(q: nat)                         // push_back of the work stealing build
    | GoSleep(q: nat, chan: Chan) | ClearChan(q: nat)
    | GoZombie(q: nat) | Stamp(q: nat)
    | Kill(q: nat)
    | Charge(q: nat) | Switch(q: nat)       // rtime++, nswtch++
    | Tick

  /** The slot an operation names. */
  function Target(op: Op): Option<nat> {
    match op
    case Nop | AcqW | RelW | AcqT | RelT | Tick => None
    case Acq(q) => Some(q)
    case Rel(q) => Some(q)
    case NewPid(q) => Some(q)
    case InitCounters(q) => Some(q)
    case Spawn(q) => Some(q)
    case Free(q) => Some(q)
    case SetParent(q, _) => Some(q)
    case Ready(q, _) => Some(q)
    case PushQ(q) => Some(q)
    case GoSleep(q, _) => Some(q)
    case ClearChan(q) => Some(q)
    case GoZombie(q) => Some(q)
    case Stamp(q) => Some(q)
    case Kill(q) => Some(q)
    case Charge(q) => Some(q)
    case Switch(q) => Some(q)
  }

  /** The new value of the target slot. `from` is the process that executes kfork. */
  function Changed(pr: Proc, op: Op, from: Proc, pid: nat, now: nat): Proc {
    match op
    case NewPid(_) => pr.(pid := pid, state := USED, ready := No)
    case InitCounters(_) =>
      pr.(ctime := now, rtime := 0, etime := 0, nswtch := 0, disp := 0, ready := Yes,
          est := PRIORITY_DEFAULT, pri := PRIORITY_DEFAULT, age := now)
    case Spawn(_) => pr.(est := from.est, pri := from.est, age := now)
    case Free(_) => pr.(pid := 0, parent := None, chan := NoChan, killed := No, state := UNUSED, ready := No)
    case SetParent(_, r) => pr.(parent := Some(r))
    case Ready(_, a) =>
      if a.Reset? then pr.(state := RUNNABLE, age := now, pri := pr.est) else pr.(state := RUNNABLE)
    case GoSleep(_, c) => pr.(state := SLEEPING, chan := c)
    case ClearChan(_) => pr.(chan := NoChan)
    case GoZombie(_) => pr.(state := ZOMBIE)
    case Stamp(_) => pr.(etime := now)
    case Kill(_) => pr.(killed := Yes)
    case Charge(_) => pr.(rtime := pr.rtime + 1)
    case Switch(_) => pr.(nswtch := pr.nswtch + 1)
    case _ => pr
  }

  ghost predicate Shape(s: State) {
    && |s.procs| == |s.threads| == |s.plock|
    && INIT < |s.procs| && 0 < |s.cpus|
  }

  /** An operation can be performed: its lock is free, its slot exists. */
  ghost predicate Enabled(s: State, op: Op)
    requires Shape(s)
  {
    && (Target(op).Some? ==> Target(op).value < |s.procs|)
    && (op.Acq? ==> s.plock[op.q].None?)
    && (op.AcqW? ==> s.waitLk.None?)
    && (op.AcqT? ==> s.tickLk.None?)
  }

  function FreedHist(h: Hist, pr: Proc): Hist {
    if pr.ready.Yes? then
      h.(goneDisp := h.goneDisp + pr.disp, goneSwitch := h.goneSwitch + pr.nswtch, goneRun := h.goneRun + pr.rtime)
    else h
  }

  /** CPU k performs op for the process in slot `me` (slot `me` matters to Spawn only). */
  ghost function Apply(s: State, k: nat, me: nat, op: Op): (s': State)
    requires Shape(s) && Enabled(s, op) && me < |s.procs|
  {
    var slots := if Target(op).Some?
      then s.procs[Target(op).value := Changed(s.procs[Target(op).value], op, s.procs[me], s.nextpid, s.ticks)]
      else s.procs;
    var locks := match op
      case Acq(q) => s.plock[q := Some(k)]
      case Rel(q) => s.plock[q := None]
      case _ => s.plock;
    s.(procs := slots,
       plock := locks,
       threads := if op.Spawn? then s.threads[op.q := Thread(ForkRet, TNone, None)] else s.threads,
       waitLk := if op.AcqW? then Some(k) else if op.RelW? then None else s.waitLk,
       tickLk := if op.AcqT? then Some(k) else if op.RelT? then None else s.tickLk,
       nextpid := if op.NewPid? then s.nextpid + 1 else s.nextpid,
       ticks := if op.Tick? then s.ticks + 1 else s.ticks,
       hist := if op.Free? then FreedHist(s.hist, s.procs[op.q]) else s.hist)
  }

  // ---------- The code ----------

  function SleepChan(me: nat, r: Resume): Chan {
    match r
    case ToWait(_) => OnProc(me)
    case ToPause(_, _, _) => OnTicks
    case ToOther(id) => Other(id)
  }

  /** The 32-bit test `ticks - ticks0 < n` of sys_pause. */
  predicate StillPausing(now: nat, start: nat, n: nat) {
    (now - start) % 0x1_0000_0000 < n
  }

  /** One step of wakeup. `mine` is what myproc() returns on this CPU. */
  ghost predicate WakeCode(s: State, mine: Option<nat>, w: Wake, op: Op, w': Wake) {
    w.j < |s.procs| &&
    match w.ph
    case At =>
      if mine == Some(w.j) then op.Nop? && w' == w.(j := w.j + 1)
      else op == Acq(w.j) && w' == w.(ph := Held)
    case Held =>
      if s.procs[w.j].state.SLEEPING? && s.procs[w.j].chan == w.chan
      then op == Ready(w.j, Reset) && w' == w.(ph := Woken)
      else op.Nop? && w' == w.(ph := Leave)
    case Woken => op == PushQ(w.j) && w' == w.(ph := Leave)
    case Leave => op == Rel(w.j) && w' == w.(j := w.j + 1, ph := At)
  }

  predicate WakeDone(w: Wake, slots: nat) { w.ph.At? && slots <= w.j }

  /** allocproc and kfork. */
  ghost predicate ForkCode(s: State, me: nat, pc: Pc, op: Op, pc': Pc)
    requires Shape(s) && me < |s.procs| && pc.InFork?
  {
    var i := pc.i;
    match pc.fork
    case AllocAt => if i < |s.procs| then op == Acq(i) && pc' == InFork(i, AllocHeld) else op.Nop? && pc'.User?
    case AllocHeld =>
      i < |s.procs| &&
      if s.procs[i].state.UNUSED? then op == NewPid(i) && pc' == InFork(i, AllocInit)
      else op == Rel(i) && pc' == InFork(i + 1, AllocAt)
    case AllocInit => s.tickLk.None? && op == InitCounters(i) && pc' == InFork(i, AllocMem)
    case AllocMem =>
      || (op == Free(i) && pc' == InFork(i, AllocFail))
      || (op == Spawn(i) && pc' == InFork(i, ForkRelease))
    case AllocFail => op == Rel(i) && pc'.User?
    case ForkRelease => op == Rel(i) && pc' == InFork(i, ForkLink)
    case ForkLink => op.AcqW? && pc' == InFork(i, ForkSet)
    case ForkSet => op == SetParent(i, me) && pc' == InFork(i, ForkUnlink)
    case ForkUnlink => op.RelW? && pc' == InFork(i, ForkPub)
    case ForkPub => op == Acq(i) && pc' == InFork(i, ForkHeld)
    case ForkHeld => op == Ready(i, Keep) && pc' == InFork(i, ForkPush)
    case ForkPush => op == PushQ(i) && pc' == InFork(i, ForkRel)
    case ForkRel => op == Rel(i) && pc'.User?
  }

  /** kwait and waitx; kwait reads `killed` under the caller's lock, waitx without it. */
  ghost predicate WaitCode(s: State, me: nat, pc: Pc, op: Op, pc': Pc)
    requires Shape(s) && me < |s.procs| && pc.InWait?
  {
    var i := pc.child;
    match pc.wait
    case WaitAt => op.AcqW? && pc' == InWait(pc.caller, 0, NoKids, WaitScan)
    case WaitScan =>
      if i < |s.procs| then
        if s.procs[i].parent == Some(me) then op == Acq(i) && pc' == pc.(wait := WaitHeld)
        else op.Nop? && pc' == pc.(child := i + 1)
      else
        && op.Nop?
        && (pc.kids.HasKids? && pc.caller.Kwait? ==> s.plock[me].None?)
        && pc' == (if pc.kids.NoKids? || s.procs[me].killed.Yes? then pc.(wait := WaitFail)
                   else InSleep(ToWait(pc.caller), SleepAt))
    case WaitHeld =>
      i < |s.procs| &&
      if s.procs[i].state.ZOMBIE? then
        || (op == Free(i) && pc' == pc.(wait := WaitReaped))
        || (op.Nop? && pc.caller.Kwait? && pc' == pc.(wait := WaitFault))     // copyout failed
      else op == Rel(i) && pc' == InWait(pc.caller, i + 1, HasKids, WaitScan)
    case WaitReaped => op == Rel(i) && pc' == pc.(wait := WaitDone)
    case WaitFault => op == Rel(i) && pc' == pc.(wait := WaitFail)
    case WaitDone | WaitFail => op.RelW? && pc'.User?             // returns the pid, or -1
  }

  /** The condition lock that sleep releases and takes again. */
  function Unlock(r: Resume): Op {
    if r.ToWait? then RelW else if r.ToPause? then RelT else Nop
  }

  function Relock(r: Resume): Op {
    if r.ToWait? then AcqW else if r.ToPause? then AcqT else Nop
  }

  /** Where the caller of sleep goes on. */
  function ResumeAt(r: Resume): Pc {
    match r
    case ToWait(x) => InWait(x, 0, NoKids, WaitScan)
    case ToPause(n, start, _) => InPause(n, start, PauseTest)
    case ToOther(_) => User
  }

  /** sleep, up to its swtch and from its return. */
  ghost predicate SleepCode(s: State, me: nat, pc: Pc, op: Op, pc': Pc)
    requires Shape(s) && me < |s.procs| && pc.InSleep?
  {
    var r := pc.r;
    match pc.sleep
    case SleepAt => op == Acq(me) && pc' == InSleep(r, SleepUnlock)
    case SleepUnlock =>
      && pc' == InSleep(r, SleepSet)
      && op == Unlock(r)
    case SleepSet => op == GoSleep(me, SleepChan(me, r)) && pc' == InSleep(r, SleepSched)
    case SleepSched => op == Switch(me) && pc' == InSleep(r, SleepSwtch)
    case SleepSwtch => false
    case SleepBack => op == ClearChan(me) && pc' == InSleep(r, SleepRel)
    case SleepRel => op == Rel(me) && pc' == InSleep(r, SleepRelock)
    case SleepRelock => op == Relock(r) && pc' == ResumeAt(r)
  }

  /** kexit and reparent; a panic is a state without a next step. */
  ghost predicate ExitCode(s: State, me: nat, pc: Pc, op: Op, pc': Pc)
    requires Shape(s) && me < |s.procs| && pc.InExit?
  {
    var i, w := pc.orphan, pc.w;
    match pc.exit
    case ExitAt => me != INIT && s.tickLk.None? && op == Stamp(me) && pc' == pc.(exit := ExitLock)
    case ExitLock => op.AcqW? && pc' == pc.(orphan := 0, exit := Reparent)
    case Reparent =>
      if i < |s.procs| then
        if s.procs[i].parent == Some(me)
        then op == SetParent(i, INIT) && pc' == InExit(i, Wake(OnProc(INIT), 0, At), RepWake)
        else op.Nop? && pc' == pc.(orphan := i + 1)
      else
        && op.Nop?
        && pc' == InExit(i, Wake(ParentChan(s.procs[me]), 0, At), ExWake)
    case RepWake =>
      if WakeDone(w, |s.procs|) then op.Nop? && pc' == pc.(orphan := i + 1, exit := Reparent)
      else pc'.InExit? && pc' == pc.(w := pc'.w) && WakeCode(s, Some(me), w, op, pc'.w)
    case ExWake =>
      if WakeDone(w, |s.procs|) then op.Nop? && pc' == pc.(exit := ExitMine)
      else pc'.InExit? && pc' == pc.(w := pc'.w) && WakeCode(s, Some(me), w, op, pc'.w)
    case ExitMine => op == Acq(me) && pc' == pc.(exit := ExitSet)
    case ExitSet => op == GoZombie(me) && pc' == pc.(exit := ExitUnlock)
    case ExitUnlock => op.RelW? && pc' == pc.(exit := ExitSched)
    case ExitSched => op == Switch(me) && pc' == pc.(exit := ExitSwtch)
    case ExitSwtch => false
  }

  function ParentChan(pr: Proc): Chan {
    if pr.parent.Some? then OnProc(pr.parent.value) else NoChan
  }

  ghost predicate KillCode(s: State, me: nat, pc: Pc, op: Op, pc': Pc)
    requires Shape(s) && me < |s.procs| && pc.InKill?
  {
    var i := pc.at;
    match pc.kill
    case KillAt =>
      if i < |s.procs| then op == Acq(i) && pc' == pc.(kill := KillHeld) else op.Nop? && pc'.User?
    case KillHeld =>
      i < |s.procs| &&
      if s.procs[i].pid == pc.victim then op == Kill(i) && pc' == pc.(kill := KillSet)
      else op == Rel(i) && pc' == InKill(pc.victim, i + 1, KillAt)
    case KillSet =>
      i < |s.procs| &&
      if s.procs[i].state.SLEEPING? then op == Ready(i, Keep) && pc' == pc.(kill := KillPush)
      else op.Nop? && pc' == pc.(kill := KillRel)
    case KillPush => op == PushQ(i) && pc' == pc.(kill := KillRel)
    case KillRel => op == Rel(i) && pc'.User?
  }

  /** sys_pause; killed() takes the caller's lock for a moment. */
  ghost predicate PauseCode(s: State, me: nat, pc: Pc, op: Op, pc': Pc)
    requires Shape(s) && me < |s.procs| && pc.InPause?
  {
    match pc.pause
    case PauseAt => op.AcqT? && pc' == InPause(pc.n, s.ticks, PauseTest)
    case PauseTest =>
      && op.Nop?
      && if StillPausing(s.ticks, pc.start, pc.n) then
           s.plock[me].None? &&
           pc' == (if s.procs[me].killed.Yes? then pc.(pause := PauseFail)
                   else InSleep(ToPause(pc.n, pc.start, s.ticks), SleepAt))
         else pc' == pc.(pause := PauseOk)
    case PauseOk | PauseFail => op.RelT? && pc'.User?
  }

  /** From user mode a process may enter any system call; setkilled is one step. */
  ghost predicate EntryCode(s: State, me: nat, op: Op, pc': Pc)
    requires Shape(s) && me < |s.procs|
  {
    || (op == Kill(me) && s.plock[me].None? && pc'.User?)
    || (op.Nop? &&
        match pc'
        case InFork(i, ph) => i == 0 && ph.AllocAt?
        case InWait(_, _, _, ph) => ph.WaitAt?
        case InSleep(r, ph) => r.ToOther? && ph.SleepAt?
        case InExit(_, _, ph) => ph.ExitAt?
        case InKill(_, i, ph) => i == 0 && ph.KillAt?
        case InPause(_, _, ph) => ph.PauseAt?
        case _ => false)
  }

  /** One step of process `me`, not counting swtch. */
  ghost predicate BaseCode(s: State, me: nat, pc: Pc, op: Op, pc': Pc)
    requires Shape(s) && me < |s.procs|
  {
    match pc
    case Dead => false
    case ForkRet => op == Rel(me) && pc'.User?
    case User => EntryCode(s, me, op, pc')
    case InFork(_, _) => ForkCode(s, me, pc, op, pc')
    case InWait(_, _, _, _) => WaitCode(s, me, pc, op, pc')
    case InSleep(_, _) => SleepCode(s, me, pc, op, pc')
    case InExit(_, _, _) => ExitCode(s, me, pc, op, pc')
    case InKill(_, _, _) => KillCode(s, me, pc, op, pc')
    case InPause(_, _, _) => PauseCode(s, me, pc, op, pc')
  }

  /** update_process_times and yield, not counting swtch. */
  ghost predicate TickCode(s: State, me: nat, pc: TickPc, op: Op, pc': TickPc)
    requires Shape(s) && me < |s.procs|
  {
    match pc
    case TUpdAcq => op == Acq(me) && pc'.TUpdHeld?
    case TUpdHeld => op == (if s.procs[me].state.RUNNING? then Charge(me) else Nop) && pc'.TUpdRel?
    case TUpdRel => op == Rel(me) && pc'.TYieldAcq?
    case TYieldAcq => op == Acq(me) && pc'.TYieldSet?
    case TYieldSet => op == Ready(me, Reset) && pc'.TYieldPush?
    case TYieldPush => op == PushQ(me) && pc'.TYieldSched?
    case TYieldSched => op == Switch(me) && pc'.TYieldSwtch?
    case TYieldBack => op == Rel(me) && pc'.TNone?
    case _ => false
  }

  /** clockintr on CPU 0, or a wakeup on another channel. */
  ghost predicate IrqCode(s: State, mine: Option<nat>, pc: Irq, op: Op, pc': Irq) {
    match pc
    case IClock => op.AcqT? && pc'.ITick?
    case ITick => op.Tick? && pc' == IWake(Clock, Wake(OnTicks, 0, At))
    case IWake(src, w) =>
      if WakeDone(w, |s.procs|) then op.Nop? && pc' == (if src.Clock? then IUnlock else INone)
      else pc'.IWake? && pc'.src == src && WakeCode(s, mine, w, op, pc'.w)
    case IUnlock => op.RelT? && pc'.INone?
    case INone => false
  }

  // ---------- Steps ----------

  /** How a timer interrupt ends for the process it hit: it is charged and yields, or it
      was in user mode and killed, and leaves for kexit. */
  datatype TickEnd = Yielding | Exiting

  datatype Step =
    | BaseGo(k: nat, op: Op, pc: Pc)
    | TickGo(k: nat, op: Op, tpc: TickPc)
    | IrqGo(k: nat, op: Op, irq: Irq, end: TickEnd)
    | TimerStart(k: nat, end: TickEnd)
    | DeviceStart(k: nat, id: nat)
    | SwtchOut(k: nat)
    | ClearProc(k: nat)
    | SchedAcq(k: nat, q: nat) | SchedRel(k: nat, q: nat) | Dispatch(k: nat, q: nat)

  /** The place of a thread holds no lock, so interrupts are on there. */
  predicate Quiet(pc: Pc) {
    match pc
    case User => true
    case InFork(_, ph) => (ph.AllocAt? || ph.ForkLink? || ph.ForkPub?)
    case InWait(_, _, _, ph) => ph.WaitAt?
    case InSleep(_, ph) => ph.SleepRelock?
    case InExit(_, _, ph) => (ph.ExitAt? || ph.ExitLock?)
    case InKill(_, _, ph) => ph.KillAt?
    case InPause(_, _, ph) => ph.PauseAt?
    case _ => false
  }

  ghost predicate Running(s: State, k: nat, p: nat) {
    && Shape(s) && k < |s.cpus| && p < |s.procs|
    && s.cpus[k].spc == SRun(p)
    && s.cpus[k].irq.INone?
  }

  ghost predicate Interruptible(s: State, k: nat) {
    && Shape(s) && k < |s.cpus| && s.cpus[k].irq.INone?
    && (|| s.cpus[k].spc == SScan({})
        || (s.cpus[k].spc.SRun? && s.cpus[k].spc.p < |s.procs| &&
            s.threads[s.cpus[k].spc.p].tick.TNone? && Quiet(s.threads[s.cpus[k].spc.p].base)))
  }

  function SetBase(s: State, p: nat, pc: Pc): State
    requires p < |s.threads|
  {
    s.(threads := s.threads[p := s.threads[p].(base := pc)])
  }

  function SetTick(s: State, p: nat, pc: TickPc): State
    requires p < |s.threads|
  {
    s.(threads := s.threads[p := s.threads[p].(tick := pc)])
  }

  function SetIrq(s: State, k: nat, irq: Irq): State
    requires k < |s.cpus|
  {
    s.(cpus := s.cpus[k := s.cpus[k].(irq := irq)])
  }

  function SetSched(s: State, k: nat, cproc: Option<nat>, spc: SPc): State
    requires k < |s.cpus|
  {
    s.(cpus := s.cpus[k := s.cpus[k].(cproc := cproc, spc := spc)])
  }

  /** After the handler of a timer interrupt: the process is charged and yields, unless it
      was in user mode and has been killed, in which case it leaves for kexit. */
  function AfterTimer(s: State, k: nat, end: TickEnd): State
    requires |s.procs| == |s.threads| && k < |s.cpus| && (s.cpus[k].spc.SRun? ==> s.cpus[k].spc.p < |s.procs|)
  {
    if s.cpus[k].spc.SRun? && end.Yielding?
    then SetTick(s, s.cpus[k].spc.p, TUpdAcq).(hist := s.hist.(hits := s.hist.hits + 1))
    else s
  }

  /** Only a killed process in user mode is not charged. */
  ghost predicate ChargeChoice(s: State, k: nat, end: TickEnd)
    requires Shape(s) && k < |s.cpus|
  {
    s.cpus[k].spc.SRun? && s.cpus[k].spc.p < |s.procs| && end.Exiting? ==>
      s.threads[s.cpus[k].spc.p].base.User? && s.procs[s.cpus[k].spc.p].killed.Yes?
  }

  /** Process me, running on CPU k, performs op and goes to pc'. */
  ghost predicate BaseEffect(s: State, k: nat, me: nat, op: Op, pc': Pc, s': State) {
    && Running(s, k, me) && s.threads[me].tick.TNone?
    && Enabled(s, op)
    && s' == SetBase(Apply(s, k, me, op), me, pc')
  }

  ghost predicate TickEffect(s: State, k: nat, me: nat, op: Op, pc': TickPc, s': State) {
    && Running(s, k, me) && !s.threads[me].tick.TNone?
    && Enabled(s, op)
    && s' == SetTick(Apply(s, k, me, op), me, pc')
  }

  ghost predicate IrqEffect(s: State, k: nat, op: Op, irq': Irq, end: TickEnd, s': State) {
    && Shape(s) && k < |s.cpus| && !s.cpus[k].irq.INone?
    && (s.cpus[k].spc.SRun? ==> s.cpus[k].spc.p < |s.procs|)
    && Enabled(s, op)
    && var t := SetIrq(Apply(s, k, INIT, op), k, irq');
       s' == if s.cpus[k].irq.IUnlock? then AfterTimer(t, k, end) else t
  }

  ghost predicate BaseStep(s: State, k: nat, op: Op, pc': Pc, s': State) {
    && Shape(s) && k < |s.cpus| && s.cpus[k].spc.SRun?
    && var me := s.cpus[k].spc.p;
       BaseEffect(s, k, me, op, pc', s') && BaseCode(s, me, s.threads[me].base, op, pc')
  }

  ghost predicate TickStep(s: State, k: nat, op: Op, pc': TickPc, s': State) {
    && Shape(s) && k < |s.cpus| && s.cpus[k].spc.SRun?
    && var me := s.cpus[k].spc.p;
       TickEffect(s, k, me, op, pc', s') && TickCode(s, me, s.threads[me].tick, op, pc')
  }

  ghost predicate IrqStep(s: State, k: nat, op: Op, irq': Irq, end: TickEnd, s': State) {
    && IrqEffect(s, k, op, irq', end, s')
    && ChargeChoice(s, k, end)
    && IrqCode(s, s.cpus[k].cproc, s.cpus[k].irq, op, irq')
  }

  ghost predicate TimerStep(s: State, k: nat, end: TickEnd, s': State) {
    && Interruptible(s, k)
    && ChargeChoice(s, k, end)
    && var t := s.(hist := s.hist.(timers := s.hist.timers + 1,
                                   clocks := if k == 0 then s.hist.clocks + 1 else s.hist.clocks));
       s' == if k == 0 then SetIrq(t, k, IClock) else AfterTimer(t, k, end)
  }

  ghost predicate DeviceStep(s: State, k: nat, id: nat, s': State) {
    && Interruptible(s, k)
    && s' == SetIrq(s, k, IWake(Device, Wake(Other(id), 0, At)))
  }

  predicate IsSleep(pc: Pc, ph: SleepPh) { pc.InSleep? && pc.sleep == ph }

  predicate IsExit(pc: Pc, ph: ExitPh) { pc.InExit? && pc.exit == ph }

  /** A thread about to switch out: yield, sleep or kexit inside sched. */
  predicate AtSwtch(th: Thread) {
    || th.tick.TYieldSwtch?
    || (th.tick.TNone? && (IsSleep(th.base, SleepSwtch) || IsExit(th.base, ExitSwtch)))
  }

  /** The context that swtch saves. */
  function SavedThread(th: Thread): Thread {
    if th.tick.TYieldSwtch? then th.(tick := TYieldBack, on := None)
    else if th.base.InSleep? then th.(base := InSleep(th.base.r, SleepBack), on := None)
    else th.(base := Dead, on := None)
  }

  ghost predicate SwtchStep(s: State, k: nat, s': State) {
    && Shape(s) && k < |s.cpus| && s.cpus[k].spc.SRun?
    && var me := s.cpus[k].spc.p;
       && Running(s, k, me)
       && AtSwtch(s.threads[me])
       && s' == SetSched(s.(threads := s.threads[me := SavedThread(s.threads[me])]), k, s.cpus[k].cproc, SBack(me))
  }

  ghost predicate ClearStep(s: State, k: nat, s': State) {
    && Shape(s) && k < |s.cpus| && s.cpus[k].spc.SBack?
    && s' == SetSched(s, k, None, SScan({s.cpus[k].spc.p}))
  }

  ghost predicate Choosing(s: State, k: nat, q: nat) {
    && Shape(s) && k < |s.cpus| && q < |s.procs|
    && s.cpus[k].spc.SScan? && s.cpus[k].irq.INone?
  }

  ghost predicate SchedAcqStep(s: State, k: nat, q: nat, s': State) {
    && Choosing(s, k, q)
    && s.plock[q].None?
    && s' == SetSched(s.(plock := s.plock[q := Some(k)]), k, s.cpus[k].cproc, SScan(s.cpus[k].spc.held + {q}))
  }

  ghost predicate SchedRelStep(s: State, k: nat, q: nat, s': State) {
    && Choosing(s, k, q)
    && q in s.cpus[k].spc.held
    && s' == SetSched(s.(plock := s.plock[q := None]), k, s.cpus[k].cproc, SScan(s.cpus[k].spc.held - {q}))
  }

  function Dispatched(pr: Proc): Proc {
    pr.(state := RUNNING, pri := pr.est, disp := pr.disp + 1)
  }

  ghost predicate DispatchStep(s: State, k: nat, q: nat, s': State) {
    && Choosing(s, k, q)
    && s.cpus[k].spc.held == {q}
    && s.procs[q].state.RUNNABLE?
    && s' == SetSched(
         s.(procs := s.procs[q := Dispatched(s.procs[q])],
            threads := s.threads[q := s.threads[q].(on := Some(k))],
            hist := s.hist.(dispatches := s.hist.dispatches + 1)),
         k, Some(q), SRun(q))
  }

  ghost predicate NextStep(s: State, st: Step, s': State) {
    match st
    case BaseGo(k, op, pc) => BaseStep(s, k, op, pc, s')
    case TickGo(k, op, pc) => TickStep(s, k, op, pc, s')
    case IrqGo(k, op, irq, end) => IrqStep(s, k, op, irq, end, s')
    case TimerStart(k, end) => TimerStep(s, k, end, s')
    case DeviceStart(k, id) => DeviceStep(s, k, id, s')
    case SwtchOut(k) => SwtchStep(s, k, s')
    case ClearProc(k) => ClearStep(s, k, s')
    case SchedAcq(k, q) => SchedAcqStep(s, k, q, s')
    case SchedRel(k, q) => SchedRelStep(s, k, q, s')
    case Dispatch(k, q) => DispatchStep(s, k, q, s')
  }

  ghost predicate Next(s: State, s': State) {
    exists st :: NextStep(s, st, s')
  }

  // ---------- Runs ----------

  /** After userinit: one RUNNABLE process, all CPUs in their scheduler. */
  ghost predicate Init(s: State) {
    && Shape(s)
    && (forall p {:trigger s.procs[p]} :: 0 <= p < |s.procs| ==>
          if p == INIT
          then s.procs[p] == Proc(RUNNABLE, NoChan, No, 1, None, 0, 0, 0, 0,
                                  PRIORITY_DEFAULT, PRIORITY_DEFAULT, 0, 0, Yes)
          else s.procs[p] == Proc(UNUSED, NoChan, No, 0, None, 0, 0, 0, 0, 0, 0, 0, 0, No))
    && (forall p {:trigger s.threads[p]} :: 0 <= p < |s.procs| ==>
          s.threads[p] == Thread(if p == INIT then ForkRet else Dead, TNone, None))
    && (forall p {:trigger s.plock[p]} :: 0 <= p < |s.procs| ==> s.plock[p].None?)
    && (forall k {:trigger s.cpus[k]} :: 0 <= k < |s.cpus| ==> s.cpus[k] == Cpu(None, SScan({}), INone))
    && s.waitLk.None? && s.tickLk.None?
    && s.nextpid == 2 && s.ticks == 0
    && s.hist == Hist(0, 0, 0, 0, 0, 0, 0)
  }

  /** A finite run from boot; every interleaving of the CPUs is one. */
  ghost predicate Run(tr: seq<State>) {
    && |tr| > 0 && Init(tr[0])
    && forall i, j {:trigger Next(tr[i], tr[j])} :: 0 <= i && j == i + 1 < |tr| ==> Next(tr[i], tr[j])
  }
}
