/**
 Runs of a concrete scheduler seen as runs of the abstract machine: steps that only move the
 scheduler's own variables are stutters.
 */
module Refinement {
  import opened Kernel

  ghost predicate StepOrStutter(s: State, s': State) { s' == s || Next(s, s') }

  ghost predicate StutteringRun(cs: seq<State>) {
    && |cs| > 0 && Init(cs[0])
    && forall i, j {:trigger StepOrStutter(cs[i], cs[j])} :: 0 <= i && j == i + 1 < |cs| ==> StepOrStutter(cs[i], cs[j])
  }

  /** Run `tr` visits the states of cs in order, each once for every block of stutters. */
  ghost predicate Follows(cs: seq<State>, tr: seq<State>, at: seq<nat>) {
    && |at| == |cs| > 0 && |tr| > 0
    && (forall i {:trigger at[i]} :: 0 <= i < |cs| ==> at[i] < |tr| && tr[at[i]] == cs[i])
    && at[0] == 0 && at[|cs| - 1] == |tr| - 1
    && forall i, j {:trigger at[i], at[j]} :: 0 <= i && j == i + 1 < |cs| ==> at[i] <= at[j] <= at[i] + 1
  }

  lemma {:induction false} Unstutter(cs: seq<State>) returns (tr: seq<State>, at: seq<nat>)
    requires StutteringRun(cs)
    ensures Run(tr) && Follows(cs, tr, at)
    decreases |cs|
  {
    hide Init, Next;
    if |cs| == 1 {
      tr, at := cs, [0];
    } else {
      var n := |cs| - 1;
      ShorterRun(cs);
      tr, at := Unstutter(cs[..n]);
      assert StepOrStutter(cs[n - 1], cs[n]);
      assert at[n - 1] == |tr| - 1;
      if cs[n] == cs[n - 1] {
        at := at + [|tr| - 1];
      } else {
        RunGrows(tr, cs[n]);
        at := at + [|tr|];
        tr := tr + [cs[n]];
      }
    }
  }

  lemma ShorterRun(cs: seq<State>)
    requires StutteringRun(cs) && |cs| > 1
    ensures StutteringRun(cs[..|cs| - 1])
  {
    hide Init, Next;
    var ds := cs[..|cs| - 1];
    forall i, j | 0 <= i && j == i + 1 < |ds| ensures StepOrStutter(ds[i], ds[j]) {
      assert StepOrStutter(cs[i], cs[j]);
    }
  }

  lemma RunGrows(tr: seq<State>, s: State)
    requires Run(tr) && Next(tr[|tr| - 1], s)
    ensures Run(tr + [s])
  {
    hide Init, Next;
    var ur := tr + [s];
    forall i, j | 0 <= i && j == i + 1 < |ur| ensures Next(ur[i], ur[j]) {
      if j < |tr| { assert Next(tr[i], tr[j]); }
    }
  }

  // ---------- Runs with their steps ----------

  /** What one step of a scheduler does to the core; None is a stutter. */
  ghost predicate Does(s: State, st: Option<Step>, s': State) {
    if st.Some? then NextStep(s, st.value, s') else s' == s
  }

  /** A run, possibly with stutters, together with its steps. */
  ghost predicate Trace(cs: seq<State>, st: seq<Option<Step>>) {
    && |cs| == |st| + 1 && Init(cs[0])
    && forall i, j {:trigger Does(cs[i], st[i], cs[j])} :: 0 <= i < |st| && j == i + 1 ==> Does(cs[i], st[i], cs[j])
  }

  lemma TraceStutters(cs: seq<State>, st: seq<Option<Step>>)
    requires Trace(cs, st)
    ensures StutteringRun(cs)
  {
    hide NextStep, Init;
    forall i, j | 0 <= i && j == i + 1 < |cs| ensures StepOrStutter(cs[i], cs[j]) {
      assert Does(cs[i], st[i], cs[j]);
    }
  }

  /** The states of a trace are states of runs of the abstract dispatcher. */
  lemma TraceState(cs: seq<State>, st: seq<Option<Step>>, i: nat) returns (tr: seq<State>, j: nat)
    requires Trace(cs, st) && i < |cs|
    ensures Run(tr) && j < |tr| && tr[j] == cs[i]
  {
    hide Trace, Run, StutteringRun;
    var at;
    TraceStutters(cs, st);
    tr, at := Unstutter(cs);
    j := at[i];
  }

  lemma TraceStep(cs: seq<State>, st: seq<Option<Step>>, i: nat)
    requires Trace(cs, st) && i < |st|
    ensures i + 1 < |cs| && Does(cs[i], st[i], cs[i + 1])
  {
    hide Does, Init;
    var j := i + 1;
    assert Does(cs[i], st[i], cs[j]);
  }

  /** The step dispatches slot q. */
  predicate IsDispatch(st: Option<Step>, q: nat) { st.Some? && st.value.Dispatch? && st.value.q == q }

  // ---------- Steps that are not the scheduler's ----------

  function OpOf(st: Step): Op {
    if st.BaseGo? || st.TickGo? || st.IrqGo? then st.op else Nop
  }

  /** Steps of processes and handlers, and the switch from a process to the scheduler. */
  predicate OfProcess(st: Step) {
    st.BaseGo? || st.TickGo? || st.IrqGo? || st.TimerStart? || st.DeviceStart? || st.SwtchOut?
  }

  /** Steps of processes and handlers leave the schedulers where they are. */
  ghost predicate SchedsStay(s: State, st: Step, s': State) {
    && Shape(s) && Shape(s') && |s'.cpus| == |s.cpus| && |s'.procs| == |s.procs|
    && forall k {:trigger s'.cpus[k]} :: 0 <= k < |s.cpus| ==>
         && (|| s'.cpus[k].spc == s.cpus[k].spc
             || (s.cpus[k].spc.SRun? && s'.cpus[k].spc == SBack(s.cpus[k].spc.p)))
         && (s.cpus[k].irq.INone? ==> s'.cpus[k].irq.INone? || (k == st.k && (st.TimerStart? || st.DeviceStart?)))
  }

  lemma ThreadScheds(s: State, st: Step, s': State)
    requires NextStep(s, st, s') && (st.BaseGo? || st.TickGo?)
    ensures SchedsStay(s, st, s')
  {
    hide Changed, BaseCode, TickCode;
  }

  lemma HandlerScheds(s: State, st: Step, s': State)
    requires NextStep(s, st, s') && st.IrqGo?
    ensures SchedsStay(s, st, s')
  {
    hide Changed, IrqCode, ChargeChoice;
  }

  lemma ProcScheds(s: State, st: Step, s': State)
    requires NextStep(s, st, s') && OfProcess(st)
    ensures SchedsStay(s, st, s')
  {
    hide BaseStep, TickStep, IrqStep, Quiet, ChargeChoice;
    if st.BaseGo? || st.TickGo? {
      ThreadScheds(s, st, s');
    } else if st.IrqGo? {
      HandlerScheds(s, st, s');
    }
  }
}
