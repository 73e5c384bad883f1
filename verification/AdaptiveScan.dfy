/**
 One iteration of the adaptive scheduler's loop, when no other CPU interferes: the scan over
 the process table with its hand-over-hand locking, then the start of the chosen process.
 */
module AdaptiveScan {
  import opened Kernel
  import Aging

  function CurrPri(pr: Proc, now: nat): int {
    Aging.Effective(pr.pri, now, pr.age)
  }

  /** A slot that the scan takes into account: RUNNABLE and below the initial best_pri. */
  predicate Eligible(pr: Proc, now: nat) {
    pr.state.RUNNABLE? && CurrPri(pr, now) <= Aging.PRIORITY_MAX
  }

  /** Slot q is the first of the most urgent RUNNABLE slots of the table. */
  predicate Selected(procs: seq<Proc>, now: nat, q: nat) {
    && q < |procs| && procs[q].state.RUNNABLE?
    && forall p {:trigger procs[p]} :: 0 <= p < |procs| && procs[p].state.RUNNABLE? ==>
         if p < q then CurrPri(procs[q], now) < CurrPri(procs[p], now)
         else CurrPri(procs[q], now) <= CurrPri(procs[p], now)
  }

  /** Waits for which the 32-bit arithmetic is exact, and the one priority that occurs. */
  predicate InRange(pr: Proc, now: nat) {
    pr.pri == PRIORITY_DEFAULT && pr.age <= now && now - pr.age <= Aging.LONGEST_WAIT
  }

  lemma InRangeEligible(pr: Proc, now: nat)
    requires pr.state.RUNNABLE? && InRange(pr, now)
    ensures Eligible(pr, now)
  {
    Aging.AgingIsExact(pr.pri, now, pr.age);
  }

  /** What the scan knows before slot p: its candidate is the first of the most urgent RUNNABLE
      slots below p. */
  predicate SoFar(procs: seq<Proc>, now: nat, p: nat, chosen: Option<nat>, best: int) {
    && p <= |procs|
    && (chosen.None? ==> best == Aging.PRIORITY_MAX + 1)
    && (chosen.Some? ==>
          chosen.value < p && Eligible(procs[chosen.value], now) && best == CurrPri(procs[chosen.value], now))
    && (forall i {:trigger procs[i]} :: 0 <= i < p && procs[i].state.RUNNABLE? ==>
          if chosen.Some? && i < chosen.value then best < CurrPri(procs[i], now) else best <= CurrPri(procs[i], now))
  }

  /** Slot p is better than the candidate so far. */
  predicate Better(procs: seq<Proc>, now: nat, p: nat, best: int) {
    p < |procs| && procs[p].state.RUNNABLE? && CurrPri(procs[p], now) < best
  }

  lemma OneMoreSlot(procs: seq<Proc>, now: nat, p: nat, chosen: Option<nat>, best: int)
    requires SoFar(procs, now, p, chosen, best) && p < |procs|
    ensures if Better(procs, now, p, best) then SoFar(procs, now, p + 1, Some(p), CurrPri(procs[p], now))
            else SoFar(procs, now, p + 1, chosen, best)
  {
  }

  lemma ScanEnds(procs: seq<Proc>, now: nat, chosen: Option<nat>, best: int)
    requires SoFar(procs, now, |procs|, chosen, best)
    ensures chosen.Some? <==> exists i :: 0 <= i < |procs| && Eligible(procs[i], now)
    ensures chosen.Some? ==> Selected(procs, now, chosen.value)
  {
  }

  /** The scan. A slot's lock is `Yes` in `locked` while this CPU holds it; at most the
      candidate's lock is held when the next slot is locked, and at the end. */
  method Scan(table: array<Proc>, locked: array<Flag>, now: nat) returns (chosen: Option<nat>)
    requires table.Length == locked.Length
    requires forall i :: 0 <= i < locked.Length ==> locked[i].No?
    modifies locked
    ensures chosen.Some? <==> exists i :: 0 <= i < table.Length && Eligible(table[i], now)
    ensures chosen.Some? ==> Selected(table[..], now, chosen.value)
    ensures forall i :: 0 <= i < locked.Length ==> (locked[i].Yes? <==> chosen == Some(i))
  {
    hide SoFar, Better, CurrPri;
    chosen := None;
    var best := Aging.PRIORITY_MAX + 1;
    NothingYet(table[..], now);
    for p := 0 to table.Length
      invariant SoFar(table[..], now, p, chosen, best)
      invariant chosen.Some? ==> chosen.value < p
      invariant forall i :: 0 <= i < locked.Length ==> (locked[i].Yes? <==> chosen == Some(i))
    {
      OneMoreSlot(table[..], now, p, chosen, best);
      BetterIs(table[..], now, p, best);
      locked[p] := Yes;
      if table[p].state.RUNNABLE? {
        var curr := CurrPri(table[p], now);
        if curr < best {
          if chosen.Some? { locked[chosen.value] := No; }
          chosen := Some(p);
          best := curr;
        } else {
          locked[p] := No;
        }
      } else {
        locked[p] := No;
      }
    }
    ScanEnds(table[..], now, chosen, best);
  }

  lemma NothingYet(procs: seq<Proc>, now: nat)
    ensures SoFar(procs, now, 0, None, Aging.PRIORITY_MAX + 1)
  {
  }

  lemma BetterIs(procs: seq<Proc>, now: nat, p: nat, best: int)
    requires p < |procs|
    ensures Better(procs, now, p, best) <==> procs[p].state.RUNNABLE? && CurrPri(procs[p], now) < best
  {
  }

  /** From the scan to swtch: the process to resume and the table. */
  method Choose(table: array<Proc>, locked: array<Flag>, now: nat) returns (chosen: Option<nat>)
    requires table.Length == locked.Length
    requires forall i :: 0 <= i < locked.Length ==> locked[i].No?
    modifies table, locked
    ensures chosen.Some? <==> exists i :: 0 <= i < table.Length && Eligible(old(table[i]), now)
    ensures chosen.Some? ==>
      && Selected(old(table[..]), now, chosen.value)
      && table[..] == old(table[..])[chosen.value := Dispatched(old(table[chosen.value]))]
    ensures chosen.None? ==> table[..] == old(table[..])
    ensures forall i :: 0 <= i < locked.Length ==> (locked[i].Yes? <==> chosen == Some(i))
  {
    chosen := Scan(table, locked, now);
    if chosen.Some? {
      table[chosen.value] := Dispatched(table[chosen.value]);
    }
  }

  /** How long a slot has waited, up to 500 ticks. */
  function Seniority(pr: Proc, now: nat): nat { if pr.age <= now then Aging.Saturated(now - pr.age) else 0 }

  lemma MoreSenior(a: Proc, b: Proc, now: nat)
    requires InRange(a, now) && InRange(b, now)
    ensures CurrPri(a, now) < CurrPri(b, now) <==> Seniority(b, now) < Seniority(a, now)
  {
    Aging.OlderIsMoreUrgent(now, a.age, b.age);
  }

  /** With priorities and waits in range every RUNNABLE slot is eligible, and the selected
      one is the oldest, where waits count up to 500 ticks and the lower slot wins a tie. */
  lemma OldestFirst(procs: seq<Proc>, now: nat, q: nat)
    requires forall p {:trigger procs[p]} :: 0 <= p < |procs| && procs[p].state.RUNNABLE? ==> InRange(procs[p], now)
    requires q < |procs| && procs[q].state.RUNNABLE?
    ensures Eligible(procs[q], now)
    ensures Selected(procs, now, q) <==>
      forall p {:trigger procs[p]} :: 0 <= p < |procs| && procs[p].state.RUNNABLE? ==>
        || Seniority(procs[p], now) < Seniority(procs[q], now)
        || (Seniority(procs[p], now) == Seniority(procs[q], now) && q <= p)
  {
    InRangeEligible(procs[q], now);
    forall p | 0 <= p < |procs| && procs[p].state.RUNNABLE?
      ensures CurrPri(procs[p], now) < CurrPri(procs[q], now) <==> Seniority(procs[q], now) < Seniority(procs[p], now)
      ensures CurrPri(procs[q], now) < CurrPri(procs[p], now) <==> Seniority(procs[p], now) < Seniority(procs[q], now)
    {
      MoreSenior(procs[p], procs[q], now);
      MoreSenior(procs[q], procs[p], now);
    }
  }
}
