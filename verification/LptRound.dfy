/**
 The ordering part of a round of the LPT scheduler: collecting the RUNNABLE slots without
 locks, the exchange sort by est_time, and the copy in chunks of NCPU.
 */
module LptRound {
  import opened Kernel
  import opened Sequences
  import opened Words

  // ---------- Collecting ----------

  /** The RUNNABLE slots below n, in table order. */
  function Runnables(table: seq<Proc>, n: nat): (r: seq<nat>)
    requires n <= |table|
    ensures |r| <= n
  {
    if n == 0 then [] else Runnables(table, n - 1) + if table[n - 1].state.RUNNABLE? then [n - 1] else []
  }

  lemma {:induction false} RunnablesAre(table: seq<Proc>, n: nat)
    requires n <= |table|
    ensures NoDuplicates(Runnables(table, n))
    ensures forall p: nat :: p in Runnables(table, n) <==> p < n && table[p].state.RUNNABLE?
  {
    if n > 0 { RunnablesAre(table, n - 1); }
  }

  /** `p->est_time = p->rtime + 1`: unsigned addition, stored in an int. */
  function Estimate(rtime: nat): int { ToInt((rtime + 1) % U32) }

  /** Two estimates compare as the run times do, if and only if rtime + 1 is an int for both or
      for neither; rtime itself is a 32-bit unsigned number. */
  lemma EstimatesCompare(r1: nat, r2: nat)
    requires r1 < U32 && r2 < U32
    ensures ((Estimate(r1) >= Estimate(r2) <==> r1 >= r2) && (Estimate(r2) >= Estimate(r1) <==> r2 >= r1)) <==>
        (IsInt(r1 + 1) <==> IsInt(r2 + 1))
    ensures IsInt(r1 + 1) ==> Estimate(r1) == r1 + 1
  {
  }

  /** STEP 1, over a table that nobody changes meanwhile. */
  method Collect(table: array<Proc>, est: array<int>, batch: array<nat>) returns (count: nat)
    requires table.Length == est.Length == batch.Length
    modifies est, batch
    ensures count <= batch.Length && batch[..count] == Runnables(table[..], table.Length)
    ensures forall p :: 0 <= p < table.Length ==>
        est[p] == if table[p].state.RUNNABLE? then Estimate(table[p].rtime) else old(est[p])
    ensures forall p :: 0 <= p < table.Length && table[p].state.RUNNABLE? && IsInt(table[p].rtime + 1) ==>
        est[p] == table[p].rtime + 1
  {
    count := 0;
    for p := 0 to table.Length
      invariant count <= p && batch[..count] == Runnables(table[..], p)
      invariant forall q :: 0 <= q < table.Length ==>
          est[q] == if q < p && table[q].state.RUNNABLE? then Estimate(table[q].rtime) else old(est[q])
    {
      if table[p].state.RUNNABLE? {
        est[p] := Estimate(table[p].rtime);
        batch[count] := p;
        count := count + 1;
      }
    }
  }

  // ---------- Sorting ----------

  /** est_time of a slot at a moment; other CPUs may write it during the sort. */
  type Estimates = (nat, nat) -> int

  /** Nobody writes the estimates of the first n slots. */
  ghost predicate Frozen(est: Estimates, n: nat) {
    forall t: nat, p: nat {:trigger est(t, p)} :: p < n ==> est(t, p) == est(0, p)
  }

  ghost predicate Descending(a: seq<nat>, est: Estimates) {
    forall i, j {:trigger a[i], a[j]} :: 0 <= i < j < |a| ==> est(0, a[i]) >= est(0, a[j])
  }

  /** The first i entries are in place: none of them precedes a longer job. */
  ghost predicate Placed(a: seq<nat>, i: nat, est: Estimates) {
    forall x, y {:trigger a[x], a[y]} :: 0 <= x < i && x < y < |a| ==> est(0, a[x]) >= est(0, a[y])
  }

  /** Entry i is at least as long as the entries after it up to j. */
  ghost predicate Leads(a: seq<nat>, i: nat, j: nat, est: Estimates) {
    i < |a| && forall y {:trigger a[y]} :: i < y < j && y < |a| ==> est(0, a[i]) >= est(0, a[y])
  }

  ghost predicate SameEntries(a: seq<nat>, b: seq<nat>) { multiset(a) == multiset(b) }

  predicate InTable(a: seq<nat>, n: nat) { forall i {:trigger a[i]} :: 0 <= i < |a| ==> a[i] < n }

  lemma SameInTable(a: seq<nat>, b: seq<nat>, n: nat)
    requires SameEntries(a, b) && InTable(a, n)
    ensures InTable(b, n)
  {
    forall i | 0 <= i < |b| ensures b[i] < n {
      assert b[i] in multiset(a);
    }
  }

  /** One comparison of the inner loop, at moment t, and what it does to the batch. */
  function Exchanged(a: seq<nat>, i: nat, j: nat, est: Estimates, t: nat): seq<nat>
    requires i < j < |a|
  {
    if est(t, a[j]) > est(t, a[i]) then a[i := a[j]][j := a[i]] else a
  }

  lemma ExchangedEntries(a: seq<nat>, i: nat, j: nat, est: Estimates, t: nat)
    requires i < j < |a|
    ensures |Exchanged(a, i, j, est, t)| == |a| && SameEntries(Exchanged(a, i, j, est, t), a)
  {
  }

  lemma ExchangedOrder(a: seq<nat>, i: nat, j: nat, est: Estimates, t: nat, n: nat)
    requires i < j < |a| && InTable(a, n) && Frozen(est, n) && Placed(a, i, est) && Leads(a, i, j, est)
    ensures Placed(Exchanged(a, i, j, est, t), i, est) && Leads(Exchanged(a, i, j, est, t), i, j + 1, est)
  {
  }

  /** What the inner loop keeps: the entries, and the order that earlier rounds have made. */
  ghost predicate Sorting(was: seq<nat>, a: seq<nat>, i: nat, j: nat, est: Estimates, n: nat) {
    && |a| == |was| && i < |a| && SameEntries(a, was)
    && (Frozen(est, n) && InTable(was, n) && Placed(was, i, est) ==> Placed(a, i, est) && Leads(a, i, j, est))
  }

  lemma SortingStarts(a: seq<nat>, i: nat, est: Estimates, n: nat)
    requires i < |a|
    ensures Sorting(a, a, i, i + 1, est, n)
  {
  }

  lemma SortingGoesOn(was: seq<nat>, a: seq<nat>, i: nat, j: nat, est: Estimates, n: nat, t: nat)
    requires Sorting(was, a, i, j, est, n) && i < j < |a|
    ensures Sorting(was, Exchanged(a, i, j, est, t), i, j + 1, est, n)
  {
    hide Placed, Leads, Exchanged, InTable, Frozen;
    ExchangedEntries(a, i, j, est, t);
    if Frozen(est, n) && InTable(was, n) && Placed(was, i, est) {
      SameInTable(was, a, n);
      ExchangedOrder(a, i, j, est, t, n);
    }
  }

  /** The comparison and the exchange, in place. */
  method CompareExchange(batch: array<nat>, i: nat, j: nat, est: Estimates, now: nat)
    requires i < j < batch.Length
    modifies batch
    ensures batch[..] == Exchanged(old(batch[..]), i, j, est, now)
  {
    if est(now, batch[j]) > est(now, batch[i]) {
      batch[i], batch[j] := batch[j], batch[i];
    }
  }

  lemma ExchangedPart(a: seq<nat>, count: nat, i: nat, j: nat, est: Estimates, t: nat)
    requires i < j < count <= |a|
    ensures |Exchanged(a, i, j, est, t)| == |a|
    ensures Exchanged(a, i, j, est, t)[..count] == Exchanged(a[..count], i, j, est, t)
    ensures Exchanged(a, i, j, est, t)[count..] == a[count..]
  {
  }

  /** The inner loop: entry i is compared with all later ones. `now` counts comparisons; each
      reads both estimates afresh. */
  method PlaceEntry(batch: array<nat>, count: nat, i: nat, est: Estimates, now: nat, ghost n: nat) returns (last: nat)
    requires i < count <= batch.Length
    modifies batch
    ensures Sorting(old(batch[..count]), batch[..count], i, count, est, n)
    ensures batch[count..] == old(batch[count..])
  {
    hide Sorting, Exchanged;
    last := now;
    SortingStarts(batch[..count], i, est, n);
    for j := i + 1 to count
      invariant Sorting(old(batch[..count]), batch[..count], i, j, est, n)
      invariant batch[count..] == old(batch[count..])
    {
      ghost var a := batch[..];
      assert a[..count] == batch[..count];
      SortingGoesOn(old(batch[..count]), batch[..count], i, j, est, n, last);
      CompareExchange(batch, i, j, est, last);
      ExchangedPart(a, count, i, j, est, last);
      assert batch[..][..count] == batch[..count] && batch[..][count..] == batch[count..];
      last := last + 1;
    }
  }

  /** STEP 2. The estimates may change between any two reads. */
  method ExchangeSort(batch: array<nat>, count: nat, est: Estimates, ghost n: nat)
    requires count <= batch.Length
    modifies batch
    ensures multiset(batch[..count]) == multiset(old(batch[..count])) && batch[count..] == old(batch[count..])
    ensures Frozen(est, n) && InTable(old(batch[..count]), n) ==> Descending(batch[..count], est)
  {
    hide Sorting, Placed, SameEntries, InTable, Frozen, Descending;
    var now := 0;
    ghost var was := batch[..count];
    RoundZero(was, est, n);
    for i := 0 to count
      invariant Rounds(was, batch[..count], i, est, n) && batch[count..] == old(batch[count..])
    {
      ghost var a := batch[..count];
      now := PlaceEntry(batch, count, i, est, now, n);
      RoundDone(was, a, batch[..count], i, est, n);
    }
    RoundsEnd(was, batch[..count], est, n);
  }

  /** What the outer loop keeps. */
  ghost predicate Rounds(was: seq<nat>, a: seq<nat>, i: nat, est: Estimates, n: nat) {
    && |a| == |was| && SameEntries(a, was)
    && (Frozen(est, n) && InTable(was, n) ==> Placed(a, i, est))
  }

  lemma RoundZero(a: seq<nat>, est: Estimates, n: nat)
    ensures Rounds(a, a, 0, est, n)
  {
  }

  lemma RoundDone(was: seq<nat>, a: seq<nat>, b: seq<nat>, i: nat, est: Estimates, n: nat)
    requires Rounds(was, a, i, est, n) && Sorting(a, b, i, |a|, est, n)
    ensures Rounds(was, b, i + 1, est, n)
  {
    hide InTable, Frozen;
    if Frozen(est, n) && InTable(was, n) { SameInTable(was, a, n); }
  }

  lemma RoundsEnd(was: seq<nat>, a: seq<nat>, est: Estimates, n: nat)
    requires Rounds(was, a, |a|, est, n)
    ensures multiset(a) == multiset(was)
    ensures Frozen(est, n) && InTable(was, n) ==> Descending(a, est)
  {
  }

  // ---------- Chunks ----------

  /** STEP 3: final_list is filled in chunks of NCPU entries. */
  method Chunk(batch: array<nat>, count: nat, ncpu: nat, final: array<nat>) returns (n: nat)
    requires count <= batch.Length && count <= final.Length && 0 < ncpu && batch != final
    modifies final
    ensures n == count && final[..n] == batch[..count]
  {
    n := 0;
    var i := 0;
    while i < count
      invariant n == i <= count && final[..n] == batch[..i]
      decreases count - i
    {
      var start, end := i, i + ncpu;
      if end > count { end := count; }
      for k := start to end
        invariant n == k && final[..n] == batch[..k]
      {
        final[n] := batch[k];
        n := n + 1;
      }
      i := end;
    }
  }

  /** Every read finds what the collect step has written. */
  ghost predicate ReadsFrom(est: Estimates, ests: seq<int>) {
    forall t: nat, p: nat {:trigger est(t, p)} :: p < |ests| ==> est(t, p) == ests[p]
  }

  /** Longest estimated run time first. */
  predicate LongestFirst(a: seq<nat>, table: seq<Proc>)
    requires InTable(a, |table|)
  {
    forall i, j {:trigger a[i], a[j]} :: 0 <= i < j < |a| ==> Estimate(table[a[i]].rtime) >= Estimate(table[a[j]].rtime)
  }

  /** Whoever has run longest comes first. */
  predicate LongestRunFirst(a: seq<nat>, table: seq<Proc>)
    requires InTable(a, |table|)
  {
    forall i, j {:trigger a[i], a[j]} :: 0 <= i < j < |a| ==> table[a[i]].rtime >= table[a[j]].rtime
  }

  /** For every entry rtime + 1 is an int. */
  predicate ShortRuns(a: seq<nat>, table: seq<Proc>)
    requires InTable(a, |table|)
  {
    forall i {:trigger a[i]} :: 0 <= i < |a| ==> IsInt(table[a[i]].rtime + 1)
  }

  lemma LongestRuns(a: seq<nat>, table: seq<Proc>)
    requires InTable(a, |table|) && LongestFirst(a, table)
    ensures ShortRuns(a, table) ==> LongestRunFirst(a, table)
  {
    if ShortRuns(a, table) {
      forall i, j | 0 <= i < j < |a| ensures table[a[i]].rtime >= table[a[j]].rtime {
        EstimatesCompare(table[a[i]].rtime, table[a[j]].rtime);
      }
    }
  }

  /** STEPS 1 to 3: final_list is a duplicate-free permutation of the RUNNABLE slots for every
      NCPU, and in descending order of est_time if no estimate moves meanwhile: if no other
      CPU writes est_time at all, of the rtime + 1 that the collect step has stored. */
  method Order(table: array<Proc>, ests: array<int>, batch: array<nat>, final: array<nat>, ncpu: nat, est: Estimates)
    returns (count: nat)
    requires table.Length == ests.Length == batch.Length == final.Length && 0 < ncpu && batch != final
    modifies ests, batch, final
    ensures count <= final.Length && NoDuplicates(final[..count]) && InTable(final[..count], table.Length)
    ensures multiset(final[..count]) == multiset(Runnables(table[..], table.Length))
    ensures forall p: nat :: p in final[..count] <==> p < table.Length && table[p].state.RUNNABLE?
    ensures Frozen(est, table.Length) ==> Descending(final[..count], est)
    ensures ReadsFrom(est, ests[..]) ==> LongestFirst(final[..count], table[..])
    ensures ReadsFrom(est, ests[..]) && ShortRuns(final[..count], table[..]) ==>
        LongestRunFirst(final[..count], table[..])
  {
    hide NoDuplicates, Frozen, Descending, ReadsFrom, Noted, InTable, LongestFirst, LongestRunFirst,
        ShortRuns, Runnables;
    count := Collect(table, ests, batch);
    ghost var found := batch[..count];
    RunnablesAre(table[..], table.Length);
    FoundNoted(found, table[..], ests[..]);
    ExchangeSort(batch, count, est, table.Length);
    count := Chunk(batch, count, ncpu, final);
    Permuted(found, final[..count]);
    PermutationKeepsDistinct(found, final[..count]);
    EstimatesStand(found, final[..count], table[..], ests[..], est);
    if ReadsFrom(est, ests[..]) { LongestRuns(final[..count], table[..]); }
  }

  /** The entries are slots of the table whose estimate has been stored. */
  ghost predicate Noted(a: seq<nat>, table: seq<Proc>, ests: seq<int>) {
    && |ests| == |table|
    && forall i {:trigger a[i]} :: 0 <= i < |a| ==> a[i] < |table| && ests[a[i]] == Estimate(table[a[i]].rtime)
  }

  lemma FoundNoted(a: seq<nat>, table: seq<Proc>, ests: seq<int>)
    requires |ests| == |table| && forall p: nat :: p in a <==> p < |table| && table[p].state.RUNNABLE?
    requires forall p :: 0 <= p < |table| && table[p].state.RUNNABLE? ==> ests[p] == Estimate(table[p].rtime)
    ensures Noted(a, table, ests) && InTable(a, |table|)
  {
    forall i | 0 <= i < |a| ensures a[i] < |table| && ests[a[i]] == Estimate(table[a[i]].rtime) {
      assert a[i] in a;
    }
  }

  lemma Permuted(a: seq<nat>, b: seq<nat>)
    requires multiset(a) == multiset(b)
    ensures forall p: nat :: p in a <==> p in b
  {
    forall p: nat ensures p in a <==> p in b {
      assert p in multiset(a) <==> p in multiset(b);
    }
  }

  lemma EstimatesStand(found: seq<nat>, a: seq<nat>, table: seq<Proc>, ests: seq<int>, est: Estimates)
    requires Noted(found, table, ests) && multiset(a) == multiset(found)
    requires Frozen(est, |table|) ==> Descending(a, est)
    ensures InTable(a, |table|) && (ReadsFrom(est, ests) ==> LongestFirst(a, table))
  {
    forall i | 0 <= i < |a| ensures a[i] < |table| && ests[a[i]] == Estimate(table[a[i]].rtime) {
      assert a[i] in multiset(found);
    }
    if ReadsFrom(est, ests) {
      forall i, j | 0 <= i < j < |a|
        ensures Estimate(table[a[i]].rtime) >= Estimate(table[a[j]].rtime)
      {
        assert est(0, a[i]) == ests[a[i]] && est(0, a[j]) == ests[a[j]];
      }
    }
  }
}
