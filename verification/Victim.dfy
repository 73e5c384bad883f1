/**
 The victim selector of the work stealing scheduler: a linear congruential generator modulo
 2^32 and a loop that redraws while it hits its own CPU.
 */
module Victim {
  import opened Congruence
  import opened Sequences
  import opened Words

  const MULTIPLIER := 1103515245
  const INCREMENT := 12345

  /** rand_seed after one call of rand. */
  function NextSeed(x: nat): nat { (x * MULTIPLIER + INCREMENT) % U32 }

  /** rand_seed after n calls. */
  function Seed(x: nat, n: nat): nat { if n == 0 then x else NextSeed(Seed(x, n - 1)) }

  /** The i-th draw, counting from 1: rand() % ncpu. */
  function Draw(x: nat, ncpu: nat, i: nat): nat
    requires ncpu > 0
  {
    Seed(x, i) % ncpu
  }

  // ---------- The draws modulo a power of two ----------

  function Unreduced(x: nat, n: nat): nat { Whole(MULTIPLIER, INCREMENT, x, n) }

  lemma {:induction false} SeedIsReduced(x: nat, n: nat)
    requires x < U32
    ensures Seed(x, n) == Unreduced(x, n) % U32
  {
    if n > 0 {
      SeedIsReduced(x, n - 1);
      ReduceFirst(Unreduced(x, n - 1), MULTIPLIER, INCREMENT, U32);
    }
  }

  lemma DrawIsUnreduced(x: nat, k: nat, i: nat)
    requires x < U32 && k <= 32
    ensures Draw(x, Pow2(k), i) == Unreduced(x, i) % Pow2(k)
  {
    hide Pow2, Unreduced, Seed;
    SeedIsReduced(x, i);
    Pow2Splits(k, 32 - k);
    Pow2Of32();
    ReduceTwice(Unreduced(x, i), Pow2(k), Pow2(32 - k));
  }

  /** 2^k consecutive draws are all different. */
  lemma DrawsDiffer(x: nat, k: nat, i: nat, j: nat)
    requires x < U32 && k <= 32 && i < j < i + Pow2(k)
    ensures Draw(x, Pow2(k), i) != Draw(x, Pow2(k), j)
  {
    hide Draw, Pow2, Whole;
    DrawIsUnreduced(x, k, i);
    DrawIsUnreduced(x, k, j);
    WholeAdds(MULTIPLIER, INCREMENT, x, i, j - i);
    NoReturn(MULTIPLIER / 4, INCREMENT / 2, Unreduced(x, i), k, j - i);
  }

  // ---------- Redrawing ends ----------

  lemma {:induction false} SeedBound(x: nat, n: nat)
    requires x < U32
    ensures Seed(x, n) < U32
  {
  }

  lemma {:induction false} SeedAdds(x: nat, m: nat, n: nat)
    ensures Seed(x, m + n) == Seed(Seed(x, m), n)
  {
    if n > 0 { SeedAdds(x, m, n - 1); }
  }

  /** The low bit of the seed alternates. */
  lemma LowBitAlternates(y: nat)
    ensures NextSeed(y) % 2 != y % 2
  {
    var w := y * MULTIPLIER + INCREMENT;
    ReduceTwice(w, 2, 0x8000_0000);
    assert w == 2 * (551757622 * y + 6172) + y + 1;
  }

  /** So with an even number of CPUs two consecutive draws differ. */
  lemma EvenRedraws(x: nat, ncpu: nat, n: nat)
    requires ncpu > 0 && ncpu % 2 == 0
    ensures Draw(x, ncpu, n) != Draw(x, ncpu, n + 1)
  {
    var y := Seed(x, n);
    LowBitAlternates(y);
    ReduceTwice(y, 2, ncpu / 2);
    ReduceTwice(NextSeed(y), 2, ncpu / 2);
  }

  /** The generator has full period: every seed is reached within 2^32 calls. */
  lemma EverySeed(x: nat, t: nat) returns (n: nat)
    requires x < U32 && t < U32
    ensures 1 <= n <= U32 && Seed(x, n) == t
  {
    hide Draw, Pow2, Seed;
    Pow2Of32();
    var a := seq(U32, i requires 0 <= i < U32 => Draw(x, Pow2(32), i + 1));
    forall i, j | 0 <= i < j < |a| ensures a[i] != a[j] { DrawsDiffer(x, 32, i + 1, j + 1); }
    forall i | 0 <= i < U32 ensures a[i] < U32 { DrawBelow(x, Pow2(32), i + 1); }
    AllCovered(a, U32, t);
    var i :| 0 <= i < |a| && a[i] == t;
    n := i + 1;
    WholeDraw(x, n);
  }

  lemma DrawBelow(x: nat, ncpu: nat, i: nat)
    requires ncpu > 0
    ensures Draw(x, ncpu, i) < ncpu
  {
  }

  lemma WholeDraw(x: nat, n: nat)
    requires x < U32
    ensures Draw(x, Pow2(32), n) == Seed(x, n)
  {
    hide Pow2;
    Pow2Of32();
    SeedBound(x, n);
  }

  /** With two or more CPUs some draw hits another one. */
  lemma SomeOther(x: nat, ncpu: nat, id: nat) returns (n: nat)
    requires x < U32 && 2 <= ncpu
    ensures 1 <= n && Draw(x, ncpu, n) != id
  {
    n := EverySeed(x, if id == 0 then 1 else 0);
  }

  // ---------- select_victim ----------

  /** The n-th draw is the first that is not id. */
  ghost predicate FirstOther(x: nat, ncpu: nat, id: nat, n: nat)
    requires ncpu > 0
  {
    1 <= n && Draw(x, ncpu, n) != id && forall i {:trigger Draw(x, ncpu, i)} :: 1 <= i < n ==> Draw(x, ncpu, i) == id
  }

  class Generator {
    var rand_seed: nat

    ghost predicate Valid()
      reads this
    {
      rand_seed < U32
    }

    method Rand() returns (r: nat)
      requires Valid()
      modifies this
      ensures Valid() && r == rand_seed == Seed(old(rand_seed), 1)
    {
      rand_seed := (rand_seed * MULTIPLIER + INCREMENT) % U32;
      r := rand_seed;
      assert Seed(old(rand_seed), 0) == old(rand_seed);
    }

    /** Returns the first draw that is another CPU. For every NCPU from 2 it ends, and for an
        even NCPU within two draws. */
    method SelectVictim(id: nat, ncpu: nat) returns (victim: nat)
      requires Valid() && 2 <= ncpu
      modifies this
      ensures Valid() && victim < ncpu && victim != id
      ensures exists n: nat {:trigger FirstOther(old(rand_seed), ncpu, id, n)} ::
        && FirstOther(old(rand_seed), ncpu, id, n)
        && rand_seed == Seed(old(rand_seed), n) && victim == Draw(old(rand_seed), ncpu, n)
        && (ncpu % 2 == 0 ==> n <= 2)
    {
      ghost var x := rand_seed;
      ghost var last := SomeOther(x, ncpu, id);
      ghost var n := 0;
      var r := 0;
      victim := id;
      while true
        invariant Valid() && rand_seed == Seed(x, n) && n < last
        invariant forall i {:trigger Draw(x, ncpu, i)} :: 1 <= i <= n ==> Draw(x, ncpu, i) == id
        decreases last - n
      {
        r := Rand();
        victim := r % ncpu;
        SeedAdds(x, n, 1);
        if n >= 1 && ncpu % 2 == 0 { EvenRedraws(x, ncpu, n); }
        n := n + 1;
        assert victim == Draw(x, ncpu, n);
        if victim != id { break; }
      }
      assert FirstOther(x, ncpu, id, n);
      if n >= 3 && ncpu % 2 == 0 { EvenRedraws(x, ncpu, 1); }
    }
  }

  // ---------- Coverage ----------

  /** The first n draws. */
  function Draws(x: nat, ncpu: nat, n: nat): (a: seq<nat>)
    requires ncpu > 0
    ensures |a| == n
  {
    seq(n, i requires 0 <= i < n => Draw(x, ncpu, i + 1))
  }

  /** vs is what |vs| consecutive calls of select_victim return; they take n draws. */
  ghost predicate Calls(x: nat, ncpu: nat, id: nat, vs: seq<nat>, n: nat)
    requires ncpu > 0
  {
    vs == Except(Draws(x, ncpu, n), id) && (n > 0 ==> Draw(x, ncpu, n) != id)
  }

  /** Every CPU but id occurs exactly once. */
  ghost predicate OnceEachOther(vs: seq<nat>, ncpu: nat, id: nat) {
    NoDuplicates(vs) && forall v: nat :: v in vs <==> v < ncpu && v != id
  }

  lemma DrawAdds(x: nat, ncpu: nat, n: nat, i: nat)
    requires ncpu > 0
    ensures Draw(x, ncpu, n + i) == Draw(Seed(x, n), ncpu, i)
  {
    SeedAdds(x, n, i);
  }

  lemma DrawsAdd(x: nat, ncpu: nat, n: nat, m: nat)
    requires ncpu > 0
    ensures Draws(x, ncpu, n + m) == Draws(x, ncpu, n) + Draws(Seed(x, n), ncpu, m)
  {
    hide Draw;
    forall i | n < i <= n + m ensures Draw(x, ncpu, i) == Draw(Seed(x, n), ncpu, i - n) { DrawAdds(x, ncpu, n, i - n); }
  }

  lemma DrawsPrefix(x: nat, ncpu: nat, n: nat, m: nat)
    requires ncpu > 0 && m <= n
    ensures Draws(x, ncpu, n)[..m] == Draws(x, ncpu, m)
  {
    hide Draw;
  }

  /** One more call. */
  lemma CallsGrow(x: nat, ncpu: nat, id: nat, vs: seq<nat>, n: nat, m: nat)
    requires ncpu > 0 && Calls(x, ncpu, id, vs, n) && FirstOther(Seed(x, n), ncpu, id, m)
    ensures Calls(x, ncpu, id, vs + [Draw(Seed(x, n), ncpu, m)], n + m)
  {
    hide Draw;
    var y := Seed(x, n);
    var a := Draws(y, ncpu, m);
    DrawsAdd(x, ncpu, n, m);
    DrawAdds(x, ncpu, n, m);
    ExceptAdds(Draws(x, ncpu, n), a, id);
    ExceptAll(a[..m - 1], id);
  }

  /** Up to 2^k draws are different CPUs. */
  lemma DrawsDistinct(x: nat, k: nat, n: nat)
    requires x < U32 && k <= 32 && n <= Pow2(k)
    ensures NoDuplicates(Draws(x, Pow2(k), n))
    ensures forall v: nat {:trigger v in Draws(x, Pow2(k), n)} :: v in Draws(x, Pow2(k), n) ==> v < Pow2(k)
  {
    hide Draw, Pow2;
    var a := Draws(x, Pow2(k), n);
    forall i, j | 0 <= i < j < |a| ensures a[i] != a[j] { DrawsDiffer(x, k, i + 1, j + 1); }
    forall v: nat | v in a ensures v < Pow2(k) {
      var i :| 0 <= i < |a| && a[i] == v;
      DrawBelow(x, Pow2(k), i + 1);
    }
  }

  /** 2^k draws are all CPUs. */
  lemma DrawsAll(x: nat, k: nat, v: nat)
    requires x < U32 && k <= 32 && v < Pow2(k)
    ensures v in Draws(x, Pow2(k), Pow2(k))
  {
    hide Draw, Pow2, Draws;
    var a := Draws(x, Pow2(k), Pow2(k));
    DrawsDistinct(x, k, Pow2(k));
    assert forall i {:trigger a[i]} :: 0 <= i < |a| ==> a[i] in a;
    AllCovered(a, Pow2(k), v);
  }

  /** A call that needs more than NCPU draws comes after NCPU - 1 others. */
  lemma LateCall(x: nat, k: nat, id: nat, n: nat)
    requires x < U32 && k <= 32 && id < Pow2(k) < n && Draw(x, Pow2(k), n) != id
    ensures Pow2(k) <= |Except(Draws(x, Pow2(k), n), id)|
  {
    hide Draw, Pow2;
    var ncpu := Pow2(k);
    var a := Draws(x, ncpu, n);
    DrawsPrefix(x, ncpu, n, ncpu);
    DrawsDistinct(x, k, ncpu);
    DrawsAll(x, k, id);
    ExceptDistinct(a[..ncpu], id);
    assert a[..n - 1][..ncpu] == a[..ncpu];
    ExceptPrefix(a[..n - 1], ncpu, id);
    assert |Except(a, id)| == |Except(a[..n - 1], id)| + 1;
  }

  /** Fewer than NCPU calls never need more than NCPU draws. */
  lemma CallsFit(x: nat, k: nat, id: nat, vs: seq<nat>, n: nat)
    requires x < U32 && k <= 32 && id < Pow2(k) && Calls(x, Pow2(k), id, vs, n) && |vs| < Pow2(k)
    ensures n <= Pow2(k)
  {
    hide Draw, Pow2, Draws, Except;
    if Pow2(k) < n { LateCall(x, k, id, n); }
  }

  /** With 2^k CPUs, NCPU - 1 consecutive calls return every other CPU exactly once, whatever
      the seed. */
  lemma VictimCoverage(x: nat, k: nat, id: nat, vs: seq<nat>, n: nat)
    requires x < U32 && k <= 32 && id < Pow2(k)
    requires Calls(x, Pow2(k), id, vs, n) && |vs| == Pow2(k) - 1
    ensures OnceEachOther(vs, Pow2(k), id)
  {
    hide Draw, Pow2, Draws;
    var a := Draws(x, Pow2(k), n);
    CallsFit(x, k, id, vs, n);
    DrawsDistinct(x, k, n);
    ExceptDistinct(a, id);
    ExceptHas(a, id);
    assert forall j {:trigger vs[j]} :: 0 <= j < |vs| ==> vs[j] in vs;
    forall v: nat | v < Pow2(k) && v != id ensures v in vs {
      AllCovered(vs + [id], Pow2(k), v);
    }
  }

  // ---------- Coverage needs a power of two ----------

  /** A full round of calls covers the other CPUs, from every seed and on every CPU. */
  ghost predicate AlwaysCovers(ncpu: nat)
    requires ncpu > 0
  {
    forall x: nat, id: nat, vs: seq<nat>, n: nat {:trigger Calls(x, ncpu, id, vs, n)} ::
      x < U32 && id < ncpu && Calls(x, ncpu, id, vs, n) && |vs| == ncpu - 1 ==> OnceEachOther(vs, ncpu, id)
  }

  /** CPU 0 counts up, the last CPU counts down. */
  function Weight(ncpu: nat): nat -> int
    requires ncpu > 0
  {
    (v: nat) => if v % ncpu == 0 then 1 else if v % ncpu == ncpu - 1 then -1 else 0
  }

  lemma NextResidue(v: nat, ncpu: nat)
    requires ncpu > 1
    ensures (v + 1) % ncpu == if v % ncpu == ncpu - 1 then 0 else v % ncpu + 1
  {
    var q, r := v / ncpu, v % ncpu;
    assert v == ncpu * q + r;
    if r == ncpu - 1 {
      Distribute(q, 1, ncpu);
      Unique(v + 1, ncpu, q + 1, 0);
    } else {
      Unique(v + 1, ncpu, q, r + 1);
    }
  }

  lemma {:induction false} WeightsBelow(m: nat, ncpu: nat)
    requires ncpu > 1
    ensures SumBelow(m, Weight(ncpu)) == if m % ncpu == 0 then 0 else 1
  {
    if m > 0 {
      WeightsBelow(m - 1, ncpu);
      NextResidue(m - 1, ncpu);
    }
  }

  function Residues(a: seq<nat>, ncpu: nat): (b: seq<nat>)
    requires ncpu > 0
    ensures |b| == |a|
  {
    seq(|a|, i requires 0 <= i < |a| => a[i] % ncpu)
  }

  lemma {:induction false} LeadIsWeights(a: seq<nat>, ncpu: nat)
    requires ncpu > 1
    ensures Lead(Residues(a, ncpu), ncpu - 1) == Sum(a, Weight(ncpu))
  {
    if a != [] {
      var n := |a| - 1;
      var b := a[..n];
      LeadIsWeights(b, ncpu);
      assert Residues(a, ncpu) == Residues(b, ncpu) + [a[n] % ncpu];
      LeadAdds(Residues(b, ncpu), [a[n] % ncpu], ncpu - 1);
    }
  }

  /** The seeds of one period are all 32-bit values, and the period ends where it began. */
  lemma OnePeriod(x: nat, ncpu: nat)
    requires x < U32 && ncpu > 1
    ensures Lead(Draws(x, ncpu, U32), ncpu - 1) == SumBelow(U32, Weight(ncpu)) && Seed(x, U32) == x
  {
    hide Pow2, Seed, Lead, Sum, SumBelow, Weight;
    var a := seq(U32, i requires 0 <= i < U32 => Seed(x, i + 1));
    Pow2Of32();
    forall i, j | 0 <= i < j < |a| ensures a[i] != a[j] { SeedsDiffer(x, i + 1, j + 1); }
    forall i | 0 <= i < |a| ensures a[i] < U32 { SeedBound(x, i + 1); }
    SumPermuted(a, U32, Weight(ncpu));
    LeadIsWeights(a, ncpu);
    assert Draws(x, ncpu, U32) == Residues(a, ncpu);
    var n := EverySeed(x, x);
    if n < U32 {
      SeedsDiffer(x, 0, n);
      SeedZero(x);
    }
  }

  lemma SeedsDiffer(x: nat, i: nat, j: nat)
    requires x < U32 && i < j < i + U32
    ensures Seed(x, i) != Seed(x, j)
  {
    hide Draw, Pow2, Seed;
    Pow2Of32();
    DrawsDiffer(x, 32, i, j);
    WholeDraw(x, i);
    WholeDraw(x, j);
  }

  lemma SeedZero(x: nat)
    ensures Seed(x, 0) == x
  {
  }

  /** More draws give more results. */
  lemma {:induction false} GoesOn(x: nat, ncpu: nat, id: nat, n: nat, len: nat) returns (m: nat)
    requires x < U32 && ncpu > 1
    ensures n <= m && len <= |Except(Draws(x, ncpu, m), id)|
    decreases len - |Except(Draws(x, ncpu, n), id)|
  {
    hide Draw, Seed;
    if len <= |Except(Draws(x, ncpu, n), id)| {
      m := n;
    } else {
      SeedBound(x, n);
      var i := SomeOther(Seed(x, n), ncpu, id);
      DrawsAdd(x, ncpu, n, i);
      ExceptAdds(Draws(x, ncpu, n), Draws(Seed(x, n), ncpu, i), id);
      m := GoesOn(x, ncpu, id, n + i, len);
    }
  }

  lemma CountsOne(vs: seq<nat>, ncpu: nat)
    requires ncpu > 2 && OnceEachOther(vs, ncpu, 1)
    ensures multiset(vs)[0] == 1 && Lead(vs, ncpu - 1) == 0
  {
    OnceEach(vs);
    assert 0 in vs && ncpu - 1 in vs;
  }

  lemma PrefixLead(a: seq<nat>, b: seq<nat>, last: nat)
    requires a <= b && multiset(b)[0] == 1
    ensures Lead(a, last) <= 1
  {
    assert b == a + b[|a|..];
  }

  /** Where coverage is certain, CPU 0 is never ahead of the last CPU by more than one. Here
      the calling CPU is CPU 1. */
  lemma {:induction false} LeadStaysSmall(x: nat, ncpu: nat, n: nat)
    requires x < U32 && ncpu > 2 && AlwaysCovers(ncpu)
    ensures Lead(Draws(x, ncpu, n), ncpu - 1) <= 1
    decreases n
  {
    hide Draw, Seed, Draws, Lead, OnceEachOther, AlwaysCovers, Except;
    var end := GoesOn(x, ncpu, 1, n, ncpu - 1);
    var m := FullRound(x, ncpu, end);
    var a, b := Draws(x, ncpu, n), Draws(x, ncpu, m);
    CountsOne(Except(b, 1), ncpu);
    LeadExcept(b, 1, ncpu - 1);
    if m <= n {
      DrawsAdd(x, ncpu, m, n - m);
      LeadAdds(b, Draws(Seed(x, m), ncpu, n - m), ncpu - 1);
      SeedBound(x, m);
      LeadStaysSmall(Seed(x, m), ncpu, n - m);
    } else {
      DrawsPrefix(x, ncpu, m, n);
      ExceptPrefix(b, n, 1);
      PrefixLead(Except(a, 1), Except(b, 1), ncpu - 1);
      LeadExcept(a, 1, ncpu - 1);
    }
  }

  /** The first full round among n draws. */
  lemma FullRound(x: nat, ncpu: nat, n: nat) returns (m: nat)
    requires x < U32 && ncpu > 2 && AlwaysCovers(ncpu) && ncpu - 1 <= |Except(Draws(x, ncpu, n), 1)|
    ensures 0 < m <= n && OnceEachOther(Except(Draws(x, ncpu, m), 1), ncpu, 1)
  {
    hide Draw, OnceEachOther, Except;
    var a := Draws(x, ncpu, n);
    m := Completes(a, 1, ncpu - 1);
    DrawsPrefix(x, ncpu, n, m);
    assert Calls(x, ncpu, 1, Except(a[..m], 1), m);
  }

  /** But over two periods it gets ahead by two, unless ncpu divides 2^32. */
  lemma CoverageDivides(ncpu: nat)
    requires 2 < ncpu && AlwaysCovers(ncpu)
    ensures U32 % ncpu == 0
  {
    hide Lead, SumBelow, Weight, Seed, AlwaysCovers, Draws;
    OnePeriod(0, ncpu);
    WeightsBelow(U32, ncpu);
    DrawsAdd(0, ncpu, U32, U32);
    LeadAdds(Draws(0, ncpu, U32), Draws(0, ncpu, U32), ncpu - 1);
    LeadStaysSmall(0, ncpu, U32 + U32);
  }

  /** NCPU - 1 consecutive calls return every other CPU exactly once, for all seeds and all
      calling CPUs, if and only if NCPU is a power of two. */
  lemma CoverageIff(ncpu: nat)
    requires 1 <= ncpu <= U32
    ensures AlwaysCovers(ncpu) <==> exists k: nat :: k <= 32 && ncpu == Pow2(k)
  {
    hide Calls, OnceEachOther, AlwaysCovers, Pow2;
    Pow2Of32();
    if k: nat :| k <= 32 && ncpu == Pow2(k) {
      PowerCovers(k);
    } else if AlwaysCovers(ncpu) {
      SmallPowers();
      CoverageDivides(ncpu);
      var d := U32 / ncpu;
      assert ncpu * d == Pow2(32);
      var k := DivisorOfPow2(ncpu, d, 32);
    }
  }

  lemma SmallPowers()
    ensures Pow2(0) == 1 && Pow2(1) == 2
  {
  }

  lemma PowerCovers(k: nat)
    requires k <= 32
    ensures AlwaysCovers(Pow2(k))
  {
    hide Calls, OnceEachOther, Pow2;
    forall x: nat, id: nat, vs: seq<nat>, n: nat | x < U32 && id < Pow2(k) && Calls(x, Pow2(k), id, vs, n)
        && |vs| == Pow2(k) - 1
      ensures OnceEachOther(vs, Pow2(k), id)
    {
      VictimCoverage(x, k, id, vs, n);
    }
  }

  /** For instance with three CPUs: from the seed at boot two calls of CPU 1 both return CPU 2. */
  lemma CoverageFails()
    ensures Calls(3791412, 3, 1, [2, 2], 3)
  {
    assert Seed(3791412, 0) == 3791412;
    assert Seed(3791412, 1) == 2975199325;
    assert Seed(3791412, 2) == 901897682;
    assert Seed(3791412, 3) == 3616382627;
    assert Draws(3791412, 3, 3) == [1, 2, 2];
    assert Except([1], 1) == [] && [1, 2][..1] == [1] && [1, 2, 2][..2] == [1, 2];
    assert Except([1, 2], 1) == [2];
  }
}
