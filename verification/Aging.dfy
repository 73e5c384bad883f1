/**
 The effective priority of the adaptive scheduler, in C's arithmetic: a 32-bit tick counter,
 a 64-bit subtraction, a 32-bit unsigned product, a conversion to int and a clamp from below.
 */
module Aging {
  import opened Words

  const PRIORITY_MAX := 10000
  const PRIORITY_MIN := 0
  const AGING_RATE := 10

  /** The longest wait for which the product stays below 2^31. */
  const LONGEST_WAIT := 214748364

  /** `(uint64)ticks - p->age_start`, both stored modulo 2^32. */
  function Wait64(now: nat, age: nat): nat {
    (now % U32 - age % U32) % U64
  }

  /** `(int)((uint)wait * AGING_RATE)` */
  function Decay(wait: nat): int {
    ToInt((wait % U32 * AGING_RATE) % U32)
  }

  /** The int subtraction `p->priority - (int)(...)` leaves the range of int, which C does not
      define. */
  predicate Overflows(pri: int, now: nat, age: nat) { !IsInt(pri - Decay(Wait64(now, age))) }

  /** A 32-bit subtract instruction wraps around. */
  function Wrap(x: int): int { ToInt(x % U32) }

  /** The value that the scan compares; `now` and `age` count ticks without wrapping. Where the
      subtraction overflows this is what a machine computes that wraps around. */
  function Effective(pri: int, now: nat, age: nat): int {
    var curr := Wrap(pri - Decay(Wait64(now, age)));
    if curr < PRIORITY_MIN then PRIORITY_MIN else curr
  }

  /** What the scan means to compute. */
  function Aged(pri: int, wait: nat): int {
    if pri - wait * AGING_RATE < 0 then 0 else pri - wait * AGING_RATE
  }

  lemma ModMod(x: int)
    ensures x % U64 % U32 == x % U32
  {
    assert x % U64 == x - U64 * (x / U64);
    assert (x - U64 * (x / U64)) % U32 == x % U32 by { AddMultiple(x, -0x1_0000_0000 * (x / U64)); }
  }

  lemma AddMultiple(x: int, k: int)
    ensures (x + U32 * k) % U32 == x % U32
  {
  }

  /** Truncation to 32 bits undoes the wrap-around of the tick counter. */
  lemma WaitSurvivesWrap(now: nat, age: nat)
    requires age <= now
    ensures Wait64(now, age) % U32 == (now - age) % U32
  {
    ModMod(now % U32 - age % U32);
    AddMultiple(now - age, age / U32 - now / U32);
    assert now % U32 - age % U32 == now - age + U32 * (age / U32 - now / U32);
  }

  lemma ProductModulo(wait: nat)
    ensures (wait % U32 * AGING_RATE) % U32 == (wait * AGING_RATE) % U32
  {
    AddMultiple(wait % U32 * AGING_RATE, wait / U32 * AGING_RATE);
    assert wait * AGING_RATE == wait % U32 * AGING_RATE + U32 * (wait / U32 * AGING_RATE);
  }

  lemma WrapIs(x: int)
    ensures IsInt(x) ==> Wrap(x) == x
    ensures INT_MAX < x < U32 ==> Wrap(x) == x - U32
  {
  }

  /** For every wait up to 214748364 ticks the code computes max(0, priority - 10 * wait)
      and its int subtraction does not overflow. */
  lemma AgingIsExact(pri: int, now: nat, age: nat)
    requires 0 <= pri <= PRIORITY_MAX && age <= now && now - age <= LONGEST_WAIT
    ensures !Overflows(pri, now, age) && Effective(pri, now, age) == Aged(pri, now - age)
  {
    hide Wrap;
    WaitSurvivesWrap(now, age);
    WrapIs(pri - Decay(Wait64(now, age)));
  }

  /** The 32-bit product, before it is taken as an int. */
  function Product(wait: nat): (m: nat)
    ensures m < U32
  {
    (wait * AGING_RATE) % U32
  }

  lemma DecayIsProduct(now: nat, age: nat)
    requires age <= now
    ensures Decay(Wait64(now, age)) == ToInt(Product(now - age))
  {
    WaitSurvivesWrap(now, age);
    ProductModulo(now - age);
    ProductModulo(Wait64(now, age));
  }

  /** The subtraction overflows exactly when the product, taken as an int, is so far below
      zero that the priority does not fit on top. */
  lemma OverflowsWhen(pri: int, now: nat, age: nat)
    requires 0 <= pri <= PRIORITY_MAX && age <= now
    ensures Overflows(pri, now, age) <==> INT_MAX < Product(now - age) <= INT_MAX + 1 + pri
  {
    hide Decay, Wait64, Product;
    DecayIsProduct(now, age);
  }

  lemma PastTheBound(pri: int, wait: nat)
    requires 0 <= pri <= PRIORITY_MAX
    ensures wait <= LONGEST_WAIT ==> Product(wait) == wait * AGING_RATE <= INT_MAX
    ensures LONGEST_WAIT < wait ==> Aged(pri, wait) == 0
  {
  }

  /** For all waits: where the subtraction does not overflow, the result is right if and only
      if the wait is within the bound, or the product modulo 2^32 is again a positive int and
      at least the priority, so that both sides are 0. */
  lemma AgingExactWhen(pri: int, now: nat, age: nat)
    requires 0 <= pri <= PRIORITY_MAX && age <= now && !Overflows(pri, now, age)
    ensures Effective(pri, now, age) == Aged(pri, now - age) <==>
      now - age <= LONGEST_WAIT || pri <= Product(now - age) <= INT_MAX
  {
    hide Decay, Wait64, Product, Wrap, Aged;
    DecayIsProduct(now, age);
    WrapIs(pri - ToInt(Product(now - age)));
    PastTheBound(pri, now - age);
    if now - age <= LONGEST_WAIT { AgingIsExact(pri, now, age); }
  }

  /** Where it overflows, wrapping around happens to give the right result, 0. */
  lemma OverflowWrapsRight(pri: int, now: nat, age: nat)
    requires 0 <= pri <= PRIORITY_MAX && age <= now && Overflows(pri, now, age)
    ensures Effective(pri, now, age) == Aged(pri, now - age) == 0
  {
    hide Decay, Wait64, Product, Wrap, Aged;
    DecayIsProduct(now, age);
    WrapIs(pri - ToInt(Product(now - age)));
    PastTheBound(pri, now - age);
  }

  /** At the one priority that occurs: the first wait past the bound overflows, and after 500
      more ticks the longest waiter becomes the least urgent, without any overflow. */
  lemma AgingBreaksAt()
    ensures Overflows(5000, LONGEST_WAIT + 1, 0)
    ensures !Overflows(5000, LONGEST_WAIT + 501, 0)
    ensures Effective(5000, LONGEST_WAIT + 501, 0) == 2147483646 > PRIORITY_MAX
    ensures Aged(5000, LONGEST_WAIT + 501) == 0
  {
    OverflowsWhen(5000, LONGEST_WAIT + 1, 0);
    OverflowsWhen(5000, LONGEST_WAIT + 501, 0);
    DecayIsProduct(LONGEST_WAIT + 501, 0);
    WrapIs(2147483646);
  }

  function Saturated(wait: nat): nat { if wait < 500 then wait else 500 }

  /** With the one priority that occurs, a smaller effective priority is a longer wait, and
      waits count up to 500 ticks. */
  lemma OlderIsMoreUrgent(now: nat, a: nat, b: nat)
    requires a <= now && b <= now && now - a <= LONGEST_WAIT && now - b <= LONGEST_WAIT
    ensures Effective(5000, now, a) < Effective(5000, now, b) <==> Saturated(now - a) > Saturated(now - b)
    ensures Effective(5000, now, a) <= 5000
  {
    AgingIsExact(5000, now, a);
    AgingIsExact(5000, now, b);
  }
}
