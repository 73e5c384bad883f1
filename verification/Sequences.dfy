/**
 Sequences of slots and CPUs without duplicates, and the pigeonhole principle for them.
 */
module Sequences {

  predicate NoDuplicates(a: seq<nat>) { forall i, j {:trigger a[i], a[j]} :: 0 <= i < j < |a| ==> a[i] != a[j] }

  lemma {:induction false} OnceEach(a: seq<nat>)
    ensures NoDuplicates(a) <==> forall x {:trigger multiset(a)[x]} :: multiset(a)[x] <= 1
  {
    if a != [] {
      var n := |a| - 1;
      assert a == a[..n] + [a[n]];
      OnceEach(a[..n]);
      assert a[n] in a[..n] <==> multiset(a[..n])[a[n]] >= 1;
      assert multiset(a)[a[n]] == multiset(a[..n])[a[n]] + 1;
      if NoDuplicates(a[..n]) && a[n] !in a[..n] {
        forall x ensures multiset(a)[x] <= 1 {
          assert multiset(a)[x] == multiset(a[..n])[x] + if x == a[n] then 1 else 0;
        }
      } else if forall x :: multiset(a)[x] <= 1 {
        forall x ensures multiset(a[..n])[x] <= 1 { assert multiset(a[..n])[x] <= multiset(a)[x]; }
        assert false;
      }
    }
  }

  lemma PermutationKeepsDistinct(a: seq<nat>, b: seq<nat>)
    requires multiset(a) == multiset(b) && NoDuplicates(a)
    ensures NoDuplicates(b)
  {
    OnceEach(a);
    OnceEach(b);
  }

  /** Different members of a set are at most as many as the set has. */
  lemma {:induction false} DistinctFit(a: seq<nat>, s: set<nat>)
    requires NoDuplicates(a) && forall x :: 0 <= x < |a| ==> a[x] in s
    ensures |a| <= |s|
  {
    if a != [] {
      var n := |a| - 1;
      DistinctFit(a[..n], s - {a[n]});
    }
  }

  function Below(n: nat): set<nat> { if n == 0 then {} else Below(n - 1) + {n - 1} }

  lemma {:induction false} BelowIs(n: nat)
    ensures |Below(n)| == n && forall x: nat {:trigger x in Below(n)} :: x in Below(n) <==> x < n
  {
    if n > 0 { BelowIs(n - 1); }
  }

  /** n different numbers below n are all of them. */
  lemma AllCovered(a: seq<nat>, n: nat, x: nat)
    requires NoDuplicates(a) && |a| == n && (forall i {:trigger a[i]} :: 0 <= i < n ==> a[i] < n) && x < n
    ensures x in a
  {
    BelowIs(n);
    if x !in a {
      DistinctFit(a, Below(n) - {x});
    }
  }

  // ---------- Leaving out a value ----------

  /** a without the occurrences of v. */
  function Except(a: seq<nat>, v: nat): seq<nat> {
    if a == [] then [] else Except(a[..|a| - 1], v) + if a[|a| - 1] != v then [a[|a| - 1]] else []
  }

  lemma {:induction false} ExceptAdds(a: seq<nat>, b: seq<nat>, v: nat)
    ensures Except(a + b, v) == Except(a, v) + Except(b, v)
  {
    if b == [] {
      assert a + b == a;
    } else {
      var n := |b| - 1;
      assert (a + b)[..|a + b| - 1] == a + b[..n];
      ExceptAdds(a, b[..n], v);
    }
  }

  lemma CountMore(a: seq<nat>, y: nat, x: nat)
    ensures multiset(a + [y])[x] == multiset(a)[x] + if x == y then 1 else 0
  {
  }

  lemma CountLast(a: seq<nat>, x: nat)
    requires a != []
    ensures multiset(a)[x] == multiset(a[..|a| - 1])[x] + if x == a[|a| - 1] then 1 else 0
  {
    assert a == a[..|a| - 1] + [a[|a| - 1]];
  }

  lemma {:induction false} ExceptEntries(a: seq<nat>, v: nat, x: nat)
    ensures multiset(Except(a, v))[x] == if x == v then 0 else multiset(a)[x]
  {
    if a != [] {
      var n := |a| - 1;
      ExceptEntries(a[..n], v, x);
      CountLast(a, x);
      CountMore(Except(a[..n], v), a[n], x);
    }
  }

  lemma {:induction false} ExceptLength(a: seq<nat>, v: nat)
    ensures |Except(a, v)| == |a| - multiset(a)[v]
  {
    if a != [] {
      var n := |a| - 1;
      ExceptLength(a[..n], v);
      assert a == a[..n] + [a[n]];
    }
  }

  lemma ExceptHas(a: seq<nat>, v: nat)
    ensures forall x: nat {:trigger x in Except(a, v)} :: x in Except(a, v) <==> x in a && x != v
  {
    forall x: nat ensures x in Except(a, v) <==> x in a && x != v {
      ExceptEntries(a, v, x);
      assert x in Except(a, v) <==> x in multiset(Except(a, v));
      assert x in a <==> x in multiset(a);
    }
  }

  lemma ExceptDistinct(a: seq<nat>, v: nat)
    requires NoDuplicates(a)
    ensures NoDuplicates(Except(a, v)) && |Except(a, v)| == if v in a then |a| - 1 else |a|
  {
    OnceEach(a);
    ExceptLength(a, v);
    assert v in a <==> v in multiset(a);
    forall x ensures multiset(Except(a, v))[x] <= 1 {
      ExceptEntries(a, v, x);
    }
    OnceEach(Except(a, v));
  }

  lemma ExceptPrefix(a: seq<nat>, n: nat, v: nat)
    requires n <= |a|
    ensures Except(a[..n], v) <= Except(a, v)
  {
    assert a == a[..n] + a[n..];
    ExceptAdds(a[..n], a[n..], v);
  }

  lemma {:induction false} ExceptAll(a: seq<nat>, v: nat)
    requires forall i {:trigger a[i]} :: 0 <= i < |a| ==> a[i] == v
    ensures Except(a, v) == []
  {
    if a != [] { ExceptAll(a[..|a| - 1], v); }
  }

  /** The entry that completes the first len of them. */
  lemma {:induction false} Completes(a: seq<nat>, v: nat, len: nat) returns (m: nat)
    requires 0 < len <= |Except(a, v)|
    ensures 0 < m <= |a| && |Except(a[..m], v)| == len && a[m - 1] != v
  {
    var n := |a| - 1;
    if len <= |Except(a[..n], v)| {
      m := Completes(a[..n], v, len);
      assert a[..n][..m] == a[..m];
    } else {
      m := |a|;
      assert a[..m] == a;
    }
  }

  // ---------- Counting ----------

  /** How much more often 0 than last occurs. */
  function Lead(a: seq<nat>, last: nat): int { multiset(a)[0] as int - multiset(a)[last] as int }

  lemma LeadAdds(a: seq<nat>, b: seq<nat>, last: nat)
    ensures Lead(a + b, last) == Lead(a, last) + Lead(b, last)
  {
  }

  lemma LeadExcept(a: seq<nat>, v: nat, last: nat)
    requires v != 0 && v != last
    ensures Lead(Except(a, v), last) == Lead(a, last)
  {
    ExceptEntries(a, v, 0);
    ExceptEntries(a, v, last);
  }

  function Sum(a: seq<nat>, w: nat -> int): int {
    if a == [] then 0 else Sum(a[..|a| - 1], w) + w(a[|a| - 1])
  }

  /** The sum over the numbers below m. */
  function SumBelow(m: nat, w: nat -> int): int { if m == 0 then 0 else SumBelow(m - 1, w) + w(m - 1) }

  lemma {:induction false} SumAdds(a: seq<nat>, b: seq<nat>, w: nat -> int)
    ensures Sum(a + b, w) == Sum(a, w) + Sum(b, w)
  {
    if b == [] {
      assert a + b == a;
    } else {
      var n := |b| - 1;
      assert (a + b)[..|a + b| - 1] == a + b[..n];
      SumAdds(a, b[..n], w);
    }
  }

  lemma SumOne(v: nat, w: nat -> int)
    ensures Sum([v], w) == w(v)
  {
    assert [v][..0] == [];
  }

  lemma SumWithout(a: seq<nat>, j: nat, w: nat -> int)
    requires j < |a|
    ensures Sum(a, w) == Sum(a[..j] + a[j + 1..], w) + w(a[j])
  {
    hide Sum;
    var b, v, c := a[..j], [a[j]], a[j + 1..];
    assert a == (b + v) + c;
    SumOne(a[j], w);
    SumAdds(b + v, c, w);
    SumAdds(b, v, w);
    SumAdds(b, c, w);
  }

  /** The order of the numbers does not matter. */
  lemma {:induction false} SumPermuted(a: seq<nat>, m: nat, w: nat -> int)
    requires |a| == m && NoDuplicates(a) && forall i {:trigger a[i]} :: 0 <= i < m ==> a[i] < m
    ensures Sum(a, w) == SumBelow(m, w)
  {
    hide NoDuplicates;
    if m > 0 {
      AllCovered(a, m, m - 1);
      var j :| 0 <= j < m && a[j] == m - 1;
      SumWithout(a, j, w);
      Without(a, j);
      SumPermuted(a[..j] + a[j + 1..], m - 1, w);
    }
  }

  lemma Without(a: seq<nat>, j: nat)
    requires NoDuplicates(a) && j < |a| && a[j] == |a| - 1 && forall i {:trigger a[i]} :: 0 <= i < |a| ==> a[i] < |a|
    ensures var b := a[..j] + a[j + 1..];
      |b| == |a| - 1 && NoDuplicates(b) && forall i {:trigger b[i]} :: 0 <= i < |b| ==> b[i] < |b|
  {
    var b := a[..j] + a[j + 1..];
    assert forall i :: 0 <= i < |b| ==> b[i] == if i < j then a[i] else a[i + 1];
  }
}
