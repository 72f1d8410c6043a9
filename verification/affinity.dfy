/** The round-robin core allocator of pkg/sandbox/affinity.go. */
module Affinity {

  class CorePool {
    var nextCore: nat
    const numCPU: int

    constructor (numCPU: int)
      ensures nextCore == 0 && this.numCPU == numCPU
    {
      nextCore, this.numCPU := 0, numCPU;
    }

    method AllocateNextCore() returns (core: nat)
      modifies this
      ensures numCPU <= 1 ==> core == 0 && nextCore == old(nextCore)
      ensures numCPU > 1 ==> core == old(nextCore) % numCPU && nextCore == old(nextCore) + 1
    {
      if numCPU <= 1 {
        return 0;
      }
      core := nextCore % numCPU;
      nextCore := nextCore + 1;
    }
  }

  /** k allocations from a fresh pool. */
  method AllocateMany(numCPU: int, k: nat) returns (cores: seq<nat>)
    requires numCPU > 1
    ensures |cores| == k
    ensures forall i :: 0 <= i < k ==> cores[i] == i % numCPU
  {
    var pool := new CorePool(numCPU);
    cores := [];
    while |cores| < k
      invariant |cores| <= k && pool.nextCore == |cores|
      invariant forall i :: 0 <= i < |cores| ==> cores[i] == i % numCPU
    {
      var core := pool.AllocateNextCore();
      cores := cores + [core];
    }
  }

  /** A sequence of allocations in round-robin order. */
  ghost predicate RoundRobin(cores: seq<nat>, n: nat) {
    n > 1 && forall i :: 0 <= i < |cores| ==> cores[i] == i % n
  }

  function Count(cores: seq<nat>, c: nat): nat {
    if cores == [] then 0
    else Count(cores[..|cores| - 1], c) + if cores[|cores| - 1] == c then 1 else 0
  }

  lemma MulMinus(a: int, b: int, n: nat)
    ensures (a - b) * n == a * n - b * n
  {
  }

  lemma MulOrder(a: int, b: int, n: nat)
    requires a <= b
    ensures a * n <= b * n
  {
  }

  lemma MulUnique(a: int, b: int, n: nat, r: nat, s: nat)
    requires r < n && s < n && a * n + r == b * n + s
    ensures a == b
  {
    MulMinus(a, b, n);
    if a > b {
      MulOrder(1, a - b, n);
    } else if a < b {
      MulOrder(a - b, -1, n);
    }
  }

  lemma Quotient(k: nat, n: nat, q: nat, r: nat)
    requires r < n && k == q * n + r
    ensures k / n == q && k % n == r
  {
    MulUnique(k / n, q, n, k % n, r);
  }

  lemma ModStep(k: nat, n: nat)
    requires n > 1
    ensures (k + 1) % n == if k % n == n - 1 then 0 else k % n + 1
    ensures (k + 1) / n == if k % n == n - 1 then k / n + 1 else k / n
  {
    var q, r := k / n, k % n;
    MulMinus(q + 1, q, n);
    if r == n - 1 {
      Quotient(k + 1, n, q + 1, 0);
    } else {
      Quotient(k + 1, n, q, r + 1);
    }
  }

  /** After k allocations core c was handed out k/n times, once more if c < k mod n. */
  lemma {:induction false} CountIsFair(cores: seq<nat>, n: nat, c: nat)
    requires RoundRobin(cores, n) && c < n
    ensures Count(cores, c) == |cores| / n + if c < |cores| % n then 1 else 0
  {
    if cores == [] {
      Quotient(0, n, 0, 0);
    } else {
      var k := |cores| - 1;
      CountIsFair(cores[..k], n, c);
      ModStep(k, n);
    }
  }

  /** After any number of allocations the loads of two cores differ by at most one. */
  lemma LoadsAreBalanced(cores: seq<nat>, n: nat, c: nat, d: nat)
    requires RoundRobin(cores, n) && c < n && d < n
    ensures Count(cores, c) - Count(cores, d) <= 1
  {
    CountIsFair(cores, n, c);
    CountIsFair(cores, n, d);
  }

  lemma {:induction false} CountConcat(a: seq<nat>, b: seq<nat>, c: nat)
    ensures Count(a + b, c) == Count(a, c) + Count(b, c)
  {
    if b == [] {
      assert a + b == a;
    } else {
      assert (a + b)[..|a + b| - 1] == a + b[..|b| - 1];
      CountConcat(a, b[..|b| - 1], c);
    }
  }

  lemma NextRound(k: nat, n: nat)
    requires n > 1
    ensures (k + n) / n == k / n + 1 && (k + n) % n == k % n
  {
    MulMinus(k / n + 1, k / n, n);
    Quotient(k + n, n, k / n + 1, k % n);
  }

  /** Every n consecutive allocations are a permutation of the cores. */
  lemma WindowIsPermutation(cores: seq<nat>, n: nat, from: nat, c: nat)
    requires RoundRobin(cores, n) && from + n <= |cores| && c < n
    ensures Count(cores[from..from + n], c) == 1
    ensures forall i :: from <= i < from + n ==> cores[i] < n
  {
    assert cores[..from + n] == cores[..from] + cores[from..from + n];
    CountConcat(cores[..from], cores[from..from + n], c);
    CountIsFair(cores[..from + n], n, c);
    CountIsFair(cores[..from], n, c);
    NextRound(from, n);
  }
}
