/**
 * The per-app round-robin load balancer (pkg/proxy/lb.go): a list of
 * backend addresses and one int32 counter that every selection advances.
 * Calls are modelled one after another; the atomic fetch-and-add of the
 * source is what makes that sequential view sound.
 */
module Lb {
  import opened Ints

  class LoadBalancer {
    const targets: seq<string>
    var next: int32

    /** `&loadbalancer{targets: ...}`: the counter starts at Go's zero value. */
    constructor (targets: seq<string>)
      ensures this.targets == targets && next == 0
    {
      this.targets := targets;
      next := 0;
    }

    /**
     * `nextInLine`: adds 1 to the counter with int32 wrap-around and returns
     * the counter value from before the call (recomputed as `n-1` in int32
     * arithmetic) taken `%` the number of targets with Go's truncating
     * remainder. An empty target list divides by zero, hence the requires.
     */
    method NextInLine() returns (i: int)
      requires |targets| > 0
      modifies this
      ensures next == WrapInt32(old(next) as int + 1)
      ensures i == GoRem(old(next) as int, |targets|)
      ensures 0 <= old(next) ==> 0 <= i < |targets|
      ensures old(next) as int % |targets| == 0 ==> i == 0
    {
      var n := WrapInt32(next as int + 1);
      next := n;
      i := GoRem(WrapInt32(n as int - 1) as int, |targets|);
    }

    /**
     * `GetNextTartget`: the target at the index `NextInLine` returns. Once
     * the counter has wrapped past MAX_INT32 it is negative, and the index
     * is negative (so the source panics) unless the counter is a multiple of
     * the number of targets, in which case the index is 0.
     */
    method GetNextTarget() returns (t: string)
      requires |targets| > 0
      requires 0 <= next || next as int % |targets| == 0
      modifies this
      ensures next == WrapInt32(old(next) as int + 1)
      ensures t == targets[old(next) as int % |targets|]
      ensures 0 <= old(next) ==> t == RoundRobin(targets, old(next) as nat, 1)[0]
    {
      var i := NextInLine();
      t := targets[i];
    }
  }

  /**
   * The targets that k successive selections return when the counter starts
   * at c and does not wrap: selection i picks `targets[(c + i) mod L]`.
   */
  function RoundRobin(targets: seq<string>, c: nat, k: nat): seq<string>
    requires |targets| > 0
  {
    seq(k, i requires 0 <= i < k => targets[(c + i) % |targets|])
  }

  /** x mod L is x's distance above the nearest multiple of L below it. */
  lemma ModOfMultiplePlus(q: nat, n: nat, s: nat)
    requires n > 0 && s < n
    ensures (q * n + s) % n == s
  {
    var x := q * n + s;
    var d := x / n - q;
    assert x == n * (x / n) + x % n;
    assert n * (x / n) == n * q + n * d;
    assert n * d == s - x % n;
  }

  /** Stepping a counter by i < L moves its residue by i, wrapping once at most. */
  lemma ModStep(c: nat, i: nat, n: nat)
    requires n > 0 && i < n
    ensures (c + i) % n == if c % n + i < n then c % n + i else c % n + i - n
  {
    var q, r := c / n, c % n;
    assert c == q * n + r;
    if r + i < n {
      ModOfMultiplePlus(q, n, r + i);
      assert c + i == q * n + (r + i);
    } else {
      ModOfMultiplePlus(q + 1, n, r + i - n);
      assert c + i == (q + 1) * n + (r + i - n);
    }
  }

  /**
   * From any counter value c, L = |targets| successive selections return the
   * target list rotated to start at `targets[c mod L]`: every position once,
   * in cyclic order.
   */
  lemma RoundRobinIsRotation(targets: seq<string>, c: nat)
    requires |targets| > 0
    ensures RoundRobin(targets, c, |targets|) == targets[c % |targets|..] + targets[..c % |targets|]
  {
    var n, r := |targets|, c % |targets|;
    var rot := targets[r..] + targets[..r];
    forall i | 0 <= i < n
      ensures RoundRobin(targets, c, n)[i] == rot[i]
    {
      ModStep(c, i, n);
    }
  }

  /** L successive selections return each target exactly once (as a multiset). */
  lemma RoundRobinEachOnce(targets: seq<string>, c: nat)
    requires |targets| > 0
    ensures multiset(RoundRobin(targets, c, |targets|)) == multiset(targets)
  {
    var r := c % |targets|;
    RoundRobinIsRotation(targets, c);
    assert targets == targets[..r] + targets[r..];
  }

  /** Selection k + L repeats selection k; in particular call L + 1 repeats the first. */
  lemma RoundRobinPeriodic(targets: seq<string>, c: nat, k: nat)
    requires |targets| > 0
    ensures RoundRobin(targets, c, k + |targets| + 1)[k + |targets|] == RoundRobin(targets, c, k + 1)[k]
  {
    var n := |targets|;
    var q, r := (c + k) / n, (c + k) % n;
    assert c + k == q * n + r;
    assert c + k + n == (q + 1) * n + r;
    ModOfMultiplePlus(q + 1, n, r);
  }

  /** A freshly built balancer (counter 0) hands out the targets in list order. */
  lemma FreshBalancerInOrder(targets: seq<string>)
    requires |targets| > 0
    ensures RoundRobin(targets, 0, |targets|) == targets
  {
    RoundRobinIsRotation(targets, 0);
  }

  /** One more selection appends the target at the next counter value. */
  lemma RoundRobinSnoc(targets: seq<string>, c: nat, k: nat)
    requires |targets| > 0
    ensures RoundRobin(targets, c, k + 1) == RoundRobin(targets, c, k) + [targets[(c + k) % |targets|]]
  {
  }
}
