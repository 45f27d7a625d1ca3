// Connecting with exponential backoff.

module Connection {
  import opened Base

  function Pow2(n: nat): (p: nat)
    ensures p >= 1
  { if n == 0 then 1 else 2 * Pow2(n - 1) }

  function Min(a: nat, b: nat): nat { if a <= b then a else b }

  /** The sleep after failure n + 1: the first delay is not clamped. */
  function Delay(initial: nat, max: nat, n: nat): nat {
    if n == 0 then initial else Min(initial * Pow2(n), max)
  }

  function TotalSlept(initial: nat, max: nat, n: nat): nat {
    if n == 0 then 0 else TotalSlept(initial, max, n - 1) + Delay(initial, max, n - 1)
  }

  lemma NextDelay(initial: nat, max: nat, n: nat)
    ensures Min(2 * Delay(initial, max, n), max) == Delay(initial, max, n + 1)
  {
    assert initial * Pow2(n + 1) == 2 * (initial * Pow2(n));
  }

  /** Delays never shrink, exactly when the first one is within the maximum. */
  lemma DelaysGrowIff(initial: nat, max: nat)
    ensures (forall n: nat :: Delay(initial, max, n) <= Delay(initial, max, n + 1)) <==> initial <= max
  {
    NextDelay(initial, max, 0);
    if initial > max {
      assert Delay(initial, max, 0) > Delay(initial, max, 0 + 1);
    } else {
      forall n: nat ensures Delay(initial, max, n) <= Delay(initial, max, n + 1) { NextDelay(initial, max, n); }
    }
  }

  lemma {:induction false} TotalSleptBounds(initial: nat, max: nat, n: nat)
    requires n >= 1
    ensures TotalSlept(initial, max, n) <= initial * (Pow2(n) - 1)
    ensures TotalSlept(initial, max, n) <= initial + (n - 1) * max
  {
    if n > 1 {
      TotalSleptBounds(initial, max, n - 1);
      DoublingSums(initial, Pow2(n - 1), max, n - 2);
      assert Delay(initial, max, n - 1) <= initial * Pow2(n - 1);
      assert Delay(initial, max, n - 1) <= max;
    }
  }

  lemma DoublingSums(a: nat, p: nat, b: nat, k: nat)
    requires p >= 1
    ensures a * (2 * p - 1) == a * (p - 1) + a * p
    ensures (k + 1) * b == k * b + b
  {
  }

  /** `outcomes` are the results of successive dials. Ends at the first success; otherwise it is still
      retrying when the outcomes run out. */
  method ConnectWithRetry(initial: nat, max: nat, outcomes: seq<bool>) returns (connected: bool, sleeps: seq<nat>)
    ensures connected ==> |sleeps| < |outcomes| && outcomes[|sleeps|]
    ensures !connected ==> |sleeps| == |outcomes|
    ensures forall k :: 0 <= k < |sleeps| ==> !outcomes[k] && sleeps[k] == Delay(initial, max, k)
  {
    var delay := initial;
    sleeps := [];
    for i := 0 to |outcomes|
      invariant |sleeps| == i && delay == Delay(initial, max, i)
      invariant forall k :: 0 <= k < i ==> !outcomes[k] && sleeps[k] == Delay(initial, max, k)
    {
      if outcomes[i] {
        return true, sleeps;
      }
      sleeps := sleeps + [delay];
      NextDelay(initial, max, i);
      delay := Min(delay * 2, max);
    }
    connected := false;
  }
}
