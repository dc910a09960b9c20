/**
 The durations of a search, as exact reals: the overall timeout and the
 pacing of repeated broadcasts, with what they imply for how many sends fit
 before the timeout fires.
 */
module Timing {
  import opened Ssdp

  /** The fixed slack added to the last response window. */
  const TimeoutSlack: real := 0.1

  /** `maximumBroadcastsBeforeClosing * maximumWaitResponseTime + 0.1`. */
  function SearchTimeout(c: Configuration): real
  {
    (c.maximumBroadcastsBeforeClosing as real) * c.maximumWaitResponseTime + TimeoutSlack
  }

  /** The repeat interval of the newer session's broadcast timer (only used for more than one broadcast). */
  function BroadcastInterval(c: Configuration): real
    requires c.maximumBroadcastsBeforeClosing > 1
  {
    (SearchTimeout(c) - c.maximumWaitResponseTime) / ((c.maximumBroadcastsBeforeClosing - 1) as real)
  }

  lemma ProductNonNegative(a: real, b: real)
    requires a >= 0.0 && b >= 0.0
    ensures a * b >= 0.0
  {
  }

  lemma ProductPositive(a: real, b: real)
    requires a > 0.0 && b > 0.0
    ensures a * b > 0.0
  {
  }

  lemma ScaledSign(a: real, b: real)
    requires b > 0.0
    ensures a * b > 0.0 ==> a > 0.0
    ensures a * b < 0.0 ==> a < 0.0
  {
  }

  /**
   The repeats are spread over the window before the last response period:
   the last of them, N - 1 intervals after the first send, leaves exactly one
   response wait before the timeout.
   */
  lemma LastBroadcastLeavesFullWindow(c: Configuration)
    requires c.maximumBroadcastsBeforeClosing > 1
    ensures SearchTimeout(c) - ((c.maximumBroadcastsBeforeClosing - 1) as real) * BroadcastInterval(c)
            == c.maximumWaitResponseTime
  {
    var m := (c.maximumBroadcastsBeforeClosing - 1) as real;
    var w := SearchTimeout(c) - c.maximumWaitResponseTime;
    assert BroadcastInterval(c) == w / m;
    assert m * (w / m) == w;
  }

  /**
   With a positive wait time, the k-th tick of the newer session's broadcast
   timer (fired at k intervals) comes strictly before the timeout exactly
   when k < N: together with the immediate send, N messages go out.
   */
  lemma {:induction false} BroadcastTicksBeforeTimeout(c: Configuration, k: nat)
    requires c.maximumBroadcastsBeforeClosing > 1 && c.maximumWaitResponseTime > 0.0
    ensures (k as real) * BroadcastInterval(c) < SearchTimeout(c) <==> k < c.maximumBroadcastsBeforeClosing
  {
    var n := c.maximumBroadcastsBeforeClosing as real;
    var mx := c.maximumWaitResponseTime;
    var kr := k as real;
    var interval := BroadcastInterval(c);
    var t := SearchTimeout(c);
    assert (c.maximumBroadcastsBeforeClosing - 1) as real == n - 1.0;
    assert interval * (n - 1.0) == (n - 1.0) * mx + 0.1 by {
      LastBroadcastLeavesFullWindow(c);
    }
    // compare kr * interval with t after scaling both by n - 1 > 0
    var lhs := kr * interval * (n - 1.0);
    var rhs := t * (n - 1.0);
    assert lhs == kr * ((n - 1.0) * mx + 0.1);
    var p := (n - 1.0) * mx;
    ProductPositive(n - 1.0, mx);
    assert rhs - lhs == p * (n - kr) + 0.1 * (n - 1.0 - kr);
    if k < c.maximumBroadcastsBeforeClosing {
      ProductNonNegative(p, n - kr - 1.0);
      assert p * (n - kr) == p + p * (n - kr - 1.0);
      assert p > 0.0 && p * (n - kr - 1.0) >= 0.0;
      assert p * (n - kr) > 0.0;
      assert 0.1 * (n - 1.0 - kr) >= 0.0;
      assert rhs - lhs > 0.0;
      assert (t - kr * interval) * (n - 1.0) == rhs - lhs;
      ScaledSign(t - kr * interval, n - 1.0);
    } else {
      ProductNonNegative(p, kr - n);
      assert p * (n - kr) == -(p * (kr - n));
      assert rhs - lhs < 0.0;
      assert (t - kr * interval) * (n - 1.0) == rhs - lhs;
      ScaledSign(t - kr * interval, n - 1.0);
    }
  }

  /**
   The legacy session's broadcast timer fires immediately and then every
   `maximumWaitResponseTime`, with no cap of its own. With a wait time of at
   least the slack, its k-th fire comes before the timeout exactly when
   k <= N: N + 1 writes in all.
   */
  lemma LegacyTicksBeforeTimeout(c: Configuration, k: nat)
    requires c.maximumWaitResponseTime >= 0.1
    ensures (k as real) * c.maximumWaitResponseTime < SearchTimeout(c) <==> k <= c.maximumBroadcastsBeforeClosing
  {
    var n := c.maximumBroadcastsBeforeClosing as real;
    var mx := c.maximumWaitResponseTime;
    var kr := k as real;
    assert SearchTimeout(c) - kr * mx == (n - kr) * mx + 0.1;
    if k <= c.maximumBroadcastsBeforeClosing {
      assert (n - kr) * mx >= 0.0;
    } else {
      assert n - kr <= -1.0;
      assert (n - kr) * mx <= -mx;
    }
  }
}
