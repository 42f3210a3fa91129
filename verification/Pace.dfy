// How polling and resending are kept from spinning: the arithmetic of waits against a deadline.
module Pace {
  import opened Common

  function Ceiling(timeout: int, interval: int): int
    requires interval > 0
  {
    if timeout <= 0 then 0 else (timeout + interval - 1) / interval
  }

  // `idle` observations without news are no more than the timeout has intervals, and while the deadline
  // is ahead the clock has moved on by an interval for each.
  predicate Paced(idle: nat, interval: int, elapsed: int, timeout: int)
    requires interval > 0
  {
    idle <= Ceiling(timeout, interval) && (elapsed < timeout ==> idle * interval <= elapsed)
  }

  // Before the deadline there is room for one more request, and an observation without news, slept out
  // but not past the deadline, keeps the pace.
  lemma PacedStep(idle: nat, interval: int, elapsed: int, timeout: int, took: nat, rest: int)
    requires interval > 0 && Paced(idle, interval, elapsed, timeout) && 0 <= elapsed < timeout
    requires rest >= Max(0, Min(interval - took, timeout - elapsed - took))
    ensures Paced(idle + 1, interval, elapsed + took + rest, timeout)
    ensures idle + 1 <= Ceiling(timeout, interval)
  {
    assert (idle + 1) * interval == idle * interval + interval;
    var c := Ceiling(timeout, interval);
    CeilingCovers(timeout, interval);
    if idle >= c { Scales(idle, c, interval); }
  }

  lemma Scales(a: int, b: int, k: int)
    requires a >= b && k > 0
    ensures a * k >= b * k
  {
    assert a * k == b * k + (a - b) * k;
  }

  lemma CeilingCovers(timeout: int, interval: int)
    requires interval > 0
    ensures Ceiling(timeout, interval) * interval >= timeout
  {
  }

  // Time passing does not spoil the pace.
  lemma PacedLater(idle: nat, interval: int, elapsed: int, timeout: int, more: nat)
    requires interval > 0 && Paced(idle, interval, elapsed, timeout)
    ensures Paced(idle, interval, elapsed + more, timeout)
  {
  }

  // A wait starts paced.
  lemma Unhurried(interval: int, timeout: int)
    requires interval > 0
    ensures Paced(0, interval, 0, timeout) && 0 <= Ceiling(timeout, interval)
  {
  }
}
