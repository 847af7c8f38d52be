// Back-off policies (backoff/backoff.go).
module Backoff {
  /** A policy is a table of waiting times in milliseconds. */
  type Policy = p: seq<nat> | p != [] witness [0]

  const FiveSecStartGrace: Policy :=
    [0, 25, 50, 75, 100, 125, 150, 200, 250, 500, 750, 1000, 1500, 2000, 2500, 3000, 3500, 4000, 4500, 5000]

  /** The table entry of the n'th wait, saturating at the last one. */
  function Millis(p: Policy, n: nat): nat {
    if n >= |p| then p[|p| - 1] else p[n]
  }

  /** The table rises from no wait to five seconds: by 25 ms at first, then by 250 ms, in the end by 500 ms. */
  lemma StartGraceRises(n: nat)
    ensures Millis(FiveSecStartGrace, n) ==
      if n <= 6 then 25 * n else if n == 7 then 200 else if n == 8 then 250
      else if n <= 11 then 250 * (n - 7) else if n <= 19 then 500 * (n - 9) else 5000
    ensures if n < 19 then Millis(FiveSecStartGrace, n) < Millis(FiveSecStartGrace, n + 1)
            else Millis(FiveSecStartGrace, n) == Millis(FiveSecStartGrace, n + 1) == 5000
  {
  }

  /** `draw` is the random number below `millis` that the source adds to the integer half of it. */
  function Jitter(millis: nat, draw: nat): nat
    requires millis > 0 ==> draw < millis
  {
    if millis == 0 then 0 else millis / 2 + draw
  }

  predicate IsDraw(p: Policy, n: nat, draw: nat) {
    Millis(p, n) > 0 ==> draw < Millis(p, n)
  }

  function Duration(p: Policy, n: nat, draw: nat): nat
    requires IsDraw(p, n, draw)
  {
    Jitter(Millis(p, n), draw)
  }

  /** The possible durations are exactly floor(m/2) .. floor(m/2) + m - 1, and 0 only where the table says 0. */
  lemma DurationRange(p: Policy, n: nat, d: nat)
    ensures (exists draw: nat :: IsDraw(p, n, draw) && Duration(p, n, draw) == d) <==>
            var m := Millis(p, n); if m == 0 then d == 0 else m / 2 <= d <= m / 2 + m - 1
  {
    var m := Millis(p, n);
    if m == 0 {
      assert IsDraw(p, n, 0) && Duration(p, n, 0) == 0;
    } else if m / 2 <= d <= m / 2 + m - 1 {
      var draw: nat := d - m / 2;
      assert IsDraw(p, n, draw) && Duration(p, n, draw) == d;
    }
  }

  /**
   * The documented range of half to one and a half times the table entry holds for every draw exactly for even
   * entries.
   */
  lemma DocumentedRangeExactly(p: Policy, n: nat)
    ensures (forall draw: nat :: IsDraw(p, n, draw) ==> Millis(p, n) <= 2 * Duration(p, n, draw) <= 3 * Millis(p, n))
            <==> Millis(p, n) % 2 == 0
  {
    if Millis(p, n) % 2 == 1 {
      assert IsDraw(p, n, 0) && 2 * Duration(p, n, 0) < Millis(p, n);
    }
  }
}
