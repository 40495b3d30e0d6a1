/** How a timeout in seconds becomes a number of sweeps, and when it then fires. */
module Timeouts {

  // Seconds between sweeps.
  const GRANULARITY: nat := 4

  // The timeout field is an unsigned short.
  const SHORT_LIMIT: nat := 0x1_0000

  /** `0.5f + (float) seconds / GRANULARITY`, truncated. Exact for every result that fits the field. */
  function Rounded(seconds: nat): nat {
    (0.5 + seconds as real / GRANULARITY as real).Floor
  }

  /** The sweeps stored for a timeout whose rounded count fits the field; none for zero seconds. */
  function Sweeps(seconds: nat): nat {
    if seconds == 0 then 0 else if Rounded(seconds) == 0 then 1 else Rounded(seconds)
  }

  lemma RoundedIs(seconds: nat)
    ensures Rounded(seconds) == (seconds + 2) / 4
  {
    var q := (seconds + 2) / 4;
    assert 4 * q <= seconds + 2 < 4 * q + 4;
    assert 0.5 + seconds as real / 4.0 == (seconds + 2) as real / 4.0;
    assert q as real <= (seconds + 2) as real / 4.0 < (q + 1) as real;
  }

  /** Every timeout of 1 to 262141 seconds fits, and becomes a quarter of it, rounded, at least 1. */
  lemma SweepsExact(seconds: nat)
    requires 1 <= seconds
    ensures Sweeps(seconds) == if seconds == 1 then 1 else (seconds + 2) / 4
    ensures Sweeps(seconds) < SHORT_LIMIT <==> seconds <= 262141
  {
    RoundedIs(seconds);
  }

  /** When the last of these sweeps takes place, if the first does so after `lead` seconds. */
  lemma Window(seconds: nat, lead: real)
    requires 1 <= seconds && 0.0 < lead <= GRANULARITY as real
    ensures var delay := lead + ((Sweeps(seconds) - 1) * GRANULARITY) as real;
            seconds as real - 5.0 < delay <= seconds as real + 3.0
  {
    SweepsExact(seconds);
    var n := Sweeps(seconds);
    assert seconds - 1 <= 4 * n <= seconds + 3;
  }
}
