/** The retry policy of internal/backoff: the attempt limit and the capped exponential delay. */
module Backoff {
  import opened Common
  import opened Jobs

  datatype Policy = Policy(base: Time, cap: Time, maxAttempts: int)

  predicate Valid(p: Policy) {
    p.base > 0 && p.cap > 0 && p.maxAttempts >= 1
  }

  /** Policy.Validate: a cap below the base becomes thirty seconds, even when the base is above that. */
  function Validate(p: Policy): (r: Policy)
    ensures Valid(r)
    ensures p.base > 0 ==> r.base == p.base
    ensures p.base <= 0 ==> r.base == 200 * MILLISECOND
    ensures r.cap == if p.cap >= r.base then p.cap else 30 * SECOND
    ensures p.maxAttempts >= 1 ==> r.maxAttempts == p.maxAttempts
    ensures p.maxAttempts < 1 ==> r.maxAttempts == 8
  {
    var b := if p.base <= 0 then 200 * MILLISECOND else p.base;
    Policy(b, if p.cap < b then 30 * SECOND else p.cap, if p.maxAttempts < 1 then 8 else p.maxAttempts)
  }

  /** Validating once is enough: Exhausted and Delay validate again, to no effect. */
  lemma ValidateOnce(p: Policy)
    ensures Validate(Validate(p)) == Validate(p)
  {
  }

  /** Policy.Exhausted. */
  predicate Exhausted(p: Policy, attempt: int) {
    attempt >= p.maxAttempts
  }

  /** base times 2^e. */
  function Doubled(base: Time, e: nat): Time {
    if e == 0 then base else 2 * Doubled(base, e - 1)
  }

  /** The largest delay after the given attempt failed. */
  function Ceiling(p: Policy, attempt: int): Time {
    var a := Max(attempt, 1);
    Min(Doubled(p.base, Min(a - 1, 30)), p.cap)
  }

  /** Policy.Delay; u is the random number, in [0, 1). */
  function Delay(p: Policy, attempt: int, u: real): Time {
    var m := Ceiling(p, attempt);
    if m <= 0 then 0 else (u * m as real).Floor
  }

  lemma {:induction false} DoubledIs(base: Time, e: nat)
    ensures Doubled(base, e) == base * P2(e)
  {
    if e > 0 {
      DoubledIs(base, e - 1);
      Regroup(base, P2(e - 1));
    }
  }

  lemma Regroup(base: int, p: int)
    ensures 2 * (base * p) == base * (2 * p)
  {
  }

  /** The delay is u times the smaller of cap and base * 2^(attempt - 1), in whole nanoseconds; the
      exponent stops at 30, and an attempt below the first counts as the first. */
  lemma DelayIs(p: Policy, attempt: int, u: real)
    requires Valid(p) && 0.0 <= u < 1.0
    ensures var m := Min(p.cap, p.base * P2(Min(Max(attempt, 1) - 1, 30)));
      m > 0 && Delay(p, attempt, u) as real <= u * m as real < Delay(p, attempt, u) as real + 1.0
  {
    hide P2;
    var e := Min(Max(attempt, 1) - 1, 30);
    DoubledIs(p.base, e);
    DoubledGrows(p.base, 0, e);
  }

  /** Full jitter: every whole number of nanoseconds below that bound is the delay of some u. */
  lemma DelayOnto(p: Policy, attempt: int, d: Time) returns (u: real)
    requires Valid(p) && 0 <= d < Min(p.cap, p.base * P2(Min(Max(attempt, 1) - 1, 30)))
    ensures 0.0 <= u < 1.0 && Delay(p, attempt, u) == d
  {
    hide P2, Delay;
    var m := Min(p.cap, p.base * P2(Min(Max(attempt, 1) - 1, 30)));
    u := Share(d, m);
    DelayIs(p, attempt, u);
    Whole(Delay(p, attempt, u), d, u * m as real);
  }

  lemma Whole(a: int, d: int, x: real)
    requires a as real <= x < a as real + 1.0 && x == d as real
    ensures a == d
  {
  }

  lemma Share(d: int, m: int) returns (u: real)
    requires 0 <= d < m
    ensures 0.0 <= u < 1.0 && u * m as real == d as real
  {
    u := d as real / m as real;
  }

  lemma DelayBounds(p: Policy, attempt: int, u: real)
    requires 0.0 <= u < 1.0
    ensures 0 <= Delay(p, attempt, u)
    ensures Delay(p, attempt, u) < Max(1, Ceiling(p, attempt))
  {
    if Ceiling(p, attempt) > 0 {
      Fraction(u, Ceiling(p, attempt));
    }
  }

  lemma Fraction(u: real, m: int)
    requires 0.0 <= u < 1.0 && m > 0
    ensures 0 <= (u * m as real).Floor < m
  {
    var x := m as real;
    assert 0.0 <= u * x < x;
  }

  /** The most the delays after attempts 1, ..., n can add up to. */
  function Envelope(p: Policy, n: nat): Time {
    if n == 0 then 0 else Envelope(p, n - 1) + Max(0, Ceiling(p, n))
  }

  lemma {:induction false} DoubledGrows(base: Time, m: nat, n: nat)
    requires base > 0 && m <= n
    ensures 0 < Doubled(base, m) <= Doubled(base, n)
    decreases n
  {
    if m < n {
      DoubledGrows(base, m, n - 1);
    } else if m > 0 {
      DoubledGrows(base, m - 1, m - 1);
    }
  }

  /** It is bounded by the cap times their number, and by the uncapped geometric series. */
  lemma {:induction false} EnvelopeBound(p: Policy, n: nat)
    requires p.base > 0 && p.cap > 0
    ensures 0 <= Envelope(p, n) <= n * p.cap
    ensures Envelope(p, n) <= Doubled(p.base, n) - p.base
  {
    if n > 0 {
      EnvelopeBound(p, n - 1);
      DoubledGrows(p.base, Min(n - 1, 30), n - 1);
      assert n * p.cap == (n - 1) * p.cap + p.cap;
    }
  }

  lemma {:induction false} EnvelopeGrows(p: Policy, m: nat, n: nat)
    requires m <= n
    ensures Envelope(p, m) <= Envelope(p, n)
    decreases n
  {
    if m < n {
      EnvelopeGrows(p, m, n - 1);
    }
  }
}
