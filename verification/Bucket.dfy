/** The token bucket of internal/ratelimit, over exact reals, with the nanosecond truncation of
    the wait it returns. */
module Buckets {
  import opened Common
  import opened Jobs

  const NS: real := 1_000_000_000.0

  /** The fields of a bucket. */
  datatype BucketState = BucketState(rate: real, burst: real, tokens: real, lastTime: Time)

  ghost predicate Valid(b: BucketState) {
    b.rate > 0.0 && b.burst >= 1.0 && 0.0 <= b.tokens <= b.burst
  }

  function New(rate: real, burst: int, now: Time): BucketState {
    var r := if rate <= 0.0 then 5.0 else rate;
    var c := if burst < 1 then 5 else burst;
    BucketState(r, c as real, c as real, now)
  }

  /** The tokens a rate puts in during dt nanoseconds. */
  function Earned(rate: real, dt: int): real {
    dt as real / NS * rate
  }

  /** The tokens on hand at instant now; a clock that went backwards earns nothing. */
  function Refilled(b: BucketState, now: Time): real {
    var t := b.tokens + Earned(b.rate, Max(0, now - b.lastTime));
    if t > b.burst then b.burst else t
  }

  /** The whole nanoseconds of refill missing from one token. */
  function WaitFor(rate: real, tokens: real): Time
    requires rate > 0.0
  {
    ((1.0 - tokens) / rate * NS).Floor
  }

  function TakeOf(b: BucketState, now: Time): (BucketState, Time)
    requires b.rate > 0.0
  {
    var t := Refilled(b, now);
    if t >= 1.0 then (b.(tokens := t - 1.0, lastTime := now), 0)
    else (b.(tokens := t, lastTime := now), WaitFor(b.rate, t))
  }

  /** This Take takes a token out. */
  predicate Consumes(b: BucketState, now: Time) {
    Refilled(b, now) >= 1.0
  }

  /** This Take tells its caller to go ahead. */
  predicate Grants(b: BucketState, now: Time)
    requires b.rate > 0.0
  {
    TakeOf(b, now).1 == 0
  }

  class Bucket {
    var rate: real
    var burst: real
    var tokens: real
    var lastTime: Time

    constructor (ratePerSec: real, burst: int, now: Time)
      ensures Fields() == New(ratePerSec, burst, now)
      ensures rate == if ratePerSec <= 0.0 then 5.0 else ratePerSec
      ensures this.burst == (if burst < 1 then 5 else burst) as real && tokens == this.burst && lastTime == now
    {
      var r, c := ratePerSec, burst;
      if r <= 0.0 {
        r := 5.0;
      }
      if c < 1 {
        c := 5;
      }
      rate, this.burst, tokens, lastTime := r, c as real, c as real, now;
    }

    ghost function Fields(): BucketState
      reads this
    {
      BucketState(rate, burst, tokens, lastTime)
    }

    method Take(now: Time) returns (wait: Time)
      requires rate > 0.0
      modifies this
      ensures (Fields(), wait) == TakeOf(old(Fields()), now)
    {
      hide Earned;
      Elapsed(rate, now - lastTime);
      var elapsed := (now - lastTime) as real / NS;
      if elapsed < 0.0 {
        elapsed := 0.0;
      }
      tokens := tokens + elapsed * rate;
      if tokens > burst {
        tokens := burst;
      }
      lastTime := now;
      if tokens >= 1.0 {
        tokens := tokens - 1.0;
        return 0;
      }
      var need := 1.0 - tokens;
      var sec := need / rate;
      wait := (sec * NS).Floor;
    }
  }

  // ---------- One Take ----------

  /** The seconds gone by, none when the clock went backwards, times the rate. */
  lemma Elapsed(rate: real, dt: int)
    ensures var s := dt as real / NS;
      Earned(rate, Max(0, dt)) == (if s < 0.0 then 0.0 else s) * rate && (s < 0.0 <==> dt < 0)
  {
  }

  /** A rate is in tokens a second: what is earned adds up (EarnedAdds) to this in n seconds. */
  lemma EarnedIs(rate: real, n: int)
    ensures Earned(rate, n * SECOND) == n as real * rate
  {
    assert (n * SECOND) as real / NS == n as real;
  }

  lemma EarnedAdds(rate: real, m: int, n: int)
    ensures Earned(rate, m + n) == Earned(rate, m) + Earned(rate, n)
  {
    assert (m + n) as real / NS == m as real / NS + n as real / NS;
  }

  lemma EarnedGrows(rate: real, m: int, n: int)
    requires rate > 0.0
    ensures m <= n ==> Earned(rate, m) <= Earned(rate, n)
    ensures m < n ==> Earned(rate, m) < Earned(rate, n)
    ensures Earned(rate, 0) == 0.0 && Earned(rate, 1) > 0.0
  {
    assert m < n ==> m as real / NS < n as real / NS;
  }

  /** The truncated wait is the largest number of nanoseconds that does not earn more than what is missing. */
  lemma WaitBounds(rate: real, t: real)
    requires rate > 0.0 && t < 1.0
    ensures var w := WaitFor(rate, t); w >= 0 && Earned(rate, w) <= 1.0 - t < Earned(rate, w + 1)
  {
    var w := WaitFor(rate, t);
    var q := Missing(rate, t);
    EarnedVersus(rate, w, q);
    EarnedVersus(rate, w + 1, q);
  }

  lemma EarnedVersus(rate: real, n: int, q: real)
    requires rate > 0.0
    ensures n as real <= q * NS ==> Earned(rate, n) <= q * rate
    ensures n as real > q * NS ==> Earned(rate, n) > q * rate
  {
    Scale(rate, n as real / NS, q);
    Scale(rate, q, n as real / NS);
  }

  /** The seconds of refill missing from one token. */
  lemma Missing(rate: real, t: real) returns (q: real)
    requires rate > 0.0 && t < 1.0
    ensures q == (1.0 - t) / rate && q > 0.0 && q * rate == 1.0 - t
  {
    q := (1.0 - t) / rate;
  }

  lemma Scale(rate: real, x: real, y: real)
    requires rate > 0.0
    ensures x <= y ==> x * rate <= y * rate
    ensures x < y ==> x * rate < y * rate
  {
  }

  lemma TakeKeepsValid(b: BucketState, now: Time)
    requires Valid(b)
    ensures Valid(TakeOf(b, now).0) && 0.0 <= Refilled(b, now) <= b.burst && b.tokens <= Refilled(b, now)
    ensures TakeOf(b, now).1 >= 0
  {
    EarnedGrows(b.rate, 0, Max(0, now - b.lastTime));
    if Refilled(b, now) < 1.0 {
      WaitBounds(b.rate, Refilled(b, now));
    }
  }

  /** A Take grants without consuming exactly when less than one nanosecond of refill is missing. */
  lemma FreeGrantIff(b: BucketState, now: Time)
    requires Valid(b)
    ensures Grants(b, now) && !Consumes(b, now) <==> 1.0 - Earned(b.rate, 1) < Refilled(b, now) < 1.0
    ensures Grants(b, now) <==> 1.0 - Earned(b.rate, 1) < Refilled(b, now)
  {
    var t := Refilled(b, now);
    EarnedGrows(b.rate, 0, 1);
    if t < 1.0 {
      WaitBounds(b.rate, t);
      EarnedGrows(b.rate, 1, WaitFor(b.rate, t));
    }
  }

  /** The wait Take returns is long enough, truncated as it is: the next Take, if it comes no
      earlier, goes ahead. */
  lemma WaitSuffices(b: BucketState, now: Time, later: Time)
    requires Valid(b) && later >= now + TakeOf(b, now).1 && TakeOf(b, now).1 > 0
    ensures Grants(TakeOf(b, now).0, later)
  {
    var (c, w) := TakeOf(b, now);
    TakeKeepsValid(b, now);
    WaitBounds(b.rate, c.tokens);
    EarnedAdds(b.rate, w, 1);
    EarnedGrows(b.rate, w, later - now);
    EarnedGrows(b.rate, 0, 1);
    FreeGrantIff(c, later);
  }

  // ---------- Histories of Takes ----------

  /** The bucket after Takes at the instants ts. */
  function After(b: BucketState, ts: seq<Time>): BucketState
    requires b.rate > 0.0
    ensures After(b, ts).rate == b.rate && After(b, ts).burst == b.burst
  {
    if ts == [] then b else TakeOf(After(b, ts[..|ts| - 1]), ts[|ts| - 1]).0
  }

  /** How many of Takes i, ..., j - 1 consumed a token. */
  function Consumed(b: BucketState, ts: seq<Time>, i: nat, j: nat): nat
    requires b.rate > 0.0 && i <= j <= |ts|
  {
    if i == j then 0 else Consumed(b, ts, i, j - 1) + if Consumes(After(b, ts[..j - 1]), ts[j - 1]) then 1 else 0
  }

  /** How many of Takes i, ..., j - 1 went ahead. */
  function Granted(b: BucketState, ts: seq<Time>, i: nat, j: nat): nat
    requires b.rate > 0.0 && i <= j <= |ts|
  {
    if i == j then 0 else Granted(b, ts, i, j - 1) + if Grants(After(b, ts[..j - 1]), ts[j - 1]) then 1 else 0
  }

  ghost predicate Monotone(start: Time, ts: seq<Time>) {
    && (forall i :: 0 <= i < |ts| ==> start <= ts[i])
    && (forall i, j :: 0 <= i <= j < |ts| ==> ts[i] <= ts[j])
  }

  lemma {:induction false} AfterIsValid(b: BucketState, ts: seq<Time>)
    requires Valid(b)
    ensures Valid(After(b, ts)) && (ts != [] ==> After(b, ts).lastTime == ts[|ts| - 1])
  {
    if ts != [] {
      AfterIsValid(b, ts[..|ts| - 1]);
      TakeKeepsValid(After(b, ts[..|ts| - 1]), ts[|ts| - 1]);
    }
  }

  /** A Take shares out what it finds, which is no more than burst nor than what was earned. */
  lemma TakeBalance(b: BucketState, now: Time)
    requires Valid(b) && b.lastTime <= now
    ensures TakeOf(b, now).0.tokens + (if Consumes(b, now) then 1 else 0) as real == Refilled(b, now)
    ensures Refilled(b, now) <= b.burst && Refilled(b, now) <= b.tokens + Earned(b.rate, now - b.lastTime)
  {
    hide Earned;
  }

  lemma {:induction false} TokensAndConsumed(b: BucketState, ts: seq<Time>, i: nat, j: nat)
    requires Valid(b) && Monotone(b.lastTime, ts) && i < j <= |ts|
    ensures After(b, ts[..j]).tokens + Consumed(b, ts, i, j) as real
         <= b.burst + Earned(b.rate, ts[j - 1] - ts[i])
    decreases j
  {
    hide TakeOf, Consumes, Refilled, Earned;
    var c, t := After(b, ts[..j - 1]), ts[j - 1];
    AfterIsValid(b, ts[..j - 1]);
    TakeBalance(c, t);
    assert ts[..j][..j - 1] == ts[..j - 1];
    if i < j - 1 {
      TokensAndConsumed(b, ts, i, j - 1);
      EarnedAdds(b.rate, t - ts[j - 2], ts[j - 2] - ts[i]);
    } else {
      EarnedGrows(b.rate, 0, 0);
    }
  }

  /** Rate bound: the tokens taken out in a window of the clock are at most burst plus what the
      rate puts in during the window. */
  lemma RateBound(b: BucketState, ts: seq<Time>, i: nat, j: nat)
    requires Valid(b) && Monotone(b.lastTime, ts) && i < j <= |ts|
    ensures Consumed(b, ts, i, j) as real <= b.burst + Earned(b.rate, ts[j - 1] - ts[i])
  {
    TokensAndConsumed(b, ts, i, j);
    AfterIsValid(b, ts[..j]);
  }

  // ---------- When is every grant paid for? ----------

  /** One token is refilled in exactly k nanoseconds. */
  predicate RefillsIn(rate: real, k: int) {
    Earned(rate, k) == 1.0
  }

  /** One token takes a whole number of nanoseconds to refill. */
  ghost predicate WholeRefill(rate: real) {
    exists k: int :: RefillsIn(rate, k)
  }

  /** Over every history of a new bucket and every window, the calls let through are within the rate. */
  ghost predicate GrantsWithinRate(rate: real, burst: int, start: Time)
    requires rate > 0.0 && burst >= 1
  {
    forall ts: seq<Time>, i: nat, j: nat :: Monotone(start, ts) && i < j <= |ts| ==>
      Granted(New(rate, burst, start), ts, i, j) as real <= burst as real + Earned(rate, ts[j - 1] - ts[i])
  }

  /** The tokens, and the burst, are what m and c nanoseconds earn. */
  ghost predicate OnGrid(b: BucketState, m: int, c: int) {
    b.tokens == Earned(b.rate, m) && b.burst == Earned(b.rate, c)
  }

  lemma GridStep(b: BucketState, now: Time, m: int, c: int, k: int) returns (m': int)
    requires Valid(b) && now >= b.lastTime && OnGrid(b, m, c) && RefillsIn(b.rate, k)
    ensures OnGrid(TakeOf(b, now).0, m', c)
    ensures Grants(b, now) ==> Consumes(b, now)
  {
    var dt := now - b.lastTime;
    EarnedAdds(b.rate, m, dt);
    var n := if Earned(b.rate, m + dt) > b.burst then c else m + dt;
    assert Refilled(b, now) == Earned(b.rate, n);
    FreeGrantIff(b, now);
    EarnedGrows(b.rate, n, k - 1);
    EarnedGrows(b.rate, k, n);
    EarnedAdds(b.rate, k - 1, 1);
    EarnedAdds(b.rate, n - k, k);
    m' := if n < k then n else n - k;
  }

  lemma {:induction false} GridRun(b: BucketState, ts: seq<Time>, m: int, c: int, k: int, i: nat,
                                   j: nat) returns (m': int)
    requires Valid(b) && Monotone(b.lastTime, ts) && i <= j <= |ts|
    requires OnGrid(b, m, c) && RefillsIn(b.rate, k)
    ensures OnGrid(After(b, ts[..j]), m', c) && Granted(b, ts, i, j) <= Consumed(b, ts, i, j)
    decreases j
  {
    if j == 0 {
      return m;
    }
    var n := GridRun(b, ts, m, c, k, if i < j then i else j - 1, j - 1);
    AfterIsValid(b, ts[..j - 1]);
    assert ts[..j][..j - 1] == ts[..j - 1];
    m' := GridStep(After(b, ts[..j - 1]), ts[j - 1], n, c, k);
  }

  function Repeat(t: Time, n: nat): seq<Time> {
    seq(n, _ => t)
  }

  /** Spending a full bucket at one instant leaves none. */
  lemma {:induction false} Drain(b: BucketState, n: nat)
    requires Valid(b) && b.tokens == b.burst && n as real <= b.burst
    ensures After(b, Repeat(b.lastTime, n)) == b.(tokens := b.burst - n as real)
  {
    var ts := Repeat(b.lastTime, n);
    if n > 0 {
      Drain(b, n - 1);
      assert ts[..n - 1] == Repeat(b.lastTime, n - 1);
      var c := After(b, ts[..n - 1]);
      EarnedGrows(c.rate, 0, 0);
    }
  }

  /** A bucket short of a token by less than a nanosecond's refill grants, and stays as it is. */
  lemma FreeTake(c: BucketState, t: Time)
    requires Valid(c) && c.lastTime <= t && 1.0 - Earned(c.rate, 1) < Refilled(c, t) < 1.0
    ensures Grants(c, t)
    ensures var d := TakeOf(c, t).0;
      d == c.(tokens := Refilled(c, t), lastTime := t) && Refilled(d, t) == Refilled(c, t)
  {
    FreeGrantIff(c, t);
    EarnedGrows(c.rate, 0, 0);
  }

  /** So it grants for ever. */
  lemma {:induction false} FreeRun(b: BucketState, pre: seq<Time>, t: Time, n: nat) returns (ts: seq<Time>)
    requires Valid(b)
    requires var c := After(b, pre); c.lastTime <= t && 1.0 - Earned(c.rate, 1) < Refilled(c, t) < 1.0
    ensures |ts| == |pre| + n && ts[..|pre|] == pre && forall k :: |pre| <= k < |ts| ==> ts[k] == t
    ensures Granted(b, ts, |pre|, |ts|) == n
    ensures After(b, ts).lastTime <= t && Refilled(After(b, ts), t) == Refilled(After(b, pre), t)
  {
    hide Refilled, Earned, TakeOf, Grants;
    if n == 0 {
      return pre;
    }
    var us := FreeRun(b, pre, t, n - 1);
    AfterIsValid(b, us);
    FreeTake(After(b, us), t);
    OneMore(b, us, t, |pre|);
    ts := us + [t];
  }

  lemma OneMore(b: BucketState, us: seq<Time>, t: Time, i: nat)
    requires b.rate > 0.0 && i <= |us|
    ensures After(b, us + [t]) == TakeOf(After(b, us), t).0
    ensures Granted(b, us + [t], i, |us| + 1) == Granted(b, us, i, |us|) + if Grants(After(b, us), t) then 1 else 0
  {
    assert (us + [t])[..|us|] == us;
    GrantedPrefix(b, us + [t], us, i, |us|);
  }

  lemma {:induction false} GrantedPrefix(b: BucketState, ts: seq<Time>, us: seq<Time>, i: nat, j: nat)
    requires b.rate > 0.0 && i <= j <= |us| <= |ts| && us == ts[..|us|]
    ensures Granted(b, ts, i, j) == Granted(b, us, i, j)
    decreases j
  {
    if i < j {
      GrantedPrefix(b, ts, us, i, j - 1);
      assert ts[..j - 1] == us[..j - 1];
    }
  }

  /** The instants of a run that lets n calls through at once for any n. */
  lemma FloodRun(rate: real, burst: int, start: Time, n: nat) returns (ts: seq<Time>)
    requires rate > 0.0 && burst >= 1 && !WholeRefill(rate)
    ensures Monotone(start, ts) && |ts| == burst + n
    ensures Granted(New(rate, burst, start), ts, burst, burst + n) == n
    ensures forall k :: burst <= k < |ts| ==> ts[k] == ts[|ts| - 1]
  {
    var b := New(rate, burst, start);
    var w := WaitFor(rate, 0.0);
    Drain(b, burst);
    var pre := Repeat(start, burst);
    var c := After(b, pre);
    WaitBounds(rate, 0.0);
    var t := start + w;
    assert !RefillsIn(rate, w);
    EarnedAdds(rate, w, 1);
    ts := FreeRun(b, pre, t, n);
    assert forall k :: 0 <= k < burst ==> ts[k] == ts[..burst][k] == start;
  }

  /** The bound of the rate limiter holds of the calls it lets through, for every history, exactly
      when one token takes a whole number of nanoseconds to refill. */
  lemma GrantsWithinRateIff(rate: real, burst: int, start: Time)
    requires rate > 0.0 && burst >= 1
    ensures GrantsWithinRate(rate, burst, start) <==> WholeRefill(rate)
  {
    var b := New(rate, burst, start);
    if WholeRefill(rate) {
      var k: int :| RefillsIn(rate, k);
      EarnedTimes(rate, burst, k);
      forall ts: seq<Time>, i: nat, j: nat | Monotone(start, ts) && i < j <= |ts|
        ensures Granted(b, ts, i, j) as real <= burst as real + Earned(rate, ts[j - 1] - ts[i])
      {
        var m := GridRun(b, ts, burst * k, burst * k, k, i, j);
        RateBound(b, ts, i, j);
      }
    } else {
      var ts := FloodRun(rate, burst, start, burst + 1);
      assert Granted(b, ts, burst, |ts|) == burst + 1;
      EarnedGrows(rate, 0, 0);
    }
  }

  lemma EarnedTimes(rate: real, n: nat, k: int)
    requires RefillsIn(rate, k)
    ensures Earned(rate, n * k) == n as real
  {
    if n > 0 {
      EarnedTimes(rate, n - 1, k);
      assert n * k == (n - 1) * k + k;
      EarnedAdds(rate, (n - 1) * k, k);
    } else {
      assert 0 * k == 0;
      assert Earned(rate, 0) == 0.0;
    }
  }

  /** Five tokens a second, the default, is such a rate; three a second is not. */
  lemma FiveIsWholeThreeIsNot()
    ensures WholeRefill(5.0) && !WholeRefill(3.0)
  {
    assert RefillsIn(5.0, 200_000_000);
    forall k: int
      ensures !RefillsIn(3.0, k)
    {
      assert Earned(3.0, k) * NS == (3 * k) as real;
    }
  }
}
