/** When a half-open breaker can get stuck: exactly when the refill condition of Progress fails, there
    is a worker, and some type a frame can have goes to the store. Then a run leaves the store's breaker
    half open with no probe and nobody to tell it anything, whatever its burst and its threshold. */
module StuckRuns {
  import opened Common
  import opened Jobs
  import opened Routing
  import opened Delivery
  import opened Scenes
  import C = Breakers
  import R = Buckets
  import G = Gates
  import A = Accounts
  import F = Progress
  import X = Routes

  // ---------- The plan ----------

  /** What one nanosecond earns. */
  function Grain(d: Store): real {
    R.Earned(d.rate, 1)
  }

  /** e less n steps of 1 - e: what n + 1 nanoseconds that earn e each leave after n Takes. */
  function Down(e: real, n: nat): real {
    if n == 0 then e else Down(e, n - 1) - (1.0 - e)
  }

  /** The tokens left when the breaker opens: none, or, with a descent of n > 0 POSTs a nanosecond
      apart on an emptied bucket, what it has earned less those n. */
  function LeftOver(e: real, n: nat): real {
    if n == 0 then 0.0 else Down(e, n)
  }

  predicate Descends(e: real, burst: int, n: nat) {
    n > 0 ==> burst >= 2 && e < 1.0 && Down(e, n) >= 0.0
  }

  /** The tokens on hand when the bucket has earned `more` after that. */
  function Level(e: real, burst: int, more: real, n: nat): real {
    F.MinReal(burst as real, LeftOver(e, n) + more)
  }

  /** After as many Takes as there are whole tokens at this level, which `stale` workers can make, the
      next Take is sent back. */
  predicate Starves(e: real, level: real, stale: nat) {
    level >= 0.0 && level.Floor <= stale && level - level.Floor as real <= 1.0 - e
  }

  predicate Ample(c: Config, d: Store, stale: nat) {
    F.AmpleForOne(c, R.New(d.rate, d.burst, 0), stale)
  }

  /** When full tokens, or a burst, fall short of one token more than `stale` by e, there is a plan:
      n POSTs down and `late` nanoseconds of patience. */
  lemma Plan(e: real, burst: int, full: real, stale: nat) returns (n: nat, late: nat)
    requires 0.0 < e <= 1.0 && burst >= 1 && full > 0.0 && F.MinReal(burst as real, full) + e <= stale as real + 1.0
    requires e == 1.0 ==> full.Floor as real == full
    ensures late <= 1 && Descends(e, burst, n)
    ensures Starves(e, Level(e, burst, full + if late == 1 then e else 0.0, n), stale)
  {
    var f := full.Floor;
    var r, b := f as real, burst as real;
    FloorIs(full, f);
    if full >= b {
      Below(burst, stale + 1);
      StarvesAt(e, b, burst, stale);
      return 0, 0;
    }
    if full - r <= 1.0 - e {
      Below(f, stale + 1);
      StarvesAt(e, full, f, stale);
      return 0, 0;
    }
    Below(f + 1, stale + 1);
    if full + e >= b {
      Below(burst, f + 2);
      StarvesAt(e, b, burst, stale);
      return 0, 1;
    }
    if full + e - (r + 1.0) <= 1.0 - e {
      StarvesAt(e, full + e, f + 1, stale);
      return 0, 1;
    }
    Below(f + 1, burst);
    n := DescentTo(e, 2.0 - e - (full - r));
    late := 0;
    StarvesAt(e, Down(e, n) + full, f + 1, stale);
  }

  lemma Below(m: int, n: int)
    requires m as real < n as real
    ensures m < n && m as real + 1.0 <= n as real
  {
  }

  lemma StarvesAt(e: real, level: real, n: nat, stale: nat)
    requires n as real <= level < n as real + 1.0 && level - n as real <= 1.0 - e && n <= stale
    ensures Starves(e, level, stale)
  {
    FloorIs(level, n);
  }

  lemma FloorIs(x: real, n: int)
    requires n as real <= x < n as real + 1.0
    ensures x.Floor == n
  {
  }

  lemma {:induction false} DownIs(e: real, n: nat, y: real)
    requires y == 1.0 - e
    ensures Down(e, n) == e - n as real * y
  {
    if n > 0 {
      DownIs(e, n - 1, y);
      Spread(n as real, y);
    }
  }

  /** Going down from e in steps of 1 - e one cannot miss an interval of that width. */
  lemma DescentTo(e: real, u: real) returns (n: nat)
    requires 0.0 < e < 1.0 && 1.0 - e <= u < e
    ensures n > 0 && u - (1.0 - e) <= Down(e, n) <= u
  {
    n := StepsOf(e, u, 1.0 - e);
    DownIs(e, n, 1.0 - e);
  }

  lemma StepsOf(e: real, u: real, y: real) returns (n: nat)
    requires y > 0.0 && u < e
    ensures n > 0 && u - y <= e - n as real * y <= u
  {
    var q := (e - u) / y;
    Quotient(e - u, y, q);
    n := q.Floor + 1;
    StepsPast(q, n, y);
  }

  lemma StepsPast(q: real, n: int, y: real)
    requires y > 0.0 && n == q.Floor + 1
    ensures q * y < n as real * y <= q * y + y
  {
    var s := n as real;
    assert s - 1.0 <= q < s;
    R.Scale(y, s - 1.0, q);
    R.Scale(y, q, s);
    Spread(s, y);
  }

  lemma Spread(s: real, y: real)
    ensures (s - 1.0) * y == s * y - y
  {
  }

  lemma Quotient(x: real, y: real, q: real)
    requires y > 0.0 && x > 0.0 && q == x / y
    ensures q * y == x && q > 0.0
  {
  }

  lemma EarnedIsGrains(rate: real, n: int)
    ensures R.Earned(rate, n) == n as real * R.Earned(rate, 1)
  {
    var x, g := n as real, 1.0 / R.NS;
    assert x / R.NS == x * g;
    Regroup(x, g, rate);
  }

  lemma Regroup(x: real, y: real, z: real)
    ensures x * y * z == x * (y * z)
  {
  }

  /** Whenever the refill condition fails there is a plan. */
  lemma PlanExists(c: Config, d: Store, stale: nat) returns (n: nat, late: nat)
    requires C.Normal(c.breaker) && Normalized(d) && !Ample(c, d, stale)
    ensures Descends(Grain(d), d.burst, n)
    ensures Starves(Grain(d), Level(Grain(d), d.burst, R.Earned(d.rate, c.breaker.openFor + late), n), stale)
  {
    hide R.Earned, Level, Starves, Descends;
    R.EarnedAdds(d.rate, c.breaker.openFor, 1);
    R.EarnedGrows(d.rate, 0, c.breaker.openFor);
    R.EarnedGrows(d.rate, 0, 1);
    EarnedIsGrains(d.rate, c.breaker.openFor);
    n, late := Plan(Grain(d), d.burst, R.Earned(d.rate, c.breaker.openFor), stale);
  }

  // ---------- The breaker over the run ----------

  /** A closed breaker that has counted f failures. */
  function ClosedAt(f: int): C.BreakerState {
    C.BreakerState(C.Closed, f, 0, 0)
  }

  /** The breaker open since instant at, or half open with n probes left. */
  function Tripped(c: Config, at: Time, n: nat): C.BreakerState {
    C.BreakerState(if n == c.breaker.probes then C.Open else C.HalfOpen, c.breaker.failThreshold, at,
                   if n == c.breaker.probes then 0 else n)
  }

  /** The breaker after p of `total` POSTs of which the last failThreshold fail. */
  function BreakerAt(c: Config, total: nat, p: nat, now: Time): C.BreakerState
    requires C.Normal(c.breaker)
  {
    if p < total then ClosedAt(Max(0, p - (total - c.breaker.failThreshold))) else Tripped(c, now, c.breaker.probes)
  }

  function KindAt(c: Config, total: nat, p: nat): Kind {
    if p < total - c.breaker.failThreshold then Success else Terminal
  }

  lemma OnePostOn(c: Config, total: nat, p: nat, now: Time)
    requires C.Normal(c.breaker) && p < total && c.breaker.failThreshold <= total
    ensures Told(c, BreakerAt(c, total, p, now), KindAt(c, total, p), now) == BreakerAt(c, total, p + 1, now)
  {
  }

  // ---------- The workers over the run ----------

  /** Workers lo, ..., hi stand admitted, each with the job it took up at instant at. */
  function Crew(size: nat, lo: nat, hi: nat, k: Setting, at: Time): seq<Phase>
    requires lo >= 1
  {
    seq(size, v requires 0 <= v => if lo <= v <= hi then Admitted(JobAt(k, v, at)) else Idle)
  }

  /** A state of the run: the first p of `total` POSTs are made. */
  ghost predicate Stands(k: Setting, ws: seq<Phase>, busy: nat, total: nat, p: nat, now: Time, tokens: real, m: nat) {
    C.Normal(k.c.breaker) && Can(k, Shot(now, ws, busy, multiset{}, BreakerAt(k.c, total, p, now), tokens, m))
  }

  /** Worker 0 has nothing to do and may go on; busy slots are taken by others and one is left. */
  ghost predicate Ready(k: Setting, ws: seq<Phase>, busy: nat) {
    Good(k) && Fair(k, ws, 0) && ws[0] == Idle && busy < F.MaxFlight(k.d)
  }

  lemma PostNumber(k: Setting, ws: seq<Phase>, busy: nat, total: nat, p: nat, now: Time, tokens: real, m: nat)
    requires Ready(k, ws, busy) && Stands(k, ws, busy, total, p, now, tokens, m)
    requires p < total && k.c.breaker.failThreshold <= total && tokens >= 1.0
    ensures Stands(k, ws, busy, total, p + 1, now, tokens - 1.0, m + 1)
  {
    hide Can, Told;
    OnePostOn(k.c, total, p, now);
    Post(k, Shot(now, ws, busy, multiset{}, BreakerAt(k.c, total, p, now), tokens, m), 0, KindAt(k.c, total, p));
  }

  /** The clock moves on while the breaker is closed. */
  lemma Pause(k: Setting, ws: seq<Phase>, busy: nat, total: nat, p: nat, now: Time, tokens: real, m: nat, to: Time,
              more: real)
    requires Ready(k, ws, busy) && Stands(k, ws, busy, total, p, now, tokens, m) && p < total && now <= to
    requires more == F.MinReal(k.d.burst as real, tokens + R.Earned(k.d.rate, to - now))
    ensures Stands(k, ws, busy, total, p, to, more, m)
  {
    hide Can;
    Wait(k, Shot(now, ws, busy, multiset{}, BreakerAt(k.c, total, p, now), tokens, m), 0, to, more);
  }

  /** One token, and how long it takes. */
  lemma Refill(d: Store) returns (dt: nat)
    requires Normalized(d)
    ensures R.Earned(d.rate, dt) >= 1.0
  {
    R.WaitBounds(d.rate, 0.0);
    dt := R.WaitFor(d.rate, 0.0) + 1;
  }

  /** i POSTs, each from a full bucket. */
  lemma {:induction false} Pad(k: Setting, ws: seq<Phase>, busy: nat, total: nat, now: Time, m: nat,
                               i: nat) returns (t: Time)
    requires Ready(k, ws, busy) && Stands(k, ws, busy, total, 0, now, k.d.burst as real, m)
    requires i < total && k.c.breaker.failThreshold <= total
    ensures t >= now && Stands(k, ws, busy, total, i, t, k.d.burst as real, m + i)
    decreases i
  {
    hide Stands;
    if i == 0 {
      return now;
    }
    t := Pad(k, ws, busy, total, now, m, i - 1);
    PostNumber(k, ws, busy, total, i - 1, t, k.d.burst as real, m + i - 1);
    var dt := Refill(k.d);
    Pause(k, ws, busy, total, i, t, k.d.burst as real - 1.0, m + i, t + dt, k.d.burst as real);
    t := t + dt;
  }

  /** i POSTs at one instant. */
  lemma {:induction false} Burst(k: Setting, ws: seq<Phase>, busy: nat, total: nat, p: nat, now: Time, tokens: real,
                                 m: nat, i: nat)
    requires Ready(k, ws, busy) && Stands(k, ws, busy, total, p, now, tokens, m)
    requires p + i <= total && k.c.breaker.failThreshold <= total && tokens >= i as real
    ensures Stands(k, ws, busy, total, p + i, now, tokens - i as real, m + i)
    decreases i
  {
    hide Stands;
    if i > 0 {
      Burst(k, ws, busy, total, p, now, tokens, m, i - 1);
      PostNumber(k, ws, busy, total, p + i - 1, now, tokens - (i - 1) as real, m + i - 1);
    }
  }

  /** i POSTs, each a nanosecond after the one before, on a bucket with what one nanosecond earns. */
  lemma {:induction false} Descend(k: Setting, ws: seq<Phase>, busy: nat, total: nat, p: nat, now: Time, m: nat, i: nat)
    requires Ready(k, ws, busy) && Stands(k, ws, busy, total, p, now, Grain(k.d), m)
    requires p + i <= total && k.c.breaker.failThreshold <= total
    requires k.d.burst >= 2 && 0.0 < Grain(k.d) < 1.0 && Down(Grain(k.d), i) >= 0.0
    ensures Stands(k, ws, busy, total, p + i, now + i, Down(Grain(k.d), i), m + i)
    decreases i
  {
    hide Stands, R.Earned;
    if i > 0 {
      var e, before := Grain(k.d), Down(Grain(k.d), i - 1);
      DownAtMost(e, i - 1);
      Descend(k, ws, busy, total, p, now, m, i - 1);
      Pause(k, ws, busy, total, p + i - 1, now + i - 1, before, m + i - 1, now + i, before + e);
      PostNumber(k, ws, busy, total, p + i - 1, now + i, before + e, m + i - 1);
    }
  }

  lemma {:induction false} DownAtMost(e: real, n: nat)
    requires e < 1.0
    ensures Down(e, n) <= e
  {
    if n > 0 {
      DownAtMost(e, n - 1);
    }
  }

  /** Every POST is made; the last one opens the breaker, and the plan's tokens are left. */
  lemma Trip(k: Setting, ws: seq<Phase>, busy: nat, now: Time, m: nat, n: nat) returns (t: Time, m': nat)
    requires Ready(k, ws, busy) && Can(k, Shot(now, ws, busy, multiset{}, C.FRESH, k.d.burst as real, m))
    requires Descends(Grain(k.d), k.d.burst, n)
    ensures Can(k, Shot(t, ws, busy, multiset{}, Tripped(k.c, t, k.c.breaker.probes), LeftOver(Grain(k.d), n), m'))
  {
    hide Can, R.Earned;
    var f, b := k.c.breaker.failThreshold, k.d.burst;
    var total := f + b + n;
    assert Stands(k, ws, busy, total, 0, now, b as real, m);
    t := Pad(k, ws, busy, total, now, m, f);
    Burst(k, ws, busy, total, f, t, b as real, m + f, b);
    m' := m + total;
    if n > 0 {
      R.EarnedGrows(k.d.rate, 0, 1);
      Pause(k, ws, busy, total, f + b, t, 0.0, m + f + b, t + 1, Grain(k.d));
      Descend(k, ws, busy, total, f + b, t + 1, m + f + b, n);
      t := t + 1 + n;
    }
    assert Stands(k, ws, busy, total, total, t, LeftOver(Grain(k.d), n), m');
  }

  // ---------- The stale workers ----------

  /** The first worker has made the gates; it takes a token and delivers, and the bucket fills up again. */
  lemma FirstPost(k: Setting) returns (at: Time)
    requires Good(k) && Initial(k.root) && 0 < |k.root.workers|
    ensures Can(k, Shot(at, k.root.workers, 0, multiset{}, C.FRESH, k.d.burst as real, 1))
  {
    hide Can;
    var ws, j, b, now := k.root.workers, JobAt(k, 0, k.root.now), k.d.burst as real, k.root.now;
    Opening(k);
    Admit(k, Shot(now, ws[0 := Checked(j)], 1, multiset{}, C.FRESH, b, 1), 0, j);
    assert ws[0 := Checked(j)][0 := Admitted(j)] == ws[0 := Admitted(j)];
    Fire(k, Shot(now, ws[0 := Admitted(j)], 1, multiset{}, C.FRESH, b, 1), 0, j, Success);
    assert ws[0 := Admitted(j)][0 := Idle] == ws;
    var dt := Refill(k.d);
    at := now + dt;
    Wait(k, Shot(now, ws, 0, multiset{}, C.FRESH, b - 1.0, 1), 0, at, b);
  }

  /** Workers 1, ..., i are let through by the breaker and stay where they are. */
  lemma {:induction false} Hold(k: Setting, size: nat, at: Time, tokens: real, i: nat)
    requires Good(k) && (k.atomic ==> i == 0) && i < size && i < F.MaxFlight(k.d)
    requires Can(k, Shot(at, Crew(size, 1, 0, k, at), 0, multiset{}, C.FRESH, tokens, 1))
    ensures Can(k, Shot(at, Crew(size, 1, i, k, at), i, multiset{}, C.FRESH, tokens, i + 1))
    decreases i
  {
    hide Can;
    if i > 0 {
      Hold(k, size, at, tokens, i - 1);
      Approach(k, Shot(at, Crew(size, 1, i - 1, k, at), i - 1, multiset{}, C.FRESH, tokens, i), i);
      assert Crew(size, 1, i - 1, k, at)[i := Admitted(JobAt(k, i, at))] == Crew(size, 1, i, k, at);
    }
  }

  /** Workers 1, ..., i take a token each, and tell the open breaker of a failure, which changes nothing. */
  lemma {:induction false} LetGo(k: Setting, size: nat, at: Time, hi: nat, trip: Time, now: Time, tokens: real, m: nat,
                                 i: nat)
    requires Good(k) && (k.atomic ==> i == 0) && i <= hi < size && tokens >= i as real
    requires Can(k, Shot(now, Crew(size, 1, hi, k, at), hi, multiset{}, Tripped(k.c, trip, k.c.breaker.probes),
                         tokens, m))
    ensures Can(k, Shot(now, Crew(size, 1 + i, hi, k, at), hi - i, multiset{}, Tripped(k.c, trip, k.c.breaker.probes),
                        tokens - i as real, m))
    decreases i
  {
    hide Can;
    if i > 0 {
      LetGo(k, size, at, hi, trip, now, tokens, m, i - 1);
      var ws := Crew(size, i, hi, k, at);
      Fire(k, Shot(now, ws, hi - (i - 1), multiset{}, Tripped(k.c, trip, k.c.breaker.probes),
                   tokens - (i - 1) as real, m),
           i, JobAt(k, i, at), Terminal);
      assert ws[i := Idle] == Crew(size, 1 + i, hi, k, at);
    }
  }

  // ---------- The probes ----------

  /** Every probe is granted, one after the other, and every one is sent back by the bucket. */
  lemma {:induction false} WasteAll(k: Setting, x: Shot, at: Time, n: nat) returns (y: Shot)
    requires Good(k) && Can(k, x) && Fair(k, x.ws, 0) && x.ws[0] == Idle && x.busy < F.MaxFlight(k.d)
    requires Later(x.q, x.now)
    requires n <= k.c.breaker.probes && x.breaker == Tripped(k.c, at, n) && at + k.c.breaker.openFor <= x.now
    requires x.tokens <= 1.0 - Grain(k.d)
    ensures Can(k, y) && y.ws == x.ws && y.breaker == Tripped(k.c, at, 0)
    decreases n
  {
    hide Can, Later;
    if n == 0 {
      return x;
    }
    var p := Waste(k, x, 0);
    assert C.AllowOf(x.breaker, k.c.breaker, x.now).0 == Tripped(k.c, at, n - 1);
    y := WasteAll(k, x.(breaker := Tripped(k.c, at, n - 1), q := p, m := x.m + 1), at, n - 1);
  }

  lemma ShotIsStuck(k: Setting, x: Shot, at: Time) returns (t: Sys)
    requires Good(k) && Can(k, x) && x.breaker == Tripped(k.c, at, 0) && forall w :: 0 <= w < |x.ws| ==> x.ws[w] == Idle
    ensures Reaches(k, t) && StuckLike(t, k.d)
  {
    hide Reaches, Holds, Cast;
    t :| Reaches(k, t) && Scene(k.d, t, x);
    A.CountPositive(t.workers, A.Admitting(k.d.id));
    A.CountPositive(t.workers, A.Outstanding(k.d.id));
  }

  /** Hold some workers between Allow and Take, open the breaker with the bucket at its lowest, wait
      openFor, let those workers take what there is, and lose every probe to the bucket. */
  lemma StuckRun(k: Setting, stale: nat) returns (t: Sys)
    requires Good(k) && Initial(k.root) && stale < |k.root.workers| && stale < F.MaxFlight(k.d)
    requires (k.atomic ==> stale == 0) && !Ample(k.c, k.d, stale)
    ensures Reaches(k, t) && StuckLike(t, k.d)
  {
    hide Can, R.Earned;
    var size, d := |k.root.workers|, k.d;
    var n, late := PlanExists(k.c, d, stale);
    var level := Level(Grain(d), d.burst, R.Earned(d.rate, k.c.breaker.openFor + late), n);
    var i := level.Floor;
    var at := FirstPost(k);
    assert k.root.workers == Crew(size, 1, 0, k, at);
    Hold(k, size, at, d.burst as real, i);
    var ws := Crew(size, 1, i, k, at);
    var trip, m := Trip(k, ws, i, at, i + 1, n);
    var now := trip + k.c.breaker.openFor + late;
    var x := Shot(trip, ws, i, multiset{}, Tripped(k.c, trip, k.c.breaker.probes), LeftOver(Grain(d), n), m);
    Wait(k, x, 0, now, level);
    LetGo(k, size, at, i, trip, now, level, m, i);
    x := Shot(now, Crew(size, 1 + i, i, k, at), 0, multiset{}, Tripped(k.c, trip, k.c.breaker.probes),
              level - i as real, m);
    var y := WasteAll(k, x, trip, k.c.breaker.probes);
    t := ShotIsStuck(k, y, trip);
  }

  // ---------- The theorems ----------

  /** The store d, enabled or not by now, is registered and stuck half open. */
  ghost predicate StuckLike(t: Sys, d: Store) {
    d.id in t.stores && t.stores[d.id].(enabled := d.enabled) == d && F.Stuck(t, d.id)
  }

  /** Some run of n workers leaves the store stuck half open. */
  ghost predicate CanGetStuck(c: Config, d: Store, n: nat) {
    exists k: Setting, t :: k.c == c && k.d == d && StuckFrom(k, n, t)
  }

  /** Some run in which Allow and Take are atomic does. */
  ghost predicate CanGetStuckAtomic(c: Config, d: Store, n: nat) {
    exists k: Setting, t :: k.c == c && k.d == d && k.atomic && StuckFrom(k, n, t)
  }

  ghost predicate StuckFrom(k: Setting, n: nat, t: Sys) {
    Initial(k.root) && |k.root.workers| == n && Reaches(k, t) && StuckLike(t, k.d)
  }

  lemma ShortIfStuck(k: Setting, n: nat, t: Sys)
    requires GoodConfig(k.c) && Normalized(k.d) && StuckFrom(k, n, t)
    ensures n > 0 && TakesSome(k.d) && !Ample(k.c, k.d, F.StaleLimit(k.d, n)) && (k.atomic ==> !Ample(k.c, k.d, 0))
  {
    hide TakesSome;
    var states, labels :| Path(k, states, labels, t);
    var i, id := |labels|, k.d.id;
    F.CrewStays(k.c, states, labels, i);
    F.MatchHolds(k.c, states, labels, i, id);
    if Ample(k.c, k.d, F.StaleLimit(k.d, n)) {
      F.NeverStuck(k.c, states, labels, i, id);
    }
    if k.atomic && Ample(k.c, k.d, 0) {
      F.NeverStuckAtomic(k.c, states, labels, i, id);
    }
    if n == 0 {
      F.NoCrewNoGates(k.c, states, labels, i, id);
    }
    X.NoTypeNoGates(k.c, states, labels, i, id);
    X.SamePrefixes(t.stores[id], k.d);
  }

  lemma Stage(c: Config, atomic: bool, d: Store, n: nat) returns (k: Setting)
    requires GoodConfig(c) && Normalized(d) && TakesSome(d)
    ensures Good(k) && k.c == c && k.atomic == atomic && k.d == d.(enabled := true) && Initial(k.root)
    ensures |k.root.workers| == n
  {
    hide ValidType, Trim, MatchPrefix;
    var e := d.(enabled := true);
    X.SamePrefixes(d, e);
    var typ :| ValidType(Trim(typ)) && e.Takes(typ);
    var root := Sys(0, map[], map[], G.EMPTY, seq(n, _ => Idle), [], [], map[], multiset{},
                    History(map[], map[], multiset{}, multiset{}, multiset{}, map[], map[], map[]));
    k := Setting(c, atomic, root, e, typ);
  }

  lemma Disabled(k: Setting, d: Store, n: nat, t: Sys)
    requires k.d == d.(enabled := true) && StuckFrom(k, n, t)
    ensures StuckFrom(k.(d := d), n, t)
  {
    var states, labels :| Path(k, states, labels, t);
    assert Path(k.(d := d), states, labels, t);
  }

  /** The exact condition, in any interleaving of n workers: a store can get stuck half open if and
      only if there is a worker, some valid type goes to the store, and the refill between the trip and
      the probes is not ample, counting as stale one worker less than there are, or than the store's
      limit when that is lower. */
  lemma GetsStuckIff(c: Config, d: Store, n: nat)
    requires GoodConfig(c) && Normalized(d)
    ensures CanGetStuck(c, d, n) <==> n > 0 && TakesSome(d) && !Ample(c, d, F.StaleLimit(d, n))
  {
    hide TakesSome;
    if CanGetStuck(c, d, n) {
      var k: Setting, t :| k.c == c && k.d == d && StuckFrom(k, n, t);
      ShortIfStuck(k, n, t);
    }
    if n > 0 && TakesSome(d) && !Ample(c, d, F.StaleLimit(d, n)) {
      var k := Stage(c, false, d, n);
      var t := StuckRun(k, F.StaleLimit(d, n));
      Disabled(k, d, n, t);
    }
  }

  /** The exact condition with Allow and Take atomic: no worker is stale then. */
  lemma GetsStuckAtomicIff(c: Config, d: Store, n: nat)
    requires GoodConfig(c) && Normalized(d)
    ensures CanGetStuckAtomic(c, d, n) <==> n > 0 && TakesSome(d) && !Ample(c, d, 0)
  {
    hide TakesSome;
    if CanGetStuckAtomic(c, d, n) {
      var k: Setting, t :| k.c == c && k.d == d && k.atomic && StuckFrom(k, n, t);
      ShortIfStuck(k, n, t);
    }
    if n > 0 && TakesSome(d) && !Ample(c, d, 0) {
      var k := Stage(c, true, d, n);
      var t := StuckRun(k, 0);
      Disabled(k, d, n, t);
    }
  }

  /** What ample means for a store: a nanosecond earns more than a token, or the burst, and what
      openFor earns, each fall short of the stale workers and one token by less than a nanosecond's
      refill. */
  lemma AmpleMeans(c: Config, d: Store, stale: nat)
    requires GoodConfig(c) && Normalized(d)
    ensures Ample(c, d, stale) <==>
      || R.Earned(d.rate, 1) > 1.0
      || (&& R.Earned(d.rate, c.breaker.openFor + 1) > stale as real + 1.0
          && d.burst as real + R.Earned(d.rate, 1) > stale as real + 1.0)
  {
    R.EarnedAdds(d.rate, c.breaker.openFor, 1);
  }
}
