/** The circuit breaker of internal/circuit and what it amounts to over a timed history. */
module Breakers {
  import opened Common
  import opened Jobs

  datatype State = Closed | Open | HalfOpen

  datatype Settings = Settings(failThreshold: int, openFor: Time, probes: int)

  function Normalize(s: Settings): Settings {
    Settings(
      if s.failThreshold < 1 then 5 else s.failThreshold,
      if s.openFor <= 0 then 30 * SECOND else s.openFor,
      if s.probes < 1 then 1 else s.probes)
  }

  predicate Normal(s: Settings) {
    s.failThreshold >= 1 && s.openFor > 0 && s.probes >= 1
  }

  /** The fields a breaker updates. */
  datatype BreakerState = BreakerState(state: State, failures: int, openedAt: Time, probesLeft: int)

  const FRESH := BreakerState(Closed, 0, 0, 0)

  datatype Decision = Decision(allow: bool, state: State)

  // ---------- One call ----------

  /** maybeHalfOpenLocked: time alone turns Open into HalfOpen. */
  function Settle(b: BreakerState, cfg: Settings, now: Time): BreakerState {
    if b.state == Open && now - b.openedAt >= cfg.openFor
    then b.(state := HalfOpen, probesLeft := cfg.probes) else b
  }

  function AllowOf(b: BreakerState, cfg: Settings, now: Time): (BreakerState, Decision) {
    var s := Settle(b, cfg, now);
    match s.state
    case Closed => (s, Decision(true, Closed))
    case Open => (s, Decision(false, Open))
    case HalfOpen =>
      if s.probesLeft <= 0 then (s, Decision(false, HalfOpen))
      else (s.(probesLeft := s.probesLeft - 1), Decision(true, HalfOpen))
  }

  function Trip(b: BreakerState, now: Time): BreakerState {
    b.(state := Open, openedAt := now, probesLeft := 0)
  }

  function SuccessOf(b: BreakerState): BreakerState {
    b.(state := Closed, failures := 0, probesLeft := 0)
  }

  function FailureOf(b: BreakerState, cfg: Settings, now: Time): BreakerState {
    match b.state
    case HalfOpen => Trip(b, now)
    case Closed =>
      var c := b.(failures := b.failures + 1);
      if c.failures >= cfg.failThreshold then Trip(c, now) else c
    case Open => b
  }

  class Breaker {
    const cfg: Settings
    var state: State
    var failures: int
    var openedAt: Time
    var probesLeft: int

    constructor (cfg: Settings)
      ensures this.cfg == Normalize(cfg) && Fields() == FRESH
      ensures this.cfg.failThreshold == if cfg.failThreshold < 1 then 5 else cfg.failThreshold
      ensures this.cfg.openFor == if cfg.openFor <= 0 then 30 * SECOND else cfg.openFor
      ensures this.cfg.probes == if cfg.probes < 1 then 1 else cfg.probes
      ensures state == Closed && failures == 0 && openedAt == 0 && probesLeft == 0
    {
      this.cfg := Normalize(cfg);
      state, failures, openedAt, probesLeft := Closed, 0, 0, 0;
    }

    ghost function Fields(): BreakerState
      reads this
    {
      BreakerState(state, failures, openedAt, probesLeft)
    }

    method MaybeHalfOpen(now: Time)
      modifies this
      ensures Fields() == Settle(old(Fields()), cfg, now)
    {
      if state != Open {
        return;
      }
      if now - openedAt >= cfg.openFor {
        state := HalfOpen;
        probesLeft := cfg.probes;
      }
    }

    method Allow(now: Time) returns (d: Decision)
      modifies this
      ensures (Fields(), d) == AllowOf(old(Fields()), cfg, now)
      ensures failures == old(failures) && openedAt == old(openedAt) && d.state == state
      ensures old(state) == Closed ==> d.allow && state == Closed && probesLeft == old(probesLeft)
      ensures old(state) == Open && now < openedAt + cfg.openFor ==>
        !d.allow && state == Open && probesLeft == old(probesLeft)
      ensures old(state) == Open && openedAt + cfg.openFor <= now ==>
        state == HalfOpen && (d.allow <==> cfg.probes > 0) && probesLeft == cfg.probes - if d.allow then 1 else 0
      ensures old(state) == HalfOpen ==>
        && state == HalfOpen && (d.allow <==> old(probesLeft) > 0)
        && probesLeft == old(probesLeft) - if d.allow then 1 else 0
    {
      MaybeHalfOpen(now);
      match state
      case Closed =>
        d := Decision(true, Closed);
      case Open =>
        d := Decision(false, Open);
      case HalfOpen =>
        if probesLeft <= 0 {
          return Decision(false, HalfOpen);
        }
        probesLeft := probesLeft - 1;
        d := Decision(true, HalfOpen);
    }

    method Success()
      modifies this
      ensures Fields() == SuccessOf(old(Fields()))
      ensures state == Closed && failures == 0 && probesLeft == 0 && openedAt == old(openedAt)
    {
      failures := 0;
      state := Closed;
      probesLeft := 0;
    }

    method Failure(now: Time)
      modifies this
      ensures Fields() == FailureOf(old(Fields()), cfg, now)
      ensures old(state) == Open ==> Fields() == old(Fields())
      ensures old(state) == HalfOpen ==>
        state == Open && openedAt == now && probesLeft == 0 && failures == old(failures)
      ensures old(state) == Closed ==> failures == old(failures) + 1
      ensures old(state) == Closed && failures < cfg.failThreshold ==>
        state == Closed && openedAt == old(openedAt) && probesLeft == old(probesLeft)
      ensures old(state) == Closed && failures >= cfg.failThreshold ==>
        state == Open && openedAt == now && probesLeft == 0
    {
      match state
      case HalfOpen =>
        TripLocked(now);
      case Closed =>
        failures := failures + 1;
        if failures >= cfg.failThreshold {
          TripLocked(now);
        }
      case Open =>
    }

    method TripLocked(now: Time)
      modifies this
      ensures Fields() == Trip(old(Fields()), now)
    {
      state := Open;
      openedAt := now;
      probesLeft := 0;
    }

    /** Reading the breaker also settles it. */
    method Snapshot(now: Time) returns (s: Image)
      modifies this
      ensures Fields() == Settle(old(Fields()), cfg, now) && s == ImageOf(Fields())
      ensures s.failures == failures && s.openedAt == openedAt && s.probesLeft == probesLeft
      ensures s.state == match state case Closed => "closed" case Open => "open" case HalfOpen => "half_open"
    {
      MaybeHalfOpen(now);
      s := Image(StateText(state), failures, openedAt, probesLeft);
    }

    /** An unknown state text restores a closed breaker. */
    method Restore(s: Image)
      modifies this
      ensures Fields() == Restored(s)
      ensures failures == s.failures && openedAt == s.openedAt && probesLeft == s.probesLeft
      ensures state == if s.state == "open" then Open else if s.state == "half_open" then HalfOpen else Closed
    {
      if s.state == "open" {
        state := Open;
      } else if s.state == "half_open" {
        state := HalfOpen;
      } else {
        state := Closed;
      }
      failures := s.failures;
      openedAt := s.openedAt;
      probesLeft := s.probesLeft;
    }
  }

  // ---------- Saved and restored ----------

  /** circuit.Snapshot: the state as text. */
  datatype Image = Image(state: string, failures: int, openedAt: Time, probesLeft: int)

  /** State.String. */
  function StateText(s: State): string {
    match s
    case Closed => "closed"
    case Open => "open"
    case HalfOpen => "half_open"
  }

  function ImageOf(b: BreakerState): Image {
    Image(StateText(b.state), b.failures, b.openedAt, b.probesLeft)
  }

  function Restored(s: Image): BreakerState {
    BreakerState(if s.state == "open" then Open else if s.state == "half_open" then HalfOpen else Closed,
                 s.failures, s.openedAt, s.probesLeft)
  }

  /** A breaker comes back from its image as it was. */
  lemma RestoresImage(b: BreakerState)
    ensures Restored(ImageOf(b)) == b
  {
    assert "open" != "half_open";
    assert "closed"[0] != "open"[0] && "closed"[0] != "half_open"[0];
    assert "half_open"[0] != "open"[0];
  }

  // ---------- Whole histories ----------

  datatype Call = AllowCall | SuccessCall | FailureCall | SnapshotCall

  datatype Event = Event(call: Call, at: Time)

  function Step(b: BreakerState, cfg: Settings, e: Event): BreakerState {
    match e.call
    case AllowCall => AllowOf(b, cfg, e.at).0
    case SuccessCall => SuccessOf(b)
    case FailureCall => FailureOf(b, cfg, e.at)
    case SnapshotCall => Settle(b, cfg, e.at)
  }

  /** A new breaker after the calls of h. */
  function After(h: seq<Event>, cfg: Settings): BreakerState {
    if h == [] then FRESH else Step(After(h[..|h| - 1], cfg), cfg, h[|h| - 1])
  }

  ghost predicate Monotone(h: seq<Event>) {
    forall i, j :: 0 <= i < j < |h| ==> h[i].at <= h[j].at
  }

  /** Failure calls since the last Success call. */
  function FailuresSince(h: seq<Event>): nat {
    if h == [] || h[|h| - 1].call == SuccessCall then 0
    else FailuresSince(h[..|h| - 1]) + if h[|h| - 1].call == FailureCall then 1 else 0
  }

  /** Call number i of h opened the breaker. */
  predicate TripsAt(h: seq<Event>, cfg: Settings, i: nat)
    requires i < |h|
  {
    && h[i].call == FailureCall
    && After(h[..i], cfg).state != Open && After(h[..i + 1], cfg).state == Open
  }

  /** Call number i of h asked and was let through. */
  predicate GrantedAt(h: seq<Event>, cfg: Settings, i: nat)
    requires i < |h|
  {
    h[i].call == AllowCall && AllowOf(After(h[..i], cfg), cfg, h[i].at).1.allow
  }

  ghost predicate NoSuccess(h: seq<Event>, i: nat, j: nat)
    requires j <= |h|
  {
    forall k :: i <= k < j ==> h[k].call != SuccessCall
  }

  /** Grants among calls i, ..., j - 1. */
  function Grants(h: seq<Event>, cfg: Settings, i: nat, j: nat): nat
    requires i <= j <= |h|
  {
    if i == j then 0 else Grants(h, cfg, i, j - 1) + if GrantedAt(h, cfg, j - 1) then 1 else 0
  }

  /** The failure counter and the Closed state, read off the history alone. */
  lemma {:induction false} FailureCount(h: seq<Event>, cfg: Settings)
    requires Normal(cfg)
    ensures After(h, cfg).failures == Min(FailuresSince(h), cfg.failThreshold)
    ensures After(h, cfg).state == Closed <==> FailuresSince(h) < cfg.failThreshold
  {
    if h != [] {
      FailureCount(h[..|h| - 1], cfg);
    }
  }

  /** What holds between a trip at call t and call n when no Success falls in between: the
      breaker is not closed, it was last opened no earlier than t, no later than call n, and
      the probes granted since that opening are those missing from the budget. */
  ghost predicate SinceTrip(h: seq<Event>, cfg: Settings, t: nat, n: nat)
    requires t < n <= |h|
  {
    var b := After(h[..n], cfg);
    && b.state != Closed && h[t].at <= b.openedAt <= h[n - 1].at
    && (b.state == HalfOpen ==> 0 <= b.probesLeft <= cfg.probes && b.openedAt + cfg.openFor <= h[n - 1].at)
  }

  lemma AfterOneMore(h: seq<Event>, cfg: Settings, n: nat)
    requires 0 < n <= |h|
    ensures After(h[..n], cfg) == Step(After(h[..n - 1], cfg), cfg, h[n - 1])
  {
    assert h[..n][..n - 1] == h[..n - 1];
  }

  lemma {:induction false} TripHolds(h: seq<Event>, cfg: Settings, t: nat, n: nat)
    requires Normal(cfg) && Monotone(h) && t < n <= |h| && TripsAt(h, cfg, t) && NoSuccess(h, t + 1, n)
    ensures SinceTrip(h, cfg, t, n)
    decreases n
  {
    AfterOneMore(h, cfg, n);
    if n > t + 1 {
      TripHolds(h, cfg, t, n - 1);
    }
  }

  /** Until a Success, nothing is granted within openFor of a trip. */
  lemma QuietAfterTrip(h: seq<Event>, cfg: Settings, t: nat, g: nat)
    requires Normal(cfg) && Monotone(h) && t < g < |h| && TripsAt(h, cfg, t) && NoSuccess(h, t + 1, g)
    requires GrantedAt(h, cfg, g)
    ensures h[g].at - h[t].at >= cfg.openFor
  {
    TripHolds(h, cfg, t, g);
  }

  /** Trips with no Success between them are at least openFor apart. */
  lemma TripsApart(h: seq<Event>, cfg: Settings, t: nat, u: nat)
    requires Normal(cfg) && Monotone(h) && t < u < |h| && TripsAt(h, cfg, t) && TripsAt(h, cfg, u)
    requires NoSuccess(h, t + 1, u)
    ensures h[u].at - h[t].at >= cfg.openFor
  {
    TripHolds(h, cfg, t, u);
  }

  lemma {:induction false} ProbesSpent(h: seq<Event>, cfg: Settings, t: nat, n: nat)
    requires Normal(cfg) && Monotone(h) && t < n <= |h| && TripsAt(h, cfg, t) && NoSuccess(h, t + 1, n)
    requires forall i :: t < i < n ==> !TripsAt(h, cfg, i)
    ensures var b := After(h[..n], cfg);
      && (b.state == Open ==> Grants(h, cfg, t + 1, n) == 0)
      && (b.state == HalfOpen ==> Grants(h, cfg, t + 1, n) == cfg.probes - b.probesLeft)
    decreases n
  {
    AfterOneMore(h, cfg, n);
    if n > t + 1 {
      TripHolds(h, cfg, t, n - 1);
      ProbesSpent(h, cfg, t, n - 1);
      assert !TripsAt(h, cfg, n - 1);
    }
  }

  /** Between consecutive trips with no Success between them at most `probes` calls are let through. */
  lemma ProbesBetweenTrips(h: seq<Event>, cfg: Settings, t: nat, u: nat)
    requires Normal(cfg) && Monotone(h) && t < u < |h| && TripsAt(h, cfg, t) && TripsAt(h, cfg, u)
    requires NoSuccess(h, t + 1, u)
    requires forall i :: t < i < u ==> !TripsAt(h, cfg, i)
    ensures Grants(h, cfg, t + 1, u) <= cfg.probes
  {
    TripHolds(h, cfg, t, u);
    ProbesSpent(h, cfg, t, u);
  }
}
