/** Half-open progress: when a breaker that has used up its probes is sure to leave HalfOpen. */
module Progress {
  import opened Common
  import opened Jobs
  import opened Routing
  import opened Delivery
  import B = Brokers
  import C = Breakers
  import R = Buckets
  import G = Gates
  import A = Accounts

  // ---------- One store's gates ----------

  /** What matters of one store: the clock, its breaker, its bucket, how many workers stand between
      the two, and how many have a POST out that the breaker has not been told about. */
  datatype Cell = Cell(now: Time, b: C.BreakerState, k: R.BucketState, admitted: nat, outstanding: nat)

  function Avail(x: Cell): real {
    R.Refilled(x.k, x.now)
  }

  function MinReal(a: real, b: real): real {
    if a <= b then a else b
  }

  /** What the bucket is sure to hold when the breaker half-opens, but for Takes on the way. */
  function Reserve(c: Config, k: R.BucketState): real {
    MinReal(k.burst, R.Earned(k.rate, c.breaker.openFor))
  }

  /** Enough for every probe, with `stale` workers admitted before the trip still to take. */
  predicate AmpleForAll(c: Config, k: R.BucketState, stale: nat) {
    Reserve(c, k) >= c.breaker.probes as real + stale as real
  }

  /** Enough for one probe: the refill leaves less than a nanosecond's worth missing from one token
      after every stale worker has taken one, or a nanosecond earns more than a token anyway. */
  predicate AmpleForOne(c: Config, k: R.BucketState, stale: nat) {
    R.Earned(k.rate, 1) > 1.0 || Reserve(c, k) + R.Earned(k.rate, 1) > 1.0 + stale as real
  }

  /** `stale` bounds the workers standing between breaker and bucket whenever the breaker opens. */
  ghost predicate CellOk(c: Config, x: Cell, stale: nat) {
    && R.Valid(x.k) && x.k.lastTime <= x.now
    && (x.b.state == C.Open ==>
          && x.b.openedAt <= x.now && x.admitted <= stale
          && Avail(x) - x.admitted as real
             >= MinReal(x.k.burst, R.Earned(x.k.rate, x.now - x.b.openedAt)) - stale as real)
    && (x.b.state == C.HalfOpen ==>
          && 0 <= x.b.probesLeft <= c.breaker.probes
          && (AmpleForAll(c, x.k, stale) ==>
                Avail(x) >= x.b.probesLeft as real + x.admitted as real
                && x.outstanding + x.admitted >= c.breaker.probes - x.b.probesLeft)
          && (AmpleForOne(c, x.k, stale) ==>
                x.outstanding >= 1 ||
                (Avail(x) > 1.0 - R.Earned(x.k.rate, 1) && (x.admitted >= 1 || x.b.probesLeft >= 1))))
  }

  lemma RefilledLater(k: R.BucketState, t: Time, u: Time)
    requires R.Valid(k) && k.lastTime <= t <= u
    ensures R.Refilled(k, u) == MinReal(k.burst, R.Refilled(k, t) + R.Earned(k.rate, u - t))
    ensures R.Refilled(k, u) >= R.Refilled(k, t)
  {
    R.EarnedAdds(k.rate, t - k.lastTime, u - t);
    R.EarnedGrows(k.rate, 0, u - t);
  }

  lemma TickCell(c: Config, x: Cell, t: Time, stale: nat)
    requires CellOk(c, x, stale) && x.now <= t
    ensures CellOk(c, x.(now := t), stale)
  {
    RefilledLater(x.k, x.now, t);
    if x.b.state == C.Open {
      R.EarnedAdds(x.k.rate, x.now - x.b.openedAt, t - x.now);
      R.EarnedGrows(x.k.rate, 0, t - x.now);
    }
  }

  lemma SettleCell(c: Config, x: Cell, stale: nat)
    requires CellOk(c, x, stale) && C.Normal(c.breaker)
    ensures CellOk(c, x.(b := C.Settle(x.b, c.breaker, x.now)), stale)
  {
    if x.b.state == C.Open && x.now - x.b.openedAt >= c.breaker.openFor {
      R.EarnedGrows(x.k.rate, c.breaker.openFor, x.now - x.b.openedAt);
    }
  }

  function AllowCell(c: Config, x: Cell): Cell {
    var (b, d) := C.AllowOf(x.b, c.breaker, x.now);
    x.(b := b, admitted := x.admitted + if d.allow then 1 else 0)
  }

  lemma AllowKeeps(c: Config, x: Cell, stale: nat)
    requires CellOk(c, x, stale) && C.Normal(c.breaker)
    ensures CellOk(c, AllowCell(c, x), stale)
  {
    SettleCell(c, x, stale);
  }

  /** wait > 0 postpones the job, anything else sends it out. */
  function TakeCell(x: Cell): Cell
    requires x.admitted >= 1 && x.k.rate > 0.0
  {
    var (k, wait) := R.TakeOf(x.k, x.now);
    x.(k := k, admitted := x.admitted - 1, outstanding := x.outstanding + if wait > 0 then 0 else 1)
  }

  lemma TakeKeeps(c: Config, x: Cell, stale: nat)
    requires CellOk(c, x, stale) && x.admitted >= 1
    ensures CellOk(c, TakeCell(x), stale)
  {
    var y := TakeCell(x);
    R.TakeKeepsValid(x.k, x.now);
    R.FreeGrantIff(x.k, x.now);
    R.EarnedGrows(x.k.rate, 0, 0);
    assert Avail(y) == if R.Consumes(x.k, x.now) then Avail(x) - 1.0 else Avail(x);
  }

  function TellCell(c: Config, x: Cell, kind: Kind): Cell
    requires x.outstanding >= 1
  {
    x.(b := if kind == Success then C.SuccessOf(x.b) else C.FailureOf(x.b, c.breaker, x.now),
       outstanding := x.outstanding - 1)
  }

  lemma TellKeeps(c: Config, x: Cell, kind: Kind, stale: nat)
    requires CellOk(c, x, stale) && x.outstanding >= 1 && x.admitted <= stale
    ensures CellOk(c, TellCell(c, x, kind), stale)
  {
    R.EarnedGrows(x.k.rate, 0, 0);
    R.TakeKeepsValid(x.k, x.now);
  }

  // ---------- A store of the whole system ----------

  function CellOf(st: Sys, id: Id): Cell
    requires id in st.gates.breakers && id in st.gates.buckets
  {
    Cell(st.now, st.gates.breakers[id], st.gates.buckets[id],
         A.Count(st.workers, A.Admitting(id)), A.Count(st.workers, A.Outstanding(id)))
  }

  function SpecOf(d: Store): G.RateSpec {
    G.RateSpec(d.rate, d.burst)
  }

  /** A store's breaker and bucket come together, and the bucket is the one made for its rate. */
  ghost predicate GatesMatch(st: Sys, id: Id) {
    && (id in st.gates.breakers <==> id in st.gates.buckets) && (id in st.gates.breakers <==> id in st.gates.rates)
    && (id in st.gates.breakers ==>
          && id in st.stores && st.gates.rates[id] == SpecOf(st.stores[id])
          && st.gates.buckets[id].rate == st.stores[id].rate
          && st.gates.buckets[id].burst == st.stores[id].burst as real)
  }

  ghost predicate GatesOk(c: Config, st: Sys, id: Id, stale: nat) {
    GatesMatch(st, id) && (id in st.gates.breakers ==> CellOk(c, CellOf(st, id), stale))
  }

  /** A worker that tells this store's breaker finds at most `stale` workers admitted to it. */
  ghost predicate StaleAtMost(st: Sys, l: Label, id: Id, stale: nat) {
    l.Work? && l.step.Tell? && l.w < |st.workers| && st.workers[l.w].Answered? && st.workers[l.w].job.storeId == id
    ==> A.Count(st.workers, A.Admitting(id)) <= stale
  }

  /** Steps that change nothing of the cell. */
  lemma SameCell(c: Config, st: Sys, t: Sys, id: Id, stale: nat)
    requires GatesOk(c, st, id, stale) && t.now == st.now
    requires id in st.gates.breakers <==> id in t.gates.breakers
    requires id in st.gates.buckets <==> id in t.gates.buckets
    requires id in st.gates.rates <==> id in t.gates.rates
    requires id in st.gates.breakers ==>
      && id in st.gates.buckets && t.gates.breakers[id] == st.gates.breakers[id]
      && t.gates.buckets[id] == st.gates.buckets[id]
      && id in st.gates.rates && t.gates.rates[id] == st.gates.rates[id]
    requires id in st.stores ==> id in t.stores && SpecOf(t.stores[id]) == SpecOf(st.stores[id])
    requires A.Count(t.workers, A.Admitting(id)) == A.Count(st.workers, A.Admitting(id))
    requires A.Count(t.workers, A.Outstanding(id)) == A.Count(st.workers, A.Outstanding(id))
    ensures GatesOk(c, t, id, stale)
  {
  }

  lemma Recount(ws: seq<Phase>, w: nat, p: Phase, id: Id)
    requires w < |ws|
    ensures A.Count(ws[w := p], A.Admitting(id)) ==
      A.Count(ws, A.Admitting(id)) - A.One(A.Admitting(id), ws[w]) + A.One(A.Admitting(id), p)
    ensures A.Count(ws[w := p], A.Outstanding(id)) ==
      A.Count(ws, A.Outstanding(id)) - A.One(A.Outstanding(id), ws[w]) + A.One(A.Outstanding(id), p)
  {
    A.CountUpdate(ws, w, p, A.Admitting(id));
    A.CountUpdate(ws, w, p, A.Outstanding(id));
  }

  /** Ensure leaves a store's gates alone once they are there. */
  lemma EnsureIsIdle(st: Sys, id: Id)
    requires GatesMatch(st, id) && id in st.gates.breakers
    ensures G.EnsureView(st.gates, id, SpecOf(st.stores[id]), st.now) == st.gates
  {
  }

  lemma AllowHere(c: Config, st: Sys, w: nat, stale: nat)
    requires C.Normal(c.breaker) && w < |st.workers| && WorkerEnabled(c, st, st.workers[w], Allow)
    requires var id := st.workers[w].job.storeId; GatesOk(c, st, id, stale) && Normalized(st.stores[id])
    ensures GatesOk(c, AllowStep(c, st, w, st.workers[w].job), st.workers[w].job.storeId, stale)
  {
    var j := st.workers[w].job;
    var id := j.storeId;
    var t := AllowStep(c, st, w, j);
    Recount(st.workers, w, t.workers[w], id);
    if id in st.gates.breakers {
      EnsureIsIdle(st, id);
      AllowKeeps(c, CellOf(st, id), stale);
      assert CellOf(t, id) == AllowCell(c, CellOf(st, id));
    } else {
      assert t.gates.breakers[id].state == C.Closed;
    }
  }

  lemma AllowElsewhere(c: Config, st: Sys, w: nat, id: Id, stale: nat)
    requires w < |st.workers| && WorkerEnabled(c, st, st.workers[w], Allow) && st.workers[w].job.storeId != id
    requires GatesOk(c, st, id, stale)
    ensures GatesOk(c, AllowStep(c, st, w, st.workers[w].job), id, stale)
  {
    var t := AllowStep(c, st, w, st.workers[w].job);
    Recount(st.workers, w, t.workers[w], id);
    SameCell(c, st, t, id, stale);
  }

  lemma TakeHere(st: Sys, w: nat)
    requires w < |st.workers| && st.workers[w].Admitted? && st.workers[w].job.storeId in st.gates.buckets
    requires var id := st.workers[w].job.storeId; id in st.gates.breakers && st.gates.buckets[id].rate > 0.0
    ensures var j := st.workers[w].job;
      && A.Count(st.workers, A.Admitting(j.storeId)) >= 1
      && CellOf(TakeStep(st, w, j), j.storeId) == TakeCell(CellOf(st, j.storeId))
  {
    var j := st.workers[w].job;
    var t := TakeStep(st, w, j);
    Recount(st.workers, w, t.workers[w], j.storeId);
  }

  lemma TakeGates(c: Config, st: Sys, w: nat, id: Id, stale: nat)
    requires w < |st.workers| && WorkerEnabled(c, st, st.workers[w], Take) && GatesOk(c, st, id, stale)
    ensures GatesOk(c, TakeStep(st, w, st.workers[w].job), id, stale)
  {
    hide CellOk;
    var j := st.workers[w].job;
    if j.storeId != id {
      TakeElsewhere(c, st, w, id, stale);
    } else if id in st.gates.breakers {
      TakeHere(st, w);
      TakeKeeps(c, CellOf(st, id), stale);
      TakeLeaves(st, w, id);
    }
  }

  /** A Take changes no breaker, no other bucket's place and nothing of the stores. */
  lemma TakeLeaves(st: Sys, w: nat, id: Id)
    requires w < |st.workers| && st.workers[w].Admitted? && st.workers[w].job.storeId in st.gates.buckets
    requires st.gates.buckets[st.workers[w].job.storeId].rate > 0.0
    ensures var t := TakeStep(st, w, st.workers[w].job);
      && t.now == st.now && t.stores == st.stores
      && t.gates.breakers == st.gates.breakers && t.gates.rates == st.gates.rates
      && t.gates.buckets.Keys == st.gates.buckets.Keys
      && (id in st.gates.buckets ==>
            && t.gates.buckets[id].rate == st.gates.buckets[id].rate
            && t.gates.buckets[id].burst == st.gates.buckets[id].burst
            && (id != st.workers[w].job.storeId ==> t.gates.buckets[id] == st.gates.buckets[id]))
  {
    hide R.TakeOf;
    SameSpec(st.gates.buckets[st.workers[w].job.storeId], st.now);
  }

  lemma SameSpec(k: R.BucketState, now: Time)
    requires k.rate > 0.0
    ensures R.TakeOf(k, now).0.rate == k.rate && R.TakeOf(k, now).0.burst == k.burst
  {
  }

  lemma TakeElsewhere(c: Config, st: Sys, w: nat, id: Id, stale: nat)
    requires w < |st.workers| && WorkerEnabled(c, st, st.workers[w], Take) && st.workers[w].job.storeId != id
    requires GatesOk(c, st, id, stale)
    ensures GatesOk(c, TakeStep(st, w, st.workers[w].job), id, stale)
  {
    hide CellOk;
    var t := TakeStep(st, w, st.workers[w].job);
    TakeLeaves(st, w, id);
    TakePhase(st, w);
    Recount(st.workers, w, t.workers[w], id);
    SameCell(c, st, t, id, stale);
  }

  lemma TakePhase(st: Sys, w: nat)
    requires w < |st.workers| && st.workers[w].Admitted? && st.workers[w].job.storeId in st.gates.buckets
    requires st.gates.buckets[st.workers[w].job.storeId].rate > 0.0
    ensures var t := TakeStep(st, w, st.workers[w].job);
      && |t.workers| == |st.workers| && t.workers == st.workers[w := t.workers[w]]
      && (t.workers[w].Deferred? || t.workers[w].Posting?) && t.workers[w].job.storeId == st.workers[w].job.storeId
  {
    hide R.Refilled, R.WaitFor;
  }

  lemma TellGates(c: Config, st: Sys, w: nat, id: Id, stale: nat)
    requires w < |st.workers| && WorkerEnabled(c, st, st.workers[w], Tell) && GatesOk(c, st, id, stale)
    requires StaleAtMost(st, Work(w, Tell), id, stale)
    ensures GatesOk(c, ApplyWork(c, st, w, Tell), id, stale)
  {
    var p, t := st.workers[w], ApplyWork(c, st, w, Tell);
    Recount(st.workers, w, t.workers[w], id);
    if p.job.storeId != id {
      SameCell(c, st, t, id, stale);
    } else {
      TellKeeps(c, CellOf(st, id), p.kind, stale);
      assert CellOf(t, id) == TellCell(c, CellOf(st, id), p.kind);
    }
  }

  /** The other steps of a worker leave the gates alone. */
  lemma QuietGates(c: Config, st: Sys, w: nat, s: WorkerStep)
    requires w < |st.workers| && WorkerEnabled(c, st, st.workers[w], s) && !s.Allow? && !s.Take? && !s.Tell?
    ensures var t := ApplyWork(c, st, w, s);
      && t.gates == st.gates && t.now == st.now && t.stores == st.stores && t.workers == st.workers[w := t.workers[w]]
      && !t.workers[w].Admitted? && !st.workers[w].Admitted?
      && (t.workers[w].Posting? || t.workers[w].Answered? <==> st.workers[w].Posting? || st.workers[w].Answered?)
      && (st.workers[w].Posting? ==> t.workers[w].Answered? && t.workers[w].job == st.workers[w].job)
      && !st.workers[w].Answered?
  {
  }

  lemma WorkGates(c: Config, st: Sys, w: nat, s: WorkerStep, id: Id, stale: nat)
    requires C.Normal(c.breaker) && w < |st.workers| && WorkerEnabled(c, st, st.workers[w], s)
    requires GatesOk(c, st, id, stale) && A.Accounted(st) && StaleAtMost(st, Work(w, s), id, stale)
    ensures GatesOk(c, ApplyWork(c, st, w, s), id, stale)
  {
    if s.Allow? {
      if st.workers[w].job.storeId == id {
        AllowHere(c, st, w, stale);
      } else {
        AllowElsewhere(c, st, w, id, stale);
      }
    } else if s.Take? {
      TakeGates(c, st, w, id, stale);
    } else if s.Tell? {
      TellGates(c, st, w, id, stale);
    } else {
      QuietGates(c, st, w, s);
      var t := ApplyWork(c, st, w, s);
      Recount(st.workers, w, t.workers[w], id);
      SameCell(c, st, t, id, stale);
    }
  }

  lemma TickGates(c: Config, st: Sys, to: Time, id: Id, stale: nat)
    requires GatesOk(c, st, id, stale) && st.now <= to
    ensures GatesOk(c, st.(now := to), id, stale)
  {
    if id in st.gates.breakers {
      TickCell(c, CellOf(st, id), to, stale);
      assert CellOf(st.(now := to), id) == CellOf(st, id).(now := to);
    }
  }

  lemma OpenGatesKept(c: Config, st: Sys, w: nat, id: Id, stale: nat)
    requires Enabled(c, st, OpenGates(w, id)) && GatesOk(c, st, id, stale) && A.Accounted(st)
    ensures GatesOk(c, Apply(c, st, OpenGates(w, id)), id, stale)
  {
    if id in st.gates.breakers {
      EnsureIsIdle(st, id);
    } else {
      assert CellOf(Apply(c, st, OpenGates(w, id)), id).b.state == C.Closed;
    }
  }

  lemma ObserveGates(c: Config, st: Sys, id: Id, stale: nat)
    requires C.Normal(c.breaker) && Enabled(c, st, Observe(id)) && GatesOk(c, st, id, stale)
    ensures GatesOk(c, Apply(c, st, Observe(id)), id, stale)
  {
    var t := Apply(c, st, Observe(id));
    SettleCell(c, CellOf(st, id), stale);
    assert CellOf(t, id) == CellOf(st, id).(b := t.gates.breakers[id]);
  }

  /** The rest has nothing to do with the store's gates. */
  lemma GatesElsewhere(c: Config, st: Sys, l: Label, id: Id, stale: nat)
    requires Enabled(c, st, l) && GatesOk(c, st, id, stale) && !l.Work? && !l.AdvanceTo?
    requires (l.OpenGates? || l.Observe?) ==> l.id != id
    ensures GatesOk(c, Apply(c, st, l), id, stale)
  {
    hide CellOk, C.Settle, Enqueued;
    SameCell(c, st, Apply(c, st, l), id, stale);
  }

  lemma GatesStep(c: Config, st: Sys, l: Label, id: Id, stale: nat)
    requires C.Normal(c.breaker) && Enabled(c, st, l)
    requires GatesOk(c, st, id, stale) && A.Accounted(st) && StaleAtMost(st, l, id, stale)
    ensures GatesOk(c, Apply(c, st, l), id, stale)
  {
    hide ApplyWork, GatesOk, A.Accounted;
    if l.Work? {
      WorkGates(c, st, l.w, l.step, id, stale);
    } else if l.AdvanceTo? {
      TickGates(c, st, l.to, id, stale);
    } else if l.OpenGates? && l.id == id {
      OpenGatesKept(c, st, l.w, id, stale);
    } else if l.Observe? && l.id == id {
      ObserveGates(c, st, id, stale);
    } else {
      GatesElsewhere(c, st, l, id, stale);
    }
  }

  lemma {:induction false} GatesHold(c: Config, states: seq<Sys>, labels: seq<Label>, i: nat, id: Id, stale: nat)
    requires C.Normal(c.breaker) && IsRun(c, states, labels) && Initial(states[0]) && i <= |labels|
    requires forall k :: 0 <= k < i ==> StaleAtMost(states[k], labels[k], id, stale)
    ensures GatesOk(c, states[i], id, stale)
  {
    if i > 0 {
      GatesHold(c, states, labels, i - 1, id, stale);
      A.AccountsHold(c, states, labels, i - 1);
      assert Steps(c, states[i - 1], labels[i - 1], states[i]);
      GatesStep(c, states[i - 1], labels[i - 1], id, stale);
    }
  }

  // ---------- How many stale workers there can be ----------

  function MaxFlight(d: Store): nat {
    B.NewQueue(d.ordered, d.maxInFlight).maxFlight
  }

  /** In any interleaving of n workers: one less than n, and one less than the store's in-flight
      limit, because the worker that tells the breaker is one of them and occupies a slot itself. */
  function StaleLimit(d: Store, n: nat): nat {
    Max(Min(MaxFlight(d), n) - 1, 0)
  }

  lemma StaleBelowLimit(st: Sys, l: Label, id: Id, c: Config)
    requires A.Accounted(st) && Enabled(c, st, l) && id in st.stores
    ensures StaleAtMost(st, l, id, StaleLimit(st.stores[id], |st.workers|))
  {
    if l.Work? && l.step.Tell? && st.workers[l.w].job.storeId == id {
      var w := l.w;
      assert st.workers[w].Slot() == Some(id);
      assert A.QueueOk(st, id);
      assert A.Selects(A.OnStore(id), st.workers[w]) && !A.Selects(A.Admitting(id), st.workers[w]);
      A.CountWithin(st.workers, A.Admitting(id), A.OnStore(id));
      A.CountAtMost(st.workers, A.OnStore(id));
    }
  }

  /** Allow and Take as one atomic step: an admitted worker takes before anything else happens. */
  ghost predicate AtomicGate(states: seq<Sys>, labels: seq<Label>)
    requires |states| == |labels| + 1
  {
    forall i, w :: 0 <= i < |labels| && 0 <= w < |states[i].workers| && states[i].workers[w].Admitted? ==>
      labels[i] == Work(w, Take)
  }

  lemma NoneStale(states: seq<Sys>, labels: seq<Label>, i: nat, id: Id)
    requires |states| == |labels| + 1 && i < |labels| && AtomicGate(states, labels)
    ensures StaleAtMost(states[i], labels[i], id, 0)
  {
    A.CountPositive(states[i].workers, A.Admitting(id));
    if A.Count(states[i].workers, A.Admitting(id)) > 0 {
      var w :| 0 <= w < |states[i].workers| && A.Selects(A.Admitting(id), states[i].workers[w]);
      assert labels[i] == Work(w, Take);
    }
  }

  lemma {:induction false} StoresStay(c: Config, states: seq<Sys>, labels: seq<Label>, i: nat, k: nat, id: Id)
    requires IsRun(c, states, labels) && i <= k <= |labels| && id in states[i].stores
    ensures id in states[k].stores && MaxFlight(states[k].stores[id]) == MaxFlight(states[i].stores[id])
    ensures SpecOf(states[k].stores[id]) == SpecOf(states[i].stores[id])
    decreases k
  {
    if i < k {
      StoresStay(c, states, labels, i, k - 1, id);
      assert Steps(c, states[k - 1], labels[k - 1], states[k]);
      StoreStays(c, states[k - 1], labels[k - 1], id);
    }
  }

  lemma {:induction false} CrewStays(c: Config, states: seq<Sys>, labels: seq<Label>, i: nat)
    requires IsRun(c, states, labels) && i <= |labels|
    ensures |states[i].workers| == |states[0].workers|
  {
    if i > 0 {
      CrewStays(c, states, labels, i - 1);
      assert Steps(c, states[i - 1], labels[i - 1], states[i]);
      CrewStep(c, states[i - 1], labels[i - 1]);
    }
  }

  lemma CrewStep(c: Config, st: Sys, l: Label)
    requires Enabled(c, st, l)
    ensures |Apply(c, st, l).workers| == |st.workers|
  {
    hide ApplyWork;
    if l.Work? {
      CrewWork(c, st, l.w, l.step);
    }
  }

  lemma CrewWork(c: Config, st: Sys, w: nat, s: WorkerStep)
    requires w < |st.workers| && WorkerEnabled(c, st, st.workers[w], s)
    ensures |ApplyWork(c, st, w, s).workers| == |st.workers|
  {
    hide R.TakeOf, C.AllowOf;
  }

  lemma StoreStays(c: Config, st: Sys, l: Label, id: Id)
    requires Enabled(c, st, l) && id in st.stores
    ensures var t := Apply(c, st, l);
      && id in t.stores && MaxFlight(t.stores[id]) == MaxFlight(st.stores[id])
      && SpecOf(t.stores[id]) == SpecOf(st.stores[id])
  {
    if l.Work? {
      A.AccountsStores(c, st, l.w, l.step);
    }
  }

  /** Over any run: the gates of a store are as in CellOk, with that many workers stale. */
  lemma AnyInterleaving(c: Config, states: seq<Sys>, labels: seq<Label>, i: nat, id: Id)
    requires C.Normal(c.breaker) && IsRun(c, states, labels) && Initial(states[0]) && i <= |labels|
    requires id in states[i].stores
    ensures GatesOk(c, states[i], id, StaleLimit(states[i].stores[id], |states[i].workers|))
  {
    var stale := StaleLimit(states[i].stores[id], |states[i].workers|);
    CrewStays(c, states, labels, i);
    forall k | 0 <= k < i
      ensures StaleAtMost(states[k], labels[k], id, stale)
    {
      A.AccountsHold(c, states, labels, k);
      CrewStays(c, states, labels, k);
      assert Steps(c, states[k], labels[k], states[k + 1]);
      if id in states[k].stores {
        StaleBelowLimit(states[k], labels[k], id, c);
        StoresStay(c, states, labels, k, i, id);
      } else {
        NoWorkersYet(states[k], id);
      }
    }
    GatesHold(c, states, labels, i, id, stale);
  }

  lemma NoWorkersYet(st: Sys, id: Id)
    requires A.Accounted(st) && id !in st.stores
    ensures A.Count(st.workers, A.Admitting(id)) == 0
  {
    assert id in st.broker ==> A.QueueOk(st, id);
    A.CountPositive(st.workers, A.Admitting(id));
    assert forall w :: 0 <= w < |st.workers| && A.Selects(A.Admitting(id), st.workers[w]) ==>
      st.workers[w].Slot() == Some(id);
  }

  // ---------- The theorems ----------

  ghost predicate IsHalfOpen(st: Sys, id: Id) {
    id in st.gates.breakers && st.gates.breakers[id].state == C.HalfOpen
  }

  /** Half open, no probe left, and nobody under way who could tell the breaker anything. */
  ghost predicate Stuck(st: Sys, id: Id) {
    && IsHalfOpen(st, id) && st.gates.breakers[id].probesLeft <= 0
    && A.Count(st.workers, A.Admitting(id)) == 0 && A.Count(st.workers, A.Outstanding(id)) == 0
  }

  /** Every probe is accounted for: with enough refill, the probes missing from a half-open breaker's
      budget are workers with a POST out on the store, or about to send one. */
  lemma ProbesAreUnderWay(c: Config, states: seq<Sys>, labels: seq<Label>, i: nat, id: Id)
    requires C.Normal(c.breaker) && IsRun(c, states, labels) && Initial(states[0]) && i <= |labels|
    requires IsHalfOpen(states[i], id) && id in states[i].stores && id in states[i].gates.buckets
    requires AmpleForAll(c, states[i].gates.buckets[id], StaleLimit(states[i].stores[id], |states[i].workers|))
    ensures A.Count(states[i].workers, A.Outstanding(id)) + A.Count(states[i].workers, A.Admitting(id))
         >= c.breaker.probes - states[i].gates.breakers[id].probesLeft
  {
    AnyInterleaving(c, states, labels, i, id);
  }

  /** With Allow and Take atomic the refill has to cover the probes only, and between two steps of
      the gate every probe taken is a POST that is out. */
  lemma ProbesAreOut(c: Config, states: seq<Sys>, labels: seq<Label>, i: nat, id: Id)
    requires C.Normal(c.breaker) && IsRun(c, states, labels) && Initial(states[0]) && i <= |labels|
    requires AtomicGate(states, labels) && A.Count(states[i].workers, A.Admitting(id)) == 0
    requires IsHalfOpen(states[i], id) && id in states[i].gates.buckets
    requires AmpleForAll(c, states[i].gates.buckets[id], 0)
    ensures A.Count(states[i].workers, A.Outstanding(id)) >= c.breaker.probes - states[i].gates.breakers[id].probesLeft
  {
    forall k | 0 <= k < i
      ensures StaleAtMost(states[k], labels[k], id, 0)
    {
      NoneStale(states, labels, k, id);
    }
    GatesHold(c, states, labels, i, id, 0);
  }

  /** With refill for one probe more than can be stale, no interleaving gets the breaker stuck. */
  lemma NeverStuck(c: Config, states: seq<Sys>, labels: seq<Label>, i: nat, id: Id)
    requires C.Normal(c.breaker) && IsRun(c, states, labels) && Initial(states[0]) && i <= |labels|
    requires id in states[i].stores && id in states[i].gates.buckets
    requires AmpleForOne(c, states[i].gates.buckets[id], StaleLimit(states[i].stores[id], |states[i].workers|))
    ensures !Stuck(states[i], id)
  {
    AnyInterleaving(c, states, labels, i, id);
  }

  /** With Allow and Take atomic, refill for one probe is enough. */
  lemma NeverStuckAtomic(c: Config, states: seq<Sys>, labels: seq<Label>, i: nat, id: Id)
    requires C.Normal(c.breaker) && IsRun(c, states, labels) && Initial(states[0]) && i <= |labels|
    requires AtomicGate(states, labels)
    requires id in states[i].gates.buckets && AmpleForOne(c, states[i].gates.buckets[id], 0)
    ensures !Stuck(states[i], id)
  {
    forall k | 0 <= k < i
      ensures StaleAtMost(states[k], labels[k], id, 0)
    {
      NoneStale(states, labels, k, id);
    }
    GatesHold(c, states, labels, i, id, 0);
  }

  /** Whoever has a POST out gets the breaker out of HalfOpen by telling it how the POST ended. */
  lemma TellingLeavesHalfOpen(c: Config, st: Sys, w: nat)
    requires w < |st.workers| && WorkerEnabled(c, st, st.workers[w], Tell)
    ensures !IsHalfOpen(ApplyWork(c, st, w, Tell), st.workers[w].job.storeId)
  {
  }

  /** What such a breaker waits for is under way: some worker has a POST out on the store, or stands
      before its bucket and will be let through. */
  lemma WayOut(c: Config, st: Sys, id: Id, stale: nat) returns (w: nat)
    requires GatesOk(c, st, id, stale) && IsHalfOpen(st, id) && st.gates.breakers[id].probesLeft <= 0
    requires AmpleForOne(c, st.gates.buckets[id], stale)
    ensures w < |st.workers|
    ensures
      || ((st.workers[w].Posting? || st.workers[w].Answered?) && st.workers[w].job.storeId == id)
      || (&& st.workers[w].Admitted? && st.workers[w].job.storeId == id
          && TakeStep(st, w, st.workers[w].job).workers[w].Posting?)
  {
    var x := CellOf(st, id);
    A.CountPositive(st.workers, A.Outstanding(id));
    A.CountPositive(st.workers, A.Admitting(id));
    if x.outstanding >= 1 {
      w :| 0 <= w < |st.workers| && A.Selects(A.Outstanding(id), st.workers[w]);
    } else {
      w :| 0 <= w < |st.workers| && A.Selects(A.Admitting(id), st.workers[w]);
      R.FreeGrantIff(x.k, x.now);
    }
  }

  /** A worker that the breaker turns away, or whose store's breaker is another one. */
  lemma StuckAllow(c: Config, st: Sys, w: nat, id: Id)
    requires Stuck(st, id) && GatesMatch(st, id) && w < |st.workers| && WorkerEnabled(c, st, st.workers[w], Allow)
    ensures Stuck(AllowStep(c, st, w, st.workers[w].job), id)
  {
    var t := AllowStep(c, st, w, st.workers[w].job);
    if st.workers[w].job.storeId == id {
      EnsureIsIdle(st, id);
    }
    Recount(st.workers, w, t.workers[w], id);
  }

  lemma StuckTake(c: Config, st: Sys, w: nat, id: Id)
    requires Stuck(st, id) && w < |st.workers| && WorkerEnabled(c, st, st.workers[w], Take)
    ensures Stuck(TakeStep(st, w, st.workers[w].job), id)
  {
    var t := TakeStep(st, w, st.workers[w].job);
    A.CountPositive(st.workers, A.Admitting(id));
    assert !A.Selects(A.Admitting(id), st.workers[w]);
    TakeLeaves(st, w, id);
    TakePhase(st, w);
    Recount(st.workers, w, t.workers[w], id);
  }

  lemma StuckTell(c: Config, st: Sys, w: nat, id: Id)
    requires Stuck(st, id) && w < |st.workers| && WorkerEnabled(c, st, st.workers[w], Tell)
    ensures Stuck(ApplyWork(c, st, w, Tell), id)
  {
    A.CountPositive(st.workers, A.Outstanding(id));
    assert !A.Selects(A.Outstanding(id), st.workers[w]);
    Recount(st.workers, w, ApplyWork(c, st, w, Tell).workers[w], id);
  }

  lemma StuckQuiet(c: Config, st: Sys, w: nat, s: WorkerStep, id: Id)
    requires Stuck(st, id) && w < |st.workers| && WorkerEnabled(c, st, st.workers[w], s) && !s.Allow? && !s.Take?
    requires !s.Tell?
    ensures Stuck(ApplyWork(c, st, w, s), id)
  {
    hide ApplyWork;
    QuietGates(c, st, w, s);
    A.CountPositive(st.workers, A.Outstanding(id));
    assert !A.Selects(A.Outstanding(id), st.workers[w]);
    Recount(st.workers, w, ApplyWork(c, st, w, s).workers[w], id);
  }

  /** No step whatsoever ends it. */
  lemma StuckStep(c: Config, st: Sys, l: Label, id: Id)
    requires Stuck(st, id) && GatesMatch(st, id) && Enabled(c, st, l)
    ensures Stuck(Apply(c, st, l), id)
  {
    if l.Work? {
      if l.step.Allow? {
        StuckAllow(c, st, l.w, id);
      } else if l.step.Take? {
        StuckTake(c, st, l.w, id);
      } else if l.step.Tell? {
        StuckTell(c, st, l.w, id);
      } else {
        StuckQuiet(c, st, l.w, l.step, id);
      }
    } else {
      StuckElse(c, st, l, id);
    }
  }

  lemma StuckElse(c: Config, st: Sys, l: Label, id: Id)
    requires Stuck(st, id) && GatesMatch(st, id) && Enabled(c, st, l) && !l.Work?
    ensures Stuck(Apply(c, st, l), id)
  {
    hide ApplyWork;
  }

  /** Stuck is for good: over any run, a breaker that is stuck once is stuck ever after. */
  lemma {:induction false} StuckForGood(c: Config, states: seq<Sys>, labels: seq<Label>, i: nat, k: nat, id: Id)
    requires C.Normal(c.breaker) && IsRun(c, states, labels) && Initial(states[0]) && i <= k <= |labels|
    requires Stuck(states[i], id)
    ensures Stuck(states[k], id)
    decreases k
  {
    if i < k {
      StuckForGood(c, states, labels, i, k - 1, id);
      MatchHolds(c, states, labels, k - 1, id);
      assert Steps(c, states[k - 1], labels[k - 1], states[k]);
      StuckStep(c, states[k - 1], labels[k - 1], id);
    }
  }

  lemma MatchHolds(c: Config, states: seq<Sys>, labels: seq<Label>, i: nat, id: Id)
    requires C.Normal(c.breaker) && IsRun(c, states, labels) && Initial(states[0]) && i <= |labels|
    requires IsHalfOpen(states[i], id)
    ensures GatesMatch(states[i], id)
  {
    GatedStores(c, states, labels, i, id);
    AnyInterleaving(c, states, labels, i, id);
  }

  /** A store with a breaker is registered. */
  lemma {:induction false} GatedStores(c: Config, states: seq<Sys>, labels: seq<Label>, i: nat, id: Id)
    requires IsRun(c, states, labels) && Initial(states[0]) && i <= |labels|
    ensures id in states[i].gates.breakers ==> id in states[i].stores
  {
    if i > 0 {
      GatedStores(c, states, labels, i - 1, id);
      assert Steps(c, states[i - 1], labels[i - 1], states[i]);
      GatedStep(c, states[i - 1], labels[i - 1], id);
    }
  }

  lemma GatedStep(c: Config, st: Sys, l: Label, id: Id)
    requires Enabled(c, st, l) && (id in st.gates.breakers ==> id in st.stores)
    ensures id in Apply(c, st, l).gates.breakers ==> id in Apply(c, st, l).stores
  {
    hide R.TakeOf, C.AllowOf;
    if l.Work? && !l.step.Allow? && !l.step.Take? && !l.step.Tell? {
      QuietGates(c, st, l.w, l.step);
    }
  }

  /** Without workers nobody makes gates half open. */
  lemma {:induction false} NoCrewNoGates(c: Config, states: seq<Sys>, labels: seq<Label>, i: nat, id: Id)
    requires IsRun(c, states, labels) && Initial(states[0]) && |states[0].workers| == 0 && i <= |labels|
    ensures !IsHalfOpen(states[i], id)
  {
    QuietCrew(c, states, labels, i, id);
  }

  lemma {:induction false} QuietCrew(c: Config, states: seq<Sys>, labels: seq<Label>, i: nat, id: Id)
    requires IsRun(c, states, labels) && Initial(states[0]) && |states[0].workers| == 0 && i <= |labels|
    ensures id in states[i].gates.breakers ==> states[i].gates.breakers[id].state == C.Closed
  {
    if i > 0 {
      QuietCrew(c, states, labels, i - 1, id);
      CrewStays(c, states, labels, i - 1);
      assert Steps(c, states[i - 1], labels[i - 1], states[i]);
    }
  }
}
